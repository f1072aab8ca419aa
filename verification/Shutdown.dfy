/**
 All send channels of one connection, the task that spawns theirs, and the application.

 The spawner hands every channel task a keepalive sender. After a close it drops its own and
 waits until the last one is gone before it closes the QUIC connection.
 */
module Shutdown {
  import opened Base
  import opened SendTask

  /** Which end of the connection this is. */
  datatype Side = Client | Server

  datatype Spawner = NotStarted | Selecting | Waiting | ConnectionClosed

  /**
     The Connected message of this epoch: a client's connection task sends one at most. `Handled` also
     means that none is to come, as on a server, or after a connection that failed.
   */
  datatype Announcement = Unsent | InQueue | Handled

  /**
     `open`: sends are passed to the channels. `owned`: the connection value still exists.
     `control` holds the indices of the channels whose creation requests are queued; `told` is the
     history of close messages to the tasks.
   */
  datatype Sys = Sys(
    side: Side,
    open: bool,
    owned: bool,
    connected: Announcement,
    control: seq<nat>,
    spawner: Spawner,
    spawnerInbox: seq<CloseReason>,
    keepalive: int,
    chans: seq<Chan>,
    told: seq<CloseReason>)

  function Initial(side: Side): Sys {
    Sys(side, true, true, if side.Client? then Unsent else Handled, [], NotStarted, [], 0, [], [])
  }

  datatype Event =
    | OpenChannel(id: ChannelId, config: ChannelConfig)
    | Send(i: nat, payload: Payload)
    | CloseChannel(i: nat)
    | Disconnect(reason: CloseReason)
    | Announce                   // the connection task sends the Connected message
    | HandleFailed               // it fails instead, and the update handles that
    | HandleConnected            // the update handles it, whatever was called in between
    | DropConnection
    | StartSpawner
    | Dequeue
    | StopSpawner
    | CloseConnection
    | Task(i: nat, step: Step)

  predicate LiveTask(p: Phase) {
    p.Opening? || p.Looping? || p.Draining? || p.FinalFlush?
  }

  predicate Allowed(s: Sys, e: Event) {
    match e
    case OpenChannel(_, _) => s.owned && |s.control| < CONTROL_QUEUE_SIZE && !s.spawner.ConnectionClosed?
    case Send(i, _) => s.open && i < |s.chans| && CanAccept(s.chans[i])
    case CloseChannel(i) => s.owned && i < |s.chans| && s.chans[i].registered
    case Disconnect(_) => s.open
    case Announce => s.connected.Unsent? && !s.spawner.NotStarted?
    case HandleFailed => s.owned && s.connected.Unsent?
    case HandleConnected => s.owned && s.connected.InQueue?
    case DropConnection => s.owned
    case StartSpawner => s.spawner.NotStarted?
    case Dequeue => s.spawner.Selecting? && s.control != [] && s.control[0] < |s.chans|
    case StopSpawner => s.spawner.Selecting? && (s.spawnerInbox != [] || !s.owned)
    case CloseConnection => s.spawner.Waiting? && s.keepalive == 0
    case Task(i, st) =>
      && i < |s.chans|
      && Enabled(s.chans[i], st)
      && (st == Cancel(BroadcastGone) ==> !s.owned)
  }

  /** Keepalive senders cloned by a step: one for each message task an unordered channel spawns. */
  function Clones(c: Chan, st: Step): nat {
    if st.Pop? && c.kind.Unordered? then 1 else 0
  }

  /** Keepalive senders dropped by a step: a message task's when it finishes, a channel task's when it ends. */
  function Drops(c: Chan, st: Step): nat {
    match st
    case OfChild(_, cs) => if cs.ChildFinish? then 1 else 0
    case Finish => 1
    case IoError => if c.phase.FinalFlush? then 1 else 0
    case Cancel(Broadcast) => if c.inbox != [] && c.inbox[0].PeerClosed? then 1 else 0
    case _ => 0
  }

  function Notify(c: Chan, reason: CloseReason): Chan {
    if LiveTask(c.phase) then c.(inbox := c.inbox + [reason]) else c
  }

  function Abandon(c: Chan): Chan {
    if c.phase.Queued? then c.(phase := Abandoned) else c
  }

  function NotifyAll(chans: seq<Chan>, reason: CloseReason): seq<Chan> {
    seq(|chans|, i requires 0 <= i < |chans| => Notify(chans[i], reason))
  }

  function ReleaseAll(chans: seq<Chan>): seq<Chan> {
    seq(|chans|, i requires 0 <= i < |chans| => chans[i].(registered := false))
  }

  function AbandonAll(chans: seq<Chan>): seq<Chan> {
    seq(|chans|, i requires 0 <= i < |chans| => Abandon(chans[i]))
  }

  /**
     A client's spawner subscribes when it starts, so earlier closes pass it by; a server's is given
     the receiver that was there from the start.
   */
  predicate SpawnerListens(s: Sys) {
    s.spawner.Selecting? || (s.spawner.NotStarted? && s.side.Server?)
  }

  function Next(s: Sys, e: Event): Sys
    requires Allowed(s, e)
  {
    match e
    case OpenChannel(id, config) =>
      s.(chans := s.chans + [NewChan(id, config)], control := s.control + [|s.chans|])
    case Send(i, p) => s.(chans := s.chans[i := Accept(s.chans[i], p)])
    case CloseChannel(i) => s.(chans := s.chans[i := s.chans[i].(registered := false)])
    case Disconnect(reason) =>
      s.(open := false,
         spawnerInbox := if SpawnerListens(s) then s.spawnerInbox + [reason] else s.spawnerInbox,
         chans := NotifyAll(s.chans, reason),
         told := s.told + [reason])
    case Announce => s.(connected := InQueue)
    case HandleFailed => s.(connected := Handled, open := false)
    case HandleConnected => s.(connected := Handled, open := true)
    case DropConnection =>
      s.(owned := false, open := false, chans := ReleaseAll(s.chans))
    case StartSpawner => s.(spawner := Selecting, keepalive := s.keepalive + 1)
    case Dequeue =>
      var i := s.control[0];
      s.(control := s.control[1..],
         keepalive := s.keepalive + 1,
         chans := s.chans[i := s.chans[i].(phase := Opening, inbox := [])])
    case StopSpawner => s.(spawner := Waiting, keepalive := s.keepalive - 1)
    case CloseConnection =>
      s.(spawner := ConnectionClosed, control := [], chans := AbandonAll(s.chans))
    case Task(i, st) =>
      s.(chans := s.chans[i := Do(s.chans[i], st)],
         keepalive := s.keepalive + Clones(s.chans[i], st) - Drops(s.chans[i], st))
  }

  // ---- Counting keepalive senders -----------------------------------------

  function LiveChildren(children: seq<Child>): nat {
    if children == [] then 0
    else (if children[0].phase.ChildDone? then 0 else 1) + LiveChildren(children[1..])
  }

  function Holders(c: Chan): nat {
    (if LiveTask(c.phase) then 1 else 0) + LiveChildren(c.children)
  }

  function TotalHolders(chans: seq<Chan>): nat {
    if chans == [] then 0 else Holders(chans[0]) + TotalHolders(chans[1..])
  }

  lemma {:induction false} LiveChildrenUpdate(children: seq<Child>, k: nat, ch: Child)
    requires k < |children|
    ensures LiveChildren(children[k := ch]) ==
            LiveChildren(children) - (if children[k].phase.ChildDone? then 0 else 1)
            + (if ch.phase.ChildDone? then 0 else 1)
  {
    var u := children[k := ch];
    if k == 0 {
      assert u[1..] == children[1..];
    } else {
      assert u[1..] == children[1..][k - 1 := ch];
      LiveChildrenUpdate(children[1..], k - 1, ch);
    }
  }

  lemma {:induction false} LiveChildrenAppend(children: seq<Child>, ch: Child)
    ensures LiveChildren(children + [ch]) == LiveChildren(children) + (if ch.phase.ChildDone? then 0 else 1)
  {
    if children == [] {
      assert [] + [ch] == [ch];
    } else {
      assert (children + [ch])[1..] == children[1..] + [ch];
      LiveChildrenAppend(children[1..], ch);
    }
  }

  lemma {:induction false} TotalUpdate(chans: seq<Chan>, i: nat, c: Chan)
    requires i < |chans|
    ensures TotalHolders(chans[i := c]) == TotalHolders(chans) - Holders(chans[i]) + Holders(c)
  {
    var u := chans[i := c];
    if i == 0 {
      assert u[1..] == chans[1..];
    } else {
      assert u[1..] == chans[1..][i - 1 := c];
      TotalUpdate(chans[1..], i - 1, c);
    }
  }

  lemma {:induction false} TotalAppend(chans: seq<Chan>, c: Chan)
    ensures TotalHolders(chans + [c]) == TotalHolders(chans) + Holders(c)
  {
    if chans == [] {
      assert [] + [c] == [c];
    } else {
      assert (chans + [c])[1..] == chans[1..] + [c];
      TotalAppend(chans[1..], c);
    }
  }

  lemma {:induction false} TotalSame(a: seq<Chan>, b: seq<Chan>)
    requires |a| == |b|
    requires forall i :: 0 <= i < |a| ==> Holders(a[i]) == Holders(b[i])
    ensures TotalHolders(a) == TotalHolders(b)
  {
    if a != [] {
      TotalSame(a[1..], b[1..]);
    }
  }

  lemma {:induction false} TotalZero(chans: seq<Chan>)
    ensures TotalHolders(chans) == 0 <==> forall i :: 0 <= i < |chans| ==> Holders(chans[i]) == 0
  {
    if chans != [] {
      TotalZero(chans[1..]);
      assert forall i :: 1 <= i < |chans| ==> chans[i] == chans[1..][i - 1];
    }
  }

  lemma {:induction false} NoLiveChildren(children: seq<Child>)
    ensures LiveChildren(children) == 0 <==> forall k :: 0 <= k < |children| ==> children[k].phase.ChildDone?
  {
    if children != [] {
      NoLiveChildren(children[1..]);
      assert forall k :: 1 <= k < |children| ==> children[k] == children[1..][k - 1];
    }
  }

  /** What a task step does to the senders it holds is what it does to the count. */
  lemma HoldersStep(c: Chan, st: Step)
    requires KindInv(c) && Enabled(c, st)
    ensures Holders(Do(c, st)) == Holders(c) + Clones(c, st) - Drops(c, st)
  {
    match st
    case Pop(_) =>
      if c.kind.Unordered? {
        LiveChildrenAppend(c.children, Child(c.queue[0], ChildOpening, NEW_WRITER));
      }
    case OfChild(k, cs) =>
      LiveChildrenUpdate(c.children, k, DoChild(c.codec, c.children[k], cs));
    case _ =>
  }

  // ---- Invariant ----------------------------------------------------------

  predicate Closing(p: Phase) {
    p.Draining? || p.FinalFlush? || p == Ended(LocalOrder)
  }

  /**
     A task is told to close only when the application can no longer send on the channel, unless
     the Connected message was handled, perhaps after a disconnect.
   */
  ghost predicate Gate(open: bool, owned: bool, connected: Announcement, c: Chan) {
    && (!owned ==> !c.registered)
    && (c.inbox != [] ==> !open || connected.Handled?)
    && (Closing(c.phase) ==> !c.registered || !open || connected.Handled?)
  }

  ghost predicate ChansInv(s: Sys) {
    forall i :: 0 <= i < |s.chans| ==> ChanInv(s.chans[i]) && Gate(s.open, s.owned, s.connected, s.chans[i])
  }

  ghost predicate ControlInv(s: Sys) {
    && (forall k :: 0 <= k < |s.control| ==>
          s.control[k] < |s.chans| && s.chans[s.control[k]].phase.Queued?)
    && (forall j, k :: 0 <= j < k < |s.control| ==> s.control[j] != s.control[k])
  }

  /** The keepalive count is the spawner's own sender plus those of live channel and message tasks. */
  ghost predicate KeepaliveInv(s: Sys) {
    s.keepalive == (if s.spawner.Selecting? then 1 else 0) + TotalHolders(s.chans)
  }

  ghost predicate Inv(s: Sys) {
    && ChansInv(s)
    && ControlInv(s)
    && KeepaliveInv(s)
    && (!s.owned ==> !s.open)
    && (s.spawner.NotStarted? ==> s.keepalive == 0)
    && (s.spawner.ConnectionClosed? ==> s.keepalive == 0 && s.control == [])
  }

  lemma TaskKeepsGate(open: bool, owned: bool, connected: Announcement, c: Chan, st: Step)
    requires Gate(open, owned, connected, c) && (!owned ==> !open)
    requires Enabled(c, st) && (st == Cancel(BroadcastGone) ==> !owned)
    ensures Gate(open, owned, connected, Do(c, st))
  {
    if st.OfChild? || st.Ready? || st.Write? || st.Flushed? || st.Reported? || st.OpenStream? || st.Pop? {
      assert Do(c, st).inbox == c.inbox && Do(c, st).registered == c.registered;
      assert Closing(Do(c, st).phase) ==> Closing(c.phase);
    }
  }

  lemma TaskKeepsCount(s: Sys, i: nat, st: Step)
    requires Inv(s) && Allowed(s, Task(i, st))
    ensures KeepaliveInv(Next(s, Task(i, st))) && !s.spawner.ConnectionClosed? && !s.spawner.NotStarted?
  {
    HoldersStep(s.chans[i], st);
    TotalUpdate(s.chans, i, Do(s.chans[i], st));
    HoldersAct(s.chans[i], st);
    TotalAtLeast(s.chans, i);
  }

  lemma TaskKeepsControl(s: Sys, i: nat, c': Chan)
    requires ControlInv(s) && i < |s.chans| && !s.chans[i].phase.Queued?
    ensures ControlInv(s.(chans := s.chans[i := c']))
  {
  }

  lemma TaskKeepsInv(s: Sys, i: nat, st: Step)
    requires Inv(s) && Allowed(s, Task(i, st))
    ensures Inv(Next(s, Task(i, st)))
  {
    TaskKeepsCount(s, i, st);
    StepKeepsInv(s.chans[i], st);
    TaskKeepsGate(s.open, s.owned, s.connected, s.chans[i], st);
    QueuedDoesNotStep(s.chans[i], st);
    TaskKeepsControl(s, i, Do(s.chans[i], st));
  }

  lemma QueuedDoesNotStep(c: Chan, st: Step)
    requires KindInv(c) && Enabled(c, st)
    ensures !c.phase.Queued?
  {
  }

  /** Only the holder of a keepalive sender takes steps. */
  lemma HoldersAct(c: Chan, st: Step)
    requires Enabled(c, st)
    ensures Holders(c) > 0
  {
    if st.OfChild? {
      NoLiveChildren(c.children);
    }
  }

  lemma {:induction false} TotalAtLeast(chans: seq<Chan>, i: nat)
    requires i < |chans|
    ensures TotalHolders(chans) >= Holders(chans[i])
  {
    if i > 0 {
      TotalAtLeast(chans[1..], i - 1);
    }
  }

  lemma NotifyKeeps(s: Sys, c: Chan, reason: CloseReason)
    requires ChanInv(c) && Gate(s.open, s.owned, s.connected, c)
    ensures ChanInv(Notify(c, reason)) && Gate(false, s.owned, s.connected, Notify(c, reason))
  {
  }

  lemma ReleaseKeeps(s: Sys, c: Chan, owned: bool, open: bool)
    requires open ==> s.open
    requires ChanInv(c) && Gate(s.open, s.owned, s.connected, c)
    ensures var c' := c.(registered := false); ChanInv(c') && Gate(open, owned, s.connected, c')
  {
  }

  lemma AcceptKeeps(s: Sys, c: Chan, p: Payload)
    requires ChanInv(c) && Gate(s.open, s.owned, s.connected, c) && CanAccept(c) && s.open
    ensures ChanInv(Accept(c, p)) && Gate(s.open, s.owned, s.connected, Accept(c, p))
  {
    AcceptKeepsInv(c, p);
  }

  lemma AbandonKeeps(s: Sys, c: Chan)
    requires ChanInv(c) && Gate(s.open, s.owned, s.connected, c)
    ensures ChanInv(Abandon(c)) && Gate(s.open, s.owned, s.connected, Abandon(c))
    ensures Holders(Abandon(c)) == Holders(c)
  {
  }

  /** Events that leave the spawner and the number of senders alone. */
  lemma PointwiseKeepsInv(s: Sys, s': Sys)
    requires Inv(s) && |s'.chans| == |s.chans| && (!s'.owned ==> !s'.open)
    requires s'.control == s.control && s'.spawner == s.spawner && s'.keepalive == s.keepalive
    requires ChansInv(s')
    requires forall i :: 0 <= i < |s.chans| ==>
               s'.chans[i].phase == s.chans[i].phase && s'.chans[i].children == s.chans[i].children
    ensures Inv(s')
  {
    TotalSame(s.chans, s'.chans);
  }

  lemma AppKeepsInv(s: Sys, e: Event)
    requires Inv(s) && Allowed(s, e)
    requires e.Send? || e.CloseChannel? || e.Disconnect? || e.Announce? || e.HandleFailed? || e.HandleConnected? || e.DropConnection?
    ensures Inv(Next(s, e))
  {
    var s' := Next(s, e);
    forall i | 0 <= i < |s.chans|
      ensures ChanInv(s'.chans[i]) && Gate(s'.open, s'.owned, s'.connected, s'.chans[i])
      ensures s'.chans[i].phase == s.chans[i].phase && s'.chans[i].children == s.chans[i].children
    {
      match e
      case Send(j, p) => if i == j { AcceptKeeps(s, s.chans[i], p); }
      case CloseChannel(j) => if i == j { ReleaseKeeps(s, s.chans[i], s.owned, s.open); }
      case Disconnect(reason) => NotifyKeeps(s, s.chans[i], reason);
      case DropConnection => ReleaseKeeps(s, s.chans[i], false, false);
      case _ =>
    }
    PointwiseKeepsInv(s, s');
  }

  lemma OpenKeepsControl(s: Sys, c: Chan)
    requires ControlInv(s) && c.phase.Queued?
    ensures ControlInv(s.(chans := s.chans + [c], control := s.control + [|s.chans|]))
  {
  }

  lemma OpenKeepsChans(s: Sys, c: Chan)
    requires ChansInv(s) && ChanInv(c) && Gate(s.open, s.owned, s.connected, c)
    ensures ChansInv(s.(chans := s.chans + [c], control := s.control + [|s.chans|]))
  {
  }

  lemma OpenKeepsInv(s: Sys, id: ChannelId, config: ChannelConfig)
    requires Inv(s) && Allowed(s, OpenChannel(id, config))
    ensures Inv(Next(s, OpenChannel(id, config)))
  {
    var c := NewChan(id, config);
    NewChanInv(id, config);
    TotalAppend(s.chans, c);
    OpenKeepsControl(s, c);
    OpenKeepsChans(s, c);
  }

  lemma CloseKeepsInv(s: Sys)
    requires Inv(s) && Allowed(s, CloseConnection)
    ensures Inv(Next(s, CloseConnection))
  {
    var s' := Next(s, CloseConnection);
    forall i | 0 <= i < |s.chans|
      ensures ChanInv(s'.chans[i]) && Gate(s'.open, s'.owned, s'.connected, s'.chans[i])
      ensures Holders(s'.chans[i]) == Holders(s.chans[i])
    {
      AbandonKeeps(s, s.chans[i]);
    }
    TotalSame(s.chans, s'.chans);
  }

  lemma DequeueKeepsInv(s: Sys)
    requires Inv(s) && Allowed(s, Dequeue)
    ensures Inv(Next(s, Dequeue))
  {
    var i := s.control[0];
    TotalUpdate(s.chans, i, s.chans[i].(phase := Opening, inbox := []));
  }

  lemma NextKeepsInv(s: Sys, e: Event)
    requires Inv(s) && Allowed(s, e)
    ensures Inv(Next(s, e))
  {
    match e
    case Task(i, st) => TaskKeepsInv(s, i, st);
    case OpenChannel(id, config) => OpenKeepsInv(s, id, config);
    case Dequeue => DequeueKeepsInv(s);
    case CloseConnection => CloseKeepsInv(s);
    case StartSpawner =>
    case StopSpawner =>
    case _ => AppKeepsInv(s, e);
  }

  // ---- Whole runs ---------------------------------------------------------

  /** Where an event leads, if it can happen. */
  ghost function Outcome(s: Sys, e: Event): Option<Sys> {
    if Allowed(s, e) then Some(Next(s, e)) else None
  }

  /** Where a sequence of events leads from `s`, if they can happen in this order. */
  ghost function After(s: Sys, events: seq<Event>): Option<Sys>
    decreases |events|
  {
    if events == [] then Some(s)
    else
      match After(s, events[..|events| - 1])
      case None => None
      case Some(t) => Outcome(t, events[|events| - 1])
  }

  lemma {:induction false} RunKeepsInv(s: Sys, events: seq<Event>)
    requires Inv(s) && After(s, events).Some?
    ensures Inv(After(s, events).value)
    decreases |events|
  {
    if events != [] {
      var front := events[..|events| - 1];
      RunKeepsInv(s, front);
      NextKeepsInv(After(s, front).value, events[|events| - 1]);
    }
  }

  /** The reasons of the disconnects among the events, in order. */
  function Reasons(events: seq<Event>): seq<CloseReason> {
    if events == [] then []
    else
      var front, e := events[..|events| - 1], events[|events| - 1];
      Reasons(front) + (if e.Disconnect? then [e.reason] else [])
  }

  lemma NextTells(s: Sys, e: Event)
    requires Allowed(s, e)
    ensures Next(s, e).told == s.told + (if e.Disconnect? then [e.reason] else [])
  {
  }

  /** In every run the tasks are told of exactly the disconnects, in order. */
  lemma {:induction false} RunTellsReasons(side: Side, events: seq<Event>)
    requires After(Initial(side), events).Some?
    ensures After(Initial(side), events).value.told == Reasons(events)
    decreases |events|
  {
    if events != [] {
      var front := events[..|events| - 1];
      RunTellsReasons(side, front);
      NextTells(After(Initial(side), front).value, events[|events| - 1]);
    }
  }

  lemma InitialInv(side: Side)
    ensures Inv(Initial(side))
  {
  }

  ghost predicate Finished(c: Chan) {
    && !LiveTask(c.phase)
    && (forall k :: 0 <= k < |c.children| ==> c.children[k].phase.ChildDone?)
  }

  /**
     In every run, the count of keepalive senders is exact at every point, and the connection
     is closed only when each channel task and each message task ever started has finished.
   */
  lemma ConnectionClosesLast(side: Side, events: seq<Event>)
    requires After(Initial(side), events).Some?
    ensures var s := After(Initial(side), events).value;
            && KeepaliveInv(s)
            && (Allowed(s, CloseConnection) || s.spawner.ConnectionClosed? ==>
                  forall i :: 0 <= i < |s.chans| ==> Finished(s.chans[i]))
  {
    var s := After(Initial(side), events).value;
    InitialInv(side);
    RunKeepsInv(Initial(side), events);
    if Allowed(s, CloseConnection) || s.spawner.ConnectionClosed? {
      TotalZero(s.chans);
      forall i | 0 <= i < |s.chans| ensures Finished(s.chans[i]) {
        assert Holders(s.chans[i]) == 0;
        NoLiveChildren(s.chans[i].children);
      }
    }
  }
}

/**
 That a shutdown is never stuck: exactly when the tasks of a connection, left to themselves, can end a
 channel's task and close the connection. Whether they ever get to is up to the scheduler.
 */
module ShutdownCompletes {
  import opened Base
  import opened SendTask
  import opened Shutdown

  // ---- One channel --------------------------------------------------------

  /** A task that is still in its loop, or not yet in it, can be told to leave it. */
  predicate Told(c: Chan) {
    c.phase.Opening? || c.phase.Looping? ==> c.inbox != [] || !c.registered
  }

  /** The first message task that is not done, or their number. */
  function FirstLive(children: seq<Child>): (k: nat)
    ensures k <= |children|
    ensures k < |children| ==> !children[k].phase.ChildDone?
    ensures k == |children| ==> forall j :: 0 <= j < |children| ==> children[j].phase.ChildDone?
  {
    if children == [] || !children[0].phase.ChildDone? then 0 else 1 + FirstLive(children[1..])
  }

  function ChildStepOn(ch: Child): ChildStep {
    match ch.phase
    case ChildOpening => ChildReady
    case ChildFlushing => if ch.writer.buf == [] then ChildFinish else ChildWrite(|ch.writer.buf|)
    case _ => ChildFinish
  }

  /** Writes all that is buffered, or finds that writes fail. */
  function WriteOn(w: Writer): Step {
    if w.broken then IoError else Write(|w.buf|)
  }

  /** What a channel's tasks do next on their way to the end. */
  function StepOn(c: Chan): Step {
    var full := |c.writer.buf| >= BACKPRESSURE_BOUNDARY;
    match c.phase
    case Opening => OpenStream
    case Looping(act) =>
      if act.AwaitReady? && !full then Ready
      else if c.inbox != [] then Cancel(Broadcast)
      else Cancel(ChannelSignal)
    case Draining(Idle) => if c.queue != [] then Pop(false) else DrainEnds
    case Draining(AwaitReady(_)) => if full then WriteOn(c.writer) else Ready
    case Draining(Flushing) => if c.writer.buf == [] && !c.writer.broken then Flushed else WriteOn(c.writer)
    case FinalFlush => if c.kind.Ordered? && c.writer.buf != [] then WriteOn(c.writer) else Finish
    case _ =>
      var k := FirstLive(c.children);
      OfChild(k, if k < |c.children| then ChildStepOn(c.children[k]) else ChildFinish)
  }

  // An upper bound on the steps that are left.

  function ChildTodo(ch: Child): nat {
    match ch.phase
    case ChildOpening => 3
    case ChildFlushing => if ch.writer.buf == [] then 1 else 2
    case ChildReporting => 1
    case ChildDone => 0
  }

  function ChildrenTodo(children: seq<Child>): nat {
    if children == [] then 0 else ChildTodo(children[0]) + ChildrenTodo(children[1..])
  }

  function ActTodo(act: Activity, buffered: nat): nat {
    match act
    case Idle => 0
    case Reporting => 1
    case AwaitReady(_) => if buffered >= BACKPRESSURE_BOUNDARY then 6 else 5
    case Flushing => if buffered == 0 then 2 else 3
  }

  function PhaseTodo(c: Chan): nat {
    match c.phase
    case Opening => 30
    case Looping(act) => 15 + ActTodo(act, |c.writer.buf|)
    case Draining(act) => 5 + ActTodo(act, |c.writer.buf|)
    case FinalFlush => if c.writer.buf == [] then 2 else 3
    case _ => 0
  }

  function Todo(c: Chan): nat {
    8 * |c.queue| + PhaseTodo(c) + ChildrenTodo(c.children)
  }

  lemma {:induction false} TodoAppend(children: seq<Child>, ch: Child)
    ensures ChildrenTodo(children + [ch]) == ChildrenTodo(children) + ChildTodo(ch)
  {
    if children == [] {
      assert [] + [ch] == [ch];
    } else {
      assert (children + [ch])[1..] == children[1..] + [ch];
      TodoAppend(children[1..], ch);
    }
  }

  lemma {:induction false} TodoUpdate(children: seq<Child>, k: nat, ch: Child)
    requires k < |children|
    ensures ChildrenTodo(children[k := ch]) == ChildrenTodo(children) - ChildTodo(children[k]) + ChildTodo(ch)
  {
    var u := children[k := ch];
    if k == 0 {
      assert u[1..] == children[1..];
    } else {
      assert u[1..] == children[1..][k - 1 := ch];
      TodoUpdate(children[1..], k - 1, ch);
    }
  }

  lemma ChildProgresses(codec: ItemCodec, ch: Child)
    requires ChildInv(codec, ch) && !ch.phase.ChildDone?
    ensures ChildEnabled(ch, ChildStepOn(ch)) && ChildTodo(DoChild(codec, ch, ChildStepOn(ch))) < ChildTodo(ch)
  {
  }

  lemma TaskProgresses(c: Chan)
    requires KindInv(c) && Told(c) && LiveTask(c.phase)
    ensures Enabled(c, StepOn(c)) && StepOn(c) != Cancel(BroadcastGone)
    ensures Told(Do(c, StepOn(c))) && Todo(Do(c, StepOn(c))) < Todo(c)
  {
    if StepOn(c).Pop? && c.kind.Unordered? {
      TodoAppend(c.children, Child(c.queue[0], ChildOpening, NEW_WRITER));
    }
  }

  /** A channel that was told, and is not finished, always has a step that leads towards its end. */
  lemma ChannelProgresses(c: Chan)
    requires ChanInv(c) && Told(c) && !Finished(c)
    ensures Enabled(c, StepOn(c)) && StepOn(c) != Cancel(BroadcastGone)
    ensures Told(Do(c, StepOn(c))) && Todo(Do(c, StepOn(c))) < Todo(c)
  {
    if LiveTask(c.phase) {
      TaskProgresses(c);
    } else {
      var k := FirstLive(c.children);
      assert k < |c.children| && c.kind.Unordered?;
      ChildProgresses(c.codec, c.children[k]);
      TodoUpdate(c.children, k, DoChild(c.codec, c.children[k], ChildStepOn(c.children[k])));
    }
  }

  // ---- The connection -----------------------------------------------------

  /** What the tasks of a connection do by themselves, without the application or the peer. */
  predicate Own(e: Event) {
    e.StartSpawner? || e.Dequeue? || e.StopSpawner? || e.CloseConnection? || e.Task?
  }

  predicate AllOwn(events: seq<Event>) {
    forall k :: 0 <= k < |events| ==> Own(events[k])
  }

  /** Left to themselves, the tasks can get from `s` to `t`. */
  ghost predicate Reach(s: Sys, t: Sys) {
    exists events :: AllOwn(events) && After(s, events) == Some(t)
  }

  lemma ReachNext(s: Sys, t: Sys, e: Event)
    requires Reach(s, t) && Allowed(t, e) && Own(e)
    ensures Reach(s, Next(t, e))
  {
    var events :| AllOwn(events) && After(s, events) == Some(t);
    assert (events + [e])[..|events|] == events;
    assert AllOwn(events + [e]) && After(s, events + [e]) == Some(Next(t, e));
  }

  lemma ReachSelf(s: Sys)
    ensures Reach(s, s)
  {
    assert AllOwn([]) && After(s, []) == Some(s);
  }

  /** Only channel `i` and the count of keepalive senders differ. */
  ghost predicate OnlyChannel(t: Sys, t': Sys, i: nat) {
    && t' == t.(chans := t'.chans, keepalive := t'.keepalive)
    && |t'.chans| == |t.chans|
    && (forall j :: 0 <= j < |t.chans| && j != i ==> t'.chans[j] == t.chans[j])
  }

  lemma {:induction false} ChannelFinishes(s: Sys, t: Sys, i: nat) returns (t': Sys)
    requires Reach(s, t) && Inv(t) && i < |t.chans| && Told(t.chans[i])
    ensures Reach(s, t') && Inv(t') && OnlyChannel(t, t', i) && Finished(t'.chans[i])
    decreases Todo(t.chans[i])
  {
    t' := t;
    var c := t.chans[i];
    assert ChanInv(c);
    if !Finished(c) {
      ChannelProgresses(c);
      var e := Task(i, StepOn(c));
      ReachNext(s, t, e);
      NextKeepsInv(t, e);
      t' := ChannelFinishes(s, Next(t, e), i);
    }
  }

  /** Only channels and the count of keepalive senders differ, and the first `n` channels are finished. */
  ghost predicate FirstFinished(t: Sys, t': Sys, n: nat) {
    && t' == t.(chans := t'.chans, keepalive := t'.keepalive)
    && n <= |t'.chans| == |t.chans|
    && (forall j :: 0 <= j < n ==> Finished(t'.chans[j]))
    && (forall j :: n <= j < |t.chans| ==> t'.chans[j] == t.chans[j])
  }

  lemma {:induction false} ChannelsFinish(s: Sys, t: Sys, n: nat) returns (t': Sys)
    requires Reach(s, t) && Inv(t) && n <= |t.chans|
    requires forall i :: 0 <= i < |t.chans| ==> Told(t.chans[i])
    ensures Reach(s, t') && Inv(t') && FirstFinished(t, t', n)
  {
    t' := t;
    if n > 0 {
      t' := ChannelsFinish(s, t, n - 1);
      t' := ChannelFinishes(s, t', n - 1);
    }
  }

  /** The spawner has stopped, or can be told to. */
  predicate SpawnerTold(s: Sys) {
    s.spawner.NotStarted? || s.spawner.Selecting? ==> s.spawnerInbox != [] || !s.owned
  }

  lemma AllFinishedHoldNothing(t: Sys)
    requires Inv(t) && forall i :: 0 <= i < |t.chans| ==> Finished(t.chans[i])
    ensures TotalHolders(t.chans) == 0
  {
    forall i | 0 <= i < |t.chans| ensures Holders(t.chans[i]) == 0 {
      NoLiveChildren(t.chans[i].children);
    }
    TotalZero(t.chans);
  }

  /** Once all channels are finished, the spawner closes the connection. */
  lemma SpawnerCloses(s: Sys, t: Sys) returns (t': Sys)
    requires Reach(s, t) && Inv(t) && SpawnerTold(t) && forall i :: 0 <= i < |t.chans| ==> Finished(t.chans[i])
    ensures Reach(s, t') && t'.spawner.ConnectionClosed?
  {
    t' := t;
    AllFinishedHoldNothing(t);
    if t'.spawner.NotStarted? {
      ReachNext(s, t', StartSpawner);
      t' := Next(t', StartSpawner);
    }
    if t'.spawner.Selecting? {
      ReachNext(s, t', StopSpawner);
      t' := Next(t', StopSpawner);
    }
    if t'.spawner.Waiting? {
      ReachNext(s, t', CloseConnection);
      t' := Next(t', CloseConnection);
    }
  }

  /** The tasks of the connection, left to themselves, can close it. */
  ghost predicate CanClose(s: Sys) {
    exists t :: Reach(s, t) && t.spawner.ConnectionClosed?
  }

  lemma ToldCanClose(s: Sys)
    requires Inv(s) && SpawnerTold(s) && forall i :: 0 <= i < |s.chans| ==> Told(s.chans[i])
    ensures CanClose(s)
  {
    ReachSelf(s);
    var t := ChannelsFinish(s, s, |s.chans|);
    t := SpawnerCloses(s, t);
  }

  // ---- What the tasks cannot do by themselves -----------------------------

  /** The application holds the connection, and the spawner was told nothing. */
  predicate Untold(s: Sys) {
    s.owned && s.spawnerInbox == [] && (s.spawner.NotStarted? || s.spawner.Selecting?)
  }

  lemma NextKeepsUntold(s: Sys, e: Event)
    requires Untold(s) && Allowed(s, e) && Own(e)
    ensures Untold(Next(s, e))
  {
  }

  lemma {:induction false} StaysUntold(s: Sys, events: seq<Event>)
    requires Untold(s) && AllOwn(events) && After(s, events).Some?
    ensures Untold(After(s, events).value)
    decreases |events|
  {
    if events != [] {
      var front := events[..|events| - 1];
      StaysUntold(s, front);
      NextKeepsUntold(After(s, front).value, events[|events| - 1]);
    }
  }

  /** The application holds both ends of the channel, and its task was told nothing. */
  ghost predicate Busy(c: Chan) {
    c.registered && c.inbox == [] && (c.phase.Opening? || c.phase.Looping?)
  }

  lemma StepKeepsBusy(c: Chan, st: Step)
    requires Enabled(c, st) && st != Cancel(BroadcastGone) && Busy(c)
    ensures Busy(Do(c, st))
  {
  }

  lemma NextKeepsBusy(s: Sys, e: Event, i: nat)
    requires ControlInv(s) && s.owned && i < |s.chans| && Busy(s.chans[i]) && Allowed(s, e) && Own(e)
    ensures Next(s, e).owned && i < |Next(s, e).chans| && Busy(Next(s, e).chans[i])
  {
    match e
    case Task(j, st) => if i == j { StepKeepsBusy(s.chans[i], st); }
    case Dequeue => assert s.chans[s.control[0]].phase.Queued?;
    case CloseConnection => assert Next(s, e).chans[i] == Abandon(s.chans[i]);
    case _ =>
  }

  lemma {:induction false} StaysBusy(s: Sys, events: seq<Event>, i: nat)
    requires Inv(s) && s.owned && i < |s.chans| && Busy(s.chans[i]) && AllOwn(events) && After(s, events).Some?
    ensures var t := After(s, events).value; t.owned && i < |t.chans| && Busy(t.chans[i]) && !t.spawner.ConnectionClosed?
    decreases |events|
  {
    RunKeepsInv(s, events);
    if events != [] {
      var front := events[..|events| - 1];
      StaysBusy(s, front, i);
      RunKeepsInv(s, front);
      NextKeepsBusy(After(s, front).value, events[|events| - 1], i);
    }
    TotalAtLeast(After(s, events).value.chans, i);
  }

  // ---- Exactly when -------------------------------------------------------

  /** The tasks of the connection, left to themselves, can get all tasks of the channel to end. */
  ghost predicate CanFinish(s: Sys, i: nat) {
    exists t :: Reach(s, t) && i < |t.chans| && Finished(t.chans[i])
  }

  /**
     At any reachable point: a channel's task, and its message tasks, can come to their end by themselves if
     and only if the application has closed the channel, or a close message is waiting for the task,
     or it has left its loop already; be writes broken, buffers full or payloads queued as they may.
   */
  lemma TasksFinishExactly(side: Side, events: seq<Event>, i: nat)
    requires After(Initial(side), events).Some? && i < |After(Initial(side), events).value.chans|
    ensures var s := After(Initial(side), events).value;
            var c := s.chans[i];
            CanFinish(s, i) <==> !(c.phase.Opening? || c.phase.Looping?) || c.inbox != [] || !c.registered
  {
    var s := After(Initial(side), events).value;
    InitialInv(side);
    RunKeepsInv(Initial(side), events);
    assert Gate(s.open, s.owned, s.connected, s.chans[i]);
    if Told(s.chans[i]) {
      ReachSelf(s);
      var t := ChannelFinishes(s, s, i);
    } else if CanFinish(s, i) {
      var t :| Reach(s, t) && i < |t.chans| && Finished(t.chans[i]);
      var own :| AllOwn(own) && After(s, own) == Some(t);
      StaysBusy(s, own, i);
    }
  }

  /**
     At any point: the tasks can close the connection by themselves if and only if the spawner and every
     task that is still to leave its loop has something to tell it so.
   */
  lemma ClosesExactly(s: Sys)
    requires Inv(s)
    ensures CanClose(s) <==> SpawnerTold(s) && forall i :: 0 <= i < |s.chans| ==> Told(s.chans[i])
  {
    if CanClose(s) {
      var t :| Reach(s, t) && t.spawner.ConnectionClosed?;
      var own :| AllOwn(own) && After(s, own) == Some(t);
      if !SpawnerTold(s) {
        StaysUntold(s, own);
      }
      forall i | 0 <= i < |s.chans| ensures Told(s.chans[i]) {
        assert Gate(s.open, s.owned, s.connected, s.chans[i]);
        if !Told(s.chans[i]) {
          StaysBusy(s, own, i);
        }
      }
    } else if SpawnerTold(s) && forall i :: 0 <= i < |s.chans| ==> Told(s.chans[i]) {
      ToldCanClose(s);
    }
  }

  /** A client's spawner hears of nothing before it starts. */
  predicate Deaf(s: Sys, side: Side) {
    s.side == side && (side.Client? && s.spawner.NotStarted? ==> s.spawnerInbox == [])
  }

  lemma NextKeepsDeaf(s: Sys, side: Side, e: Event)
    requires Deaf(s, side) && Allowed(s, e)
    ensures Deaf(Next(s, e), side)
  {
  }

  lemma {:induction false} RunKeepsDeaf(side: Side, events: seq<Event>)
    requires After(Initial(side), events).Some?
    ensures Deaf(After(Initial(side), events).value, side)
    decreases |events|
  {
    if events != [] {
      var front := events[..|events| - 1];
      RunKeepsDeaf(side, front);
      NextKeepsDeaf(After(Initial(side), front).value, side, events[|events| - 1]);
    }
  }

  /**
     In every run: once the application has disconnected, the tasks can drain, flush and close the connection
     by themselves, except on a client whose connection task has not started the spawner yet, which
     then does not hear of it.
   */
  lemma DisconnectClosesExactly(side: Side, events: seq<Event>, reason: CloseReason)
    requires After(Initial(side), events).Some? && After(Initial(side), events).value.open
    ensures var s := After(Initial(side), events).value;
            CanClose(Next(s, Disconnect(reason))) <==> side.Server? || !s.spawner.NotStarted?
  {
    var s := After(Initial(side), events).value;
    var d := Next(s, Disconnect(reason));
    InitialInv(side);
    RunKeepsInv(Initial(side), events);
    NextKeepsInv(s, Disconnect(reason));
    RunKeepsDeaf(side, events);
    forall i | 0 <= i < |d.chans| ensures Told(d.chans[i]) {
      assert d.chans[i] == Notify(s.chans[i], reason);
    }
    ClosesExactly(d);
  }

  /** In every run: once the connection value was dropped, the tasks can close the connection at any point. */
  lemma DroppedCloses(side: Side, events: seq<Event>)
    requires After(Initial(side), events).Some? && !After(Initial(side), events).value.owned
    ensures CanClose(After(Initial(side), events).value)
  {
    var s := After(Initial(side), events).value;
    InitialInv(side);
    RunKeepsInv(Initial(side), events);
    forall i | 0 <= i < |s.chans| ensures Told(s.chans[i]) {
      assert Gate(s.open, s.owned, s.connected, s.chans[i]);
    }
    ClosesExactly(s);
  }
}

/**
 What closing promises: everything accepted before is still written. Exactly when `close_channel` and
 `disconnect` keep this promise, and which runs do: those in which no Connected message reopens a
 connection that the application has disconnected.

 "Written" is what the tasks can vouch for: the bytes were handed to their streams. That a closed
 connection still transmits them is the QUIC library's part.
 */
module GracefulClose {
  import opened Base
  import opened SendTask
  import opened Shutdown

  /** Every payload the application was told is sent was handed to a stream, or to the datagram queue. */
  ghost predicate Written(c: Chan) {
    match c.kind
    case Ordered => c.writer.stream == Wire(c.codec, c.accepted)
    case Unordered =>
      && Messages(c.children) == c.accepted
      && (forall k :: 0 <= k < |c.children| && !c.children[k].writer.broken ==>
            c.children[k].writer.stream == Coded(c.codec, c.accepted[k]))
    case Datagram => c.datagrams == c.accepted
  }

  /** The tasks of the channel ended on a local close, and no write of its own stream failed. */
  ghost predicate ClosedLocally(c: Chan) {
    c.phase == Ended(LocalOrder) && Finished(c) && !c.writer.broken
  }

  ghost predicate Kept(c: Chan) {
    ClosedLocally(c) ==> c.queue == [] && Written(c)
  }

  /** The task is past its drain: what is accepted from here on stays in the queue. */
  predicate Drained(p: Phase) {
    p.FinalFlush? || p == Ended(LocalOrder)
  }

  /** No payload can be accepted on the channel any more. */
  predicate Sealed(s: Sys, c: Chan) {
    !c.registered || (!s.open && s.connected.Handled?)
  }

  ghost predicate NothingLate(c: Chan) {
    Drained(c.phase) ==> c.drainedAt == |c.accepted|
  }

  /** A task that has ended on a local close kept the promise exactly if nothing was accepted after its drain. */
  lemma KeptExactly(c: Chan)
    requires ChanInv(c) && ClosedLocally(c)
    ensures Kept(c) <==> NothingLate(c)
  {
    assert c.queue == c.accepted[c.drainedAt..];
    if NothingLate(c) {
      match c.kind
      case Ordered => EndedHasWritten(c);
      case Unordered => assert Messages(c.children) == c.accepted;
      case Datagram =>
    }
  }

  // ---- Safe channels ------------------------------------------------------

  /**
     No payload can be accepted after a drain any more: the channel is sealed, its task is gone, or
     its task was told nothing and the connection will not be reopened.
   */
  predicate Settled(s: Sys, c: Chan) {
    || Sealed(s, c) || c.phase.Ended? || c.phase.Abandoned?
    || ((s.open ==> s.connected.Handled?) && (c.phase.Queued? || (c.inbox == [] && !Closing(c.phase))))
  }

  ghost predicate Safe(s: Sys, i: nat) {
    i < |s.chans| && (s.chans[i].writer.broken || (NothingLate(s.chans[i]) && Settled(s, s.chans[i])))
  }

  lemma StepKeepsSettled(s: Sys, c: Chan, st: Step)
    requires ChanInv(c) && Gate(s.open, s.owned, s.connected, c) && NothingLate(c) && Settled(s, c)
    requires Enabled(c, st) && (st == Cancel(BroadcastGone) ==> !s.owned)
    ensures NothingLate(Do(c, st)) && Settled(s, Do(c, st))
  {
    assert Do(c, st).registered == c.registered;
  }

  lemma StepKeepsBroken(c: Chan, st: Step)
    requires Enabled(c, st) && c.writer.broken
    ensures Do(c, st).writer.broken
  {
  }

  lemma TaskKeepsSafe(s: Sys, j: nat, st: Step, i: nat)
    requires Inv(s) && Safe(s, i) && Allowed(s, Task(j, st))
    ensures Safe(Next(s, Task(j, st)), i)
  {
    if i == j {
      assert ChanInv(s.chans[i]) && Gate(s.open, s.owned, s.connected, s.chans[i]);
      if s.chans[i].writer.broken {
        StepKeepsBroken(s.chans[i], st);
      } else {
        StepKeepsSettled(s, s.chans[i], st);
      }
    }
  }

  lemma DequeueKeepsSafe(s: Sys, i: nat)
    requires ControlInv(s) && Safe(s, i) && Allowed(s, Dequeue)
    ensures Safe(Next(s, Dequeue), i)
  {
    assert s.chans[s.control[0]].phase.Queued?;
  }

  lemma AppKeepsSafe(s: Sys, e: Event, i: nat)
    requires Safe(s, i) && Allowed(s, e) && !e.Task? && !e.Dequeue?
    ensures Safe(Next(s, e), i)
  {
    match e
    case Disconnect(reason) => assert Next(s, e).chans[i] == Notify(s.chans[i], reason);
    case CloseConnection => assert Next(s, e).chans[i] == Abandon(s.chans[i]);
    case _ =>
  }

  lemma NextKeepsSafe(s: Sys, e: Event, i: nat)
    requires Inv(s) && Safe(s, i) && Allowed(s, e)
    ensures Safe(Next(s, e), i)
  {
    match e
    case Task(j, st) => TaskKeepsSafe(s, j, st, i);
    case Dequeue => DequeueKeepsSafe(s, i);
    case _ => AppKeepsSafe(s, e, i);
  }

  lemma {:induction false} RunKeepsSafe(s: Sys, events: seq<Event>, i: nat)
    requires Inv(s) && Safe(s, i) && After(s, events).Some?
    ensures Safe(After(s, events).value, i)
    decreases |events|
  {
    if events != [] {
      var front := events[..|events| - 1];
      RunKeepsSafe(s, front, i);
      RunKeepsInv(s, front);
      NextKeepsSafe(After(s, front).value, events[|events| - 1], i);
    }
  }

  /** Whatever happens after `s`, the promise is kept for channel `i`. */
  ghost predicate KeepsPromise(s: Sys, i: nat) {
    forall later :: After(s, later).Some? && i < |After(s, later).value.chans| ==> Kept(After(s, later).value.chans[i])
  }

  lemma SafeKeepsPromise(s: Sys, i: nat)
    requires Inv(s) && Safe(s, i)
    ensures KeepsPromise(s, i)
  {
    forall later | After(s, later).Some? && i < |After(s, later).value.chans|
      ensures Kept(After(s, later).value.chans[i])
    {
      var c := After(s, later).value.chans[i];
      RunKeepsSafe(s, later, i);
      RunKeepsInv(s, later);
      if ClosedLocally(c) {
        KeptExactly(c);
      }
    }
  }

  // ---- Ways to break the promise ------------------------------------------

  /** The other half: a way to go on from `s` that leads to `t`. */
  ghost predicate Leads(s: Sys, t: Sys) {
    exists events :: After(s, events) == Some(t)
  }

  lemma LeadsNext(s: Sys, t: Sys, e: Event)
    requires Leads(s, t) && Allowed(t, e)
    ensures Leads(s, Next(t, e))
  {
    var events :| After(s, events) == Some(t);
    assert (events + [e])[..|events|] == events;
    assert After(s, events + [e]) == Some(Next(t, e));
  }

  /** Everything but the channels and the keepalive count is the same. */
  ghost predicate SameAround(t: Sys, t': Sys) {
    t'.open == t.open && t'.owned == t.owned && t'.connected == t.connected && t'.spawner == t.spawner
  }

  lemma TaskLeads(s: Sys, t: Sys, i: nat, st: Step) returns (t': Sys)
    requires Leads(s, t) && i < |t.chans| && Enabled(t.chans[i], st) && st != Cancel(BroadcastGone)
    ensures Leads(s, t') && SameAround(t, t') && i < |t'.chans| && t'.chans[i] == Do(t.chans[i], st)
  {
    LeadsNext(s, t, Task(i, st));
    t' := Next(t, Task(i, st));
  }

  lemma LeadsToInv(s: Sys, t: Sys, i: nat)
    requires Inv(s) && Leads(s, t) && i < |t.chans|
    ensures ChanInv(t.chans[i])
  {
    var events :| After(s, events) == Some(t);
    RunKeepsInv(s, events);
  }

  /** Only the task has acted on the channel, and none of its own writes has failed. */
  ghost predicate SameChannel(c: Chan, c': Chan) {
    && c'.kind == c.kind && c'.codec == c.codec && c'.accepted == c.accepted
    && c'.registered == c.registered && c'.inbox == c.inbox
    && !c.writer.broken && !c'.writer.broken
  }

  lemma WriteOut(s: Sys, t: Sys, i: nat) returns (t': Sys)
    requires Leads(s, t) && i < |t.chans| && SameChannel(t.chans[i], t.chans[i])
    requires Writing(t.chans[i])
    ensures Leads(s, t') && SameAround(t, t') && i < |t'.chans| && SameChannel(t.chans[i], t'.chans[i])
    ensures t'.chans[i].phase == t.chans[i].phase && t'.chans[i].queue == t.chans[i].queue
    ensures t'.chans[i].writer.buf == [] && t'.chans[i].drainedAt == t.chans[i].drainedAt
  {
    var n := |t.chans[i].writer.buf|;
    if n == 0 {
      t' := t;
    } else {
      t' := TaskLeads(s, t, i, Write(n));
    }
  }

  lemma SendInHand(s: Sys, t: Sys, i: nat) returns (t': Sys)
    requires Leads(s, t) && i < |t.chans| && SameChannel(t.chans[i], t.chans[i])
    requires t.chans[i].kind.Ordered? && t.chans[i].phase.Draining? && t.chans[i].phase.act.AwaitReady?
    requires |t.chans[i].writer.buf| < BACKPRESSURE_BOUNDARY
    ensures Leads(s, t') && SameAround(t, t') && i < |t'.chans| && SameChannel(t.chans[i], t'.chans[i])
    ensures t'.chans[i].phase == Draining(Idle) && t'.chans[i].queue == t.chans[i].queue
  {
    t' := TaskLeads(s, t, i, Ready);
    if t'.chans[i].phase == Draining(Flushing) {
      t' := WriteOut(s, t', i);
      t' := TaskLeads(s, t', i, Flushed);
    }
  }

  lemma DrainOne(s: Sys, t: Sys, i: nat) returns (t': Sys)
    requires Leads(s, t) && i < |t.chans| && SameChannel(t.chans[i], t.chans[i])
    requires t.chans[i].phase == Draining(Idle) && t.chans[i].queue != []
    ensures Leads(s, t') && SameAround(t, t') && i < |t'.chans| && SameChannel(t.chans[i], t'.chans[i])
    ensures t'.chans[i].phase == Draining(Idle) && t'.chans[i].queue == t.chans[i].queue[1..]
  {
    t' := TaskLeads(s, t, i, Pop(false));
    if t.chans[i].kind.Ordered? {
      if |t'.chans[i].writer.buf| >= BACKPRESSURE_BOUNDARY {
        t' := WriteOut(s, t', i);
      }
      t' := SendInHand(s, t', i);
    }
  }

  lemma {:induction false} DrainAll(s: Sys, t: Sys, i: nat) returns (t': Sys)
    requires Leads(s, t) && i < |t.chans| && SameChannel(t.chans[i], t.chans[i])
    requires t.chans[i].phase == Draining(Idle)
    ensures Leads(s, t') && SameAround(t, t') && i < |t'.chans| && SameChannel(t.chans[i], t'.chans[i])
    ensures t'.chans[i].phase == Draining(Idle) && t'.chans[i].queue == []
    decreases |t.chans[i].queue|
  {
    t' := t;
    if t.chans[i].queue != [] {
      t' := DrainOne(s, t, i);
      t' := DrainAll(s, t', i);
    }
  }

  /** The task acts on the close: it leaves its loop and drains. */
  lemma HearsClose(s: Sys, t: Sys, i: nat) returns (t': Sys)
    requires Leads(s, t) && i < |t.chans| && SameChannel(t.chans[i], t.chans[i]) && ChanInv(t.chans[i])
    requires t.chans[i].phase.Opening? || t.chans[i].phase.Looping?
    requires t.chans[i].inbox == [LocalOrder]
    ensures Leads(s, t') && SameAround(t, t') && i < |t'.chans|
    ensures SameChannel(t.chans[i].(inbox := []), t'.chans[i]) && t'.chans[i].phase == Draining(Idle)
  {
    t' := t;
    if t.chans[i].phase.Opening? {
      t' := TaskLeads(s, t, i, OpenStream);
    } else if Act(t.chans[i].phase).AwaitReady? {
      t' := TaskLeads(s, t, i, Ready);
    }
    var c := t'.chans[i];
    assert c.inbox[1..] == [];
    t' := TaskLeads(s, t', i, Cancel(Broadcast));
  }

  /** Drained and flushed, the task has only to end. */
  lemma ReachesFlush(s: Sys, t: Sys, i: nat) returns (t': Sys)
    requires Leads(s, t) && i < |t.chans| && SameChannel(t.chans[i], t.chans[i]) && ChanInv(t.chans[i])
    requires t.chans[i].phase.Opening? || t.chans[i].phase.Looping?
    requires t.chans[i].inbox == [LocalOrder]
    ensures Leads(s, t') && SameAround(t, t') && i < |t'.chans|
    ensures SameChannel(t.chans[i].(inbox := []), t'.chans[i])
    ensures t'.chans[i].phase == FinalFlush && t'.chans[i].queue == []
    ensures t'.chans[i].kind.Ordered? ==> t'.chans[i].writer.buf == []
  {
    t' := HearsClose(s, t, i);
    t' := DrainAll(s, t', i);
    t' := TaskLeads(s, t', i, DrainEnds);
    if t'.chans[i].kind.Ordered? {
      t' := WriteOut(s, t', i);
    }
  }

  /** `c'` differs from `c` in its message tasks alone, of which the first `k` are done. */
  ghost predicate ChildrenDone(c: Chan, c': Chan, k: nat) {
    && c' == c.(children := c'.children) && |c'.children| == |c.children| && k <= |c.children|
    && (forall j :: 0 <= j < k ==> c'.children[j].phase.ChildDone?)
    && (forall j :: k <= j < |c.children| ==> c'.children[j] == c.children[j])
  }

  /** Only message task `k` has done anything. */
  ghost predicate OneChild(c: Chan, c': Chan, k: nat) {
    k < |c.children| == |c'.children| && c' == c.(children := c.children[k := c'.children[k]])
  }

  lemma ChildLeads(s: Sys, t: Sys, i: nat, k: nat, st: ChildStep) returns (t': Sys)
    requires Leads(s, t) && i < |t.chans| && k < |t.chans[i].children| && ChildEnabled(t.chans[i].children[k], st)
    ensures Leads(s, t') && SameAround(t, t') && i < |t'.chans| && OneChild(t.chans[i], t'.chans[i], k)
    ensures t'.chans[i].children[k] == DoChild(t.chans[i].codec, t.chans[i].children[k], st)
  {
    t' := TaskLeads(s, t, i, OfChild(k, st));
  }

  lemma ChildStarts(s: Sys, t: Sys, i: nat, k: nat) returns (t': Sys)
    requires Leads(s, t) && i < |t.chans| && k < |t.chans[i].children|
    ensures Leads(s, t') && SameAround(t, t') && i < |t'.chans| && OneChild(t.chans[i], t'.chans[i], k)
    ensures !t'.chans[i].children[k].phase.ChildOpening?
  {
    t' := t;
    if t.chans[i].children[k].phase.ChildOpening? {
      t' := ChildLeads(s, t, i, k, ChildReady);
    }
  }

  lemma ChildWritesOut(s: Sys, t: Sys, i: nat, k: nat) returns (t': Sys)
    requires Leads(s, t) && i < |t.chans| && k < |t.chans[i].children|
    requires ChildInv(t.chans[i].codec, t.chans[i].children[k]) && !t.chans[i].children[k].phase.ChildOpening?
    ensures Leads(s, t') && SameAround(t, t') && i < |t'.chans| && OneChild(t.chans[i], t'.chans[i], k)
    ensures var ch := t'.chans[i].children[k];
            ch.phase.ChildReporting? || ch.phase.ChildDone? || (ch.phase.ChildFlushing? && ch.writer.buf == [])
  {
    t' := t;
    var ch := t.chans[i].children[k];
    if ch.phase.ChildFlushing? && ch.writer.buf != [] {
      t' := ChildLeads(s, t, i, k, ChildWrite(|ch.writer.buf|));
    }
  }

  lemma ChildFinishes(s: Sys, t: Sys, i: nat, k: nat) returns (t': Sys)
    requires Inv(s) && Leads(s, t) && i < |t.chans| && k < |t.chans[i].children| && t.chans[i].kind.Unordered?
    ensures Leads(s, t') && SameAround(t, t') && i < |t'.chans| && OneChild(t.chans[i], t'.chans[i], k)
    ensures t'.chans[i].children[k].phase.ChildDone?
  {
    t' := ChildStarts(s, t, i, k);
    LeadsToInv(s, t', i);
    assert ChildInv(t'.chans[i].codec, t'.chans[i].children[k]);
    t' := ChildWritesOut(s, t', i, k);
    if !t'.chans[i].children[k].phase.ChildDone? {
      t' := ChildLeads(s, t', i, k, ChildFinish);
    }
  }

  lemma {:induction false} ChildrenFinish(s: Sys, t: Sys, i: nat, k: nat) returns (t': Sys)
    requires Inv(s) && Leads(s, t) && i < |t.chans| && k <= |t.chans[i].children|
    ensures Leads(s, t') && SameAround(t, t') && i < |t'.chans| && ChildrenDone(t.chans[i], t'.chans[i], k)
  {
    t' := t;
    if k > 0 {
      t' := ChildrenFinish(s, t, i, k - 1);
      LeadsToInv(s, t', i);
      t' := ChildFinishes(s, t', i, k - 1);
    }
  }

  /** The Connected message arrives after all, and a payload is accepted that the drain did not see. */
  lemma AcceptsTooLate(s: Sys, t: Sys, i: nat) returns (t': Sys)
    requires Leads(s, t) && i < |t.chans| && SameChannel(t.chans[i], t.chans[i]) && t.chans[i].registered
    requires t.chans[i].phase == FinalFlush && t.chans[i].queue == [] && t.chans[i].drainedAt <= |t.chans[i].accepted|
    requires t.owned && !t.connected.Handled? && !t.spawner.NotStarted?
    ensures Leads(s, t') && i < |t'.chans| && t'.open && t'.connected.Handled? && t'.chans[i].registered
    ensures t'.chans[i].phase == FinalFlush && !t'.chans[i].writer.broken && !NothingLate(t'.chans[i])
  {
    t' := t;
    if t'.connected.Unsent? {
      LeadsNext(s, t', Announce);
      t' := Next(t', Announce);
    }
    LeadsNext(s, t', HandleConnected);
    t' := Next(t', HandleConnected);
    LeadsNext(s, t', Send(i, []));
    t' := Next(t', Send(i, []));
  }

  /** The task has only to end: all that is in its hands is written out. */
  lemma EndsTask(s: Sys, t: Sys, i: nat) returns (t': Sys)
    requires Leads(s, t) && i < |t.chans| && SameChannel(t.chans[i], t.chans[i]) && Drained(t.chans[i].phase)
    ensures Leads(s, t') && i < |t'.chans| && t'.chans[i].phase == Ended(LocalOrder) && !t'.chans[i].writer.broken
    ensures t'.chans[i].accepted == t.chans[i].accepted && t'.chans[i].drainedAt == t.chans[i].drainedAt
  {
    t' := t;
    if t.chans[i].phase.FinalFlush? {
      if t.chans[i].kind.Ordered? {
        t' := WriteOut(s, t', i);
      }
      t' := TaskLeads(s, t', i, Finish);
    }
  }

  /** What was accepted after the drain is never written. */
  lemma LateBreaksPromise(s: Sys, i: nat)
    requires Inv(s) && i < |s.chans| && !s.chans[i].writer.broken && !NothingLate(s.chans[i])
    ensures !KeepsPromise(s, i)
  {
    assert After(s, []) == Some(s);
    var t := EndsTask(s, s, i);
    t := ChildrenFinish(s, t, i, |t.chans[i].children|);
    LeadsToInv(s, t, i);
    KeptExactly(t.chans[i]);
    var later :| After(s, later) == Some(t);
  }

  lemma ContinuesPromise(s: Sys, t: Sys, i: nat)
    requires Leads(s, t) && KeepsPromise(s, i)
    ensures KeepsPromise(t, i)
  {
    var first :| After(s, first) == Some(t);
    forall later | After(t, later).Some? && i < |After(t, later).value.chans|
      ensures Kept(After(t, later).value.chans[i])
    {
      AfterConcat(s, first, later);
    }
  }

  lemma LeadsToWholeInv(s: Sys, t: Sys)
    requires Inv(s) && Leads(s, t)
    ensures Inv(t)
  {
    var events :| After(s, events) == Some(t);
    RunKeepsInv(s, events);
  }

  /** A channel that heard of a disconnect while connecting can be reopened after its drain. */
  lemma DrainsThenReopens(s: Sys, i: nat) returns (t: Sys)
    requires Inv(s) && s.open && !s.connected.Handled? && i < |s.chans|
    requires var c := s.chans[i]; c.registered && LiveTask(c.phase) && !c.writer.broken
    ensures Leads(Next(s, Disconnect(LocalOrder)), t) && i < |t.chans|
    ensures t.open && t.connected.Handled? && t.chans[i].registered
    ensures t.chans[i].phase == FinalFlush && !t.chans[i].writer.broken && !NothingLate(t.chans[i])
  {
    var d := Next(s, Disconnect(LocalOrder));
    var c := s.chans[i];
    assert ChanInv(c) && Gate(s.open, s.owned, s.connected, c);
    assert d.chans[i] == c.(inbox := [LocalOrder]);
    assert s.owned;
    HoldersKeepSpawner(s, i);
    assert After(d, []) == Some(d);
    NextKeepsInv(s, Disconnect(LocalOrder));
    t := ReachesFlush(d, d, i);
    LeadsToInv(d, t, i);
    t := AcceptsTooLate(d, t, i);
  }

  lemma DisconnectedTooEarly(s: Sys, i: nat)
    requires Inv(s) && s.open && !s.connected.Handled? && i < |s.chans|
    requires var c := s.chans[i]; c.registered && LiveTask(c.phase) && !c.writer.broken
    ensures !KeepsPromise(Next(s, Disconnect(LocalOrder)), i)
  {
    var d := Next(s, Disconnect(LocalOrder));
    var t := DrainsThenReopens(s, i);
    NextKeepsInv(s, Disconnect(LocalOrder));
    LeadsToWholeInv(d, t);
    LateBreaksPromise(t, i);
    if KeepsPromise(d, i) {
      ContinuesPromise(d, t, i);
    }
  }

  /** Where a task runs, the spawner has started. */
  lemma HoldersKeepSpawner(s: Sys, i: nat)
    requires Inv(s) && i < |s.chans| && LiveTask(s.chans[i].phase)
    ensures !s.spawner.NotStarted?
  {
    TotalAtLeast(s.chans, i);
  }

  // ---- Exactly when the promise is kept ------------------------------------

  /**
     Exactly when a channel that was closed, or whose connection was dropped, keeps the promise: when
     nothing was accepted on it after a drain, which takes a connection that was reopened.
   */
  lemma ReleasedChannelKeepsPromiseExactly(side: Side, events: seq<Event>, i: nat)
    requires After(Initial(side), events).Some?
    requires var s := After(Initial(side), events).value; i < |s.chans| && !s.chans[i].registered
    ensures var s := After(Initial(side), events).value;
            KeepsPromise(s, i) <==> s.chans[i].writer.broken || NothingLate(s.chans[i])
  {
    var s := After(Initial(side), events).value;
    InitialInv(side);
    RunKeepsInv(Initial(side), events);
    if s.chans[i].writer.broken || NothingLate(s.chans[i]) {
      SafeKeepsPromise(s, i);
    } else {
      LateBreaksPromise(s, i);
    }
  }

  lemma DisconnectIsSafe(s: Sys, i: nat)
    requires Inv(s) && s.open && i < |s.chans|
    requires var c := s.chans[i];
             c.writer.broken || (NothingLate(c) && (!c.registered || s.connected.Handled? || !LiveTask(c.phase)))
    ensures Safe(Next(s, Disconnect(LocalOrder)), i)
  {
    assert Next(s, Disconnect(LocalOrder)).chans[i] == Notify(s.chans[i], LocalOrder);
  }

  /**
     Exactly when disconnecting keeps the promise, at any reachable point and for any channel whose own
     writes have not failed: when nothing was accepted after a drain before, and the Connected message
     of this epoch was handled before the call, that is, the connection was connected and not still
     connecting. That does not matter for a channel that is closed, or has no task to hear of it.
   */
  lemma DisconnectKeepsPromiseExactly(side: Side, events: seq<Event>, i: nat)
    requires After(Initial(side), events).Some?
    requires After(Initial(side), events).value.open && i < |After(Initial(side), events).value.chans|
    ensures var s := After(Initial(side), events).value;
            var c := s.chans[i];
            KeepsPromise(Next(s, Disconnect(LocalOrder)), i) <==>
              c.writer.broken || (NothingLate(c) && (!c.registered || s.connected.Handled? || !LiveTask(c.phase)))
  {
    var s := After(Initial(side), events).value;
    var d, c := Next(s, Disconnect(LocalOrder)), s.chans[i];
    InitialInv(side);
    RunKeepsInv(Initial(side), events);
    NextKeepsInv(s, Disconnect(LocalOrder));
    if c.writer.broken || (NothingLate(c) && (!c.registered || s.connected.Handled? || !LiveTask(c.phase))) {
      DisconnectIsSafe(s, i);
      SafeKeepsPromise(d, i);
    } else if !NothingLate(c) {
      LateBreaksPromise(d, i);
    } else {
      DisconnectedTooEarly(s, i);
    }
  }

  // ---- Whole runs ---------------------------------------------------------

  /** No Connected message is handled after the application has disconnected. */
  ghost predicate NotReopened(events: seq<Event>) {
    forall j, k :: 0 <= j < k < |events| && events[j] == Disconnect(LocalOrder) ==> !events[k].HandleConnected?
  }

  /**
     `ordered`: the application has disconnected. A loss that is noticed while connecting may be
     followed by a Connected message, but it ends the tasks without a drain.
   */
  ghost predicate InOrder(s: Sys, ordered: bool, c: Chan) {
    && (c.inbox != [] ==> ordered || Sealed(s, c) || c.inbox == [PeerClosed])
    && (Closing(c.phase) ==> ordered || Sealed(s, c))
    && NothingLate(c)
  }

  ghost predicate OrderInv(s: Sys, ordered: bool) {
    && (ordered ==> !s.open)
    && (forall i :: 0 <= i < |s.chans| ==> InOrder(s, ordered, s.chans[i]))
  }

  lemma TaskKeepsOrder(s: Sys, ordered: bool, c: Chan, st: Step)
    requires InOrder(s, ordered, c) && Gate(s.open, s.owned, s.connected, c)
    requires Enabled(c, st) && (st == Cancel(BroadcastGone) ==> !s.owned)
    ensures InOrder(s, ordered, Do(c, st))
  {
    assert Do(c, st).registered == c.registered;
  }

  lemma NotifyKeepsOrder(s: Sys, ordered: bool, c: Chan, reason: CloseReason)
    requires InOrder(s, ordered, c) && Gate(s.open, s.owned, s.connected, c) && s.open && !ordered
    ensures InOrder(Next(s, Disconnect(reason)), reason == LocalOrder, Notify(c, reason))
  {
    if c.inbox == [] {
      assert [] + [reason] == [reason];
    } else {
      assert s.connected.Handled?;
    }
  }

  lemma ChannelKeepsOrder(s: Sys, ordered: bool, e: Event, i: nat)
    requires OrderInv(s, ordered) && Allowed(s, e) && (ordered ==> !e.HandleConnected?)
    requires i < |s.chans| && Gate(s.open, s.owned, s.connected, s.chans[i])
    ensures InOrder(Next(s, e), ordered || e == Disconnect(LocalOrder), Next(s, e).chans[i])
  {
    assert InOrder(s, ordered, s.chans[i]);
    match e
    case Task(j, st) => if i == j { TaskKeepsOrder(s, ordered, s.chans[i], st); }
    case Disconnect(reason) =>
      NotifyKeepsOrder(s, ordered, s.chans[i], reason);
      assert Next(s, e).chans[i] == Notify(s.chans[i], reason);
    case _ =>
  }

  lemma NextKeepsOrder(s: Sys, ordered: bool, e: Event)
    requires Inv(s) && OrderInv(s, ordered) && Allowed(s, e) && (ordered ==> !e.HandleConnected?)
    ensures OrderInv(Next(s, e), ordered || e == Disconnect(LocalOrder))
  {
    var s' := Next(s, e);
    forall i | 0 <= i < |s'.chans| ensures InOrder(s', ordered || e == Disconnect(LocalOrder), s'.chans[i]) {
      if i < |s.chans| {
        ChannelKeepsOrder(s, ordered, e, i);
      }
    }
  }

  lemma NotReopenedFront(events: seq<Event>, e: Event)
    requires NotReopened(events + [e])
    ensures NotReopened(events) && (Disconnect(LocalOrder) in events ==> !e.HandleConnected?)
  {
    var all := events + [e];
    forall j, k | 0 <= j < k < |events| && events[j] == Disconnect(LocalOrder) ensures !events[k].HandleConnected? {
      assert all[j] == events[j] && all[k] == events[k];
    }
    if Disconnect(LocalOrder) in events {
      var j :| 0 <= j < |events| && events[j] == Disconnect(LocalOrder);
      assert all[j] == events[j] && all[|events|] == e;
    }
  }

  lemma {:induction false} RunKeepsOrder(side: Side, events: seq<Event>)
    requires After(Initial(side), events).Some? && NotReopened(events)
    ensures var s := After(Initial(side), events).value; Inv(s) && OrderInv(s, Disconnect(LocalOrder) in events)
    decreases |events|
  {
    if events == [] {
      InitialInv(side);
    } else {
      var front, e := events[..|events| - 1], events[|events| - 1];
      var s, ordered := After(Initial(side), front).value, Disconnect(LocalOrder) in front;
      assert events == front + [e];
      NotReopenedFront(front, e);
      RunKeepsOrder(side, front);
      NextKeepsOrder(s, ordered, e);
      NextKeepsInv(s, e);
    }
  }

  ghost predicate AllKept(s: Sys) {
    forall i :: 0 <= i < |s.chans| ==> Kept(s.chans[i])
  }

  /**
     In every run in which no Connected message is handled after the application has disconnected,
     every channel that ends on a local close keeps the promise.
   */
  lemma RunsKeepPromises(side: Side, events: seq<Event>)
    requires After(Initial(side), events).Some? && NotReopened(events)
    ensures AllKept(After(Initial(side), events).value)
  {
    var s := After(Initial(side), events).value;
    RunKeepsOrder(side, events);
    forall i | 0 <= i < |s.chans| ensures Kept(s.chans[i]) {
      assert ChanInv(s.chans[i]) && InOrder(s, Disconnect(LocalOrder) in events, s.chans[i]);
      if ClosedLocally(s.chans[i]) {
        KeptExactly(s.chans[i]);
      }
    }
  }

  /**
     For the caller, in such runs: closing a channel keeps the promise, whatever comes later, and
     disconnecting does if and only if the connection is not still connecting, as far as the channel
     has a task, and one whose writes have not failed.
   */
  lemma CallersAreKeptExactly(side: Side, events: seq<Event>, i: nat)
    requires After(Initial(side), events).Some? && NotReopened(events) && i < |After(Initial(side), events).value.chans|
    ensures var s := After(Initial(side), events).value;
            var c := s.chans[i];
            && (!c.registered ==> KeepsPromise(s, i))
            && (s.open ==>
                  (KeepsPromise(Next(s, Disconnect(LocalOrder)), i) <==>
                    s.connected.Handled? || !c.registered || !LiveTask(c.phase) || c.writer.broken))
  {
    var s := After(Initial(side), events).value;
    RunKeepsOrder(side, events);
    assert InOrder(s, Disconnect(LocalOrder) in events, s.chans[i]);
    if !s.chans[i].registered {
      ReleasedChannelKeepsPromiseExactly(side, events, i);
    }
    if s.open {
      DisconnectKeepsPromiseExactly(side, events, i);
    }
  }

  /** The Connected message is handled once at most. */
  lemma HandledOnce(s: Sys, e: Event)
    requires Allowed(s, e) && s.connected.Handled?
    ensures !e.HandleConnected? && Next(s, e).connected.Handled?
  {
  }

  lemma NotReopenedNext(events: seq<Event>, e: Event)
    requires NotReopened(events) && (Disconnect(LocalOrder) in events ==> !e.HandleConnected?)
    ensures NotReopened(events + [e])
  {
  }

  /** The application does not disconnect while the Connected message is still to come. */
  ghost predicate Patient(s: Sys, events: seq<Event>)
    requires After(s, events).Some?
    decreases |events|
  {
    events == [] ||
    var front := events[..|events| - 1];
    Patient(s, front) && (events[|events| - 1] == Disconnect(LocalOrder) ==> After(s, front).value.connected.Handled?)
  }

  lemma {:induction false} PatientIsHandled(s: Sys, events: seq<Event>)
    requires After(s, events).Some? && Patient(s, events) && Disconnect(LocalOrder) in events
    ensures After(s, events).value.connected.Handled?
    decreases |events|
  {
    var front, e := events[..|events| - 1], events[|events| - 1];
    assert events == front + [e];
    if e != Disconnect(LocalOrder) {
      PatientIsHandled(s, front);
    }
    HandledOnce(After(s, front).value, e);
  }

  lemma {:induction false} PatientIsNotReopened(s: Sys, events: seq<Event>)
    requires After(s, events).Some? && Patient(s, events)
    ensures NotReopened(events)
    decreases |events|
  {
    if events != [] {
      var front, e := events[..|events| - 1], events[|events| - 1];
      assert events == front + [e];
      PatientIsNotReopened(s, front);
      if Disconnect(LocalOrder) in front {
        PatientIsHandled(s, front);
        HandledOnce(After(s, front).value, e);
      }
      NotReopenedNext(front, e);
    }
  }

  /** What the application can see to: if it does not disconnect while connecting, the promise is kept. */
  lemma PatientRunsKeepPromises(side: Side, events: seq<Event>)
    requires After(Initial(side), events).Some? && Patient(Initial(side), events)
    ensures AllKept(After(Initial(side), events).value)
  {
    PatientIsNotReopened(Initial(side), events);
    RunsKeepPromises(side, events);
  }

  /**
     Graceful close in such a run: when the connection is closed, every channel whose task ended on a
     local close without a write error has written everything accepted on it.
   */
  lemma ClosesGracefully(side: Side, events: seq<Event>)
    requires After(Initial(side), events).Some? && NotReopened(events)
    requires After(Initial(side), events).value.spawner.ConnectionClosed?
    ensures var chans := After(Initial(side), events).value.chans;
            forall i :: 0 <= i < |chans| && chans[i].phase == Ended(LocalOrder) && !chans[i].writer.broken ==>
              chans[i].queue == [] && Written(chans[i])
  {
    var chans := After(Initial(side), events).value.chans;
    RunsKeepPromises(side, events);
    ConnectionClosesLast(side, events);
    assert forall i :: 0 <= i < |chans| ==> Kept(chans[i]) && Finished(chans[i]);
  }

  lemma {:induction false} ServersAreConnected(events: seq<Event>)
    requires After(Initial(Server), events).Some?
    ensures After(Initial(Server), events).value.connected.Handled? && NotReopened(events)
    decreases |events|
  {
    if events != [] {
      var front, e := events[..|events| - 1], events[|events| - 1];
      ServersAreConnected(front);
      HandledOnce(After(Initial(Server), front).value, e);
      NotReopenedNext(front, e);
      assert events == front + [e];
    }
  }

  /** On a server that is every run. */
  lemma ServerClosesGracefully(events: seq<Event>)
    requires After(Initial(Server), events).Some? && After(Initial(Server), events).value.spawner.ConnectionClosed?
    ensures var chans := After(Initial(Server), events).value.chans;
            forall i :: 0 <= i < |chans| && chans[i].phase == Ended(LocalOrder) && !chans[i].writer.broken ==>
              chans[i].queue == [] && Written(chans[i])
  {
    ServersAreConnected(events);
    ClosesGracefully(Server, events);
  }

  // ---- Runs that break the promise -----------------------------------------

  /** All runs of a client, those in which it is reopened after a disconnect only if that is allowed. */
  ghost predicate ClientsKeepPromises(reopened: bool) {
    forall events :: After(Initial(Client), events).Some? && (reopened || NotReopened(events)) ==>
      AllKept(After(Initial(Client), events).value)
  }

  /** A client that has opened one channel and is still connecting. */
  lemma OneChannelOpened() returns (s: Sys)
    ensures Leads(Initial(Client), s) && s.open && s.owned && !s.connected.Handled? && |s.chans| == 1
    ensures s.chans[0].registered && s.chans[0].phase.Opening? && !s.chans[0].writer.broken
  {
    var s0 := Initial(Client);
    assert After(s0, []) == Some(s0);
    LeadsNext(s0, s0, StartSpawner);
    var s1 := Next(s0, StartSpawner);
    LeadsNext(s0, s1, OpenChannel(0, OrderedReliable(0)));
    var s2 := Next(s1, OpenChannel(0, OrderedReliable(0)));
    assert s2.control == [0] && s2.chans == [NewChan(0, OrderedReliable(0))];
    LeadsNext(s0, s2, Dequeue);
    s := Next(s2, Dequeue);
  }

  /**
     A client that disconnects while connecting and is reopened: a payload is accepted after the drain,
     so that neither closing the channel nor disconnecting once more, now connected, keeps the promise.
   */
  lemma ReopenedClientBreaksPromise() returns (events: seq<Event>)
    ensures After(Initial(Client), events).Some?
    ensures var s := After(Initial(Client), events).value;
            && s.open && s.owned && s.connected.Handled? && |s.chans| > 0 && s.chans[0].registered && !KeepsPromise(s, 0)
            && !KeepsPromise(Next(s, CloseChannel(0)), 0) && !KeepsPromise(Next(s, Disconnect(LocalOrder)), 0)
  {
    var s0 := Initial(Client);
    var s := OneChannelOpened();
    InitialInv(Client);
    LeadsToWholeInv(s0, s);
    var t := DrainsThenReopens(s, 0);
    LeadsNext(s0, s, Disconnect(LocalOrder));
    LeadsOn(s0, Next(s, Disconnect(LocalOrder)), t);
    LeadsToWholeInv(s0, t);
    assert t.owned;
    NextKeepsInv(t, CloseChannel(0));
    NextKeepsInv(t, Disconnect(LocalOrder));
    LateBreaksPromise(t, 0);
    LateBreaksPromise(Next(t, CloseChannel(0)), 0);
    LateBreaksPromise(Next(t, Disconnect(LocalOrder)), 0);
    events :| After(s0, events) == Some(t);
  }

  lemma LeadsOn(s: Sys, t: Sys, t': Sys)
    requires Leads(s, t) && Leads(t, t')
    ensures Leads(s, t')
  {
    var first :| After(s, first) == Some(t);
    var later :| After(t, later) == Some(t');
    AfterConcat(s, first, later);
  }

  lemma {:induction false} AfterConcat(s: Sys, a: seq<Event>, b: seq<Event>)
    requires After(s, a).Some? && After(After(s, a).value, b).Some?
    ensures After(s, a + b) == After(After(s, a).value, b)
    decreases |b|
  {
    if b == [] {
      assert a + b == a;
    } else {
      var front := b[..|b| - 1];
      AfterConcat(s, a, front);
      assert (a + b)[..|a + b| - 1] == a + front;
    }
  }

  /** Clients keep the promise in all runs exactly if those that are reopened after a disconnect are excluded. */
  lemma ClientsKeepPromisesExactly(reopened: bool)
    ensures ClientsKeepPromises(reopened) <==> !reopened
  {
    if reopened {
      var first := ReopenedClientBreaksPromise();
      var s := After(Initial(Client), first).value;
      var later :| After(s, later).Some? && 0 < |After(s, later).value.chans| && !Kept(After(s, later).value.chans[0]);
      AfterConcat(Initial(Client), first, later);
      assert !AllKept(After(Initial(Client), first + later).value);
    } else {
      forall events | After(Initial(Client), events).Some? && NotReopened(events)
        ensures AllKept(After(Initial(Client), events).value)
      {
        RunsKeepPromises(Client, events);
      }
    }
  }
}

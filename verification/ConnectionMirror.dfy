/**
 What a client connection has to do with the system of its channels and their tasks: which events its
 operations are, and what both of them hold before and after.
 */
module ConnectionMirrors {
  import opened Base
  import opened SendTask
  import opened PeerConnections
  import opened ClientConnections
  import S = Shutdown
  import GracefulClose

  /** The task, or the request for it, still has the channel's receiver. */
  predicate Receives(p: Phase) {
    !p.Ended? && !p.Abandoned?
  }

  /** The vector holds exactly the registered channels; `ends[i]` is the application's end of channel `i`. */
  ghost predicate SlotsMatch(slots: Slots, ends: seq<Channel>, chans: seq<Chan>) {
    && |ends| == |chans|
    && (forall i, j :: 0 <= i < j < |ends| ==> ends[i] != ends[j])
    && (forall i :: 0 <= i < |ends| ==> (chans[i].registered <==> Slot(slots, ends[i].id) == Some(ends[i])))
    && (forall k: nat :: Slot(slots, k).Some? ==> Slot(slots, k).value in ends)
  }

  /** The queue is the same, and so is whether it is still received from. */
  ghost predicate EndMatches(end: Channel, c: Chan)
    reads end
  {
    end.queue == c.queue && (end.taskAlive <==> Receives(c.phase))
  }

  ghost predicate EndsMatch(ends: seq<Channel>, chans: seq<Chan>)
    reads ends
  {
    |ends| == |chans| && forall i :: 0 <= i < |ends| ==> EndMatches(ends[i], chans[i])
  }

  ghost predicate RequestsMatch(requests: seq<CreateChannel>, ends: seq<Channel>, control: seq<nat>) {
    && |requests| == |control|
    && (forall k :: 0 <= k < |control| ==> control[k] < |ends| && requests[k].channel == ends[control[k]])
  }

  /** The connection task tells whether the server was reached, once. */
  predicate Tells(m: ClientAsyncMessage) {
    m.ServerReached? || m.ConnectionFailed?
  }

  ghost predicate MessagesMatch(ms: seq<ClientAsyncMessage>, connected: S.Announcement) {
    && (forall k :: 0 <= k < |ms| && ms[k].ServerReached? ==> connected.InQueue?)
    && (forall k :: 0 <= k < |ms| && ms[k].ConnectionFailed? ==> connected.Unsent?)
    && (forall j, k :: 0 <= j < k < |ms| ==> !Tells(ms[j]) || !Tells(ms[k]))
  }

  ghost predicate StateMatches(state: ConnectionState, open: bool, connected: S.Announcement) {
    match state
    case Connecting => open && !connected.Handled?
    case Connected(_) => open && connected.Handled?
    case Disconnected => !open
  }

  // ---- One channel changes ------------------------------------------------

  lemma SlotsAlike(slots: Slots, ends: seq<Channel>, chans: seq<Chan>, chans': seq<Chan>)
    requires SlotsMatch(slots, ends, chans) && |chans'| == |chans|
    requires forall i :: 0 <= i < |chans| ==> chans'[i].registered == chans[i].registered
    ensures SlotsMatch(slots, ends, chans')
  {
  }

  lemma SlotGained(slots: Slots, slots': Slots, ends: seq<Channel>, chans: seq<Chan>, end: Channel, c: Chan)
    requires SlotsMatch(slots, ends, chans) && end !in ends && c.registered
    requires Gains(slots, slots', end.id) && Slot(slots', end.id) == Some(end)
    ensures SlotsMatch(slots', ends + [end], chans + [c])
  {
    forall k: nat | Slot(slots', k).Some? ensures Slot(slots', k).value in ends + [end] {
      assert k != end.id ==> Slot(slots, k) == Slot(slots', k);
    }
  }

  lemma SlotLost(slots: Slots, slots': Slots, ends: seq<Channel>, chans: seq<Chan>, i: nat)
    requires SlotsMatch(slots, ends, chans) && i < |ends| && chans[i].registered && Loses(slots, slots', ends[i].id)
    ensures SlotsMatch(slots', ends, chans[i := chans[i].(registered := false)])
  {
    forall k: nat | Slot(slots', k).Some? ensures Slot(slots', k).value in ends {
      assert Slot(slots', k) == Slot(slots, k);
    }
  }

  lemma NoSlotLost(slots: Slots, slots': Slots, ends: seq<Channel>, chans: seq<Chan>, id: ChannelId)
    requires SlotsMatch(slots, ends, chans) && Slot(slots, id).None? && Loses(slots, slots', id)
    ensures SlotsMatch(slots', ends, chans)
  {
    assert forall k: nat :: Slot(slots', k) == Slot(slots, k);
  }

  lemma EndsAlike(ends: seq<Channel>, chans: seq<Chan>, chans': seq<Chan>)
    requires EndsMatch(ends, chans) && |chans'| == |chans|
    requires forall i :: 0 <= i < |chans| ==>
               chans'[i].queue == chans[i].queue && (Receives(chans'[i].phase) <==> Receives(chans[i].phase))
    ensures EndsMatch(ends, chans')
  {
    forall i | 0 <= i < |ends| ensures EndMatches(ends[i], chans'[i]) {
      assert EndMatches(ends[i], chans[i]);
    }
  }

  lemma OneMoreEnd(ends: seq<Channel>, chans: seq<Chan>, end: Channel, c: Chan)
    requires EndsMatch(ends, chans) && NewEnd(end) && c.queue == [] && Receives(c.phase)
    ensures EndsMatch(ends + [end], chans + [c])
  {
    forall i | 0 <= i < |ends| + 1 ensures EndMatches((ends + [end])[i], (chans + [c])[i]) {
      assert i < |ends| ==> EndMatches(ends[i], chans[i]);
    }
  }

  lemma OneEndChanges(ends: seq<Channel>, chans: seq<Chan>, i: nat, c: Chan)
    requires |ends| == |chans| && i < |ends| && EndMatches(ends[i], c)
    requires forall j :: 0 <= j < |ends| && j != i ==> EndMatches(ends[j], chans[j])
    ensures EndsMatch(ends, chans[i := c])
  {
  }

  lemma OtherEnds(slots: Slots, ends: seq<Channel>, chans: seq<Chan>, i: nat)
    requires SlotsMatch(slots, ends, chans) && i < |ends|
    ensures forall j :: 0 <= j < |ends| && j != i ==> ends[j] != ends[i]
  {
  }

  // ---- What the operations are in the system --------------------------------

  /** The tasks were sent a close message for each disconnect, as far as they are there to be told. */
  ghost predicate ToldMatches(s: S.Sys, closes: seq<CloseReason>, alive: bool) {
    alive ==> closes == s.told
  }

  lemma ToldSame(s: S.Sys, e: S.Event)
    requires S.Allowed(s, e) && !e.Disconnect?
    ensures S.Next(s, e).told == s.told
  {
  }

  lemma ToldMore(s: S.Sys, reason: CloseReason)
    ensures AfterDisconnect(s, reason).told == s.told + (if s.open then [reason] else [])
  {
  }

  lemma MessageTold(s: S.Sys, m: ClientAsyncMessage)
    ensures AfterMessage(s, m).told == s.told + (if m.ServerGone? && s.open then [PeerClosed] else [])
  {
  }

  ghost predicate Reached(s: S.Sys) {
    GracefulClose.Leads(S.Initial(S.Client), s) && s.owned
  }

  /** The channels are as before, but for what their tasks were told. */
  ghost predicate SameChannels(chans: seq<Chan>, chans': seq<Chan>) {
    && |chans'| == |chans|
    && (forall i :: 0 <= i < |chans| ==>
          chans'[i].queue == chans[i].queue && chans'[i].phase == chans[i].phase && chans'[i].registered == chans[i].registered)
  }

  /** A connection that is disconnected already tells the tasks nothing. */
  ghost function AfterDisconnect(s: S.Sys, reason: CloseReason): S.Sys {
    if s.open then S.Next(s, S.Disconnect(reason)) else s
  }

  ghost function AfterMessage(s: S.Sys, m: ClientAsyncMessage): S.Sys {
    match m
    case ServerReached(_) => if S.Allowed(s, S.HandleConnected) then S.Next(s, S.HandleConnected) else s
    case ConnectionFailed => if S.Allowed(s, S.HandleFailed) then S.Next(s, S.HandleFailed) else s
    case ServerGone => AfterDisconnect(s, PeerClosed)
    case Certificate(_) => s
  }

  /** What the connection holds is what the system says, apart from what the ends of the channels hold. */
  ghost predicate Mirrors(s: S.Sys, ends: seq<Channel>, state: ConnectionState, ms: seq<ClientAsyncMessage>,
                          slots: Slots, requests: seq<CreateChannel>, spawnerAlive: bool) {
    && Reached(s)
    && StateMatches(state, s.open, s.connected) && MessagesMatch(ms, s.connected)
    && SlotsMatch(slots, ends, s.chans) && RequestsMatch(requests, ends, s.control)
    && (spawnerAlive <==> !s.spawner.ConnectionClosed?)
  }

  lemma EventStep(s: S.Sys, e: S.Event)
    requires Reached(s) && S.Allowed(s, e) && !e.DropConnection?
    ensures Reached(S.Next(s, e))
  {
    GracefulClose.LeadsNext(S.Initial(S.Client), s, e);
  }

  lemma OpenStep(s: S.Sys, ends: seq<Channel>, state: ConnectionState, ms: seq<ClientAsyncMessage>,
                 slots: Slots, requests: seq<CreateChannel>, slots': Slots, end: Channel, config: ChannelConfig)
    requires Mirrors(s, ends, state, ms, slots, requests, true) && |requests| < CONTROL_QUEUE_SIZE
    requires end !in ends && Gains(slots, slots', end.id) && Slot(slots', end.id) == Some(end)
    ensures S.Allowed(s, S.OpenChannel(end.id, config))
    ensures Mirrors(S.Next(s, S.OpenChannel(end.id, config)), ends + [end], state, ms,
                    slots', requests + [CreateChannel(end, config)], true)
  {
    EventStep(s, S.OpenChannel(end.id, config));
    SlotGained(slots, slots', ends, s.chans, end, NewChan(end.id, config));
  }

  lemma SendStep(s: S.Sys, ends: seq<Channel>, state: ConnectionState, ms: seq<ClientAsyncMessage>,
                 slots: Slots, requests: seq<CreateChannel>, spawnerAlive: bool, i: nat, payload: Payload)
    requires Mirrors(s, ends, state, ms, slots, requests, spawnerAlive) && S.Allowed(s, S.Send(i, payload))
    ensures Mirrors(S.Next(s, S.Send(i, payload)), ends, state, ms, slots, requests, spawnerAlive)
  {
    EventStep(s, S.Send(i, payload));
    SlotsAlike(slots, ends, s.chans, S.Next(s, S.Send(i, payload)).chans);
  }

  lemma CloseStep(s: S.Sys, ends: seq<Channel>, state: ConnectionState, ms: seq<ClientAsyncMessage>,
                  slots: Slots, requests: seq<CreateChannel>, spawnerAlive: bool, slots': Slots, i: nat)
    requires Mirrors(s, ends, state, ms, slots, requests, spawnerAlive)
    requires i < |ends| && Slot(slots, ends[i].id) == Some(ends[i]) && Loses(slots, slots', ends[i].id)
    ensures S.Allowed(s, S.CloseChannel(i))
    ensures Mirrors(S.Next(s, S.CloseChannel(i)), ends, state, ms, slots', requests, spawnerAlive)
  {
    EventStep(s, S.CloseChannel(i));
    SlotLost(slots, slots', ends, s.chans, i);
  }

  lemma DisconnectStep(s: S.Sys, ends: seq<Channel>, state: ConnectionState, ms: seq<ClientAsyncMessage>,
                       slots: Slots, requests: seq<CreateChannel>, spawnerAlive: bool, reason: CloseReason)
    requires Mirrors(s, ends, state, ms, slots, requests, spawnerAlive)
    ensures Mirrors(AfterDisconnect(s, reason), ends, Disconnected, ms, slots, requests, spawnerAlive)
    ensures SameChannels(s.chans, AfterDisconnect(s, reason).chans)
  {
    if s.open {
      EventStep(s, S.Disconnect(reason));
      SlotsAlike(slots, ends, s.chans, S.Next(s, S.Disconnect(reason)).chans);
    }
  }

  lemma FewerMessages(ms: seq<ClientAsyncMessage>, connected: S.Announcement)
    requires MessagesMatch(ms, connected) && ms != []
    ensures MessagesMatch(ms[1..], connected)
    ensures Tells(ms[0]) ==> MessagesMatch(ms[1..], S.Handled)
  {
  }

  /** The step for the oldest message: it is possible, and leads to the state the connection is in then. */
  lemma MessageStep(s: S.Sys, ends: seq<Channel>, state: ConnectionState, ms: seq<ClientAsyncMessage>,
                    slots: Slots, requests: seq<CreateChannel>, spawnerAlive: bool)
    requires Mirrors(s, ends, state, ms, slots, requests, spawnerAlive) && ms != []
    ensures Mirrors(AfterMessage(s, ms[0]), ends, HandleOne(state, ms[0]).state, ms[1..], slots, requests, spawnerAlive)
    ensures SameChannels(s.chans, AfterMessage(s, ms[0]).chans)
  {
    FewerMessages(ms, s.connected);
    match ms[0]
    case ServerReached(_) => EventStep(s, S.HandleConnected);
    case ConnectionFailed => EventStep(s, S.HandleFailed);
    case ServerGone => DisconnectStep(s, ends, state, ms[1..], slots, requests, spawnerAlive, PeerClosed);
    case Certificate(_) =>
  }

  lemma OneMoreMessage(ms: seq<ClientAsyncMessage>, connected: S.Announcement, m: ClientAsyncMessage)
    requires MessagesMatch(ms, connected)
    requires Tells(m) ==> !connected.Handled? && forall x :: x in ms ==> !Tells(x)
    ensures m.ServerReached? ==> MessagesMatch(ms + [m], S.InQueue)
    ensures (m.ConnectionFailed? ==> connected.Unsent?) && !m.ServerReached? ==> MessagesMatch(ms + [m], connected)
  {
    assert forall k :: 0 <= k < |ms| ==> ms[k] in ms;
  }

  lemma AnnounceStep(s: S.Sys, ends: seq<Channel>, state: ConnectionState, ms: seq<ClientAsyncMessage>,
                     slots: Slots, requests: seq<CreateChannel>, spawnerAlive: bool, id: Option<nat>)
    requires Mirrors(s, ends, state, ms, slots, requests, spawnerAlive)
    requires S.Allowed(s, S.Announce) && forall m :: m in ms ==> !Tells(m)
    ensures Mirrors(S.Next(s, S.Announce), ends, state, ms + [ServerReached(id)], slots, requests, spawnerAlive)
  {
    EventStep(s, S.Announce);
    OneMoreMessage(ms, s.connected, ServerReached(id));
  }

  lemma DequeueStep(s: S.Sys, ends: seq<Channel>, state: ConnectionState, ms: seq<ClientAsyncMessage>,
                    slots: Slots, requests: seq<CreateChannel>, spawnerAlive: bool)
    requires Mirrors(s, ends, state, ms, slots, requests, spawnerAlive) && S.Allowed(s, S.Dequeue)
    ensures Mirrors(S.Next(s, S.Dequeue), ends, state, ms, slots, requests[1..], spawnerAlive)
    ensures forall i :: 0 <= i < |s.chans| ==>
              S.Next(s, S.Dequeue).chans[i].queue == s.chans[i].queue
              && (Receives(S.Next(s, S.Dequeue).chans[i].phase) <==> Receives(s.chans[i].phase))
  {
    EventStep(s, S.Dequeue);
    HeadIsQueued(s);
    SlotsAlike(slots, ends, s.chans, S.Next(s, S.Dequeue).chans);
  }

  lemma TaskMirrors(s: S.Sys, ends: seq<Channel>, state: ConnectionState, ms: seq<ClientAsyncMessage>,
                    slots: Slots, requests: seq<CreateChannel>, spawnerAlive: bool, i: nat, st: Step)
    requires Mirrors(s, ends, state, ms, slots, requests, spawnerAlive) && S.Allowed(s, S.Task(i, st))
    ensures Mirrors(S.Next(s, S.Task(i, st)), ends, state, ms, slots, requests, spawnerAlive)
  {
    EventStep(s, S.Task(i, st));
    TaskEnd(s.chans[i], st);
    SlotsAlike(slots, ends, s.chans, S.Next(s, S.Task(i, st)).chans);
  }

  lemma CloseConnectionStep(s: S.Sys, ends: seq<Channel>, state: ConnectionState, ms: seq<ClientAsyncMessage>,
                            slots: Slots, requests: seq<CreateChannel>, spawnerAlive: bool)
    requires Mirrors(s, ends, state, ms, slots, requests, spawnerAlive) && S.Allowed(s, S.CloseConnection)
    ensures Mirrors(S.Next(s, S.CloseConnection), ends, state, ms, slots, [], false)
    ensures forall i :: 0 <= i < |s.chans| ==>
              S.Next(s, S.CloseConnection).chans[i].queue == s.chans[i].queue
              && (Receives(S.Next(s, S.CloseConnection).chans[i].phase) <==>
                    Receives(s.chans[i].phase) && i !in s.control)
  {
    EventStep(s, S.CloseConnection);
    QueuedAreRequested(s);
    SlotsAlike(slots, ends, s.chans, S.Next(s, S.CloseConnection).chans);
    forall i | 0 <= i < |s.chans| ensures s.chans[i].phase.Queued? <==> i in s.control {
    }
  }

  /** What a step of its task does to the application's end of a channel. */
  lemma TaskEnd(c: Chan, st: Step)
    requires Enabled(c, st)
    ensures Do(c, st).queue == (if st.Pop? then c.queue[1..] else c.queue)
    ensures !c.phase.Ended? || Do(c, st).phase == c.phase
    ensures Do(c, st).phase.Abandoned? <==> c.phase.Abandoned?
    ensures Do(c, st).phase.Queued? ==> c.phase.Queued?
    ensures Do(c, st).registered == c.registered
  {
  }

  lemma ReachedInv(s: S.Sys)
    requires Reached(s)
    ensures S.Inv(s)
  {
    S.InitialInv(S.Client);
    GracefulClose.LeadsToWholeInv(S.Initial(S.Client), s);
  }

  lemma HeadIsQueued(s: S.Sys)
    requires Reached(s) && s.control != []
    ensures s.control[0] < |s.chans| && s.chans[s.control[0]].phase.Queued?
  {
    ReachedInv(s);
  }

  /** Every channel whose request was not taken is in the control queue. */
  ghost predicate Waiting(s: S.Sys) {
    forall i :: 0 <= i < |s.chans| && s.chans[i].phase.Queued? ==> i in s.control
  }

  /** No event puts a channel back into the control queue. */
  lemma StaysTaken(s: S.Sys, e: S.Event, i: nat)
    requires S.Allowed(s, e) && i < |s.chans| && S.Next(s, e).chans[i].phase.Queued?
    ensures s.chans[i].phase.Queued?
  {
    match e
    case Task(j, st) => if i == j { TaskEnd(s.chans[i], st); }
    case Disconnect(reason) => assert S.Next(s, e).chans[i] == S.Notify(s.chans[i], reason);
    case CloseConnection => assert S.Next(s, e).chans[i] == S.Abandon(s.chans[i]);
    case _ =>
  }

  lemma NextKeepsWaiting(s: S.Sys, e: S.Event)
    requires Waiting(s) && S.Allowed(s, e)
    ensures Waiting(S.Next(s, e))
  {
    var s' := S.Next(s, e);
    forall i | 0 <= i < |s'.chans| && s'.chans[i].phase.Queued? ensures i in s'.control {
      if i < |s.chans| {
        StaysTaken(s, e, i);
        WaitsOn(s, e, i);
      } else {
        assert s'.control[|s.control|] == |s.chans|;
      }
    }
  }

  lemma WaitsOn(s: S.Sys, e: S.Event, i: nat)
    requires S.Allowed(s, e) && i < |s.chans| && i in s.control && S.Next(s, e).chans[i].phase.Queued?
    ensures i in S.Next(s, e).control
  {
    if e.Dequeue? {
      assert s.control == [s.control[0]] + s.control[1..];
    } else if e.OpenChannel? {
      var k :| 0 <= k < |s.control| && s.control[k] == i;
      assert S.Next(s, e).control[k] == i;
    }
  }

  lemma {:induction false} RunKeepsWaiting(events: seq<S.Event>)
    requires S.After(S.Initial(S.Client), events).Some?
    ensures Waiting(S.After(S.Initial(S.Client), events).value)
    decreases |events|
  {
    if events != [] {
      var front := events[..|events| - 1];
      RunKeepsWaiting(front);
      NextKeepsWaiting(S.After(S.Initial(S.Client), front).value, events[|events| - 1]);
    }
  }

  lemma QueuedAreRequested(s: S.Sys)
    requires Reached(s)
    ensures Waiting(s) && S.Inv(s)
  {
    ReachedInv(s);
    var events :| S.After(S.Initial(S.Client), events) == Some(s);
    RunKeepsWaiting(events);
  }
}

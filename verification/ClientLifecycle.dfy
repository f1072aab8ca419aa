/**
 The whole life of one client connection: the async tasks of every epoch post to the queues that
 epoch was given, the update loop handles the queues of the current epoch, and the application
 disconnects and reconnects.
 */
module ClientLifecycle {
  import opened Base
  import opened ClientConnections
  import RecvChannels

  /** Everything the async tasks of one epoch have sent so far, read or not. */
  datatype Epoch = Epoch(messages: seq<ClientAsyncMessage>, reports: nat, payloads: seq<Message>)

  datatype LogEntry = Reconnected | Wrote(event: ClientEvent)

  /**
     The last epoch is the current one; `read`, `reportsRead` and `payloadsRead` say how much of its
     queues was taken. `received` holds the receive buffers, with their history in this epoch.
   */
  datatype Conn = Conn(
    cfg: RecvChannels.Config,
    state: ConnectionState,
    epochs: seq<Epoch>,
    read: nat,
    reportsRead: nat,
    payloadsRead: nat,
    received: RecvChannels.Trace,
    log: seq<LogEntry>)

  const NEW_EPOCH := Epoch([], 0, [])

  function Initial(cfg: RecvChannels.Config): Conn {
    Conn(cfg, Connecting, [NEW_EPOCH], 0, 0, 0, RecvChannels.EMPTY, [])
  }

  datatype Event =
    | PostMessage(epoch: nat, message: ClientAsyncMessage)
    | PostReport(epoch: nat)
    | PostPayload(epoch: nat, payload: Message)
    | HandleMessage
    | HandleReport
    | DispatchPayloads(count: nat)
    | ReceivePayload(channel: ChannelId)
    | ClearPayloads
    | Disconnect
    | Reconnect

  function Current(c: Conn): Epoch
    requires c.epochs != []
  {
    c.epochs[|c.epochs| - 1]
  }

  predicate Allowed(c: Conn, e: Event) {
    && c.epochs != []
    && match e
       case PostMessage(k, _) => k < |c.epochs|
       case PostReport(k) => k < |c.epochs|
       case PostPayload(k, _) => k < |c.epochs|
       case HandleMessage => c.read < |Current(c).messages|
       case HandleReport => c.reportsRead < Current(c).reports
       case ReceivePayload(_) => !c.state.Disconnected?
       case DispatchPayloads(n) => !c.state.Disconnected? && c.payloadsRead + n <= |Current(c).payloads|
       case _ => true
  }

  function Writes(events: seq<ClientEvent>): seq<LogEntry> {
    seq(|events|, i requires 0 <= i < |events| => Wrote(events[i]))
  }

  function Apply(c: Conn, h: Handled): Conn {
    c.(state := h.state, log := c.log + Writes(h.events))
  }

  function Next(c: Conn, e: Event): Conn
    requires Allowed(c, e)
  {
    match e
    case PostMessage(k, m) =>
      c.(epochs := c.epochs[k := c.epochs[k].(messages := c.epochs[k].messages + [m])])
    case PostReport(k) =>
      c.(epochs := c.epochs[k := c.epochs[k].(reports := c.epochs[k].reports + 1)])
    case PostPayload(k, p) =>
      c.(epochs := c.epochs[k := c.epochs[k].(payloads := c.epochs[k].payloads + [p])])
    case HandleMessage =>
      Apply(c.(read := c.read + 1), HandleOne(c.state, Current(c).messages[c.read]))
    case HandleReport =>
      Apply(c.(reportsRead := c.reportsRead + 1), Lose(c.state))
    case DispatchPayloads(n) =>
      var ms := Current(c).payloads[c.payloadsRead..c.payloadsRead + n];
      c.(payloadsRead := c.payloadsRead + n, received := RecvChannels.Perform(c.cfg, c.received, RecvChannels.Arrive(ms)))
    case ReceivePayload(ch) =>
      c.(received := RecvChannels.Perform(c.cfg, c.received, RecvChannels.Pop(ch)))
    case ClearPayloads =>
      c.(received := RecvChannels.Perform(c.cfg, c.received, RecvChannels.Clear))
    case Disconnect =>
      c.(state := Disconnected)
    case Reconnect =>
      if c.state.Disconnected? then
        Conn(c.cfg, Connecting, c.epochs + [NEW_EPOCH], 0, 0, 0, RecvChannels.EMPTY, c.log + [Reconnected])
      else c
  }

  ghost predicate Advances(c: Conn, e: Event, c': Conn) {
    Allowed(c, e) && c' == Next(c, e)
  }

  ghost predicate Run(cfg: RecvChannels.Config, states: seq<Conn>, events: seq<Event>) {
    && |states| == |events| + 1
    && states[0] == Initial(cfg)
    && (forall k {:trigger events[k]} :: 0 <= k < |events| ==> Advances(states[k], events[k], states[k + 1]))
  }

  /** The connection can come to be like this. */
  ghost predicate Reached(c: Conn) {
    exists states, events :: Run(c.cfg, states, events) && states[|events|] == c
  }

  lemma InitialIsReached(cfg: RecvChannels.Config)
    ensures Reached(Initial(cfg))
  {
    assert Run(cfg, [Initial(cfg)], []);
  }

  lemma NextIsReached(c: Conn, e: Event)
    requires Reached(c) && Allowed(c, e)
    ensures Reached(Next(c, e))
  {
    var states, events :| Run(c.cfg, states, events) && states[|events|] == c;
    var states', events' := states + [Next(c, e)], events + [e];
    forall k | 0 <= k < |events'| ensures Advances(states'[k], events'[k], states'[k + 1]) {
      if k < |events| {
        assert Advances(states[k], events[k], states[k + 1]);
      }
    }
    assert Run(c.cfg, states', events');
    assert states'[|events'|] == Next(c, e);
  }

  // ---- At most one loss per life ------------------------------------------

  const LOST := Wrote(ConnectionLostEvent)

  predicate Revives(e: LogEntry) {
    e.Reconnected? || e.event.ConnectionEvent?
  }

  ghost predicate RevivedAfter(log: seq<LogEntry>, i: int, j: int) {
    exists k :: i < k < j && 0 <= k < |log| && Revives(log[k])
  }

  /** Between any two losses the connection came back. */
  ghost predicate LossesSeparated(log: seq<LogEntry>) {
    forall i, j :: 0 <= i < j < |log| && log[i] == LOST && log[j] == LOST ==> RevivedAfter(log, i, j)
  }

  /** The connection came back after every loss so far. */
  ghost predicate Armed(log: seq<LogEntry>) {
    forall i :: 0 <= i < |log| && log[i] == LOST ==> RevivedAfter(log, i, |log|)
  }

  lemma RevivedLonger(log: seq<LogEntry>, e: LogEntry, i: int, j: int)
    requires j <= |log| && RevivedAfter(log, i, j)
    ensures RevivedAfter(log + [e], i, j) && RevivedAfter(log + [e], i, j + 1)
  {
    var k :| i < k < j && 0 <= k < |log| && Revives(log[k]);
    assert (log + [e])[k] == log[k];
  }

  lemma Appended(log: seq<LogEntry>, e: LogEntry)
    requires LossesSeparated(log) && (e == LOST ==> Armed(log))
    ensures LossesSeparated(log + [e])
    ensures Revives(e) ==> Armed(log + [e])
    ensures e != LOST && Armed(log) ==> Armed(log + [e])
  {
    var log' := log + [e];
    forall i, j | 0 <= i < j < |log'| && log'[i] == LOST && log'[j] == LOST
      ensures RevivedAfter(log', i, j)
    {
      assert log[i] == LOST;
      if j == |log| {
        RevivedLonger(log, e, i, |log|);
      } else {
        assert log[j] == LOST;
        RevivedLonger(log, e, i, j);
      }
    }
    if Revives(e) {
      forall i | 0 <= i < |log'| && log'[i] == LOST ensures RevivedAfter(log', i, |log'|) {
        assert log'[|log|] == e;
      }
    } else if e != LOST && Armed(log) {
      forall i | 0 <= i < |log'| && log'[i] == LOST ensures RevivedAfter(log', i, |log'|) {
        assert log[i] == LOST;
        RevivedLonger(log, e, i, |log|);
      }
    }
  }

  ghost predicate LogInv(state: ConnectionState, log: seq<LogEntry>) {
    LossesSeparated(log) && (!state.Disconnected? ==> Armed(log))
  }

  // ---- What the current epoch accounts for --------------------------------

  /** The events written since the last reconnect, other than losses. */
  function AnnouncedIn(log: seq<LogEntry>): seq<ClientEvent>
    decreases |log|
  {
    if log == [] || log[|log| - 1].Reconnected? then []
    else
      var front, e := AnnouncedIn(log[..|log| - 1]), log[|log| - 1].event;
      if e.ConnectionLostEvent? then front else front + [e]
  }

  /** The number of losses written since the last reconnect. */
  function LossesIn(log: seq<LogEntry>): nat
    decreases |log|
  {
    if log == [] || log[|log| - 1].Reconnected? then 0
    else LossesIn(log[..|log| - 1]) + (if log[|log| - 1] == LOST then 1 else 0)
  }

  function AnnouncedBy(m: ClientAsyncMessage): seq<ClientEvent> {
    match m
    case ServerReached(id) => [ConnectionEvent(id)]
    case ConnectionFailed => [ConnectionFailedEvent]
    case ServerGone => []
    case Certificate(c) => [CertificateEvent(c)]
  }

  /** The events that messages announce whatever the state of the connection. */
  function Announced(ms: seq<ClientAsyncMessage>): seq<ClientEvent>
    decreases |ms|
  {
    if ms == [] then [] else Announced(ms[..|ms| - 1]) + AnnouncedBy(ms[|ms| - 1])
  }

  function Closures(ms: seq<ClientAsyncMessage>): nat
    decreases |ms|
  {
    if ms == [] then 0 else Closures(ms[..|ms| - 1]) + (if ms[|ms| - 1].ServerGone? then 1 else 0)
  }

  predicate Taken(c: Conn) {
    c.epochs != [] && c.read <= |Current(c).messages| && c.reportsRead <= Current(c).reports
  }

  function TakenMessages(c: Conn): seq<ClientAsyncMessage>
    requires Taken(c)
  {
    Current(c).messages[..c.read]
  }

  /** The events written since the last reconnect are accounted for by what the current epoch's tasks sent. */
  ghost predicate Account(c: Conn) {
    && Taken(c)
    && AnnouncedIn(c.log) == Announced(TakenMessages(c))
    && LossesIn(c.log) <= Closures(TakenMessages(c)) + c.reportsRead
  }

  ghost predicate StateCaused(c: Conn) {
    Taken(c) && (c.state.Connected? ==> ServerReached(c.state.clientId) in TakenMessages(c))
  }

  ghost predicate Buffered(c: Conn) {
    && c.epochs != [] && c.payloadsRead <= |Current(c).payloads|
    && RecvChannels.Backed(c.cfg, c.received, Current(c).payloads[..c.payloadsRead])
  }

  lemma Weaken(cfg: RecvChannels.Config, t: RecvChannels.Trace)
    requires RecvChannels.TraceInv(cfg, t, false)
    ensures RecvChannels.TraceInv(cfg, t, true)
  {
  }

  /** A handled message or report adds at most one entry to the log. */
  lemma OneEntry(c: Conn, h: Handled)
    requires |h.events| <= 1
    ensures Apply(c, h).log == if h.events == [] then c.log else c.log + [Wrote(h.events[0])]
  {
    if h.events != [] {
      assert Writes(h.events) == [Wrote(h.events[0])];
    }
  }

  lemma EntryAnnounces(log: seq<LogEntry>, e: ClientEvent)
    ensures AnnouncedIn(log + [Wrote(e)]) == AnnouncedIn(log) + (if e.ConnectionLostEvent? then [] else [e])
    ensures LossesIn(log + [Wrote(e)]) == LossesIn(log) + (if e.ConnectionLostEvent? then 1 else 0)
  {
    var log' := log + [Wrote(e)];
    assert log'[..|log'| - 1] == log;
  }

  lemma MessageAnnounces(ms: seq<ClientAsyncMessage>, n: nat)
    requires n < |ms|
    ensures Announced(ms[..n + 1]) == Announced(ms[..n]) + AnnouncedBy(ms[n])
    ensures Closures(ms[..n + 1]) == Closures(ms[..n]) + (if ms[n].ServerGone? then 1 else 0)
  {
    assert ms[..n + 1][..n] == ms[..n];
  }

  // ---- Each step keeps the invariants -------------------------------------

  lemma LoseKeepsLog(c: Conn)
    requires LogInv(c.state, c.log)
    ensures LogInv(Apply(c, Lose(c.state)).state, Apply(c, Lose(c.state)).log)
  {
    OneEntry(c, Lose(c.state));
    if !c.state.Disconnected? {
      Appended(c.log, LOST);
    }
  }

  lemma MessageKeepsLog(c: Conn, m: ClientAsyncMessage)
    requires LogInv(c.state, c.log)
    ensures LogInv(Apply(c, HandleOne(c.state, m)).state, Apply(c, HandleOne(c.state, m)).log)
  {
    if m.ServerGone? {
      LoseKeepsLog(c);
    } else {
      OneEntry(c, HandleOne(c.state, m));
      Appended(c.log, Wrote(HandleOne(c.state, m).events[0]));
    }
  }

  lemma NextKeepsLog(c: Conn, e: Event)
    requires LogInv(c.state, c.log) && Allowed(c, e)
    ensures LogInv(Next(c, e).state, Next(c, e).log)
  {
    match e
    case HandleMessage => MessageKeepsLog(c.(read := c.read + 1), Current(c).messages[c.read]);
    case HandleReport => LoseKeepsLog(c.(reportsRead := c.reportsRead + 1));
    case Reconnect => Appended(c.log, Reconnected);
    case _ =>
  }

  lemma QuietStep(c: Conn, e: Event)
    requires Taken(c) && Allowed(c, e) && !e.HandleMessage? && !e.HandleReport? && !e.Reconnect?
    ensures Taken(Next(c, e)) && TakenMessages(Next(c, e)) == TakenMessages(c)
    ensures Next(c, e).log == c.log && Next(c, e).reportsRead == c.reportsRead
    ensures Next(c, e).state == c.state || Next(c, e).state == Disconnected
  {
  }

  lemma ReconnectStep(c: Conn)
    requires Taken(c) && c.state.Disconnected?
    ensures var c' := Next(c, Reconnect);
            && Taken(c') && TakenMessages(c') == [] && AnnouncedIn(c'.log) == [] && LossesIn(c'.log) == 0
            && c'.state == Connecting
  {
  }

  lemma MessageLogStep(c: Conn, m: ClientAsyncMessage)
    ensures var log' := Apply(c, HandleOne(c.state, m)).log;
            && AnnouncedIn(log') == AnnouncedIn(c.log) + AnnouncedBy(m)
            && LossesIn(log') == LossesIn(c.log) + (if m.ServerGone? && !c.state.Disconnected? then 1 else 0)
  {
    var h := HandleOne(c.state, m);
    OneEntry(c, h);
    if h.events == [] {
      assert AnnouncedIn(c.log) + [] == AnnouncedIn(c.log);
    } else {
      EntryAnnounces(c.log, h.events[0]);
    }
  }

  lemma MessageStep(c: Conn)
    requires Taken(c) && Allowed(c, HandleMessage)
    ensures var c', m := Next(c, HandleMessage), Current(c).messages[c.read];
            && Taken(c') && c'.reportsRead == c.reportsRead
            && Announced(TakenMessages(c')) == Announced(TakenMessages(c)) + AnnouncedBy(m)
            && Closures(TakenMessages(c')) == Closures(TakenMessages(c)) + (if m.ServerGone? then 1 else 0)
  {
    MessageAnnounces(Current(c).messages, c.read);
  }

  lemma ReportStep(c: Conn)
    requires Taken(c) && Allowed(c, HandleReport)
    ensures var c' := Next(c, HandleReport);
            && Taken(c') && c'.reportsRead == c.reportsRead + 1 && TakenMessages(c') == TakenMessages(c)
            && AnnouncedIn(c'.log) == AnnouncedIn(c.log)
            && LossesIn(c'.log) <= LossesIn(c.log) + 1
            && c'.state == Disconnected
  {
    OneEntry(c.(reportsRead := c.reportsRead + 1), Lose(c.state));
    EntryAnnounces(c.log, ConnectionLostEvent);
    assert AnnouncedIn(c.log) + [] == AnnouncedIn(c.log);
  }

  lemma NextKeepsAccount(c: Conn, e: Event)
    requires Account(c) && Allowed(c, e)
    ensures Account(Next(c, e))
  {
    if e.HandleMessage? {
      MessageStep(c);
      MessageLogStep(c.(read := c.read + 1), Current(c).messages[c.read]);
    } else if e.HandleReport? {
      ReportStep(c);
    } else if !e.Reconnect? {
      QuietStep(c, e);
    } else if c.state.Disconnected? {
      ReconnectStep(c);
    }
  }

  lemma NextKeepsState(c: Conn, e: Event)
    requires StateCaused(c) && Allowed(c, e)
    ensures StateCaused(Next(c, e))
  {
    if e.HandleMessage? {
      var ms := Current(c).messages;
      assert ms[..c.read + 1] == ms[..c.read] + [ms[c.read]];
    } else if e.HandleReport? {
      ReportStep(c);
    } else if !e.Reconnect? {
      QuietStep(c, e);
    }
  }

  lemma NewEpochIsBuffered(c: Conn)
    requires c.epochs != [] && Current(c) == NEW_EPOCH && c.payloadsRead == 0 && c.received == RecvChannels.EMPTY
    ensures Buffered(c)
  {
    RecvChannels.RunConserves(c.cfg, []);
    Weaken(c.cfg, RecvChannels.EMPTY);
  }

  lemma DispatchIsBacked(cfg: RecvChannels.Config, t: RecvChannels.Trace, ps: seq<Message>, k: nat, n: nat)
    requires k + n <= |ps| && RecvChannels.Backed(cfg, t, ps[..k])
    ensures RecvChannels.Backed(cfg, RecvChannels.Perform(cfg, t, RecvChannels.Arrive(ps[k..k + n])), ps[..k + n])
  {
    RecvChannels.ArriveKeepsTrace(cfg, t, ps[k..k + n], true);
    assert ps[..k] + ps[k..k + n] == ps[..k + n];
  }

  lemma PostKeepsBuffers(c: Conn, e: Event)
    requires Buffered(c) && Allowed(c, e) && (e.PostMessage? || e.PostReport? || e.PostPayload?)
    ensures Buffered(Next(c, e))
  {
    assert Current(Next(c, e)).payloads[..c.payloadsRead] == Current(c).payloads[..c.payloadsRead];
  }

  lemma NowBuffered(c: Conn, n: nat, t: RecvChannels.Trace)
    requires c.epochs != [] && n <= |Current(c).payloads| && RecvChannels.Backed(c.cfg, t, Current(c).payloads[..n])
    ensures Buffered(c.(payloadsRead := n, received := t))
  {
  }

  lemma DispatchKeepsBuffers(c: Conn, n: nat)
    requires Buffered(c) && Allowed(c, DispatchPayloads(n))
    ensures Buffered(Next(c, DispatchPayloads(n)))
  {
    DispatchIsBacked(c.cfg, c.received, Current(c).payloads, c.payloadsRead, n);
    NowBuffered(c, c.payloadsRead + n, Next(c, DispatchPayloads(n)).received);
  }

  lemma ApplicationKeepsBuffers(c: Conn, e: Event)
    requires Buffered(c) && Allowed(c, e) && (e.ReceivePayload? || e.ClearPayloads?)
    ensures Buffered(Next(c, e))
  {
    if e.ReceivePayload? {
      RecvChannels.PopKeepsTrace(c.cfg, c.received, e.channel, true);
    } else {
      RecvChannels.ClearKeepsTrace(c.cfg, c.received);
    }
  }

  lemma StateKeepsBuffers(c: Conn, e: Event)
    requires Buffered(c) && Allowed(c, e)
    requires e.HandleMessage? || e.HandleReport? || e.Disconnect? || e.Reconnect?
    ensures Buffered(Next(c, e))
  {
    if e.Reconnect? && c.state.Disconnected? {
      NewEpochIsBuffered(Next(c, e));
    } else {
      assert Next(c, e).received == c.received && Next(c, e).payloadsRead == c.payloadsRead;
    }
  }

  lemma NextKeepsBuffers(c: Conn, e: Event)
    requires Buffered(c) && Allowed(c, e)
    ensures Buffered(Next(c, e))
  {
    match e
    case DispatchPayloads(n) => DispatchKeepsBuffers(c, n);
    case ReceivePayload(_) => ApplicationKeepsBuffers(c, e);
    case ClearPayloads => ApplicationKeepsBuffers(c, e);
    case PostMessage(_, _) => PostKeepsBuffers(c, e);
    case PostReport(_) => PostKeepsBuffers(c, e);
    case PostPayload(_, _) => PostKeepsBuffers(c, e);
    case _ => StateKeepsBuffers(c, e);
  }

  lemma {:induction false} RunKeepsLog(cfg: RecvChannels.Config, states: seq<Conn>, events: seq<Event>, k: nat)
    requires Run(cfg, states, events) && k < |states|
    ensures LogInv(states[k].state, states[k].log)
  {
    if k > 0 {
      RunKeepsLog(cfg, states, events, k - 1);
      assert Advances(states[k - 1], events[k - 1], states[k]);
      NextKeepsLog(states[k - 1], events[k - 1]);
    }
  }

  lemma {:induction false} RunKeepsAccount(cfg: RecvChannels.Config, states: seq<Conn>, events: seq<Event>, k: nat)
    requires Run(cfg, states, events) && k < |states|
    ensures Account(states[k]) && StateCaused(states[k])
  {
    if k > 0 {
      RunKeepsAccount(cfg, states, events, k - 1);
      assert Advances(states[k - 1], events[k - 1], states[k]);
      NextKeepsAccount(states[k - 1], events[k - 1]);
      NextKeepsState(states[k - 1], events[k - 1]);
    }
  }

  lemma {:induction false} RunKeepsBuffers(cfg: RecvChannels.Config, states: seq<Conn>, events: seq<Event>, k: nat)
    requires Run(cfg, states, events) && k < |states|
    ensures Buffered(states[k])
  {
    if k == 0 {
      NewEpochIsBuffered(states[0]);
    } else {
      RunKeepsBuffers(cfg, states, events, k - 1);
      assert Advances(states[k - 1], events[k - 1], states[k]);
      NextKeepsBuffers(states[k - 1], events[k - 1]);
    }
  }

  /** In every run, between two losses of a connection it was connected again or reconnected. */
  lemma OneLossPerLife(cfg: RecvChannels.Config, states: seq<Conn>, events: seq<Event>, k: nat, i: nat, j: nat)
    requires Run(cfg, states, events) && k < |states|
    requires i < j < |states[k].log| && states[k].log[i] == LOST && states[k].log[j] == LOST
    ensures exists m :: i < m < j && Revives(states[k].log[m])
  {
    RunKeepsLog(cfg, states, events, k);
    assert RevivedAfter(states[k].log, i, j);
  }

  /**
     In every run, whatever the tasks of earlier epochs still send: the events since the last
     reconnect, other than losses, are exactly those that the messages taken from the current
     epoch's queue announce, in order; there are no more losses than its tasks reported; and the
     connection is connected only if they said so.
   */
  lemma EventsAreOfThisEpoch(cfg: RecvChannels.Config, states: seq<Conn>, events: seq<Event>, k: nat)
    requires Run(cfg, states, events) && k < |states|
    ensures var c := states[k];
            && Taken(c)
            && AnnouncedIn(c.log) == Announced(TakenMessages(c))
            && LossesIn(c.log) <= Closures(TakenMessages(c)) + c.reportsRead
            && (c.state.Connected? ==> ServerReached(c.state.clientId) in TakenMessages(c))
  {
    RunKeepsAccount(cfg, states, events, k);
  }

  /**
     In every run, the payloads handed to the application since the last reconnect, and those still
     buffered, are on every channel some of what the current epoch's tasks received, in order.
   */
  lemma PayloadsAreOfThisEpoch(cfg: RecvChannels.Config, states: seq<Conn>, events: seq<Event>, k: nat, ch: ChannelId)
    requires Run(cfg, states, events) && k < |states|
    ensures var c := states[k];
            && c.epochs != [] && c.payloadsRead <= |Current(c).payloads|
            && Subsequence(RecvChannels.PayloadsOn(c.received.popped, ch) + RecvChannels.Buffer(c.received.bufs, ch),
                           RecvChannels.PayloadsOn(Current(c).payloads[..c.payloadsRead], ch))
  {
    RunKeepsBuffers(cfg, states, events, k);
    var t := states[k].received;
    assert RecvChannels.OnChannelInv(t, ch);
    SubsequenceTransitive(RecvChannels.PayloadsOn(t.popped, ch) + RecvChannels.Buffer(t.bufs, ch),
                          RecvChannels.PayloadsOn(t.kept, ch), RecvChannels.PayloadsOn(t.arrived, ch));
  }

  // ---- The update loop is made of these steps -----------------------------

  /** Handling messages and reports leaves the payloads alone. */
  predicate SameElse(c: Conn, c': Conn) {
    c'.epochs == c.epochs && c'.cfg == c.cfg && c'.received == c.received && c'.payloadsRead == c.payloadsRead
  }

  function AfterMessages(c: Conn, n: nat): (c': Conn)
    requires Taken(c) && c.read + n <= |Current(c).messages|
    ensures Taken(c') && SameElse(c, c') && c'.read == c.read + n && c'.reportsRead == c.reportsRead
  {
    if n == 0 then c else Next(AfterMessages(c, n - 1), HandleMessage)
  }

  function AfterReports(c: Conn, n: nat): (c': Conn)
    requires Taken(c) && c.reportsRead + n <= Current(c).reports
    ensures Taken(c') && SameElse(c, c') && c'.read == c.read && c'.reportsRead == c.reportsRead + n
  {
    if n == 0 then c else Next(AfterReports(c, n - 1), HandleReport)
  }

  lemma {:induction false} AfterIsReached(c: Conn, ms: nat, rs: nat)
    requires Reached(c) && Taken(c) && c.read + ms <= |Current(c).messages| && c.reportsRead + rs <= Current(c).reports
    ensures Reached(AfterReports(AfterMessages(c, ms), rs))
  {
    if rs > 0 {
      AfterIsReached(c, ms, rs - 1);
      NextIsReached(AfterReports(AfterMessages(c, ms), rs - 1), HandleReport);
    } else if ms > 0 {
      AfterIsReached(c, ms - 1, 0);
      NextIsReached(AfterMessages(c, ms - 1), HandleMessage);
    }
  }

  ghost predicate Did(c: Conn, h: Handled, c': Conn) {
    c'.state == h.state && c'.log == c.log + Writes(h.events)
  }

  lemma DidThen(c: Conn, h: Handled, c': Conn, g: Handled, c'': Conn)
    requires Did(c, h, c') && Did(c', g, c'')
    ensures Did(c, Then(h, g), c'')
  {
    assert c.log + Writes(h.events) + Writes(g.events) == c.log + Writes(h.events + g.events);
  }

  lemma {:induction false} MessagesAreSteps(c: Conn, n: nat)
    requires Taken(c) && c.read + n <= |Current(c).messages|
    ensures Did(c, HandleAll(c.state, Current(c).messages[c.read..][..n], 0), AfterMessages(c, n))
  {
    var pending := Current(c).messages[c.read..];
    if n == 0 {
      assert pending[..0] == [];
    } else {
      MessagesAreSteps(c, n - 1);
      HandleNext(c.state, pending[..n - 1], pending[n - 1]);
      assert pending[..n] == pending[..n - 1] + [pending[n - 1]];
      var h, b := HandleAll(c.state, pending[..n - 1], 0), AfterMessages(c, n - 1);
      DidThen(c, h, b, HandleOne(h.state, pending[n - 1]), AfterMessages(c, n));
    }
  }

  lemma {:induction false} ReportsAreSteps(c: Conn, n: nat)
    requires Taken(c) && c.reportsRead + n <= Current(c).reports
    ensures Did(c, HandleAll(c.state, [], n), AfterReports(c, n))
  {
    if n > 0 {
      ReportsAreSteps(c, n - 1);
      var h, b := HandleAll(c.state, [], n - 1), AfterReports(c, n - 1);
      DidThen(c, h, b, Lose(h.state), AfterReports(c, n));
    }
  }

  /**
     Handling everything that is queued in one update is a run of single steps, so the results
     above cover it.
   */
  lemma UpdateIsSteps(c: Conn, n: nat)
    requires Taken(c) && c.reportsRead + n == Current(c).reports
    ensures var ms := Current(c).messages[c.read..];
            Did(c, HandleAll(c.state, ms, n), AfterReports(AfterMessages(c, |ms|), n))
  {
    var ms := Current(c).messages[c.read..];
    var b := AfterMessages(c, |ms|);
    MessagesAreSteps(c, |ms|);
    assert ms[..|ms|] == ms;
    ReportsAreSteps(b, n);
    MessagesThenReports(c.state, ms, n);
    DidThen(c, HandleAll(c.state, ms, 0), b, HandleAll(b.state, [], n), AfterReports(b, n));
  }
}

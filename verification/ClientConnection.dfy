/**
 A connection to a server as the client holds it: its own id pool, its configured channels, its
 state, and the messages of its async tasks that change this state.
 */
module ClientConnections {
  import opened Base
  import opened SendTask
  import opened PeerConnections
  import RecvChannels

  // ---- Configured channels ------------------------------------------------

  datatype ChannelConfigError = TooManyChannels

  /** The channels to open on every (re)connection; the position of each is the id it is promised. */
  class SendChannelsConfiguration {
    var channels: seq<ChannelConfig>

    ghost predicate Valid()
      reads this
    {
      |channels| <= MAX_CHANNEL_COUNT
    }

    constructor ()
      ensures Valid() && channels == []
    {
      channels := [];
    }

    static method FromConfigs(configs: seq<ChannelConfig>) returns (r: Result<SendChannelsConfiguration, ChannelConfigError>)
      ensures r.Ok? <==> |configs| <= MAX_CHANNEL_COUNT
      ensures r.Ok? ==> fresh(r.value) && r.value.Valid() && r.value.channels == configs
    {
      if |configs| > MAX_CHANNEL_COUNT {
        return Err(TooManyChannels);
      }
      var c := new SendChannelsConfiguration();
      c.channels := configs;
      return Ok(c);
    }

    /** Promises the new channel the id that is its position. */
    method Add(config: ChannelConfig) returns (r: Option<ChannelId>)
      requires Valid()
      modifies this
      ensures Valid()
      ensures r.None? <==> |old(channels)| == MAX_CHANNEL_COUNT
      ensures channels == old(channels) + (if r.Some? then [config] else [])
      ensures r.Some? ==> r.value == |old(channels)| && channels[r.value] == config
    {
      if |channels| >= MAX_CHANNEL_COUNT {
        return None;
      }
      channels := channels + [config];
      return Some(|channels| - 1);
    }
  }

  // ---- Connection state ---------------------------------------------------

  datatype ConnectionState = Connecting | Connected(clientId: Option<nat>) | Disconnected

  datatype CertificateMessage = InteractionRequest | TrustUpdate | ConnectionAbort

  datatype ClientAsyncMessage =
    | ServerReached(clientId: Option<nat>)
    | ConnectionFailed
    | ServerGone
    | Certificate(message: CertificateMessage)

  datatype ClientEvent =
    | ConnectionEvent(clientId: Option<nat>)
    | ConnectionFailedEvent
    | ConnectionLostEvent
    | CertificateEvent(message: CertificateMessage)

  /** What handling messages does: the new state, the events written, the closes broadcast to the tasks. */
  datatype Handled = Handled(state: ConnectionState, events: seq<ClientEvent>, closes: seq<CloseReason>)

  function Lose(state: ConnectionState): Handled {
    if state.Disconnected? then Handled(state, [], [])
    else Handled(Disconnected, [ConnectionLostEvent], [PeerClosed])
  }

  function HandleOne(state: ConnectionState, m: ClientAsyncMessage): Handled {
    match m
    case ServerReached(id) => Handled(Connected(id), [ConnectionEvent(id)], [])
    case ConnectionFailed => Handled(Disconnected, [ConnectionFailedEvent], [])
    case ServerGone => Lose(state)
    case Certificate(c) => Handled(state, [CertificateEvent(c)], [])
  }

  function Then(h: Handled, next: Handled): Handled {
    Handled(next.state, h.events + next.events, h.closes + next.closes)
  }

  /** All queued messages of the connection task, and then the lost-connection reports of its channels. */
  function HandleAll(state: ConnectionState, ms: seq<ClientAsyncMessage>, reports: nat): Handled
    decreases |ms| + reports
  {
    if reports > 0 then
      var h := HandleAll(state, ms, reports - 1);
      Then(h, Lose(h.state))
    else if ms == [] then
      Handled(state, [], [])
    else
      var h := HandleAll(state, ms[..|ms| - 1], 0);
      Then(h, HandleOne(h.state, ms[|ms| - 1]))
  }

  datatype ClientSendError = ConnectionClosed | ClientSendFailed(error: ConnectionSendError)

  datatype ClientPayloadSendError = NoDefaultChannel | SendError(error: ClientSendError)

  /**
     The open channels are exactly `configs`, under the ids 0, 1, 2, ... in order, and their
     requests are the last in the control queue, after `base` others.
   */
  ghost predicate OpenExactly(slots: Slots, requests: seq<CreateChannel>, configs: seq<ChannelConfig>, base: nat) {
    && |slots| == |configs| <= MAX_CHANNEL_COUNT && |requests| == base + |configs|
    && (forall i :: 0 <= i < |configs| ==>
          && slots[i].Some? && slots[i].value.id == i
          && requests[base + i] == CreateChannel(slots[i].value, configs[i]))
  }

  /** The ids from `n` up are available, and the default, if there is one, is the first of the others. */
  ghost predicate FreeFrom(available: set<ChannelId>, default: Option<ChannelId>, n: nat) {
    && n <= MAX_CHANNEL_COUNT
    && (forall k: ChannelId :: k in available <==> k >= n)
    && default == if n == 0 then None else Some(0)
  }

  lemma OneMoreOpen(slots: Slots, requests: seq<CreateChannel>, configs: seq<ChannelConfig>, base: nat,
                    channel: Channel, config: ChannelConfig)
    requires OpenExactly(slots, requests, configs, base) && channel.id == |configs| < MAX_CHANNEL_COUNT
    ensures OpenExactly(Registered(slots, channel), requests + [CreateChannel(channel, config)], configs + [config], base)
  {
    assert Registered(slots, channel) == slots + [Some(channel)];
  }

  lemma NextIsLeast(available: set<ChannelId>, default: Option<ChannelId>, n: nat, id: ChannelId)
    requires FreeFrom(available, default, n) && IsLeast(id, available)
    ensures id == n && FreeFrom(available - {id}, if default.None? then Some(id) else default, n + 1)
    ensures available - {id} + {id} == available
  {
    assert (n as ChannelId) in available;
  }

  /** Nothing was sent on the channel yet, and its task, or the request for it, is there. */
  ghost predicate NewEnd(c: Channel)
    reads c
  {
    c.queue == [] && c.taskAlive
  }

  class ClientSideConnection {
    const channelsConfig: seq<ChannelConfig>
    const peer: PeerConnection
    var pool: ChannelsIdsPool
    var state: ConnectionState
    var fromAsync: seq<ClientAsyncMessage>

    /** An id under which the vector holds a channel is never available. */
    ghost predicate Valid()
      reads this, peer`sendChannels, pool`available
    {
      && |channelsConfig| <= MAX_CHANNEL_COUNT
      && Aligned(peer.sendChannels)
      && (forall k: ChannelId :: Slot(peer.sendChannels, k).Some? ==> k !in pool.available)
    }

    /** Exactly `configs` are open, their requests the last in the control queue, and later ids are free. */
    ghost predicate HasExactly(configs: seq<ChannelConfig>, base: nat)
      reads this`pool, peer`sendChannels, peer`toChannels, pool
    {
      && OpenExactly(peer.sendChannels, peer.toChannels, configs, base)
      && FreeFrom(pool.available, pool.defaultChannel, |configs|)
    }

    constructor (config: SendChannelsConfiguration, recvCfg: RecvChannels.Config)
      requires config.Valid()
      ensures fresh(peer.received) && peer.received.cfg == recvCfg && peer.lostReports == 0
      ensures peer.received.incoming == [] && peer.received.recvChannelsPayloads == []
      ensures Valid() && fresh(peer) && fresh(pool) && HasExactly([], 0) && peer.spawnerAlive
      ensures channelsConfig == config.channels && state == Connecting && fromAsync == [] && peer.closesSent == []
    {
      channelsConfig := config.channels;
      peer := new PeerConnection(recvCfg);
      pool := new ChannelsIdsPool();
      state := Connecting;
      fromAsync := [];
    }

    // ---- Sending ----------------------------------------------------------

    /** Once disconnected, nothing reaches a channel any more, and nothing is counted as sent. */
    method SendPayloadOn(id: ChannelId, payload: Payload) returns (r: Result<(), ClientSendError>)
      modifies peer`sentBytes, ChannelAt(peer.sendChannels, id)`queue
      ensures r == Err(ConnectionClosed) <==> state.Disconnected?
      ensures peer.sentBytes == old(peer.sentBytes)
                                + (if state.Disconnected? || Slot(peer.sendChannels, id).None? then 0 else |payload|)
      ensures match Slot(peer.sendChannels, id)
              case Some(c) =>
                && c.queue == old(c.queue) + (if r.Ok? then [payload] else [])
                && (r.Ok? <==> !state.Disconnected? && c.taskAlive && |old(c.queue)| < MESSAGE_QUEUE_SIZE)
              case None => r.Err?
    {
      if state.Disconnected? {
        return Err(ConnectionClosed);
      }
      var sent := peer.InternalSendPayload(id, payload);
      match sent {
        case Ok(_) => return Ok(());
        case Err(e) => return Err(ClientSendFailed(e));
      }
    }

    method SendPayload(payload: Payload) returns (r: Result<(), ClientPayloadSendError>)
      modifies peer`sentBytes,
               if pool.defaultChannel.Some? then ChannelAt(peer.sendChannels, pool.defaultChannel.value) else {}
      ensures r == Err(NoDefaultChannel) <==> pool.defaultChannel.None?
      ensures pool.defaultChannel.Some? ==>
                match Slot(peer.sendChannels, pool.defaultChannel.value)
                case Some(c) =>
                  && c.queue == old(c.queue) + (if r.Ok? then [payload] else [])
                  && (r.Ok? <==> !state.Disconnected? && c.taskAlive && |old(c.queue)| < MESSAGE_QUEUE_SIZE)
                case None => r.Err?
    {
      match pool.defaultChannel {
        case None => return Err(NoDefaultChannel);
        case Some(id) =>
          var sent := SendPayloadOn(id, payload);
          match sent {
            case Ok(_) => return Ok(());
            case Err(e) => return Err(SendError(e));
          }
      }
    }

    // ---- Channels ---------------------------------------------------------

    /**
       Opens a channel under the least available id. If the request cannot be queued the id is
       not given back: it is neither available nor open, and it may have become the default.
     */
    method OpenChannel(config: ChannelConfig) returns (r: Result<ChannelId, ChannelCreationError>)
      requires Valid()
      modifies pool, peer`toChannels, peer`sendChannels
      ensures Valid()
      ensures r == Err(MaxChannelsCountReached) <==> old(pool.available) == {}
      ensures r.Ok? <==> old(pool.available) != {} && old(peer.CanRequest())
      ensures r.Ok? ==> IsLeast(r.value, old(pool.available)) && pool.available == old(pool.available) - {r.value}
                        && Gains(old(peer.sendChannels), peer.sendChannels, r.value)
                        && NewEnd(Slot(peer.sendChannels, r.value).value) && fresh(Slot(peer.sendChannels, r.value).value)
                        && peer.toChannels == old(peer.toChannels) + [CreateChannel(Slot(peer.sendChannels, r.value).value, config)]
                        && pool.defaultChannel == if old(pool.defaultChannel).None? then Some(r.value)
                                                  else old(pool.defaultChannel)
      ensures r.Err? ==> peer.sendChannels == old(peer.sendChannels) && peer.toChannels == old(peer.toChannels)
      ensures r.Err? && old(pool.available) != {} ==>
                exists leaked: ChannelId ::
                  && IsLeast(leaked, old(pool.available)) && Slot(peer.sendChannels, leaked).None?
                  && pool.available == old(pool.available) - {leaked}
                  && (old(pool.defaultChannel).None? ==> pool.defaultChannel == Some(leaked))
    {
      var taken := pool.TakeId();
      if taken.Err? {
        return Err(taken.error);
      }
      var created, channel := peer.CreateConnectionChannel(taken.value, config);
      match created {
        case Ok(_) =>
          RegisteredAligned(old(peer.sendChannels), channel.value);
          RegisteredSlots(old(peer.sendChannels), channel.value);
          return Ok(taken.value);
        case Err(e) =>
          return Err(AsyncError(e));
      }
    }

    method CloseChannel(id: ChannelId) returns (r: Result<(), ChannelCloseError>)
      requires Valid()
      modifies pool, peer`sendChannels, peer`closeSignals
      ensures Valid()
      ensures r.Ok? <==> old(HasLiveTask(peer.sendChannels, id))
      ensures Loses(old(peer.sendChannels), peer.sendChannels, id)
      ensures r.Ok? ==> pool.available == old(pool.available) + {id}
                        && pool.defaultChannel == if old(pool.defaultChannel) == Some(id) then None
                                                  else old(pool.defaultChannel)
      ensures r.Err? ==> pool.available == old(pool.available) && pool.defaultChannel == old(pool.defaultChannel)
    {
      r := peer.InternalCloseChannel(id);
      forall i | 0 <= i < |peer.sendChannels| && peer.sendChannels[i].Some?
        ensures peer.sendChannels[i].value.id == i
      {
        assert peer.sendChannels[i] == Slot(peer.sendChannels, i);
      }
      if r.Err? {
        return r;
      }
      pool.ReleaseId(id);
      return Ok(());
    }

    method SetDefaultChannel(id: ChannelId)
      requires Valid()
      modifies pool`defaultChannel
      ensures Valid() && pool.defaultChannel == Some(id)
    {
      pool.SetDefaultChannel(id);
    }

    method OpenNextConfigured(config: ChannelConfig, ghost done: seq<ChannelConfig>, ghost base: nat)
      returns (r: Result<(), AsyncChannelError>)
      requires HasExactly(done, base) && |done| < MAX_CHANNEL_COUNT
      modifies pool, peer`toChannels, peer`sendChannels
      ensures r.Ok? <==> old(peer.CanRequest())
      ensures HasExactly(if r.Ok? then done + [config] else done, base)
    {
      assert (|done| as ChannelId) in pool.available;
      var taken := pool.TakeId();
      NextIsLeast(old(pool.available), old(pool.defaultChannel), |done|, taken.value);
      var created := peer.CreateUnregisteredConnectionChannel(taken.value, config);
      match created {
        case Ok(channel) =>
          OneMoreOpen(peer.sendChannels, old(peer.toChannels), done, base, channel, config);
          peer.RegisterConnectionChannel(channel);
          return Ok(());
        case Err(e) =>
          pool.ReleaseId(taken.value);
          return Err(e);
      }
    }

    /**
       Opens channels on a connection that has none yet; there are ids for all of them. When a
       request is refused its id is given back, and the channels opened before it stay.
     */
    method OpenConfiguredChannels(configs: seq<ChannelConfig>) returns (r: Result<(), AsyncChannelError>)
      requires HasExactly([], |peer.toChannels|) && |configs| <= MAX_CHANNEL_COUNT
      modifies pool, peer`toChannels, peer`sendChannels
      ensures Aligned(peer.sendChannels)
      ensures r.Ok? <==> configs == [] || (peer.spawnerAlive && |old(peer.toChannels)| + |configs| <= CONTROL_QUEUE_SIZE)
      ensures r.Ok? ==> HasExactly(configs, |old(peer.toChannels)|)
      ensures r.Err? ==> exists n :: 0 <= n < |configs| && HasExactly(configs[..n], |old(peer.toChannels)|)
    {
      var i := 0;
      while i < |configs|
        invariant 0 <= i <= |configs| && HasExactly(configs[..i], |old(peer.toChannels)|)
        invariant i > 0 ==> peer.spawnerAlive && |peer.toChannels| <= CONTROL_QUEUE_SIZE
      {
        r := OpenNextConfigured(configs[i], configs[..i], |old(peer.toChannels)|);
        if r.Err? {
          return;
        }
        assert configs[..i + 1] == configs[..i] + [configs[i]];
        i := i + 1;
      }
      assert configs[..i] == configs;
      return Ok(());
    }

    // ---- Lifecycle --------------------------------------------------------

    method InternalDisconnect(reason: CloseReason) returns (r: Result<(), ConnectionAlreadyClosed>)
      modifies this`state, peer`closesSent
      ensures state == Disconnected
      ensures r.Ok? <==> old(state).Disconnected? || peer.tasksAlive
      ensures peer.closesSent == old(peer.closesSent)
                                 + (if !old(state).Disconnected? && peer.tasksAlive then [reason] else [])
    {
      if state.Disconnected? {
        return Ok(());
      }
      state := Disconnected;
      r := peer.Close(reason);
    }

    /**
       Starts a new epoch with new queues, a new pool and exactly the configured channels: nothing
       opened later on is open again. It never fails.
     */
    method Reconnect() returns (r: Result<(), AsyncChannelError>)
      requires Valid()
      modifies this, peer, peer.received, pool
      ensures Valid() && r.Ok?
      ensures old(state).Disconnected? ==>
                && state == Connecting && fromAsync == [] && fresh(pool) && HasExactly(channelsConfig, 0)
                && peer.lostReports == 0 && peer.closesSent == []
                && peer.received.incoming == [] && peer.received.recvChannelsPayloads == []
      ensures !old(state).Disconnected? ==>
                unchanged(this) && unchanged(peer) && unchanged(peer.received) && unchanged(pool)
    {
      if !state.Disconnected? {
        return Ok(());
      }
      state := Connecting;
      pool := new ChannelsIdsPool();
      fromAsync := [];
      peer.InternalReset();
      r := OpenConfiguredChannels(channelsConfig);
    }

    /** The closes that reach the tasks, if there are any. */
    ghost predicate Broadcast(before: seq<CloseReason>, closes: seq<CloseReason>)
      reads peer`closesSent, peer`tasksAlive
    {
      peer.closesSent == if peer.tasksAlive then before + closes else before
    }

    method HandleLoss() returns (written: seq<ClientEvent>)
      modifies this`state, peer`closesSent
      ensures var h := Lose(old(state));
              state == h.state && written == h.events && Broadcast(old(peer.closesSent), h.closes)
      ensures state == Disconnected && written == if old(state).Disconnected? then [] else [ConnectionLostEvent]
      ensures peer.closesSent
              == old(peer.closesSent) + (if !old(state).Disconnected? && peer.tasksAlive then [PeerClosed] else [])
    {
      written := [];
      if !state.Disconnected? {
        var _ := InternalDisconnect(PeerClosed);
        written := [ConnectionLostEvent];
      }
    }

    method HandleMessage(message: ClientAsyncMessage) returns (written: seq<ClientEvent>)
      modifies this`state, peer`closesSent
      ensures var h := HandleOne(old(state), message);
              state == h.state && written == h.events && Broadcast(old(peer.closesSent), h.closes)
      ensures match message
              case ServerReached(id) => state == Connected(id) && written == [ConnectionEvent(id)]
              case ConnectionFailed => state == Disconnected && written == [ConnectionFailedEvent]
              case ServerGone => state == Disconnected && written == if old(state).Disconnected? then [] else [ConnectionLostEvent]
              case Certificate(c) => state == old(state) && written == [CertificateEvent(c)]
      ensures peer.closesSent == old(peer.closesSent) + (if message.ServerGone? && !old(state).Disconnected? && peer.tasksAlive
                                                         then [PeerClosed] else [])
    {
      written := [];
      match message {
        case ServerReached(id) =>
          state := Connected(id);
          written := [ConnectionEvent(id)];
        case ConnectionFailed =>
          state := Disconnected;
          written := [ConnectionFailedEvent];
        case ServerGone =>
          written := HandleLoss();
        case Certificate(c) =>
          written := [CertificateEvent(c)];
      }
    }

    /** `events` and the state are what handling `ms` from state `start` makes of them. */
    ghost predicate Handles(start: ConnectionState, ms: seq<ClientAsyncMessage>, before: seq<CloseReason>, events: seq<ClientEvent>)
      reads this`state, peer`closesSent, peer`tasksAlive
    {
      match HandleAll(start, ms, 0)
      case Handled(s, es, closes) => state == s && events == es && Broadcast(before, closes)
    }

    method HandleNextMessage(message: ClientAsyncMessage, events: seq<ClientEvent>,
                             ghost start: ConnectionState, ghost done: seq<ClientAsyncMessage>, ghost before: seq<CloseReason>)
      returns (events': seq<ClientEvent>)
      requires Handles(start, done, before, events)
      modifies this`state, peer`closesSent
      ensures Handles(start, done + [message], before, events')
    {
      HandleNext(start, done, message);
      ConcatAssociative(before, HandleAll(start, done, 0).closes, HandleOne(state, message).closes);
      var written := HandleMessage(message);
      events' := events + written;
    }

    /** Handles the messages of the connection task, in order. */
    method HandleMessages() returns (events: seq<ClientEvent>)
      modifies this`state, this`fromAsync, peer`closesSent
      ensures fromAsync == [] && Handles(old(state), old(fromAsync), old(peer.closesSent), events)
    {
      events := [];
      ghost var start, all, before := state, fromAsync, peer.closesSent;
      ghost var done: seq<ClientAsyncMessage> := [];
      while fromAsync != []
        invariant done + fromAsync == all && Handles(start, done, before, events)
        decreases |fromAsync|
      {
        var message := fromAsync[0];
        TakeFirst(done, fromAsync);
        fromAsync := fromAsync[1..];
        events := HandleNextMessage(message, events, start, done, before);
        done := done + [message];
      }
      assert done + [] == done;
    }

    /** Handles the lost-connection reports of the channels. */
    method HandleReports() returns (events: seq<ClientEvent>)
      modifies this`state, peer`lostReports, peer`closesSent
      ensures peer.lostReports == 0
      ensures var h := HandleAll(old(state), [], old(peer.lostReports));
              state == h.state && events == h.events && Broadcast(old(peer.closesSent), h.closes)
    {
      events := [];
      ghost var h, n := Handled(state, [], []), 0;
      while peer.lostReports > 0
        invariant 0 <= n && n + peer.lostReports == old(peer.lostReports) && h == HandleAll(old(state), [], n)
        invariant state == h.state && events == h.events && Broadcast(old(peer.closesSent), h.closes)
        decreases peer.lostReports
      {
        peer.lostReports := peer.lostReports - 1;
        h, n := Then(h, Lose(state)), n + 1;
        var written := HandleLoss();
        events := events + written;
      }
    }

    /**
       Handles everything the async tasks have sent, in order, and writes the events it calls for. The
       tasks are told that the peer has closed once for every loss that is written.
     */
    method HandleClientEvents() returns (events: seq<ClientEvent>)
      modifies this`state, this`fromAsync, peer`lostReports, peer`closesSent
      ensures fromAsync == [] && peer.lostReports == 0
      ensures peer.closesSent == old(peer.closesSent) + (if peer.tasksAlive then Peers(Losses(events)) else [])
      ensures old(peer.lostReports) > 0 ==> state == Disconnected
      ensures var h := HandleAll(old(state), old(fromAsync), old(peer.lostReports));
              state == h.state && events == h.events && Broadcast(old(peer.closesSent), h.closes)
    {
      ghost var h := HandleAll(state, fromAsync, 0);
      ghost var g := HandleAll(h.state, [], peer.lostReports);
      MessagesThenReports(state, fromAsync, peer.lostReports);
      ConcatAssociative(peer.closesSent, h.closes, g.closes);
      EveryLossIsTold(state, fromAsync, peer.lostReports);
      events := HandleMessages();
      var more := HandleReports();
      events := events + more;
    }
  }

  lemma TakeFirst<T>(a: seq<T>, b: seq<T>)
    requires b != []
    ensures a + [b[0]] + b[1..] == a + b
  {
  }

  function Losses(events: seq<ClientEvent>): nat {
    if events == [] then 0
    else Losses(events[..|events| - 1]) + (if events[|events| - 1].ConnectionLostEvent? then 1 else 0)
  }

  function Peers(n: nat): seq<CloseReason> {
    seq(n, i => PeerClosed)
  }

  lemma LossesNext(events: seq<ClientEvent>, e: ClientEvent)
    ensures Losses(events + [e]) == Losses(events) + (if e.ConnectionLostEvent? then 1 else 0)
    ensures Losses(events + []) == Losses(events)
  {
    assert (events + [e])[..|events|] == events && events + [] == events;
  }

  /** The closes are one for each loss that is written. */
  predicate IsTold(h: Handled) {
    h.closes == Peers(Losses(h.events))
  }

  lemma ThenIsTold(h: Handled, g: Handled)
    requires IsTold(h) && IsTold(g) && |g.events| <= 1
    ensures IsTold(Then(h, g))
  {
    if g.events == [] {
      assert h.events + [] == h.events && h.closes + [] == h.closes;
    } else {
      assert g.events == [g.events[0]];
      LossesNext(h.events, g.events[0]);
      LossesNext([], g.events[0]);
    }
  }

  lemma OneIsTold(state: ConnectionState, m: ClientAsyncMessage)
    ensures IsTold(Lose(state)) && |Lose(state).events| <= 1
    ensures IsTold(HandleOne(state, m)) && |HandleOne(state, m).events| <= 1
  {
    assert Peers(0) == [] && Peers(1) == [PeerClosed];
    var h, g := Lose(state), HandleOne(state, m);
    if h.events != [] {
      assert h.events[..0] == [];
    }
    if g.events != [] {
      assert g.events[..0] == [];
    }
  }

  /** Handling tells of every loss that it writes, and of nothing else; after a report the state is disconnected. */
  lemma {:induction false} EveryLossIsTold(state: ConnectionState, ms: seq<ClientAsyncMessage>, reports: nat)
    ensures var h := HandleAll(state, ms, reports); IsTold(h) && (reports > 0 ==> h.state == Disconnected)
    decreases |ms| + reports
  {
    if reports > 0 {
      EveryLossIsTold(state, ms, reports - 1);
      var h := HandleAll(state, ms, reports - 1);
      OneIsTold(h.state, ServerGone);
      ThenIsTold(h, Lose(h.state));
    } else if ms != [] {
      var front, m := ms[..|ms| - 1], ms[|ms| - 1];
      EveryLossIsTold(state, front, 0);
      var h := HandleAll(state, front, 0);
      OneIsTold(h.state, m);
      ThenIsTold(h, HandleOne(h.state, m));
    }
  }

  lemma HandleNext(state: ConnectionState, ms: seq<ClientAsyncMessage>, m: ClientAsyncMessage)
    ensures var h := HandleAll(state, ms, 0); HandleAll(state, ms + [m], 0) == Then(h, HandleOne(h.state, m))
  {
    assert (ms + [m])[..|ms|] == ms;
  }

  lemma {:induction false} MessagesThenReports(state: ConnectionState, ms: seq<ClientAsyncMessage>, n: nat)
    ensures var h := HandleAll(state, ms, 0); HandleAll(state, ms, n) == Then(h, HandleAll(h.state, [], n))
  {
    var h := HandleAll(state, ms, 0);
    if n == 0 {
      assert h.events + [] == h.events && h.closes + [] == h.closes;
    } else {
      MessagesThenReports(state, ms, n - 1);
      var g := HandleAll(h.state, [], n - 1);
      ConcatAssociative(h.events, g.events, Lose(g.state).events);
      ConcatAssociative(h.closes, g.closes, Lose(g.state).closes);
    }
  }
}

/**
 The server endpoint: the connections of all clients, the channels opened on each of them, and
 the pool of channel ids that these share.
 */
module Endpoints {
  import opened Base
  import opened SendTask
  import opened PeerConnections
  import opened Registry

  datatype DisconnectError = UnknownClient(id: ClientId) | ClientAlreadyDisconnected(id: ClientId)

  class Endpoint {
    var clients: map<ClientId, PeerConnection>
    var clientIdGen: nat
    var openedChannels: map<ChannelId, ChannelConfig>
    const pool: ChannelsIdsPool
    var connectCount: nat
    var disconnectCount: nat

    ghost predicate Distinct()
      reads this`clients
    {
      forall a, b :: a in clients && b in clients && a != b ==> clients[a] != clients[b]
    }

    /** No id is reused while it is open anywhere, and every opened id is open everywhere. */
    ghost predicate ChannelsAgree()
      reads this, pool, clients.Values`sendChannels
    {
      && (forall k :: k in openedChannels ==> k !in pool.available)
      && (forall c :: c in clients ==> SlotsInv(clients[c].sendChannels, openedChannels.Keys, pool.available))
    }

    ghost predicate Valid()
      reads this, pool, clients.Values`sendChannels
    {
      && Distinct()
      && (forall c :: c in clients ==> 0 < c <= clientIdGen)
      && ChannelsAgree()
    }

    constructor ()
      ensures Valid() && fresh(pool)
      ensures clients == map[] && openedChannels == map[] && pool.available == ALL_IDS && pool.defaultChannel == None
      ensures clientIdGen == connectCount == disconnectCount == 0
    {
      clients := map[];
      clientIdGen := 0;
      openedChannels := map[];
      pool := new ChannelsIdsPool();
      connectCount := 0;
      disconnectCount := 0;
    }

    ghost predicate AllCanRequest()
      reads this`clients, clients.Values`spawnerAlive, clients.Values`toChannels
    {
      forall c :: c in clients ==> clients[c].CanRequest()
    }

    /** The requests of a client are as before, or there is one more, for a new channel with this id. */
    twostate predicate AtMostOneMore(conn: PeerConnection, id: ChannelId, config: ChannelConfig)
      reads conn`toChannels
    {
      var before, now := old(conn.toChannels), conn.toChannels;
      now == before
      || (&& old(conn.CanRequest()) && |now| == |before| + 1 && before < now
          && now[|before|].channel.id == id && now[|before|].config == config && fresh(now[|before|].channel))
    }

    /**
       Requests the channel from every client, in any order, stopping at the first one that cannot;
       the clients reached before it keep their requests.
     */
    method CreateUnregisteredEndpointChannels(id: ChannelId, config: ChannelConfig)
      returns (r: Result<map<ClientId, Channel>, AsyncChannelError>)
      requires Distinct()
      modifies clients.Values`toChannels
      ensures r.Ok? <==> old(AllCanRequest())
      ensures r.Ok? ==> r.value.Keys == clients.Keys
      ensures r.Ok? ==> forall c :: c in clients ==>
                fresh(r.value[c]) && r.value[c].id == id
                && clients[c].toChannels == old(clients[c].toChannels) + [CreateChannel(r.value[c], config)]
      ensures r.Err? ==> forall c :: c in clients ==> AtMostOneMore(clients[c], id, config)
    {
      var unregistered: map<ClientId, Channel> := map[];
      var remaining := clients.Keys;
      while remaining != {}
        invariant remaining <= clients.Keys && unregistered.Keys == clients.Keys - remaining
        invariant forall c :: c in unregistered ==> fresh(unregistered[c]) && unregistered[c].id == id
        invariant forall c :: c in remaining ==> clients[c].toChannels == old(clients[c].toChannels)
        invariant forall c :: c in clients && c !in remaining ==>
                    old(clients[c].CanRequest())
                    && clients[c].toChannels == old(clients[c].toChannels) + [CreateChannel(unregistered[c], config)]
      {
        var c :| c in remaining;
        var created := clients[c].CreateUnregisteredConnectionChannel(id, config);
        if created.Err? {
          return Err(created.error);
        }
        remaining := remaining - {c};
        unregistered := unregistered[c := created.value];
      }
      return Ok(unregistered);
    }

    method RegisterEverywhere(id: ChannelId, channels: map<ClientId, Channel>)
      requires Distinct() && channels.Keys == clients.Keys
      modifies clients.Values`sendChannels
      ensures forall c :: c in clients ==>
                clients[c].sendChannels == Registered(old(clients[c].sendChannels), channels[c])
    {
      var remaining := channels.Keys;
      while remaining != {}
        invariant remaining <= clients.Keys
        invariant forall c :: c in remaining ==> clients[c].sendChannels == old(clients[c].sendChannels)
        invariant forall c :: c in clients && c !in remaining ==>
                    clients[c].sendChannels == Registered(old(clients[c].sendChannels), channels[c])
      {
        var c :| c in remaining;
        clients[c].RegisterConnectionChannel(channels[c]);
        remaining := remaining - {c};
      }
    }

    /** Commits a channel that every client has requested. */
    method Commit(id: ChannelId, config: ChannelConfig, channels: map<ClientId, Channel>)
      requires Valid() && id !in pool.available
      requires channels.Keys == clients.Keys && forall c :: c in clients ==> channels[c].id == id
      requires forall c :: c in clients ==> Slot(clients[c].sendChannels, id).None?
      modifies this`openedChannels, clients.Values`sendChannels
      ensures Valid() && openedChannels == old(openedChannels)[id := config]
      ensures forall c :: c in clients ==>
                Gains(old(clients[c].sendChannels), clients[c].sendChannels, id)
                && Slot(clients[c].sendChannels, id) == Some(channels[c])
    {
      ghost var before := openedChannels.Keys;
      RegisterEverywhere(id, channels);
      openedChannels := openedChannels[id := config];
      assert openedChannels.Keys == before + {id};
      forall c | c in clients
        ensures SlotsInv(clients[c].sendChannels, openedChannels.Keys, pool.available)
        ensures Gains(old(clients[c].sendChannels), clients[c].sendChannels, id)
        ensures Slot(clients[c].sendChannels, id) == Some(channels[c])
      {
        RegisterKeepsSlots(old(clients[c].sendChannels), before, pool.available, channels[c]);
        RegisteredSlots(old(clients[c].sendChannels), channels[c]);
      }
    }

    /** Makes an id available again that is open nowhere. */
    method GiveBack(id: ChannelId)
      requires Valid() && id !in openedChannels
      requires forall c :: c in clients ==> Slot(clients[c].sendChannels, id).None?
      modifies pool
      ensures Valid() && pool.available == old(pool.available) + {id}
      ensures pool.defaultChannel == if old(pool.defaultChannel) == Some(id) then None else old(pool.defaultChannel)
    {
      pool.ReleaseId(id);
    }

    /** The client has one more channel, under `id`, and its last request is for that channel. */
    ghost predicate Gained(conn: PeerConnection, slots: Slots, requests: seq<CreateChannel>, id: ChannelId, config: ChannelConfig)
      reads conn`toChannels, conn`sendChannels
    {
      && Gains(slots, conn.sendChannels, id)
      && conn.toChannels == requests + [CreateChannel(Slot(conn.sendChannels, id).value, config)]
    }

    /**
     All or nothing. If any client cannot take the request, no client's channels change, and the
     opened channels and available ids are as before; so is the default channel, unless it named
     the very id that was tried, an id that was not open.
     */
    method CreateEndpointChannel(id: ChannelId, config: ChannelConfig) returns (r: Result<ChannelId, AsyncChannelError>)
      requires Valid() && id !in pool.available && id !in openedChannels
      requires forall c :: c in clients ==> Slot(clients[c].sendChannels, id).None?
      modifies this`openedChannels, pool, clients.Values`toChannels, clients.Values`sendChannels
      ensures Valid()
      ensures r.Ok? <==> old(AllCanRequest())
      ensures r.Ok? ==> r.value == id && openedChannels == old(openedChannels)[id := config]
                        && pool.available == old(pool.available) && pool.defaultChannel == old(pool.defaultChannel)
      ensures r.Ok? ==> forall c :: c in clients ==>
                Gained(clients[c], old(clients[c].sendChannels), old(clients[c].toChannels), id, config)
      ensures r.Err? ==> openedChannels == old(openedChannels) && pool.available == old(pool.available) + {id}
      ensures r.Err? ==> pool.defaultChannel == if old(pool.defaultChannel) == Some(id) then None
                                                else old(pool.defaultChannel)
      ensures r.Err? ==> forall c :: c in clients ==>
                clients[c].sendChannels == old(clients[c].sendChannels)
                && AtMostOneMore(clients[c], id, config)
    {
      var created := CreateUnregisteredEndpointChannels(id, config);
      if created.Err? {
        GiveBack(id);
        return Err(created.error);
      }
      Commit(id, config, created.value);
      return Ok(id);
    }

    method OpenChannel(config: ChannelConfig) returns (r: Result<ChannelId, ChannelCreationError>)
      requires Valid()
      modifies this`openedChannels, pool, clients.Values`toChannels, clients.Values`sendChannels
      ensures Valid()
      ensures r == Err(MaxChannelsCountReached) <==> old(pool.available) == {}
      ensures r.Ok? <==> old(pool.available != {} && AllCanRequest())
      ensures r.Ok? ==> IsLeast(r.value, old(pool.available)) && pool.available == old(pool.available) - {r.value}
                        && openedChannels == old(openedChannels)[r.value := config]
                        && pool.defaultChannel == if old(pool.defaultChannel).None? then Some(r.value)
                                                  else old(pool.defaultChannel)
      ensures r.Ok? ==> forall c :: c in clients ==>
                Gained(clients[c], old(clients[c].sendChannels), old(clients[c].toChannels), r.value, config)
      ensures r.Err? ==> openedChannels == old(openedChannels) && pool.available == old(pool.available)
      ensures r.Err? ==> forall c :: c in clients ==> clients[c].sendChannels == old(clients[c].sendChannels)
      ensures r.Err? && r.error.AsyncError? ==>
                (pool.defaultChannel == old(pool.defaultChannel)
                 <==> !(old(pool.defaultChannel).Some? && IsLeast(old(pool.defaultChannel).value, old(pool.available))))
      ensures r == Err(MaxChannelsCountReached) ==> pool.defaultChannel == old(pool.defaultChannel)
    {
      var taken := pool.TakeId();
      if taken.Err? {
        return Err(taken.error);
      }
      var id := taken.value;
      assert id !in openedChannels;
      assert forall c :: c in clients ==> Slot(clients[c].sendChannels, id).None?;
      var created := CreateEndpointChannel(id, config);
      match created {
        case Ok(value) => return Ok(value);
        case Err(e) => return Err(AsyncError(e));
      }
    }

    /** Any id may become the default, also one that is not open. */
    method SetDefaultChannel(id: ChannelId)
      requires Valid()
      modifies pool`defaultChannel
      ensures Valid() && pool.defaultChannel == Some(id)
    {
      pool.SetDefaultChannel(id);
    }

    /** Exactly `configs` are open, under the ids 0, 1, 2, ... in order. */
    ghost predicate HasExactly(configs: seq<ChannelConfig>)
      reads this`openedChannels, pool
    {
      && |configs| <= MAX_CHANNEL_COUNT
      && (forall k: ChannelId :: k in pool.available <==> k >= |configs|)
      && (forall k: ChannelId :: k in openedChannels <==> k < |configs|)
      && (forall k: ChannelId :: k < |configs| ==> openedChannels[k] == configs[k])
      && pool.defaultChannel == if configs == [] then None else Some(0)
    }

    /** A starting endpoint has no clients, so all its configured channels are opened, with the promised ids. */
    method OpenConfigured(configs: seq<ChannelConfig>) returns (r: Result<(), ChannelCreationError>)
      requires Valid() && clients == map[] && HasExactly([]) && |configs| <= MAX_CHANNEL_COUNT
      modifies this`openedChannels, pool
      ensures Valid() && r.Ok? && HasExactly(configs)
    {
      var i := 0;
      while i < |configs|
        invariant 0 <= i <= |configs| && clients == map[] && Valid() && HasExactly(configs[..i])
      {
        assert (i as ChannelId) in pool.available;
        var created := OpenChannel(configs[i]);
        assert created == Ok(i);
        assert configs[..i + 1] == configs[..i] + [configs[i]];
        i := i + 1;
      }
      assert configs[..i] == configs;
      return Ok(());
    }

    /** Every client holds a channel under `id`, and its task is there to be told. */
    ghost predicate AllTasksAlive(id: ChannelId)
      reads *
    {
      forall c :: c in clients ==> HasLiveTask(clients[c].sendChannels, id)
    }

    /** The task of the channel that was under `id` was told to close. */
    ghost predicate Signalled(conn: PeerConnection, before: seq<Channel>, slots: Slots, id: ChannelId)
      reads conn`closeSignals
    {
      Slot(slots, id).Some? && conn.closeSignals == before + [Slot(slots, id).value]
    }

    /** Takes the channel away from the clients, in any order, up to and including the first whose task is gone. */
    method CloseEverywhere(id: ChannelId) returns (r: Result<(), ChannelCloseError>)
      requires Distinct()
      modifies clients.Values`sendChannels, clients.Values`closeSignals
      ensures r.Ok? <==> old(AllTasksAlive(id))
      ensures r.Ok? ==> forall c :: c in clients ==> Signalled(clients[c], old(clients[c].closeSignals), old(clients[c].sendChannels), id)
      ensures forall c :: c in clients ==>
                Loses(old(clients[c].sendChannels), clients[c].sendChannels, id)
                || (r.Err? && clients[c].sendChannels == old(clients[c].sendChannels))
    {
      var remaining := clients.Keys;
      while remaining != {}
        invariant remaining <= clients.Keys
        invariant forall c :: c in remaining ==>
                    clients[c].sendChannels == old(clients[c].sendChannels)
                    && clients[c].closeSignals == old(clients[c].closeSignals)
        invariant forall c :: c in clients && c !in remaining ==>
                    && old(HasLiveTask(clients[c].sendChannels, id))
                    && Loses(old(clients[c].sendChannels), clients[c].sendChannels, id)
                    && Signalled(clients[c], old(clients[c].closeSignals), old(clients[c].sendChannels), id)
      {
        var c :| c in remaining;
        var closed := clients[c].InternalCloseChannel(id);
        if closed.Err? {
          return closed;
        }
        remaining := remaining - {c};
      }
      return Ok(());
    }

    /**
     Closes a channel on every client. If a client's task is gone, the channel is no longer
     opened, but its id is not released, and clients that were not reached yet keep it.
     */
    method CloseChannel(id: ChannelId) returns (r: Result<(), ChannelCloseError>)
      requires Valid()
      modifies this`openedChannels, pool, clients.Values`sendChannels, clients.Values`closeSignals
      ensures Valid()
      ensures openedChannels == old(openedChannels) - {id}
      ensures id !in old(openedChannels) ==>
                r == Err(InvalidChannelId(id)) && forall c :: c in clients ==> clients[c].sendChannels == old(clients[c].sendChannels)
      ensures id in old(openedChannels) ==> (r.Ok? <==> old(AllTasksAlive(id)))
      ensures r.Ok? ==> forall c :: c in clients ==>
                Loses(old(clients[c].sendChannels), clients[c].sendChannels, id)
                && Signalled(clients[c], old(clients[c].closeSignals), old(clients[c].sendChannels), id)
      ensures r.Ok? ==> pool.available == old(pool.available) + {id}
                        && pool.defaultChannel == if old(pool.defaultChannel) == Some(id) then None
                                                  else old(pool.defaultChannel)
      ensures r.Err? ==> pool.available == old(pool.available) && pool.defaultChannel == old(pool.defaultChannel)
      ensures r.Err? ==> forall c :: c in clients ==>
                Loses(old(clients[c].sendChannels), clients[c].sendChannels, id)
                || clients[c].sendChannels == old(clients[c].sendChannels)
    {
      if id !in openedChannels {
        assert openedChannels - {id} == openedChannels;
        return Err(InvalidChannelId(id));
      }
      openedChannels := openedChannels - {id};
      r := CloseEverywhere(id);
      assert openedChannels.Keys == old(openedChannels.Keys) - {id};
      forall c | c in clients
        ensures SlotsInv(clients[c].sendChannels, openedChannels.Keys,
                         if r.Ok? then pool.available + {id} else pool.available)
      {
        LoseKeepsSlots(old(clients[c].sendChannels), clients[c].sendChannels, old(openedChannels.Keys), pool.available, id);
      }
      if r.Ok? {
        pool.ReleaseId(id);
      }
    }

    /**
     The connection holds exactly the channels `ids`, of those that are open, and `requests` are
     the last in its control queue: one for each, with its configuration and the channel it holds.
     */
    ghost predicate Opened(conn: PeerConnection, base: seq<CreateChannel>, requests: seq<CreateChannel>, ids: set<ChannelId>)
      reads this`openedChannels, conn`sendChannels, conn`toChannels
    {
      Holds(conn.sendChannels, conn.toChannels, base, requests, openedChannels, ids)
    }

    method OpenOneOn(conn: PeerConnection, id: ChannelId,
                     ghost base: seq<CreateChannel>, ghost before: seq<CreateChannel>, ghost ids: set<ChannelId>)
      returns (r: Result<(), AsyncChannelError>, ghost requests: seq<CreateChannel>)
      requires id in openedChannels && id !in ids && Opened(conn, base, before, ids)
      modifies conn`sendChannels, conn`toChannels
      ensures r.Ok? <==> old(conn.CanRequest())
      ensures r.Ok? ==> Opened(conn, base, requests, ids + {id}) && |requests| == |before| + 1
    {
      requests := before;
      var created, channel := conn.CreateConnectionChannel(id, openedChannels[id]);
      if created.Ok? {
        ghost var request := CreateChannel(channel.value, openedChannels[id]);
        HoldsNext(old(conn.sendChannels), old(conn.toChannels), base, before, openedChannels, ids, request);
        requests := before + [request];
      }
      return created, requests;
    }

    /** Requests every opened channel on a new connection, in any order. */
    method OpenOn(conn: PeerConnection)
      returns (r: Result<(), AsyncChannelError>, ghost requests: seq<CreateChannel>)
      requires conn.sendChannels == []
      modifies conn`sendChannels, conn`toChannels
      ensures r.Ok? ==> Opened(conn, old(conn.toChannels), requests, openedChannels.Keys)
      ensures old(conn.spawnerAlive) && |old(conn.toChannels)| + |openedChannels| <= CONTROL_QUEUE_SIZE ==> r.Ok?
    {
      var remaining := openedChannels.Keys;
      ghost var base, done := conn.toChannels, {};
      requests := [];
      HoldsNone(base, openedChannels);
      while remaining != {}
        invariant remaining == openedChannels.Keys - done && done <= openedChannels.Keys
        invariant Opened(conn, base, requests, done)
        invariant |requests| + |remaining| == |openedChannels.Keys|
      {
        var id :| id in remaining;
        r, requests := OpenOneOn(conn, id, base, requests, done);
        if r.Err? {
          return;
        }
        remaining := remaining - {id};
        done := done + {id};
      }
      assert done == openedChannels.Keys;
      r := Ok(());
    }

    /**
     Admits a connection: it ends with exactly the opened channels, whatever the order in which
     they are listed. It fails only if its async side is gone; there is room to request every
     channel on a new connection. An id that could not be acknowledged is not given out again.
     */
    method HandleNewConnection(conn: PeerConnection)
      returns (r: Result<ClientId, AsyncChannelError>, ghost requests: seq<CreateChannel>)
      requires Valid() && conn !in clients.Values && conn.sendChannels == []
      modifies this`clients, this`clientIdGen, this`connectCount
      modifies conn`sendChannels, conn`toChannels, conn`closesSent
      ensures Valid()
      ensures r.Ok? ==> r.value == old(clientIdGen) + 1 == clientIdGen && connectCount == old(connectCount) + 1
                        && clients == old(clients)[r.value := conn]
                        && Opened(conn, old(conn.toChannels), requests, openedChannels.Keys)
      ensures r.Err? ==> clients == old(clients) && connectCount == old(connectCount)
                         && old(clientIdGen) <= clientIdGen <= old(clientIdGen) + 1
      ensures r.Ok? ==> conn.ackAlive && conn.closesSent == old(conn.closesSent)
      ensures r.Err? ==> conn.closesSent == old(conn.closesSent) + (if conn.tasksAlive then [LocalOrder] else [])
      ensures old(conn.ackAlive && conn.spawnerAlive && conn.toChannels == []) ==> r.Ok?
    {
      AtMostAllIds(openedChannels.Keys);
      assert |openedChannels| == |openedChannels.Keys|;
      var requested;
      requested, requests := OpenOn(conn);
      if requested.Err? {
        var _ := conn.Close(LocalOrder);
        return Err(requested.error), requests;
      }
      clientIdGen := clientIdGen + 1;
      var id := clientIdGen;
      if !conn.ackAlive {
        var _ := conn.Close(LocalOrder);
        return Err(InternalChannelClosed), requests;
      }
      assert SlotsInv(conn.sendChannels, openedChannels.Keys, pool.available) by {
        ExactSlots(conn.sendChannels, openedChannels.Keys, pool.available);
      }
      clients := clients[id := conn];
      connectCount := connectCount + 1;
      return Ok(id), requests;
    }

    function ClientAt(id: ClientId): set<PeerConnection>
      reads this`clients
    {
      if id in clients then {clients[id]} else {}
    }

    /** Removes the client whether or not its tasks can still be told. */
    method InternalDisconnectClient(id: ClientId, reason: CloseReason) returns (r: Result<(), DisconnectError>)
      requires Valid()
      modifies this`clients, this`disconnectCount, ClientAt(id)`closesSent
      ensures Valid()
      ensures clients == old(clients) - {id}
      ensures id !in old(clients) <==> r == Err(UnknownClient(id))
      ensures disconnectCount == old(disconnectCount) + (if id in old(clients) then 1 else 0)
      ensures id in old(clients) ==>
                && (r.Ok? <==> old(clients[id].tasksAlive))
                && old(clients[id]).closesSent == old(clients[id].closesSent) + (if r.Ok? then [reason] else [])
    {
      if id !in clients {
        assert clients - {id} == clients;
        return Err(UnknownClient(id));
      }
      var conn := clients[id];
      clients := clients - {id};
      disconnectCount := disconnectCount + 1;
      var closed := conn.Close(reason);
      return if closed.Ok? then Ok(()) else Err(ClientAlreadyDisconnected(id));
    }

    method DisconnectAllClients()
      requires Valid()
      modifies this`clients, clients.Values`closesSent
      ensures Valid() && clients == map[]
      ensures forall c :: c in old(clients) ==>
                old(clients[c]).closesSent
                == old(clients[c].closesSent) + (if old(clients[c]).tasksAlive then [LocalOrder] else [])
    {
      var drained := clients;
      clients := map[];
      var remaining := drained.Keys;
      while remaining != {}
        invariant clients == map[] && remaining <= drained.Keys
        invariant forall c :: c in remaining ==> drained[c].closesSent == old(drained[c].closesSent)
        invariant forall c :: c in drained && c !in remaining ==>
                    drained[c].closesSent
                    == old(drained[c].closesSent) + (if drained[c].tasksAlive then [LocalOrder] else [])
      {
        var c :| c in remaining;
        remaining := remaining - {c};
        var _ := drained[c].Close(LocalOrder);
      }
    }
  }
}

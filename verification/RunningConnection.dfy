/**
 A client connection together with its channel tasks, in one epoch: each operation of the connection,
 each message of its update, and each step of the spawner and of a task is an event of the system
 that the results about closing are about.
 */
module RunningConnections {
  import opened Base
  import opened SendTask
  import opened PeerConnections
  import opened ClientConnections
  import opened ConnectionMirrors
  import RecvChannels
  import S = Shutdown
  import GracefulClose

  /** `sys` and `ends` are history: the state of the system, and the ends of all channels there were. */
  class RunningConnection {
    const conn: ClientSideConnection
    ghost var sys: S.Sys
    ghost var ends: seq<Channel>

    ghost predicate Mirrored()
      reads this, conn, conn.peer
    {
      Mirrors(sys, ends, conn.state, conn.fromAsync, conn.peer.sendChannels, conn.peer.toChannels, conn.peer.spawnerAlive)
    }

    ghost predicate Told()
      reads this`sys, conn.peer`closesSent, conn.peer`tasksAlive
    {
      ToldMatches(sys, conn.peer.closesSent, conn.peer.tasksAlive)
    }

    /** The connection is in the state that one of the system's runs has led to. */
    ghost predicate Matches()
      reads this, conn, conn.peer, conn.pool, ends
    {
      conn.Valid() && Mirrored() && EndsMatch(ends, sys.chans) && Told()
    }

    constructor (config: SendChannelsConfiguration, recvCfg: RecvChannels.Config)
      requires config.Valid()
      ensures Matches() && sys == S.Initial(S.Client) && ends == []
      ensures fresh(conn) && fresh(conn.peer) && fresh(conn.pool)
    {
      conn := new ClientSideConnection(config, recvCfg);
      sys := S.Initial(S.Client);
      ends := [];
      assert S.After(S.Initial(S.Client), []) == Some(S.Initial(S.Client));
    }

    // ---- The application --------------------------------------------------

    method OpenChannel(config: ChannelConfig) returns (r: Result<ChannelId, ChannelCreationError>)
      requires Matches()
      modifies this`sys, this`ends, conn.pool, conn.peer`toChannels, conn.peer`sendChannels
      ensures Matches()
      ensures r.Ok? <==> old(conn.pool.available) != {} && old(conn.peer.CanRequest())
      ensures r.Err? ==> sys == old(sys) && ends == old(ends)
      ensures r.Ok? ==> S.Allowed(old(sys), S.OpenChannel(r.value, config))
                        && sys == S.Next(old(sys), S.OpenChannel(r.value, config))
                        && Slot(conn.peer.sendChannels, r.value).Some?
                        && ends == old(ends) + [Slot(conn.peer.sendChannels, r.value).value]
    {
      ghost var slots, requests := conn.peer.sendChannels, conn.peer.toChannels;
      r := conn.OpenChannel(config);
      if r.Ok? {
        ghost var end := Slot(conn.peer.sendChannels, r.value).value;
        RecordOpen(slots, requests, end, config);
      }
    }

    ghost method RecordOpen(slots: Slots, requests: seq<CreateChannel>, end: Channel, config: ChannelConfig)
      requires conn.Valid() && Told() && EndsMatch(ends, sys.chans) && conn.peer.spawnerAlive && |requests| < CONTROL_QUEUE_SIZE
      requires Mirrors(sys, ends, conn.state, conn.fromAsync, slots, requests, true)
      requires NewEnd(end) && end !in ends
      requires Gains(slots, conn.peer.sendChannels, end.id) && Slot(conn.peer.sendChannels, end.id) == Some(end)
      requires conn.peer.toChannels == requests + [CreateChannel(end, config)]
      modifies this`sys, this`ends
      ensures Matches() && S.Allowed(old(sys), S.OpenChannel(end.id, config))
      ensures sys == S.Next(old(sys), S.OpenChannel(end.id, config)) && ends == old(ends) + [end]
    {
      OpenStep(sys, ends, conn.state, conn.fromAsync, slots, requests, conn.peer.sendChannels, end, config);
      OneMoreEnd(ends, sys.chans, end, NewChan(end.id, config));
      ToldSame(sys, S.OpenChannel(end.id, config));
      sys := S.Next(sys, S.OpenChannel(end.id, config));
      ends := ends + [end];
    }

    /** What is accepted is a payload of the channel that is open under this id. */
    method SendPayloadOn(id: ChannelId, payload: Payload) returns (r: Result<(), ClientSendError>, ghost i: nat)
      requires Matches()
      modifies this`sys, conn.peer`sentBytes, ChannelAt(conn.peer.sendChannels, id)`queue
      ensures Matches()
      ensures r.Ok? ==> i < |ends| && Slot(conn.peer.sendChannels, id) == Some(ends[i])
                        && S.Allowed(old(sys), S.Send(i, payload)) && sys == S.Next(old(sys), S.Send(i, payload))
      ensures r.Err? ==> sys == old(sys)
    {
      i := 0;
      if Slot(conn.peer.sendChannels, id).Some? {
        i :| 0 <= i < |ends| && ends[i] == Slot(conn.peer.sendChannels, id).value;
        OtherEnds(conn.peer.sendChannels, ends, sys.chans, i);
        assert EndMatches(ends[i], sys.chans[i]);
      }
      r := conn.SendPayloadOn(id, payload);
      if r.Ok? {
        RecordSend(i, payload);
      }
    }

    /** All but the end of channel `i` is as the system says; the end holds one more payload. */
    ghost method RecordSend(i: nat, payload: Payload)
      requires conn.Valid() && Told() && Mirrored() && |ends| == |sys.chans| && i < |ends|
      requires S.Allowed(sys, S.Send(i, payload)) && EndMatches(ends[i], Accept(sys.chans[i], payload))
      requires forall j :: 0 <= j < |ends| && j != i ==> EndMatches(ends[j], sys.chans[j])
      modifies this`sys
      ensures Matches() && sys == S.Next(old(sys), S.Send(i, payload))
    {
      SendStep(sys, ends, conn.state, conn.fromAsync, conn.peer.sendChannels, conn.peer.toChannels, conn.peer.spawnerAlive,
               i, payload);
      OneEndChanges(ends, sys.chans, i, Accept(sys.chans[i], payload));
      ToldSame(sys, S.Send(i, payload));
      sys := S.Next(sys, S.Send(i, payload));
    }

    /** The channel is released even if its task cannot be told any more. */
    method CloseChannel(id: ChannelId) returns (r: Result<(), ChannelCloseError>, ghost i: nat)
      requires Matches()
      modifies this`sys, conn.pool, conn.peer`sendChannels, conn.peer`closeSignals
      ensures Matches()
      ensures Slot(old(conn.peer.sendChannels), id).None? ==> sys == old(sys)
      ensures Slot(old(conn.peer.sendChannels), id).Some? ==>
                && i < |ends| && Slot(old(conn.peer.sendChannels), id) == Some(ends[i])
                && S.Allowed(old(sys), S.CloseChannel(i)) && sys == S.Next(old(sys), S.CloseChannel(i))
    {
      ghost var slots := conn.peer.sendChannels;
      i := 0;
      r := conn.CloseChannel(id);
      if Slot(slots, id).Some? {
        i :| 0 <= i < |ends| && ends[i] == Slot(slots, id).value;
        RecordClose(slots, i);
      } else {
        NoSlotLost(slots, conn.peer.sendChannels, ends, sys.chans, id);
      }
    }

    ghost method RecordClose(slots: Slots, i: nat)
      requires conn.Valid() && Told() && EndsMatch(ends, sys.chans)
      requires Mirrors(sys, ends, conn.state, conn.fromAsync, slots, conn.peer.toChannels, conn.peer.spawnerAlive)
      requires i < |ends| && Slot(slots, ends[i].id) == Some(ends[i]) && Loses(slots, conn.peer.sendChannels, ends[i].id)
      modifies this`sys
      ensures Matches() && S.Allowed(old(sys), S.CloseChannel(i)) && sys == S.Next(old(sys), S.CloseChannel(i))
    {
      CloseStep(sys, ends, conn.state, conn.fromAsync, slots, conn.peer.toChannels, conn.peer.spawnerAlive,
                conn.peer.sendChannels, i);
      EndsAlike(ends, sys.chans, S.Next(sys, S.CloseChannel(i)).chans);
      ToldSame(sys, S.CloseChannel(i));
      sys := S.Next(sys, S.CloseChannel(i));
    }

    method Disconnect() returns (r: Result<(), ConnectionAlreadyClosed>)
      requires Matches()
      modifies this`sys, conn`state, conn.peer`closesSent
      ensures Matches() && conn.state == Disconnected
      ensures sys == if old(sys).open then S.Next(old(sys), S.Disconnect(LocalOrder)) else old(sys)
      ensures conn.peer.closesSent == old(conn.peer.closesSent)
                                      + (if !old(conn.state).Disconnected? && conn.peer.tasksAlive then [LocalOrder] else [])
    {
      DisconnectStep(sys, ends, conn.state, conn.fromAsync, conn.peer.sendChannels, conn.peer.toChannels,
                     conn.peer.spawnerAlive, LocalOrder);
      r := conn.InternalDisconnect(LocalOrder);
      EndsAlike(ends, sys.chans, AfterDisconnect(sys, LocalOrder).chans);
      ToldMore(sys, LocalOrder);
      sys := AfterDisconnect(sys, LocalOrder);
    }

    // ---- The update -------------------------------------------------------

    /** The oldest message of the connection task. */
    method HandleNextMessage() returns (written: seq<ClientEvent>)
      requires Matches() && conn.fromAsync != []
      modifies this`sys, conn`state, conn`fromAsync, conn.peer`closesSent
      ensures Matches() && old(conn.fromAsync) == [old(conn.fromAsync)[0]] + conn.fromAsync
      ensures match old(conn.fromAsync)[0]
              case ServerReached(id) =>
                && S.Allowed(old(sys), S.HandleConnected) && sys == S.Next(old(sys), S.HandleConnected)
                && conn.state == Connected(id) && written == [ConnectionEvent(id)]
              case ConnectionFailed =>
                && S.Allowed(old(sys), S.HandleFailed) && sys == S.Next(old(sys), S.HandleFailed)
                && conn.state == Disconnected && written == [ConnectionFailedEvent]
              case ServerGone =>
                && sys == (if old(sys).open then S.Next(old(sys), S.Disconnect(PeerClosed)) else old(sys))
                && conn.state == Disconnected && written == if old(conn.state).Disconnected? then [] else [ConnectionLostEvent]
              case Certificate(c) => sys == old(sys) && conn.state == old(conn.state) && written == [CertificateEvent(c)]
    {
      var message := conn.fromAsync[0];
      MessageStep(sys, ends, conn.state, conn.fromAsync, conn.peer.sendChannels, conn.peer.toChannels, conn.peer.spawnerAlive);
      conn.fromAsync := conn.fromAsync[1..];
      written := conn.HandleMessage(message);
      EndsAlike(ends, sys.chans, AfterMessage(sys, message).chans);
      MessageTold(sys, message);
      sys := AfterMessage(sys, message);
    }

    /** One report that a channel task has lost the connection. */
    method HandleNextReport() returns (written: seq<ClientEvent>)
      requires Matches() && conn.peer.lostReports > 0
      modifies this`sys, conn`state, conn.peer`closesSent, conn.peer`lostReports
      ensures Matches() && conn.state == Disconnected && conn.peer.lostReports == old(conn.peer.lostReports) - 1
      ensures sys == if old(sys).open then S.Next(old(sys), S.Disconnect(PeerClosed)) else old(sys)
      ensures written == if old(conn.state).Disconnected? then [] else [ConnectionLostEvent]
      ensures conn.peer.closesSent == old(conn.peer.closesSent)
                                      + (if !old(conn.state).Disconnected? && conn.peer.tasksAlive then [PeerClosed] else [])
    {
      DisconnectStep(sys, ends, conn.state, conn.fromAsync, conn.peer.sendChannels, conn.peer.toChannels,
                     conn.peer.spawnerAlive, PeerClosed);
      conn.peer.lostReports := conn.peer.lostReports - 1;
      written := conn.HandleLoss();
      EndsAlike(ends, sys.chans, AfterDisconnect(sys, PeerClosed).chans);
      ToldMore(sys, PeerClosed);
      sys := AfterDisconnect(sys, PeerClosed);
    }

    // ---- The async side ---------------------------------------------------

    /** The connection task sends the Connected message, once. */
    method Announce(id: Option<nat>)
      requires Matches() && S.Allowed(sys, S.Announce) && forall m :: m in conn.fromAsync ==> !Tells(m)
      modifies this`sys, conn`fromAsync
      ensures Matches() && sys == S.Next(old(sys), S.Announce)
      ensures conn.fromAsync == old(conn.fromAsync) + [ServerReached(id)]
    {
      AnnounceStep(sys, ends, conn.state, conn.fromAsync, conn.peer.sendChannels, conn.peer.toChannels,
                   conn.peer.spawnerAlive, id);
      conn.fromAsync := conn.fromAsync + [ServerReached(id)];
      ToldSame(sys, S.Announce);
      sys := S.Next(sys, S.Announce);
    }

    /** It sends that it has failed instead, or anything else. */
    method Post(message: ClientAsyncMessage)
      requires Matches() && !message.ServerReached?
      requires message.ConnectionFailed? ==> sys.connected.Unsent? && forall m :: m in conn.fromAsync ==> !Tells(m)
      modifies conn`fromAsync
      ensures Matches() && conn.fromAsync == old(conn.fromAsync) + [message]
    {
      OneMoreMessage(conn.fromAsync, sys.connected, message);
      conn.fromAsync := conn.fromAsync + [message];
    }

    /** The spawner takes the oldest request. */
    method Dequeue()
      requires Matches() && S.Allowed(sys, S.Dequeue)
      modifies this`sys, conn.peer`toChannels
      ensures Matches() && sys == S.Next(old(sys), S.Dequeue)
      ensures old(conn.peer.toChannels) != [] && conn.peer.toChannels == old(conn.peer.toChannels)[1..]
    {
      DequeueStep(sys, ends, conn.state, conn.fromAsync, conn.peer.sendChannels, conn.peer.toChannels, conn.peer.spawnerAlive);
      EndsAlike(ends, sys.chans, S.Next(sys, S.Dequeue).chans);
      conn.peer.toChannels := conn.peer.toChannels[1..];
      ToldSame(sys, S.Dequeue);
      sys := S.Next(sys, S.Dequeue);
    }

    /** The spawner starts, or stops taking requests. */
    ghost method StartOrStop(e: S.Event)
      requires Matches() && S.Allowed(sys, e) && (e.StartSpawner? || e.StopSpawner?)
      modifies this`sys
      ensures Matches() && sys == S.Next(old(sys), e)
    {
      EventStep(sys, e);
      ToldSame(sys, e);
      sys := S.Next(sys, e);
    }

    /** A task takes a payload off its queue, or ends. */
    static method MoveEnd(end: Channel, pops: bool, stops: bool)
      requires pops ==> end.queue != []
      modifies end`queue, end`taskAlive
      ensures end.queue == if pops then old(end.queue)[1..] else old(end.queue)
      ensures end.taskAlive == (old(end.taskAlive) && !stops)
    {
      if pops {
        end.queue := end.queue[1..];
      }
      if stops {
        end.taskAlive := false;
      }
    }

    /** Any step of the task of channel `i`, or of one of its message tasks. */
    method TaskStep(end: Channel, pops: bool, stops: bool, ghost i: nat, ghost st: Step)
      requires Matches() && S.Allowed(sys, S.Task(i, st)) && i < |ends| && ends[i] == end
      requires pops == st.Pop? && stops == Do(sys.chans[i], st).phase.Ended?
      modifies this`sys, end`queue, end`taskAlive
      ensures Matches() && sys == S.Next(old(sys), S.Task(i, st))
    {
      TaskMirrors(sys, ends, conn.state, conn.fromAsync, conn.peer.sendChannels, conn.peer.toChannels,
                  conn.peer.spawnerAlive, i, st);
      TaskEnd(sys.chans[i], st);
      OtherEnds(conn.peer.sendChannels, ends, sys.chans, i);
      assert EndMatches(end, sys.chans[i]);
      MoveEnd(end, pops, stops);
      OneEndChanges(ends, sys.chans, i, Do(sys.chans[i], st));
      ToldSame(sys, S.Task(i, st));
      sys := S.Next(sys, S.Task(i, st));
    }

    /** The requests that were not taken are dropped, and with them the receivers of their channels. */
    method DropRequests()
      requires RequestsMatch(conn.peer.toChannels, ends, sys.control)
      requires forall i, j :: 0 <= i < j < |ends| ==> ends[i] != ends[j]
      modifies conn.peer`toChannels, ends`taskAlive
      ensures conn.peer.toChannels == []
      ensures forall i :: 0 <= i < |ends| ==> (ends[i].taskAlive <==> old(ends[i].taskAlive) && i !in sys.control)
    {
      var k := 0;
      while k < |conn.peer.toChannels|
        invariant 0 <= k <= |conn.peer.toChannels| == |sys.control| && conn.peer.toChannels == old(conn.peer.toChannels)
        invariant forall i :: 0 <= i < |ends| ==>
                    (ends[i].taskAlive <==> old(ends[i].taskAlive) && i !in sys.control[..k])
      {
        conn.peer.toChannels[k].channel.taskAlive := false;
        assert sys.control[..k + 1] == sys.control[..k] + [sys.control[k]];
        k := k + 1;
      }
      assert sys.control[..k] == sys.control;
      conn.peer.toChannels := [];
    }

    /** The spawner closes the connection and ends. */
    method CloseConnection()
      requires Matches() && S.Allowed(sys, S.CloseConnection)
      modifies this`sys, conn.peer`toChannels, conn.peer`spawnerAlive, ends`taskAlive
      ensures Matches() && sys == S.Next(old(sys), S.CloseConnection)
      ensures conn.peer.toChannels == [] && !conn.peer.spawnerAlive
    {
      CloseConnectionStep(sys, ends, conn.state, conn.fromAsync, conn.peer.sendChannels, conn.peer.toChannels,
                          conn.peer.spawnerAlive);
      ghost var sys' := S.Next(sys, S.CloseConnection);
      ToldSame(sys, S.CloseConnection);
      DropRequests();
      conn.peer.spawnerAlive := false;
      forall i | 0 <= i < |ends| ensures EndMatches(ends[i], sys'.chans[i]) {
        assert old(EndMatches(ends[i], sys.chans[i]));
      }
      sys := sys';
    }
  }

  /** In some run that led here, the close messages the tasks were sent are its disconnects, in order. */
  lemma ClosesAreDisconnects(r: RunningConnection)
    requires r.Matches() && r.conn.peer.tasksAlive
    ensures exists events :: S.After(S.Initial(S.Client), events) == Some(r.sys) && r.conn.peer.closesSent == S.Reasons(events)
  {
    var events :| S.After(S.Initial(S.Client), events) == Some(r.sys);
    S.RunTellsReasons(S.Client, events);
  }

  /**
     What the caller of `disconnect` can go by. Channel `i` keeps what it promised if and only if nothing
     was accepted on it after a drain before, and the connection is connected, not connecting; or it was
     closed, or has no task to hear of it, or its writes have failed.
   */
  lemma DisconnectByState(r: RunningConnection, i: nat)
    requires r.Matches() && !r.conn.state.Disconnected? && i < |r.ends|
    ensures var c := r.sys.chans[i];
            GracefulClose.KeepsPromise(S.Next(r.sys, S.Disconnect(LocalOrder)), i) <==>
              c.writer.broken
              || (GracefulClose.NothingLate(c)
                  && (r.conn.state.Connected? || Slot(r.conn.peer.sendChannels, r.ends[i].id) != Some(r.ends[i])
                      || !S.LiveTask(c.phase)))
  {
    var events :| S.After(S.Initial(S.Client), events) == Some(r.sys);
    GracefulClose.DisconnectKeepsPromiseExactly(S.Client, events, i);
  }
}

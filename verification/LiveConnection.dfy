/**
 A client connection together with the async side that feeds it: each operation of the connection,
 and each message its tasks post, is a step of its life.
 */
module LiveConnections {
  import opened Base
  import opened SendTask
  import opened ClientConnections
  import opened ClientLifecycle
  import PeerConnections
  import RecvChannels

  datatype ReceiveError = ConnectionIsClosed

  /** What the queues hold is what the current epoch sent and the connection has not read. */
  ghost predicate QueuesMatch(c: Conn, messages: seq<ClientAsyncMessage>, reports: nat, payloads: seq<Message>) {
    && Taken(c) && c.payloadsRead <= |Current(c).payloads|
    && messages == Current(c).messages[c.read..]
    && reports == Current(c).reports - c.reportsRead
    && payloads == Current(c).payloads[c.payloadsRead..]
  }

  lemma SameBuffers(a: RecvChannels.Buffers, b: RecvChannels.Buffers)
    requires |a| == |b| && forall c: nat :: RecvChannels.Buffer(a, c) == RecvChannels.Buffer(b, c)
    ensures a == b
  {
    forall c | 0 <= c < |a| ensures a[c] == b[c] {
      assert RecvChannels.Buffer(a, c) == a[c] && RecvChannels.Buffer(b, c) == b[c];
    }
  }

  /** `epoch` numbers the queues that the connection holds now; `life` is history. */
  class LiveConnection {
    const conn: ClientSideConnection
    var epoch: nat
    ghost var life: Conn

    /** The connection is in the state that its life, one of the runs, says. */
    ghost predicate Matches()
      reads this, conn, conn.peer, conn.peer.received, conn.pool
    {
      && conn.Valid() && Reached(life) && |life.epochs| == epoch + 1
      && life.state == conn.state && life.cfg == conn.peer.received.cfg
      && QueuesMatch(life, conn.fromAsync, conn.peer.lostReports, conn.peer.received.incoming)
      && life.received.bufs == conn.peer.received.recvChannelsPayloads
    }

    constructor (config: SendChannelsConfiguration, recvCfg: RecvChannels.Config)
      requires config.Valid()
      ensures Matches() && life == Initial(recvCfg)
      ensures fresh(conn) && fresh(conn.peer) && fresh(conn.peer.received) && fresh(conn.pool)
    {
      conn := new ClientSideConnection(config, recvCfg);
      epoch := 0;
      life := Initial(recvCfg);
      InitialIsReached(recvCfg);
    }

    // ---- The async side ---------------------------------------------------

    /** A task of an earlier epoch still has that epoch's queue, which nobody reads any more. */
    method PostMessage(k: nat, message: ClientAsyncMessage)
      requires Matches() && k <= epoch
      modifies this`life, conn`fromAsync
      ensures Matches() && life == Next(old(life), Event.PostMessage(k, message))
      ensures conn.fromAsync == old(conn.fromAsync) + (if k == epoch then [message] else [])
    {
      if k == epoch {
        conn.fromAsync := conn.fromAsync + [message];
      }
      NextIsReached(life, Event.PostMessage(k, message));
      life := Next(life, Event.PostMessage(k, message));
    }

    method PostReport(k: nat)
      requires Matches() && k <= epoch
      modifies this`life, conn.peer`lostReports
      ensures Matches() && life == Next(old(life), Event.PostReport(k))
      ensures conn.peer.lostReports == old(conn.peer.lostReports) + (if k == epoch then 1 else 0)
    {
      if k == epoch {
        conn.peer.lostReports := conn.peer.lostReports + 1;
      }
      NextIsReached(life, Event.PostReport(k));
      life := Next(life, Event.PostReport(k));
    }

    method PostPayload(k: nat, payload: Message)
      requires Matches() && k <= epoch
      modifies this`life, conn.peer.received`incoming
      ensures Matches() && life == Next(old(life), Event.PostPayload(k, payload))
      ensures conn.peer.received.incoming == old(conn.peer.received.incoming) + (if k == epoch then [payload] else [])
    {
      if k == epoch {
        conn.peer.received.incoming := conn.peer.received.incoming + [payload];
      }
      NextIsReached(life, Event.PostPayload(k, payload));
      life := Next(life, Event.PostPayload(k, payload));
    }

    // ---- The update -------------------------------------------------------

    /** One step for each queued message, then one for each report. */
    method HandleClientEvents() returns (events: seq<ClientEvent>)
      requires Matches()
      modifies this`life, conn`state, conn`fromAsync, conn.peer`lostReports, conn.peer`closesSent
      ensures Matches() && conn.fromAsync == [] && conn.peer.lostReports == 0
      ensures life == AfterReports(AfterMessages(old(life), |old(conn.fromAsync)|), old(conn.peer.lostReports))
      ensures life.log == old(life).log + Writes(events)
      ensures conn.peer.closesSent == old(conn.peer.closesSent) + (if conn.peer.tasksAlive then Peers(Losses(events)) else [])
    {
      UpdateIsSteps(life, conn.peer.lostReports);
      ghost var after := AfterReports(AfterMessages(life, |conn.fromAsync|), conn.peer.lostReports);
      AfterIsReached(life, |conn.fromAsync|, conn.peer.lostReports);
      events := conn.HandleClientEvents();
      life := after;
    }

    /** A disconnected connection takes nothing in. */
    method DispatchReceivedPayloads() returns (r: Result<(), seq<RecvChannels.RecvError>>)
      requires Matches()
      modifies this`life, conn.peer.received
      ensures Matches()
      ensures life == if conn.state.Disconnected? then old(life)
                      else Next(old(life), DispatchPayloads(|old(conn.peer.received.incoming)|))
      ensures var o := RecvChannels.Dispatch(life.cfg, old(life).received.bufs, old(conn.peer.received.incoming));
              if conn.state.Disconnected? then r == Ok(()) && conn.peer.received.incoming == old(conn.peer.received.incoming)
              else
                && conn.peer.received.incoming == [] && conn.peer.received.recvChannelsPayloads == o.bufs
                && r == if o.errors == [] then Ok(()) else Err(o.errors)
    {
      if conn.state.Disconnected? {
        return Ok(());
      }
      ghost var n := |conn.peer.received.incoming|;
      assert conn.peer.received.incoming == Current(life).payloads[life.payloadsRead..life.payloadsRead + n];
      r := conn.peer.received.DispatchReceivedPayloads();
      NextIsReached(life, DispatchPayloads(n));
      life := Next(life, DispatchPayloads(n));
    }

    /** What is popped is the payload that the step hands over. */
    method ReceivePayload(c: ChannelId) returns (r: Result<Option<Payload>, ReceiveError>)
      requires Matches()
      modifies this`life, conn.peer.received`recvChannelsPayloads
      ensures Matches() && (r.Err? <==> conn.state.Disconnected?)
      ensures life == if r.Err? then old(life) else Next(old(life), Event.ReceivePayload(c))
      ensures r.Ok? ==> match r.value
                        case None => RecvChannels.Buffer(old(conn.peer.received.recvChannelsPayloads), c) == []
                        case Some(p) => RecvChannels.Buffer(old(conn.peer.received.recvChannelsPayloads), c)
                                        == [p] + RecvChannels.Buffer(conn.peer.received.recvChannelsPayloads, c)
      ensures r.Ok? ==> life.received.popped
                        == old(life).received.popped + (if r.value.Some? then [Message(c, r.value.value)] else [])
    {
      if conn.state.Disconnected? {
        return Err(ConnectionIsClosed);
      }
      var popped := conn.peer.received.InternalReceivePayload(c);
      NextIsReached(life, Event.ReceivePayload(c));
      life := Next(life, Event.ReceivePayload(c));
      SameBuffers(conn.peer.received.recvChannelsPayloads, life.received.bufs);
      return Ok(popped);
    }

    method ClearStaleReceivedPayloads()
      requires Matches()
      modifies this`life, conn.peer.received`recvChannelsPayloads
      ensures Matches()
      ensures life == if conn.peer.received.cfg.clearStale then Next(old(life), ClearPayloads) else old(life)
      ensures conn.peer.received.cfg.clearStale ==>
                forall c: nat :: RecvChannels.Buffer(conn.peer.received.recvChannelsPayloads, c) == []
    {
      conn.peer.received.ClearStaleReceivedPayloads();
      if conn.peer.received.cfg.clearStale {
        NextIsReached(life, ClearPayloads);
        life := Next(life, ClearPayloads);
      }
    }

    // ---- The application --------------------------------------------------

    method Disconnect() returns (r: Result<(), PeerConnections.ConnectionAlreadyClosed>)
      requires Matches()
      modifies this`life, conn`state, conn.peer`closesSent
      ensures Matches() && life == Next(old(life), Event.Disconnect)
      ensures conn.state == Disconnected
      ensures conn.peer.closesSent == old(conn.peer.closesSent)
                                      + (if !old(conn.state).Disconnected? && conn.peer.tasksAlive then [LocalOrder] else [])
    {
      r := conn.InternalDisconnect(LocalOrder);
      NextIsReached(life, Event.Disconnect);
      life := Next(life, Event.Disconnect);
    }

    /** A reconnect that does something starts the next epoch: queues and buffers are empty. */
    method Reconnect() returns (r: Result<(), PeerConnections.AsyncChannelError>)
      requires Matches()
      modifies this`life, this`epoch, conn, conn.peer, conn.peer.received, conn.pool
      ensures Matches() && r.Ok? && life == Next(old(life), Event.Reconnect)
      ensures epoch == if old(conn.state).Disconnected? then old(epoch) + 1 else old(epoch)
      ensures old(conn.state).Disconnected? ==>
                && conn.state == Connecting && conn.fromAsync == [] && conn.peer.lostReports == 0
                && conn.peer.received.incoming == [] && conn.peer.received.recvChannelsPayloads == []
    {
      if conn.state.Disconnected? {
        epoch := epoch + 1;
      }
      NextIsReached(life, Event.Reconnect);
      life := Next(life, Event.Reconnect);
      r := conn.Reconnect();
    }
  }

  /**
     Whatever was done with a connection and whatever its tasks of this and earlier epochs sent:
     what the application popped since the last reconnect, and what is still in the buffers, is on
     every channel some of what the current epoch's tasks received, in order.
   */
  lemma BuffersAreOfThisEpoch(l: LiveConnection, ch: ChannelId)
    requires l.Matches()
    ensures l.life.payloadsRead <= |Current(l.life).payloads|
    ensures Subsequence(RecvChannels.PayloadsOn(l.life.received.popped, ch)
                        + RecvChannels.Buffer(l.conn.peer.received.recvChannelsPayloads, ch),
                        RecvChannels.PayloadsOn(Current(l.life).payloads[..l.life.payloadsRead], ch))
  {
    var c := l.life;
    var states, events :| Run(c.cfg, states, events) && states[|events|] == c;
    PayloadsAreOfThisEpoch(c.cfg, states, events, |events|, ch);
  }
}

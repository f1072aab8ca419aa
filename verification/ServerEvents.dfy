/**
 The server's update of its endpoint: it admits connections, notices lost ones, and writes one
 event for each. What is proved is about the whole log of events.
 */
module ServerEvents {
  import opened Base
  import opened SendTask
  import opened PeerConnections
  import opened Endpoints

  datatype ServerAsyncMessage = ClientConnected(connection: PeerConnection) | ClientConnectionClosed(id: ClientId)

  datatype ServerEvent = ConnectionEvent(id: ClientId) | ConnectionLostEvent(id: ClientId)

  /**
     `lost` are the clients reported lost in this update and not removed yet. History: `explicit`
     are the clients removed by `disconnect_client`, `dropped` those removed all at once, and `drained`
     counts these.
   */
  datatype State = State(
    idGen: nat,
    clients: set<ClientId>,
    connects: nat,
    disconnects: nat,
    lost: set<ClientId>,
    log: seq<ServerEvent>,
    explicit: set<ClientId>,
    dropped: set<ClientId>,
    drained: nat)

  const INITIAL := State(0, {}, 0, 0, {}, [], {}, {}, 0)

  datatype Step =
    | Admit
    | Refuse(idTaken: bool)
    | Closed(id: ClientId)
    | ReportLost(id: ClientId)
    | RemoveLost(id: ClientId)
    | DisconnectClient(id: ClientId)
    | DisconnectAll

  /** Reports and removals of one update are not interleaved with anything else. */
  predicate Allowed(s: State, t: Step) {
    match t
    case ReportLost(id) => id in s.clients
    case RemoveLost(id) => id in s.lost
    case _ => s.lost == {}
  }

  function Next(s: State, t: Step): State {
    match t
    case Admit =>
      var id := s.idGen + 1;
      s.(idGen := id, clients := s.clients + {id}, connects := s.connects + 1, log := s.log + [ConnectionEvent(id)])
    case Refuse(idTaken) => if idTaken then s.(idGen := s.idGen + 1) else s
    case Closed(id) =>
      if id in s.clients then
        s.(clients := s.clients - {id}, disconnects := s.disconnects + 1, log := s.log + [ConnectionLostEvent(id)])
      else s
    case ReportLost(id) =>
      if id in s.lost then s else s.(lost := s.lost + {id}, log := s.log + [ConnectionLostEvent(id)])
    case RemoveLost(id) =>
      if id in s.clients then
        s.(lost := s.lost - {id}, clients := s.clients - {id}, disconnects := s.disconnects + 1)
      else s.(lost := s.lost - {id})
    case DisconnectClient(id) =>
      if id in s.clients then
        s.(clients := s.clients - {id}, disconnects := s.disconnects + 1, explicit := s.explicit + {id})
      else s
    case DisconnectAll => s.(clients := {}, dropped := s.dropped + s.clients, drained := s.drained + |s.clients|)
  }

  // ---- The log ------------------------------------------------------------

  ghost predicate NoRepeats(log: seq<ServerEvent>) {
    forall i, j :: 0 <= i < j < |log| ==> log[i] != log[j]
  }

  ghost predicate IdsIncrease(log: seq<ServerEvent>) {
    forall i, j :: 0 <= i < j < |log| && log[i].ConnectionEvent? && log[j].ConnectionEvent? ==> log[i].id < log[j].id
  }

  ghost predicate ConnectedBefore(log: seq<ServerEvent>, j: int) {
    exists i :: 0 <= i < j < |log| && log[i] == ConnectionEvent(log[j].id)
  }

  ghost predicate LossesFollow(log: seq<ServerEvent>) {
    forall j :: 0 <= j < |log| && log[j].ConnectionLostEvent? ==> ConnectedBefore(log, j)
  }

  /** The log is in order, and says of every client what became of it. */
  ghost predicate LogInv(s: State) {
    && NoRepeats(s.log) && IdsIncrease(s.log) && LossesFollow(s.log)
    && (forall e :: e in s.log ==> e.id <= s.idGen)
  }

  ghost predicate ClientsInv(s: State) {
    && s.lost <= s.clients
    && (forall id :: id in s.clients ==> id <= s.idGen && ConnectionEvent(id) in s.log)
    && (forall id :: id in s.clients ==> (ConnectionLostEvent(id) in s.log <==> id in s.lost))
  }

  /** Whom the application has removed never comes back, and is not reported. */
  ghost predicate RemovedInv(s: State) {
    forall id :: id in s.explicit || id in s.dropped ==>
      id <= s.idGen && id !in s.clients && ConnectionLostEvent(id) !in s.log
  }

  /** Whoever was connected is still there, or was removed by the application, or was reported lost. */
  ghost predicate AccountedFor(s: State) {
    forall id :: ConnectionEvent(id) in s.log ==>
      id in s.clients || id in s.explicit || id in s.dropped || ConnectionLostEvent(id) in s.log
  }

  ghost predicate CountInv(s: State) {
    s.connects == s.disconnects + |s.clients| + s.drained
  }

  lemma AppendInOrder(log: seq<ServerEvent>, idGen: nat, e: ServerEvent)
    requires NoRepeats(log) && IdsIncrease(log) && LossesFollow(log) && e !in log
    requires forall x :: x in log ==> x.id <= idGen
    requires match e case ConnectionEvent(id) => id == idGen + 1 case ConnectionLostEvent(id) => ConnectionEvent(id) in log
    ensures NoRepeats(log + [e]) && IdsIncrease(log + [e]) && LossesFollow(log + [e])
    ensures forall x :: x in log + [e] ==> x in log || x == e
  {
    var log' := log + [e];
    forall j | 0 <= j < |log'| && log'[j].ConnectionLostEvent? ensures ConnectedBefore(log', j) {
      if j < |log| {
        assert ConnectedBefore(log, j);
        var i :| 0 <= i < j && log[i] == ConnectionEvent(log[j].id);
        assert log'[i] == log[i];
      } else {
        var i :| 0 <= i < |log| && log[i] == ConnectionEvent(e.id);
        assert log'[i] == log[i];
      }
    }
    forall i, j | 0 <= i < j < |log'| && log'[i].ConnectionEvent? && log'[j].ConnectionEvent?
      ensures log'[i].id < log'[j].id
    {
      assert log[i] in log;
    }
  }

  lemma NextKeepsLog(s: State, t: Step)
    requires LogInv(s) && ClientsInv(s) && Allowed(s, t)
    ensures LogInv(Next(s, t))
  {
    match t
    case Admit => AppendInOrder(s.log, s.idGen, ConnectionEvent(s.idGen + 1));
    case Closed(id) => if id in s.clients { AppendInOrder(s.log, s.idGen, ConnectionLostEvent(id)); }
    case ReportLost(id) => if id !in s.lost { AppendInOrder(s.log, s.idGen, ConnectionLostEvent(id)); }
    case _ =>
  }

  lemma NextKeepsClients(s: State, t: Step)
    requires LogInv(s) && ClientsInv(s) && Allowed(s, t)
    ensures ClientsInv(Next(s, t))
  {
    var s' := Next(s, t);
    assert forall e :: e in s.log ==> e in s'.log;
  }

  lemma NextKeepsRemoved(s: State, t: Step)
    requires LogInv(s) && ClientsInv(s) && RemovedInv(s) && Allowed(s, t)
    ensures RemovedInv(Next(s, t))
  {
  }

  lemma NextKeepsAccount(s: State, t: Step)
    requires AccountedFor(s) && ClientsInv(s) && Allowed(s, t)
    ensures AccountedFor(Next(s, t))
  {
    var s' := Next(s, t);
    assert forall e :: e in s'.log ==> e in s.log || e == s'.log[|s'.log| - 1];
    if t.Closed? && t.id in s.clients {
      assert s'.log[|s.log|] == ConnectionLostEvent(t.id);
    }
    assert forall e :: e in s.log ==> e in s'.log;
  }

  lemma OneOut(a: set<ClientId>, id: ClientId)
    ensures id in a ==> |a - {id}| == |a| - 1
    ensures id !in a ==> |a + {id}| == |a| + 1
  {
  }

  lemma NextKeepsCount(s: State, t: Step)
    requires CountInv(s) && ClientsInv(s) && Allowed(s, t)
    ensures CountInv(Next(s, t))
  {
    OneOut(s.clients, s.idGen + 1);
    if t.Closed? || t.ReportLost? || t.RemoveLost? || t.DisconnectClient? {
      OneOut(s.clients, t.id);
    }
  }

  /** The state after the steps, if they are possible. */
  function After(s: State, steps: seq<Step>): Option<State>
    decreases |steps|
  {
    if steps == [] then Some(s)
    else match After(s, steps[..|steps| - 1])
      case None => None
      case Some(m) =>
        var t := steps[|steps| - 1];
        if Allowed(m, t) then Some(Next(m, t)) else None
  }

  lemma {:induction false} RunKeepsInv(steps: seq<Step>)
    requires After(INITIAL, steps).Some?
    ensures var s := After(INITIAL, steps).value; LogInv(s) && ClientsInv(s) && RemovedInv(s) && AccountedFor(s) && CountInv(s)
  {
    if steps != [] {
      var front, t := steps[..|steps| - 1], steps[|steps| - 1];
      RunKeepsInv(front);
      var s := After(INITIAL, front).value;
      NextKeepsLog(s, t);
      NextKeepsClients(s, t);
      NextKeepsRemoved(s, t);
      NextKeepsAccount(s, t);
      NextKeepsCount(s, t);
    }
  }

  /**
     Over the life of an endpoint: connection events come with strictly increasing client ids; a
     client is reported connected at most once, and lost at most once, after it was connected.
   */
  lemma EventsAreInOrder(steps: seq<Step>, i: nat, j: nat)
    requires After(INITIAL, steps).Some? && i < j < |After(INITIAL, steps).value.log|
    ensures var log := After(INITIAL, steps).value.log;
            && log[i] != log[j]
            && (log[i].ConnectionEvent? && log[j].ConnectionEvent? ==> log[i].id < log[j].id)
            && (log[j].ConnectionLostEvent? ==> exists k :: 0 <= k < j && log[k] == ConnectionEvent(log[j].id))
  {
    RunKeepsInv(steps);
    var log := After(INITIAL, steps).value.log;
    if log[j].ConnectionLostEvent? {
      assert ConnectedBefore(log, j);
    }
  }

  /** A client the application has disconnected is never reported lost, before or after. */
  lemma ExplicitIsNeverLost(before: seq<Step>, id: ClientId, later: seq<Step>)
    requires After(INITIAL, before + [DisconnectClient(id)] + later).Some?
    requires After(INITIAL, before).Some? && id in After(INITIAL, before).value.clients
    ensures ConnectionLostEvent(id) !in After(INITIAL, before + [DisconnectClient(id)] + later).value.log
  {
    var steps := before + [DisconnectClient(id)];
    assert steps[..|before|] == before;
    ExplicitStays(steps, later, id);
    RunKeepsInv(steps + later);
  }

  /** Whoever was disconnected by the application stays recorded as such. */
  lemma {:induction false} ExplicitStays(before: seq<Step>, later: seq<Step>, id: ClientId)
    requires After(INITIAL, before + later).Some?
    ensures After(INITIAL, before).Some?
    ensures id in After(INITIAL, before).value.explicit ==> id in After(INITIAL, before + later).value.explicit
    decreases |later|
  {
    if later == [] {
      assert before + later == before;
    } else {
      var front := later[..|later| - 1];
      assert (before + later)[..|before + later| - 1] == before + front;
      ExplicitStays(before, front, id);
    }
  }

  /**
     Over the life of an endpoint, exactly those connected clients are reported lost that are gone, or
     about to be removed in this update, without the application having removed them.
   */
  lemma LostExactly(steps: seq<Step>, id: ClientId)
    requires After(INITIAL, steps).Some? && ConnectionEvent(id) in After(INITIAL, steps).value.log
    ensures var s := After(INITIAL, steps).value;
            ConnectionLostEvent(id) in s.log <==>
              id in s.lost || (id !in s.clients && id !in s.explicit && id !in s.dropped)
  {
    RunKeepsInv(steps);
  }

  /** Connections are counted as disconnected, still present, or removed all at once, which is not counted. */
  lemma ConnectionsAddUp(steps: seq<Step>)
    requires After(INITIAL, steps).Some?
    ensures var s := After(INITIAL, steps).value; s.connects == s.disconnects + |s.clients| + s.drained
  {
    RunKeepsInv(steps);
  }

  // ---- The update ---------------------------------------------------------

  /** What a step does with a message: a connection is admitted or refused, a closed client is removed. */
  predicate Answers(t: Step, m: ServerAsyncMessage) {
    match m
    case ClientConnected(_) => t.Admit? || t.Refuse?
    case ClientConnectionClosed(id) => t == Closed(id)
  }

  /** One step for each message, in order. */
  ghost predicate AllAnswered(steps: seq<Step>, ms: seq<ServerAsyncMessage>) {
    |steps| == |ms| && forall i :: 0 <= i < |steps| ==> Answers(steps[i], ms[i])
  }

  ghost predicate NoConnectionTwice(ms: seq<ServerAsyncMessage>) {
    forall i, j :: 0 <= i < j < |ms| && ms[i].ClientConnected? && ms[j].ClientConnected? ==>
      ms[i].connection != ms[j].connection
  }

  lemma AnsweredOneMore(steps: seq<Step>, ms: seq<ServerAsyncMessage>, t: Step, m: ServerAsyncMessage)
    requires AllAnswered(steps, ms) && Answers(t, m)
    ensures AllAnswered(steps + [t], ms + [m])
  {
  }

  lemma AfterOneMore(s: State, steps: seq<Step>, t: Step)
    requires After(s, steps).Some? && Allowed(After(s, steps).value, t)
    ensures After(s, steps + [t]) == Some(Next(After(s, steps).value, t))
  {
    assert (steps + [t])[..|steps|] == steps;
  }

  lemma {:induction false} AfterConcat(s: State, a: seq<Step>, b: seq<Step>)
    requires After(s, a).Some? && After(After(s, a).value, b).Some?
    ensures After(s, a + b) == After(After(s, a).value, b)
    decreases |b|
  {
    if b == [] {
      assert a + b == a;
    } else {
      var front := b[..|b| - 1];
      AfterConcat(s, a, front);
      assert (a + b)[..|a + b| - 1] == a + front;
    }
  }

  /** Reports of exactly these clients, in any order and number. */
  ghost predicate Reports(steps: seq<Step>, ids: set<ClientId>) {
    && (forall t :: t in steps ==> t.ReportLost? && t.id in ids)
    && (forall id :: id in ids ==> ReportLost(id) in steps)
  }

  /** Removals of exactly these clients, in any order. */
  ghost predicate Removals(steps: seq<Step>, ids: set<ClientId>) {
    && (forall t :: t in steps ==> t.RemoveLost? && t.id in ids)
    && (forall id :: id in ids ==> RemoveLost(id) in steps)
  }

  lemma MoreReports(steps: seq<Step>, ids: set<ClientId>, more: seq<Step>, id: ClientId)
    requires Reports(steps, ids) && forall t :: t in more ==> t == ReportLost(id)
    ensures Reports(steps + more, ids + (if more != [] then {id} else {}))
  {
    if more != [] {
      assert more[0] in more;
    }
  }

  lemma OneMoreRemoval(steps: seq<Step>, ids: set<ClientId>, id: ClientId)
    requires Removals(steps, ids)
    ensures Removals(steps + [RemoveLost(id)], ids + {id})
  {
  }

  lemma OneMoreOut(clients: map<ClientId, PeerConnection>, lost: set<ClientId>, removed: set<ClientId>, id: ClientId)
    ensures clients - removed - {id} == clients - (removed + {id}) && lost - removed - {id} == lost - (removed + {id})
    ensures id in clients - removed ==> clients[id] in clients.Values
  {
  }

  /** A message removes a client only with an event, and brings back none. */
  lemma MessageIsHeard(s: State, t: Step)
    requires t.Admit? || t.Refuse? || t.Closed?
    ensures var s' := Next(s, t);
            && s.log <= s'.log && s.idGen <= s'.idGen
            && (forall c :: c in s.clients ==> c in s'.clients || ConnectionLostEvent(c) in s'.log)
            && (forall c :: c in s'.clients ==> c in s.clients || c > s.idGen)
            && (t.Closed? ==> t.id !in s'.clients)
  {
    if t.Closed? && t.id in s.clients {
      assert Next(s, t).log[|s.log|] == ConnectionLostEvent(t.id);
    }
  }

  /** The server's side of an endpoint; `explicit`, `dropped` and `drained` are history. */
  class Server {
    const endpoint: Endpoint
    var fromAsync: seq<ServerAsyncMessage>
    var lostClients: set<ClientId>
    var written: seq<ServerEvent>
    ghost var explicit: set<ClientId>
    ghost var dropped: set<ClientId>
    ghost var drained: nat

    ghost function View(): State
      reads this, endpoint
    {
      State(endpoint.clientIdGen, endpoint.clients.Keys, endpoint.connectCount, endpoint.disconnectCount,
            lostClients, written, explicit, dropped, drained)
    }

    constructor ()
      ensures View() == INITIAL && endpoint.Valid() && fresh(endpoint) && fromAsync == []
    {
      endpoint := new Endpoint();
      fromAsync := [];
      lostClients := {};
      written := [];
      explicit, dropped := {}, {};
      drained := 0;
    }

    /** The client's tasks, if there are any, are told to close. */
    ghost predicate Told(conn: PeerConnection, before: seq<CloseReason>, reason: CloseReason)
      reads conn`closesSent, conn`tasksAlive
    {
      conn.closesSent == before + (if conn.tasksAlive then [reason] else [])
    }

    method HandleConnection(connection: PeerConnection) returns (ghost t: Step)
      requires endpoint.Valid() && lostClients == {}
      requires connection !in endpoint.clients.Values && connection.sendChannels == []
      modifies this`written, endpoint`clients, endpoint`clientIdGen, endpoint`connectCount
      modifies connection`sendChannels, connection`toChannels, connection`closesSent
      ensures endpoint.Valid() && (t.Admit? || t.Refuse?) && View() == Next(old(View()), t)
      ensures t.Admit? ==> endpoint.clients == old(endpoint.clients)[endpoint.clientIdGen := connection]
      ensures t.Refuse? ==> endpoint.clients == old(endpoint.clients)
      ensures written == old(written) + (if t.Admit? then [ConnectionEvent(endpoint.clientIdGen)] else [])
      ensures endpoint.clientIdGen >= old(endpoint.clientIdGen) + (if t.Admit? then 1 else 0)
      ensures old(connection.ackAlive && connection.spawnerAlive && connection.toChannels == []) ==> t.Admit?
    {
      ghost var before := View();
      var admitted, _ := endpoint.HandleNewConnection(connection);
      match admitted {
        case Ok(id) =>
          written := written + [ConnectionEvent(id)];
          t := Admit;
          assert endpoint.clients.Keys == before.clients + {id};
          assert View() == Next(before, t);
        case Err(_) =>
          t := Refuse(endpoint.clientIdGen != before.idGen);
          assert View() == Next(before, t);
      }
    }

    method HandleClosed(id: ClientId)
      requires endpoint.Valid() && lostClients == {}
      modifies this`written, endpoint`clients, endpoint`disconnectCount, endpoint.ClientAt(id)`closesSent
      ensures endpoint.Valid() && View() == Next(old(View()), Closed(id))
      ensures endpoint.clients == old(endpoint.clients) - {id}
      ensures written == old(written) + (if id in old(endpoint.clients) then [ConnectionLostEvent(id)] else [])
      ensures id in old(endpoint.clients) ==> Told(old(endpoint.clients[id]), old(endpoint.clients[id].closesSent), PeerClosed)
    {
      if id in endpoint.clients {
        var _ := endpoint.InternalDisconnectClient(id, PeerClosed);
        written := written + [ConnectionLostEvent(id)];
      } else {
        assert endpoint.clients - {id} == endpoint.clients;
      }
    }

    /** Every client with a lost channel is reported, and its reports are used up. */
    method ReportLosses() returns (ghost steps: seq<Step>)
      requires endpoint.Distinct() && lostClients == {}
      modifies this`written, this`lostClients, endpoint.clients.Values`lostReports
      ensures After(old(View()), steps) == Some(View())
      ensures forall c :: c in endpoint.clients ==> endpoint.clients[c].lostReports == 0
      ensures forall c :: c in lostClients <==> c in endpoint.clients && old(endpoint.clients[c].lostReports) > 0
      ensures Reports(steps, lostClients)
      ensures old(written) <= written && forall c :: c in lostClients ==> ConnectionLostEvent(c) in written
    {
      steps := [];
      var remaining := endpoint.clients.Keys;
      while remaining != {}
        invariant remaining <= endpoint.clients.Keys
        invariant After(old(View()), steps) == Some(View())
        invariant forall c :: c in remaining ==> endpoint.clients[c].lostReports == old(endpoint.clients[c].lostReports)
        invariant forall c :: c in endpoint.clients && c !in remaining ==> endpoint.clients[c].lostReports == 0
        invariant forall c :: c in lostClients <==>
                    c in endpoint.clients && c !in remaining && old(endpoint.clients[c].lostReports) > 0
        invariant Reports(steps, lostClients)
        invariant old(written) <= written && forall c :: c in lostClients ==> ConnectionLostEvent(c) in written
      {
        var id :| id in remaining;
        remaining := remaining - {id};
        ghost var before := lostClients;
        var more := ReportClient(id, endpoint.clients[id]);
        AfterConcat(old(View()), steps, more);
        MoreReports(steps, before, more, id);
        steps := steps + more;
      }
    }

    /** One step for each report of one client; the first of them writes the event. */
    method ReportClient(id: ClientId, connection: PeerConnection) returns (ghost steps: seq<Step>)
      requires id in endpoint.clients && endpoint.clients[id] == connection && id !in lostClients
      modifies this`written, this`lostClients, connection`lostReports
      ensures After(old(View()), steps) == Some(View())
      ensures connection.lostReports == 0
      ensures |steps| == old(connection.lostReports) && forall t :: t in steps ==> t == ReportLost(id)
      ensures lostClients == old(lostClients) + (if old(connection.lostReports) > 0 then {id} else {})
      ensures written == old(written) + (if old(connection.lostReports) > 0 then [ConnectionLostEvent(id)] else [])
    {
      steps := [];
      while connection.lostReports > 0
        invariant |steps| + connection.lostReports == old(connection.lostReports)
        invariant lostClients == old(lostClients) + (if steps != [] then {id} else {})
        invariant written == old(written) + (if steps != [] then [ConnectionLostEvent(id)] else [])
        invariant forall t :: t in steps ==> t == ReportLost(id)
        invariant After(old(View()), steps) == Some(View())
      {
        connection.lostReports := connection.lostReports - 1;
        AfterOneMore(old(View()), steps, ReportLost(id));
        steps := steps + [ReportLost(id)];
        if id !in lostClients {
          lostClients := lostClients + {id};
          written := written + [ConnectionLostEvent(id)];
        }
      }
    }

    method RemoveLost(id: ClientId)
      requires endpoint.Valid() && id in lostClients
      modifies this`lostClients, endpoint`clients, endpoint`disconnectCount, endpoint.ClientAt(id)`closesSent
      ensures endpoint.Valid() && View() == Next(old(View()), Step.RemoveLost(id))
      ensures lostClients == old(lostClients) - {id} && endpoint.clients == old(endpoint.clients) - {id}
      ensures id in old(endpoint.clients) ==> Told(old(endpoint.clients[id]), old(endpoint.clients[id].closesSent), LocalOrder)
    {
      lostClients := lostClients - {id};
      var _ := endpoint.InternalDisconnectClient(id, LocalOrder);
      assert endpoint.clients.Keys == old(endpoint.clients.Keys) - {id};
    }

    /** Of these clients exactly the removed ones were told, to close on a local order. */
    ghost predicate Parted(clients: map<ClientId, PeerConnection>, said: map<ClientId, seq<CloseReason>>, removed: set<ClientId>)
      reads clients.Values`closesSent, clients.Values`tasksAlive
    {
      && said.Keys == clients.Keys
      && (forall a, b :: a in clients && b in clients && a != b ==> clients[a] != clients[b])
      && (forall c :: c in clients ==>
            if c in removed then Told(clients[c], said[c], LocalOrder) else clients[c].closesSent == said[c])
    }

    /** Since `start` these of the lost clients were removed, by one step each. */
    ghost predicate Removing(start: State, clients: map<ClientId, PeerConnection>, said: map<ClientId, seq<CloseReason>>,
                             lost: set<ClientId>, steps: seq<Step>, removed: set<ClientId>)
      reads this, endpoint, endpoint.pool, endpoint.clients.Values`sendChannels,
            clients.Values`closesSent, clients.Values`tasksAlive
    {
      && endpoint.Valid() && After(start, steps) == Some(View())
      && lostClients == lost - removed && removed <= lost && Removals(steps, removed)
      && endpoint.clients == clients - removed && Parted(clients, said, removed)
    }

    method RemoveNext(id: ClientId, ghost start: State, ghost clients: map<ClientId, PeerConnection>,
                      ghost said: map<ClientId, seq<CloseReason>>, ghost lost: set<ClientId>,
                      ghost steps: seq<Step>, ghost removed: set<ClientId>)
      requires id in lostClients && Removing(start, clients, said, lost, steps, removed)
      modifies this`lostClients, endpoint`clients, endpoint`disconnectCount, endpoint.ClientAt(id)`closesSent
      ensures Removing(start, clients, said, lost, steps + [Step.RemoveLost(id)], removed + {id})
      ensures lostClients == old(lostClients) - {id}
    {
      AfterOneMore(start, steps, Step.RemoveLost(id));
      OneMoreRemoval(steps, removed, id);
      OneMoreOut(clients, lost, removed, id);
      RemoveLost(id);
    }

    /** Removes the clients that were reported lost, in any order. */
    method RemoveLosses() returns (ghost steps: seq<Step>)
      requires endpoint.Valid()
      modifies this`lostClients, endpoint`clients, endpoint`disconnectCount, endpoint.clients.Values`closesSent
      ensures endpoint.Valid() && lostClients == {}
      ensures After(old(View()), steps) == Some(View())
      ensures Removals(steps, old(lostClients))
      ensures endpoint.clients == old(endpoint.clients) - old(lostClients)
      ensures forall c :: c in old(lostClients) && c in old(endpoint.clients) ==>
                Told(old(endpoint.clients)[c], old(endpoint.clients[c].closesSent), LocalOrder)
    {
      steps := [];
      ghost var start, clients, lost, removed := View(), endpoint.clients, lostClients, {};
      ghost var said := map c | c in clients :: clients[c].closesSent;
      while lostClients != {}
        invariant Removing(start, clients, said, lost, steps, removed)
        decreases |lostClients|
      {
        var id :| id in lostClients;
        RemoveNext(id, start, clients, said, lost, steps, removed);
        steps, removed := steps + [Step.RemoveLost(id)], removed + {id};
      }
      assert removed == lost;
    }

    method DisconnectClient(id: ClientId) returns (r: Result<(), DisconnectError>)
      requires endpoint.Valid() && lostClients == {}
      modifies this`explicit, endpoint`clients, endpoint`disconnectCount, endpoint.ClientAt(id)`closesSent
      ensures endpoint.Valid() && View() == Next(old(View()), Step.DisconnectClient(id))
      ensures id !in old(endpoint.clients) ==> r == Err(UnknownClient(id))
      ensures endpoint.clients == old(endpoint.clients) - {id}
      ensures id in old(endpoint.clients) ==>
                && id in explicit && (r.Ok? <==> old(endpoint.clients[id].tasksAlive))
                && Told(old(endpoint.clients[id]), old(endpoint.clients[id].closesSent), LocalOrder)
    {
      if id in endpoint.clients {
        explicit := explicit + {id};
      }
      r := endpoint.InternalDisconnectClient(id, LocalOrder);
    }

    method DisconnectAllClients()
      requires endpoint.Valid() && lostClients == {}
      modifies this`dropped, this`drained, endpoint`clients, endpoint.clients.Values`closesSent
      ensures endpoint.Valid() && View() == Next(old(View()), DisconnectAll)
      ensures endpoint.clients == map[]
      ensures forall c :: c in old(endpoint.clients) ==>
                old(endpoint.clients[c]).closesSent
                == old(endpoint.clients[c].closesSent) + (if old(endpoint.clients[c]).tasksAlive then [LocalOrder] else [])
    {
      ghost var after := Next(View(), DisconnectAll);
      endpoint.DisconnectAllClients();
      dropped, drained := after.dropped, after.drained;
    }

    /** The connections still waiting to be admitted. */
    ghost function Arriving(): set<PeerConnection>
      reads this`fromAsync
    {
      set i | 0 <= i < |fromAsync| && fromAsync[i].ClientConnected? :: fromAsync[i].connection
    }

    /** The connections of the clients and those waiting to be admitted. */
    ghost function Known(): set<PeerConnection>
      reads this`fromAsync, endpoint`clients
    {
      endpoint.clients.Values + Arriving()
    }

    /** A waiting connection is new, and waits once; none comes from outside `known`. */
    ghost predicate Pending(known: set<PeerConnection>)
      reads this, endpoint, endpoint.pool, endpoint.clients.Values`sendChannels, Arriving()`sendChannels
    {
      && endpoint.Valid() && lostClients == {} && NoConnectionTwice(fromAsync)
      && (forall c :: c in Arriving() ==> c in known && c !in endpoint.clients.Values && c.sendChannels == [])
      && endpoint.clients.Values <= known
    }

    /** A connection that was just taken from the queue. */
    ghost predicate New(message: ServerAsyncMessage, known: set<PeerConnection>)
      reads this`fromAsync, endpoint`clients, if message.ClientConnected? then {message.connection} else {}
    {
      match message
      case ClientConnected(c) => c in known && c !in Arriving() && c !in endpoint.clients.Values && c.sendChannels == []
      case _ => true
    }

    method TryRecvFromAsync(ghost known: set<PeerConnection>) returns (message: ServerAsyncMessage)
      requires Pending(known) && fromAsync != []
      modifies this`fromAsync
      ensures old(fromAsync) == [message] + fromAsync
      ensures Pending(known) && New(message, known)
      ensures forall c :: c in Arriving() ==> c in old(Arriving())
      ensures message.ClientConnected? ==> message.connection in old(Arriving())
    {
      message := fromAsync[0];
      fromAsync := fromAsync[1..];
      forall i | 0 <= i < |fromAsync| && fromAsync[i].ClientConnected?
        ensures fromAsync[i].connection in old(Arriving())
      {
        assert fromAsync[i] == old(fromAsync)[i + 1];
      }
    }

    /** Since then clients were only removed with an event, and no event was taken back. */
    ghost predicate NoneVanish(before: map<ClientId, PeerConnection>, events: seq<ServerEvent>)
      reads this`written, endpoint`clients
    {
      && events <= written
      && (forall c :: c in before ==> c in endpoint.clients || ConnectionLostEvent(c) in written)
    }

    ghost predicate ClosedAreGone(ms: seq<ServerAsyncMessage>, before: map<ClientId, PeerConnection>)
      reads endpoint`clients
    {
      forall m :: m in ms && m.ClientConnectionClosed? && m.id in before ==> m.id !in endpoint.clients
    }

    /** The clients are those before, or new ones. */
    ghost predicate NoneReturns(before: map<ClientId, PeerConnection>, idGen: nat)
      reads endpoint`clients, endpoint`clientIdGen
    {
      idGen <= endpoint.clientIdGen && forall c :: c in endpoint.clients ==> c in before || c > idGen
    }

    method HandleMessage(message: ServerAsyncMessage, ghost known: set<PeerConnection>) returns (ghost t: Step)
      requires Pending(known) && New(message, known)
      modifies this`written, endpoint`clients, endpoint`clientIdGen, endpoint`connectCount, endpoint`disconnectCount
      modifies known`sendChannels, known`toChannels, known`closesSent
      ensures Pending(known) && Answers(t, message) && View() == Next(old(View()), t)
      ensures NoneVanish(old(endpoint.clients), old(written))
      ensures NoneReturns(old(endpoint.clients), old(endpoint.clientIdGen))
      ensures message.ClientConnectionClosed? ==> message.id !in endpoint.clients
    {
      ghost var before := View();
      match message {
        case ClientConnected(connection) =>
          t := HandleConnection(connection);
        case ClientConnectionClosed(id) =>
          HandleClosed(id);
          t := Closed(id);
      }
      MessageIsHeard(before, t);
    }

    /** Handles all queued messages, in order, one step for each. */
    method HandleMessages(ghost known: set<PeerConnection>) returns (ghost steps: seq<Step>)
      requires Pending(known)
      modifies this`fromAsync, this`written, endpoint`clients, endpoint`clientIdGen,
               endpoint`connectCount, endpoint`disconnectCount
      modifies known`sendChannels, known`toChannels, known`closesSent
      ensures Pending(known) && fromAsync == []
      ensures After(old(View()), steps) == Some(View())
      ensures AllAnswered(steps, old(fromAsync))
      ensures NoneVanish(old(endpoint.clients), old(written))
      ensures ClosedAreGone(old(fromAsync), old(endpoint.clients))
    {
      steps := [];
      ghost var done: seq<ServerAsyncMessage> := [];
      while fromAsync != []
        invariant Pending(known) && NoneVanish(old(endpoint.clients), old(written))
        invariant old(endpoint.clientIdGen) <= endpoint.clientIdGen
        invariant ClosedAreGone(done, old(endpoint.clients))
        invariant After(old(View()), steps) == Some(View())
        invariant done + fromAsync == old(fromAsync) && AllAnswered(steps, done)
        decreases |fromAsync|
      {
        var message := TryRecvFromAsync(known);
        ConcatAssociative(done, [message], fromAsync);
        var t := HandleMessage(message, known);
        AfterOneMore(old(View()), steps, t);
        AnsweredOneMore(steps, done, t, message);
        steps, done := steps + [t], done + [message];
      }
      assert done + [] == done;
    }

    /** Reports the clients that had lost a channel, and removes them. */
    method HandleLosses() returns (ghost reported: seq<Step>, ghost removed: seq<Step>, ghost lossy: set<ClientId>)
      requires endpoint.Valid() && lostClients == {}
      modifies this`written, this`lostClients, endpoint`clients, endpoint`disconnectCount
      modifies endpoint.clients.Values`closesSent, endpoint.clients.Values`lostReports
      ensures endpoint.Valid() && lostClients == {}
      ensures After(old(View()), reported + removed) == Some(View())
      ensures forall c :: c in lossy <==> c in old(endpoint.clients) && old(endpoint.clients[c].lostReports) > 0
      ensures Reports(reported, lossy) && Removals(removed, lossy)
      ensures old(written) <= written && forall c :: c in lossy ==> ConnectionLostEvent(c) in written
      ensures endpoint.clients == old(endpoint.clients) - lossy
      ensures forall c :: c in lossy ==> Told(old(endpoint.clients)[c], old(endpoint.clients[c].closesSent), LocalOrder)
      ensures forall c :: c in endpoint.clients ==> endpoint.clients[c].lostReports == 0
    {
      reported := ReportLosses();
      lossy := lostClients;
      removed := RemoveLosses();
      AfterConcat(old(View()), reported, removed);
    }

    /**
       One update is a run of steps: one for each message; a report, which writes an event, for
       every client then present that lost a channel, and for no other; and the removal of exactly
       these. Nothing is left over.
     */
    method HandleServerEvents()
      returns (ghost handled: seq<Step>, ghost reported: seq<Step>, ghost removed: seq<Step>,
               ghost present: map<ClientId, PeerConnection>, ghost lossy: set<ClientId>)
      requires Pending(Known())
      modifies this`fromAsync, this`written, this`lostClients, endpoint`clients, endpoint`clientIdGen,
               endpoint`connectCount, endpoint`disconnectCount
      modifies Known()`sendChannels, Known()`toChannels, Known()`closesSent, Known()`lostReports
      ensures endpoint.Valid() && fromAsync == [] && lostClients == {}
      ensures AllAnswered(handled, old(fromAsync))
      ensures After(old(View()), handled + reported + removed) == Some(View())
      ensures After(old(View()), handled).Some? && After(old(View()), handled).value.clients == present.Keys
      ensures forall c :: c in present ==> present[c] in old(Known())
      ensures forall c :: c in present ==> (c in lossy <==> old(present[c].lostReports) > 0)
      ensures lossy <= present.Keys
      ensures Reports(reported, lossy) && Removals(removed, lossy)
      ensures forall c :: c in lossy ==> ConnectionLostEvent(c) in written
      ensures endpoint.clients == present - lossy
      ensures forall c :: c in old(endpoint.clients) ==> c in endpoint.clients || ConnectionLostEvent(c) in written
      ensures ClosedAreGone(old(fromAsync), old(endpoint.clients))
      ensures forall c :: c in endpoint.clients ==> endpoint.clients[c].lostReports == 0
    {
      handled := HandleMessages(Known());
      present := endpoint.clients;
      reported, removed, lossy := HandleLosses();
      AfterConcat(old(View()), handled, reported + removed);
      ConcatAssociative(handled, reported, removed);
    }
  }
}

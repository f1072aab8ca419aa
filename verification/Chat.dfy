/**
 The chat example: the server keeps the table of user names, and every client rebuilds it from
 the messages it is sent, in order. Sending may fail for any client; a failed send that the
 server unwraps ends the run.
 */
module Chat {
  import opened Base

  type Names = map<ClientId, string>

  datatype ClientMessage =
    | Join(name: string)
    | Leave
    | Say(text: string)

  datatype ServerMessage =
    | UserConnected(id: ClientId, name: string)
    | UserDisconnected(id: ClientId)
    | ChatMessage(id: ClientId, text: string)
    | InitClient(id: ClientId, names: Names)

  type Queues = map<ClientId, seq<ServerMessage>>

  // ---- The client's replica -----------------------------------------------

  datatype Replica = Replica(selfId: ClientId, names: Names)

  const NEW_REPLICA := Replica(0, map[])

  function Handle(u: Replica, m: ServerMessage): Replica {
    match m
    case UserConnected(id, name) => u.(names := u.names[id := name])
    case UserDisconnected(id) => u.(names := u.names - {id})
    case ChatMessage(_, _) => u
    case InitClient(id, names) => Replica(id, names)
  }

  /** The client does not know the user a message is about. */
  predicate Warns(u: Replica, m: ServerMessage) {
    match m
    case UserDisconnected(id) => id !in u.names
    case ChatMessage(id, _) => id !in u.names
    case _ => false
  }

  function Replay(u: Replica, ms: seq<ServerMessage>): Replica
    decreases |ms|
  {
    if ms == [] then u else Replay(Handle(u, ms[0]), ms[1..])
  }

  /** How many of the messages are about users unknown at that point. */
  function Warnings(u: Replica, ms: seq<ServerMessage>): nat
    decreases |ms|
  {
    if ms == [] then 0
    else (if Warns(u, ms[0]) then 1 else 0) + Warnings(Handle(u, ms[0]), ms[1..])
  }

  /** What the messages make a client print: who left, and what others say. */
  function Printed(u: Replica, m: ServerMessage): seq<(string, string)> {
    match m
    case UserDisconnected(id) => if id in u.names then [(u.names[id], "left")] else []
    case ChatMessage(id, text) => if id in u.names && id != u.selfId then [(u.names[id], text)] else []
    case _ => []
  }

  function Prints(u: Replica, ms: seq<ServerMessage>): seq<(string, string)>
    decreases |ms|
  {
    if ms == [] then [] else Printed(u, ms[0]) + Prints(Handle(u, ms[0]), ms[1..])
  }

  lemma {:induction false} PrintsAppend(u: Replica, a: seq<ServerMessage>, m: ServerMessage)
    ensures Prints(u, a + [m]) == Prints(u, a) + Printed(Replay(u, a), m)
    decreases |a|
  {
    if a == [] {
      assert a + [m] == [m] && [m][1..] == [];
    } else {
      assert (a + [m])[1..] == a[1..] + [m];
      PrintsAppend(Handle(u, a[0]), a[1..], m);
      ConcatAssociative(Printed(u, a[0]), Prints(Handle(u, a[0]), a[1..]), Printed(Replay(u, a), m));
    }
  }

  lemma {:induction false} ReplayAppend(u: Replica, a: seq<ServerMessage>, b: seq<ServerMessage>)
    ensures Replay(u, a + b) == Replay(Replay(u, a), b)
    ensures Warnings(u, a + b) == Warnings(u, a) + Warnings(Replay(u, a), b)
    decreases |a|
  {
    if a == [] {
      assert a + b == b;
    } else {
      assert (a + b)[1..] == a[1..] + b;
      ReplayAppend(Handle(u, a[0]), a[1..], b);
    }
  }

  lemma ReplayOne(u: Replica, ms: seq<ServerMessage>, m: ServerMessage)
    ensures Replay(u, ms + [m]) == Handle(Replay(u, ms), m)
    ensures Warnings(u, ms + [m]) == Warnings(u, ms) + (if Warns(Replay(u, ms), m) then 1 else 0)
  {
    ReplayAppend(u, ms, [m]);
    assert [m][1..] == [];
  }

  class Client {
    var selfId: ClientId
    var names: Names
    var incoming: seq<ServerMessage>
    var printed: seq<(string, string)>
    var warnings: nat

    constructor ()
      ensures View() == NEW_REPLICA && incoming == [] && warnings == 0
    {
      selfId := 0;
      names := map[];
      incoming := [];
      printed := [];
      warnings := 0;
    }

    ghost function View(): Replica
      reads this
    {
      Replica(selfId, names)
    }

    method HandleServerMessage(message: ServerMessage)
      modifies this`selfId, this`names, this`printed, this`warnings
      ensures View() == Handle(old(View()), message)
      ensures warnings == old(warnings) + (if Warns(old(View()), message) then 1 else 0)
      ensures printed == old(printed) + Printed(old(View()), message)
    {
      match message {
        case UserConnected(id, name) =>
          names := names[id := name];
        case UserDisconnected(id) =>
          if id in names {
            printed := printed + [(names[id], "left")];
            names := names - {id};
          } else {
            assert names - {id} == names;
            warnings := warnings + 1;
          }
        case ChatMessage(id, text) =>
          if id in names {
            if id != selfId {
              printed := printed + [(names[id], text)];
            }
          } else {
            warnings := warnings + 1;
          }
        case InitClient(id, all) =>
          selfId := id;
          names := all;
      }
    }

    method HandleServerMessages()
      modifies this
      ensures incoming == []
      ensures View() == Replay(old(View()), old(incoming))
      ensures warnings == old(warnings) + Warnings(old(View()), old(incoming))
      ensures printed == old(printed) + Prints(old(View()), old(incoming))
    {
      ghost var start, done := View(), [];
      while incoming != []
        invariant done + incoming == old(incoming)
        invariant View() == Replay(start, done)
        invariant warnings == old(warnings) + Warnings(start, done)
        invariant printed == old(printed) + Prints(start, done)
        decreases |incoming|
      {
        var message := incoming[0];
        incoming := incoming[1..];
        ConcatAssociative(done, [message], incoming);
        ReplayOne(start, done, message);
        PrintsAppend(start, done, message);
        ConcatAssociative(old(printed), Prints(start, done), Printed(View(), message));
        HandleServerMessage(message);
        done := done + [message];
      }
      assert done + [] == done;
    }
  }

  // ---- The server ---------------------------------------------------------

  /** `reachable` are the clients a send would succeed for at the moment. */
  datatype Server = Server(names: Names, clients: set<ClientId>, reachable: set<ClientId>, queues: Queues)

  /** One more message for each of `ids`. */
  function Sent(queues: Queues, ids: set<ClientId>, m: ServerMessage): Queues {
    map c | c in queues :: if c in ids then queues[c] + [m] else queues[c]
  }

  /** Removes a user and tells the others; `None` when one of them cannot be told. */
  function HandleDisconnect(s: Server, id: ClientId): Option<Server> {
    if id !in s.names then Some(s)
    else
      var names := s.names - {id};
      if names.Keys <= s.reachable then
        Some(s.(names := names, queues := Sent(s.queues, names.Keys, UserDisconnected(id))))
      else None
  }

  function HandleJoin(s: Server, id: ClientId, name: string): Option<Server> {
    if id in s.names then Some(s)
    else
      var names := s.names[id := name];
      if names.Keys <= s.reachable then
        Some(s.(names := names,
                queues := Sent(Sent(s.queues, {id}, InitClient(id, names)), names.Keys, UserConnected(id, name))))
      else None
  }

  /** `closable`: the client's tasks are there to be told that it is disconnected. */
  function HandleMessage(s: Server, id: ClientId, m: ClientMessage, closable: bool): Option<Server> {
    match m
    case Join(name) => HandleJoin(s, id, name)
    case Leave =>
      if id in s.clients && closable then
        HandleDisconnect(s.(clients := s.clients - {id}, reachable := s.reachable - {id}), id)
      else None
    case Say(text) => Some(s.(queues := Sent(s.queues, s.names.Keys * s.reachable, ChatMessage(id, text))))
  }

  class ChatServer {
    var names: Names
    var clients: set<ClientId>
    var reachable: set<ClientId>
    var queues: Queues

    ghost predicate Valid()
      reads this
    {
      reachable <= clients <= queues.Keys
    }

    ghost function View(): Server
      reads this
    {
      Server(names, clients, reachable, queues)
    }

    constructor ()
      ensures Valid() && View() == Server(map[], {}, {}, map[])
    {
      names := map[];
      clients := {};
      reachable := {};
      queues := map[];
    }

    method SendMessage(id: ClientId, m: ServerMessage) returns (ok: bool)
      requires Valid()
      modifies this`queues
      ensures Valid() && ok == (id in reachable)
      ensures queues == Sent(old(queues), {id} * reachable, m)
    {
      ok := id in reachable;
      if ok {
        queues := queues[id := queues[id] + [m]];
      }
    }

    /** Tries to send to each of `ids`, in any order. */
    method SendGroupMessage(ids: set<ClientId>, m: ServerMessage) returns (ok: bool)
      requires Valid()
      modifies this`queues
      ensures Valid() && ok == (ids <= reachable)
      ensures queues == Sent(old(queues), ids * reachable, m)
    {
      ok := true;
      var remaining := ids;
      while remaining != {}
        invariant Valid() && remaining <= ids && queues.Keys == old(queues.Keys)
        invariant forall c :: c in queues ==>
                    queues[c] == old(queues[c]) + (if c in ids && c !in remaining && c in reachable then [m] else [])
        invariant ok <==> forall c :: c in ids && c !in remaining ==> c in reachable
      {
        var id :| id in remaining;
        remaining := remaining - {id};
        var sent := SendMessage(id, m);
        ok := ok && sent;
      }
    }

    /** The result says whether the server is still running. */
    method HandleDisconnected(id: ClientId) returns (running: bool)
      requires Valid()
      modifies this`names, this`queues
      ensures Valid() && running == HandleDisconnect(old(View()), id).Some?
      ensures running ==> View() == HandleDisconnect(old(View()), id).value
      ensures names == old(names) - {id}
      ensures running <==> (id in old(names) ==> old(names).Keys - {id} <= reachable)
      ensures queues.Keys == old(queues).Keys
      ensures forall c :: c in queues ==>
                queues[c] == old(queues)[c]
                             + (if id in old(names) && c in names && c in reachable then [UserDisconnected(id)] else [])
    {
      if id in names {
        names := names - {id};
        running := SendGroupMessage(names.Keys, UserDisconnected(id));
        assert running ==> names.Keys * reachable == names.Keys;
      } else {
        running := true;
        assert names - {id} == names;
      }
    }

    /**
       A client that joins is sent the whole table and everyone in it, the client included, is told; what is
       said goes to every user that can be reached, joined or not its author; leaving removes the user.
     */
    method HandleClientMessage(id: ClientId, m: ClientMessage, closable: bool) returns (running: bool)
      requires Valid() && id in clients
      modifies this
      ensures Valid() && running == HandleMessage(old(View()), id, m, closable).Some?
      ensures running ==> View() == HandleMessage(old(View()), id, m, closable).value
      ensures running <==> match m
                           case Join(_) => id in old(names) || old(names).Keys + {id} <= reachable
                           case Leave => closable && (id in old(names) ==> old(names).Keys - {id} <= reachable)
                           case Say(_) => true
      ensures running ==> names == match m
                                   case Join(name) => if id in old(names) then old(names) else old(names)[id := name]
                                   case Leave => old(names) - {id}
                                   case Say(_) => old(names)
      ensures running && m.Leave? ==> clients == old(clients) - {id} && reachable == old(reachable) - {id}
      ensures !m.Leave? ==> clients == old(clients) && reachable == old(reachable)
      ensures queues.Keys == old(queues).Keys
      ensures running ==> forall c :: c in queues ==>
                queues[c] == old(queues)[c] + match m
                                              case Join(name) =>
                                                if id in old(names) || c !in names then []
                                                else if c == id then [InitClient(id, names), UserConnected(id, name)]
                                                else [UserConnected(id, name)]
                                              case Leave => if id in old(names) && c in names then [UserDisconnected(id)] else []
                                              case Say(text) => if c in names && c in reachable then [ChatMessage(id, text)] else []
    {
      match m {
        case Join(name) =>
          if id in names {
            return true;
          }
          names := names[id := name];
          running := SendMessage(id, InitClient(id, names));
          if running {
            assert {id} * reachable == {id};
            running := SendGroupMessage(names.Keys, UserConnected(id, name));
            assert running ==> names.Keys * reachable == names.Keys;
          }
        case Leave =>
          if !closable {
            return false;
          }
          clients, reachable := clients - {id}, reachable - {id};
          running := HandleDisconnected(id);
        case Say(text) =>
          var _ := SendGroupMessage(names.Keys, ChatMessage(id, text));
          running := true;
      }
    }
  }

  // ---- Server and clients together ----------------------------------------

  /** `lost` are the loss events that the chat server has not read yet. */
  datatype World = World(server: Server, lost: seq<ClientId>, replicas: map<ClientId, Replica>)

  const EMPTY_WORLD := World(Server(map[], {}, {}, map[]), [], map[])

  /** Between any two steps the clients that a send would reach may change. */
  datatype Event =
    | Connect(id: ClientId)
    | Reach(ids: set<ClientId>)
    | Receive(id: ClientId, message: ClientMessage, closable: bool)
    | Lose(id: ClientId)
    | ReadLoss
    | Deliver(id: ClientId)

  function WithServer(w: World, s: Option<Server>): Option<World> {
    match s
    case None => None
    case Some(server) => Some(w.(server := server))
  }

  /** `None` when the event cannot happen or the server stops. */
  function Next(w: World, e: Event): Option<World> {
    var s := w.server;
    match e
    case Connect(id) =>
      if id in s.queues then None
      else Some(w.(server := s.(clients := s.clients + {id}, queues := s.queues[id := []]),
                   replicas := w.replicas[id := NEW_REPLICA]))
    case Reach(ids) => if ids <= s.clients then Some(w.(server := s.(reachable := ids))) else None
    case Receive(id, m, closable) =>
      if id in s.clients then WithServer(w, HandleMessage(s, id, m, closable)) else None
    case Lose(id) =>
      if id in s.clients then
        Some(w.(server := s.(clients := s.clients - {id}, reachable := s.reachable - {id}), lost := w.lost + [id]))
      else None
    case ReadLoss =>
      if w.lost == [] then None
      else WithServer(w.(lost := w.lost[1..]), HandleDisconnect(s, w.lost[0]))
    case Deliver(id) =>
      if id in s.queues && s.queues[id] != [] && id in w.replicas then
        Some(w.(server := s.(queues := s.queues[id := s.queues[id][1..]]),
                replicas := w.replicas[id := Handle(w.replicas[id], s.queues[id][0])]))
      else None
  }

  function Run(events: seq<Event>): Option<World>
    decreases |events|
  {
    if events == [] then Some(EMPTY_WORLD)
    else
      match Run(events[..|events| - 1])
      case None => None
      case Some(w) => Next(w, events[|events| - 1])
  }

  /** Once its pending messages are handled, the replica of a joined client is the server's table. */
  ghost predicate Synced(s: Server, replicas: map<ClientId, Replica>, r: ClientId) {
    && r in s.queues && r in replicas
    && Replay(replicas[r], s.queues[r]) == Replica(r, s.names)
  }

  ghost predicate Inv(w: World) {
    && w.server.queues.Keys == w.replicas.Keys
    && w.server.reachable <= w.server.clients <= w.server.queues.Keys
    && (forall r :: r in w.server.names ==> Synced(w.server, w.replicas, r))
  }

  lemma SentKeepsSynced(s: Server, replicas: map<ClientId, Replica>, ids: set<ClientId>, m: ServerMessage, r: ClientId)
    requires Synced(s, replicas, r) && r in ids
    ensures var q := Sent(s.queues, ids, m);
            r in q && Replay(replicas[r], q[r]) == Handle(Replica(r, s.names), m)
  {
    ReplayOne(replicas[r], s.queues[r], m);
  }

  lemma DisconnectKeepsInv(w: World, id: ClientId)
    requires Inv(w) && HandleDisconnect(w.server, id).Some?
    ensures Inv(w.(server := HandleDisconnect(w.server, id).value))
  {
    var s, s' := w.server, HandleDisconnect(w.server, id).value;
    if id in s.names {
      forall r | r in s'.names ensures Synced(s', w.replicas, r) {
        assert Synced(s, w.replicas, r);
        SentKeepsSynced(s, w.replicas, s'.names.Keys, UserDisconnected(id), r);
      }
    }
  }

  lemma JoinerSynced(w: World, id: ClientId, name: string)
    requires Inv(w) && id in w.server.clients && id !in w.server.names && HandleJoin(w.server, id, name).Some?
    ensures Synced(HandleJoin(w.server, id, name).value, w.replicas, id)
  {
    var s, u := w.server, w.replicas[id];
    var names := s.names[id := name];
    var q := s.queues[id] + [InitClient(id, names)];
    ReplayOne(u, s.queues[id], InitClient(id, names));
    ReplayOne(u, q, UserConnected(id, name));
    assert names[id := name] == names;
    assert HandleJoin(s, id, name).value.queues[id] == q + [UserConnected(id, name)];
  }

  lemma JoinKeepsInv(w: World, id: ClientId, name: string)
    requires Inv(w) && id in w.server.clients && HandleJoin(w.server, id, name).Some?
    ensures Inv(w.(server := HandleJoin(w.server, id, name).value))
  {
    var s, s' := w.server, HandleJoin(w.server, id, name).value;
    if id !in s.names {
      forall r | r in s'.names ensures Synced(s', w.replicas, r) {
        if r == id {
          JoinerSynced(w, id, name);
        } else {
          assert Synced(s, w.replicas, r);
          SentKeepsSynced(s, w.replicas, s'.names.Keys, UserConnected(id, name), r);
          assert s'.queues[r] == s.queues[r] + [UserConnected(id, name)];
        }
      }
    }
  }

  lemma SayKeepsInv(w: World, id: ClientId, text: string)
    requires Inv(w)
    ensures Inv(w.(server := HandleMessage(w.server, id, Say(text), true).value))
  {
    var s, s' := w.server, HandleMessage(w.server, id, Say(text), true).value;
    forall r | r in s'.names ensures Synced(s', w.replicas, r) {
      assert Synced(s, w.replicas, r);
      if r in s.reachable {
        SentKeepsSynced(s, w.replicas, s.names.Keys * s.reachable, ChatMessage(id, text), r);
      }
    }
  }

  lemma DeliverKeepsInv(w: World, id: ClientId)
    requires Inv(w) && Next(w, Deliver(id)).Some?
    ensures Inv(Next(w, Deliver(id)).value)
  {
    var w' := Next(w, Deliver(id)).value;
    forall r | r in w'.server.names ensures Synced(w'.server, w'.replicas, r) {
      assert Synced(w.server, w.replicas, r);
    }
  }

  lemma QuietKeepsInv(w: World, e: Event)
    requires Inv(w) && Next(w, e).Some? && (e.Connect? || e.Reach? || e.Lose?)
    ensures Inv(Next(w, e).value)
  {
    var w' := Next(w, e).value;
    forall r | r in w'.server.names ensures Synced(w'.server, w'.replicas, r) {
      assert Synced(w.server, w.replicas, r);
    }
  }

  lemma ReceiveKeepsInv(w: World, id: ClientId, m: ClientMessage, closable: bool)
    requires Inv(w) && Next(w, Receive(id, m, closable)).Some?
    ensures Inv(Next(w, Receive(id, m, closable)).value)
  {
    match m
    case Join(name) => JoinKeepsInv(w, id, name);
    case Leave =>
      var s := w.server.(clients := w.server.clients - {id}, reachable := w.server.reachable - {id});
      forall r | r in s.names ensures Synced(s, w.replicas, r) {
        assert Synced(w.server, w.replicas, r);
      }
      DisconnectKeepsInv(w.(server := s), id);
    case Say(text) => SayKeepsInv(w, id, text);
  }

  lemma NextKeepsInv(w: World, e: Event)
    requires Inv(w) && Next(w, e).Some?
    ensures Inv(Next(w, e).value)
  {
    match e
    case Receive(id, m, closable) => ReceiveKeepsInv(w, id, m, closable);
    case ReadLoss => DisconnectKeepsInv(w.(lost := w.lost[1..]), w.lost[0]);
    case Deliver(id) => DeliverKeepsInv(w, id);
    case _ => QuietKeepsInv(w, e);
  }

  lemma {:induction false} RunKeepsInv(events: seq<Event>)
    requires Run(events).Some?
    ensures Inv(Run(events).value)
  {
    if events != [] {
      var front := events[..|events| - 1];
      RunKeepsInv(front);
      NextKeepsInv(Run(front).value, events[|events| - 1]);
    }
  }

  /**
     In every run in which no send stops the server: replaying its pending messages turns the
     replica of any joined client into exactly the server's table, under its own id; a client with
     nothing pending has it already.
   */
  lemma ReplicasConverge(events: seq<Event>, r: ClientId)
    requires Run(events).Some? && r in Run(events).value.server.names
    ensures var w := Run(events).value;
            && r in w.server.queues && r in w.replicas
            && Replay(w.replicas[r], w.server.queues[r]) == Replica(r, w.server.names)
            && (w.server.queues[r] == [] ==> w.replicas[r] == Replica(r, w.server.names))
  {
    RunKeepsInv(events);
    assert Synced(Run(events).value.server, Run(events).value.replicas, r);
  }

  // ---- No message about an unknown user -----------------------------------

  /** No client has, in what is pending for it, a message about a user it will not know then. */
  ghost predicate Clean(w: World) {
    && w.server.queues.Keys == w.replicas.Keys
    && forall r :: r in w.replicas ==> Warnings(w.replicas[r], w.server.queues[r]) == 0
  }

  /** A client that chats has joined. */
  predicate JoinedFirst(w: World, e: Event) {
    e.Receive? && e.message.Say? ==> e.id in w.server.names
  }

  ghost predicate JoinsFirst(events: seq<Event>) {
    forall k :: 0 <= k < |events| && Run(events[..k]).Some? ==> JoinedFirst(Run(events[..k]).value, events[k])
  }

  lemma SentKeepsClean(w: World, ids: set<ClientId>, m: ServerMessage)
    requires Inv(w) && Clean(w) && !Warns(Replica(0, w.server.names), m) && ids <= w.server.names.Keys
    ensures Clean(w.(server := w.server.(queues := Sent(w.server.queues, ids, m))))
  {
    var w' := w.(server := w.server.(queues := Sent(w.server.queues, ids, m)));
    forall r | r in w.replicas ensures Warnings(w.replicas[r], w'.server.queues[r]) == 0 {
      if r in ids {
        assert Synced(w.server, w.replicas, r);
        ReplayOne(w.replicas[r], w.server.queues[r], m);
      }
    }
  }

  lemma DisconnectKeepsClean(w: World, id: ClientId)
    requires Inv(w) && Clean(w) && HandleDisconnect(w.server, id).Some?
    ensures Clean(w.(server := HandleDisconnect(w.server, id).value))
  {
    if id in w.server.names {
      SentKeepsClean(w, (w.server.names - {id}).Keys, UserDisconnected(id));
    }
  }

  lemma JoinKeepsClean(w: World, id: ClientId, name: string)
    requires Inv(w) && Clean(w) && id in w.server.clients && HandleJoin(w.server, id, name).Some?
    ensures Clean(w.(server := HandleJoin(w.server, id, name).value))
  {
    var s := w.server;
    if id !in s.names {
      var names := s.names[id := name];
      var q := Sent(s.queues, {id}, InitClient(id, names));
      forall r | r in w.replicas
        ensures Warnings(w.replicas[r], Sent(q, names.Keys, UserConnected(id, name))[r]) == 0
      {
        ReplayOne(w.replicas[r], s.queues[r], InitClient(id, names));
        ReplayOne(w.replicas[r], q[r], UserConnected(id, name));
      }
    }
  }

  lemma NextKeepsClean(w: World, e: Event)
    requires Inv(w) && Clean(w) && Next(w, e).Some? && JoinedFirst(w, e)
    ensures Clean(Next(w, e).value)
  {
    match e
    case ReadLoss => DisconnectKeepsClean(w.(lost := w.lost[1..]), w.lost[0]);
    case Receive(id, m, _) =>
      match m {
        case Join(name) => JoinKeepsClean(w, id, name);
        case Say(text) => SentKeepsClean(w, w.server.names.Keys * w.server.reachable, ChatMessage(id, text));
        case Leave => LeaveKeepsClean(w, id);
      }
    case _ =>
  }

  lemma LeaveKeepsClean(w: World, id: ClientId)
    requires Inv(w) && Clean(w) && Next(w, Receive(id, Leave, true)).Some?
    ensures Clean(Next(w, Receive(id, Leave, true)).value)
  {
    var s := w.server.(clients := w.server.clients - {id}, reachable := w.server.reachable - {id});
    QuietKeepsInv(w, Lose(id));
    DisconnectKeepsClean(w.(server := s, lost := w.lost + [id]), id);
  }

  lemma {:induction false} RunKeepsClean(events: seq<Event>)
    requires Run(events).Some? && JoinsFirst(events)
    ensures Clean(Run(events).value)
    decreases |events|
  {
    if events != [] {
      var n := |events| - 1;
      var front := events[..n];
      assert forall k :: 0 <= k <= n ==> front[..k] == events[..k];
      RunKeepsInv(front);
      RunKeepsClean(front);
      assert JoinedFirst(Run(events[..n]).value, events[n]);
      NextKeepsClean(Run(front).value, events[n]);
    }
  }

  /** If clients join before they chat, no message a client handles is about a user it does not know. */
  lemma NoUnknownUsers(events: seq<Event>, id: ClientId)
    requires JoinsFirst(events) && Run(events).Some? && Next(Run(events).value, Deliver(id)).Some?
    ensures var w := Run(events).value; !Warns(w.replicas[id], w.server.queues[id][0])
  {
    RunKeepsClean(events);
  }

  /** A chat message is about a known user for all who are sent it exactly if its author has joined. */
  lemma JoiningIsNeeded(events: seq<Event>, id: ClientId, text: string, r: ClientId)
    requires Run(events).Some? && Clean(Run(events).value)
    requires var s := Run(events).value.server; id in s.clients && r in s.names && r in s.reachable
    ensures Clean(Next(Run(events).value, Receive(id, Say(text), true)).value) <==> id in Run(events).value.server.names
  {
    var w := Run(events).value;
    RunKeepsInv(events);
    if id in w.server.names {
      NextKeepsClean(w, Receive(id, Say(text), true));
    } else {
      var w' := Next(w, Receive(id, Say(text), true)).value;
      assert Synced(w.server, w.replicas, r);
      ReplayOne(w.replicas[r], w.server.queues[r], ChatMessage(id, text));
      assert Warnings(w'.replicas[r], w'.server.queues[r]) == 1;
    }
  }

  // ---- What users get to see ----------------------------------------------

  /** What a client will have printed, further, when it has handled what is pending for it. */
  ghost function ToPrint(w: World, r: ClientId): seq<(string, string)>
    requires r in w.replicas && r in w.server.queues
  {
    Prints(w.replicas[r], w.server.queues[r])
  }

  /** A further message for a user who has joined is printed as by one that knows the table. */
  lemma UserPrints(w: World, r: ClientId, m: ServerMessage)
    requires Inv(w) && r in w.server.names
    ensures Prints(w.replicas[r], w.server.queues[r] + [m]) == ToPrint(w, r) + Printed(Replica(r, w.server.names), m)
  {
    assert Synced(w.server, w.replicas, r);
    PrintsAppend(w.replicas[r], w.server.queues[r], m);
  }

  /**
     In every run: what a user says is printed, with the user's name, by exactly the other users who can
     be reached at that moment, and once; nobody else prints anything for it. What someone says who has
     not joined is printed by nobody.
   */
  lemma SaidIsPrinted(events: seq<Event>, author: ClientId, text: string, closable: bool, r: ClientId)
    requires Run(events).Some? && author in Run(events).value.server.clients && r in Run(events).value.replicas
    ensures var w := Run(events).value;
            var w' := Next(w, Receive(author, Say(text), closable));
            && w'.Some? && r in w.server.queues && r in w'.value.server.queues && r in w'.value.replicas
            && ToPrint(w'.value, r) == ToPrint(w, r)
                 + (if author in w.server.names && r in w.server.names && r in w.server.reachable && r != author
                    then [(w.server.names[author], text)] else [])
  {
    var w := Run(events).value;
    RunKeepsInv(events);
    if r in w.server.names && r in w.server.reachable {
      UserPrints(w, r, ChatMessage(author, text));
    }
  }

  /** The event removes the user: the user leaves, or the server reads that its connection was lost. */
  predicate Removes(w: World, e: Event, user: ClientId) {
    match e
    case Receive(id, Leave, _) => id == user
    case ReadLoss => w.lost != [] && w.lost[0] == user
    case _ => false
  }

  /**
     In every run: once a user has left or was lost, the user is in no table any more, and every user
     who remains prints, once, that the user left.
   */
  lemma DepartureIsPrinted(events: seq<Event>, e: Event, user: ClientId, r: ClientId)
    requires Run(events + [e]).Some? && Run(events).Some? && Removes(Run(events).value, e, user)
    requires user in Run(events).value.server.names && r in Run(events).value.server.names && r != user
    ensures var w, w' := Run(events).value, Run(events + [e]).value;
            && w'.server.names == w.server.names - {user}
            && r in w.replicas && r in w.server.queues && r in w'.replicas && r in w'.server.queues
            && ToPrint(w', r) == ToPrint(w, r) + [(w.server.names[user], "left")]
  {
    var w := Run(events).value;
    RunKeepsInv(events);
    assert Synced(w.server, w.replicas, r);
    assert (events + [e])[..|events|] == events;
    UserPrints(w, r, UserDisconnected(user));
  }

  /**
     In every run: a client that joins is in the table from then on under its name, or keeps the name it
     joined with before; the others are as they were, and nobody prints anything for it.
   */
  lemma JoinIsQuiet(events: seq<Event>, id: ClientId, name: string, closable: bool, r: ClientId)
    requires Run(events).Some? && Next(Run(events).value, Receive(id, Join(name), closable)).Some?
    requires r in Run(events).value.server.names
    ensures var w := Run(events).value;
            var w' := Next(w, Receive(id, Join(name), closable)).value;
            && w'.server.names == (if id in w.server.names then w.server.names else w.server.names[id := name])
            && r in w.replicas && r in w.server.queues && r in w'.replicas && r in w'.server.queues
            && ToPrint(w', r) == ToPrint(w, r)
  {
    var w := Run(events).value;
    RunKeepsInv(events);
    assert Synced(w.server, w.replicas, r);
    if id !in w.server.names {
      UserPrints(w, r, UserConnected(id, name));
    }
  }
}

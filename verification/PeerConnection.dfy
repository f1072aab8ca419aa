/**
 A connection as the application holds it: its id pool, its send channels in a vector indexed by
 channel id, and the control queue through which channel tasks are requested.
 */
module PeerConnections {
  import opened Base
  import opened SendTask
  import RecvChannels

  datatype AsyncChannelError = FullQueue | InternalChannelClosed

  datatype ChannelCreationError = MaxChannelsCountReached | AsyncError(error: AsyncChannelError)

  datatype ChannelCloseError = ChannelAlreadyClosed | InvalidChannelId(id: ChannelId)

  datatype ConnectionSendError =
    | UnknownChannelId(id: ChannelId)
    | ChannelClosed
    | ChannelSendError(error: AsyncChannelError)

  datatype ConnectionAlreadyClosed = ConnectionAlreadyClosed

  // ---- Channel ids --------------------------------------------------------

  function IdsBelow(n: nat): (s: set<ChannelId>)
    requires n <= MAX_CHANNEL_COUNT
    ensures forall i: ChannelId :: i in s <==> i < n
  {
    if n == 0 then {} else IdsBelow(n - 1) + {n - 1}
  }

  const ALL_IDS: set<ChannelId> := IdsBelow(MAX_CHANNEL_COUNT)

  lemma {:induction false} IdsBelowCount(n: nat)
    requires n <= MAX_CHANNEL_COUNT
    ensures |IdsBelow(n)| == n
  {
    if n > 0 {
      IdsBelowCount(n - 1);
    }
  }

  lemma {:induction false} SubsetSize(a: set<ChannelId>, b: set<ChannelId>)
    requires a <= b
    ensures |a| <= |b|
  {
    if a != {} {
      var x :| x in a;
      SubsetSize(a - {x}, b - {x});
    }
  }

  /** There cannot be more channels than ids. */
  lemma AtMostAllIds(s: set<ChannelId>)
    ensures |s| <= MAX_CHANNEL_COUNT
  {
    IdsBelowCount(MAX_CHANNEL_COUNT);
    SubsetSize(s, ALL_IDS);
  }

  ghost predicate IsLeast(m: ChannelId, s: set<ChannelId>) {
    m in s && forall x :: x in s ==> m <= x
  }

  lemma {:induction false} LeastExists(s: set<ChannelId>) returns (m: ChannelId)
    requires s != {}
    ensures IsLeast(m, s)
  {
    var x :| x in s;
    if s == {x} {
      m := x;
    } else {
      var m' := LeastExists(s - {x});
      m := if x <= m' then x else m';
      assert forall y :: y in s ==> y == x || y in s - {x};
    }
  }

  class ChannelsIdsPool {
    var available: set<ChannelId>
    var defaultChannel: Option<ChannelId>

    constructor ()
      ensures available == ALL_IDS && defaultChannel == None
    {
      available := ALL_IDS;
      defaultChannel := None;
    }

    /** Takes the lowest available id, which becomes the default if there is none. */
    method TakeId() returns (r: Result<ChannelId, ChannelCreationError>)
      modifies this
      ensures r == Err(MaxChannelsCountReached) <==> old(available) == {}
      ensures r.Err? ==> r == Err(MaxChannelsCountReached) && unchanged(this)
      ensures r.Ok? ==> IsLeast(r.value, old(available)) && available == old(available) - {r.value}
      ensures r.Ok? ==> defaultChannel == if old(defaultChannel).None? then Some(r.value) else old(defaultChannel)
    {
      if available == {} {
        return Err(MaxChannelsCountReached);
      }
      ghost var least := LeastExists(available);
      var id :| id in available && forall x :: x in available ==> id <= x;
      available := available - {id};
      if defaultChannel.None? {
        defaultChannel := Some(id);
      }
      return Ok(id);
    }

    method ReleaseId(id: ChannelId)
      modifies this
      ensures available == old(available) + {id}
      ensures defaultChannel == if old(defaultChannel) == Some(id) then None else old(defaultChannel)
    {
      available := available + {id};
      if defaultChannel == Some(id) {
        defaultChannel := None;
      }
    }

    method SetDefaultChannel(id: ChannelId)
      modifies this`defaultChannel
      ensures defaultChannel == Some(id)
    {
      defaultChannel := Some(id);
    }
  }

  // ---- Channels -----------------------------------------------------------

  /** The application's end of a channel. `taskAlive`: its task, or the request for it, still exists. */
  class Channel {
    const id: ChannelId
    var queue: seq<Payload>
    var taskAlive: bool

    constructor (id: ChannelId)
      ensures this.id == id && queue == [] && taskAlive
    {
      this.id := id;
      queue := [];
      taskAlive := true;
    }

    method SendPayload(payload: Payload) returns (r: Result<(), AsyncChannelError>)
      modifies this`queue
      ensures r == if !taskAlive then Err(InternalChannelClosed)
                   else if |old(queue)| < MESSAGE_QUEUE_SIZE then Ok(()) else Err(FullQueue)
      ensures queue == old(queue) + (if r.Ok? then [payload] else [])
    {
      if !taskAlive {
        return Err(InternalChannelClosed);
      }
      if |queue| >= MESSAGE_QUEUE_SIZE {
        return Err(FullQueue);
      }
      queue := queue + [payload];
      return Ok(());
    }

    /** Signals the task; what it is signalled is kept with the connection. */
    method Close() returns (r: Result<(), ChannelCloseError>)
      ensures r == if taskAlive then Ok(()) else Err(ChannelAlreadyClosed)
    {
      if taskAlive {
        return Ok(());
      } else {
        return Err(ChannelAlreadyClosed);
      }
    }
  }

  // ---- The vector of send channels ----------------------------------------

  type Slots = seq<Option<Channel>>

  /** The channel stored under an id, if the vector reaches that far and holds one. */
  function Slot(v: Slots, i: nat): Option<Channel> {
    if i < |v| then v[i] else None
  }

  function Nones(n: nat): Slots {
    seq(n, i => None)
  }

  function Registered(v: Slots, c: Channel): Slots {
    if c.id < |v| then v[c.id := Some(c)] else v + Nones(c.id - |v|) + [Some(c)]
  }

  /** Registering a channel sets its own slot, leaves the others, and makes the vector just long enough. */
  lemma RegisteredSlots(v: Slots, c: Channel)
    ensures forall i: nat :: Slot(Registered(v, c), i) == if i == c.id then Some(c) else Slot(v, i)
    ensures |Registered(v, c)| == if c.id < |v| then |v| else c.id + 1
  {
  }

  function RegisterAll(v: Slots, cs: seq<Channel>): Slots
    decreases |cs|
  {
    if cs == [] then v else RegisterAll(Registered(v, cs[0]), cs[1..])
  }

  ghost predicate DistinctIds(cs: seq<Channel>) {
    forall i, j :: 0 <= i < j < |cs| ==> cs[i].id != cs[j].id
  }

  /** Length just past the highest id. */
  function SpanOf(cs: seq<Channel>): nat {
    if cs == [] then 0
    else if cs[0].id + 1 > SpanOf(cs[1..]) then cs[0].id + 1 else SpanOf(cs[1..])
  }

  lemma {:induction false} RegisterAllSlots(v: Slots, cs: seq<Channel>, i: nat)
    requires DistinctIds(cs)
    ensures (forall c :: c in cs ==> c.id != i) ==> Slot(RegisterAll(v, cs), i) == Slot(v, i)
    ensures forall c :: c in cs && c.id == i ==> Slot(RegisterAll(v, cs), i) == Some(c)
    ensures |RegisterAll(v, cs)| == if |v| > SpanOf(cs) then |v| else SpanOf(cs)
    decreases |cs|
  {
    if cs != [] {
      RegisteredSlots(v, cs[0]);
      RegisterAllSlots(Registered(v, cs[0]), cs[1..], i);
      assert forall c :: c in cs ==> c == cs[0] || c in cs[1..];
      assert forall k :: 0 <= k < |cs| - 1 ==> cs[1..][k].id != cs[0].id;
    }
  }

  lemma {:induction false} SpanIsBound(cs: seq<Channel>)
    ensures forall c :: c in cs ==> c.id < SpanOf(cs)
    ensures cs != [] ==> exists c :: c in cs && c.id + 1 == SpanOf(cs)
  {
    if cs != [] {
      SpanIsBound(cs[1..]);
      assert forall c :: c in cs ==> c == cs[0] || c in cs[1..];
      if cs[0].id + 1 > SpanOf(cs[1..]) {
        assert cs[0] in cs;
      } else {
        var c :| c in cs[1..] && c.id + 1 == SpanOf(cs[1..]);
        assert c in cs;
      }
    }
  }

  lemma SlotsOfAll(cs: seq<Channel>, i: nat)
    requires DistinctIds(cs)
    ensures forall c :: Slot(RegisterAll([], cs), i) == Some(c) <==> c in cs && c.id == i
  {
    RegisterAllSlots([], cs, i);
  }

  lemma SameSpan(xs: seq<Channel>, ys: seq<Channel>)
    requires forall c :: c in xs <==> c in ys
    ensures SpanOf(xs) == SpanOf(ys)
  {
    SpanIsBound(xs);
    SpanIsBound(ys);
    if xs != [] { assert xs[0] in ys; }
    if ys != [] { assert ys[0] in xs; }
  }

  /**
     Registering the same channels in any other order on a new connection gives the very same
     vector: it is as long as the highest id demands and holds a channel exactly at the
     registered ids.
   */
  lemma RegistrationOrderIrrelevant(xs: seq<Channel>, ys: seq<Channel>)
    requires DistinctIds(xs) && DistinctIds(ys)
    requires forall c :: c in xs <==> c in ys
    ensures RegisterAll([], xs) == RegisterAll([], ys)
    ensures |RegisterAll([], xs)| == SpanOf(xs)
    ensures forall i: nat, c :: Slot(RegisterAll([], xs), i) == Some(c) <==> c in xs && c.id == i
  {
    var vx, vy := RegisterAll([], xs), RegisterAll([], ys);
    SameSpan(xs, ys);
    RegisterAllSlots([], xs, 0);
    RegisterAllSlots([], ys, 0);
    forall i: nat
      ensures Slot(vx, i) == Slot(vy, i)
      ensures forall c :: Slot(vx, i) == Some(c) <==> c in xs && c.id == i
    {
      SlotsOfAll(xs, i);
      SlotsOfAll(ys, i);
      if Slot(vx, i).Some? {
        assert Slot(vy, i) == Some(Slot(vx, i).value);
      } else if Slot(vy, i).Some? {
        assert Slot(vx, i) == Some(Slot(vy, i).value);
      }
    }
    assert forall k :: 0 <= k < |vx| ==> vx[k] == Slot(vx, k) && vy[k] == Slot(vy, k);
  }

  // ---- The connection -----------------------------------------------------

  /** A request to the spawner; it carries the other end of `channel`. */
  datatype CreateChannel = CreateChannel(channel: Channel, config: ChannelConfig)

  ghost predicate Aligned(v: Slots) {
    forall i :: 0 <= i < |v| && v[i].Some? ==> v[i].value.id == i
  }

  /** The channel under an id, as a set to write to. */
  function ChannelAt(v: Slots, i: nat): set<Channel> {
    if Slot(v, i).Some? then {Slot(v, i).value} else {}
  }

  /** `after` is `before` with one more channel, under `id`. */
  ghost predicate Gains(before: Slots, after: Slots, id: ChannelId) {
    && Slot(before, id).None? && Slot(after, id).Some? && Slot(after, id).value.id == id
    && (forall k: nat :: k != id ==> Slot(after, k) == Slot(before, k))
  }

  /** `after` is `before` without a channel under `id`. */
  ghost predicate Loses(before: Slots, after: Slots, id: ChannelId) {
    |after| == |before| && forall k: nat :: Slot(after, k) == if k == id then None else Slot(before, k)
  }

  predicate HasLiveTask(v: Slots, i: nat)
    reads ChannelAt(v, i)`taskAlive
  {
    Slot(v, i).Some? && Slot(v, i).value.taskAlive
  }

  lemma RegisteredAligned(v: Slots, c: Channel)
    requires Aligned(v)
    ensures Aligned(Registered(v, c))
  {
  }

  /**
     `spawnerAlive`, `tasksAlive` and `ackAlive` say whether the async side still holds the
     receivers of the control queue, of the close broadcast and of the acknowledgement;
     `closeSignals` lists the channels whose tasks were told to close; `lostReports` counts the
     queued LostConnection messages of the channel tasks. `received` is the receiving half: the queue
     of received payloads and the buffers they are sorted into.
   */
  class PeerConnection {
    var sendChannels: Slots
    var toChannels: seq<CreateChannel>
    var spawnerAlive: bool
    var tasksAlive: bool
    var ackAlive: bool
    var closesSent: seq<CloseReason>
    var closeSignals: seq<Channel>
    var lostReports: nat
    var sentBytes: nat
    const received: RecvChannels.Receiver

    constructor (cfg: RecvChannels.Config)
      ensures fresh(received) && received.cfg == cfg
      ensures received.incoming == [] && received.recvChannelsPayloads == []
      ensures sendChannels == [] && toChannels == [] && closesSent == [] && sentBytes == 0 && lostReports == 0
      ensures spawnerAlive && tasksAlive && ackAlive
    {
      sendChannels := [];
      toChannels := [];
      spawnerAlive, tasksAlive, ackAlive := true, true, true;
      closesSent := [];
      closeSignals := [];
      lostReports := 0;
      sentBytes := 0;
      received := new RecvChannels.Receiver(cfg);
    }

    predicate CanRequest()
      reads this`spawnerAlive, this`toChannels
    {
      spawnerAlive && |toChannels| < CONTROL_QUEUE_SIZE
    }

    /** Bytes are counted before the channel has accepted them, so refused payloads count as sent. */
    method InternalSendPayload(id: ChannelId, payload: Payload) returns (r: Result<(), ConnectionSendError>)
      modifies this`sentBytes, ChannelAt(sendChannels, id)`queue
      ensures match Slot(sendChannels, id)
              case Some(c) =>
                && r == (if !c.taskAlive then Err(ChannelSendError(InternalChannelClosed))
                         else if |old(c.queue)| < MESSAGE_QUEUE_SIZE then Ok(()) else Err(ChannelSendError(FullQueue)))
                && c.queue == old(c.queue) + (if r.Ok? then [payload] else [])
                && sentBytes == old(sentBytes) + |payload|
              case None =>
                && r == Err(if id < |sendChannels| then ChannelClosed else UnknownChannelId(id))
                && sentBytes == old(sentBytes)
    {
      if id >= |sendChannels| {
        return Err(UnknownChannelId(id));
      }
      match sendChannels[id] {
        case None => return Err(ChannelClosed);
        case Some(channel) =>
          sentBytes := sentBytes + |payload|;
          var sent := channel.SendPayload(payload);
          match sent {
            case Ok(_) => return Ok(());
            case Err(e) => return Err(ChannelSendError(e));
          }
      }
    }

    /** Takes the channel out of its slot before signalling it: the slot is empty even if the signal fails. */
    method InternalCloseChannel(id: ChannelId) returns (r: Result<(), ChannelCloseError>)
      modifies this`sendChannels, this`closeSignals
      ensures r.Ok? <==> old(HasLiveTask(sendChannels, id))
      ensures closeSignals == old(closeSignals) + (if r.Ok? then [Slot(old(sendChannels), id).value] else [])
      ensures r.Err? ==> r.error == if id < |old(sendChannels)| then ChannelAlreadyClosed else InvalidChannelId(id)
      ensures Loses(old(sendChannels), sendChannels, id)
    {
      if id >= |sendChannels| {
        return Err(InvalidChannelId(id));
      }
      var taken := sendChannels[id];
      sendChannels := sendChannels[id := None];
      match taken {
        case Some(channel) =>
          r := channel.Close();
          if r.Ok? {
            closeSignals := closeSignals + [channel];
          }
        case None => r := Err(ChannelAlreadyClosed);
      }
    }

    method CreateUnregisteredConnectionChannel(id: ChannelId, config: ChannelConfig)
      returns (r: Result<Channel, AsyncChannelError>)
      modifies this`toChannels
      ensures r.Ok? <==> old(CanRequest())
      ensures r.Ok? ==> fresh(r.value) && r.value.id == id && r.value.taskAlive && r.value.queue == []
      ensures r.Err? ==> r.error == if spawnerAlive then FullQueue else InternalChannelClosed
      ensures toChannels == old(toChannels) + (if r.Ok? then [CreateChannel(r.value, config)] else [])
    {
      if !spawnerAlive {
        return Err(InternalChannelClosed);
      }
      if |toChannels| >= CONTROL_QUEUE_SIZE {
        return Err(FullQueue);
      }
      var channel := new Channel(id);
      toChannels := toChannels + [CreateChannel(channel, config)];
      return Ok(channel);
    }

    method RegisterConnectionChannel(channel: Channel)
      modifies this`sendChannels
      ensures sendChannels == Registered(old(sendChannels), channel)
    {
      if channel.id < |sendChannels| {
        sendChannels := sendChannels[channel.id := Some(channel)];
      } else {
        sendChannels := sendChannels + Nones(channel.id - |sendChannels|);
        sendChannels := sendChannels + [Some(channel)];
      }
    }

    method CreateConnectionChannel(id: ChannelId, config: ChannelConfig)
      returns (r: Result<(), AsyncChannelError>, ghost channel: Option<Channel>)
      modifies this`toChannels, this`sendChannels
      ensures r.Ok? <==> old(CanRequest())
      ensures r.Ok? <==> channel.Some?
      ensures r.Ok? ==> fresh(channel.value) && channel.value.id == id && channel.value.taskAlive && channel.value.queue == []
                        && sendChannels == Registered(old(sendChannels), channel.value)
                        && toChannels == old(toChannels) + [CreateChannel(channel.value, config)]
      ensures r.Err? ==> sendChannels == old(sendChannels) && toChannels == old(toChannels)
    {
      channel := None;
      var created := CreateUnregisteredConnectionChannel(id, config);
      if created.Err? {
        return Err(created.error), None;
      }
      RegisterConnectionChannel(created.value);
      return Ok(()), Some(created.value);
    }

    method Close(reason: CloseReason) returns (r: Result<(), ConnectionAlreadyClosed>)
      modifies this`closesSent
      ensures r.Ok? <==> tasksAlive
      ensures closesSent == old(closesSent) + (if r.Ok? then [reason] else [])
    {
      if !tasksAlive {
        return Err(ConnectionAlreadyClosed);
      }
      closesSent := closesSent + [reason];
      return Ok(());
    }

    /** Starts over with new queues, also for what is received, and without what was buffered. */
    method InternalReset()
      modifies this, received
      ensures received.incoming == [] && received.recvChannelsPayloads == []
      ensures sendChannels == [] && toChannels == [] && closesSent == [] && sentBytes == 0 && lostReports == 0
      ensures spawnerAlive && tasksAlive && ackAlive == old(ackAlive)
    {
      sendChannels := [];
      toChannels := [];
      spawnerAlive, tasksAlive := true, true;
      closesSent := [];
      closeSignals := [];
      lostReports := 0;
      sentBytes := 0;
      received.Reset();
    }
  }
}

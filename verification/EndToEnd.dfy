/**
 One ordered reliable channel from `send_payload` on one side to `receive_payload` on the other:
 the send task, the QUIC stream, the stream receiver with its decoder, the queue of received
 messages that it shares with all other channels, and the demultiplexer.
 */
module EndToEnd {
  import opened Base
  import opened Codec
  import opened StreamFrames
  import opened SendTask
  import opened RecvChannels

  const INCOMING_QUEUE_SIZE: nat := 150

  /**
     `received` bytes of the stream have reached the receiver, whose decoder has produced
     `reader.frames`; the first `pushed` of these are in the incoming queue or beyond. `stopped`:
     the receiving task was cancelled, or panicked on a frame without a channel id.
   */
  datatype Link = Link(
    chan: Chan,
    received: nat,
    reader: Parsed,
    pushed: nat,
    stopped: bool,
    incoming: seq<Message>,
    rx: Trace)

  /** `id` is the channel, `encoderMax` its frame size, `decoderMax` the receiver's; `cfg` its buffers. */
  datatype Setup = Setup(id: ChannelId, encoderMax: nat, decoderMax: nat, cfg: RecvChannels.Config)

  function Start(u: Setup): Link {
    Link(NewChan(u.id, OrderedReliable(u.encoderMax)), 0, FRESH, 0, false, [], EMPTY)
  }

  datatype Event =
    | Send(p: Payload)                   // the application's payload is accepted
    | CloseChannel                       // the application lets go of the channel
    | CloseConnection(reason: CloseReason)
    | SpawnTask                          // the creation request is dequeued
    | Task(step: SendTask.Step)          // the send task, at any interleaving
    | Deliver(n: nat)                    // the stream hands over a chunk of any size
    | PushFrame                          // the receiver queues one decoded message
    | StopReceiver
    | OtherChannel(m: Message)           // a message of another channel arrives in between
    | DispatchFirst(n: nat)              // the demultiplexer takes messages off the queue
    | Receive(c: ChannelId)
    | ClearBuffers

  predicate Allowed(u: Setup, l: Link, e: Event) {
    match e
    case Send(_) => CanAccept(l.chan)
    case CloseChannel => true
    case CloseConnection(_) => true
    case SpawnTask => l.chan.phase.Queued?
    case Task(st) => Enabled(l.chan, st)
    case Deliver(n) =>
      !l.stopped && !l.reader.refused && l.pushed == |l.reader.frames|
      && l.received + n <= |l.chan.writer.stream|
    case PushFrame => !l.stopped && l.pushed < |l.reader.frames| && |l.incoming| < INCOMING_QUEUE_SIZE
    case StopReceiver => true
    case OtherChannel(m) => m.channel != u.id && |l.incoming| < INCOMING_QUEUE_SIZE
    case DispatchFirst(n) => n <= |l.incoming|
    case Receive(_) => true
    case ClearBuffers => true
  }

  ghost function Next(u: Setup, l: Link, e: Event): Link
    requires Allowed(u, l, e)
  {
    match e
    case Send(p) => l.(chan := Accept(l.chan, p))
    case CloseChannel => l.(chan := l.chan.(registered := false))
    case CloseConnection(reason) => l.(chan := l.chan.(inbox := l.chan.inbox + [reason]))
    case SpawnTask => l.(chan := l.chan.(phase := Opening, inbox := []))
    case Task(st) => l.(chan := Do(l.chan, st))
    case Deliver(n) =>
      var chunk := l.chan.writer.stream[l.received..l.received + n];
      l.(received := l.received + n, reader := FeedChunk(u.decoderMax, l.reader, chunk))
    case PushFrame =>
      (match DecodeIncoming(l.reader.frames[l.pushed])
       case Some(m) => l.(incoming := l.incoming + [m], pushed := l.pushed + 1)
       case None => l.(stopped := true))
    case StopReceiver => l.(stopped := true)
    case OtherChannel(m) => l.(incoming := l.incoming + [m])
    case DispatchFirst(n) =>
      l.(rx := Perform(u.cfg, l.rx, Arrive(l.incoming[..n])), incoming := l.incoming[n..])
    case Receive(c) => l.(rx := Perform(u.cfg, l.rx, Op.Pop(c)))
    case ClearBuffers => l.(rx := Perform(u.cfg, l.rx, Clear))
  }

  // ---- What the encoder lets through ---------------------------------------

  lemma {:induction false} SendableIsSubsequence(max: nat, ps: seq<Payload>)
    ensures Subsequence(Sendable(max, ps), ps)
  {
    if ps == [] {
      PrefixIsSubsequence<Payload>([], []);
    } else {
      SendableIsSubsequence(max, ps[1..]);
      var head := if |ps[0]| <= max then [ps[0]] else [];
      assert ps == [ps[0]] + ps[1..];
      PrefixIsSubsequence(head, [ps[0]]);
      SubsequenceConcat(head, [ps[0]], Sendable(max, ps[1..]), ps[1..]);
    }
  }

  lemma {:induction false} AllSendable(max: nat, ps: seq<Payload>)
    requires forall p :: p in ps ==> |p| <= max
    ensures Sendable(max, ps) == ps
  {
    if ps != [] {
      AllSendable(max, ps[1..]);
    }
  }

  lemma {:induction false} SendableFits(max: nat, ps: seq<Payload>)
    ensures forall p :: p in Sendable(max, ps) ==> |p| <= max
  {
    if ps != [] {
      SendableFits(max, ps[1..]);
    }
  }

  // ---- Invariant ----------------------------------------------------------

  ghost predicate SenderInv(u: Setup, c: Chan) {
    match c.kind
    case Ordered => ChanInv(c) && c.codec == FrameCodec(u.id, u.encoderMax)
    case _ => false
  }

  ghost predicate ReaderInv(max: nat, stream: seq<Byte>, received: nat, reader: Parsed) {
    received <= |stream| && reader == Parse(max, Head, stream[..received])
  }

  /** The payloads of the first `n` frames. */
  function FramePayloads(frames: seq<seq<Byte>>, n: nat): seq<Payload>
    requires n <= |frames|
  {
    seq(n, i requires 0 <= i < n => if frames[i] == [] then [] else frames[i][1..])
  }

  /** On channel `id`, what has arrived is what the receiver has pushed. */
  ghost predicate QueueInv(id: ChannelId, arrived: seq<Message>, incoming: seq<Message>, frames: seq<seq<Byte>>, pushed: nat) {
    Usable(frames, pushed) && PayloadsOn(arrived, id) + PayloadsOn(incoming, id) == FramePayloads(frames, pushed)
  }

  ghost predicate LinkInv(u: Setup, l: Link) {
    match l
    case Link(chan, received, reader, pushed, _, incoming, rx) =>
      && ReaderInv(u.decoderMax, chan.writer.stream, received, reader)
      && QueueInv(u.id, rx.arrived, incoming, reader.frames, pushed)
  }

  /**
     The length of a payload and its channel id is at most 2^32 wherever the decoder takes any frame
     at all. A length of 2^32 is written as 0, which stops the receiver; a longer one would be
     mistaken for a shorter frame.
   */
  predicate FieldHolds(u: Setup, accepted: seq<Payload>) {
    match u
    case Setup(_, encoderMax, decoderMax, _) =>
      decoderMax == 0 || forall p :: p in accepted && |p| <= encoderMax ==> PROTOCOL_HEADER_LEN + |p| <= FIELD_RANGE
  }

  lemma SendableFitsField(u: Setup, accepted: seq<Payload>)
    requires FieldHolds(u, accepted)
    ensures u.decoderMax == 0 || forall m :: m in Encodable(u.id, u.encoderMax, accepted) ==> |Body(m)| <= FIELD_RANGE
  {
    SendableFits(u.encoderMax, accepted);
    SendableIsSubsequence(u.encoderMax, accepted);
    SubsequenceElements(Sendable(u.encoderMax, accepted), accepted);
  }

  /** The first usable frames are the first messages that the encoder let through. */
  lemma FramesAreSent(u: Setup, accepted: seq<Payload>, stream: seq<Byte>, received: nat, reader: Parsed, k: nat)
    requires FieldHolds(u, accepted) && stream <= Wire(FrameCodec(u.id, u.encoderMax), accepted)
    requires ReaderInv(u.decoderMax, stream, received, reader) && Usable(reader.frames, k)
    ensures var ps := Sendable(u.encoderMax, accepted);
            k <= |ps| && forall i :: 0 <= i < k ==> reader.frames[i] == Body(Message(u.id, ps[i]))
  {
    var ms := Encodable(u.id, u.encoderMax, accepted);
    WireIsEncodeAll(u.id, u.encoderMax, accepted);
    SendableFitsField(u, accepted);
    FramesOfPrefix(u.decoderMax, ms, stream[..received], k);
    forall i | 0 <= i < k ensures reader.frames[i] == Body(ms[i]) {
      assert reader.frames[..k][i] == Bodies(ms)[..k][i];
    }
  }

  /** Nothing is on the stream but frames of accepted payloads, the last of them perhaps in part. */
  ghost predicate Sent(u: Setup, c: Chan) {
    c.writer.stream <= Wire(FrameCodec(u.id, u.encoderMax), c.accepted)
  }

  lemma StreamIsSent(u: Setup, c: Chan)
    requires SenderInv(u, c)
    ensures Sent(u, c)
  {
  }

  lemma SubsequenceElements<T>(a: seq<T>, b: seq<T>)
    requires Subsequence(a, b)
    ensures forall x :: x in a ==> x in b
  {
  }

  lemma PayloadsOfFrames(id: ChannelId, frames: seq<seq<Byte>>, k: nat, ps: seq<Payload>)
    requires k <= |frames| && k <= |ps|
    requires forall i :: 0 <= i < k ==> frames[i] == Body(Message(id, ps[i]))
    ensures FramePayloads(frames, k) == ps[..k]
  {
    forall i | 0 <= i < k ensures FramePayloads(frames, k)[i] == ps[..k][i] {
      assert frames[i] == Body(Message(id, ps[i]));
    }
  }

  lemma FirstPart<T>(a: seq<T>, b: seq<T>, whole: seq<T>, k: nat)
    requires k <= |whole| && a + b == whole[..k]
    ensures a <= whole
  {
    assert a == (a + b)[..|a|];
  }

  /** What has arrived on the channel is a prefix of what its encoder let through. */
  lemma ArrivalsArePrefix(u: Setup, l: Link)
    requires LinkInv(u, l) && Sent(u, l.chan) && FieldHolds(u, l.chan.accepted)
    ensures PayloadsOn(l.rx.arrived, u.id) <= Sendable(u.encoderMax, l.chan.accepted)
  {
    FramesAreSent(u, l.chan.accepted, l.chan.writer.stream, l.received, l.reader, l.pushed);
    var sendable := Sendable(u.encoderMax, l.chan.accepted);
    PayloadsOfFrames(u.id, l.reader.frames, l.pushed, sendable);
    FirstPart(PayloadsOn(l.rx.arrived, u.id), PayloadsOn(l.incoming, u.id), sendable, l.pushed);
  }

  // ---- Every step keeps the invariant -------------------------------------

  lemma StepGrowsStream(c: Chan, st: SendTask.Step)
    requires Enabled(c, st)
    ensures c.writer.stream <= Do(c, st).writer.stream && Do(c, st).codec == c.codec && Do(c, st).kind == c.kind
  {
  }

  lemma NextKeepsSender(u: Setup, l: Link, e: Event)
    requires SenderInv(u, l.chan) && Allowed(u, l, e)
    ensures SenderInv(u, Next(u, l, e).chan)
  {
    match e
    case Send(p) => AcceptKeepsInv(l.chan, p);
    case Task(st) =>
      StepKeepsInv(l.chan, st);
      StepGrowsStream(l.chan, st);
    case _ =>
  }

  lemma StreamGrows(u: Setup, l: Link, c': Chan)
    requires LinkInv(u, l) && l.chan.writer.stream <= c'.writer.stream
    ensures LinkInv(u, l.(chan := c'))
  {
    assert c'.writer.stream[..l.received] == l.chan.writer.stream[..l.received];
  }

  lemma DeliverToReader(max: nat, stream: seq<Byte>, received: nat, n: nat, reader: Parsed)
    requires ReaderInv(max, stream, received, reader) && !reader.refused && received + n <= |stream|
    ensures ReaderInv(max, stream, received + n, FeedChunk(max, reader, stream[received..received + n]))
  {
    var chunk := stream[received..received + n];
    assert stream[..received + n] == stream[..received] + chunk;
    ParseAppend(max, Head, stream[..received], chunk);
  }

  lemma DeliverStep(u: Setup, l: Link, n: nat)
    requires LinkInv(u, l) && Allowed(u, l, Deliver(n))
    ensures LinkInv(u, Next(u, l, Deliver(n)))
  {
    var chunk := l.chan.writer.stream[l.received..l.received + n];
    var reader := FeedChunk(u.decoderMax, l.reader, chunk);
    DeliverToReader(u.decoderMax, l.chan.writer.stream, l.received, n, l.reader);
    QueueIgnoresNewFrames(u.id, l.rx.arrived, l.incoming, l.reader.frames, l.pushed, reader.frames);
    ReadMore(u, l, l.received + n, reader);
  }

  lemma ReadMore(u: Setup, l: Link, received: nat, reader: Parsed)
    requires LinkInv(u, l) && ReaderInv(u.decoderMax, l.chan.writer.stream, received, reader)
    requires QueueInv(u.id, l.rx.arrived, l.incoming, reader.frames, l.pushed)
    ensures LinkInv(u, l.(received := received, reader := reader))
  {
  }

  lemma QueueIgnoresNewFrames(id: ChannelId, arrived: seq<Message>, incoming: seq<Message>,
                              frames: seq<seq<Byte>>, pushed: nat, more: seq<seq<Byte>>)
    requires QueueInv(id, arrived, incoming, frames, pushed) && frames <= more
    ensures QueueInv(id, arrived, incoming, more, pushed)
  {
    assert FramePayloads(more, pushed) == FramePayloads(frames, pushed);
  }

  lemma NextFramePayload(frames: seq<seq<Byte>>, k: nat, m: Message)
    requires k < |frames| && frames[k] == Body(m)
    ensures FramePayloads(frames, k + 1) == FramePayloads(frames, k) + [m.payload]
  {
    assert Body(m)[1..] == m.payload;
  }

  lemma PushToQueue(id: ChannelId, arrived: seq<Message>, incoming: seq<Message>, frames: seq<seq<Byte>>, pushed: nat, m: Message)
    requires QueueInv(id, arrived, incoming, frames, pushed) && pushed < |frames|
    requires frames[pushed] == Body(m) && m.channel == id
    ensures QueueInv(id, arrived, incoming + [m], frames, pushed + 1)
  {
    PayloadsOnLast(incoming, m, id);
    NextFramePayload(frames, pushed, m);
    ConcatAssociative(PayloadsOn(arrived, id), PayloadsOn(incoming, id), [m.payload]);
    assert Usable(frames, pushed + 1);
  }

  /** A frame of this stream that has a channel id has the right one. */
  lemma NextFrame(u: Setup, accepted: seq<Payload>, stream: seq<Byte>, received: nat, reader: Parsed, pushed: nat)
    returns (m: Message)
    requires FieldHolds(u, accepted) && stream <= Wire(FrameCodec(u.id, u.encoderMax), accepted)
    requires ReaderInv(u.decoderMax, stream, received, reader) && Usable(reader.frames, pushed + 1)
    ensures m.channel == u.id && reader.frames[pushed] == Body(m) && DecodeIncoming(Body(m)) == Some(m)
  {
    FramesAreSent(u, accepted, stream, received, reader, pushed + 1);
    m := Message(u.id, Sendable(u.encoderMax, accepted)[pushed]);
  }

  lemma Pushed(u: Setup, l: Link, m: Message)
    requires LinkInv(u, l) && l.pushed < |l.reader.frames|
    requires l.reader.frames[l.pushed] == Body(m) && m.channel == u.id
    ensures LinkInv(u, l.(incoming := l.incoming + [m], pushed := l.pushed + 1))
  {
    PushToQueue(u.id, l.rx.arrived, l.incoming, l.reader.frames, l.pushed, m);
  }

  lemma PushOutcome(u: Setup, l: Link, m: Message)
    requires Allowed(u, l, PushFrame) && DecodeIncoming(l.reader.frames[l.pushed]) == Some(m)
    ensures Next(u, l, PushFrame) == l.(incoming := l.incoming + [m], pushed := l.pushed + 1)
  {
  }

  lemma StopOutcome(u: Setup, l: Link)
    requires LinkInv(u, l) && Allowed(u, l, PushFrame) && l.reader.frames[l.pushed] == []
    ensures LinkInv(u, Next(u, l, PushFrame))
  {
    assert Next(u, l, PushFrame) == l.(stopped := true);
  }

  lemma OneMoreUsable(frames: seq<seq<Byte>>, k: nat)
    requires Usable(frames, k) && k < |frames| && frames[k] != []
    ensures Usable(frames, k + 1)
  {
  }

  lemma NextMessage(u: Setup, l: Link) returns (m: Message)
    requires LinkInv(u, l) && Sent(u, l.chan) && FieldHolds(u, l.chan.accepted)
    requires l.pushed < |l.reader.frames| && l.reader.frames[l.pushed] != []
    ensures m.channel == u.id && l.reader.frames[l.pushed] == Body(m) && DecodeIncoming(Body(m)) == Some(m)
  {
    OneMoreUsable(l.reader.frames, l.pushed);
    m := NextFrame(u, l.chan.accepted, l.chan.writer.stream, l.received, l.reader, l.pushed);
  }

  lemma PushStep(u: Setup, l: Link)
    requires LinkInv(u, l) && Allowed(u, l, PushFrame) && Sent(u, l.chan) && FieldHolds(u, l.chan.accepted)
    ensures LinkInv(u, Next(u, l, PushFrame))
  {
    if l.reader.frames[l.pushed] == [] {
      StopOutcome(u, l);
    } else {
      var m := NextMessage(u, l);
      Pushed(u, l, m);
      PushOutcome(u, l, m);
    }
  }

  lemma DispatchFromQueue(id: ChannelId, arrived: seq<Message>, incoming: seq<Message>, frames: seq<seq<Byte>>, pushed: nat, n: nat)
    requires QueueInv(id, arrived, incoming, frames, pushed) && n <= |incoming|
    ensures QueueInv(id, arrived + incoming[..n], incoming[n..], frames, pushed)
  {
    assert incoming == incoming[..n] + incoming[n..];
    PayloadsOnAppend(incoming[..n], incoming[n..], id);
    PayloadsOnAppend(arrived, incoming[..n], id);
  }

  lemma DispatchStep(u: Setup, l: Link, n: nat)
    requires LinkInv(u, l) && n <= |l.incoming|
    ensures LinkInv(u, Next(u, l, DispatchFirst(n)))
  {
    DispatchFromQueue(u.id, l.rx.arrived, l.incoming, l.reader.frames, l.pushed, n);
  }

  lemma NextKeepsTrace(u: Setup, l: Link, e: Event, cleared: bool)
    requires TraceInv(u.cfg, l.rx, cleared) && Allowed(u, l, e) && (e.ClearBuffers? ==> cleared)
    ensures TraceInv(u.cfg, Next(u, l, e).rx, cleared)
  {
    match e
    case DispatchFirst(n) => ArriveKeepsTrace(u.cfg, l.rx, l.incoming[..n], cleared);
    case Receive(c) => PopKeepsTrace(u.cfg, l.rx, c, cleared);
    case ClearBuffers => ClearKeepsTrace(u.cfg, l.rx);
    case _ =>
  }

  lemma NextKeepsInv(u: Setup, l: Link, e: Event)
    requires LinkInv(u, l) && Allowed(u, l, e) && Sent(u, l.chan) && FieldHolds(u, l.chan.accepted)
    ensures LinkInv(u, Next(u, l, e))
  {
    match e
    case Deliver(n) => DeliverStep(u, l, n);
    case PushFrame => PushStep(u, l);
    case DispatchFirst(n) => DispatchStep(u, l, n);
    case OtherChannel(m) => PayloadsOnLast(l.incoming, m, u.id);
    case StopReceiver =>
    case Receive(_) =>
    case ClearBuffers =>
    case Task(st) =>
      StepGrowsStream(l.chan, st);
      StreamGrows(u, l, Do(l.chan, st));
    case _ => StreamGrows(u, l, Next(u, l, e).chan);
  }

  // ---- Whole runs ---------------------------------------------------------

  /** The outcome of an event, if it can happen. */
  ghost function Step(u: Setup, l: Link, e: Event): Option<Link> {
    if Allowed(u, l, e) then Some(Next(u, l, e)) else None
  }

  /** Where a sequence of events leads, if they can happen in this order. */
  ghost function After(u: Setup, events: seq<Event>): Option<Link>
    decreases |events|
  {
    if events == [] then Some(Start(u))
    else
      match After(u, events[..|events| - 1])
      case None => None
      case Some(l) => Step(u, l, events[|events| - 1])
  }

  lemma StartInv(u: Setup)
    ensures SenderInv(u, Start(u).chan) && LinkInv(u, Start(u)) && TraceInv(u.cfg, Start(u).rx, false)
  {
    NewChanInv(u.id, OrderedReliable(u.encoderMax));
    EmptyTrace(u.cfg);
    assert FramePayloads([], 0) == [];
  }

  lemma {:induction false} RunKeepsSender(u: Setup, events: seq<Event>)
    requires After(u, events).Some?
    ensures SenderInv(u, After(u, events).value.chan)
    decreases |events|
  {
    if events == [] {
      StartInv(u);
    } else {
      var front, e := events[..|events| - 1], events[|events| - 1];
      RunKeepsSender(u, front);
      NextKeepsSender(u, After(u, front).value, e);
    }
  }

  lemma RunSends(u: Setup, events: seq<Event>)
    requires After(u, events).Some?
    ensures Sent(u, After(u, events).value.chan)
  {
    RunKeepsSender(u, events);
    StreamIsSent(u, After(u, events).value.chan);
  }

  /** Payloads once accepted stay accepted. */
  lemma FieldHeldBefore(u: Setup, l: Link, e: Event)
    requires Allowed(u, l, e) && FieldHolds(u, Next(u, l, e).chan.accepted)
    ensures FieldHolds(u, l.chan.accepted)
  {
    assert l.chan.accepted <= Next(u, l, e).chan.accepted;
  }

  lemma {:induction false} RunKeepsLink(u: Setup, events: seq<Event>)
    requires After(u, events).Some? && FieldHolds(u, After(u, events).value.chan.accepted)
    ensures LinkInv(u, After(u, events).value)
    decreases |events|
  {
    if events == [] {
      StartInv(u);
    } else {
      var front, e := events[..|events| - 1], events[|events| - 1];
      var l := After(u, front).value;
      FieldHeldBefore(u, l, e);
      RunSends(u, front);
      RunKeepsLink(u, front);
      NextKeepsInv(u, l, e);
    }
  }

  lemma {:induction false} RunKeepsTrace(u: Setup, events: seq<Event>, cleared: bool)
    requires After(u, events).Some? && (ClearBuffers in events ==> cleared)
    ensures TraceInv(u.cfg, After(u, events).value.rx, cleared)
    decreases |events|
  {
    if events == [] {
      StartInv(u);
      TraceWeaken(u.cfg, Start(u).rx, cleared);
    } else {
      var front, e := events[..|events| - 1], events[|events| - 1];
      RunKeepsTrace(u, front, cleared);
      NextKeepsTrace(u, After(u, front).value, e, cleared);
    }
  }

  lemma TraceWeaken(cfg: RecvChannels.Config, t: Trace, cleared: bool)
    requires TraceInv(cfg, t, false)
    ensures TraceInv(cfg, t, cleared)
  {
  }

  lemma RunKeepsInv(u: Setup, events: seq<Event>)
    requires After(u, events).Some? && FieldHolds(u, After(u, events).value.chan.accepted)
    ensures var l := After(u, events).value;
            Sent(u, l.chan) && LinkInv(u, l) && TraceInv(u.cfg, l.rx, ClearBuffers in events)
  {
    RunSends(u, events);
    RunKeepsLink(u, events);
    RunKeepsTrace(u, events, ClearBuffers in events);
  }

  /**
     Ordered delivery, for every interleaving of the two applications, the send task, the
     network's chunks, the receiver and the other channels, write failures and cancellations
     included: what the receiving application has popped is an order-preserving, duplicate-free
     subsequence of what the sending application was told is sent.
   */
  lemma OrderedDelivery(u: Setup, events: seq<Event>)
    requires After(u, events).Some? && FieldHolds(u, After(u, events).value.chan.accepted)
    ensures var l := After(u, events).value; Subsequence(PayloadsOn(l.rx.popped, u.id), l.chan.accepted)
  {
    var l := After(u, events).value;
    var popped, kept, arrived := PayloadsOn(l.rx.popped, u.id), PayloadsOn(l.rx.kept, u.id), PayloadsOn(l.rx.arrived, u.id);
    RunKeepsInv(u, events);
    assert OnChannelInv(l.rx, u.id);
    PrefixIsSubsequence(popped, popped + Buffer(l.rx.bufs, u.id));
    SubsequenceTransitive(popped, popped + Buffer(l.rx.bufs, u.id), kept);
    SubsequenceTransitive(popped, kept, arrived);
    ArrivalsArePrefix(u, l);
    var sendable := Sendable(u.encoderMax, l.chan.accepted);
    PrefixIsSubsequence(arrived, sendable);
    SubsequenceTransitive(popped, arrived, sendable);
    SendableIsSubsequence(u.encoderMax, l.chan.accepted);
    SubsequenceTransitive(popped, sendable, l.chan.accepted);
  }

  /**
     Nothing is missing in between: if the encoder refused none of the payloads, the receiver
     reported no drop on the channel and nobody cleared its buffers, the popped payloads are a
     prefix of the accepted ones. A refusal by the decoder, a write failure or a cancellation
     can only end the prefix.
   */
  lemma DeliveryWithoutGaps(u: Setup, events: seq<Event>)
    requires After(u, events).Some? && ClearBuffers !in events
    requires var l := After(u, events).value;
             && FieldHolds(u, l.chan.accepted)
             && PayloadsOn(l.rx.dropped, u.id) == []
             && forall p :: p in l.chan.accepted ==> |p| <= u.encoderMax
    ensures var l := After(u, events).value;
            PayloadsOn(l.rx.popped, u.id) + Buffer(l.rx.bufs, u.id) <= l.chan.accepted
  {
    var l := After(u, events).value;
    RunKeepsInv(u, events);
    assert OnChannelInv(l.rx, u.id);
    ArrivalsArePrefix(u, l);
    AllSendable(u.encoderMax, l.chan.accepted);
  }

  /** Everything was written, delivered and taken in, and nothing was dropped on the way. */
  ghost predicate Quiet(u: Setup, l: Link) {
    && l.chan.phase == Ended(LocalOrder) && !l.chan.writer.broken && l.chan.drainedAt == |l.chan.accepted|
    && l.received == |l.chan.writer.stream| && l.pushed == |l.reader.frames| && l.incoming == []
    && PayloadsOn(l.rx.dropped, u.id) == []
  }

  /** All that was accepted is a stream of frames that fit the decoder, so each of them has arrived. */
  lemma AllArrive(u: Setup, l: Link)
    requires SenderInv(u, l.chan) && LinkInv(u, l) && Quiet(u, l)
    requires forall p :: p in l.chan.accepted ==> |p| <= u.encoderMax && Fits(u.decoderMax, Message(u.id, p))
    ensures |PayloadsOn(l.rx.arrived, u.id)| == |l.chan.accepted|
  {
    var accepted := l.chan.accepted;
    var ms := Encodable(u.id, u.encoderMax, accepted);
    EndedHasWritten(l.chan);
    assert accepted[..l.chan.drainedAt] == accepted;
    WireIsEncodeAll(u.id, u.encoderMax, accepted);
    AllSendable(u.encoderMax, accepted);
    SendableFits(u.encoderMax, accepted);
    assert AllFit(u.decoderMax, ms);
    RoundTripExactly(u.decoderMax, ms);
    assert l.chan.writer.stream[..l.received] == l.chan.writer.stream;
  }

  /**
     And nothing is missing at the end: once the task has ended on a local close that nothing
     was accepted after, without a write error, and the receiver has taken everything in,
     exactly the accepted payloads are there to pop, if each of them fits the decoder.
   */
  lemma DeliveryCompletes(u: Setup, events: seq<Event>)
    requires After(u, events).Some? && ClearBuffers !in events && Quiet(u, After(u, events).value)
    requires forall p :: p in After(u, events).value.chan.accepted ==>
               |p| <= u.encoderMax && Fits(u.decoderMax, Message(u.id, p))
    ensures var l := After(u, events).value;
            PayloadsOn(l.rx.popped, u.id) + Buffer(l.rx.bufs, u.id) == l.chan.accepted
  {
    var l := After(u, events).value;
    RunKeepsSender(u, events);
    RunKeepsInv(u, events);
    DeliveryWithoutGaps(u, events);
    AllArrive(u, l);
    assert OnChannelInv(l.rx, u.id);
  }
}

/**
 One unordered reliable channel from `send_payload` on one side to `receive_payload` on the other:
 every message travels on a stream of its own, with a receiver task of its own, and may overtake
 the others.
 */
module UnorderedDelivery {
  import opened Base
  import opened Codec
  import opened StreamFrames
  import opened SendTask
  import opened RecvChannels
  import EndToEnd

  type Setup = EndToEnd.Setup

  /** The receiver of one stream; before anything is received the stream need not be accepted yet. */
  datatype StreamReader = StreamReader(received: nat, parsed: Parsed, pushed: nat, stopped: bool)

  const NEW_READER := StreamReader(0, FRESH, 0, false)

  /** `readers[k]` receives the stream of message task `k`. */
  datatype Link = Link(chan: Chan, readers: seq<StreamReader>, incoming: seq<Message>, rx: Trace)

  function Start(u: Setup): Link {
    Link(NewChan(u.id, UnorderedReliable(u.encoderMax)), [], [], EMPTY)
  }

  datatype Event =
    | Send(p: Payload)
    | CloseChannel
    | CloseConnection(reason: CloseReason)
    | SpawnTask
    | Task(step: SendTask.Step)          // the channel task or one of its message tasks
    | Deliver(k: nat, n: nat)            // stream `k` hands over a chunk of any size
    | PushFrame(k: nat)                  // the receiver of stream `k` queues one decoded message
    | StopReceiver(k: nat)
    | OtherChannel(m: Message)
    | DispatchFirst(n: nat)
    | Receive(c: ChannelId)
    | ClearBuffers

  predicate CanRead(l: Link, k: nat) {
    k < |l.readers| && k < |l.chan.children| && !l.readers[k].stopped
  }

  predicate Allowed(u: Setup, l: Link, e: Event) {
    match e
    case Send(_) => CanAccept(l.chan)
    case CloseChannel => true
    case CloseConnection(_) => true
    case SpawnTask => l.chan.phase.Queued?
    case Task(st) => Enabled(l.chan, st)
    case Deliver(k, n) =>
      && CanRead(l, k) && !l.readers[k].parsed.refused && l.readers[k].pushed == |l.readers[k].parsed.frames|
      && l.readers[k].received + n <= |l.chan.children[k].writer.stream|
    case PushFrame(k) =>
      CanRead(l, k) && l.readers[k].pushed < |l.readers[k].parsed.frames| && |l.incoming| < EndToEnd.INCOMING_QUEUE_SIZE
    case StopReceiver(k) => CanRead(l, k)
    case OtherChannel(m) => m.channel != u.id && |l.incoming| < EndToEnd.INCOMING_QUEUE_SIZE
    case DispatchFirst(n) => n <= |l.incoming|
    case Receive(_) => true
    case ClearBuffers => true
  }

  ghost function ReadChunk(max: nat, r: StreamReader, stream: seq<Byte>, n: nat): StreamReader
    requires r.received + n <= |stream|
  {
    r.(received := r.received + n, parsed := FeedChunk(max, r.parsed, stream[r.received..r.received + n]))
  }

  function DoTask(l: Link, st: SendTask.Step): Link
    requires Enabled(l.chan, st)
  {
    l.(chan := Do(l.chan, st), readers := if st.Pop? then l.readers + [NEW_READER] else l.readers)
  }

  function DoPush(l: Link, k: nat): Link
    requires CanRead(l, k) && l.readers[k].pushed < |l.readers[k].parsed.frames|
  {
    var r := l.readers[k];
    match DecodeIncoming(r.parsed.frames[r.pushed])
    case Some(m) => l.(incoming := l.incoming + [m], readers := l.readers[k := r.(pushed := r.pushed + 1)])
    case None => l.(readers := l.readers[k := r.(stopped := true)])
  }

  ghost function Next(u: Setup, l: Link, e: Event): Link
    requires Allowed(u, l, e)
  {
    match e
    case Send(p) => l.(chan := Accept(l.chan, p))
    case CloseChannel => l.(chan := l.chan.(registered := false))
    case CloseConnection(reason) => l.(chan := l.chan.(inbox := l.chan.inbox + [reason]))
    case SpawnTask => l.(chan := l.chan.(phase := Opening, inbox := []))
    case Task(st) => DoTask(l, st)
    case Deliver(k, n) =>
      l.(readers := l.readers[k := ReadChunk(u.decoderMax, l.readers[k], l.chan.children[k].writer.stream, n)])
    case PushFrame(k) => DoPush(l, k)
    case StopReceiver(k) => l.(readers := l.readers[k := l.readers[k].(stopped := true)])
    case OtherChannel(m) => l.(incoming := l.incoming + [m])
    case DispatchFirst(n) => l.(rx := Perform(u.cfg, l.rx, Arrive(l.incoming[..n])), incoming := l.incoming[n..])
    case Receive(c) => l.(rx := Perform(u.cfg, l.rx, Op.Pop(c)))
    case ClearBuffers => l.(rx := Perform(u.cfg, l.rx, Clear))
  }

  // ---- One stream ---------------------------------------------------------

  /** The length field holds this payload, if the encoder lets it through and the decoder takes frames at all. */
  predicate FieldHoldsOne(u: Setup, p: Payload) {
    u.decoderMax == 0 || (|p| <= u.encoderMax ==> PROTOCOL_HEADER_LEN + |p| <= FIELD_RANGE)
  }

  ghost predicate ReaderInv(max: nat, stream: seq<Byte>, r: StreamReader) {
    && r.received <= |stream| && r.parsed == Parse(max, Head, stream[..r.received])
    && Usable(r.parsed.frames, r.pushed)
  }

  /** Any part of the stream gives its one message at most. */
  lemma StreamGivesOne(u: Setup, p: Payload, stream: seq<Byte>, r: StreamReader, k: nat)
    requires FieldHoldsOne(u, p) && stream <= Coded(FrameCodec(u.id, u.encoderMax), p)
    requires ReaderInv(u.decoderMax, stream, r) && Usable(r.parsed.frames, k)
    ensures k <= 1 && (k == 1 ==> r.parsed.frames[0] == Body(Message(u.id, p)))
  {
    var m := Message(u.id, p);
    var ms := if |p| <= u.encoderMax then [m] else [];
    assert EncodeAll(ms) == Coded(FrameCodec(u.id, u.encoderMax), p) by {
      assert [m][1..] == [];
      assert Frame(m) + [] == Frame(m);
    }
    FramesOfPrefix(u.decoderMax, ms, stream[..r.received], k);
    if k == 1 {
      assert r.parsed.frames[..1][0] == Bodies(ms)[..1][0];
    }
  }

  lemma MoreStream(max: nat, stream: seq<Byte>, stream': seq<Byte>, r: StreamReader)
    requires ReaderInv(max, stream, r) && stream <= stream'
    ensures ReaderInv(max, stream', r)
  {
    assert stream'[..r.received] == stream[..r.received];
  }

  lemma ChunkKeepsReader(max: nat, stream: seq<Byte>, r: StreamReader, n: nat)
    requires ReaderInv(max, stream, r) && !r.parsed.refused && r.received + n <= |stream|
    ensures ReaderInv(max, stream, ReadChunk(max, r, stream, n))
  {
    var chunk := stream[r.received..r.received + n];
    assert stream[..r.received + n] == stream[..r.received] + chunk;
    ParseAppend(max, Head, stream[..r.received], chunk);
  }

  // ---- Which messages were queued -----------------------------------------

  function One(p: Payload, mark: bool): multiset<Payload> {
    if mark then multiset{p} else multiset{}
  }

  /** The payloads at the positions that are marked. */
  ghost function Marked(ps: seq<Payload>, marks: seq<bool>): multiset<Payload>
    requires |ps| == |marks|
  {
    if ps == [] then multiset{}
    else Marked(ps[..|ps| - 1], marks[..|ps| - 1]) + One(ps[|ps| - 1], marks[|ps| - 1])
  }

  lemma MarkedNext(ps: seq<Payload>, marks: seq<bool>, p: Payload, mark: bool)
    requires |ps| == |marks|
    ensures Marked(ps + [p], marks + [mark]) == Marked(ps, marks) + One(p, mark)
  {
    assert (ps + [p])[..|ps|] == ps && (marks + [mark])[..|ps|] == marks;
  }

  lemma AddToFront(a: multiset<Payload>, b: multiset<Payload>, c: multiset<Payload>)
    ensures (a + b) + c == (a + c) + b
  {
  }

  lemma MarkLast(ps: seq<Payload>, marks: seq<bool>)
    requires |ps| == |marks| > 0 && !marks[|ps| - 1]
    ensures Marked(ps, marks[|ps| - 1 := true]) == Marked(ps, marks) + One(ps[|ps| - 1], true)
  {
    var n := |ps| - 1;
    assert marks[n := true][..n] == marks[..n];
    assert Marked(ps, marks) == Marked(ps[..n], marks[..n]) + multiset{};
  }

  lemma MarkEarlier(ps: seq<Payload>, marks: seq<bool>, k: nat)
    requires |ps| == |marks| && k < |ps| - 1
    requires var n := |ps| - 1;
             Marked(ps[..n], marks[..n][k := true]) == Marked(ps[..n], marks[..n]) + One(ps[k], true)
    ensures Marked(ps, marks[k := true]) == Marked(ps, marks) + One(ps[k], true)
  {
    var n := |ps| - 1;
    assert marks[k := true][..n] == marks[..n][k := true];
    AddToFront(Marked(ps[..n], marks[..n]), One(ps[k], true), One(ps[n], marks[n]));
  }

  lemma {:induction false} MarkOne(ps: seq<Payload>, marks: seq<bool>, k: nat)
    requires |ps| == |marks| && k < |ps| && !marks[k]
    ensures Marked(ps, marks[k := true]) == Marked(ps, marks) + One(ps[k], true)
    decreases |ps|
  {
    if k == |ps| - 1 {
      MarkLast(ps, marks);
    } else {
      MarkOne(ps[..|ps| - 1], marks[..|ps| - 1], k);
      MarkEarlier(ps, marks, k);
    }
  }

  lemma SumsGrow(a: multiset<Payload>, b: multiset<Payload>, p: Payload, mark: bool)
    requires a <= b
    ensures a + One(p, mark) <= b + multiset{p}
  {
  }

  lemma {:induction false} MarkedAreSome(ps: seq<Payload>, marks: seq<bool>)
    requires |ps| == |marks|
    ensures Marked(ps, marks) <= multiset(ps)
    decreases |ps|
  {
    if ps != [] {
      var n := |ps| - 1;
      MarkedAreSome(ps[..n], marks[..n]);
      SumsGrow(Marked(ps[..n], marks[..n]), multiset(ps[..n]), ps[n], marks[n]);
      assert ps == ps[..n] + [ps[n]];
    }
  }

  lemma {:induction false} MarkedAreAll(ps: seq<Payload>, marks: seq<bool>)
    requires |ps| == |marks| && forall k :: 0 <= k < |marks| ==> marks[k]
    ensures Marked(ps, marks) == multiset(ps)
    decreases |ps|
  {
    if ps != [] {
      var n := |ps| - 1;
      MarkedAreAll(ps[..n], marks[..n]);
      assert ps == ps[..n] + [ps[n]];
    }
  }

  function Marks(readers: seq<StreamReader>): seq<bool> {
    seq(|readers|, k requires 0 <= k < |readers| => readers[k].pushed > 0)
  }

  // ---- Invariant ----------------------------------------------------------

  ghost predicate SenderInv(u: Setup, c: Chan) {
    match c.kind
    case Unordered => ChanInv(c) && c.codec == FrameCodec(u.id, u.encoderMax)
    case _ => false
  }

  ghost predicate ReadersInv(u: Setup, children: seq<Child>, readers: seq<StreamReader>) {
    && |readers| == |children|
    && (forall k :: 0 <= k < |readers| ==> ReaderInv(u.decoderMax, children[k].writer.stream, readers[k]))
  }

  /** On channel `id`, what has arrived or is queued are the messages that were pushed, each once. */
  ghost predicate QueueInv(id: ChannelId, arrived: seq<Message>, incoming: seq<Message>, ps: seq<Payload>, marks: seq<bool>) {
    && |ps| == |marks|
    && multiset(PayloadsOn(arrived, id)) + multiset(PayloadsOn(incoming, id)) == Marked(ps, marks)
  }

  ghost predicate LinkInv(u: Setup, l: Link) {
    match l
    case Link(chan, readers, incoming, rx) =>
      && ReadersInv(u, chan.children, readers)
      && QueueInv(u.id, rx.arrived, incoming, Messages(chan.children), Marks(readers))
  }

  ghost predicate FieldHolds(u: Setup, children: seq<Child>) {
    forall k :: 0 <= k < |children| ==> FieldHoldsOne(u, children[k].msg)
  }

  // ---- Every step keeps the invariant -------------------------------------

  lemma NextKeepsSender(u: Setup, l: Link, e: Event)
    requires SenderInv(u, l.chan) && Allowed(u, l, e)
    ensures SenderInv(u, Next(u, l, e).chan)
  {
    match e
    case Send(p) => AcceptKeepsInv(l.chan, p);
    case Task(st) =>
      StepKeepsInv(l.chan, st);
      EndToEnd.StepGrowsStream(l.chan, st);
    case _ =>
  }

  /** A step of the sender adds a message task, or lets one write on. */
  lemma ChildrenGrow(c: Chan, st: SendTask.Step)
    requires c.kind.Unordered? && Enabled(c, st)
    ensures var children, children' := c.children, Do(c, st).children;
            if st.Pop? then exists ch :: children' == children + [ch] && ch.writer == NEW_WRITER
            else |children'| == |children| && forall k :: 0 <= k < |children| ==>
                   children'[k].msg == children[k].msg && children[k].writer.stream <= children'[k].writer.stream
  {
  }

  lemma NewStreamIsRead(u: Setup, children: seq<Child>, readers: seq<StreamReader>, ch: Child)
    requires ReadersInv(u, children, readers) && ch.writer == NEW_WRITER
    ensures ReadersInv(u, children + [ch], readers + [NEW_READER])
  {
  }

  lemma QueueIgnoresNew(id: ChannelId, arrived: seq<Message>, incoming: seq<Message>, ps: seq<Payload>, marks: seq<bool>, p: Payload)
    requires QueueInv(id, arrived, incoming, ps, marks)
    ensures QueueInv(id, arrived, incoming, ps + [p], marks + [false])
  {
    MarkedNext(ps, marks, p, false);
    assert Marked(ps, marks) + multiset{} == Marked(ps, marks);
  }

  lemma NewChild(u: Setup, l: Link, children: seq<Child>, ch: Child)
    requires LinkInv(u, l) && children == l.chan.children + [ch] && ch.writer == NEW_WRITER
    ensures LinkInv(u, l.(chan := l.chan.(children := children), readers := l.readers + [NEW_READER]))
  {
    NewStreamIsRead(u, l.chan.children, l.readers, ch);
    assert Messages(children) == Messages(l.chan.children) + [ch.msg];
    assert Marks(l.readers + [NEW_READER]) == Marks(l.readers) + [false];
    QueueIgnoresNew(u.id, l.rx.arrived, l.incoming, Messages(l.chan.children), Marks(l.readers), ch.msg);
  }

  lemma StreamsGrow(u: Setup, l: Link, children: seq<Child>)
    requires LinkInv(u, l) && |children| == |l.chan.children|
    requires forall k :: 0 <= k < |children| ==>
               children[k].msg == l.chan.children[k].msg && l.chan.children[k].writer.stream <= children[k].writer.stream
    ensures LinkInv(u, l.(chan := l.chan.(children := children)))
  {
    forall k | 0 <= k < |l.readers| ensures ReaderInv(u.decoderMax, children[k].writer.stream, l.readers[k]) {
      MoreStream(u.decoderMax, l.chan.children[k].writer.stream, children[k].writer.stream, l.readers[k]);
    }
    assert Messages(children) == Messages(l.chan.children);
  }

  /** Nothing but the messages and their streams matters of the sender. */
  lemma SameChildren(u: Setup, l: Link, c: Chan)
    requires LinkInv(u, l.(chan := l.chan.(children := c.children)))
    ensures LinkInv(u, l.(chan := c))
  {
  }

  lemma TaskStep(u: Setup, l: Link, st: SendTask.Step)
    requires SenderInv(u, l.chan) && LinkInv(u, l) && Enabled(l.chan, st)
    ensures LinkInv(u, DoTask(l, st))
  {
    var c' := Do(l.chan, st);
    ChildrenGrow(l.chan, st);
    if st.Pop? {
      var ch :| c'.children == l.chan.children + [ch] && ch.writer == NEW_WRITER;
      NewChild(u, l, c'.children, ch);
      SameChildren(u, l.(readers := l.readers + [NEW_READER]), c');
    } else {
      StreamsGrow(u, l, c'.children);
      SameChildren(u, l, c');
    }
  }

  /** A receiver queues a message once, and it is the one of its stream. */
  lemma PushedIsSent(u: Setup, ch: Child, r: StreamReader)
    requires ChildInv(FrameCodec(u.id, u.encoderMax), ch) && FieldHoldsOne(u, ch.msg)
    requires r.pushed < |r.parsed.frames| && r.parsed.frames[r.pushed] != []
    requires ReaderInv(u.decoderMax, ch.writer.stream, r)
    ensures r.pushed == 0 && r.parsed.frames[0] == Body(Message(u.id, ch.msg))
  {
    StreamGivesOne(u, ch.msg, ch.writer.stream, r, r.pushed + 1);
  }

  lemma QueueOneMore(id: ChannelId, arrived: seq<Message>, incoming: seq<Message>, ps: seq<Payload>, marks: seq<bool>, k: nat)
    requires QueueInv(id, arrived, incoming, ps, marks) && k < |ps| && !marks[k]
    ensures QueueInv(id, arrived, incoming + [Message(id, ps[k])], ps, marks[k := true])
  {
    var here := PayloadsOn(incoming, id);
    assert multiset(here + [ps[k]]) == multiset(here) + One(ps[k], true);
    PayloadsOnLast(incoming, Message(id, ps[k]), id);
    MarkOne(ps, marks, k);
  }

  lemma ReaderChanges(u: Setup, l: Link, k: nat, r: StreamReader, incoming: seq<Message>)
    requires LinkInv(u, l) && k < |l.readers| && k < |l.chan.children| && ReaderInv(u.decoderMax, l.chan.children[k].writer.stream, r)
    requires QueueInv(u.id, l.rx.arrived, incoming, Messages(l.chan.children), Marks(l.readers[k := r]))
    ensures LinkInv(u, l.(incoming := incoming, readers := l.readers[k := r]))
  {
  }

  lemma DeliverStep(u: Setup, l: Link, k: nat, n: nat)
    requires LinkInv(u, l) && CanRead(l, k) && !l.readers[k].parsed.refused
    requires l.readers[k].received + n <= |l.chan.children[k].writer.stream|
    ensures var r := ReadChunk(u.decoderMax, l.readers[k], l.chan.children[k].writer.stream, n);
            LinkInv(u, l.(readers := l.readers[k := r]))
  {
    var r := ReadChunk(u.decoderMax, l.readers[k], l.chan.children[k].writer.stream, n);
    ChunkKeepsReader(u.decoderMax, l.chan.children[k].writer.stream, l.readers[k], n);
    assert Marks(l.readers[k := r]) == Marks(l.readers);
    ReaderChanges(u, l, k, r, l.incoming);
  }

  lemma StopStep(u: Setup, l: Link, k: nat)
    requires LinkInv(u, l) && CanRead(l, k)
    ensures LinkInv(u, l.(readers := l.readers[k := l.readers[k].(stopped := true)]))
  {
    var r := l.readers[k].(stopped := true);
    assert Marks(l.readers[k := r]) == Marks(l.readers);
    ReaderChanges(u, l, k, r, l.incoming);
  }

  /** What `DoPush` does with a frame that is the body of a message, and with an empty one. */
  lemma PushOutcome(l: Link, k: nat, m: Message)
    requires CanRead(l, k) && l.readers[k].pushed < |l.readers[k].parsed.frames|
    ensures var r := l.readers[k];
            && (r.parsed.frames[r.pushed] == Body(m) ==>
                  DoPush(l, k) == l.(incoming := l.incoming + [m], readers := l.readers[k := r.(pushed := r.pushed + 1)]))
            && (r.parsed.frames[r.pushed] == [] ==>
                  DoPush(l, k) == l.(readers := l.readers[k := r.(stopped := true)]))
  {
    assert Body(m)[1..] == m.payload;
  }

  lemma PushedOne(u: Setup, l: Link, k: nat)
    requires LinkInv(u, l) && CanRead(l, k) && l.readers[k].pushed == 0 < |l.readers[k].parsed.frames|
    requires l.readers[k].parsed.frames[0] != []
    ensures LinkInv(u, l.(incoming := l.incoming + [Message(u.id, l.chan.children[k].msg)],
                          readers := l.readers[k := l.readers[k].(pushed := 1)]))
  {
    var r', ps, marks := l.readers[k].(pushed := 1), Messages(l.chan.children), Marks(l.readers);
    assert Marks(l.readers[k := r']) == marks[k := true];
    QueueOneMore(u.id, l.rx.arrived, l.incoming, ps, marks, k);
    assert ReaderInv(u.decoderMax, l.chan.children[k].writer.stream, l.readers[k]);
    ReaderChanges(u, l, k, r', l.incoming + [Message(u.id, ps[k])]);
  }

  lemma PushStep(u: Setup, l: Link, k: nat, l': Link)
    requires SenderInv(u, l.chan) && LinkInv(u, l) && FieldHolds(u, l.chan.children)
    requires CanRead(l, k) && l.readers[k].pushed < |l.readers[k].parsed.frames| && l' == DoPush(l, k)
    ensures LinkInv(u, l')
  {
    var r, ch := l.readers[k], l.chan.children[k];
    PushOutcome(l, k, Message(u.id, ch.msg));
    if r.parsed.frames[r.pushed] == [] {
      StopStep(u, l, k);
    } else {
      assert ReaderInv(u.decoderMax, ch.writer.stream, r);
      PushedIsSent(u, ch, r);
      PushedOne(u, l, k);
    }
  }

  lemma DispatchFromQueue(id: ChannelId, arrived: seq<Message>, incoming: seq<Message>, ps: seq<Payload>, marks: seq<bool>, n: nat)
    requires QueueInv(id, arrived, incoming, ps, marks) && n <= |incoming|
    ensures QueueInv(id, arrived + incoming[..n], incoming[n..], ps, marks)
  {
    assert incoming == incoming[..n] + incoming[n..];
    PayloadsOnAppend(incoming[..n], incoming[n..], id);
    PayloadsOnAppend(arrived, incoming[..n], id);
  }

  lemma SenderSide(u: Setup, l: Link, e: Event)
    requires LinkInv(u, l) && Allowed(u, l, e) && (e.Send? || e.CloseChannel? || e.CloseConnection? || e.SpawnTask?)
    ensures LinkInv(u, Next(u, l, e))
  {
    SameChildren(u, l, Next(u, l, e).chan);
  }

  /** Only the queue and what was taken from it changes. */
  lemma QueueChanges(u: Setup, l: Link, incoming: seq<Message>, rx: Trace)
    requires LinkInv(u, l) && QueueInv(u.id, rx.arrived, incoming, Messages(l.chan.children), Marks(l.readers))
    ensures LinkInv(u, l.(incoming := incoming, rx := rx))
  {
  }

  lemma OtherStep(u: Setup, l: Link, m: Message)
    requires LinkInv(u, l) && m.channel != u.id
    ensures LinkInv(u, l.(incoming := l.incoming + [m]))
  {
    PayloadsOnLast(l.incoming, m, u.id);
    QueueChanges(u, l, l.incoming + [m], l.rx);
  }

  lemma DispatchStep(u: Setup, l: Link, n: nat)
    requires LinkInv(u, l) && n <= |l.incoming|
    ensures LinkInv(u, l.(rx := Perform(u.cfg, l.rx, Arrive(l.incoming[..n])), incoming := l.incoming[n..]))
  {
    DispatchFromQueue(u.id, l.rx.arrived, l.incoming, Messages(l.chan.children), Marks(l.readers), n);
    QueueChanges(u, l, l.incoming[n..], Perform(u.cfg, l.rx, Arrive(l.incoming[..n])));
  }

  lemma TakeStep(u: Setup, l: Link, op: Op)
    requires LinkInv(u, l) && !op.Arrive?
    ensures LinkInv(u, l.(rx := Perform(u.cfg, l.rx, op)))
  {
    QueueChanges(u, l, l.incoming, Perform(u.cfg, l.rx, op));
  }

  lemma NextKeepsInv(u: Setup, l: Link, e: Event)
    requires SenderInv(u, l.chan) && LinkInv(u, l) && FieldHolds(u, l.chan.children) && Allowed(u, l, e)
    ensures LinkInv(u, Next(u, l, e))
  {
    match e
    case Task(st) => TaskStep(u, l, st);
    case Deliver(k, n) => DeliverStep(u, l, k, n);
    case PushFrame(k) => PushStep(u, l, k, Next(u, l, e));
    case StopReceiver(k) => StopStep(u, l, k);
    case OtherChannel(m) => OtherStep(u, l, m);
    case DispatchFirst(n) => DispatchStep(u, l, n);
    case Receive(c) => TakeStep(u, l, Op.Pop(c));
    case ClearBuffers => TakeStep(u, l, Clear);
    case _ => SenderSide(u, l, e);
  }

  lemma NextKeepsTrace(u: Setup, l: Link, e: Event, cleared: bool)
    requires TraceInv(u.cfg, l.rx, cleared) && Allowed(u, l, e) && (e.ClearBuffers? ==> cleared)
    ensures TraceInv(u.cfg, Next(u, l, e).rx, cleared)
  {
    match e
    case DispatchFirst(n) => ArriveKeepsTrace(u.cfg, l.rx, l.incoming[..n], cleared);
    case Receive(c) => PopKeepsTrace(u.cfg, l.rx, c, cleared);
    case ClearBuffers => ClearKeepsTrace(u.cfg, l.rx);
    case _ =>
  }

  // ---- Whole runs ---------------------------------------------------------

  ghost function Outcome(u: Setup, l: Link, e: Event): Option<Link> {
    if Allowed(u, l, e) then Some(Next(u, l, e)) else None
  }

  /** Where a sequence of events leads, if they can happen in this order. */
  ghost function After(u: Setup, events: seq<Event>): Option<Link>
    decreases |events|
  {
    if events == [] then Some(Start(u))
    else
      match After(u, events[..|events| - 1])
      case None => None
      case Some(l) => Outcome(u, l, events[|events| - 1])
  }

  lemma {:induction false} RunKeepsSender(u: Setup, events: seq<Event>)
    requires After(u, events).Some?
    ensures SenderInv(u, After(u, events).value.chan)
    decreases |events|
  {
    if events == [] {
      NewChanInv(u.id, UnorderedReliable(u.encoderMax));
    } else {
      var front, e := events[..|events| - 1], events[|events| - 1];
      RunKeepsSender(u, front);
      NextKeepsSender(u, After(u, front).value, e);
    }
  }

  /** Messages once on their way stay so. */
  lemma FieldHeldBefore(u: Setup, l: Link, e: Event)
    requires SenderInv(u, l.chan) && Allowed(u, l, e) && FieldHolds(u, Next(u, l, e).chan.children)
    ensures FieldHolds(u, l.chan.children)
  {
    if e.Task? {
      ChildrenGrow(l.chan, e.step);
      var children' := Do(l.chan, e.step).children;
      forall k | 0 <= k < |l.chan.children| ensures FieldHoldsOne(u, l.chan.children[k].msg) {
        assert FieldHoldsOne(u, children'[k].msg);
      }
    }
  }

  lemma {:induction false} RunKeepsLink(u: Setup, events: seq<Event>)
    requires After(u, events).Some? && FieldHolds(u, After(u, events).value.chan.children)
    ensures LinkInv(u, After(u, events).value)
    decreases |events|
  {
    if events != [] {
      var front, e := events[..|events| - 1], events[|events| - 1];
      var l := After(u, front).value;
      RunKeepsSender(u, front);
      FieldHeldBefore(u, l, e);
      RunKeepsLink(u, front);
      NextKeepsInv(u, l, e);
    }
  }

  lemma {:induction false} RunKeepsTrace(u: Setup, events: seq<Event>, cleared: bool)
    requires After(u, events).Some? && (ClearBuffers in events ==> cleared)
    ensures TraceInv(u.cfg, After(u, events).value.rx, cleared)
    decreases |events|
  {
    if events == [] {
      EmptyTrace(u.cfg);
      EndToEnd.TraceWeaken(u.cfg, EMPTY, cleared);
    } else {
      var front, e := events[..|events| - 1], events[|events| - 1];
      RunKeepsTrace(u, front, cleared);
      NextKeepsTrace(u, After(u, front).value, e, cleared);
    }
  }

  lemma CountsGrow(a: seq<Payload>, b: seq<Payload>, x: Payload, rest: seq<Payload>)
    requires multiset(a) <= multiset(b)
    ensures multiset(a + [x]) <= multiset(b + [x] + rest)
  {
  }

  lemma {:induction false} SubsequenceCounts(a: seq<Payload>, b: seq<Payload>)
    requires Subsequence(a, b)
    ensures multiset(a) <= multiset(b)
    decreases |a|
  {
    if a != [] {
      var at :| Picks(a, b, at);
      var n, p := |a| - 1, at[|a| - 1];
      assert Picks(a[..n], b[..p], at[..n]);
      SubsequenceCounts(a[..n], b[..p]);
      CountsGrow(a[..n], b[..p], a[n], b[p + 1..]);
      assert a == a[..n] + [a[n]] && b == b[..p] + [b[p]] + b[p + 1..];
    }
  }

  /** What arrived on the channel was accepted, each payload as often as it arrived. */
  lemma ArrivedWereAccepted(u: Setup, events: seq<Event>)
    requires After(u, events).Some?
    requires EndToEnd.FieldHolds(u, After(u, events).value.chan.accepted)
    ensures var l := After(u, events).value;
            LinkInv(u, l) && multiset(PayloadsOn(l.rx.arrived, u.id)) <= multiset(l.chan.accepted)
  {
    var l := After(u, events).value;
    var ps := Messages(l.chan.children);
    RunKeepsSender(u, events);
    assert ps + l.chan.queue == l.chan.accepted;
    forall k | 0 <= k < |l.chan.children| ensures FieldHoldsOne(u, l.chan.children[k].msg) {
      assert ps[k] == l.chan.accepted[k];
    }
    RunKeepsLink(u, events);
    MarkedAreSome(ps, Marks(l.readers));
    assert multiset(l.chan.accepted) == multiset(ps) + multiset(l.chan.queue);
  }

  /**
     Unordered delivery, for every interleaving of the two applications, the channel's tasks, the chunks
     of each stream, the receivers and the other channels, write failures and cancellations included:
     what the receiving application has popped, or can still pop, was accepted from the sending one,
     and each payload no more often than it was.
   */
  lemma DeliversNoDuplicates(u: Setup, events: seq<Event>)
    requires After(u, events).Some?
    requires EndToEnd.FieldHolds(u, After(u, events).value.chan.accepted)
    ensures var l := After(u, events).value;
            multiset(PayloadsOn(l.rx.popped, u.id)) + multiset(Buffer(l.rx.bufs, u.id)) <= multiset(l.chan.accepted)
  {
    var l := After(u, events).value;
    var there := PayloadsOn(l.rx.popped, u.id) + Buffer(l.rx.bufs, u.id);
    ArrivedWereAccepted(u, events);
    RunKeepsTrace(u, events, true);
    assert OnChannelInv(l.rx, u.id);
    SubsequenceTransitive(there, PayloadsOn(l.rx.kept, u.id), PayloadsOn(l.rx.arrived, u.id));
    SubsequenceCounts(there, PayloadsOn(l.rx.arrived, u.id));
  }

  /** All message tasks have written, all receivers have taken everything in, and nothing was dropped on the way. */
  ghost predicate Quiet(u: Setup, l: Link) {
    && l.chan.queue == [] && |l.readers| == |l.chan.children|
    && (forall k :: 0 <= k < |l.readers| ==> QuietStream(l.chan.children[k], l.readers[k]))
    && l.incoming == [] && PayloadsOn(l.rx.dropped, u.id) == []
  }

  ghost predicate QuietStream(ch: Child, r: StreamReader) {
    ch.phase.ChildDone? && !ch.writer.broken && r.received == |ch.writer.stream| && r.pushed == |r.parsed.frames|
  }

  lemma QuietStreamWasPushed(u: Setup, ch: Child, r: StreamReader)
    requires ChildInv(FrameCodec(u.id, u.encoderMax), ch) && QuietStream(ch, r)
    requires ReaderInv(u.decoderMax, ch.writer.stream, r)
    requires |ch.msg| <= u.encoderMax && Fits(u.decoderMax, Message(u.id, ch.msg))
    ensures r.pushed == 1
  {
    var m := Message(u.id, ch.msg);
    assert ch.writer.stream[..r.received] == ch.writer.stream == Frame(m);
    assert EncodeAll([m]) == Frame(m) by {
      assert [m][1..] == [];
      assert Frame(m) + [] == Frame(m);
    }
    RoundTripExactly(u.decoderMax, [m]);
  }

  /**
     And nothing is missing at the end: once every message task is done without a write error and the
     receivers have taken everything in, exactly the accepted payloads are there to pop, in some
     order, if each of them fits the decoder.
   */
  lemma DeliveryCompletes(u: Setup, events: seq<Event>)
    requires After(u, events).Some? && ClearBuffers !in events && Quiet(u, After(u, events).value)
    requires forall p :: p in After(u, events).value.chan.accepted ==>
               |p| <= u.encoderMax && Fits(u.decoderMax, Message(u.id, p))
    ensures var l := After(u, events).value;
            multiset(PayloadsOn(l.rx.popped, u.id)) + multiset(Buffer(l.rx.bufs, u.id)) == multiset(l.chan.accepted)
  {
    var l := After(u, events).value;
    var ps := Messages(l.chan.children);
    RunKeepsSender(u, events);
    ArrivedWereAccepted(u, events);
    RunKeepsTrace(u, events, false);
    assert OnChannelInv(l.rx, u.id);
    assert ps + [] == l.chan.accepted && ps + [] == ps;
    forall k | 0 <= k < |l.readers| ensures Marks(l.readers)[k] {
      assert ps[k] in l.chan.accepted;
      assert QuietStream(l.chan.children[k], l.readers[k]);
      QuietStreamWasPushed(u, l.chan.children[k], l.readers[k]);
    }
    MarkedAreAll(ps, Marks(l.readers));
    assert multiset(PayloadsOn(l.incoming, u.id)) == multiset{};
  }
}

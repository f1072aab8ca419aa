/**
 One send channel: the application's end of its queue and the async task behind it.

 A task is a sequence of steps between await points. `select!` may drop the send loop only
 where the loop is suspended, so cancellation is a step that is enabled at await points alone.
 A framed send waits until the writer is ready, encodes into the writer's buffer, and flushes
 the buffer in partial writes.
 */
module SendTask {
  import opened Base
  import opened Codec

  const MAX_CHANNEL_COUNT: nat := 256

  const MESSAGE_QUEUE_SIZE: nat := 150

  /** Room for the requests for channels: all of them, twice. */
  const CONTROL_QUEUE_SIZE: nat := 2 * MAX_CHANNEL_COUNT

  /** Number of unread close messages a broadcast receiver holds before it may report lagging. */
  const KILL_QUEUE_SIZE: nat := 10

  /** Buffered bytes above which a framed writer flushes before it takes another item. */
  const BACKPRESSURE_BOUNDARY: nat := 8 * 1024

  datatype CloseReason = LocalOrder | PeerClosed

  datatype ChannelConfig =
    | OrderedReliable(maxFrameSize: nat)
    | UnorderedReliable(maxFrameSize: nat)
    | Unreliable

  /** How a framed writer encodes one item; `None` when the encoder refuses it. */
  type ItemCodec = Payload -> Option<seq<Byte>>

  datatype Kind = Ordered | Unordered | Datagram

  /** Where a send loop is suspended. `AwaitReady` holds a payload that is not encoded yet. */
  datatype Activity = Idle | AwaitReady(msg: Payload) | Flushing | Reporting

  datatype Phase =
    | Queued                      // the creation request is still in the control queue
    | Abandoned                   // the request was dropped with the control queue
    | Opening                     // the task waits for its stream
    | Looping(act: Activity)      // inside select!
    | Draining(act: Activity)     // after a local close: emptying the queue
    | FinalFlush
    | Ended(reason: CloseReason)

  /** A framed writer over a send stream; once a write has failed all later ones do. */
  datatype Writer = Writer(stream: seq<Byte>, buf: seq<Byte>, broken: bool)

  const NEW_WRITER := Writer([], [], false)

  /** The task an unordered channel spawns for one message, on a stream of its own. */
  datatype ChildPhase = ChildOpening | ChildFlushing | ChildReporting | ChildDone

  datatype Child = Child(msg: Payload, phase: ChildPhase, writer: Writer)

  /**
     `accepted` is the history of payloads the application was told are sent; `drainedAt` is how
     many of them there were when the drain loop found the queue empty.
   */
  datatype Chan = Chan(
    kind: Kind,
    codec: ItemCodec,
    accepted: seq<Payload>,
    registered: bool,             // the application still holds both senders of the channel
    queue: seq<Payload>,
    phase: Phase,
    inbox: seq<CloseReason>,      // broadcast close messages not read yet
    writer: Writer,
    children: seq<Child>,
    datagrams: seq<Payload>,
    drainedAt: nat)

  /** The encoder of channel `id`: frames every payload up to the configured size. */
  function FrameCodec(id: ChannelId, max: nat): ItemCodec {
    p => if |p| <= max then Some(Frame(Message(id, p))) else None
  }

  function NewChan(id: ChannelId, config: ChannelConfig): Chan {
    match config
    case OrderedReliable(max) =>
      Chan(Ordered, FrameCodec(id, max), [], true, [], Queued, [], NEW_WRITER, [], [], 0)
    case UnorderedReliable(max) =>
      Chan(Unordered, FrameCodec(id, max), [], true, [], Queued, [], NEW_WRITER, [], [], 0)
    case Unreliable =>
      Chan(Datagram, p => None, [], true, [], Queued, [], NEW_WRITER, [], [], 0)
  }

  // ---- What belongs on the wire -------------------------------------------

  function Coded(codec: ItemCodec, p: Payload): seq<Byte> {
    match codec(p)
    case Some(bytes) => bytes
    case None => []
  }

  /** The bytes of all payloads that the encoder does not refuse. */
  function Wire(codec: ItemCodec, ps: seq<Payload>): seq<Byte> {
    if ps == [] then [] else Coded(codec, ps[0]) + Wire(codec, ps[1..])
  }

  lemma {:induction false} WireAppend(codec: ItemCodec, a: seq<Payload>, b: seq<Payload>)
    ensures Wire(codec, a + b) == Wire(codec, a) + Wire(codec, b)
  {
    if a == [] {
      assert a + b == b;
    } else {
      assert (a + b)[1..] == a[1..] + b;
      WireAppend(codec, a[1..], b);
    }
  }

  /** The payloads that an encoder with this maximum does not refuse. */
  function Sendable(max: nat, ps: seq<Payload>): seq<Payload> {
    if ps == [] then []
    else (if |ps[0]| <= max then [ps[0]] else []) + Sendable(max, ps[1..])
  }

  /** These payloads, as messages of one channel. */
  function Addressed(id: ChannelId, ps: seq<Payload>): seq<Message> {
    seq(|ps|, i requires 0 <= i < |ps| => Message(id, ps[i]))
  }

  function Encodable(id: ChannelId, max: nat, ps: seq<Payload>): seq<Message> {
    Addressed(id, Sendable(max, ps))
  }

  lemma EncodeOneMore(id: ChannelId, p: Payload, ps: seq<Payload>)
    ensures EncodeAll(Addressed(id, [p] + ps)) == Frame(Message(id, p)) + EncodeAll(Addressed(id, ps))
  {
    var ms := Addressed(id, [p] + ps);
    assert ms[1..] == Addressed(id, ps);
  }

  lemma {:induction false} WireIsEncodeAll(id: ChannelId, max: nat, ps: seq<Payload>)
    ensures Wire(FrameCodec(id, max), ps) == EncodeAll(Encodable(id, max, ps))
  {
    if ps != [] {
      WireIsEncodeAll(id, max, ps[1..]);
      var rest := Sendable(max, ps[1..]);
      if |ps[0]| <= max {
        EncodeOneMore(id, ps[0], rest);
      } else {
        assert [] + rest == rest;
        assert [] + EncodeAll(Addressed(id, rest)) == EncodeAll(Addressed(id, rest));
      }
    }
  }

  // ---- Steps --------------------------------------------------------------

  datatype CloseSignal =
    | Broadcast                   // a close message of the connection
    | BroadcastLagged             // more messages than the receiver could hold
    | BroadcastGone               // the connection value was dropped
    | ChannelSignal               // this channel was closed, or its senders dropped

  datatype ChildStep = ChildReady | ChildWrite(n: nat) | ChildIoError | ChildFinish

  datatype Step =
    | OpenStream
    | Pop(lost: bool)             // `lost`: a datagram send found the connection lost
    | Ready
    | Write(n: nat)
    | Flushed
    | IoError
    | Reported
    | Cancel(signal: CloseSignal)
    | LoopEnds
    | DrainEnds
    | Finish
    | OfChild(k: nat, step: ChildStep)

  function Act(p: Phase): Activity {
    match p
    case Looping(act) => act
    case Draining(act) => act
    case _ => Idle
  }

  predicate Sending(p: Phase) {
    p.Looping? || p.Draining?
  }

  function WithAct(p: Phase, act: Activity): Phase {
    if p.Looping? then Looping(act) else Draining(act)
  }

  /** The task has bytes it is waiting to write. */
  predicate Writing(c: Chan) {
    c.kind.Ordered? &&
    ((Sending(c.phase) && (Act(c.phase).Flushing?
                           || (Act(c.phase).AwaitReady? && |c.writer.buf| >= BACKPRESSURE_BOUNDARY)))
     || c.phase.FinalFlush?)
  }

  /** The loop is suspended, so `select!` gets to poll the close signals. */
  predicate AtAwaitPoint(c: Chan) {
    c.phase.Looping? && (Act(c.phase).AwaitReady? ==> |c.writer.buf| >= BACKPRESSURE_BOUNDARY)
  }

  /** `BroadcastGone` further needs the connection to be dropped, which the system around a channel knows. */
  predicate Signalled(c: Chan, signal: CloseSignal) {
    match signal
    case Broadcast => c.inbox != []
    case BroadcastLagged => |c.inbox| > KILL_QUEUE_SIZE
    case BroadcastGone => c.inbox == []
    case ChannelSignal => !c.registered
  }

  predicate ChildEnabled(ch: Child, st: ChildStep) {
    match st
    case ChildReady => ch.phase.ChildOpening?
    case ChildWrite(n) => ch.phase.ChildFlushing? && !ch.writer.broken && 1 <= n <= |ch.writer.buf|
    case ChildIoError => ch.phase.ChildFlushing?
    case ChildFinish => ch.phase.ChildReporting? || (ch.phase.ChildFlushing? && ch.writer.buf == [])
  }

  predicate Enabled(c: Chan, st: Step) {
    match st
    case OpenStream => c.phase.Opening?
    case Pop(lost) => Sending(c.phase) && Act(c.phase).Idle? && c.queue != []
    case Ready => Sending(c.phase) && Act(c.phase).AwaitReady? && |c.writer.buf| < BACKPRESSURE_BOUNDARY
    case Write(n) => Writing(c) && !c.writer.broken && 1 <= n <= |c.writer.buf|
    case Flushed => Sending(c.phase) && Act(c.phase).Flushing? && c.writer.buf == [] && !c.writer.broken
    case IoError => Writing(c)
    case Reported => c.phase.Looping? && Act(c.phase).Reporting?
    case Cancel(signal) => AtAwaitPoint(c) && Signalled(c, signal)
    case LoopEnds => c.phase.Looping? && Act(c.phase).Idle? && c.queue == [] && !c.registered
    case DrainEnds => c.phase.Draining? && Act(c.phase).Idle? && c.queue == []
    case Finish => c.phase.FinalFlush? && (c.kind.Ordered? ==> c.writer.buf == [])
    case OfChild(k, cs) => k < |c.children| && ChildEnabled(c.children[k], cs)
  }

  function AfterWrite(w: Writer, n: nat): Writer
    requires n <= |w.buf|
  {
    w.(stream := w.stream + w.buf[..n], buf := w.buf[n..])
  }

  /** A failed send is reported from the loop, but only logged while draining. */
  function AfterSendError(p: Phase): Phase {
    match p
    case Looping(_) => Looping(Reporting)
    case Draining(_) => Draining(Idle)
    case _ => Ended(LocalOrder)
  }

  function DoPop(c: Chan, lost: bool): Chan
    requires c.queue != []
  {
    match c.kind
    case Ordered =>
      c.(queue := c.queue[1..], phase := WithAct(c.phase, AwaitReady(c.queue[0])))
    case Unordered =>
      c.(queue := c.queue[1..], children := c.children + [Child(c.queue[0], ChildOpening, NEW_WRITER)])
    case Datagram =>
      c.(queue := c.queue[1..], datagrams := c.datagrams + [c.queue[0]],
         phase := if lost && c.phase.Looping? then Looping(Reporting) else c.phase)
  }

  function DoReady(c: Chan): Chan
    requires Act(c.phase).AwaitReady?
  {
    var msg := Act(c.phase).msg;
    match c.codec(msg)
    case Some(bytes) =>
      c.(writer := c.writer.(buf := c.writer.buf + bytes), phase := WithAct(c.phase, Flushing))
    case None => c.(phase := AfterSendError(c.phase))
  }

  function DoCancel(c: Chan, signal: CloseSignal): Chan {
    if signal.Broadcast? && c.inbox != [] then
      c.(inbox := c.inbox[1..],
         phase := if c.inbox[0].PeerClosed? then Ended(PeerClosed) else Draining(Idle))
    else
      c.(phase := Draining(Idle))
  }

  function DoChild(codec: ItemCodec, ch: Child, st: ChildStep): Child
    requires ChildEnabled(ch, st)
  {
    match st
    case ChildReady =>
      (match codec(ch.msg)
       case Some(bytes) => ch.(writer := ch.writer.(buf := bytes), phase := ChildFlushing)
       case None => ch.(phase := ChildReporting))
    case ChildWrite(n) => ch.(writer := AfterWrite(ch.writer, n))
    case ChildIoError => ch.(writer := ch.writer.(broken := true), phase := ChildReporting)
    case ChildFinish => ch.(phase := ChildDone)
  }

  function Do(c: Chan, st: Step): Chan
    requires Enabled(c, st)
  {
    match st
    case OpenStream => c.(phase := Looping(Idle))
    case Pop(lost) => DoPop(c, lost)
    case Ready => DoReady(c)
    case Write(n) => c.(writer := AfterWrite(c.writer, n))
    case Flushed => c.(phase := WithAct(c.phase, Idle))
    case IoError => c.(writer := c.writer.(broken := true), phase := AfterSendError(c.phase))
    case Reported => c.(phase := Looping(Idle))
    case Cancel(signal) => DoCancel(c, signal)
    case LoopEnds => c.(phase := Draining(Idle))
    case DrainEnds => c.(phase := FinalFlush, drainedAt := |c.accepted|)
    case Finish => c.(phase := Ended(LocalOrder))
    case OfChild(k, cs) =>
      c.(children := c.children[k := DoChild(c.codec, c.children[k], cs)])
  }

  // ---- The application's end ----------------------------------------------

  /** `try_send` succeeds: the sender is held, the receiver alive, and the queue has room. */
  predicate CanAccept(c: Chan) {
    c.registered && |c.queue| < MESSAGE_QUEUE_SIZE && !c.phase.Ended? && !c.phase.Abandoned?
  }

  function Accept(c: Chan, p: Payload): Chan
    requires CanAccept(c)
  {
    c.(queue := c.queue + [p], accepted := c.accepted + [p])
  }

  // ---- Nothing is lost or duplicated --------------------------------------

  /**
     Stream, writer buffer, the payload in hand and the queue together are exactly the accepted
     payloads, each once and in order.
   */
  ghost predicate Conserved(codec: ItemCodec, w: Writer, inHand: seq<Byte>, queue: seq<Payload>, accepted: seq<Payload>) {
    && (!w.broken ==> w.stream + w.buf + inHand + Wire(codec, queue) == Wire(codec, accepted))
    && w.stream <= Wire(codec, accepted)
  }

  lemma ConservedAccept(codec: ItemCodec, w: Writer, h: seq<Byte>, queue: seq<Payload>, accepted: seq<Payload>, p: Payload)
    requires Conserved(codec, w, h, queue, accepted)
    ensures Conserved(codec, w, h, queue + [p], accepted + [p])
  {
    WireAppend(codec, accepted, [p]);
    WireAppend(codec, queue, [p]);
    ConcatAssociative(w.stream + w.buf + h, Wire(codec, queue), Wire(codec, [p]));
    PrefixGrows(w.stream, Wire(codec, accepted), Wire(codec, [p]));
  }

  lemma PrefixGrows<T>(a: seq<T>, b: seq<T>, c: seq<T>)
    requires a <= b
    ensures a <= b + c
  {
  }

  lemma ConservedPop(codec: ItemCodec, w: Writer, queue: seq<Payload>, accepted: seq<Payload>)
    requires Conserved(codec, w, [], queue, accepted) && queue != []
    ensures Conserved(codec, w, Coded(codec, queue[0]), queue[1..], accepted)
  {
    ConcatAssociative(w.stream + w.buf, Coded(codec, queue[0]), Wire(codec, queue[1..]));
  }

  lemma ConservedEncode(codec: ItemCodec, w: Writer, h: seq<Byte>, queue: seq<Payload>, accepted: seq<Payload>)
    requires Conserved(codec, w, h, queue, accepted)
    ensures Conserved(codec, w.(buf := w.buf + h), [], queue, accepted)
  {
    ConcatAssociative(w.stream, w.buf, h);
  }

  lemma ConservedWrite(codec: ItemCodec, w: Writer, n: nat, h: seq<Byte>, queue: seq<Payload>, accepted: seq<Payload>)
    requires Conserved(codec, w, h, queue, accepted) && n <= |w.buf| && !w.broken
    ensures Conserved(codec, AfterWrite(w, n), h, queue, accepted)
  {
    assert w.stream + w.buf == (w.stream + w.buf[..n]) + w.buf[n..];
    var all := w.stream + w.buf + h + Wire(codec, queue);
    assert w.stream + w.buf[..n] == all[..|w.stream| + n];
  }

  function InHand(c: Chan): seq<Byte> {
    if Act(c.phase).AwaitReady? then Coded(c.codec, Act(c.phase).msg) else []
  }

  /** The writer buffer is empty whenever the loop can take the next payload. */
  ghost predicate OrderedInv(c: Chan) {
    && Conserved(c.codec, c.writer, InHand(c), c.queue, c.accepted)
    && (!c.writer.broken && c.phase.Looping? && !Act(c.phase).Flushing? ==> c.writer.buf == [])
    && (!c.writer.broken && c.phase == Ended(LocalOrder) ==> c.writer.buf == [])
    && (c.phase.Queued? || c.phase.Abandoned? || c.phase.Opening? ==> c.writer == NEW_WRITER)
  }

  ghost predicate ChildInv(codec: ItemCodec, ch: Child) {
    var frame := Coded(codec, ch.msg);
    && ch.writer.stream <= frame
    && (ch.phase.ChildOpening? ==> ch.writer == NEW_WRITER)
    && (ch.phase.ChildFlushing? ==> !ch.writer.broken && ch.writer.stream + ch.writer.buf == frame)
    && (ch.phase.ChildReporting? || ch.phase.ChildDone? ==> ch.writer.broken || ch.writer.stream == frame)
  }

  function Messages(children: seq<Child>): seq<Payload> {
    seq(|children|, i requires 0 <= i < |children| => children[i].msg)
  }

  /** Every accepted payload has a task of its own or is still queued; each task writes its frame. */
  ghost predicate UnorderedInv(c: Chan) {
    && Messages(c.children) + c.queue == c.accepted
    && (forall k :: 0 <= k < |c.children| ==> ChildInv(c.codec, c.children[k]))
  }

  /** `drainedAt` splits the accepted payloads into those the drain saw and those that came too late. */
  ghost predicate DrainInv(c: Chan) {
    c.phase.FinalFlush? || c.phase == Ended(LocalOrder) ==>
      c.drainedAt <= |c.accepted| && c.queue == c.accepted[c.drainedAt..]
  }

  ghost predicate KindInv(c: Chan) {
    && (!c.kind.Ordered? ==> !Act(c.phase).AwaitReady? && !Act(c.phase).Flushing?)
    && (!c.kind.Unordered? ==> c.children == [])
    && c.phase != Draining(Reporting)
    && (c.phase.Queued? || c.phase.Abandoned? ==> c.children == [])
  }

  ghost predicate ChanInv(c: Chan) {
    && DrainInv(c)
    && KindInv(c)
    && (match c.kind
        case Ordered => OrderedInv(c)
        case Unordered => UnorderedInv(c)
        case Datagram => c.datagrams + c.queue == c.accepted)
  }

  lemma NewChanInv(id: ChannelId, config: ChannelConfig)
    ensures ChanInv(NewChan(id, config))
  {
  }

  lemma AcceptKeepsInv(c: Chan, p: Payload)
    requires ChanInv(c) && CanAccept(c)
    ensures ChanInv(Accept(c, p))
  {
    if c.kind.Ordered? {
      ConservedAccept(c.codec, c.writer, InHand(c), c.queue, c.accepted, p);
    }
  }

  lemma OrderedStepKeepsInv(c: Chan, st: Step)
    requires OrderedInv(c) && c.kind.Ordered? && c.children == [] && Enabled(c, st)
    ensures OrderedInv(Do(c, st))
  {
    match st
    case Pop(_) => ConservedPop(c.codec, c.writer, c.queue, c.accepted);
    case Ready => ConservedEncode(c.codec, c.writer, InHand(c), c.queue, c.accepted);
    case Write(n) => ConservedWrite(c.codec, c.writer, n, InHand(c), c.queue, c.accepted);
    case _ => OrderedQuietStep(c, st);
  }

  lemma OrderedQuietStep(c: Chan, st: Step)
    requires OrderedInv(c) && c.kind.Ordered? && c.children == [] && Enabled(c, st)
    requires !st.Pop? && !st.Ready? && !st.Write?
    ensures OrderedInv(Do(c, st))
  {
  }

  lemma ChildKeepsInv(codec: ItemCodec, ch: Child, st: ChildStep)
    requires ChildInv(codec, ch) && ChildEnabled(ch, st)
    ensures ChildInv(codec, DoChild(codec, ch, st)) && DoChild(codec, ch, st).msg == ch.msg
  {
    match st
    case ChildReady =>
      assert [] + Coded(codec, ch.msg) == Coded(codec, ch.msg);
    case ChildWrite(n) =>
      assert ch.writer.stream + ch.writer.buf == (ch.writer.stream + ch.writer.buf[..n]) + ch.writer.buf[n..];
    case _ =>
  }

  lemma UnorderedStepKeepsInv(c: Chan, st: Step)
    requires UnorderedInv(c) && KindInv(c) && c.kind.Unordered? && Enabled(c, st)
    ensures UnorderedInv(Do(c, st))
  {
    match st
    case Pop(lost) =>
      assert Messages(DoPop(c, lost).children) == Messages(c.children) + [c.queue[0]];
    case OfChild(k, cs) =>
      ChildKeepsInv(c.codec, c.children[k], cs);
      assert Messages(Do(c, st).children) == Messages(c.children);
    case _ =>
  }

  lemma DrainStepKeepsInv(c: Chan, st: Step)
    requires DrainInv(c) && Enabled(c, st)
    ensures DrainInv(Do(c, st))
  {
  }

  lemma KindStepKeepsInv(c: Chan, st: Step)
    requires KindInv(c) && Enabled(c, st)
    ensures KindInv(Do(c, st)) && Do(c, st).kind == c.kind
  {
  }

  lemma StepKeepsInv(c: Chan, st: Step)
    requires ChanInv(c) && Enabled(c, st)
    ensures ChanInv(Do(c, st))
  {
    DrainStepKeepsInv(c, st);
    KindStepKeepsInv(c, st);
    match c.kind
    case Ordered => OrderedStepKeepsInv(c, st);
    case Unordered => UnorderedStepKeepsInv(c, st);
    case Datagram => DatagramStepKeepsInv(c, st);
  }

  lemma DatagramStepKeepsInv(c: Chan, st: Step)
    requires c.datagrams + c.queue == c.accepted && KindInv(c) && c.kind.Datagram? && Enabled(c, st)
    ensures Do(c, st).datagrams + Do(c, st).queue == Do(c, st).accepted
  {
  }

  // ---- What follows -------------------------------------------------------

  /** The step is a failed send: a write failed, the encoder refused the payload, or a datagram found the connection lost. */
  predicate Fails(c: Chan, st: Step) {
    match st
    case IoError => true
    case Ready => Act(c.phase).AwaitReady? && c.codec(Act(c.phase).msg).None?
    case Pop(lost) => lost && c.kind.Datagram?
    case _ => false
  }

  /**
     A send that fails in the loop is reported before anything else is taken off the queue, unless the
     task is closed meanwhile; while draining it is not, and the drain goes on with the next payload.
   */
  lemma FailuresAreReported(c: Chan, st: Step, next: Step)
    requires Enabled(c, st) && Fails(c, st)
    ensures c.phase.Looping? && Enabled(Do(c, st), next) ==> next.Reported? || next.Cancel? || next.OfChild?
    ensures c.phase.Looping? ==> Enabled(Do(c, st), Reported)
    ensures c.phase.Draining? ==> !Enabled(Do(c, st), Reported)
                                  && (Do(c, st).queue != [] ==> Enabled(Do(c, st), Pop(false)))
                                  && (Do(c, st).queue == [] ==> Enabled(Do(c, st), DrainEnds))
  {
  }

  /**
     `select!` may drop the send loop in the middle of a flush, yet it never holds a payload
     that is not encoded: what was read off the queue is on the stream or in the writer's buffer.
   */
  lemma CancellationLosesNothing(c: Chan, signal: CloseSignal)
    requires ChanInv(c) && c.kind.Ordered? && !c.writer.broken && Enabled(c, Cancel(signal))
    ensures !Act(c.phase).AwaitReady?
    ensures var c' := Do(c, Cancel(signal));
            c'.writer.stream + c'.writer.buf + Wire(c.codec, c'.queue) == Wire(c.codec, c.accepted)
  {
    assert c.writer.stream + c.writer.buf + [] == c.writer.stream + c.writer.buf;
  }

  /**
     An ordered task that ended on a local close without a write error has written exactly the
     payloads accepted before its drain ended. All accepted payloads are on the stream if and
     only if nothing encodable was accepted after that.
   */
  lemma EndedHasWritten(c: Chan)
    requires ChanInv(c) && c.kind.Ordered? && !c.writer.broken && c.phase == Ended(LocalOrder)
    ensures c.writer.stream == Wire(c.codec, c.accepted[..c.drainedAt])
    ensures c.writer.stream == Wire(c.codec, c.accepted) <==> Wire(c.codec, c.accepted[c.drainedAt..]) == []
  {
    var early, late := c.accepted[..c.drainedAt], c.accepted[c.drainedAt..];
    assert c.accepted == early + late;
    WireAppend(c.codec, early, late);
    assert c.writer.stream + [] + [] == c.writer.stream;
    SplitAt(c.writer.stream, Wire(c.codec, late));
    SplitAt(Wire(c.codec, early), Wire(c.codec, late));
  }
}

/**
 The receive demultiplexer of a connection: payloads arriving in one queue are sorted into one
 bounded buffer per channel. The buffers are a dense vector that grows when a channel is first
 heard of.
 */
module RecvChannels {
  import opened Base

  datatype RecvError =
    | RecvChannelFull(id: ChannelId)
    | MaxRecvChannelCountReached(id: ChannelId)

  datatype Config = Config(maxBuffered: nat, maxChannels: nat, clearStale: bool)

  type Buffers = seq<seq<Payload>>

  /** What a reader of channel `c` can still pop; an absent buffer reads as an empty one. */
  function Buffer(bufs: Buffers, c: nat): seq<Payload> {
    if c < |bufs| then bufs[c] else []
  }

  function PayloadsOn(ms: seq<Message>, c: nat): seq<Payload> {
    if ms == [] then []
    else (if ms[0].channel == c then [ms[0].payload] else []) + PayloadsOn(ms[1..], c)
  }

  lemma {:induction false} PayloadsOnAppend(a: seq<Message>, b: seq<Message>, c: nat)
    ensures PayloadsOn(a + b, c) == PayloadsOn(a, c) + PayloadsOn(b, c)
  {
    if a == [] {
      assert a + b == b;
    } else {
      assert (a + b)[1..] == a[1..] + b;
      PayloadsOnAppend(a[1..], b, c);
    }
  }

  // ---- Specification ------------------------------------------------------

  /** A payload is taken when its channel is within bounds and its buffer is absent or has room. */
  predicate Accepts(cfg: Config, bufs: Buffers, c: nat) {
    if c < |bufs| then |bufs[c]| < cfg.maxBuffered else c < cfg.maxChannels
  }

  function Push(bufs: Buffers, m: Message): Buffers {
    if m.channel < |bufs| then
      bufs[m.channel := bufs[m.channel] + [m.payload]]
    else
      bufs + seq(m.channel - |bufs|, i => []) + [[m.payload]]
  }

  function Rejection(bufs: Buffers, c: ChannelId): RecvError {
    if c < |bufs| then RecvChannelFull(c) else MaxRecvChannelCountReached(c)
  }

  /** `kept` and `dropped` split the messages; `errors` reports one error for each dropped one. */
  datatype Outcome = Outcome(bufs: Buffers, kept: seq<Message>, dropped: seq<Message>, errors: seq<RecvError>)

  function Dispatch(cfg: Config, bufs: Buffers, ms: seq<Message>): Outcome
    decreases |ms|
  {
    if ms == [] then Outcome(bufs, [], [], [])
    else
      var init, m := Dispatch(cfg, bufs, ms[..|ms| - 1]), ms[|ms| - 1];
      if Accepts(cfg, init.bufs, m.channel) then
        init.(bufs := Push(init.bufs, m), kept := init.kept + [m])
      else
        init.(dropped := init.dropped + [m], errors := init.errors + [Rejection(init.bufs, m.channel)])
  }

  // ---- The implementation -------------------------------------------------

  class Receiver {
    var incoming: seq<Message>
    var recvChannelsPayloads: Buffers
    const cfg: Config
    var receivedBytes: nat
    var receivedMessages: nat

    constructor (cfg: Config)
      ensures this.cfg == cfg && incoming == [] && recvChannelsPayloads == []
      ensures receivedBytes == 0 && receivedMessages == 0
    {
      this.cfg := cfg;
      incoming := [];
      recvChannelsPayloads := [];
      receivedBytes := 0;
      receivedMessages := 0;
    }

    method DequeueUndispatchedBytesFromPeer() returns (r: Option<Message>)
      modifies this
      ensures r.None? <==> old(incoming) == []
      ensures r.None? ==> unchanged(this)
      ensures r.Some? ==> old(incoming) == [r.value] + incoming
      ensures r.Some? ==> receivedMessages == old(receivedMessages) + 1
                          && receivedBytes == old(receivedBytes) + |r.value.payload|
      ensures recvChannelsPayloads == old(recvChannelsPayloads)
    {
      if incoming == [] {
        return None;
      }
      r := Some(incoming[0]);
      incoming := incoming[1..];
      receivedBytes := receivedBytes + |r.value.payload|;
      receivedMessages := receivedMessages + 1;
    }

    /** Buffers one payload, or says why it is dropped. */
    method BufferOrDrop(m: Message) returns (e: Option<RecvError>)
      modifies this`recvChannelsPayloads
      ensures e.None? <==> Accepts(cfg, old(recvChannelsPayloads), m.channel)
      ensures e.None? ==> recvChannelsPayloads == Push(old(recvChannelsPayloads), m)
      ensures e.Some? ==> recvChannelsPayloads == old(recvChannelsPayloads)
                          && e.value == Rejection(old(recvChannelsPayloads), m.channel)
    {
      if m.channel < |recvChannelsPayloads| {
        if |recvChannelsPayloads[m.channel]| < cfg.maxBuffered {
          recvChannelsPayloads := recvChannelsPayloads[m.channel := recvChannelsPayloads[m.channel] + [m.payload]];
          return None;
        }
        return Some(RecvChannelFull(m.channel));
      }
      if m.channel < cfg.maxChannels {
        ExtendTo(m.channel);
        recvChannelsPayloads := recvChannelsPayloads + [[m.payload]];
        return None;
      }
      return Some(MaxRecvChannelCountReached(m.channel));
    }

    /** Empties the incoming queue into the channel buffers, reporting every payload it drops. */
    method DispatchReceivedPayloads() returns (r: Result<(), seq<RecvError>>)
      modifies this
      ensures var o := Dispatch(cfg, old(recvChannelsPayloads), old(incoming));
              && recvChannelsPayloads == o.bufs
              && r == if o.errors == [] then Ok(()) else Err(o.errors)
      ensures incoming == [] && receivedMessages == old(receivedMessages) + |old(incoming)|
      ensures receivedBytes == old(receivedBytes) + TotalBytes(old(incoming))
    {
      var errs: seq<RecvError> := [];
      ghost var taken := [];
      assert taken + incoming == incoming;
      while true
        invariant old(incoming) == taken + incoming
        invariant receivedMessages == old(receivedMessages) + |taken|
        invariant receivedBytes == old(receivedBytes) + TotalBytes(taken)
        invariant recvChannelsPayloads == Dispatch(cfg, old(recvChannelsPayloads), taken).bufs
        invariant errs == Dispatch(cfg, old(recvChannelsPayloads), taken).errors
        decreases |incoming|
      {
        var next := DequeueUndispatchedBytesFromPeer();
        if next.None? {
          assert taken == old(incoming);
          break;
        }
        DispatchLast(cfg, old(recvChannelsPayloads), taken, next.value);
        taken := taken + [next.value];
        var dropped := BufferOrDrop(next.value);
        if dropped.Some? {
          errs := errs + [dropped.value];
        }
      }
      if errs == [] {
        return Ok(());
      } else {
        return Err(errs);
      }
    }

    method ExtendTo(len: nat)
      requires |recvChannelsPayloads| <= len
      modifies this`recvChannelsPayloads
      ensures recvChannelsPayloads
              == old(recvChannelsPayloads) + seq(len - |old(recvChannelsPayloads)|, i => [])
    {
      var start := |recvChannelsPayloads|;
      for k := start to len
        invariant recvChannelsPayloads == old(recvChannelsPayloads) + seq(k - start, i => [])
      {
        recvChannelsPayloads := recvChannelsPayloads + [[]];
      }
    }

    method InternalReceivePayload(c: ChannelId) returns (r: Option<Payload>)
      modifies this`recvChannelsPayloads
      ensures r.None? <==> Buffer(old(recvChannelsPayloads), c) == []
      ensures r.None? ==> recvChannelsPayloads == old(recvChannelsPayloads)
      ensures r.Some? ==> Buffer(old(recvChannelsPayloads), c) == [r.value] + Buffer(recvChannelsPayloads, c)
      ensures |recvChannelsPayloads| == |old(recvChannelsPayloads)|
      ensures forall d: nat :: d != c ==> Buffer(recvChannelsPayloads, d) == Buffer(old(recvChannelsPayloads), d)
    {
      if c < |recvChannelsPayloads| && recvChannelsPayloads[c] != [] {
        r := Some(recvChannelsPayloads[c][0]);
        recvChannelsPayloads := recvChannelsPayloads[c := recvChannelsPayloads[c][1..]];
      } else {
        r := None;
      }
    }

    /** Empties every buffer; the vector keeps its length, so channels stay known. */
    method ClearReceivedPayloads()
      modifies this`recvChannelsPayloads
      ensures recvChannelsPayloads == Cleared(old(recvChannelsPayloads))
      ensures |recvChannelsPayloads| == |old(recvChannelsPayloads)|
      ensures forall c: nat :: Buffer(recvChannelsPayloads, c) == []
    {
      for k := 0 to |recvChannelsPayloads|
        invariant |recvChannelsPayloads| == |old(recvChannelsPayloads)|
        invariant forall j :: 0 <= j < k ==> recvChannelsPayloads[j] == []
        invariant forall j :: k <= j < |recvChannelsPayloads| ==> recvChannelsPayloads[j] == old(recvChannelsPayloads)[j]
      {
        recvChannelsPayloads := recvChannelsPayloads[k := []];
      }
    }

    /** Starts over: a new incoming queue, no buffers, and statistics from zero. */
    method Reset()
      modifies this
      ensures incoming == [] && recvChannelsPayloads == [] && receivedBytes == 0 && receivedMessages == 0
    {
      incoming := [];
      recvChannelsPayloads := [];
      receivedBytes := 0;
      receivedMessages := 0;
    }

    method ClearStaleReceivedPayloads()
      modifies this`recvChannelsPayloads
      ensures recvChannelsPayloads
              == if cfg.clearStale then Cleared(old(recvChannelsPayloads)) else old(recvChannelsPayloads)
      ensures cfg.clearStale ==> forall c: nat :: Buffer(recvChannelsPayloads, c) == []
    {
      if cfg.clearStale {
        ClearReceivedPayloads();
      }
    }
  }

  function TotalBytes(ms: seq<Message>): nat
    decreases |ms|
  {
    if ms == [] then 0 else TotalBytes(ms[..|ms| - 1]) + |ms[|ms| - 1].payload|
  }

  function Cleared(bufs: Buffers): (r: Buffers)
    ensures |r| == |bufs| && forall c: nat :: Buffer(r, c) == []
  {
    seq(|bufs|, i => [])
  }

  // ---- Refinement of a map of bounded FIFOs -------------------------------

  ghost predicate Bounded(cfg: Config, bufs: Buffers) {
    && |bufs| <= cfg.maxChannels
    && (forall c :: 0 <= c < |bufs| ==> |bufs[c]| <= cfg.maxBuffered || |bufs[c]| <= 1)
  }

  lemma PushIsAppend(bufs: Buffers, m: Message, c: nat)
    ensures Buffer(Push(bufs, m), c) == Buffer(bufs, c) + (if c == m.channel then [m.payload] else [])
    ensures |Push(bufs, m)| == if m.channel < |bufs| then |bufs| else m.channel + 1
  {
  }

  /**
     Every dispatch, on every channel: what was buffered stays in front, the kept payloads of
     the channel follow in order of arrival, and nothing else is buffered.
   */
  lemma {:induction false} DispatchAppends(cfg: Config, bufs: Buffers, ms: seq<Message>, c: nat)
    ensures var o := Dispatch(cfg, bufs, ms);
            Buffer(o.bufs, c) == Buffer(bufs, c) + PayloadsOn(o.kept, c)
  {
    if ms != [] {
      var init, m := Dispatch(cfg, bufs, ms[..|ms| - 1]), ms[|ms| - 1];
      DispatchAppends(cfg, bufs, ms[..|ms| - 1], c);
      if Accepts(cfg, init.bufs, m.channel) {
        PushIsAppend(init.bufs, m, c);
        PayloadsOnAppend(init.kept, [m], c);
        assert PayloadsOn([m], c) == if c == m.channel then [m.payload] else [];
      }
    }
  }

  lemma {:induction false} KeptInOrder(cfg: Config, bufs: Buffers, ms: seq<Message>)
    ensures Subsequence(Dispatch(cfg, bufs, ms).kept, ms) && Subsequence(Dispatch(cfg, bufs, ms).dropped, ms)
  {
    if ms == [] {
      PrefixIsSubsequence([], ms);
    } else {
      var front, m := ms[..|ms| - 1], ms[|ms| - 1];
      var init := Dispatch(cfg, bufs, front);
      KeptInOrder(cfg, bufs, front);
      assert ms == front + [m];
      SubsequenceExtend(init.kept, front, m);
      SubsequenceExtend(init.dropped, front, m);
    }
  }

  lemma DispatchLast(cfg: Config, bufs: Buffers, front: seq<Message>, m: Message)
    ensures var o, o' := Dispatch(cfg, bufs, front), Dispatch(cfg, bufs, front + [m]);
            o' == if Accepts(cfg, o.bufs, m.channel) then o.(bufs := Push(o.bufs, m), kept := o.kept + [m])
                  else o.(dropped := o.dropped + [m], errors := o.errors + [Rejection(o.bufs, m.channel)])
    ensures TotalBytes(front + [m]) == TotalBytes(front) + |m.payload|
  {
    assert (front + [m])[..|front|] == front;
  }

  ghost predicate Accounts(o: Outcome, arrived: seq<Message>) {
    match o
    case Outcome(_, kept, dropped, _) => multiset(kept) + multiset(dropped) == multiset(arrived)
  }

  lemma CountLast(ms: seq<Message>)
    requires ms != []
    ensures multiset(ms) == multiset(ms[..|ms| - 1]) + multiset{ms[|ms| - 1]}
  {
    assert ms == ms[..|ms| - 1] + [ms[|ms| - 1]];
  }

  lemma OneMoreAccounted(o: Outcome, arrived: seq<Message>, m: Message, arrived': seq<Message>)
    requires Accounts(o, arrived) && multiset(arrived') == multiset(arrived) + multiset{m}
    ensures forall b, e :: Accounts(Outcome(b, o.kept + [m], o.dropped, e), arrived')
    ensures forall b, e :: Accounts(Outcome(b, o.kept, o.dropped + [m], e), arrived')
  {
    assert multiset(o.kept + [m]) == multiset(o.kept) + multiset{m};
    assert multiset(o.dropped + [m]) == multiset(o.dropped) + multiset{m};
  }

  lemma {:induction false} AllAccounted(cfg: Config, bufs: Buffers, ms: seq<Message>)
    ensures Accounts(Dispatch(cfg, bufs, ms), ms)
    decreases |ms|
  {
    if ms != [] {
      var front, m := ms[..|ms| - 1], ms[|ms| - 1];
      AllAccounted(cfg, bufs, front);
      CountLast(ms);
      OneMoreAccounted(Dispatch(cfg, bufs, front), front, m, ms);
    }
  }

  /** Every message is either kept or dropped. */
  lemma DispatchConserves(cfg: Config, bufs: Buffers, ms: seq<Message>)
    ensures var o := Dispatch(cfg, bufs, ms); multiset(o.kept) + multiset(o.dropped) == multiset(ms)
  {
    AllAccounted(cfg, bufs, ms);
  }

  /** Each dropped message is reported once, by channel, with the limit that it ran into. */
  lemma {:induction false} DropsAreReported(cfg: Config, bufs: Buffers, ms: seq<Message>)
    requires Bounded(cfg, bufs)
    ensures var o := Dispatch(cfg, bufs, ms);
            && |o.errors| == |o.dropped|
            && (forall i :: 0 <= i < |o.errors| ==>
                  o.errors[i] == var c := o.dropped[i].channel;
                                 if c < cfg.maxChannels then RecvChannelFull(c) else MaxRecvChannelCountReached(c))
  {
    if ms != [] {
      DropsAreReported(cfg, bufs, ms[..|ms| - 1]);
      DispatchStaysBounded(cfg, bufs, ms[..|ms| - 1]);
    }
  }

  /** `kept` follows the order of `arrived`, and is all of it when nothing was dropped. */
  ghost predicate Keeps(kept: seq<Payload>, dropped: seq<Payload>, arrived: seq<Payload>) {
    Subsequence(kept, arrived) && (dropped == [] ==> kept == arrived)
  }

  lemma KeepsExtend(k: seq<Payload>, d: seq<Payload>, a: seq<Payload>, x: Payload)
    requires Keeps(k, d, a)
    ensures Keeps(k + [x], d, a + [x]) && Keeps(k, d + [x], a + [x])
  {
    SubsequenceExtend(k, a, x);
  }

  lemma KeepsConcat(k: seq<Payload>, d: seq<Payload>, a: seq<Payload>,
                    k': seq<Payload>, d': seq<Payload>, a': seq<Payload>)
    requires Keeps(k, d, a) && Keeps(k', d', a')
    ensures Keeps(k + k', d + d', a + a')
  {
    SubsequenceConcat(k, a, k', a');
  }

  lemma KeptOneMore(kept: seq<Message>, dropped: seq<Message>, arrived: seq<Message>, m: Message, c: nat)
    requires Keeps(PayloadsOn(kept, c), PayloadsOn(dropped, c), PayloadsOn(arrived, c))
    ensures Keeps(PayloadsOn(kept + [m], c), PayloadsOn(dropped, c), PayloadsOn(arrived + [m], c))
    ensures Keeps(PayloadsOn(kept, c), PayloadsOn(dropped + [m], c), PayloadsOn(arrived + [m], c))
  {
    KeepsExtend(PayloadsOn(kept, c), PayloadsOn(dropped, c), PayloadsOn(arrived, c), m.payload);
    PayloadsOnLast(kept, m, c);
    PayloadsOnLast(dropped, m, c);
    PayloadsOnLast(arrived, m, c);
  }

  lemma {:induction false} KeptOnChannel(cfg: Config, bufs: Buffers, ms: seq<Message>, c: nat)
    ensures var o := Dispatch(cfg, bufs, ms);
            Keeps(PayloadsOn(o.kept, c), PayloadsOn(o.dropped, c), PayloadsOn(ms, c))
  {
    if ms == [] {
      PrefixIsSubsequence<Payload>([], []);
    } else {
      var front, m := ms[..|ms| - 1], ms[|ms| - 1];
      var init := Dispatch(cfg, bufs, front);
      KeptOnChannel(cfg, bufs, front, c);
      KeptOneMore(init.kept, init.dropped, front, m, c);
      DispatchLast(cfg, bufs, front, m);
      assert ms == front + [m];
    }
  }

  lemma PayloadsOnLast(ms: seq<Message>, m: Message, c: nat)
    ensures PayloadsOn(ms + [m], c) == if c == m.channel then PayloadsOn(ms, c) + [m.payload] else PayloadsOn(ms, c)
  {
    PayloadsOnAppend(ms, [m], c);
    assert PayloadsOn([m], c) == if c == m.channel then [m.payload] else [];
  }

  lemma {:induction false} DispatchStaysBounded(cfg: Config, bufs: Buffers, ms: seq<Message>)
    requires Bounded(cfg, bufs)
    ensures Bounded(cfg, Dispatch(cfg, bufs, ms).bufs)
  {
    if ms != [] {
      var init, m := Dispatch(cfg, bufs, ms[..|ms| - 1]), ms[|ms| - 1];
      DispatchStaysBounded(cfg, bufs, ms[..|ms| - 1]);
      if Accepts(cfg, init.bufs, m.channel) {
        var b := Push(init.bufs, m);
        forall c | 0 <= c < |b| ensures |b[c]| <= cfg.maxBuffered || |b[c]| <= 1 {
          PushIsAppend(init.bufs, m, c);
        }
      }
    }
  }

  /** A FIFO that ignores what does not fit. */
  function Fifo(room: nat, q: seq<Payload>, arriving: seq<Payload>): seq<Payload> {
    if arriving == [] then q
    else
      var q' := Fifo(room, q, arriving[..|arriving| - 1]);
      if |q'| < room then q' + [arriving[|arriving| - 1]] else q'
  }

  lemma FifoLast(room: nat, q: seq<Payload>, front: seq<Payload>, p: Payload)
    ensures var q' := Fifo(room, q, front); Fifo(room, q, front + [p]) == if |q'| < room then q' + [p] else q'
  {
    assert (front + [p])[..|front|] == front;
  }

  lemma OneMoreInFifo(cfg: Config, init: Buffers, q: seq<Payload>, before: seq<Payload>, m: Message, c: nat)
    requires Bounded(cfg, init) && cfg.maxBuffered >= 1
    requires Buffer(init, c) == if c < cfg.maxChannels then Fifo(cfg.maxBuffered, q, before) else []
    ensures var b := if Accepts(cfg, init, m.channel) then Push(init, m) else init;
            var after := if m.channel == c then before + [m.payload] else before;
            Buffer(b, c) == if c < cfg.maxChannels then Fifo(cfg.maxBuffered, q, after) else []
  {
    PushIsAppend(init, m, c);
    FifoLast(cfg.maxBuffered, q, before, m.payload);
  }

  lemma PayloadsOnFront(ms: seq<Message>, c: nat)
    requires ms != []
    ensures var front, m := ms[..|ms| - 1], ms[|ms| - 1];
            PayloadsOn(ms, c) == if m.channel == c then PayloadsOn(front, c) + [m.payload] else PayloadsOn(front, c)
  {
    PayloadsOnLast(ms[..|ms| - 1], ms[|ms| - 1], c);
    assert ms == ms[..|ms| - 1] + [ms[|ms| - 1]];
  }

  /**
     With room for at least one payload, the demultiplexer is a map of independent bounded
     FIFOs: each channel below the configured count sees only its own arrivals.
   */
  lemma {:induction false} DispatchIsFifo(cfg: Config, bufs: Buffers, ms: seq<Message>, c: nat)
    requires Bounded(cfg, bufs) && cfg.maxBuffered >= 1
    ensures Buffer(Dispatch(cfg, bufs, ms).bufs, c) ==
            if c < cfg.maxChannels then Fifo(cfg.maxBuffered, Buffer(bufs, c), PayloadsOn(ms, c)) else []
    decreases |ms|
  {
    if ms != [] {
      var front, m := ms[..|ms| - 1], ms[|ms| - 1];
      DispatchIsFifo(cfg, bufs, front, c);
      DispatchStaysBounded(cfg, bufs, front);
      OneMoreInFifo(cfg, Dispatch(cfg, bufs, front).bufs, Buffer(bufs, c), PayloadsOn(front, c), m, c);
      PayloadsOnFront(ms, c);
    }
  }

  /** Nothing is kept on channels beyond the configured number. */
  lemma {:induction false} KeptInRange(cfg: Config, bufs: Buffers, ms: seq<Message>)
    requires Bounded(cfg, bufs)
    ensures forall c: nat :: c >= cfg.maxChannels ==> PayloadsOn(Dispatch(cfg, bufs, ms).kept, c) == []
  {
    if ms != [] {
      var front, m := ms[..|ms| - 1], ms[|ms| - 1];
      var init := Dispatch(cfg, bufs, front);
      KeptInRange(cfg, bufs, front);
      DispatchStaysBounded(cfg, bufs, front);
      forall c: nat | c >= cfg.maxChannels ensures PayloadsOn(Dispatch(cfg, bufs, ms).kept, c) == [] {
        PayloadsOnLast(init.kept, m, c);
      }
    }
  }

  // ---- Whole runs ---------------------------------------------------------

  datatype Op = Arrive(ms: seq<Message>) | Pop(c: ChannelId) | Clear

  /** The buffers, with the history of what was kept, reported as dropped, and popped. */
  datatype Trace = Trace(bufs: Buffers, arrived: seq<Message>, kept: seq<Message>, dropped: seq<Message>,
                         popped: seq<Message>)

  const EMPTY := Trace([], [], [], [], [])

  function PopFront(t: Trace, c: ChannelId): Trace {
    if Buffer(t.bufs, c) == [] then t
    else t.(bufs := t.bufs[c := t.bufs[c][1..]], popped := t.popped + [Message(c, t.bufs[c][0])])
  }

  function Perform(cfg: Config, t: Trace, op: Op): Trace {
    match op
    case Arrive(ms) =>
      var o := Dispatch(cfg, t.bufs, ms);
      t.(bufs := o.bufs, arrived := t.arrived + ms, kept := t.kept + o.kept, dropped := t.dropped + o.dropped)
    case Pop(c) => PopFront(t, c)
    case Clear => t.(bufs := Cleared(t.bufs))
  }

  function PerformAll(cfg: Config, ops: seq<Op>): Trace {
    if ops == [] then EMPTY else Perform(cfg, PerformAll(cfg, ops[..|ops| - 1]), ops[|ops| - 1])
  }

  ghost predicate OnChannelInv(t: Trace, c: nat) {
    && Subsequence(PayloadsOn(t.popped, c) + Buffer(t.bufs, c), PayloadsOn(t.kept, c))
    && Keeps(PayloadsOn(t.kept, c), PayloadsOn(t.dropped, c), PayloadsOn(t.arrived, c))
  }

  /** Per channel, popped and still buffered payloads together never reorder or repeat the kept ones. */
  ghost predicate TraceInv(cfg: Config, t: Trace, cleared: bool) {
    && Bounded(cfg, t.bufs)
    && Subsequence(t.kept, t.arrived)
    && multiset(t.kept) + multiset(t.dropped) == multiset(t.arrived)
    && (forall c: nat :: OnChannelInv(t, c))
    && (!cleared ==> forall c: nat :: PayloadsOn(t.popped, c) + Buffer(t.bufs, c) == PayloadsOn(t.kept, c))
  }

  /** The trace is one of a receiver that these messages have arrived at. */
  ghost predicate Backed(cfg: Config, t: Trace, taken: seq<Message>) {
    t.arrived == taken && TraceInv(cfg, t, true)
  }

  lemma ArriveKeepsTrace(cfg: Config, t: Trace, ms: seq<Message>, cleared: bool)
    requires TraceInv(cfg, t, cleared)
    ensures TraceInv(cfg, Perform(cfg, t, Arrive(ms)), cleared)
  {
    var o, t' := Dispatch(cfg, t.bufs, ms), Perform(cfg, t, Arrive(ms));
    DispatchStaysBounded(cfg, t.bufs, ms);
    KeptInOrder(cfg, t.bufs, ms);
    DispatchConserves(cfg, t.bufs, ms);
    SubsequenceConcat(t.kept, t.arrived, o.kept, ms);
    forall c: nat
      ensures OnChannelInv(t', c)
      ensures !cleared ==> PayloadsOn(t.popped, c) + Buffer(t'.bufs, c) == PayloadsOn(t'.kept, c)
    {
      assert OnChannelInv(t, c);
      ArriveOnChannel(cfg, t, ms, c);
    }
  }

  lemma ArriveOnChannel(cfg: Config, t: Trace, ms: seq<Message>, c: nat)
    requires OnChannelInv(t, c)
    ensures var t' := Perform(cfg, t, Arrive(ms));
            && OnChannelInv(t', c)
            && (PayloadsOn(t.popped, c) + Buffer(t.bufs, c) == PayloadsOn(t.kept, c) ==>
                  PayloadsOn(t'.popped, c) + Buffer(t'.bufs, c) == PayloadsOn(t'.kept, c))
  {
    var o := Dispatch(cfg, t.bufs, ms);
    var more := PayloadsOn(o.kept, c);
    DispatchAppends(cfg, t.bufs, ms, c);
    PayloadsOnAppend(t.arrived, ms, c);
    PayloadsOnAppend(t.kept, o.kept, c);
    PayloadsOnAppend(t.dropped, o.dropped, c);
    ConcatAssociative(PayloadsOn(t.popped, c), Buffer(t.bufs, c), more);
    PrefixIsSubsequence(more, more);
    SubsequenceConcat(PayloadsOn(t.popped, c) + Buffer(t.bufs, c), PayloadsOn(t.kept, c), more, more);
    KeptOnChannel(cfg, t.bufs, ms, c);
    KeepsConcat(PayloadsOn(t.kept, c), PayloadsOn(t.dropped, c), PayloadsOn(t.arrived, c),
                more, PayloadsOn(o.dropped, c), PayloadsOn(ms, c));
  }

  lemma PopMoves(t: Trace, c: ChannelId, d: nat)
    ensures var t' := PopFront(t, c);
            PayloadsOn(t'.popped, d) + Buffer(t'.bufs, d) == PayloadsOn(t.popped, d) + Buffer(t.bufs, d)
  {
    if Buffer(t.bufs, c) != [] {
      var m := Message(c, t.bufs[c][0]);
      PayloadsOnAppend(t.popped, [m], d);
      assert PayloadsOn([m], d) == if d == c then [m.payload] else [];
      if d == c {
        assert t.bufs[c] == [t.bufs[c][0]] + t.bufs[c][1..];
        ConcatAssociative(PayloadsOn(t.popped, d), [m.payload], t.bufs[c][1..]);
      }
    }
  }

  lemma PopKeepsTrace(cfg: Config, t: Trace, c: ChannelId, cleared: bool)
    requires TraceInv(cfg, t, cleared)
    ensures TraceInv(cfg, PopFront(t, c), cleared)
  {
    var t' := PopFront(t, c);
    forall d: nat
      ensures OnChannelInv(t', d)
      ensures PayloadsOn(t'.popped, d) + Buffer(t'.bufs, d) == PayloadsOn(t.popped, d) + Buffer(t.bufs, d)
    {
      assert OnChannelInv(t, d);
      PopMoves(t, c, d);
    }
  }

  lemma ClearKeepsTrace(cfg: Config, t: Trace)
    requires TraceInv(cfg, t, true)
    ensures TraceInv(cfg, t.(bufs := Cleared(t.bufs)), true)
  {
    forall c: nat ensures OnChannelInv(t.(bufs := Cleared(t.bufs)), c) {
      assert OnChannelInv(t, c);
      var p := PayloadsOn(t.popped, c);
      assert p + [] == p;
      PrefixIsSubsequence(p, p + Buffer(t.bufs, c));
      SubsequenceTransitive(p, p + Buffer(t.bufs, c), PayloadsOn(t.kept, c));
    }
  }

  lemma PerformKeepsTrace(cfg: Config, t: Trace, op: Op, cleared: bool)
    requires TraceInv(cfg, t, cleared) && (op.Clear? ==> cleared)
    ensures TraceInv(cfg, Perform(cfg, t, op), cleared)
  {
    match op
    case Arrive(ms) => ArriveKeepsTrace(cfg, t, ms, cleared);
    case Pop(c) => PopKeepsTrace(cfg, t, c, cleared);
    case Clear => ClearKeepsTrace(cfg, t);
  }

  lemma EmptyOnChannel(c: nat)
    ensures OnChannelInv(EMPTY, c) && PayloadsOn([], c) + Buffer([], c) == []
  {
    var none := PayloadsOn([], c);
    assert none == [] && none + Buffer([], c) == [];
    PrefixIsSubsequence(none, none);
  }

  lemma EmptyTrace(cfg: Config)
    ensures TraceInv(cfg, EMPTY, false)
  {
    PrefixIsSubsequence<Message>([], []);
    forall c: nat ensures OnChannelInv(EMPTY, c) && PayloadsOn([], c) + Buffer([], c) == PayloadsOn([], c) {
      EmptyOnChannel(c);
    }
  }

  /**
     Over any sequence of arrivals, pops and clears: what arrived is exactly what was kept plus
     what was reported; per channel, popped then buffered payloads are the kept ones, in order,
     unless a clear has discarded some.
   */
  lemma {:induction false} RunConserves(cfg: Config, ops: seq<Op>)
    ensures TraceInv(cfg, PerformAll(cfg, ops), Clear in ops)
  {
    if ops == [] {
      EmptyTrace(cfg);
    } else {
      var front, op := ops[..|ops| - 1], ops[|ops| - 1];
      RunConserves(cfg, front);
      assert ops == front + [op];
      assert Clear in front ==> Clear in ops;
      PerformKeepsTrace(cfg, PerformAll(cfg, front), op, Clear in ops);
    }
  }

  /** `t` came from `t0`, which was just cleared: on each channel the kept payloads since then are popped or buffered. */
  ghost predicate Since(t0: Trace, t: Trace, c: nat) {
    && PayloadsOn(t0.kept, c) <= PayloadsOn(t.kept, c)
    && PayloadsOn(t.popped, c) + Buffer(t.bufs, c)
       == PayloadsOn(t0.popped, c) + PayloadsOn(t.kept, c)[|PayloadsOn(t0.kept, c)|..]
  }

  lemma ArriveKeepsSince(cfg: Config, t0: Trace, t: Trace, ms: seq<Message>, c: nat)
    requires Since(t0, t, c)
    ensures Since(t0, Perform(cfg, t, Arrive(ms)), c)
  {
    var more := PayloadsOn(Dispatch(cfg, t.bufs, ms).kept, c);
    DispatchAppends(cfg, t.bufs, ms, c);
    PayloadsOnAppend(t.kept, Dispatch(cfg, t.bufs, ms).kept, c);
    ConcatAssociative(PayloadsOn(t.popped, c), Buffer(t.bufs, c), more);
    var n := |PayloadsOn(t0.kept, c)|;
    assert (PayloadsOn(t.kept, c) + more)[n..] == PayloadsOn(t.kept, c)[n..] + more;
    ConcatAssociative(PayloadsOn(t0.popped, c), PayloadsOn(t.kept, c)[n..], more);
  }

  lemma {:induction false} RunKeepsSince(cfg: Config, before: seq<Op>, after: seq<Op>, c: nat)
    requires Clear !in after
    ensures Since(PerformAll(cfg, before + [Clear]), PerformAll(cfg, before + [Clear] + after), c)
    decreases |after|
  {
    var all := before + [Clear] + after;
    var t0 := PerformAll(cfg, before + [Clear]);
    if after == [] {
      assert all == before + [Clear] && all[..|all| - 1] == before;
      assert Buffer(t0.bufs, c) == [] && PayloadsOn(t0.kept, c)[|PayloadsOn(t0.kept, c)|..] == [];
    } else {
      var front, op := after[..|after| - 1], after[|after| - 1];
      var t := PerformAll(cfg, before + [Clear] + front);
      RunKeepsSince(cfg, before, front, c);
      assert all[..|all| - 1] == before + [Clear] + front;
      match op
      case Arrive(ms) => ArriveKeepsSince(cfg, t0, t, ms, c);
      case Pop(d) => PopMoves(t, d, c);
    }
  }

  /**
     A clear forgets: from then on, until the next one, what is popped on a channel and then still
     buffered is exactly what was kept after it, in order, and nothing from before.
   */
  lemma ClearForgets(cfg: Config, before: seq<Op>, after: seq<Op>, c: nat)
    requires Clear !in after
    ensures var t0, t := PerformAll(cfg, before + [Clear]), PerformAll(cfg, before + [Clear] + after);
            var popped, kept := PayloadsOn(t0.popped, c), PayloadsOn(t0.kept, c);
            && popped <= PayloadsOn(t.popped, c) && kept <= PayloadsOn(t.kept, c)
            && PayloadsOn(t.popped, c)[|popped|..] + Buffer(t.bufs, c) == PayloadsOn(t.kept, c)[|kept|..]
  {
    var t0, t := PerformAll(cfg, before + [Clear]), PerformAll(cfg, before + [Clear] + after);
    RunKeepsSince(cfg, before, after, c);
    PoppedGrows(cfg, before + [Clear], after, c);
    var p0, p, b := PayloadsOn(t0.popped, c), PayloadsOn(t.popped, c), Buffer(t.bufs, c);
    assert p == p0 + p[|p0|..];
    ConcatAssociative(p0, p[|p0|..], b);
    SplitAt(p0, p[|p0|..] + b);
    SplitAt(p0, PayloadsOn(t.kept, c)[|PayloadsOn(t0.kept, c)|..]);
  }

  lemma {:induction false} PoppedGrows(cfg: Config, before: seq<Op>, after: seq<Op>, c: nat)
    ensures PayloadsOn(PerformAll(cfg, before).popped, c) <= PayloadsOn(PerformAll(cfg, before + after).popped, c)
    decreases |after|
  {
    if after == [] {
      assert before + after == before;
    } else {
      var front, op := after[..|after| - 1], after[|after| - 1];
      var t := PerformAll(cfg, before + front);
      PoppedGrows(cfg, before, front, c);
      assert (before + after)[..|before + after| - 1] == before + front;
      if op.Pop? && Buffer(t.bufs, op.c) != [] {
        PayloadsOnAppend(t.popped, [Message(op.c, t.bufs[op.c][0])], c);
      }
    }
  }
}

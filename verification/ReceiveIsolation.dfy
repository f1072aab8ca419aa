/** Exactly when the traffic on other channels makes no difference to what is received on one. */
module ReceiveIsolation {
  import opened Base
  import opened RecvChannels

  function Only(ms: seq<Message>, c: nat): seq<Message>
    decreases |ms|
  {
    if ms == [] then []
    else
      var front, m := Only(ms[..|ms| - 1], c), ms[|ms| - 1];
      if m.channel == c then front + [m] else front
  }

  lemma {:induction false} PayloadsOnOnly(ms: seq<Message>, c: nat)
    ensures PayloadsOn(Only(ms, c), c) == PayloadsOn(ms, c)
    decreases |ms|
  {
    if ms != [] {
      PayloadsOnOnly(ms[..|ms| - 1], c);
      PayloadsOnFront(ms, c);
      PayloadsOnLast(Only(ms[..|ms| - 1], c), ms[|ms| - 1], c);
    }
  }

  /** What is left for channel `c`: its own arrivals, its own pops, and all clears. */
  function OnlyOps(ops: seq<Op>, c: ChannelId): seq<Op>
    decreases |ops|
  {
    if ops == [] then []
    else
      var front := OnlyOps(ops[..|ops| - 1], c);
      match ops[|ops| - 1]
      case Arrive(ms) => front + [Arrive(Only(ms, c))]
      case Pop(d) => if d == c then front + [Pop(c)] else front
      case Clear => front + [Clear]
  }

  /** Channel `c` looks the same: what was popped from it, and what can still be popped. */
  ghost predicate SameOn(t: Trace, u: Trace, c: ChannelId) {
    Buffer(t.bufs, c) == Buffer(u.bufs, c) && PayloadsOn(t.popped, c) == PayloadsOn(u.popped, c)
  }

  /** In every run, a channel fares as if the others did not exist. */
  ghost predicate Isolated(cfg: Config) {
    forall ops: seq<Op>, c: ChannelId :: SameOn(PerformAll(cfg, ops), PerformAll(cfg, OnlyOps(ops, c)), c)
  }

  // ---- Channels are isolated ----------------------------------------------

  /** Enough of the two runs for the next operation: with room for nothing, the only buffer there can be. */
  ghost predicate Alike(cfg: Config, t: Trace, u: Trace, c: ChannelId) {
    && Bounded(cfg, t.bufs) && Bounded(cfg, u.bufs) && SameOn(t, u, c)
    && (cfg.maxBuffered == 0 && c == 0 ==> t.bufs == u.bufs)
  }

  lemma PerformStaysBounded(cfg: Config, t: Trace, op: Op)
    requires Bounded(cfg, t.bufs)
    ensures Bounded(cfg, Perform(cfg, t, op).bufs)
  {
    if op.Arrive? {
      DispatchStaysBounded(cfg, t.bufs, op.ms);
    }
  }

  /** With at most one channel, no other leaves a trace. */
  lemma {:induction false} OnlyZeroMatters(cfg: Config, bufs: Buffers, ms: seq<Message>)
    requires Bounded(cfg, bufs) && cfg.maxChannels <= 1
    ensures Dispatch(cfg, bufs, ms).bufs == Dispatch(cfg, bufs, Only(ms, 0)).bufs
    decreases |ms|
  {
    if ms != [] {
      var front, m := ms[..|ms| - 1], ms[|ms| - 1];
      OnlyZeroMatters(cfg, bufs, front);
      DispatchStaysBounded(cfg, bufs, front);
      if m.channel == 0 {
        DispatchLast(cfg, bufs, Only(front, 0), m);
      } else {
        OthersAreDropped(cfg, Dispatch(cfg, bufs, front).bufs, m.channel);
      }
    }
  }

  lemma OthersAreDropped(cfg: Config, bufs: Buffers, c: nat)
    requires Bounded(cfg, bufs) && cfg.maxChannels <= 1 && c > 0
    ensures !Accepts(cfg, bufs, c)
  {
  }

  lemma ArriveAlike(cfg: Config, t: Trace, u: Trace, ms: seq<Message>, c: ChannelId)
    requires Alike(cfg, t, u, c) && (cfg.maxBuffered >= 1 || cfg.maxChannels <= 1)
    ensures Alike(cfg, Perform(cfg, t, Arrive(ms)), Perform(cfg, u, Arrive(Only(ms, c))), c)
  {
    PerformStaysBounded(cfg, t, Arrive(ms));
    PerformStaysBounded(cfg, u, Arrive(Only(ms, c)));
    if cfg.maxBuffered >= 1 {
      PayloadsOnOnly(ms, c);
      DispatchIsFifo(cfg, t.bufs, ms, c);
      DispatchIsFifo(cfg, u.bufs, Only(ms, c), c);
    } else if c == 0 {
      OnlyZeroMatters(cfg, t.bufs, ms);
    }
  }

  lemma PopAlike(cfg: Config, t: Trace, u: Trace, c: ChannelId)
    requires Alike(cfg, t, u, c)
    ensures Alike(cfg, PopFront(t, c), PopFront(u, c), c)
  {
    if Buffer(t.bufs, c) != [] {
      var m := Message(c, t.bufs[c][0]);
      PayloadsOnLast(t.popped, m, c);
      PayloadsOnLast(u.popped, m, c);
    }
  }

  /** A pop on another channel changes nothing on this one. */
  lemma PopElsewhere(cfg: Config, t: Trace, u: Trace, d: ChannelId, c: ChannelId)
    requires Alike(cfg, t, u, c) && d != c && (cfg.maxBuffered >= 1 || cfg.maxChannels <= 1)
    ensures Alike(cfg, PopFront(t, d), u, c)
  {
    if Buffer(t.bufs, d) != [] {
      PayloadsOnLast(t.popped, Message(d, t.bufs[d][0]), c);
    }
  }

  lemma {:induction false} RunsAlike(cfg: Config, ops: seq<Op>, c: ChannelId)
    requires cfg.maxBuffered >= 1 || cfg.maxChannels <= 1
    ensures Alike(cfg, PerformAll(cfg, ops), PerformAll(cfg, OnlyOps(ops, c)), c)
    decreases |ops|
  {
    if ops != [] {
      var front, op := ops[..|ops| - 1], ops[|ops| - 1];
      var t, rest := PerformAll(cfg, front), OnlyOps(front, c);
      var u := PerformAll(cfg, rest);
      RunsAlike(cfg, front, c);
      match op
      case Arrive(ms) =>
        ArriveAlike(cfg, t, u, ms, c);
        PerformLast(cfg, rest, Arrive(Only(ms, c)));
      case Pop(d) =>
        if d == c {
          PopAlike(cfg, t, u, c);
          PerformLast(cfg, rest, Pop(c));
        } else {
          PopElsewhere(cfg, t, u, d, c);
        }
      case Clear => PerformLast(cfg, rest, Clear);
    }
  }

  lemma PerformLast(cfg: Config, ops: seq<Op>, op: Op)
    ensures PerformAll(cfg, ops + [op]) == Perform(cfg, PerformAll(cfg, ops), op)
  {
    assert (ops + [op])[..|ops|] == ops;
  }

  // ---- Channels are not isolated ------------------------------------------

  lemma FirstArrival(cfg: Config, ms: seq<Message>)
    ensures PerformAll(cfg, [Arrive(ms)]).bufs == Dispatch(cfg, [], ms).bufs
  {
    PerformLast(cfg, [], Arrive(ms));
    assert [] + [Arrive(ms)] == [Arrive(ms)];
  }

  lemma OneDispatched(cfg: Config, m: Message)
    requires m.channel < cfg.maxChannels
    ensures Dispatch(cfg, [], [m]).bufs == Push([], m)
  {
    DispatchLast(cfg, [], [], m);
    assert [] + [m] == [m];
  }

  /** A payload on channel 1 first leaves no room on channel 0, where it would have been the first. */
  lemma HigherChannelFirst(cfg: Config, high: Message, low: Message)
    requires cfg.maxBuffered == 0 && cfg.maxChannels >= 2 && high.channel == 1 && low.channel == 0
    ensures Buffer(Dispatch(cfg, [], [high] + [low]).bufs, 0) == []
    ensures Buffer(Dispatch(cfg, [], [low]).bufs, 0) == [low.payload]
  {
    OneDispatched(cfg, high);
    OneDispatched(cfg, low);
    DispatchLast(cfg, [], [high], low);
    PushIsAppend([], high, 0);
    PushIsAppend([], low, 0);
  }

  lemma OnlyLow(high: Message, low: Message)
    requires high.channel == 1 && low.channel == 0
    ensures Only([high] + [low], 0) == [low]
  {
    var ms := [high] + [low];
    assert ms[..1] == [high] && [high][..0] == [];
    assert Only([high], 0) == [];
    assert [] + [low] == [low];
  }

  lemma OnlyFirstArrival(ms: seq<Message>, c: ChannelId)
    ensures OnlyOps([Arrive(ms)], c) == [Arrive(Only(ms, c))]
  {
    assert [Arrive(ms)][..0] == [];
    assert [] + [Arrive(Only(ms, c))] == [Arrive(Only(ms, c))];
  }

  lemma TellsApart(cfg: Config, ms: seq<Message>, c: ChannelId)
    requires Buffer(Dispatch(cfg, [], ms).bufs, c) != Buffer(Dispatch(cfg, [], Only(ms, c)).bufs, c)
    ensures !Isolated(cfg)
  {
    OnlyFirstArrival(ms, c);
    FirstArrival(cfg, ms);
    FirstArrival(cfg, Only(ms, c));
    assert !SameOn(PerformAll(cfg, [Arrive(ms)]), PerformAll(cfg, OnlyOps([Arrive(ms)], c)), c);
  }

  lemma NotIsolated(cfg: Config)
    requires cfg.maxBuffered == 0 && cfg.maxChannels >= 2
    ensures !Isolated(cfg)
  {
    var high, low := Message(1, [7]), Message(0, [7]);
    HigherChannelFirst(cfg, high, low);
    OnlyLow(high, low);
    TellsApart(cfg, [high] + [low], 0);
  }

  /**
     Channels are isolated from each other, over all runs of arrivals, pops and clears, if and only if
     buffers hold at least one payload, or there is at most one channel. With a configured size of 0 a
     channel still accepts its first payload, but not if a higher channel was heard of before: that
     one's arrival creates the buffers below it, and a buffer that exists is full.
   */
  lemma IsolationExactly(cfg: Config)
    ensures Isolated(cfg) <==> cfg.maxBuffered >= 1 || cfg.maxChannels <= 1
  {
    if cfg.maxBuffered >= 1 || cfg.maxChannels <= 1 {
      forall ops: seq<Op>, c: ChannelId
        ensures SameOn(PerformAll(cfg, ops), PerformAll(cfg, OnlyOps(ops, c)), c)
      {
        RunsAlike(cfg, ops, c);
      }
    } else {
      NotIsolated(cfg);
    }
  }
}

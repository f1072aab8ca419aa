/**
 The ordered send task as the code that runs: a send loop that `select!` may cancel at any await,
 and the drain, flush and finish that follow a local close. Everything it does keeps the balance
 of bytes of the step relation: stream, writer buffer and queue together are what was accepted.
 */
module OrderedTask {
  import opened Base
  import opened SendTask

  datatype Outcome = Sent | Failed | Cancelled

  /** A framed writer over a send stream. On a `reliable` stream no write fails. */
  class FrameSender {
    const codec: ItemCodec
    const reliable: bool
    var stream: seq<Byte>
    var buffer: seq<Byte>
    var broken: bool

    ghost function View(): Writer
      reads this
    {
      Writer(stream, buffer, broken)
    }

    ghost predicate Sound()
      reads this
    {
      reliable ==> !broken
    }

    constructor (codec: ItemCodec, reliable: bool)
      ensures this.codec == codec && this.reliable == reliable && View() == NEW_WRITER
    {
      this.codec, this.reliable := codec, reliable;
      stream, buffer, broken := [], [], false;
    }

    /** One write: it takes some of the buffered bytes, or fails, as all writes after it do. */
    method WriteSome() returns (ok: bool)
      requires buffer != [] && Sound()
      modifies this
      ensures Sound()
      ensures ok ==> !old(broken) && exists n :: 1 <= n <= |old(buffer)| && View() == AfterWrite(old(View()), n)
      ensures !ok ==> View() == old(View()).(broken := true)
    {
      if broken {
        return false;
      }
      if !reliable {
        if * {
          broken := true;
          return false;
        }
      }
      var n :| 1 <= n <= |buffer|;
      stream, buffer := stream + buffer[..n], buffer[n..];
      assert View() == AfterWrite(old(View()), n);
      return true;
    }

    /** Writes the whole buffer; every write is an await at which a cancellable caller may be dropped. */
    method Flush(cancellable: bool, ghost inHand: seq<Byte>, ghost queue: seq<Payload>, ghost accepted: seq<Payload>)
      returns (r: Outcome)
      requires Conserved(codec, View(), inHand, queue, accepted) && Sound()
      modifies this
      ensures Conserved(codec, View(), inHand, queue, accepted) && Sound()
      ensures r.Sent? ==> buffer == []
      ensures r.Failed? ==> broken
      ensures !r.Failed? ==> broken == old(broken)
      ensures r.Cancelled? ==> cancellable
      ensures old(broken) ==> broken
    {
      while buffer != []
        invariant Conserved(codec, View(), inHand, queue, accepted) && broken == old(broken) && Sound()
        decreases |buffer|
      {
        if cancellable {
          if * {
            return Cancelled;
          }
        }
        ghost var before := View();
        var ok := WriteSome();
        if !ok {
          return Failed;
        }
        ghost var n :| 1 <= n <= |before.buf| && View() == AfterWrite(before, n);
        ConservedWrite(codec, before, n, inHand, queue, accepted);
      }
      return Sent;
    }

    /**
       Sends one payload. It is in nobody's hands but this method's until it is encoded, and it must
       not be dropped there: a cancellable send needs an empty buffer, or a broken stream.
     */
    method Send(payload: Payload, cancellable: bool, ghost queue: seq<Payload>, ghost accepted: seq<Payload>)
      returns (r: Outcome)
      requires Conserved(codec, View(), Coded(codec, payload), queue, accepted)
      requires Sound() && (cancellable && !broken ==> buffer == [])
      modifies this
      ensures Conserved(codec, View(), [], queue, accepted) && Sound()
      ensures r.Sent? ==> codec(payload).Some? && buffer == [] && broken == old(broken)
      ensures r.Failed? ==> broken || (codec(payload).None? && (old(buffer) == [] ==> buffer == []))
      ensures r.Cancelled? ==> cancellable && broken == old(broken)
      ensures old(broken) ==> broken
    {
      if |buffer| >= BACKPRESSURE_BOUNDARY {
        r := Flush(cancellable, Coded(codec, payload), queue, accepted);
        if !r.Sent? {
          return;
        }
      }
      ConservedEncode(codec, View(), Coded(codec, payload), queue, accepted);
      match codec(payload) {
        case None =>
          assert buffer + [] == buffer;
          return Failed;
        case Some(bytes) =>
          buffer := buffer + bytes;
          r := Flush(cancellable, [], queue, accepted);
      }
    }
  }

  /** How many of the payloads the encoder refuses. */
  function Refused(codec: ItemCodec, ps: seq<Payload>): nat {
    if ps == [] then 0
    else Refused(codec, ps[..|ps| - 1]) + (if codec(ps[|ps| - 1]).None? then 1 else 0)
  }

  lemma RefusedNext(codec: ItemCodec, ps: seq<Payload>, p: Payload)
    ensures Refused(codec, ps + [p]) == Refused(codec, ps) + (if codec(p).None? then 1 else 0)
  {
    assert (ps + [p])[..|ps|] == ps;
  }

  lemma {:induction false} FlattenNext<T>(parts: seq<seq<T>>, part: seq<T>)
    ensures Flatten(parts + [part]) == Flatten(parts) + part
  {
    if parts == [] {
      assert parts + [part] == [part] && [part][1..] == [];
      assert part + [] == part;
    } else {
      assert (parts + [part])[1..] == parts[1..] + [part];
      FlattenNext(parts[1..], part);
      ConcatAssociative(parts[0], Flatten(parts[1..]), part);
    }
  }

  /** All but what is left was written. */
  lemma WrittenBut(codec: ItemCodec, w: Writer, queue: seq<Payload>, accepted: seq<Payload>, n: nat)
    requires Conserved(codec, w, [], queue, accepted) && !w.broken && w.buf == []
    requires n <= |accepted| && queue == accepted[n..]
    ensures w.stream == Wire(codec, accepted[..n])
  {
    assert accepted == accepted[..n] + accepted[n..];
    WireAppend(codec, accepted[..n], accepted[n..]);
    assert w.stream + [] + [] == w.stream;
    SplitAt(w.stream, Wire(codec, queue));
    SplitAt(Wire(codec, accepted[..n]), Wire(codec, queue));
    WireLengths(w.stream, Wire(codec, accepted[..n]), Wire(codec, queue));
  }

  lemma WireLengths(a: seq<Byte>, b: seq<Byte>, c: seq<Byte>)
    requires a + c == b + c
    ensures a == b
  {
    assert |a| == |b|;
    assert a == (a + c)[..|a|];
    assert b == (b + c)[..|b|];
  }

  /** Round `k` takes one payload off the queue, if it finds any. */
  ghost predicate TakesOne(queued: nat, arrivals: seq<seq<Payload>>, taken: seq<nat>, k: nat)
    requires k < |arrivals| && k + 1 < |taken|
  {
    taken[k + 1] == taken[k] + (if queued + |Flatten(arrivals[..k + 1])| > taken[k] then 1 else 0)
  }

  /** `taken[k]` payloads were taken in the first `k` rounds: one in each that found any. */
  ghost predicate Takes(queued: nat, arrivals: seq<seq<Payload>>, n: nat, taken: seq<nat>) {
    && n <= |arrivals| && |taken| == n + 1 && taken[0] == 0
    && (forall k :: 0 <= k < n ==> TakesOne(queued, arrivals, taken, k))
    && taken[n] <= queued + |Flatten(arrivals[..n])|
  }

  lemma TakesNext(queued: nat, arrivals: seq<seq<Payload>>, n: nat, taken: seq<nat>)
    requires Takes(queued, arrivals, n, taken) && n < |arrivals|
    ensures Flatten(arrivals[..n + 1]) == Flatten(arrivals[..n]) + arrivals[n]
    ensures var more := if queued + |Flatten(arrivals[..n + 1])| > taken[n] then 1 else 0;
            Takes(queued, arrivals, n + 1, taken + [taken[n] + more])
  {
    var more := if queued + |Flatten(arrivals[..n + 1])| > taken[n] then 1 else 0;
    assert arrivals[..n + 1] == arrivals[..n] + [arrivals[n]];
    FlattenNext(arrivals[..n], arrivals[n]);
    var taken' := taken + [taken[n] + more];
    forall k | 0 <= k < n ensures TakesOne(queued, arrivals, taken', k) {
      assert TakesOne(queued, arrivals, taken, k);
    }
  }

  /** What is left, and how many were refused, after one more round. */
  lemma RoundNext(codec: ItemCodec, before: seq<Payload>, more: seq<Payload>, took: nat)
    requires took <= |before|
    ensures var all := before + more;
            && before[took..] + more == all[took..] && before[..took] == all[..took]
            && (|all| > took ==>
                  && all[took..] != [] && all[took..][0] == all[took] && all[took..][1..] == all[took + 1..]
                  && Refused(codec, all[..took + 1]) == Refused(codec, before[..took]) + (if codec(all[took]).None? then 1 else 0))
            && (|all| <= took ==> all[took..] == [])
  {
    var all := before + more;
    if |all| > took {
      assert all[..took + 1] == all[..took] + [all[took]];
      assert all[..took] == before[..took];
      RefusedNext(codec, all[..took], all[took]);
    }
  }

  /** One more round: what it finds, what it leaves, and whether it finds a payload that is refused. */
  lemma RoundEnds(codec: ItemCodec, queue: seq<Payload>, arrivals: seq<seq<Payload>>, i: nat, taken: seq<nat>)
    returns (taken': seq<nat>)
    requires Takes(|queue|, arrivals, i, taken) && i < |arrivals|
    ensures Takes(|queue|, arrivals, i + 1, taken') && Flatten(arrivals[..i + 1]) == Flatten(arrivals[..i]) + arrivals[i]
    ensures var all, all' := queue + Flatten(arrivals[..i]), queue + Flatten(arrivals[..i + 1]);
            var found := all[taken[i]..] + arrivals[i];
            && all'[taken'[i + 1]..] == (if found == [] then [] else found[1..])
            && Refused(codec, all'[..taken'[i + 1]])
               == Refused(codec, all[..taken[i]]) + (if found != [] && codec(found[0]).None? then 1 else 0)
  {
    var all := queue + Flatten(arrivals[..i]);
    TakesNext(|queue|, arrivals, i, taken);
    RoundNext(codec, all, arrivals[i], taken[i]);
    ConcatAssociative(queue, Flatten(arrivals[..i]), arrivals[i]);
    taken' := taken + [taken[i] + (if |all + arrivals[i]| > taken[i] then 1 else 0)];
  }

  /**
     The task of one ordered channel. Between any two steps the application may have more payloads
     accepted, as long as it holds the channel; `accepted` is their history.
   */
  class Task {
    const sender: FrameSender
    var bytesRecv: seq<Payload>
    var lostReports: nat
    ghost var accepted: seq<Payload>

    ghost predicate Balanced()
      reads this, sender
    {
      && sender.Sound() && Conserved(sender.codec, sender.View(), [], bytesRecv, accepted)
      && |bytesRecv| <= |accepted| && bytesRecv == accepted[|accepted| - |bytesRecv|..]
    }

    constructor (codec: ItemCodec, reliable: bool)
      ensures Balanced() && fresh(sender) && sender.codec == codec && sender.reliable == reliable
      ensures sender.View() == NEW_WRITER && bytesRecv == [] && accepted == [] && lostReports == 0
    {
      sender := new FrameSender(codec, reliable);
      bytesRecv := [];
      lostReports := 0;
      accepted := [];
    }

    /** The application's `try_send` succeeds for some payloads. */
    method AcceptMore(more: seq<Payload>)
      requires Balanced()
      modifies this`bytesRecv, this`accepted
      ensures Balanced() && bytesRecv == old(bytesRecv) + more && accepted == old(accepted) + more
    {
      var i := 0;
      while i < |more|
        invariant 0 <= i <= |more| && Balanced()
        invariant bytesRecv == old(bytesRecv) + more[..i] && accepted == old(accepted) + more[..i]
      {
        ConservedAccept(sender.codec, sender.View(), [], bytesRecv, accepted, more[i]);
        bytesRecv, accepted := bytesRecv + [more[i]], accepted + [more[i]];
        assert more[..i + 1] == more[..i] + [more[i]];
        i := i + 1;
      }
      assert more[..i] == more;
    }

    /** Takes the first payload off the queue and sends it. */
    method SendNext(cancellable: bool) returns (r: Outcome)
      requires Balanced() && bytesRecv != [] && (cancellable && !sender.broken ==> sender.buffer == [])
      modifies this`bytesRecv, sender
      ensures Balanced() && bytesRecv == old(bytesRecv)[1..]
      ensures r.Sent? ==> sender.buffer == [] && sender.codec(old(bytesRecv)[0]).Some? && sender.broken == old(sender.broken)
      ensures r.Failed? && !sender.broken ==>
                sender.codec(old(bytesRecv)[0]).None? && (old(sender.buffer) == [] ==> sender.buffer == [])
      ensures r.Cancelled? ==> cancellable && sender.broken == old(sender.broken)
      ensures old(sender.broken) ==> sender.broken
    {
      ConservedPop(sender.codec, sender.View(), bytesRecv, accepted);
      var payload := bytesRecv[0];
      bytesRecv := bytesRecv[1..];
      r := sender.Send(payload, cancellable, bytesRecv, accepted);
    }

    /**
       One round of the send loop: it takes the first payload, if there is one, sends it, and reports a
       failure. A close signal may cancel it while it flushes or reports.
     */
    method Round(cancellable: bool) returns (cancelled: bool)
      requires Balanced() && (!sender.broken ==> sender.buffer == [])
      modifies this`bytesRecv, this`lostReports, sender
      ensures Balanced() && (!cancelled && !sender.broken ==> sender.buffer == [])
      ensures cancelled ==> cancellable
      ensures bytesRecv == if old(bytesRecv) == [] then [] else old(bytesRecv)[1..]
      ensures old(sender.broken) ==> sender.broken
      ensures old(bytesRecv) == [] ==> !cancelled && lostReports == old(lostReports) && sender.View() == old(sender.View())
      ensures old(bytesRecv) != [] && !cancelled && !sender.broken ==>
                lostReports == old(lostReports) + (if sender.codec(old(bytesRecv)[0]).None? then 1 else 0)
      ensures !cancelled && sender.broken && !old(sender.broken) ==> lostReports == old(lostReports) + 1
      ensures old(lostReports) <= lostReports
    {
      cancelled := false;
      if bytesRecv != [] {
        var r := SendNext(cancellable);
        if r.Cancelled? {
          return true;
        }
        if r.Failed? {
          if cancellable {
            if * {
              return true;
            }
          }
          lostReports := lostReports + 1;
        }
      }
    }

    /** What the first `n` rounds have accepted and taken off the queue, which was `queue` before. */
    ghost predicate AfterRounds(queue: seq<Payload>, history: seq<Payload>, arrivals: seq<seq<Payload>>, n: nat, taken: seq<nat>)
      reads this`accepted, this`bytesRecv
    {
      && Takes(|queue|, arrivals, n, taken)
      && accepted == history + Flatten(arrivals[..n])
      && bytesRecv == (queue + Flatten(arrivals[..n]))[taken[n]..]
    }

    /** How many of the payloads taken in the first `n` rounds the encoder refuses. */
    ghost function RefusedOf(queue: seq<Payload>, arrivals: seq<seq<Payload>>, n: nat, taken: seq<nat>): nat
      requires Takes(|queue|, arrivals, n, taken)
    {
      Refused(sender.codec, (queue + Flatten(arrivals[..n]))[..taken[n]])
    }

    method NextRound(arrivals: seq<seq<Payload>>, i: nat, cancellable: bool,
                     ghost queue: seq<Payload>, ghost history: seq<Payload>, ghost reports: nat, ghost taken: seq<nat>)
      returns (cancelled: bool, ghost taken': seq<nat>)
      requires Balanced() && (!sender.broken ==> sender.buffer == [])
      requires i < |arrivals| && AfterRounds(queue, history, arrivals, i, taken)
      requires !sender.broken ==> lostReports == reports + RefusedOf(queue, arrivals, i, taken)
      modifies this, sender
      ensures Balanced() && (cancelled ==> cancellable) && AfterRounds(queue, history, arrivals, i + 1, taken')
      ensures !cancelled && !sender.broken ==>
                sender.buffer == [] && lostReports == reports + RefusedOf(queue, arrivals, i + 1, taken')
    {
      taken' := RoundEnds(sender.codec, queue, arrivals, i, taken);
      ConcatAssociative(history, Flatten(arrivals[..i]), arrivals[i]);
      AcceptMore(arrivals[i]);
      cancelled := Round(cancellable);
    }

    /**
       The send loop, which a close signal may cancel: while it waits for a payload, in the middle of a
       flush, or while it reports a failure. `arrivals` is what gets accepted before each round, `n` the
       number of rounds, and `taken[k]` how many payloads the first `k` rounds took off the queue: one
       in each round that found any.
     */
    method SendLoop(arrivals: seq<seq<Payload>>, cancellable: bool)
      returns (cancelled: bool, ghost n: nat, ghost taken: seq<nat>)
      requires Balanced() && (!sender.broken ==> sender.buffer == [])
      modifies this, sender
      ensures Balanced() && (cancelled ==> cancellable) && n <= |arrivals|
      ensures (arrivals != [] ==> n > 0) && (!cancelled ==> n == |arrivals|)
      ensures accepted == old(accepted) + Flatten(arrivals[..n])
      ensures Takes(|old(bytesRecv)|, arrivals, n, taken)
              && bytesRecv == (old(bytesRecv) + Flatten(arrivals[..n]))[taken[n]..]
      ensures !cancelled && !sender.broken ==>
                sender.buffer == [] && sender.stream == Wire(sender.codec, accepted[..|accepted| - |bytesRecv|])
      ensures !cancelled && !sender.broken ==>
                lostReports == old(lostReports)
                               + Refused(sender.codec, (old(bytesRecv) + Flatten(arrivals[..n]))[..taken[n]])
    {
      n, taken, cancelled := 0, [0], false;
      ghost var queue, history, reports := bytesRecv, accepted, lostReports;
      assert accepted + [] == accepted && queue + [] == queue;
      var i := 0;
      while !cancelled && i < |arrivals|
        invariant i <= |arrivals| && (i == 0 ==> !cancelled) && (cancelled ==> cancellable)
        invariant Balanced() && AfterRounds(queue, history, arrivals, i, taken)
        invariant !cancelled && !sender.broken ==>
                    sender.buffer == [] && lostReports == reports + RefusedOf(queue, arrivals, i, taken)
        decreases |arrivals| - i
      {
        cancelled, taken := NextRound(arrivals, i, cancellable, queue, history, reports, taken);
        i := i + 1;
      }
      n := i;
      if !cancelled && !sender.broken {
        WrittenBut(sender.codec, sender.View(), bytesRecv, accepted, |accepted| - |bytesRecv|);
      }
    }

    /** What follows a local close: the queue is drained, whatever fails, then the buffer is flushed. */
    method DrainAndFlush() returns (r: Outcome)
      requires Balanced()
      modifies this`bytesRecv, sender
      ensures bytesRecv == [] && Balanced() && !r.Cancelled?
      ensures r.Failed? ==> sender.broken
      ensures r.Sent? ==> sender.buffer == []
      ensures old(sender.broken) ==> sender.broken
    {
      while bytesRecv != []
        invariant Balanced() && (old(sender.broken) ==> sender.broken)
        decreases |bytesRecv|
      {
        var _ := SendNext(false);
      }
      r := sender.Flush(false, [], bytesRecv, accepted);
    }

    /**
       The whole task, closed after any number of payloads and at any await of its send loop. If the
       close is local, nothing is accepted after it and no write fails, the stream ends up as the
       frames of all accepted payloads, each once and in order, and nothing else. If the peer has
       closed, what is still queued stays there.
     */
    method Run(arrivals: seq<seq<Payload>>, cancellable: bool, reason: CloseReason) returns (cancelled: bool, ghost n: nat)
      requires Balanced() && sender.buffer == []
      modifies this, sender
      ensures sender.Sound() && (cancelled ==> cancellable) && n <= |arrivals|
      ensures (arrivals != [] ==> n > 0) && (!cancelled ==> n == |arrivals|)
      ensures accepted == old(accepted) + Flatten(arrivals[..n])
      ensures sender.stream <= Wire(sender.codec, accepted)
      ensures reason.LocalOrder? ==> bytesRecv == []
      ensures reason.LocalOrder? && !sender.broken ==> sender.stream == Wire(sender.codec, accepted) && sender.buffer == []
      ensures reason.PeerClosed? && !cancelled && !sender.broken ==>
                |bytesRecv| <= |accepted| && bytesRecv == accepted[|accepted| - |bytesRecv|..]
                && sender.stream == Wire(sender.codec, accepted[..|accepted| - |bytesRecv|])
    {
      ghost var taken;
      cancelled, n, taken := SendLoop(arrivals, cancellable);
      if reason.LocalOrder? {
        var _ := DrainAndFlush();
        if !sender.broken {
          assert sender.stream + [] + [] + Wire(sender.codec, []) == sender.stream;
        }
      }
    }
  }
}

/**
 Exactly when an ordered channel delivers in order: the encoder writes the length of a frame
 modulo 2^32, so a payload of 2^32 bytes looks like an empty one to the receiver.
 */
module DeliveryOrder {
  import opened Base
  import opened Codec
  import opened SendTask
  import opened RecvChannels
  import opened EndToEnd

  ghost predicate InOrder(u: Setup, l: Link) {
    Subsequence(PayloadsOn(l.rx.popped, u.id), l.chan.accepted)
  }

  ghost predicate Reachable(u: Setup, l: Link) {
    exists events :: After(u, events) == Some(l)
  }

  /** Delivery is in order in every run. */
  ghost predicate AlwaysInOrder(u: Setup) {
    forall l: Link :: Reachable(u, l) ==> InOrder(u, l)
  }

  // ---- A channel that the receiver has no room for -------------------------

  lemma NextKeepsNothing(u: Setup, l: Link, e: Event)
    requires TraceInv(u.cfg, l.rx, true) && Allowed(u, l, e) && u.id >= u.cfg.maxChannels
    requires PayloadsOn(l.rx.kept, u.id) == []
    ensures PayloadsOn(Next(u, l, e).rx.kept, u.id) == []
  {
    if e.DispatchFirst? {
      var arrived := l.incoming[..e.n];
      KeptInRange(u.cfg, l.rx.bufs, arrived);
      PayloadsOnAppend(l.rx.kept, Dispatch(u.cfg, l.rx.bufs, arrived).kept, u.id);
    } else {
      assert Next(u, l, e).rx.kept == l.rx.kept;
    }
  }

  lemma {:induction false} OutOfRangeKeepsNothing(u: Setup, events: seq<Event>)
    requires After(u, events).Some? && u.id >= u.cfg.maxChannels
    ensures PayloadsOn(After(u, events).value.rx.kept, u.id) == []
    decreases |events|
  {
    if events != [] {
      var front, e := events[..|events| - 1], events[|events| - 1];
      OutOfRangeKeepsNothing(u, front);
      RunKeepsTrace(u, front, true);
      NextKeepsNothing(u, After(u, front).value, e);
    }
  }

  lemma OutOfRangeInOrder(u: Setup, events: seq<Event>)
    requires After(u, events).Some? && u.id >= u.cfg.maxChannels
    ensures InOrder(u, After(u, events).value)
  {
    var l := After(u, events).value;
    OutOfRangeKeepsNothing(u, events);
    RunKeepsTrace(u, events, true);
    assert OnChannelInv(l.rx, u.id);
    var popped := PayloadsOn(l.rx.popped, u.id);
    PrefixIsSubsequence(popped, popped + Buffer(l.rx.bufs, u.id));
    SubsequenceTransitive(popped, popped + Buffer(l.rx.bufs, u.id), []);
    PrefixIsSubsequence([], l.chan.accepted);
    SubsequenceTransitive(popped, [], l.chan.accepted);
  }

  // ---- A payload that is too long for the length field --------------------

  ghost function Long(): (p: Payload)
    ensures |p| == FIELD_RANGE
  {
    seq(FIELD_RANGE, i => 0)
  }

  lemma NextIsReachable(u: Setup, l: Link, e: Event)
    requires Reachable(u, l) && Allowed(u, l, e)
    ensures Reachable(u, Next(u, l, e))
  {
    var events :| After(u, events) == Some(l);
    assert (events + [e])[..|events|] == events;
    assert After(u, events + [e]) == Some(Next(u, l, e));
  }

  /** The first five bytes of its frame are a complete frame: length 1, and the channel id. */
  lemma LongFrameStarts(m: Message)
    requires |m.payload| == FIELD_RANGE
    ensures |Frame(m)| >= TOTAL_HEADER_LEN
    ensures forall max: nat :: max >= 1 ==> Parse(max, Head, Frame(m)[..TOTAL_HEADER_LEN]).frames == [[m.channel]]
  {
    var head, part := PutUint(|Body(m)|), Frame(m)[..TOTAL_HEADER_LEN];
    assert |Body(m)| == FIELD_RANGE + 1;
    ReadLength(m);
    assert part == head + [m.channel];
    forall max: nat | max >= 1 ensures Parse(max, Head, part).frames == [[m.channel]] {
      ParseHeaded(max, head, [m.channel]);
      assert [m.channel][..1] == [m.channel] && [m.channel][1..] == [];
    }
  }

  /** Nothing has reached the receiver, and `Long()` is all that was accepted. */
  ghost predicate OnlyLong(u: Setup, l: Link) {
    && l.received == 0 && l.reader == FRESH && l.pushed == 0 && !l.stopped && l.incoming == [] && l.rx == EMPTY
    && l.chan.kind.Ordered? && l.chan.codec == FrameCodec(u.id, u.encoderMax) && l.chan.accepted == [Long()]
  }

  lemma LongIsPopped(u: Setup) returns (l: Link)
    ensures Reachable(u, l) && OnlyLong(u, l)
    ensures l.chan.phase == Looping(AwaitReady(Long())) && l.chan.writer == NEW_WRITER
  {
    var l0 := Start(u);
    assert After(u, []) == Some(l0);
    NextIsReachable(u, l0, SpawnTask);
    var l1 := Next(u, l0, SpawnTask);
    NextIsReachable(u, l1, Task(OpenStream));
    var l2 := Next(u, l1, Task(OpenStream));
    NextIsReachable(u, l2, Send(Long()));
    var l3 := Next(u, l2, Send(Long()));
    assert l3.chan.queue == [Long()] == l3.chan.accepted;
    NextIsReachable(u, l3, Task(SendTask.Step.Pop(false)));
    l := Next(u, l3, Task(SendTask.Step.Pop(false)));
  }

  lemma LongIsBegun(u: Setup, l: Link) returns (l': Link)
    requires u.encoderMax >= FIELD_RANGE && Reachable(u, l) && OnlyLong(u, l)
    requires l.chan.phase == Looping(AwaitReady(Long())) && l.chan.writer == NEW_WRITER
    ensures Reachable(u, l') && OnlyLong(u, l')
    ensures l'.chan.writer.stream == Frame(Message(u.id, Long()))[..TOTAL_HEADER_LEN]
  {
    LongFrameStarts(Message(u.id, Long()));
    NextIsReachable(u, l, Task(Ready));
    var l1 := Next(u, l, Task(Ready));
    assert l1.chan.writer.buf == Frame(Message(u.id, Long()));
    NextIsReachable(u, l1, Task(Write(TOTAL_HEADER_LEN)));
    l' := Next(u, l1, Task(Write(TOTAL_HEADER_LEN)));
  }

  /**
     The sender accepts the payload and writes the first five bytes of its frame, the receiver takes
     them for a frame of its own, and the application pops an empty payload nobody has sent.
   */
  lemma LongPayloadIsMistaken(u: Setup)
    requires u.encoderMax >= FIELD_RANGE && u.decoderMax >= 1 && u.id < u.cfg.maxChannels
    ensures exists l: Link :: Reachable(u, l) && !InOrder(u, l)
  {
    var l := LongIsPopped(u);
    l := LongIsBegun(u, l);
    LongFrameStarts(Message(u.id, Long()));
    var chunk := l.chan.writer.stream;
    NextIsReachable(u, l, Deliver(TOTAL_HEADER_LEN));
    assert chunk[0..TOTAL_HEADER_LEN] == chunk && [] + chunk == chunk;
    ReceivesWrongPayload(u, Next(u, l, Deliver(TOTAL_HEADER_LEN)));
  }

  lemma DispatchesEmpty(cfg: Config, id: ChannelId)
    requires id < cfg.maxChannels
    ensures var m := Message(id, []);
            Dispatch(cfg, [], [m]) == Outcome(Push([], m), [m], [], []) && Buffer(Push([], m), id) == [[]]
  {
    var m := Message(id, []);
    DispatchLast(cfg, [], [], m);
    assert [] + [m] == [m];
    PushIsAppend([], m, id);
  }

  lemma ReceivesWrongPayload(u: Setup, l: Link)
    requires Reachable(u, l) && u.id < u.cfg.maxChannels
    requires l.reader.frames == [[u.id]] && l.pushed == 0 && !l.stopped && l.incoming == [] && l.rx == EMPTY
    requires l.chan.accepted == [Long()]
    ensures exists l': Link :: Reachable(u, l') && !InOrder(u, l')
  {
    var m := Message(u.id, []);
    NextIsReachable(u, l, PushFrame);
    var l1 := Next(u, l, PushFrame);
    assert l1.incoming == [m];
    NextIsReachable(u, l1, DispatchFirst(1));
    var l2 := Next(u, l1, DispatchFirst(1));
    assert l1.incoming[..1] == [m];
    DispatchesEmpty(u.cfg, u.id);
    assert l2.rx.bufs == Push([], m);
    NextIsReachable(u, l2, Receive(u.id));
    var l3 := Next(u, l2, Receive(u.id));
    assert l3.rx.popped == [m];
    assert PayloadsOn([m], u.id) == [[]];
    NotAmong(l3.chan.accepted);
  }

  lemma ElementsAreAmong(a: seq<Payload>, b: seq<Payload>, x: Payload)
    ensures Subsequence(a, b) && x in a ==> x in b
  {
    if Subsequence(a, b) {
      SubsequenceElements(a, b);
    }
  }

  lemma NotAmong(accepted: seq<Payload>)
    requires accepted == [Long()]
    ensures !Subsequence([[]], accepted)
  {
    var none: Payload := [];
    assert none in [none] && none !in accepted;
    ElementsAreAmong([none], accepted, none);
  }

  /**
     Exactly when delivery is in order in every run: when no payload the encoder lets through is
     2^32 bytes long or longer, or the receiver takes no frame at all, or none on this channel.
   */
  lemma InOrderExactly(u: Setup)
    ensures AlwaysInOrder(u) <==> u.encoderMax < FIELD_RANGE || u.decoderMax == 0 || u.id >= u.cfg.maxChannels
  {
    if u.encoderMax < FIELD_RANGE || u.decoderMax == 0 || u.id >= u.cfg.maxChannels {
      forall l: Link | Reachable(u, l) ensures InOrder(u, l) {
        var events :| After(u, events) == Some(l);
        if u.id >= u.cfg.maxChannels {
          OutOfRangeInOrder(u, events);
        } else {
          OrderedDelivery(u, events);
        }
      }
    } else {
      LongPayloadIsMistaken(u);
    }
  }
}

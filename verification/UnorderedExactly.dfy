/**
 Exactly when an unordered channel delivers nothing but what was accepted: as on an ordered one, a
 payload of 2^32 bytes looks like an empty one to the receiver.
 */
module UnorderedExactly {
  import opened Base
  import opened Codec
  import opened SendTask
  import opened RecvChannels
  import opened UnorderedDelivery
  import EndToEnd
  import DeliveryOrder

  /** What was popped, or can still be, was accepted, and as often. */
  ghost predicate Genuine(u: Setup, l: Link) {
    multiset(PayloadsOn(l.rx.popped, u.id)) + multiset(Buffer(l.rx.bufs, u.id)) <= multiset(l.chan.accepted)
  }

  ghost predicate Reachable(u: Setup, l: Link) {
    exists events :: After(u, events) == Some(l)
  }

  ghost predicate AlwaysGenuine(u: Setup) {
    forall l: Link :: Reachable(u, l) ==> Genuine(u, l)
  }

  // ---- A channel that the receiver has no room for -------------------------

  lemma NextKeepsNothing(u: Setup, l: Link, e: Event)
    requires TraceInv(u.cfg, l.rx, true) && Allowed(u, l, e) && u.id >= u.cfg.maxChannels
    requires PayloadsOn(l.rx.kept, u.id) == []
    ensures PayloadsOn(Next(u, l, e).rx.kept, u.id) == []
  {
    if e.DispatchFirst? {
      var arrived := l.incoming[..e.n];
      KeptInRange(u.cfg, l.rx.bufs, arrived);
      PayloadsOnAppend(l.rx.kept, Dispatch(u.cfg, l.rx.bufs, arrived).kept, u.id);
    } else {
      assert Next(u, l, e).rx.kept == l.rx.kept;
    }
  }

  lemma {:induction false} OutOfRangeKeepsNothing(u: Setup, events: seq<Event>)
    requires After(u, events).Some? && u.id >= u.cfg.maxChannels
    ensures PayloadsOn(After(u, events).value.rx.kept, u.id) == []
    decreases |events|
  {
    if events != [] {
      var front, e := events[..|events| - 1], events[|events| - 1];
      OutOfRangeKeepsNothing(u, front);
      RunKeepsTrace(u, front, true);
      NextKeepsNothing(u, After(u, front).value, e);
    }
  }

  lemma OutOfRangeIsGenuine(u: Setup, events: seq<Event>)
    requires After(u, events).Some? && u.id >= u.cfg.maxChannels
    ensures Genuine(u, After(u, events).value)
  {
    var l := After(u, events).value;
    var there := PayloadsOn(l.rx.popped, u.id) + Buffer(l.rx.bufs, u.id);
    OutOfRangeKeepsNothing(u, events);
    RunKeepsTrace(u, events, true);
    assert OnChannelInv(l.rx, u.id);
    SubsequenceCounts(there, []);
    assert multiset(there) == multiset(PayloadsOn(l.rx.popped, u.id)) + multiset(Buffer(l.rx.bufs, u.id));
  }

  // ---- A payload that is too long for the length field --------------------

  lemma NextIsReachable(u: Setup, l: Link, e: Event)
    requires Reachable(u, l) && Allowed(u, l, e)
    ensures Reachable(u, Next(u, l, e))
  {
    var events :| After(u, events) == Some(l);
    assert (events + [e])[..|events|] == events;
    assert After(u, events + [e]) == Some(Next(u, l, e));
  }

  /** Nothing has reached the receiver, and `Long()` is all that was accepted. */
  ghost predicate OnlyLong(u: Setup, l: Link) {
    && l.incoming == [] && l.rx == EMPTY && l.readers == [NEW_READER] && |l.chan.children| == 1
    && l.chan.codec == FrameCodec(u.id, u.encoderMax) && l.chan.accepted == [DeliveryOrder.Long()]
  }

  lemma LongIsPopped(u: Setup) returns (l: Link)
    ensures Reachable(u, l) && OnlyLong(u, l)
    ensures l.chan.children == [Child(DeliveryOrder.Long(), ChildOpening, NEW_WRITER)]
  {
    var l0 := Start(u);
    assert After(u, []) == Some(l0);
    NextIsReachable(u, l0, SpawnTask);
    var l1 := Next(u, l0, SpawnTask);
    NextIsReachable(u, l1, Task(OpenStream));
    var l2 := Next(u, l1, Task(OpenStream));
    NextIsReachable(u, l2, Send(DeliveryOrder.Long()));
    var l3 := Next(u, l2, Send(DeliveryOrder.Long()));
    assert l3.chan.queue == [DeliveryOrder.Long()] == l3.chan.accepted;
    NextIsReachable(u, l3, Task(SendTask.Step.Pop(false)));
    l := Next(u, l3, Task(SendTask.Step.Pop(false)));
  }

  lemma LongIsBegun(u: Setup, l: Link) returns (l': Link)
    requires u.encoderMax >= FIELD_RANGE && Reachable(u, l) && OnlyLong(u, l)
    requires l.chan.children == [Child(DeliveryOrder.Long(), ChildOpening, NEW_WRITER)]
    ensures Reachable(u, l') && OnlyLong(u, l')
    ensures l'.chan.children[0].writer.stream == Frame(Message(u.id, DeliveryOrder.Long()))[..TOTAL_HEADER_LEN]
  {
    var m := Message(u.id, DeliveryOrder.Long());
    DeliveryOrder.LongFrameStarts(m);
    NextIsReachable(u, l, Task(OfChild(0, ChildReady)));
    var l1 := Next(u, l, Task(OfChild(0, ChildReady)));
    assert l1.chan.children[0].writer == Writer([], Frame(m), false);
    NextIsReachable(u, l1, Task(OfChild(0, ChildWrite(TOTAL_HEADER_LEN))));
    l' := Next(u, l1, Task(OfChild(0, ChildWrite(TOTAL_HEADER_LEN))));
    assert [] + Frame(m)[..TOTAL_HEADER_LEN] == Frame(m)[..TOTAL_HEADER_LEN];
  }

  lemma ReadsStart(u: Setup, stream: seq<Byte>)
    requires u.decoderMax >= 1 && stream == Frame(Message(u.id, DeliveryOrder.Long()))[..TOTAL_HEADER_LEN]
    ensures |stream| == TOTAL_HEADER_LEN
    ensures ReadChunk(u.decoderMax, NEW_READER, stream, TOTAL_HEADER_LEN).parsed.frames == [[u.id]]
  {
    DeliveryOrder.LongFrameStarts(Message(u.id, DeliveryOrder.Long()));
    assert stream[0..TOTAL_HEADER_LEN] == stream && [] + stream == stream;
  }

  lemma LongIsDelivered(u: Setup, l: Link) returns (l': Link)
    requires u.decoderMax >= 1 && Reachable(u, l) && OnlyLong(u, l)
    requires l.chan.children[0].writer.stream == Frame(Message(u.id, DeliveryOrder.Long()))[..TOTAL_HEADER_LEN]
    ensures Reachable(u, l') && l'.chan.accepted == [DeliveryOrder.Long()] && l'.incoming == [] && l'.rx == EMPTY
    ensures CanRead(l', 0) && l'.readers[0].parsed.frames == [[u.id]] && l'.readers[0].pushed == 0
  {
    ReadsStart(u, l.chan.children[0].writer.stream);
    NextIsReachable(u, l, Deliver(0, TOTAL_HEADER_LEN));
    l' := Next(u, l, Deliver(0, TOTAL_HEADER_LEN));
  }

  lemma LongIsMistaken(u: Setup, l: Link) returns (l': Link)
    requires Reachable(u, l) && l.chan.accepted == [DeliveryOrder.Long()] && l.incoming == [] && l.rx == EMPTY
    requires CanRead(l, 0) && l.readers[0].parsed.frames == [[u.id]] && l.readers[0].pushed == 0
    requires u.id < u.cfg.maxChannels
    ensures Reachable(u, l') && l'.chan.accepted == l.chan.accepted && Buffer(l'.rx.bufs, u.id) == [[]]
  {
    var m := Message(u.id, []);
    PushOutcome(l, 0, m);
    NextIsReachable(u, l, PushFrame(0));
    var l1 := Next(u, l, PushFrame(0));
    assert l1.incoming == [m];
    NextIsReachable(u, l1, DispatchFirst(1));
    l' := Next(u, l1, DispatchFirst(1));
    assert l1.incoming[..1] == [m];
    DeliveryOrder.DispatchesEmpty(u.cfg, u.id);
  }

  lemma LongIsNotGenuine(u: Setup, l: Link)
    requires l.chan.accepted == [DeliveryOrder.Long()] && Buffer(l.rx.bufs, u.id) == [[]]
    ensures !Genuine(u, l)
  {
    var none: Payload := [];
    assert none in multiset(Buffer(l.rx.bufs, u.id));
    assert none !in l.chan.accepted;
  }

  /**
     Exactly when only accepted payloads are delivered, in every run: when no payload the encoder lets
     through is 2^32 bytes long or longer, or the receiver takes no frame at all, or none on this channel.
   */
  lemma GenuineExactly(u: Setup)
    ensures AlwaysGenuine(u) <==> u.encoderMax < FIELD_RANGE || u.decoderMax == 0 || u.id >= u.cfg.maxChannels
  {
    if u.encoderMax < FIELD_RANGE || u.decoderMax == 0 || u.id >= u.cfg.maxChannels {
      forall l: Link | Reachable(u, l) ensures Genuine(u, l) {
        var events :| After(u, events) == Some(l);
        if u.id >= u.cfg.maxChannels {
          OutOfRangeIsGenuine(u, events);
        } else {
          DeliversNoDuplicates(u, events);
        }
      }
    } else {
      var l := LongIsPopped(u);
      l := LongIsBegun(u, l);
      l := LongIsDelivered(u, l);
      l := LongIsMistaken(u, l);
      LongIsNotGenuine(u, l);
    }
  }
}

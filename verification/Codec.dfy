/**
 The wire format of reliable channels and its incremental decoder.

 A frame is a 4-byte big-endian length, one channel-id byte, and the payload; the
 length counts the channel-id byte and the payload.
 */
module Codec {
  import opened Base

  const LENGTH_FIELD_LEN: nat := 4
  const PROTOCOL_HEADER_LEN: nat := 1
  const TOTAL_HEADER_LEN: nat := LENGTH_FIELD_LEN + PROTOCOL_HEADER_LEN
  const DEFAULT_MAX_RELIABLE_FRAME_LEN: nat := 8 * 1024 * 1024

  /** Number of values the length field can hold. */
  const FIELD_RANGE: nat := 0x1_0000_0000

  datatype CodecError = FrameTooBig

  /** A growable byte buffer shared between a codec and its stream. */
  class BytesMut {
    var data: seq<Byte>

    constructor ()
      ensures data == []
    {
      data := [];
    }
  }

  // ---- Encoding -----------------------------------------------------------

  /** The low `k` bytes of `n`, most significant first; higher bytes are dropped. */
  function BigEndian(n: nat, k: nat): (r: seq<Byte>)
    ensures |r| == k
  {
    if k == 0 then [] else BigEndian(n / 256, k - 1) + [n % 256]
  }

  function FromBigEndian(b: seq<Byte>): nat {
    if b == [] then 0 else FromBigEndian(b[..|b| - 1]) * 256 + b[|b| - 1]
  }

  function Pow256(k: nat): nat {
    if k == 0 then 1 else 256 * Pow256(k - 1)
  }

  lemma {:induction false} BigEndianRoundTrip(n: nat, k: nat)
    ensures Pow256(k) > 0 && FromBigEndian(BigEndian(n, k)) == n % Pow256(k)
  {
    if k > 0 {
      BigEndianRoundTrip(n / 256, k - 1);
      assert BigEndian(n, k)[..k - 1] == BigEndian(n / 256, k - 1);
      DivModStep(n, Pow256(k - 1));
    }
  }

  lemma DivModStep(n: nat, p: nat)
    requires p > 0
    ensures n % (256 * p) == n / 256 % p * 256 + n % 256
  {
    var q, r := n / 256 / p, n / 256 % p;
    var low := r * 256 + n % 256;
    assert n == 256 * (q * p + r) + n % 256;
    assert n == q * (256 * p) + low;
    assert 0 <= low < 256 * p;
    UniqueRemainder(n, 256 * p, q, low);
  }

  lemma UniqueRemainder(n: nat, d: nat, q: nat, r: nat)
    requires n == q * d + r && r < d
    ensures n % d == r
  {
    var k := n / d - q;
    assert n == (n / d) * d + n % d;
    assert k * d == r - n % d;
    MultipleGrows(k, d);
  }

  lemma MultipleGrows(k: int, d: int)
    requires d >= 0
    ensures k >= 1 ==> k * d >= d
    ensures k <= -1 ==> k * d <= -d
  {
  }

  function PutUint(n: nat): (r: seq<Byte>)
    ensures |r| == LENGTH_FIELD_LEN
  {
    BigEndian(n, LENGTH_FIELD_LEN)
  }

  function GetUint(b: seq<Byte>): nat
    requires |b| >= LENGTH_FIELD_LEN
  {
    FromBigEndian(b[..LENGTH_FIELD_LEN])
  }

  lemma GetPutUint(n: nat, tail: seq<Byte>)
    ensures GetUint(PutUint(n) + tail) == n % FIELD_RANGE
    ensures n < FIELD_RANGE ==> GetUint(PutUint(n) + tail) == n
  {
    SplitAt(PutUint(n), tail);
    BigEndianRoundTrip(n, LENGTH_FIELD_LEN);
    assert Pow256(4) == 256 * Pow256(3) && Pow256(2) == 256 * Pow256(1);
    assert Pow256(LENGTH_FIELD_LEN) == FIELD_RANGE;
  }

  /** The bytes of a frame after its length field. */
  function Body(m: Message): seq<Byte> {
    [m.channel] + m.payload
  }

  /** What the encoder appends for one accepted payload. */
  function Frame(m: Message): seq<Byte> {
    PutUint(|Body(m)|) + Body(m)
  }

  /** A frame byte by byte: four bytes of length, most significant first, the channel id, the payload. */
  lemma FrameBytes(m: Message)
    ensures var f := Frame(m);
            && |f| == 5 + |m.payload|
            && ((f[0] as int * 256 + f[1]) * 256 + f[2]) * 256 + f[3] == (1 + |m.payload|) % 0x1_0000_0000
            && f[4] == m.channel && f[5..] == m.payload
  {
    var f, n := Frame(m), |Body(m)|;
    GetPutUint(n, Body(m));
    var b := PutUint(n);
    SplitAt(b, Body(m));
    assert f[..4] == b;
    assert FromBigEndian(b) == FromBigEndian(b[..3]) * 256 + b[3];
    assert b[..3][..2] == b[..2] && b[..2][..1] == b[..1] && b[..1][..0] == [];
    assert FromBigEndian(b[..3]) == FromBigEndian(b[..2]) * 256 + b[2];
    assert FromBigEndian(b[..2]) == FromBigEndian(b[..1]) * 256 + b[1];
    assert FromBigEndian(b[..1]) == FromBigEndian([]) * 256 + b[0];
    assert f[5..] == f[4..][1..];
  }

  function EncodeAll(ms: seq<Message>): seq<Byte> {
    if ms == [] then [] else Frame(ms[0]) + EncodeAll(ms[1..])
  }

  datatype Encoder = Encoder(rawChannelId: ChannelId, maxFrameLen: nat) {

    /** Appends one frame to `dst`, or refuses an overlong payload and leaves `dst` alone. */
    method Encode(frame: Payload, dst: BytesMut) returns (r: Result<(), CodecError>)
      modifies dst
      ensures r.Err? <==> |frame| > maxFrameLen
      ensures dst.data == old(dst.data) + (if r.Ok? then Frame(Message(rawChannelId, frame)) else [])
    {
      if |frame| > maxFrameLen {
        return Err(FrameTooBig);
      }
      dst.data := dst.data + PutUint(PROTOCOL_HEADER_LEN + |frame|);
      dst.data := dst.data + [rawChannelId];
      dst.data := dst.data + frame;
      return Ok(());
    }
  }

  // ---- Decoding -----------------------------------------------------------

  datatype DecodeState = Head | Data(payloadLength: nat)

  /** Everything a decoder gets out of the bytes it holds. */
  datatype Parsed = Parsed(frames: seq<seq<Byte>>, state: DecodeState, rest: seq<Byte>, refused: bool)

  /** The reference parser: reads frames off `buf` until bytes run out or a head is refused. */
  ghost function Parse(max: nat, state: DecodeState, buf: seq<Byte>): Parsed
    decreases |buf|, if state.Data? then 1 else 0
  {
    match state
    case Head =>
      if |buf| < TOTAL_HEADER_LEN then
        Parsed([], Head, buf, false)
      else if GetUint(buf) > max then
        Parsed([], Head, buf, true)
      else
        Parse(max, Data(GetUint(buf)), buf[LENGTH_FIELD_LEN..])
    case Data(n) =>
      if |buf| < n then
        Parsed([], Data(n), buf, false)
      else
        var p := Parse(max, Head, buf[n..]);
        p.(frames := [buf[..n]] + p.frames)
  }

  /** Between two calls of the decoder, a remembered length is positive and not yet covered. */
  ghost predicate Settled(state: DecodeState, buf: seq<Byte>) {
    state.Data? ==> |buf| < state.payloadLength
  }

  class Decoder {
    var state: DecodeState
    const maxFrameLen: nat

    constructor (maxFrameLen: nat)
      ensures state == Head && this.maxFrameLen == maxFrameLen
    {
      this.maxFrameLen := maxFrameLen;
      state := Head;
    }

    /** Reads the length field. An oversized length consumes nothing, so it is refused again on every retry. */
    method DecodeHead(src: BytesMut) returns (r: Result<Option<nat>, CodecError>)
      modifies src
      ensures |old(src.data)| < 5 ==> r == Ok(None)
      ensures |old(src.data)| >= 5 ==>
                r == if GetUint(old(src.data)) > maxFrameLen then Err(FrameTooBig)
                     else Ok(Some(GetUint(old(src.data))))
      ensures src.data == if r.Ok? && r.value.Some? then old(src.data)[LENGTH_FIELD_LEN..] else old(src.data)
    {
      if |src.data| < TOTAL_HEADER_LEN {
        return Ok(None);
      }
      var payloadLength := GetUint(src.data);
      if payloadLength > maxFrameLen {
        return Err(FrameTooBig);
      }
      src.data := src.data[LENGTH_FIELD_LEN..];
      return Ok(Some(payloadLength));
    }

    method DecodeData(payloadLength: nat, src: BytesMut) returns (r: Option<seq<Byte>>)
      modifies src
      ensures r.Some? <==> |old(src.data)| >= payloadLength
      ensures r.Some? ==> |r.value| == payloadLength && old(src.data) == r.value + src.data
      ensures r.None? ==> src.data == old(src.data)
    {
      if |src.data| < payloadLength {
        return None;
      }
      var data := src.data[..payloadLength];
      src.data := src.data[payloadLength..];
      return Some(data);
    }

    /**
     Takes at most one frame off `src`. Whatever it returns, what it leaves behind is what the
     reference parser still has to read: nothing is skipped, repeated or held back.
     */
    method Decode(src: BytesMut) returns (r: Result<Option<seq<Byte>>, CodecError>)
      modifies this, src
      ensures r.Err? <==> old(state).Head? && |old(src.data)| >= TOTAL_HEADER_LEN
                          && GetUint(old(src.data)) > maxFrameLen
      ensures r.Err? ==> Parse(maxFrameLen, old(state), old(src.data)) == Parsed([], state, src.data, true)
      ensures r.Err? ==> state == old(state) == Head && src.data == old(src.data)
      ensures r == Ok(None) ==>
                Parse(maxFrameLen, old(state), old(src.data)) == Parsed([], state, src.data, false)
      ensures r == Ok(None) ==> Settled(state, src.data)
      ensures r.Ok? && r.value.Some? ==>
                state == Head
                && Parse(maxFrameLen, old(state), old(src.data)).frames
                   == [r.value.value] + Parse(maxFrameLen, Head, src.data).frames
                && Parse(maxFrameLen, old(state), old(src.data)).(frames := [])
                   == Parse(maxFrameLen, Head, src.data).(frames := [])
      ensures r.Ok? && r.value.Some? && Settled(old(state), []) ==> |src.data| < |old(src.data)|
    {
      var payloadLength;
      match state {
        case Head =>
          var head := DecodeHead(src);
          if head.Err? {
            return Err(head.error);
          }
          if head.value.None? {
            return Ok(None);
          }
          payloadLength := head.value.value;
          state := Data(payloadLength);
        case Data(n) =>
          payloadLength := n;
      }
      var before := src.data;
      var data := DecodeData(payloadLength, src);
      if data.None? {
        return Ok(None);
      }
      assert data.value == before[..payloadLength] && src.data == before[payloadLength..];
      state := Head;
      return Ok(Some(data.value));
    }
  }

  /** One read of the stream: nothing more is read once a frame has been refused. */
  ghost function FeedChunk(max: nat, r: Parsed, chunk: seq<Byte>): Parsed {
    if r.refused then r
    else
      var p := Parse(max, r.state, r.rest + chunk);
      p.(frames := r.frames + p.frames)
  }

  ghost function FeedAll(max: nat, r: Parsed, chunks: seq<seq<Byte>>): Parsed
    decreases |chunks|
  {
    if chunks == [] then r else FeedAll(max, FeedChunk(max, r, chunks[0]), chunks[1..])
  }

  /** A reader that has been given nothing yet. */
  const FRESH := Parsed([], Head, [], false)

  /** The loop that reads a stream: after every chunk it decodes until nothing more comes out. */
  class FramedRead {
    const decoder: Decoder
    const buffer: BytesMut
    var refused: bool
    ghost var produced: seq<seq<Byte>>

    ghost predicate Valid()
      reads this, decoder, buffer
    {
      Settled(decoder.state, buffer.data)
    }

    ghost function View(): Parsed
      reads this, decoder, buffer
    {
      Parsed(produced, decoder.state, buffer.data, refused)
    }

    constructor (maxFrameLen: nat)
      ensures Valid() && fresh(decoder) && fresh(buffer)
      ensures decoder.maxFrameLen == maxFrameLen && View() == FRESH
    {
      decoder := new Decoder(maxFrameLen);
      buffer := new BytesMut();
      refused := false;
      produced := [];
    }

    method Feed(chunk: seq<Byte>) returns (frames: seq<seq<Byte>>)
      requires Valid()
      modifies this, decoder, buffer
      ensures Valid()
      ensures View() == FeedChunk(decoder.maxFrameLen, old(View()), chunk)
      ensures produced == old(produced) + frames
    {
      frames := [];
      if refused {
        return;
      }
      buffer.data := buffer.data + chunk;
      ghost var p := Parse(decoder.maxFrameLen, decoder.state, buffer.data);
      while true
        invariant !refused && Settled(decoder.state, []) && produced == old(produced)
        invariant p.frames == frames + Parse(decoder.maxFrameLen, decoder.state, buffer.data).frames
        invariant p.(frames := []) == Parse(decoder.maxFrameLen, decoder.state, buffer.data).(frames := [])
        decreases |buffer.data|
      {
        var r := decoder.Decode(buffer);
        if r.Err? || r.value.None? {
          refused := r.Err?;
          break;
        }
        frames := frames + [r.value.value];
      }
      produced := produced + frames;
    }
  }

  // ---- Chunking does not matter -------------------------------------------

  /** Parsing more bytes continues exactly where parsing the first bytes stopped. */
  lemma {:induction false} ParseAppend(max: nat, state: DecodeState, a: seq<Byte>, b: seq<Byte>)
    ensures var p := Parse(max, state, a);
            Parse(max, state, a + b) ==
            if p.refused then p.(rest := p.rest + b)
            else var q := Parse(max, p.state, p.rest + b); q.(frames := p.frames + q.frames)
    decreases |a|, if state.Data? then 1 else 0
  {
    match state
    case Head =>
      if |a| >= TOTAL_HEADER_LEN {
        assert (a + b)[..LENGTH_FIELD_LEN] == a[..LENGTH_FIELD_LEN];
        if GetUint(a) <= max {
          assert (a + b)[LENGTH_FIELD_LEN..] == a[LENGTH_FIELD_LEN..] + b;
          ParseAppend(max, Data(GetUint(a)), a[LENGTH_FIELD_LEN..], b);
        }
      }
    case Data(n) =>
      if |a| >= n {
        assert (a + b)[..n] == a[..n] && (a + b)[n..] == a[n..] + b;
        ParseAppend(max, Head, a[n..], b);
        var p := Parse(max, Head, a[n..]);
        if !p.refused {
          var q := Parse(max, p.state, p.rest + b);
          assert [a[..n]] + (p.frames + q.frames) == ([a[..n]] + p.frames) + q.frames;
        }
      }
  }

  lemma {:induction false} FeedAllIsParse(max: nat, given: seq<Byte>, r: Parsed, chunks: seq<seq<Byte>>)
    requires var p := Parse(max, Head, given);
             p.(rest := []) == r.(rest := []) && r.rest <= p.rest && (!r.refused ==> r.rest == p.rest)
    ensures var p := Parse(max, Head, given + Flatten(chunks));
            var q := FeedAll(max, r, chunks);
            p.(rest := []) == q.(rest := []) && q.rest <= p.rest && (!q.refused ==> q.rest == p.rest)
    decreases |chunks|
  {
    if chunks == [] {
      assert given + Flatten(chunks) == given;
    } else {
      assert given + Flatten(chunks) == (given + chunks[0]) + Flatten(chunks[1..]);
      ParseAppend(max, Head, given, chunks[0]);
      FeedAllIsParse(max, given + chunks[0], FeedChunk(max, r, chunks[0]), chunks[1..]);
    }
  }

  /**
     However a byte string is cut into chunks, feeding the chunks gives the frames, the refusal
     and the state of parsing it whole; unless a frame was refused, the same bytes are left over.
   */
  lemma ChunkIndependence(max: nat, chunks: seq<seq<Byte>>)
    ensures var whole := Parse(max, Head, Flatten(chunks));
            var fed := FeedAll(max, FRESH, chunks);
            && fed.frames == whole.frames
            && fed.refused == whole.refused
            && fed.state == whole.state
            && fed.rest <= whole.rest
            && (!fed.refused ==> fed.rest == whole.rest)
  {
    assert [] + Flatten(chunks) == Flatten(chunks);
    FeedAllIsParse(max, [], FRESH, chunks);
  }

  // ---- Round trip ---------------------------------------------------------

  function Bodies(ms: seq<Message>): seq<seq<Byte>> {
    seq(|ms|, i requires 0 <= i < |ms| => Body(ms[i]))
  }

  /** Splits a frame into channel id and payload. An empty frame has no channel id: the receiver panics on it. */
  function DecodeIncoming(frame: seq<Byte>): (r: Option<Message>)
    ensures r.Some? ==> Body(r.value) == frame
    ensures r.None? <==> frame == []
  {
    if frame == [] then None else Some(Message(frame[0], frame[1..]))
  }

  /** A message survives when its length fits the length field and the decoder's maximum. */
  predicate Fits(max: nat, m: Message) {
    PROTOCOL_HEADER_LEN + |m.payload| <= max && PROTOCOL_HEADER_LEN + |m.payload| < FIELD_RANGE
  }

  predicate AllFit(max: nat, ms: seq<Message>) {
    forall m :: m in ms ==> Fits(max, m)
  }

  lemma {:induction false} EncodeAllAppend(a: seq<Message>, b: seq<Message>)
    ensures EncodeAll(a + b) == EncodeAll(a) + EncodeAll(b)
  {
    if a == [] {
      assert a + b == b;
    } else {
      assert (a + b)[1..] == a[1..] + b;
      EncodeAllAppend(a[1..], b);
    }
  }

  /** What the decoder makes of a length field and what follows it. */
  lemma ParseHeaded(max: nat, head: seq<Byte>, rest: seq<Byte>)
    requires |head| == LENGTH_FIELD_LEN && |rest| >= PROTOCOL_HEADER_LEN && GetUint(head) <= |rest|
    ensures var n := GetUint(head);
            Parse(max, Head, head + rest) ==
            if n > max then Parsed([], Head, head + rest, true)
            else var p := Parse(max, Head, rest[n..]); p.(frames := [rest[..n]] + p.frames)
  {
    var buf := head + rest;
    assert buf[..LENGTH_FIELD_LEN] == head == head[..LENGTH_FIELD_LEN];
    assert buf[LENGTH_FIELD_LEN..] == rest;
  }

  /** What the decoder makes of one encoded message, whatever its size and whatever follows it. */
  lemma ParseFrame(max: nat, m: Message, tail: seq<Byte>)
    ensures var n := |Body(m)| % FIELD_RANGE;
            Parse(max, Head, Frame(m) + tail) ==
            if n > max then Parsed([], Head, Frame(m) + tail, true)
            else var p := Parse(max, Head, (Body(m) + tail)[n..]);
                 p.(frames := [(Body(m) + tail)[..n]] + p.frames)
  {
    ReadLength(m);
    ParseHeaded(max, PutUint(|Body(m)|), Body(m) + tail);
    ConcatAssociative(PutUint(|Body(m)|), Body(m), tail);
  }

  lemma ParseFitting(max: nat, m: Message, tail: seq<Byte>)
    requires Fits(max, m)
    ensures var p := Parse(max, Head, tail);
            Parse(max, Head, Frame(m) + tail) == p.(frames := [Body(m)] + p.frames)
  {
    ParseFrame(max, m, tail);
    ReadLength(m);
    FitsField(max, PutUint(|Body(m)|), Body(m), tail, Frame(m) + tail);
  }

  lemma ReadLength(m: Message)
    ensures GetUint(PutUint(|Body(m)|)) == |Body(m)| % FIELD_RANGE
    ensures |Body(m)| < FIELD_RANGE ==> GetUint(PutUint(|Body(m)|)) == |Body(m)|
  {
    GetPutUint(|Body(m)|, []);
    assert PutUint(|Body(m)|) + [] == PutUint(|Body(m)|);
  }

  lemma FitsField(max: nat, head: seq<Byte>, body: seq<Byte>, tail: seq<Byte>, buf: seq<Byte>)
    requires |head| == LENGTH_FIELD_LEN && 1 <= |body| <= max && GetUint(head) == |body|
    requires buf == (head + body) + tail
    ensures Parse(max, Head, buf) == (var p := Parse(max, Head, tail); p.(frames := [body] + p.frames))
  {
    SplitAt(body, tail);
    ConcatAssociative(head, body, tail);
    ParseHeaded(max, head, body + tail);
  }

  lemma {:induction false} RoundTripThen(max: nat, ms: seq<Message>, tail: seq<Byte>)
    requires AllFit(max, ms)
    ensures Parse(max, Head, EncodeAll(ms) + tail)
            == (var p := Parse(max, Head, tail); p.(frames := Bodies(ms) + p.frames))
  {
    var p := Parse(max, Head, tail);
    if ms == [] {
      assert EncodeAll(ms) + tail == tail;
    } else {
      assert EncodeAll(ms) + tail == Frame(ms[0]) + (EncodeAll(ms[1..]) + tail);
      RoundTripThen(max, ms[1..], tail);
      ParseFitting(max, ms[0], EncodeAll(ms[1..]) + tail);
      assert [Body(ms[0])] + (Bodies(ms[1..]) + p.frames) == Bodies(ms) + p.frames;
    }
  }

  /**
     The encoding of a list of messages decodes back to that list, with nothing left over, if
     and only if every message fits. No other list survives, so the bound is exact.
   */
  lemma RoundTripExactly(max: nat, ms: seq<Message>)
    ensures Parse(max, Head, EncodeAll(ms)) == Parsed(Bodies(ms), Head, [], false) <==> AllFit(max, ms)
    ensures forall i :: 0 <= i < |ms| ==> DecodeIncoming(Bodies(ms)[i]) == Some(ms[i])
  {
    if AllFit(max, ms) {
      RoundTripThen(max, ms, []);
      assert EncodeAll(ms) + [] == EncodeAll(ms);
    } else {
      var bad := FirstMisfit(max, ms);
      MisfitSpoils(max, ms, bad);
    }
  }

  lemma MisfitSpoils(max: nat, ms: seq<Message>, bad: nat)
    requires bad < |ms| && !Fits(max, ms[bad]) && AllFit(max, ms[..bad])
    ensures var p := Parse(max, Head, EncodeAll(ms)); p.refused || p.frames != Bodies(ms)
  {
    var m, rest := ms[bad], EncodeAll(ms[bad + 1..]);
    assert ms == ms[..bad] + ms[bad..];
    EncodeAllAppend(ms[..bad], ms[bad..]);
    assert ms[bad..][1..] == ms[bad + 1..];
    RoundTripThen(max, ms[..bad], Frame(m) + rest);
    ParseFrame(max, m, rest);
    var p, n := Parse(max, Head, EncodeAll(ms)), |Body(m)| % FIELD_RANGE;
    assert p.refused || |p.frames[bad]| == n;
    assert Bodies(ms)[bad] == Body(m);
  }

  lemma {:induction false} FirstMisfit(max: nat, ms: seq<Message>) returns (i: nat)
    requires !AllFit(max, ms)
    ensures i < |ms| && !Fits(max, ms[i]) && AllFit(max, ms[..i])
  {
    i := 0;
    while Fits(max, ms[i])
      invariant i < |ms| && AllFit(max, ms[..i]) && !AllFit(max, ms[i..])
      decreases |ms| - i
    {
      assert ms[i..] == [ms[i]] + ms[i + 1..];
      assert ms[..i + 1] == ms[..i] + [ms[i]];
      i := i + 1;
    }
  }

  /**
     The encoder measures the payload, the decoder the payload and its channel id. A message
     that is exactly one byte too long for the decoder is encoded without complaint, stops the
     receiving side, and takes everything behind it with it.
   */
  lemma OversizedIsRefused(max: nat, ms: seq<Message>, m: Message, tail: seq<Byte>)
    requires AllFit(max, ms)
    requires max < |Body(m)| < FIELD_RANGE
    ensures Parse(max, Head, EncodeAll(ms) + Frame(m) + tail)
            == Parsed(Bodies(ms), Head, Frame(m) + tail, true)
  {
    RoundTripThen(max, ms, Frame(m) + tail);
    assert EncodeAll(ms) + Frame(m) + tail == EncodeAll(ms) + (Frame(m) + tail);
    ParseFrame(max, m, tail);
  }

  /**
     With one maximum for both sides, what the encoder lets through and the decoder refuses are
     exactly the payloads as long as the maximum: the decoder's counts the channel id as well.
   */
  lemma SameMaximumRefusesExactly(max: nat, m: Message, tail: seq<Byte>)
    requires max + PROTOCOL_HEADER_LEN < FIELD_RANGE && |m.payload| <= max
    ensures Parse(max, Head, Frame(m) + tail) == Parsed([], Head, Frame(m) + tail, true) <==> |m.payload| == max
  {
    ParseFrame(max, m, tail);
  }

  /** So a payload of 8 MiB is encoded and then refused when both maxima are 8 MiB. */
  lemma DefaultMaximumIsRefused(m: Message, tail: seq<Byte>)
    requires |m.payload| == DEFAULT_MAX_RELIABLE_FRAME_LEN
    ensures Parse(DEFAULT_MAX_RELIABLE_FRAME_LEN, Head, Frame(m) + tail) == Parsed([], Head, Frame(m) + tail, true)
  {
    SameMaximumRefusesExactly(DEFAULT_MAX_RELIABLE_FRAME_LEN, m, tail);
  }

  /**
     A prefix of a stream yields exactly the messages whose last byte it contains: no message is
     delivered early, none is held back for later bytes.
   */
  lemma PrefixDecodesToPrefix(max: nat, ms: seq<Message>, j: nat, k: nat)
    requires AllFit(max, ms) && j <= |ms| && k <= |EncodeAll(ms)|
    requires |EncodeAll(ms[..j])| <= k
    requires j < |ms| ==> k < |EncodeAll(ms[..j + 1])|
    ensures var p := Parse(max, Head, EncodeAll(ms)[..k]);
            p.frames == Bodies(ms[..j]) && !p.refused
  {
    var done := EncodeAll(ms[..j]);
    assert ms == ms[..j] + ms[j..];
    EncodeAllAppend(ms[..j], ms[j..]);
    var part := EncodeAll(ms[j..])[..k - |done|];
    assert EncodeAll(ms)[..k] == done + part;
    assert AllFit(max, ms[..j]);
    RoundTripThen(max, ms[..j], part);
    assert Bodies(ms[..j]) + [] == Bodies(ms[..j]);
    if j < |ms| {
      assert ms[..j + 1] == ms[..j] + [ms[j]];
      EncodeAllAppend(ms[..j], [ms[j]]);
      assert EncodeAll([ms[j]]) == Frame(ms[j]);
      assert part == Frame(ms[j])[..|part|];
      PartialFrame(max, ms[j], |part|);
    }
  }

  lemma PartialFrame(max: nat, m: Message, k: nat)
    requires Fits(max, m) && k < |Frame(m)|
    ensures var p := Parse(max, Head, Frame(m)[..k]); p.frames == [] && !p.refused
  {
    var buf := Frame(m)[..k];
    if k >= TOTAL_HEADER_LEN {
      GetPutUint(|Body(m)|, buf[LENGTH_FIELD_LEN..]);
      assert buf == PutUint(|Body(m)|) + buf[LENGTH_FIELD_LEN..];
    }
  }
}

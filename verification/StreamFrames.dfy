/** What a receiver can make of the stream of an ordered channel while it is still arriving. */
module StreamFrames {
  import opened Base
  import opened Codec

  /** The first `k` frames all have a channel id, so the receiver does not stop at them. */
  ghost predicate Usable(frames: seq<seq<Byte>>, k: nat) {
    k <= |frames| && forall i :: 0 <= i < k ==> frames[i] != []
  }

  ghost predicate FramesWithin(frames: seq<seq<Byte>>, max: nat) {
    forall i :: 0 <= i < |frames| ==> |frames[i]| <= max
  }

  lemma {:induction false} FramesAreBounded(max: nat, state: DecodeState, buf: seq<Byte>)
    requires state.Data? ==> state.payloadLength <= max
    ensures FramesWithin(Parse(max, state, buf).frames, max)
    decreases |buf|, if state.Data? then 1 else 0
  {
    match state
    case Head =>
      if |buf| >= TOTAL_HEADER_LEN && GetUint(buf) <= max {
        FramesAreBounded(max, Data(GetUint(buf)), buf[LENGTH_FIELD_LEN..]);
        assert Parse(max, state, buf) == Parse(max, Data(GetUint(buf)), buf[LENGTH_FIELD_LEN..]);
      }
    case Data(n) =>
      if |buf| >= n {
        FramesAreBounded(max, Head, buf[n..]);
        assert Parse(max, state, buf).frames == [buf[..n]] + Parse(max, Head, buf[n..]).frames;
      }
  }

  /** A decoder refuses a message that does not fit, or reads an empty frame. */
  lemma MisfitFrame(max: nat, m: Message, rest: seq<Byte>)
    requires !Fits(max, m) && |Body(m)| <= FIELD_RANGE
    ensures var frames := Parse(max, Head, Frame(m) + rest).frames; frames == [] || frames[0] == []
  {
    ParseFrame(max, m, rest);
  }

  lemma UsablePart(a: seq<seq<Byte>>, b: seq<seq<Byte>>, k: nat)
    requires b == [] || b[0] == []
    requires Usable(a + b, k)
    ensures k <= |a| && (a + b)[..k] == a[..k]
  {
    assert b != [] ==> (a + b)[|a|] == [];
  }

  lemma FramesEndAtMisfit(max: nat, ms: seq<Message>, bad: nat, k: nat)
    requires bad < |ms| && AllFit(max, ms[..bad]) && !Fits(max, ms[bad]) && |Body(ms[bad])| <= FIELD_RANGE
    requires Usable(Parse(max, Head, EncodeAll(ms)).frames, k)
    ensures k <= bad && Parse(max, Head, EncodeAll(ms)).frames[..k] == Bodies(ms)[..k]
  {
    var m, rest := ms[bad], EncodeAll(ms[bad + 1..]);
    assert ms == ms[..bad] + ms[bad..];
    EncodeAllAppend(ms[..bad], ms[bad..]);
    assert ms[bad..][1..] == ms[bad + 1..];
    RoundTripThen(max, ms[..bad], Frame(m) + rest);
    MisfitFrame(max, m, rest);
    UsablePart(Bodies(ms[..bad]), Parse(max, Head, Frame(m) + rest).frames, k);
    assert Bodies(ms[..bad])[..k] == Bodies(ms)[..k];
  }

  lemma EmptyFramesAreUnusable(frames: seq<seq<Byte>>, k: nat)
    requires FramesWithin(frames, 0)
    ensures Usable(frames, k) ==> k == 0
  {
    if 0 < k <= |frames| {
      assert frames[0] == [];
    }
  }

  lemma FramesOfWhole(max: nat, ms: seq<Message>, k: nat)
    requires max == 0 || forall m :: m in ms ==> |Body(m)| <= FIELD_RANGE
    requires Usable(Parse(max, Head, EncodeAll(ms)).frames, k)
    ensures k <= |ms| && Parse(max, Head, EncodeAll(ms)).frames[..k] == Bodies(ms)[..k]
  {
    if max == 0 {
      FramesAreBounded(max, Head, EncodeAll(ms));
      EmptyFramesAreUnusable(Parse(max, Head, EncodeAll(ms)).frames, k);
    } else if AllFit(max, ms) {
      RoundTripExactly(max, ms);
    } else {
      var bad := FirstMisfit(max, ms);
      FramesEndAtMisfit(max, ms, bad, k);
    }
  }

  /**
     Whatever prefix of a stream of messages has arrived, and whatever the decoder's maximum: the
     frames the receiver gets to use are the bodies of the first messages, unless a message is so
     long that its length field wraps around to a positive value.
   */
  lemma FramesOfPrefix(max: nat, ms: seq<Message>, part: seq<Byte>, k: nat)
    requires max == 0 || forall m :: m in ms ==> |Body(m)| <= FIELD_RANGE
    requires part <= EncodeAll(ms) && Usable(Parse(max, Head, part).frames, k)
    ensures k <= |ms| && Parse(max, Head, part).frames[..k] == Bodies(ms)[..k]
  {
    var all := EncodeAll(ms);
    assert all == part + all[|part|..];
    ParseAppend(max, Head, part, all[|part|..]);
    var few, many := Parse(max, Head, part).frames, Parse(max, Head, all).frames;
    assert few <= many;
    assert Usable(many, k) && few[..k] == many[..k];
    FramesOfWhole(max, ms, k);
  }
}

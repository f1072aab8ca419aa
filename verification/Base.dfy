/** Types and sequence relations shared by the whole model. */
module Base {

  datatype Option<+T> = None | Some(value: T)

  datatype Result<+T, +E> = Ok(value: T) | Err(error: E)

  /** An unsigned 8-bit integer: a byte on the wire, or a channel id. */
  type Byte = b: int | 0 <= b < 256

  type ChannelId = Byte

  /** The id a server gives to a client; the counter is wide enough not to wrap around. */
  type ClientId = nat

  /** The content of one application message. */
  type Payload = seq<Byte>

  /** A payload together with the channel it travels on. */
  datatype Message = Message(channel: ChannelId, payload: Payload)

  function Flatten<T>(parts: seq<seq<T>>): seq<T> {
    if parts == [] then [] else parts[0] + Flatten(parts[1..])
  }

  lemma ConcatAssociative<T>(a: seq<T>, b: seq<T>, c: seq<T>)
    ensures (a + b) + c == a + (b + c)
  {
  }

  lemma SplitAt<T>(a: seq<T>, b: seq<T>)
    ensures (a + b)[..|a|] == a && (a + b)[|a|..] == b
  {
  }

  // ---- Subsequences -------------------------------------------------------

  /** `at` names, in strictly increasing order, the positions of `b` that make up `a`. */
  ghost predicate Picks<T>(a: seq<T>, b: seq<T>, at: seq<nat>) {
    && |at| == |a|
    && (forall i :: 0 <= i < |a| ==> at[i] < |b| && a[i] == b[at[i]])
    && (forall i, j :: 0 <= i < j < |a| ==> at[i] < at[j])
  }

  /** `a` is `b` with some elements left out: order is kept and no element is used twice. */
  ghost predicate Subsequence<T>(a: seq<T>, b: seq<T>) {
    exists at :: Picks(a, b, at)
  }

  lemma PrefixIsSubsequence<T>(a: seq<T>, b: seq<T>)
    requires a <= b
    ensures Subsequence(a, b)
  {
    assert Picks(a, b, seq(|a|, i => i));
  }

  lemma SubsequenceTransitive<T>(a: seq<T>, b: seq<T>, c: seq<T>)
    requires Subsequence(a, b) && Subsequence(b, c)
    ensures Subsequence(a, c)
  {
    var ab :| Picks(a, b, ab);
    var bc :| Picks(b, c, bc);
    assert Picks(a, c, seq(|a|, i requires 0 <= i < |a| => bc[ab[i]]));
  }

  lemma SubsequenceConcat<T>(a: seq<T>, b: seq<T>, c: seq<T>, d: seq<T>)
    requires Subsequence(a, b) && Subsequence(c, d)
    ensures Subsequence(a + c, b + d)
  {
    var ab :| Picks(a, b, ab);
    var cd :| Picks(c, d, cd);
    assert Picks(a + c, b + d, ab + seq(|c|, i requires 0 <= i < |c| => cd[i] + |b|));
  }

  /** A new last element may be used or left out. */
  lemma SubsequenceExtend<T>(a: seq<T>, b: seq<T>, x: T)
    requires Subsequence(a, b)
    ensures Subsequence(a, b + [x]) && Subsequence(a + [x], b + [x])
  {
    PrefixIsSubsequence([x], [x]);
    SubsequenceConcat(a, b, [x], [x]);
    SubsequenceSkip(a, b, [x]);
  }

  lemma SubsequenceSkip<T>(a: seq<T>, b: seq<T>, tail: seq<T>)
    requires Subsequence(a, b)
    ensures Subsequence(a, b + tail)
  {
    PrefixIsSubsequence(b, b + tail);
    SubsequenceTransitive(a, b, b + tail);
  }
}

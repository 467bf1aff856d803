/**
 * The rating head: a linear layer read from `rating-head.json`, checked by
 * `getHead` and applied by `predict` as `b + sum of embedding[i] * W[i]`.
 * Numbers are exact reals.
 */
module RatingHead {
  import opened Wrappers
  import opened Text

  const EMBEDDING_DIM: nat := 768
  const INVALID_HEAD_MESSAGE: string := "Invalid rating-head.json: expected { W: number[768], b: number }"
  const BAD_EMBEDDING_PREFIX: string := "Expected 768-dim embedding, got "

  /** The artifact as imported: `W` may not be an array, `b` may not be a number. */
  datatype RawHead = RawHead(w: Option<seq<real>>, b: Option<real>)

  datatype Head = Head(w: seq<real>, b: real)

  /** `getHead()`: the weights when `W` is an array of exactly 768 numbers and
      `b` is a number, the fixed error otherwise. */
  function GetHead(raw: RawHead): (r: Result<Head, string>)
    ensures r.Ok? <==> raw.w.Some? && raw.b.Some? && |raw.w.value| == EMBEDDING_DIM
    ensures r.Ok? ==> r.value == Head(raw.w.value, raw.b.value)
    ensures r.Err? ==> r.error == INVALID_HEAD_MESSAGE
  {
    if raw.w.None? || raw.b.None? || |raw.w.value| != EMBEDDING_DIM then Err(INVALID_HEAD_MESSAGE)
    else Ok(Head(raw.w.value, raw.b.value))
  }

  /** The dot product of two vectors of the same length, summed left to right. */
  function Dot(e: seq<real>, w: seq<real>): real
    requires |e| == |w|
  {
    if e == [] then 0.0 else Dot(e[..|e| - 1], w[..|w| - 1]) + e[|e| - 1] * w[|w| - 1]
  }

  /** What `predict(embedding)` returns or throws. */
  function Predicted(raw: RawHead, embedding: seq<real>): Result<real, string> {
    match GetHead(raw)
    case Err(m) => Err(m)
    case Ok(head) =>
      if |embedding| != EMBEDDING_DIM then Err(BAD_EMBEDDING_PREFIX + NatToString(|embedding|))
      else Ok(head.b + Dot(embedding, head.w))
  }

  /**
   * `predict(embedding)`: the weights are checked first, then the length of
   * the embedding, and only then is the sum accumulated.
   */
  method Predict(raw: RawHead, embedding: seq<real>) returns (r: Result<real, string>)
    ensures r == Predicted(raw, embedding)
    ensures GetHead(raw).Err? ==> r == Err(INVALID_HEAD_MESSAGE)
    ensures GetHead(raw).Ok? && |embedding| != EMBEDDING_DIM ==>
              r.Err? && StartsWith(r.error, BAD_EMBEDDING_PREFIX)
    ensures r.Ok? ==> |embedding| == EMBEDDING_DIM && r.value == raw.b.value + Dot(embedding, raw.w.value)
  {
    var head := GetHead(raw);
    if head.Err? {
      return Err(head.error);
    }
    var w := head.value.w;
    var b := head.value.b;
    if |embedding| != EMBEDDING_DIM {
      return Err(BAD_EMBEDDING_PREFIX + NatToString(|embedding|));
    }
    var sum := b;
    for i := 0 to EMBEDDING_DIM
      invariant sum == b + Dot(embedding[..i], w[..i])
    {
      assert embedding[..i + 1][..i] == embedding[..i] && w[..i + 1][..i] == w[..i];
      sum := sum + embedding[i] * w[i];
    }
    assert embedding[..EMBEDDING_DIM] == embedding && w[..EMBEDDING_DIM] == w;
    return Ok(sum);
  }

  predicate AllZero(e: seq<real>) {
    forall i :: 0 <= i < |e| ==> e[i] == 0.0
  }

  lemma {:induction false} DotZero(e: seq<real>, w: seq<real>)
    requires |e| == |w| && AllZero(e)
    ensures Dot(e, w) == 0.0
  {
    if e != [] {
      DotZero(e[..|e| - 1], w[..|w| - 1]);
    }
  }

  /** An all-zero embedding of the right length predicts exactly the bias. */
  lemma PredictZero(raw: RawHead, embedding: seq<real>)
    requires GetHead(raw).Ok? && |embedding| == EMBEDDING_DIM && AllZero(embedding)
    ensures Predicted(raw, embedding) == Ok(raw.b.value)
  {
    DotZero(embedding, raw.w.value);
  }

  /** The dot product is linear in the embedding: scaling the embedding
      scales the sum. */
  lemma {:induction false} DotScale(e: seq<real>, w: seq<real>, k: real)
    requires |e| == |w|
    ensures Dot(seq(|e|, i requires 0 <= i < |e| => k * e[i]), w) == k * Dot(e, w)
  {
    if e != [] {
      var e' := e[..|e| - 1];
      var w' := w[..|w| - 1];
      ScaledInit(e, k);
      DotScale(e', w', k);
      DotStep(Dot(e', w'), Dot(seq(|e'|, i requires 0 <= i < |e'| => k * e'[i]), w'),
              e[|e| - 1], w[|w| - 1], k);
    }
  }

  /** Scaling a vector, then dropping its last entry, is dropping the last
      entry, then scaling. */
  lemma ScaledInit(e: seq<real>, k: real)
    requires e != []
    ensures var ke := seq(|e|, i requires 0 <= i < |e| => k * e[i]);
            var e' := e[..|e| - 1];
            && ke[..|ke| - 1] == seq(|e'|, i requires 0 <= i < |e'| => k * e'[i])
            && ke[|ke| - 1] == k * e[|e| - 1]
  {
    var ke := seq(|e|, i requires 0 <= i < |e| => k * e[i]);
    var e' := e[..|e| - 1];
    var ke' := seq(|e'|, i requires 0 <= i < |e'| => k * e'[i]);
    forall i | 0 <= i < |e'| ensures ke[..|ke| - 1][i] == ke'[i] {
      assert e'[i] == e[i];
    }
  }

  /** The last step of `DotScale`: one more scaled term. */
  lemma DotStep(d: real, kd: real, x: real, y: real, k: real)
    requires kd == k * d
    ensures kd + (k * x) * y == k * (d + x * y)
  {
    assert (k * x) * y == k * (x * y);
    assert k * d + k * (x * y) == k * (d + x * y);
  }

  /** A malformed artifact fails every prediction, whatever the embedding. */
  lemma WeightsCheckedFirst(raw: RawHead, embedding: seq<real>)
    requires !(raw.w.Some? && raw.b.Some? && |raw.w.value| == EMBEDDING_DIM)
    ensures Predicted(raw, embedding) == Err(INVALID_HEAD_MESSAGE)
  {
  }

  /** A well-formed head accepts exactly the embeddings of length 768. */
  lemma PredictAcceptsLength(raw: RawHead, embedding: seq<real>)
    requires GetHead(raw).Ok?
    ensures Predicted(raw, embedding).Ok? <==> |embedding| == EMBEDDING_DIM
  {
  }
}

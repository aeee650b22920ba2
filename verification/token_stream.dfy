/**
 A model of a whitespace-separated numeric input stream that has already been
 split into tokens, and of the `stream >> x` extraction that reads it one token
 at a time. Text-to-number conversion is not modelled: every token is already
 an integer or a real.
 */
module TokenStream {

  /** One whitespace-delimited numeric token. */
  datatype Token = IntTok(i: int) | RealTok(r: real)

  /** Bounds of the 32-bit C++ `int` that integer fields are extracted into. */
  const IntMin: int := -0x8000_0000
  const IntMax: int := 0x7fff_ffff

  predicate InIntRange(x: int) {
    IntMin <= x <= IntMax
  }

  /** A token that extracts cleanly into an `int`. */
  predicate IsInt(t: Token) {
    t.IntTok? && InIntRange(t.i)
  }

  /** The value a token has once extracted into a `double`; an integer token reads as that integer. */
  function AsReal(t: Token): real {
    match t
    case IntTok(i) => i as real
    case RealTok(r) => r
  }

  /** A read cursor: the tokens and the index of the next one to be extracted. */
  datatype Reader = Reader(tokens: seq<Token>, pos: nat)

  /** At least `n` tokens remain. */
  predicate Available(rd: Reader, n: nat) {
    rd.pos + n <= |rd.tokens|
  }

  /** At least `n` tokens remain and each of the next `n` extracts into an `int`. */
  predicate IntsAhead(rd: Reader, n: nat) {
    && Available(rd, n)
    && forall k :: rd.pos <= k < rd.pos + n ==> IsInt(rd.tokens[k])
  }

  /** `rd >> x` for an `int` x. */
  function ReadInt(rd: Reader): (int, Reader)
    requires IntsAhead(rd, 1)
  {
    (rd.tokens[rd.pos].i, rd.(pos := rd.pos + 1))
  }

  /** `rd >> x` for a `double` x. */
  function ReadReal(rd: Reader): (real, Reader)
    requires Available(rd, 1)
  {
    (AsReal(rd.tokens[rd.pos]), rd.(pos := rd.pos + 1))
  }

  /**
   `n` successive `rd >> v[i]` extractions into an `int` vector: element `k`
   comes from the `k`-th token after the cursor, and the cursor moves past
   exactly `n` tokens.
   */
  function ReadInts(rd: Reader, n: nat): (res: (seq<int>, Reader))
    requires IntsAhead(rd, n)
    ensures |res.0| == n
    ensures forall k {:trigger res.0[k]} :: 0 <= k < n ==> rd.tokens[rd.pos + k] == IntTok(res.0[k])
    ensures res.1 == Reader(rd.tokens, rd.pos + n)
    decreases n
  {
    if n == 0 then ([], rd)
    else
      var (x, rest) := ReadInt(rd);
      var (xs, last) := ReadInts(rest, n - 1);
      ([x] + xs, last)
  }

  /**
   `n` successive `rd >> v[i]` extractions into a `double` vector: element `k`
   is the value of the `k`-th token after the cursor, and the cursor moves past
   exactly `n` tokens.
   */
  function ReadReals(rd: Reader, n: nat): (res: (seq<real>, Reader))
    requires Available(rd, n)
    ensures |res.0| == n
    ensures forall k {:trigger res.0[k]} :: 0 <= k < n ==> res.0[k] == AsReal(rd.tokens[rd.pos + k])
    ensures res.1 == Reader(rd.tokens, rd.pos + n)
    decreases n
  {
    if n == 0 then ([], rd)
    else
      var (x, rest) := ReadReal(rd);
      var (xs, last) := ReadReals(rest, n - 1);
      ([x] + xs, last)
  }
}

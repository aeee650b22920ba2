/**
 The Jacobian loader: reads a covariance-estimation header and a sparse
 Jacobian in Compressed Row Storage (CRS) form from a positional token stream.

 Token layout, by index:
   0          lambda            (double)
   1 .. 4     numCams, camParams, numPoints, numObs
   5 .. 7     three fixed-point indices
   8, 9, 10   num_rows, num_cols, numJ (number of stored nonzeros)
   11 ..      num_rows + 1 row offsets, then numJ column indices,
              then numJ values (doubles)
 */
module JacobianIO {
  import opened Wrappers
  import opened TokenStream

  /** The fields of a CRS matrix that the loader writes. */
  datatype CRSMatrix = CRSMatrix(
    numRows: int,
    numCols: int,
    rows: seq<int>,
    cols: seq<int>,
    values: seq<real>)

  /** The fields of the covariance options that the loader writes. */
  datatype Options = Options(
    lambda: real,
    numCams: int,
    camParams: int,
    numPoints: int,
    numObs: int,
    algorithm: int,
    epsilon: real,
    svdRemoveN: int,
    maxIterTE: int,
    pts2fix: Option<seq<int>>)

  /** The boolean result of a load together with the final state of its two in/out records. */
  datatype LoadOutcome = LoadOutcome(ok: bool, jacobian: CRSMatrix, options: Options)

  /** The part of the scene that `read` hands to the loader. */
  datatype Scene = Scene(jacobian: CRSMatrix, options: Options)

  /** Defaults the loader writes whatever the input holds. */
  const Epsilon: real := 0.0000000001
  const SvdRemoveN: int := 7
  const MaxIterTE: int := -1

  /** The covariance algorithm `read` always asks for. */
  const ReadAlgorithm: int := 2

  /** Index of the first row offset. */
  const HeaderLength: nat := 11

  /**
   The tokens can be extracted in the loader's order without a stream
   failure: every integer field is an in-range integer, `num_rows + 1` and
   `numJ` are valid (non-negative, non-overflowing) vector sizes, and there are
   enough tokens for all three arrays.
   */
  predicate WellFormed(ts: seq<Token>) {
    && |ts| >= HeaderLength
    && (forall k :: 1 <= k < HeaderLength ==> IsInt(ts[k]))
    && -1 <= ts[8].i < IntMax
    && 0 <= ts[10].i
    && |ts| >= HeaderLength + (ts[8].i + 1) + 2 * ts[10].i
    && forall k :: HeaderLength <= k < HeaderLength + (ts[8].i + 1) + ts[10].i ==> IsInt(ts[k])
  }

  /** The number of tokens a successful load extracts. */
  function Consumed(ts: seq<Token>): nat
    requires WellFormed(ts)
  {
    HeaderLength + (ts[8].i + 1) + 2 * ts[10].i
  }

  /** The three fixed-point indices are all non-negative. */
  predicate AllFixedPointsSet(ts: seq<Token>)
    requires WellFormed(ts)
  {
    ts[5].i >= 0 && ts[6].i >= 0 && ts[7].i >= 0
  }

  /**
   The options a load of `ts` leaves behind: the caller's `algorithm`, the
   fixed defaults, the five header fields from tokens 0 .. 4 in order, and the
   fixed points from tokens 5 .. 7 when all three are non-negative, otherwise
   the `previous` fixed points untouched.
   */
  predicate HeaderOptions(o: Options, ts: seq<Token>, algorithm: int, previous: Option<seq<int>>)
    requires WellFormed(ts)
  {
    && o.algorithm == algorithm
    && o.epsilon == Epsilon
    && o.svdRemoveN == SvdRemoveN
    && o.maxIterTE == MaxIterTE
    && o.lambda == AsReal(ts[0])
    && ts[1] == IntTok(o.numCams)
    && ts[2] == IntTok(o.camParams)
    && ts[3] == IntTok(o.numPoints)
    && ts[4] == IntTok(o.numObs)
    && (AllFixedPointsSet(ts) ==> o.pts2fix == Some([ts[5].i, ts[6].i, ts[7].i]))
    && (!AllFixedPointsSet(ts) ==> o.pts2fix == previous)
  }

  /**
   The matrix a load of `ts` leaves behind: the shape from tokens 8 and 9,
   `num_rows + 1` row offsets from token 11 on, then `numJ` (token 10) column
   indices, then `numJ` values. Nothing relates the offsets to `numJ` or the
   column indices to `num_cols`.
   */
  predicate MatrixLayout(m: CRSMatrix, ts: seq<Token>)
    requires WellFormed(ts)
  {
    && ts[8] == IntTok(m.numRows)
    && ts[9] == IntTok(m.numCols)
    && |m.rows| == ts[8].i + 1
    && |m.cols| == ts[10].i
    && |m.values| == ts[10].i
    && (forall i {:trigger m.rows[i]} :: 0 <= i < |m.rows| ==>
          ts[HeaderLength + i] == IntTok(m.rows[i]))
    && (forall j {:trigger m.cols[j]} :: 0 <= j < |m.cols| ==>
          ts[HeaderLength + |m.rows| + j] == IntTok(m.cols[j]))
    && (forall j {:trigger m.values[j]} :: 0 <= j < |m.values| ==>
          m.values[j] == AsReal(ts[HeaderLength + |m.rows| + |m.cols| + j]))
  }

  /**
   The header half of the load: the caller's algorithm and the fixed defaults
   are written first, then tokens 0 .. 7 are extracted into the options.
   */
  function LoadOptions(ts: seq<Token>, algorithm: int, options: Options): (res: (Options, Reader))
    requires WellFormed(ts)
    ensures HeaderOptions(res.0, ts, algorithm, options.pts2fix)
    ensures res.1 == Reader(ts, 8)
  {
    var defaults := options.(algorithm := algorithm, epsilon := Epsilon,
                             svdRemoveN := SvdRemoveN, maxIterTE := MaxIterTE);
    var (lambda, rd1) := ReadReal(Reader(ts, 0));
    var (numCams, rd2) := ReadInt(rd1);
    var (camParams, rd3) := ReadInt(rd2);
    var (numPoints, rd4) := ReadInt(rd3);
    var (numObs, rd5) := ReadInt(rd4);
    var (fix0, rd6) := ReadInt(rd5);
    var (fix1, rd7) := ReadInt(rd6);
    var (fix2, rd8) := ReadInt(rd7);
    var pts2fix :=
      if fix0 >= 0 && fix1 >= 0 && fix2 >= 0 then Some([fix0, fix1, fix2])
      else options.pts2fix;
    (defaults.(lambda := lambda, numCams := numCams, camParams := camParams,
               numPoints := numPoints, numObs := numObs, pts2fix := pts2fix),
     rd8)
  }

  /**
   The matrix half of the load, starting at token 8: the shape, then the
   three vectors, each sized from the shape before it is filled. The cursor
   ends exactly `Consumed` tokens in.
   */
  function LoadMatrix(rd: Reader): (res: (CRSMatrix, Reader))
    requires WellFormed(rd.tokens) && rd.pos == 8
    ensures MatrixLayout(res.0, rd.tokens)
    ensures res.1 == Reader(rd.tokens, Consumed(rd.tokens))
  {
    var (numRows, rd1) := ReadInt(rd);
    var (numCols, rd2) := ReadInt(rd1);
    var (numJ, rd3) := ReadInt(rd2);
    var (rows, afterRows) := ReadInts(rd3, numRows + 1);
    var (cols, afterCols) := ReadInts(afterRows, numJ);
    var (values, afterValues) := ReadReals(afterCols, numJ);
    (CRSMatrix(numRows, numCols, rows, cols, values), afterValues)
  }

  /**
   `loadJacobian(file, algorithm, jacobian, options)`. `good` is the stream's
   readiness; `jacobian` and `options` are the records as they were before the
   call, and the outcome holds them as they are after it.
   */
  function LoadJacobian(good: bool, ts: seq<Token>, algorithm: int,
                        jacobian: CRSMatrix, options: Options): (r: LoadOutcome)
    requires good ==> WellFormed(ts)
    // a stream that is not ready fails the load and leaves both records alone
    ensures !good ==> !r.ok && r.jacobian == jacobian && r.options == options
    // a ready stream always succeeds: no CRS consistency check is made
    ensures good ==> r.ok
    ensures good ==> HeaderOptions(r.options, ts, algorithm, options.pts2fix)
    ensures good ==> MatrixLayout(r.jacobian, ts)
  {
    if !good then LoadOutcome(false, jacobian, options)
    else
      var (opts, afterHeader) := LoadOptions(ts, algorithm, options);
      var (matrix, _) := LoadMatrix(afterHeader);
      LoadOutcome(true, matrix, opts)
  }

  /** Tokens `lo .. hi - 1` of the two streams are the same. */
  predicate SameTokens(ts: seq<Token>, other: seq<Token>, lo: nat, hi: nat) {
    && lo <= hi <= |ts| && hi <= |other|
    && forall k :: lo <= k < hi ==> other[k] == ts[k]
  }

  lemma SameTokensRefl(ts: seq<Token>, hi: nat)
    requires hi <= |ts|
    ensures SameTokens(ts, ts, 0, hi)
  {
  }

  /** The options layout pins down every field: two stream headers that agree give equal options. */
  lemma HeaderOptionsDetermined(a: Options, b: Options, ts: seq<Token>, other: seq<Token>,
                                algorithm: int, previous: Option<seq<int>>)
    requires WellFormed(ts) && WellFormed(other)
    requires SameTokens(ts, other, 0, HeaderLength)
    requires HeaderOptions(a, ts, algorithm, previous)
    requires HeaderOptions(b, other, algorithm, previous)
    ensures a == b
  {
  }

  /**
   The matrix layout pins down every field: two streams that agree on their
   consumed tokens describe equal matrices.
   */
  lemma MatrixLayoutDetermined(a: CRSMatrix, b: CRSMatrix, ts: seq<Token>, other: seq<Token>)
    requires WellFormed(ts) && WellFormed(other)
    requires SameTokens(ts, other, 0, Consumed(ts))
    requires MatrixLayout(a, ts) && MatrixLayout(b, other)
    ensures a == b
  {
  }

  /**
   A counting loop `for (i = 0; i < n; ++i) file >> v[i];` over a
   zero-initialised `int` vector of size `n`, with the cursor at `start`.
   */
  method FillInts(ts: seq<Token>, start: nat, n: nat) returns (v: seq<int>, pos: nat)
    requires IntsAhead(Reader(ts, start), n)
    ensures (v, Reader(ts, pos)) == ReadInts(Reader(ts, start), n)
  {
    v := seq(n, _ => 0);
    pos := start;
    var i := 0;
    while i < n
      invariant 0 <= i <= n
      invariant pos == start + i
      invariant |v| == n
      invariant forall k {:trigger v[k]} :: 0 <= k < i ==> ts[start + k] == IntTok(v[k])
    {
      v := v[i := ts[pos].i];
      pos := pos + 1;
      i := i + 1;
    }
    assert v == ReadInts(Reader(ts, start), n).0;
  }

  /** The same counting loop over a zero-initialised `double` vector. */
  method FillReals(ts: seq<Token>, start: nat, n: nat) returns (v: seq<real>, pos: nat)
    requires Available(Reader(ts, start), n)
    ensures (v, Reader(ts, pos)) == ReadReals(Reader(ts, start), n)
  {
    v := seq(n, _ => 0.0);
    pos := start;
    var i := 0;
    while i < n
      invariant 0 <= i <= n
      invariant pos == start + i
      invariant |v| == n
      invariant forall k {:trigger v[k]} :: 0 <= k < i ==> v[k] == AsReal(ts[start + k])
    {
      v := v[i := AsReal(ts[pos])];
      pos := pos + 1;
      i := i + 1;
    }
    assert v == ReadReals(Reader(ts, start), n).0;
  }

  /**
   The header statements of the source in order: the caller's algorithm and
   the defaults are assigned, then eight header tokens are extracted one after
   another from a cursor at the start of the stream, and the fixed points are
   kept only when all three are non-negative. `pos` is where the cursor ends.
   */
  method AssignOptions(ts: seq<Token>, algorithm: int, options: Options) returns (opts: Options, pos: nat)
    requires WellFormed(ts)
    ensures HeaderOptions(opts, ts, algorithm, options.pts2fix)
    ensures pos == 8
  {
    opts := options.(algorithm := algorithm, epsilon := Epsilon,
                     svdRemoveN := SvdRemoveN, maxIterTE := MaxIterTE);
    var (lambda, rd1) := ReadReal(Reader(ts, 0));
    var (numCams, rd2) := ReadInt(rd1);
    var (camParams, rd3) := ReadInt(rd2);
    var (numPoints, rd4) := ReadInt(rd3);
    var (numObs, rd5) := ReadInt(rd4);
    opts := opts.(lambda := lambda, numCams := numCams, camParams := camParams,
                  numPoints := numPoints, numObs := numObs);
    var (fix0, rd6) := ReadInt(rd5);
    var (fix1, rd7) := ReadInt(rd6);
    var (fix2, rd8) := ReadInt(rd7);
    if fix0 >= 0 && fix1 >= 0 && fix2 >= 0 {
      opts := opts.(pts2fix := Some([fix0, fix1, fix2]));
    }
    pos := rd8.pos;
  }

  /**
   The matrix statements of the source, continuing from the cursor the header
   left at `start`: the shape is extracted, the three vectors are sized from
   it, and the three counting loops fill them. `consumed` is where the cursor
   ends.
   */
  method FillMatrix(ts: seq<Token>, start: nat) returns (jac: CRSMatrix, consumed: nat)
    requires WellFormed(ts) && start == 8
    ensures MatrixLayout(jac, ts)
    ensures consumed == Consumed(ts)
  {
    var (numRows, rd1) := ReadInt(Reader(ts, start));
    var (numCols, rd2) := ReadInt(rd1);
    var (numJ, rd3) := ReadInt(rd2);
    var rows, cols, values;
    var pos := rd3.pos;
    rows, pos := FillInts(ts, pos, numRows + 1);
    cols, pos := FillInts(ts, pos, numJ);
    values, pos := FillReals(ts, pos, numJ);
    jac := CRSMatrix(numRows, numCols, rows, cols, values);
    consumed := pos;
  }

  /**
   The load written as the source writes it: a cursor into the stream, the
   options assigned before anything is read, and three counting loops.
   `consumed` is the number of tokens extracted.
   */
  method LoadJacobianByLoops(good: bool, ts: seq<Token>, algorithm: int,
                             jacobian: CRSMatrix, options: Options)
    returns (ok: bool, jac: CRSMatrix, opts: Options, consumed: nat)
    requires good ==> WellFormed(ts)
    ensures ok == good
    ensures LoadOutcome(ok, jac, opts) == LoadJacobian(good, ts, algorithm, jacobian, options)
    ensures ok ==> consumed == Consumed(ts)
    ensures !ok ==> consumed == 0
  {
    if !good {
      return false, jacobian, options, 0;
    }
    var pos;
    opts, pos := AssignOptions(ts, algorithm, options);
    jac, consumed := FillMatrix(ts, pos);
    ok := true;
    var reference := LoadJacobian(good, ts, algorithm, jacobian, options);
    SameTokensRefl(ts, Consumed(ts));
    HeaderOptionsDetermined(opts, reference.options, ts, ts, algorithm, options.pts2fix);
    MatrixLayoutDetermined(jac, reference.jacobian, ts, ts);
  }

  /**
   `read(input_dir, scene)`: the opened file's readiness and contents are
   `fileGood` and `ts`, and the loader is always asked for algorithm 2.
   */
  function Read(fileGood: bool, ts: seq<Token>, scene: Scene): (r: (bool, Scene))
    requires fileGood ==> WellFormed(ts)
    ensures r.0 == fileGood
    ensures !r.0 ==> r.1 == scene
    ensures r.0 ==> r.1.options.algorithm == ReadAlgorithm
    ensures r.0 ==> HeaderOptions(r.1.options, ts, ReadAlgorithm, scene.options.pts2fix)
    ensures r.0 ==> MatrixLayout(r.1.jacobian, ts)
  {
    var outcome := LoadJacobian(fileGood, ts, ReadAlgorithm, scene.jacobian, scene.options);
    (outcome.ok, Scene(outcome.jacobian, outcome.options))
  }

  /**
   The load reads nothing past its `Consumed(ts)` tokens: any stream that
   agrees on that prefix, whatever follows it, loads to the same records.
   */
  lemma LoadIgnoresTrailingTokens(ts: seq<Token>, other: seq<Token>, algorithm: int,
                                  jacobian: CRSMatrix, options: Options)
    requires WellFormed(ts)
    requires SameTokens(ts, other, 0, Consumed(ts))
    ensures WellFormed(other) && Consumed(other) == Consumed(ts)
    ensures LoadJacobian(true, other, algorithm, jacobian, options)
         == LoadJacobian(true, ts, algorithm, jacobian, options)
  {
    assert WellFormed(other);
    var a := LoadJacobian(true, ts, algorithm, jacobian, options);
    var b := LoadJacobian(true, other, algorithm, jacobian, options);
    HeaderOptionsDetermined(a.options, b.options, ts, other, algorithm, options.pts2fix);
    MatrixLayoutDetermined(a.jacobian, b.jacobian, ts, other);
  }

  /**
   `WellFormed` asks for all `Consumed(ts)` tokens: it rejects each shorter
   prefix. The source itself does not notice a truncated stream and still
   returns `true`; the model rules such input out by precondition.
   */
  lemma WellFormedNeedsConsumedTokens(ts: seq<Token>, n: nat)
    requires WellFormed(ts)
    requires n < Consumed(ts)
    ensures !WellFormed(ts[..n])
  {
  }

  /**
   For a caller whose options hold no fixed points yet, the load leaves fixed
   points present exactly when all three indices are non-negative; one
   negative index discards the whole triple.
   */
  lemma FixedPointsAllOrNothing(ts: seq<Token>, algorithm: int, jacobian: CRSMatrix, options: Options)
    requires WellFormed(ts) && options.pts2fix.None?
    ensures LoadJacobian(true, ts, algorithm, jacobian, options).options.pts2fix.Some?
        <==> ts[5].i >= 0 && ts[6].i >= 0 && ts[7].i >= 0
  {
  }

  /**
   The loaded offsets end at the loaded entry count exactly when the file
   says so: the loader neither checks nor repairs the CRS invariant.
   */
  lemma LoadedOffsetsEndAtEntryCountIff(ts: seq<Token>, algorithm: int, jacobian: CRSMatrix, options: Options)
    requires WellFormed(ts) && ts[8].i >= 0
    ensures var m := LoadJacobian(true, ts, algorithm, jacobian, options).jacobian;
      m.rows[m.numRows] == |m.cols| <==> ts[HeaderLength + ts[8].i] == ts[10]
  {
  }
}

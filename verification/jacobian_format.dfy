/**
 The positional file layout the loader reads, written out as a token
 sequence, and the round trip that ties it to the loader: loading the layout
 of a header and a matrix gives back exactly that matrix and header.
 */
module JacobianFormat {
  import opened Wrappers
  import opened TokenStream
  import opened JacobianIO

  /** The eight header values of the file: lambda, four counts, three fixed-point indices. */
  datatype Header = Header(
    lambda: real,
    numCams: int,
    camParams: int,
    numPoints: int,
    numObs: int,
    fixPts: seq<int>)

  predicate AllInIntRange(xs: seq<int>) {
    forall k :: 0 <= k < |xs| ==> InIntRange(xs[k])
  }

  /** A header whose integer fields fit the loader's `int`s. */
  predicate ValidHeader(h: Header) {
    && |h.fixPts| == 3
    && InIntRange(h.numCams) && InIntRange(h.camParams)
    && InIntRange(h.numPoints) && InIntRange(h.numObs)
    && AllInIntRange(h.fixPts)
  }

  /**
   A matrix the loader can reproduce: its arrays have the lengths its shape
   implies and every integer fits an `int`. Nothing is required of the CRS
   contents themselves (offsets need not be sorted or end at `numJ`).
   */
  predicate ValidMatrix(m: CRSMatrix) {
    && -1 <= m.numRows < IntMax
    && InIntRange(m.numCols)
    && |m.rows| == m.numRows + 1
    && |m.cols| == |m.values| <= IntMax
    && AllInIntRange(m.rows)
    && AllInIntRange(m.cols)
  }

  function IntTokens(xs: seq<int>): (ts: seq<Token>)
    ensures |ts| == |xs|
    ensures forall k :: 0 <= k < |xs| ==> ts[k] == IntTok(xs[k])
  {
    seq(|xs|, k requires 0 <= k < |xs| => IntTok(xs[k]))
  }

  function RealTokens(xs: seq<real>): (ts: seq<Token>)
    ensures |ts| == |xs|
    ensures forall k :: 0 <= k < |xs| ==> ts[k] == RealTok(xs[k])
  {
    seq(|xs|, k requires 0 <= k < |xs| => RealTok(xs[k]))
  }

  /**
   The file's tokens in order: header, shape (with `numJ` the number of stored
   entries), row offsets, column indices, values. A valid header and matrix
   give a stream the loader accepts and reads to its last token.
   */
  function Serialize(h: Header, m: CRSMatrix): (ts: seq<Token>)
    requires |h.fixPts| == 3
    ensures ValidHeader(h) && ValidMatrix(m) ==> WellFormed(ts) && Consumed(ts) == |ts|
  {
    [RealTok(h.lambda), IntTok(h.numCams), IntTok(h.camParams), IntTok(h.numPoints), IntTok(h.numObs)]
    + IntTokens(h.fixPts)
    + [IntTok(m.numRows), IntTok(m.numCols), IntTok(|m.cols|)]
    + IntTokens(m.rows)
    + IntTokens(m.cols)
    + RealTokens(m.values)
  }

  /** Where each header field and array element sits in the serialized stream. */
  lemma SerializeLayout(h: Header, m: CRSMatrix)
    requires |h.fixPts| == 3
    ensures var ts := Serialize(h, m);
      && |ts| == HeaderLength + |m.rows| + |m.cols| + |m.values|
      && ts[0] == RealTok(h.lambda)
      && ts[1] == IntTok(h.numCams) && ts[2] == IntTok(h.camParams)
      && ts[3] == IntTok(h.numPoints) && ts[4] == IntTok(h.numObs)
      && ts[5] == IntTok(h.fixPts[0]) && ts[6] == IntTok(h.fixPts[1]) && ts[7] == IntTok(h.fixPts[2])
      && ts[8] == IntTok(m.numRows) && ts[9] == IntTok(m.numCols) && ts[10] == IntTok(|m.cols|)
      && (forall i {:trigger m.rows[i]} :: 0 <= i < |m.rows| ==> ts[HeaderLength + i] == IntTok(m.rows[i]))
      && (forall j {:trigger m.cols[j]} :: 0 <= j < |m.cols| ==> ts[HeaderLength + |m.rows| + j] == IntTok(m.cols[j]))
      && (forall j {:trigger m.values[j]} :: 0 <= j < |m.values| ==>
            ts[HeaderLength + |m.rows| + |m.cols| + j] == RealTok(m.values[j]))
  {
  }

  /** A serialized matrix is laid out where the loader looks for it. */
  lemma SerializeMatrixLayout(h: Header, m: CRSMatrix)
    requires ValidHeader(h) && ValidMatrix(m)
    ensures WellFormed(Serialize(h, m)) && MatrixLayout(m, Serialize(h, m))
  {
    SerializeLayout(h, m);
  }

  /**
   Loading a serialized header and matrix succeeds and returns that matrix,
   the header's fields, the caller's algorithm and the fixed defaults; the
   fixed points are taken only when all three are non-negative.
   */
  lemma LoadSerializeRoundTrip(h: Header, m: CRSMatrix, algorithm: int,
                               jacobian: CRSMatrix, options: Options)
    requires ValidHeader(h) && ValidMatrix(m)
    ensures WellFormed(Serialize(h, m))
    ensures LoadJacobian(true, Serialize(h, m), algorithm, jacobian, options)
         == LoadOutcome(
              true,
              m,
              Options(h.lambda, h.numCams, h.camParams, h.numPoints, h.numObs,
                      algorithm, Epsilon, SvdRemoveN, MaxIterTE,
                      if h.fixPts[0] >= 0 && h.fixPts[1] >= 0 && h.fixPts[2] >= 0
                      then Some(h.fixPts) else options.pts2fix))
  {
    var ts := Serialize(h, m);
    SerializeMatrixLayout(h, m);
    var r := LoadJacobian(true, ts, algorithm, jacobian, options);
    var expected := Options(h.lambda, h.numCams, h.camParams, h.numPoints, h.numObs,
                            algorithm, Epsilon, SvdRemoveN, MaxIterTE,
                            if h.fixPts[0] >= 0 && h.fixPts[1] >= 0 && h.fixPts[2] >= 0
                            then Some(h.fixPts) else options.pts2fix);
    assert HeaderOptions(expected, ts, algorithm, options.pts2fix) by {
      SerializeLayout(h, m);
      assert [ts[5].i, ts[6].i, ts[7].i] == h.fixPts;
    }
    SameTokensRefl(ts, Consumed(ts));
    HeaderOptionsDetermined(r.options, expected, ts, ts, algorithm, options.pts2fix);
    MatrixLayoutDetermined(r.jacobian, m, ts, ts);
  }
}

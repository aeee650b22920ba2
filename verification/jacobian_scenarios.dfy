/**
 Concrete loads of small files, each showing one behaviour of the loader.
 Each file is given as a header and matrix laid out by `Serialize`, or
 literally with its equality to that layout proved; the caller's records
 before the load are left arbitrary.
 */
module JacobianScenarios {
  import opened Wrappers
  import opened TokenStream
  import opened JacobianIO
  import opened JacobianFormat

  /**
   A 3 x 4 Jacobian with six stored entries; in file order its tokens are
     0.001 2 9 5 10 / 0 1 2 / 3 4 6 / 0 2 4 6 / 0 1 0 2 1 2 / 1.0 .. 6.0
   */
  const ExampleHeader := Header(0.001, 2, 9, 5, 10, [0, 1, 2])
  const ExampleMatrix := CRSMatrix(3, 4, [0, 2, 4, 6], [0, 1, 0, 2, 1, 2], [1.0, 2.0, 3.0, 4.0, 5.0, 6.0])

  /** The example's file, token by token. */
  const ExampleFile: seq<Token> :=
    [RealTok(0.001), IntTok(2), IntTok(9), IntTok(5), IntTok(10),
     IntTok(0), IntTok(1), IntTok(2),
     IntTok(3), IntTok(4), IntTok(6),
     IntTok(0), IntTok(2), IntTok(4), IntTok(6),
     IntTok(0), IntTok(1), IntTok(0), IntTok(2), IntTok(1), IntTok(2),
     RealTok(1.0), RealTok(2.0), RealTok(3.0), RealTok(4.0), RealTok(5.0), RealTok(6.0)]

  /** Serializing the example's header and matrix writes exactly its file. */
  lemma ExampleFileIsSerialized()
    ensures Serialize(ExampleHeader, ExampleMatrix) == ExampleFile
  {
  }

  lemma ExampleIsValid()
    ensures ValidHeader(ExampleHeader) && ValidMatrix(ExampleMatrix)
  {
  }

  lemma ExampleLoads(jacobian: CRSMatrix, options: Options)
    ensures WellFormed(ExampleFile)
    ensures var r := LoadJacobian(true, ExampleFile, ReadAlgorithm, jacobian, options);
      && r.ok
      && r.jacobian == ExampleMatrix
      && r.jacobian.rows[r.jacobian.numRows] == |r.jacobian.cols| == |r.jacobian.values| == 6
      && r.options == Options(0.001, 2, 9, 5, 10, 2, Epsilon, 7, -1, Some([0, 1, 2]))
  {
    ExampleFileIsSerialized();
    ExampleIsValid();
    LoadSerializeRoundTrip(ExampleHeader, ExampleMatrix, ReadAlgorithm, jacobian, options);
  }

  /** The same file with fixed points `-1 5 2`: the caller's previous fixed points survive. */
  lemma NegativeFixKeepsPrevious(jacobian: CRSMatrix, options: Options)
    ensures var h := ExampleHeader.(fixPts := [-1, 5, 2]);
      && WellFormed(Serialize(h, ExampleMatrix))
      && LoadJacobian(true, Serialize(h, ExampleMatrix), ReadAlgorithm, jacobian, options).options.pts2fix
         == options.pts2fix
  {
    ExampleIsValid();
    var h := ExampleHeader.(fixPts := [-1, 5, 2]);
    assert ValidHeader(h);
    LoadSerializeRoundTrip(h, ExampleMatrix, ReadAlgorithm, jacobian, options);
  }

  /**
   A 1 x 2 matrix whose last row offset (5) is not its entry count (2) and
   whose column index (9) is outside its 2 columns still loads as written.
   */
  const Inconsistent := CRSMatrix(1, 2, [0, 5], [9, 0], [7.5, 8.5])

  lemma InconsistentMatrixIsAccepted(jacobian: CRSMatrix, options: Options)
    ensures WellFormed(Serialize(ExampleHeader, Inconsistent))
    ensures var r := LoadJacobian(true, Serialize(ExampleHeader, Inconsistent), ReadAlgorithm, jacobian, options);
      && r.ok
      && r.jacobian == Inconsistent
      && r.jacobian.rows[r.jacobian.numRows] != |r.jacobian.cols|
      && r.jacobian.cols[0] >= r.jacobian.numCols
  {
    ExampleIsValid();
    assert AllInIntRange(Inconsistent.rows) && AllInIntRange(Inconsistent.cols);
    LoadSerializeRoundTrip(ExampleHeader, Inconsistent, ReadAlgorithm, jacobian, options);
  }

  /** `num_rows = -1` sizes the offset vector at zero: the file ends after its eleven header tokens. */
  lemma MinusOneRowsReadsNoOffsets(jacobian: CRSMatrix, options: Options)
    ensures var m := CRSMatrix(-1, 3, [], [], []);
      && WellFormed(Serialize(ExampleHeader, m))
      && Consumed(Serialize(ExampleHeader, m)) == HeaderLength
      && LoadJacobian(true, Serialize(ExampleHeader, m), 1, jacobian, options).jacobian == m
  {
    ExampleIsValid();
    var m := CRSMatrix(-1, 3, [], [], []);
    LoadSerializeRoundTrip(ExampleHeader, m, 1, jacobian, options);
  }

  /** A stream that is not ready fails and hands back the caller's records, whatever it holds. */
  lemma NotReadyLeavesRecords(ts: seq<Token>, jacobian: CRSMatrix, options: Options)
    ensures LoadJacobian(false, ts, ReadAlgorithm, jacobian, options) == LoadOutcome(false, jacobian, options)
  {
  }
}

# Jacobian loader model

A Dafny model of the Jacobian loader of uncertaintyTE (`JacobianIO::loadJacobian`
and the `read` wrapper around it). The loader reads a whitespace-separated,
purely positional numeric file into two records:

- the covariance **options**: `lambda`, `numCams`, `camParams`, `numPoints`,
  `numObs` from the file; `algorithm` from the caller; the fixed defaults
  `epsilon = 1e-10`, `svdRemoveN = 7`, `maxIterTE = -1`; and the three fixed
  point indices `pts2fix`, taken only when all three are non-negative;
- a sparse **Jacobian in Compressed Row Storage (CRS)** form: `num_rows`,
  `num_cols`, then `num_rows + 1` row offsets, `numJ` column indices and
  `numJ` values.

The file is modelled as an already tokenised `seq<Token>` with
`Token = IntTok(int) | RealTok(real)`. The stream's readiness (`file.good()`)
is a boolean input. The loader's in/out records become inputs (their state
before the call) and a `LoadOutcome(ok, jacobian, options)` result (their state
after it). This makes two rules statable: a failed load changes nothing, and
negative fixed points leave the caller's earlier `pts2fix` in place.

Modules:

- `Wrappers` (`wrappers.dfy`): `Option`, standing for the owned `int[3]` allocation.
- `TokenStream` (`token_stream.dfy`): tokens, the 32-bit `int` range, a read
  cursor, and `stream >> x` for one value (`ReadInt`, `ReadReal`) and for `n` values
  (`ReadInts`, `ReadReals`).
- `JacobianIO` (`jacobian_io.dfy`): the records and the load.
  - `WellFormed` says which token sequences extract without a stream failure
    or an invalid vector size.
    `Consumed` is the number of tokens extracted.
  - `HeaderOptions` and `MatrixLayout` say, index by index, which token each
    field comes from. They are the reference the load is proved against.
  - Functional loader: `LoadOptions`, `LoadMatrix`, `LoadJacobian`, `Read`.
  - Statement-level loader that extracts through a cursor and fills vectors
    with counting loops, as the source does: `FillInts`,
    `FillReals`, `AssignOptions`, `FillMatrix`, `LoadJacobianByLoops`.
  - Lemmas relating the two loaders and the source's promises.
- `JacobianFormat` (`jacobian_format.dfy`): the file layout as a token
  sequence (`Serialize`), and the round trip from load to serialize.
- `JacobianScenarios` (`jacobian_scenarios.dfy`): small concrete files.

Behaviour of the code that the model keeps as written:

- When any fixed index is negative the code leaves `pts2fix` as it was, so an
  earlier value survives (`src/JacobianIO.cpp:48-49`).
- The code does not detect truncated or non-numeric input. The model requires
  `WellFormed` input instead.
- The code does not check the CRS invariants (offsets non-decreasing,
  `rows[num_rows] == numJ`, column indices below `num_cols`). The model accepts
  inputs that break them (`InconsistentMatrixIsAccepted`,
  `LoadedOffsetsEndAtEntryCountIff`).

## Model

| member | source | states |
|---|---|---|
| TokenStream.ReadInts | src/JacobianIO.cpp:56-59 | `n` successive `int` extractions (each one `ReadInt` step, `file >> v[i]`) give a vector of length `n`. Its element `k` is the `k`-th token after the cursor, and the cursor moves past exactly `n` tokens |
| TokenStream.ReadReals | src/JacobianIO.cpp:60-61 | `n` successive `double` extractions (each one `ReadReal` step) give a vector of length `n`. Its element `k` is the value of the `k`-th token after the cursor (an integer token reads as that integer), and the cursor moves past exactly `n` tokens |
| JacobianIO.LoadOptions | src/JacobianIO.cpp:41-49 | The options get the caller's algorithm, `epsilon = 1e-10`, `svdRemoveN = 7`, `maxIterTE = -1`, and tokens 0..4 in order as `lambda`, `numCams`, `camParams`, `numPoints`, `numObs`. `pts2fix` becomes tokens 5..7 when all three are non-negative, and otherwise keeps its previous value. The cursor ends at token 8 |
| JacobianIO.LoadMatrix | src/JacobianIO.cpp:51-61 | `num_rows` and `num_cols` are tokens 8 and 9. `rows` has `num_rows + 1` elements, with `rows[i]` = token `11 + i`. `cols` and `values` each have `numJ` (token 10) elements: `cols[j]` is token `12 + num_rows + j` and `values[j]` is token `12 + num_rows + numJ + j`. The cursor ends after exactly `11 + (num_rows + 1) + 2·numJ` tokens |
| JacobianIO.LoadJacobian | src/JacobianIO.cpp:33-63 | A stream that is not ready returns false and leaves both records unchanged. A ready stream always returns true, with no CRS check. The options and matrix then follow the header and matrix layouts above |
| JacobianIO.HeaderOptionsDetermined | src/JacobianIO.cpp:41-49 | The header layout fixes every options field. Two streams that agree on tokens 0..10 give equal options for the same algorithm and previous `pts2fix` |
| JacobianIO.MatrixLayoutDetermined | src/JacobianIO.cpp:51-61 | The matrix layout fixes every matrix field. Two streams that agree on the consumed tokens give equal matrices |
| JacobianIO.FillInts | src/JacobianIO.cpp:56-59 | The counting loop writing `file >> v[i]` into a zero-initialised `int` vector gives the same vector and cursor as `ReadInts` |
| JacobianIO.FillReals | src/JacobianIO.cpp:60-61 | The counting loop over a zero-initialised `double` vector gives the same vector and cursor as `ReadReals` |
| JacobianIO.AssignOptions | src/JacobianIO.cpp:41-49 | Assigning the algorithm and defaults, then extracting eight values one after another from a cursor at the start of the stream, gives options that satisfy the header layout (token `k` lands in the `k`-th field, all-or-nothing fixed points), and leaves the cursor at token 8 |
| JacobianIO.FillMatrix | src/JacobianIO.cpp:51-61 | Continuing from the cursor the header left at token 8, extracting the shape, sizing the three vectors from it and running the three loops gives a matrix that satisfies the matrix layout. The number of tokens consumed is `Consumed(ts)` |
| JacobianIO.LoadJacobianByLoops | src/JacobianIO.cpp:33-63 | The statement-by-statement load returns the same flag and records as `LoadJacobian`. On success it has extracted exactly `Consumed(ts)` tokens |
| JacobianIO.Read | src/JacobianIO.cpp:24-27 | `read` succeeds exactly when the opened file is good. It always loads with algorithm 2, and on success the scene's records follow the header and matrix layouts. On failure the scene is unchanged |
| JacobianIO.LoadIgnoresTrailingTokens | src/JacobianIO.cpp:56-63 | Any stream that shares the first `Consumed(ts)` tokens, whatever follows them, is well formed and loads to the same records |
| JacobianIO.WellFormedNeedsConsumedTokens | src/JacobianIO.cpp:46-61 | `WellFormed` rejects every prefix shorter than `Consumed(ts)`. The source itself does not notice such a truncated stream and still returns `true` (line 63); the model excludes it by precondition |
| JacobianIO.FixedPointsAllOrNothing | src/JacobianIO.cpp:47-49 | Starting from no fixed points, the load leaves fixed points present if and only if all three indices are non-negative |
| JacobianIO.LoadedOffsetsEndAtEntryCountIff | src/JacobianIO.cpp:52-63 | For `num_rows >= 0`, the loaded `rows[num_rows]` equals the loaded entry count if and only if the file's token `11 + num_rows` equals its `numJ` token. The loader neither checks nor repairs this |
| JacobianFormat.Serialize | src/JacobianIO.cpp:46-61 | Laying out a valid header and matrix in the loader's field order gives a well-formed stream. The loader consumes all of it |
| JacobianFormat.LoadSerializeRoundTrip | src/JacobianIO.cpp:41-61 | Loading a serialized header and matrix gives back the matrix unchanged (inconsistent CRS contents included). It also gives the header's five fields, the caller's algorithm and the fixed defaults. The fixed points are kept only when all three are non-negative, and otherwise stay as before |
| JacobianScenarios.ExampleFileIsSerialized | src/JacobianIO.cpp:46-61 | The example header and matrix, laid out in the order the loader reads them, are exactly the 27 tokens `0.001 2 9 5 10 / 0 1 2 / 3 4 6 / 0 2 4 6 / 0 1 0 2 1 2 / 1.0 .. 6.0` |
| JacobianScenarios.ExampleLoads | src/JacobianIO.cpp:33-63 | The literal 27-token file `0.001 2 9 5 10 / 0 1 2 / 3 4 6 / 0 2 4 6 / 0 1 0 2 1 2 / 1.0 .. 6.0` is well formed and loads to a 3 x 4 matrix with rows `[0,2,4,6]`, cols `[0,1,0,2,1,2]`, values `1.0..6.0` and `pts2fix = [0,1,2]` |
| JacobianScenarios.NegativeFixKeepsPrevious | src/JacobianIO.cpp:47-49 | With fixed points `-1 5 2`, the caller's previous `pts2fix` is what remains |
| JacobianScenarios.InconsistentMatrixIsAccepted | src/JacobianIO.cpp:51-63 | A matrix whose last offset differs from its entry count, and whose column index is out of range, loads successfully as written |
| JacobianScenarios.MinusOneRowsReadsNoOffsets | src/JacobianIO.cpp:52-57 | `num_rows = -1` gives an empty offset vector. The load consumes only the eleven header tokens |
| JacobianScenarios.NotReadyLeavesRecords | src/JacobianIO.cpp:34-37 | A stream that is not ready gives `false` and the caller's records, whatever the tokens are |

## Left out

- Opening the file with `std::ifstream` (`src/JacobianIO.cpp:25`) is I/O. The model takes the stream's readiness as a boolean and its contents as tokens.
- `write` (`src/JacobianIO.cpp:29-31`) only terminates the process, so it has no behaviour to model. `Serialize` is a file layout used to state the round trip, not a model of `write`.
- `data_type()`, the constructor and the destructor (`src/JacobianIO.cpp:16-22`) are trivial, and the field they touch is not part of this model.
- Text-to-number conversion and the stream's failbit are not modelled: zero-filling or stalling on truncated, non-numeric or out-of-range input. `LoadJacobian` and its companions require `WellFormed` input. Every integer field must be an in-range `int` token and there must be enough tokens. A `double` field accepts either token kind.
- `WellFormed` also excludes `num_rows + 1 < 0` and `numJ < 0`. In C++ these are undefined or throwing sizes for `std::vector`. It excludes `num_rows = INT_MAX` too, where `num_rows + 1` overflows.
- `double` is modelled as `real`. Values and `lambda` are only copied, never computed on. `epsilon` is the exact real `1e-10`, not its nearest `double`.
- `algorithm` is an unbounded `int`. The caller passes it through unchanged.
- The raw `int[3]` allocation for `pts2fix` becomes `Option<seq<int>>`. Its ownership is not modelled, nor is the leak of an earlier allocation when a new one replaces it.
- The diagnostic written to `stderr` on failure is not modelled.
- The definitions of `ceres::CRSMatrix`, `cov::Options` and `Scene` are not part of this model. The records hold only the fields the loader writes.

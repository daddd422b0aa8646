# rhai-sci matrix layer in Dafny

This project models the shape-polymorphic matrix layer of rhai-sci, a numeric extension for the
rhai scripting language. Scripts pass nested, dynamically typed arrays. The layer reads them as
lists, row vectors (`1×N`), column vectors (`N×1`) or matrices, converts between orientations,
and moves a matrix to nalgebra's dense `DMatrix<FLOAT>` and back. It uses that bridge for
transpose and for horizontal and vertical concatenation.

- `dynamic.dfy` (module `Dynamic`) holds the dynamic element `Value`. It is an INT, a FLOAT, a
  nested array or any other value. It also holds the `Result` the fallible operations return,
  with the exact `ErrorArithmetic` message.
- `shapes.dfy` (module `Shapes`) holds the crate helpers that the core calls but whose source is
  not part of this model. These are `matrix_size_by_reference` (`Size`), `flatten` (`Flatten`),
  `numel_by_reference` (`Numel`), `int_and_float_totals` (`Tally`) and `stats::prod` (`Prod`).
  **Their definitions are assumptions, not verified models of source:**
  - `Size` descends through first elements, so it reports a size for ragged input too. The empty
    array has size `[0]`.
  - `Flatten` is the recursive row-major flattening.
  - `Tally` counts INT, FLOAT and all leaves of the flattened array.
- `matrix.dfy` (module `Matrix`) models `RhaiMatrix` and `RhaiVector` from src/matrix/mod.rs.
  - Constructors and orientation converters are functions.
  - `to_dmatrix`, `from_dmatrix`, `transpose`, `concat_h`, `concat_v`, `to_dvector` and
    `from_dvector` are methods over `array2<Float>` / `array<Float>` buffers. Their loops mirror
    the source.
  - Each method is proved equal to a specification function: `ToDense`, `FromDense`,
    `Transposed`, `ConcatenatedH`, `ConcatenatedV`, `ToDenseVector` or `FromDenseVector`. The
    lemmas state what these functions promise.
- `validate.dfy` (module `Validate`) models the predicates of src/validate.rs. They take the
  array by `&mut` only to avoid a copy. Here they are total functions of the array's value, so
  they never fail and change nothing.

FLOAT values are never computed on. A `Float` is either a script-supplied float, named by its
bit pattern, or `IntToFloat(n)`, the unevaluated cast `n as FLOAT`.

Points about the code that the model keeps:
- Error messages are capitalised as in the code ("Matrix must contain row arrays", ...).
- `is_int_list` / `is_float_list` count every leaf of the flattened array, not only the first
  element.
- Ragged input still has a size, because `Size` reads only the first element at each depth.
  - `to_dmatrix` rejects ragged rows with "Matrix rows must have equal length", and so
    `transpose`, `concat_h` and `concat_v` reject them too.
  - The orientation predicates read only the first row, so `is_column_vector` accepts the
    ragged `[[1], [2, 3]]`.
  - `is_matrix` accepts ragged input whose leaf count happens to equal rows × first-row length,
    such as `[[1, 2], [3, 4, 5], [6]]` (see Findings).

## Model

| member | source | states |
|---|---|---|
| Dynamic.AsFloat | src/matrix/mod.rs:170-174 | a FLOAT element contributes itself and an INT element contributes its widening `IntToFloat` |
| Shapes.Size | src/validate.rs:19 | assumed helper: the size starts with the array's length, and it has a single extent exactly when the array is empty or starts with a non-array |
| Shapes.Flatten | src/matrix/mod.rs:86 | assumed helper: the result holds no arrays, and an array without nested arrays is its own flattening |
| Shapes.FlattenAppend | src/matrix/mod.rs:86 | assumed helper: flattening distributes over concatenation, so flattening is row-major |
| Shapes.ProdOfPair | src/validate.rs:160 | assumed helper `stats::prod` (`Prod`): the product of a two-extent size is `rows × cols`; `numel_by_reference` (`Numel`) is the length of the flattening and is characterised through `Flatten` |
| Shapes.Count | src/validate.rs:37 | assumed helper `int_and_float_totals` (`Tally` is `Count` of the flattened array): the total is the number of leaves, and INTs plus FLOATs never exceed it |
| Shapes.AllIntsIffCount | src/validate.rs:75-76 | the INT count equals the total exactly when every leaf is an INT |
| Shapes.AllFloatsIffCount | src/validate.rs:56-57 | the FLOAT count equals the total exactly when every leaf is a FLOAT |
| Shapes.AllNumericIffCount | src/validate.rs:37-38 | INTs plus FLOATs equal the total exactly when every leaf is INT or FLOAT |
| Matrix.RhaiMatrix.FromArray | src/matrix/mod.rs:27-29 | `from_array` followed by `to_array` gives the array back |
| Matrix.RhaiMatrix.ToArray | src/matrix/mod.rs:129-131 | `to_array` followed by `from_array` gives the matrix back |
| Matrix.RhaiMatrix.RowVector | src/matrix/mod.rs:42-44 | `row_vector(d)` is exactly `[d]`: one row holding `d`; its size starts `[1, len(d)]` and is exactly that for scalar `d` |
| Matrix.RhaiMatrix.ColumnVector | src/matrix/mod.rs:57-63 | `column_vector(d)` has `len(d)` rows and row `i` is `[d[i]]`; its size is `[len(d), 1]` when `d` starts with a scalar, and its elements are `d`'s in order |
| Matrix.FlattenColumn | src/matrix/mod.rs:57-63 | the rows `column_vector` builds flatten back to the data |
| Matrix.RhaiMatrix.AsRow | src/matrix/mod.rs:79-94 | `as_row` succeeds exactly on a 2-extent size with a unit extent; a `1×N` input comes back unchanged (tested first); an `N×1` input becomes exactly `[flatten(arr)]`, i.e. `row_vector(flatten(arr))`; any result is `1×N` with the same elements in order |
| Matrix.RhaiMatrix.AsColumn | src/matrix/mod.rs:110-125 | `as_column` succeeds exactly on a 2-extent size with a unit extent; an `N×1` input comes back unchanged (tested first); a `1×N` input becomes exactly `column_vector(flatten(arr))`, row `i` being `[flatten(arr)[i]]`; any result with elements is `N×1`, with the same elements in order |
| Matrix.OneByOneIsBoth | src/matrix/mod.rs:79-125 | a `1×1` matrix is returned unchanged by both converters |
| Matrix.AsRowIdempotent | src/matrix/mod.rs:79-94 | converting to a row twice is converting once |
| Matrix.AsColumnIdempotent | src/matrix/mod.rs:110-125 | converting to a column twice is converting once, for a matrix holding an element |
| Matrix.AsColumnOfEmptyRow | src/matrix/mod.rs:116-118 | the empty row `[[]]` becomes the empty array, which no longer converts |
| Matrix.OrientationRoundTrip | tests/orientation.rs:7-19 | for a nonempty scalar list `d`, `as_row(column_vector(d)) == row_vector(d)` and `as_column(row_vector(d)) == column_vector(d)` |
| Matrix.RowColumnRow | src/matrix/mod.rs:79-125 | a row converted to a column and back is the same row |
| Matrix.FirstRowError | src/matrix/mod.rs:155-182 | the row scan finds no error exactly when every row is an array of the first row's length with INT/FLOAT elements |
| Matrix.FirstRowErrorIsFirstFailure | src/matrix/mod.rs:155-182 | the error reported is that of the first failing row, checked for array, then length, then elements |
| Matrix.ToDense | src/matrix/mod.rs:142-184 | a successful conversion is `len × len(first row)` (`0×0` for the empty array) |
| Matrix.ToDenseOk | src/matrix/mod.rs:143-183 | conversion succeeds exactly when every row passes the checks; entry `(i, j)` is the FLOAT element or the widened INT element |
| Matrix.ToDenseErr | src/matrix/mod.rs:147-180 | on failure the message is "Matrix must contain row arrays", "Matrix rows must have equal length" or "Matrix elements must be INT or FLOAT", for the first row in order that fails |
| Matrix.RhaiMatrix.ToDMatrix | src/matrix/mod.rs:142-184 | the nested loops over a zero buffer return exactly the conversion: the same matrix, or the same error |
| Matrix.FromDenseShape | src/matrix/mod.rs:189-199 | `from_dmatrix(m)` has `nrows` rows of `ncols` FLOATs equal to `m[i, j]`, of size `[nrows, ncols]` when it has a row |
| Matrix.RhaiMatrix.FromDMatrix | src/matrix/mod.rs:189-199 | the push loops build exactly that array |
| Matrix.DenseRoundTrip | src/matrix/mod.rs:143-199 | `to_dmatrix(from_dmatrix(m)) == Ok(m)` for a matrix with at least one row |
| Matrix.IntsDoNotRoundTrip | src/matrix/mod.rs:170-174 | a matrix with an INT entry does not come back from the dense backend unchanged |
| Matrix.FloatsRoundTrip | src/matrix/mod.rs:143-199 | an all-FLOAT matrix comes back from the dense backend unchanged |
| Matrix.TransposeDense | src/matrix/mod.rs:209 | nalgebra's transpose of an `r×c` matrix is `c×r` |
| Matrix.TransposeTwice | src/matrix/mod.rs:209 | transposing a dense matrix twice gives it back |
| Matrix.RhaiMatrix.Transpose | src/matrix/mod.rs:207-210 | `transpose` returns exactly the conversion, transposed and converted back |
| Matrix.TransposedShape | src/matrix/mod.rs:207-210 | transpose fails exactly when conversion does, with its message; otherwise `r×c` with `c ≥ 1` becomes `c×r`: `c` rows, each an array of exactly `r` entries, and `out[i][j]` is the FLOAT of `in[j][i]` |
| Matrix.TransposedTwice | src/matrix/mod.rs:207-210 | transposing twice gives the FLOAT-widened input back, for at least one row and one column |
| Matrix.TransposedTwiceFloats | src/matrix/mod.rs:207-210 | on an all-FLOAT matrix with a row and a column, transposing twice is the identity |
| Matrix.JoinColumns | src/matrix/mod.rs:228-236 | the horizontal join of `r×c1` and `r×c2` is `r×(c1+c2)` |
| Matrix.JoinRows | src/matrix/mod.rs:256-264 | the vertical join of `r1×c` and `r2×c` is `(r1+r2)×c` |
| Matrix.RhaiMatrix.ConcatH | src/matrix/mod.rs:218-238 | `concat_h`, with its `from_fn` index function, returns exactly the row-wise join of the two conversions, or the first error |
| Matrix.RhaiMatrix.ConcatV | src/matrix/mod.rs:246-266 | `concat_v`, with its `from_fn` index function, returns exactly the stacking of the two conversions, or the first error |
| Matrix.SideBySide | src/matrix/mod.rs:230-236 | a buffer filled by `concat_h`'s index function (left entry, else right entry offset by the left width) is the horizontal join |
| Matrix.Stacked | src/matrix/mod.rs:258-264 | a buffer filled by `concat_v`'s index function (top entry, else bottom entry offset by the top height) is the vertical join |
| Matrix.ConcatenatedHShape | src/matrix/mod.rs:218-238 | the left operand's error comes first, then the right's, then "Matrices must have the same number of rows"; otherwise the result has `r` rows |
| Matrix.ConcatenatedHRows | src/matrix/mod.rs:228-237 | when `concat_h` succeeds, the result has `r` rows, each an array of exactly `c1 + c2` entries, of size `[r, c1 + c2]` when it has a row |
| Matrix.ConcatenatedHEntries | src/matrix/mod.rs:230-236 | when `concat_h` succeeds, entry `(i, j)` is the FLOAT of the left entry `(i, j)` for `j < c1`, else of the right entry `(i, j − c1)` |
| Matrix.JoinedColumnsShape | src/matrix/mod.rs:228-237 | `from_dmatrix` of the horizontal join has `r` rows of `c1 + c2` FLOATs, left row then right row |
| Matrix.ConcatenatedVShape | src/matrix/mod.rs:246-266 | the top operand's error comes first, then the bottom's, then "Matrices must have the same number of columns"; otherwise the result has `r1 + r2` rows |
| Matrix.ConcatenatedVRows | src/matrix/mod.rs:256-265 | when `concat_v` succeeds, the result has `r1 + r2` rows, each an array of exactly `c` entries, of size `[r1 + r2, c]` when it has a row |
| Matrix.ConcatenatedVEntries | src/matrix/mod.rs:258-264 | when `concat_v` succeeds, entry `(i, j)` is the FLOAT of the top entry `(i, j)` for `i < r1`, else of the bottom entry `(i − r1, j)` |
| Matrix.JoinedRowsShape | src/matrix/mod.rs:256-265 | `from_dmatrix` of the vertical join has `r1 + r2` rows of `c` entries, and entry `(i, j)` is the FLOAT of the top entry `(i, j)` for `i < r1`, else of the bottom entry `(i − r1, j)` |
| Matrix.RowBesideColumnFails | tests/matrix_ops.rs:44-54 | a two-element row and a two-element column fail to concatenate horizontally with the row-count message |
| Matrix.ColumnOverRowFails | tests/matrix_ops.rs:83-93 | a two-element column over a two-element row fails with the column-count message |
| Matrix.RhaiVector.FromArray | src/matrix/mod.rs:285-287 | `from_array` followed by `to_array` gives the array back |
| Matrix.RhaiVector.ToArray | src/matrix/mod.rs:291-293 | `to_array` followed by `from_array` gives the vector back |
| Matrix.RhaiVector.ToDVector | src/matrix/mod.rs:304-320 | the loop fails with "Vector elements must be INT or FLOAT" exactly when some element is not numeric; otherwise the buffer has the same length with each element widened |
| Matrix.RhaiVector.FromDVector | src/matrix/mod.rs:325-331 | the push loop yields one FLOAT per entry, in order |
| Matrix.DenseVectorRoundTrip | src/matrix/mod.rs:304-331 | `to_dvector(from_dvector(v)) == Ok(v)` |
| Matrix.VectorIntsDoNotRoundTrip | src/matrix/mod.rs:307-311 | a vector with an INT element does not come back from the dense backend unchanged |
| Validate.IsList | src/validate.rs:18-24 | `is_list` holds exactly when the size has one extent, that is, the array is empty or starts with a non-array |
| Validate.IsNumericArray | src/validate.rs:36-43 | `is_numeric_array` holds exactly when every leaf is INT or FLOAT |
| Validate.IsFloatList | src/validate.rs:55-62 | `is_float_list` holds exactly when the array is a list and every leaf is a FLOAT |
| Validate.IsIntList | src/validate.rs:74-81 | `is_int_list` holds exactly when the array is a list and every leaf is an INT |
| Validate.IsNumericList | src/validate.rs:97-104 | `is_numeric_list` holds exactly when the array is a list whose leaves are all INTs or all FLOATs |
| Validate.IsRowVector | src/validate.rs:116-124 | `is_row_vector` holds exactly when the size is `[1, n]`: one row array that is empty or starts with a non-array |
| Validate.IsColumnVector | src/validate.rs:136-144 | `is_column_vector` holds exactly when the size is `[n, 1]`: the first row holds exactly one non-array |
| Validate.IsMatrix | src/validate.rs:156-171 | `is_matrix` holds exactly when the size has two extents (a nonempty array whose first row is empty or starts with a non-array) and rows × first-row length equals the leaf count; a matrix is never a list |
| Validate.IntAndFloatListsExclusive | src/validate.rs:55-81 | no nonempty list is both an INT list and a FLOAT list |
| Validate.EmptyListIsIntAndFloatList | src/validate.rs:55-81 | the empty list is both |
| Validate.NumericListHierarchy | src/validate.rs:36-104 | INT and FLOAT lists are numeric lists, and numeric lists are numeric arrays |
| Validate.MixedListIsNotNumericList | src/validate.rs:97-104 | `[1, 2.0]` is a numeric array but not a numeric list |
| Validate.OneByOneIsRowAndColumn | src/validate.rs:116-144 | a `1×1` matrix is both a row and a column vector |
| Validate.ConstructorsAreOriented | tests/matrix_vectors.rs:7-25 | `row_vector` of a list is a row vector, and `column_vector` of a nonempty list is a column vector |
| Validate.ConvertersAreOriented | tests/orientation.rs:7-19 | `as_row` of a column is a row vector and `as_column` of a row is a column vector |
| Validate.OrientationIsNotShared | tests/orientation.rs:22-35 | `[[1],[2]]` is not a row vector and `[[1,2]]` is not a column vector |
| Validate.RaggedColumnIsColumnVector | src/validate.rs:136-144 | `is_column_vector` accepts the ragged `[[x], [y, z]]`, which `to_dmatrix` rejects with "Matrix rows must have equal length" (src/matrix/mod.rs:162-167) |
| Validate.TransposedRowIsColumn | tests/matrix_ops.rs:9-18 | transposing a nonempty numeric row gives a column vector |
| Validate.IsRectangularMatrix | src/validate.rs:156-171 | the corrected `is_matrix`: every rectangular array still passes `is_matrix` as written |
| Validate.RectangularNumel | src/validate.rs:160-164 | a rectangular `r×c` array has `r·c` leaves |
| Validate.RectangularAgreesWithBridge | src/validate.rs:156-171 | with a row present, the corrected predicate plus numeric entries is exactly what `to_dmatrix` accepts |
| Validate.IsMatrixAcceptsRagged | src/validate.rs:156-171 | `is_matrix` as written accepts the ragged `[[1,2],[3,4,5],[6]]`, which the corrected predicate rejects |
| Validate.IsListExamples | src/validate.rs:8-16 | `[1,2,3,4]` is a list and `[[[1,2],[3,4]]]` is not |
| Validate.IsNumericArrayExamples | src/validate.rs:26-34 | `[1,2,3.0,5.0]` is numeric and adding a string makes it not |
| Validate.ListTypeExamples | src/validate.rs:45-95 | the documented FLOAT, INT and string lists classify as shown |
| Validate.FloatListExample | src/validate.rs:45-53 | four FLOATs form a FLOAT list and a numeric list, not an INT list |
| Validate.IntListExample | src/validate.rs:64-72 | `[1, 2, 3, 4]` is an INT list and a numeric list, not a FLOAT list |
| Validate.StringListExample | src/validate.rs:83-95 | a list of strings is not a numeric list |
| Validate.IsMatrixExamples | src/validate.rs:146-154 | a `3×5` matrix passes `is_matrix` and a `5×5×5` array does not |

## Left out

- Engine glue is not modelled. That covers the `#[export_module]` / `#[rhai_fn]` registration in
  src/validate.rs:1-4 (the `validation_functions` plugin module) and every example or test that runs scripts through `Engine`. It is
  plumbing, and those tests check floats within a tolerance.
- src/constants.rs is a table of floating-point constants with no logic.
- Float arithmetic and precision are not modelled. `n as FLOAT` stays an unevaluated
  `IntToFloat(n)`, and rounding of large integers is not modelled. Float equality in the model is
  equality of the symbolic value, not IEEE comparison.
- The "Panics if an integer value cannot be represented" doc notes (src/matrix/mod.rs:138-139,
  300-301) are not modelled: the cast does not panic.
- INT is an unbounded integer, not `i64`. No operation in the core does arithmetic on element
  values. The counts in `Tally` cannot overflow for any array that fits in memory.
- nalgebra internals are modelled only by their index equations: `DMatrix::transpose` and
  `DMatrix::from_fn` are array initialisers. The backend's column-major storage, matrix
  inversion and the `nalgebra` feature flag are not modelled.
- `matrix_size_by_reference`, `flatten`, `numel_by_reference`, `int_and_float_totals` and
  `stats::prod` are not part of this model. Module `Shapes` gives them assumed definitions.
- The `matrix_functions` wrappers are not part of this model: `transpose`, `horzcat`,
  `vertcat`, `repmat`, `meshgrid`, `diag` and `eye_*`. The same goes for `movmean` and
  `argmax`. Tests that go through `horzcat` / `vertcat` / `transpose` are stated here about
  `concat_h` / `concat_v` / `transpose`.
- `Clone` and `&mut` borrowing are not modelled: a matrix is a value, so "does not change its
  argument" holds by construction.

## Findings

| source | as written | input that shows it | evidently intended | confidence | as-written member | corrected member |
|---|---|---|---|---|---|---|
| src/validate.rs:156-171 | `is_matrix` accepts any array with two extents whose product equals the leaf count | `[[1, 2], [3, 4, 5], [6]]`: size `[3, 2]`, 6 leaves | reject ragged rows; accept exactly rectangular arrays | not executed; medium, because it rests on the assumed definitions of `matrix_size_by_reference` and `numel_by_reference` | Validate.IsMatrixAcceptsRagged | Validate.IsRectangularMatrix |

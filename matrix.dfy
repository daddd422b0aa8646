/** `RhaiMatrix` and `RhaiVector` (src/matrix/mod.rs): wrappers around a rhai
    `Array`, their orientation constructors and converters, and the bridge to
    nalgebra's dense `DMatrix<FLOAT>` / `DVector<FLOAT>` on which transpose and
    concatenation are built.

    A `DMatrix` is an `array2<Float>` in the methods that fill or read one; the
    value `Dense` is its specification-level picture. nalgebra's own
    `transpose` and `from_fn` appear only through their index equations. */
module Matrix {
  import opened Dynamic
  import opened Shapes

  const NotRowArrays: string := "Matrix must contain row arrays"
  const UnequalRows: string := "Matrix rows must have equal length"
  const NonNumeric: string := "Matrix elements must be INT or FLOAT"
  const RowsMismatch: string := "Matrices must have the same number of rows"
  const ColsMismatch: string := "Matrices must have the same number of columns"
  const VectorNonNumeric: string := "Vector elements must be INT or FLOAT"

  // ---------------------------------------------------------------------
  // The dense backend, as values
  // ---------------------------------------------------------------------

  /** An `nrows × ncols` dense matrix of floats, stored row by row. */
  datatype Dense = Dense(nrows: nat, ncols: nat, entries: seq<seq<Float>>) {
    predicate Valid()
    {
      |entries| == nrows && forall i :: 0 <= i < nrows ==> |entries[i]| == ncols
    }
  }

  /** The picture of a dense buffer. */
  ghost function DenseOf(a: array2<Float>): (d: Dense)
    reads a
    ensures d.Valid() && d.nrows == a.Length0 && d.ncols == a.Length1
    ensures forall i, j :: 0 <= i < a.Length0 && 0 <= j < a.Length1 ==> d.entries[i][j] == a[i, j]
  {
    Dense(a.Length0, a.Length1,
          seq(a.Length0, i requires 0 <= i < a.Length0 reads a =>
            seq(a.Length1, j requires 0 <= j < a.Length1 reads a => a[i, j])))
  }

  /** Two dense matrices of the same dimensions and entries are equal. */
  lemma DenseExt(d: Dense, e: Dense)
    requires d.Valid() && e.Valid() && d.nrows == e.nrows && d.ncols == e.ncols
    requires forall i, j :: 0 <= i < d.nrows && 0 <= j < d.ncols ==> d.entries[i][j] == e.entries[i][j]
    ensures d == e
  {
    forall i | 0 <= i < d.nrows
      ensures d.entries[i] == e.entries[i]
    {
    }
  }

  // ---------------------------------------------------------------------
  // to_dmatrix, as a specification
  // ---------------------------------------------------------------------

  /** A row passes every check `to_dmatrix` makes of it: it is an array, it
      has the first row's length, and its elements are INT or FLOAT. */
  predicate RowOk(row: Value, cols: nat)
  {
    row.VArr? && |row.elems| == cols && forall j :: 0 <= j < cols ==> IsNumeric(row.elems[j])
  }

  /** The message of the first check a failing row fails, in the order the
      checks are made. */
  function RowError(row: Value, cols: nat): string
  {
    if !row.VArr? then NotRowArrays
    else if |row.elems| != cols then UnequalRows
    else NonNumeric
  }

  /** The error of the first failing row, scanning rows in order. */
  function FirstRowError(rows: Array, cols: nat): (e: Option<string>)
    ensures e.None? <==> forall k :: 0 <= k < |rows| ==> RowOk(rows[k], cols)
  {
    if rows == [] then None
    else if !RowOk(rows[0], cols) then Some(RowError(rows[0], cols))
    else FirstRowError(rows[1..], cols)
  }

  /** The error reported is that of the first row that fails. */
  lemma {:induction false} FirstRowErrorIsFirstFailure(rows: Array, cols: nat, k: nat)
    requires k < |rows| && !RowOk(rows[k], cols)
    requires forall m :: 0 <= m < k ==> RowOk(rows[m], cols)
    ensures FirstRowError(rows, cols) == Some(RowError(rows[k], cols))
  {
    if k > 0 {
      FirstRowErrorIsFirstFailure(rows[1..], cols, k - 1);
    }
  }

  /** The column count `to_dmatrix` takes from the first row. */
  function FirstRowLength(arr: Array): nat
  {
    if arr != [] && arr[0].VArr? then |arr[0].elems| else 0
  }

  /** What `to_dmatrix` computes. */
  function ToDense(arr: Array): (r: Result<Dense>)
    ensures r.Ok? ==> r.value.Valid() && r.value.nrows == |arr| && r.value.ncols == FirstRowLength(arr)
  {
    if arr == [] then Ok(Dense(0, 0, []))
    else if !arr[0].VArr? then Err(NotRowArrays)
    else
      var cols := |arr[0].elems|;
      match FirstRowError(arr, cols)
      case Some(e) => Err(e)
      case None =>
        Ok(Dense(|arr|, cols,
                 seq(|arr|, i requires 0 <= i < |arr| =>
                   seq(cols, j requires 0 <= j < cols => AsFloat(arr[i].elems[j])))))
  }

  /** `to_dmatrix` succeeds exactly on the empty array and on arrays whose
      every row passes the checks against the first row's length; then the
      result is `len × len(first row)` and entry `(i, j)` is the float element,
      or the widened int element, at row `i`, column `j`. */
  lemma ToDenseOk(arr: Array)
    ensures ToDense(arr).Ok? <==> forall i :: 0 <= i < |arr| ==> RowOk(arr[i], FirstRowLength(arr))
    ensures ToDense(arr).Ok? ==>
              forall i, j :: 0 <= i < |arr| && 0 <= j < FirstRowLength(arr) ==>
                ToDense(arr).value.entries[i][j] == AsFloat(arr[i].elems[j])
  {
    if arr != [] && !arr[0].VArr? {
      assert !RowOk(arr[0], FirstRowLength(arr));
    }
  }

  /** When `to_dmatrix` fails, its message is that of the first row, in
      order, failing a check: not an array, a length other than the first
      row's, or an element that is neither INT nor FLOAT. */
  lemma ToDenseErr(arr: Array, k: nat)
    requires k < |arr| && !RowOk(arr[k], FirstRowLength(arr))
    requires forall m :: 0 <= m < k ==> RowOk(arr[m], FirstRowLength(arr))
    ensures ToDense(arr) == Err(RowError(arr[k], FirstRowLength(arr)))
  {
    if arr[0].VArr? {
      FirstRowErrorIsFirstFailure(arr, FirstRowLength(arr), k);
    }
  }

  // ---------------------------------------------------------------------
  // from_dmatrix, transpose and concatenation, as specifications
  // ---------------------------------------------------------------------

  /** What `from_dmatrix` builds: one row array per matrix row, each holding
      the row's entries as FLOATs. */
  function FromDense(d: Dense): (arr: Array)
    requires d.Valid()
  {
    seq(d.nrows, i requires 0 <= i < d.nrows =>
      VArr(seq(d.ncols, j requires 0 <= j < d.ncols => VFloat(d.entries[i][j]))))
  }

  /** `from_dmatrix(m)` has `nrows` rows of `ncols` FLOAT entries equal to
      `m[i, j]`; it reports the shape `[nrows, ncols]` whenever it has a row. */
  lemma FromDenseShape(d: Dense)
    requires d.Valid()
    ensures |FromDense(d)| == d.nrows
    ensures forall i :: 0 <= i < d.nrows ==>
              FromDense(d)[i].VArr? && |FromDense(d)[i].elems| == d.ncols
    ensures forall i, j :: 0 <= i < d.nrows && 0 <= j < d.ncols ==>
              FromDense(d)[i].elems[j] == VFloat(d.entries[i][j])
    ensures d.nrows >= 1 ==> Size(FromDense(d)) == [d.nrows, d.ncols]
  {
  }

  /** Converting back to the dense backend gives the same matrix, provided
      it has at least one row (a matrix with no rows forgets its width). */
  lemma {:induction false} DenseRoundTrip(d: Dense)
    requires d.Valid() && d.nrows >= 1
    ensures ToDense(FromDense(d)) == Ok(d)
  {
    var arr := FromDense(d);
    FromDenseShape(d);
    assert FirstRowLength(arr) == d.ncols;
    assert forall i :: 0 <= i < |arr| ==> RowOk(arr[i], d.ncols);
    ToDenseOk(arr);
    DenseExt(ToDense(arr).value, d);
  }

  /** A matrix with an INT entry does not survive the trip through the dense
      backend: the entry comes back as a FLOAT. */
  lemma IntsDoNotRoundTrip(arr: Array, i: nat, j: nat)
    requires ToDense(arr).Ok?
    requires i < |arr| && arr[i].VArr? && j < |arr[i].elems| && arr[i].elems[j].VInt?
    ensures FromDense(ToDense(arr).value) != arr
  {
    ToDenseOk(arr);
    FromDenseShape(ToDense(arr).value);
    assert FromDense(ToDense(arr).value)[i].elems[j].VFloat?;
  }

  /** An all-FLOAT rectangular array survives the trip unchanged. */
  lemma FloatsRoundTrip(arr: Array)
    requires ToDense(arr).Ok?
    requires forall i, j :: 0 <= i < |arr| && arr[i].VArr? && 0 <= j < |arr[i].elems| ==> arr[i].elems[j].VFloat?
    ensures FromDense(ToDense(arr).value) == arr
  {
    ToDenseOk(arr);
    var d := ToDense(arr).value;
    FromDenseShape(d);
    forall i | 0 <= i < |arr|
      ensures FromDense(d)[i] == arr[i]
    {
      assert FromDense(d)[i].elems == arr[i].elems;
    }
  }

  /** nalgebra's `transpose`, by its index equation. */
  function TransposeDense(d: Dense): (t: Dense)
    requires d.Valid()
    ensures t.Valid() && t.nrows == d.ncols && t.ncols == d.nrows
  {
    Dense(d.ncols, d.nrows,
          seq(d.ncols, i requires 0 <= i < d.ncols =>
            seq(d.nrows, j requires 0 <= j < d.nrows => d.entries[j][i])))
  }

  /** Transposing twice gives the matrix back. */
  lemma TransposeTwice(d: Dense)
    requires d.Valid()
    ensures TransposeDense(TransposeDense(d)) == d
  {
    DenseExt(TransposeDense(TransposeDense(d)), d);
  }

  /** The horizontal join: row `i` is the left row `i` followed by the right
      row `i`. */
  function JoinColumns(left: Dense, right: Dense): (d: Dense)
    requires left.Valid() && right.Valid() && left.nrows == right.nrows
    ensures d.Valid() && d.nrows == left.nrows && d.ncols == left.ncols + right.ncols
  {
    Dense(left.nrows, left.ncols + right.ncols,
          seq(left.nrows, i requires 0 <= i < left.nrows => left.entries[i] + right.entries[i]))
  }

  /** The vertical join: the top rows followed by the bottom rows. */
  function JoinRows(top: Dense, bottom: Dense): (d: Dense)
    requires top.Valid() && bottom.Valid() && top.ncols == bottom.ncols
    ensures d.Valid() && d.nrows == top.nrows + bottom.nrows && d.ncols == top.ncols
  {
    Dense(top.nrows + bottom.nrows, top.ncols, top.entries + bottom.entries)
  }

  /** A buffer holding `left`'s columns followed by `right`'s pictures the
      horizontal join. */
  lemma SideBySide(left: array2<Float>, right: array2<Float>, mat: array2<Float>)
    requires left.Length0 == right.Length0 == mat.Length0
    requires mat.Length1 == left.Length1 + right.Length1
    requires forall i, j :: 0 <= i < mat.Length0 && 0 <= j < mat.Length1 ==>
               mat[i, j] == if j < left.Length1 then left[i, j] else right[i, j - left.Length1]
    ensures DenseOf(mat) == JoinColumns(DenseOf(left), DenseOf(right))
  {
    var d, e := DenseOf(mat), JoinColumns(DenseOf(left), DenseOf(right));
    forall i, j | 0 <= i < d.nrows && 0 <= j < d.ncols
      ensures d.entries[i][j] == e.entries[i][j]
    {
      assert e.entries[i] == DenseOf(left).entries[i] + DenseOf(right).entries[i];
    }
    DenseExt(d, e);
  }

  /** A buffer holding `top`'s rows followed by `bottom`'s pictures the
      vertical join. */
  lemma Stacked(top: array2<Float>, bottom: array2<Float>, mat: array2<Float>)
    requires top.Length1 == bottom.Length1 == mat.Length1
    requires mat.Length0 == top.Length0 + bottom.Length0
    requires forall i, j :: 0 <= i < mat.Length0 && 0 <= j < mat.Length1 ==>
               mat[i, j] == if i < top.Length0 then top[i, j] else bottom[i - top.Length0, j]
    ensures DenseOf(mat) == JoinRows(DenseOf(top), DenseOf(bottom))
  {
    var d, e := DenseOf(mat), JoinRows(DenseOf(top), DenseOf(bottom));
    forall i, j | 0 <= i < d.nrows && 0 <= j < d.ncols
      ensures d.entries[i][j] == e.entries[i][j]
    {
      if i >= top.Length0 {
        assert e.entries[i] == DenseOf(bottom).entries[i - top.Length0];
      }
    }
    DenseExt(d, e);
  }

  /** What `transpose` returns. */
  function Transposed(m: RhaiMatrix): Result<RhaiMatrix>
  {
    var d :- ToDense(m.arr);
    Ok(RhaiMatrix(FromDense(TransposeDense(d))))
  }

  /** What `concat_h` returns: the left operand is converted first, then the
      right one, then the row counts are compared. */
  function ConcatenatedH(a: RhaiMatrix, b: RhaiMatrix): Result<RhaiMatrix>
  {
    var left :- ToDense(a.arr);
    var right :- ToDense(b.arr);
    if left.nrows != right.nrows then Err(RowsMismatch)
    else Ok(RhaiMatrix(FromDense(JoinColumns(left, right))))
  }

  /** What `concat_v` returns: the top operand is converted first, then the
      bottom one, then the column counts are compared. */
  function ConcatenatedV(a: RhaiMatrix, b: RhaiMatrix): Result<RhaiMatrix>
  {
    var top :- ToDense(a.arr);
    var bottom :- ToDense(b.arr);
    if top.ncols != bottom.ncols then Err(ColsMismatch)
    else Ok(RhaiMatrix(FromDense(JoinRows(top, bottom))))
  }

  // ---------------------------------------------------------------------
  // RhaiMatrix
  // ---------------------------------------------------------------------

  datatype RhaiMatrix = RhaiMatrix(arr: Array) {

    /** `from_array`: wraps the array as it is. */
    static function FromArray(a: Array): (m: RhaiMatrix)
      ensures m.ToArray() == a
    {
      RhaiMatrix(a)
    }

    /** `to_array`: unwraps the array as it is. */
    function ToArray(): (a: Array)
      ensures RhaiMatrix(a) == this
    {
      arr
    }

    /** `row_vector`: a single row holding `data`. */
    static function RowVector(data: Array): (m: RhaiMatrix)
      ensures |Size(m.arr)| >= 2 && Size(m.arr)[0] == 1 && Size(m.arr)[1] == |data|
      ensures Scalars(data) ==> Size(m.arr) == [1, |data|]
      ensures Flatten(m.arr) == Flatten(data)
      ensures |m.arr| == 1 && m.arr[0] == VArr(data)
    {
      FlattenAppend([VArr(data)], []);
      RhaiMatrix([VArr(data)])
    }

    /** `column_vector`: one single-element row per element of `data`, in order. */
    static function ColumnVector(data: Array): (m: RhaiMatrix)
      ensures |m.arr| == |data|
      ensures forall i :: 0 <= i < |data| ==> m.arr[i].VArr? && m.arr[i].elems == [data[i]]
      ensures data != [] && !data[0].VArr? ==> Size(m.arr) == [|data|, 1]
      ensures Flatten(m.arr) == Flatten(data)
    {
      var rows := seq(|data|, i requires 0 <= i < |data| => VArr([data[i]]));
      FlattenColumn(data, rows);
      RhaiMatrix(rows)
    }

    /** `as_row`: the same matrix when it is `1×N`, the flattened elements as
        a row when it is `N×1`, otherwise nothing. */
    function AsRow(): (r: Option<RhaiMatrix>)
      ensures r.Some? <==> |Size(arr)| == 2 && (Size(arr)[0] == 1 || Size(arr)[1] == 1)
      ensures |Size(arr)| == 2 && Size(arr)[0] == 1 ==> r == Some(this)
      ensures r.Some? ==> |Size(r.value.arr)| == 2 && Size(r.value.arr)[0] == 1
      ensures r.Some? ==> Flatten(r.value.arr) == Flatten(arr)
      ensures r.Some? && Size(arr)[0] != 1 ==>
                |r.value.arr| == 1 && r.value.arr[0] == VArr(Flatten(arr))
    {
      var shape := Size(arr);
      if |shape| == 2 then
        if shape[0] == 1 then Some(this)
        else if shape[1] == 1 then Some(RowVector(Flatten(arr)))
        else None
      else None
    }

    /** `as_column`: the same matrix when it is `N×1`, the flattened elements
        as a column when it is `1×N`, otherwise nothing. A `1×0` matrix
        becomes the empty array, which is not a column. */
    function AsColumn(): (r: Option<RhaiMatrix>)
      ensures r.Some? <==> |Size(arr)| == 2 && (Size(arr)[0] == 1 || Size(arr)[1] == 1)
      ensures |Size(arr)| == 2 && Size(arr)[1] == 1 ==> r == Some(this)
      ensures r.Some? && Flatten(arr) != [] ==> |Size(r.value.arr)| == 2 && Size(r.value.arr)[1] == 1
      ensures r.Some? ==> Flatten(r.value.arr) == Flatten(arr)
      ensures r.Some? && Size(arr)[1] != 1 ==>
                |r.value.arr| == |Flatten(arr)| &&
                forall i :: 0 <= i < |Flatten(arr)| ==> r.value.arr[i] == VArr([Flatten(arr)[i]])
    {
      var shape := Size(arr);
      if |shape| == 2 then
        if shape[1] == 1 then Some(this)
        else if shape[0] == 1 then Some(ColumnVector(Flatten(arr)))
        else None
      else None
    }

    /** `to_dmatrix`: fills a zero buffer row by row, returning the first
        check a row fails. */
    method ToDMatrix() returns (r: Result<array2<Float>>)
      ensures r.Ok? <==> ToDense(arr).Ok?
      ensures r.Ok? ==> ToDense(arr).value == DenseOf(r.value)
      ensures r.Err? ==> ToDense(arr) == Err(r.message)
    {
      if |arr| == 0 {
        var empty := new Float[0, 0];
        DenseExt(DenseOf(empty), Dense(0, 0, []));
        return Ok(empty);
      }
      var rows := |arr|;
      if !arr[0].VArr? {
        return Err(NotRowArrays);
      }
      var cols := |arr[0].elems|;
      var dm := new Float[rows, cols]((_, _) => Zero);
      for i := 0 to rows
        invariant forall k :: 0 <= k < i ==> RowOk(arr[k], cols)
        invariant forall k, j :: 0 <= k < i && 0 <= j < cols ==> dm[k, j] == AsFloat(arr[k].elems[j])
      {
        if !arr[i].VArr? {
          ToDenseErr(arr, i);
          return Err(NotRowArrays);
        }
        var row := arr[i].elems;
        if |row| != cols {
          ToDenseErr(arr, i);
          return Err(UnequalRows);
        }
        for j := 0 to cols
          invariant forall jj :: 0 <= jj < j ==> IsNumeric(row[jj])
          invariant forall k, jj :: 0 <= k < i && 0 <= jj < cols ==> dm[k, jj] == AsFloat(arr[k].elems[jj])
          invariant forall jj :: 0 <= jj < j ==> dm[i, jj] == AsFloat(row[jj])
        {
          var val := row[j];
          if val.VFloat? {
            dm[i, j] := val.x;
          } else if val.VInt? {
            dm[i, j] := IntToFloat(val.n);
          } else {
            ToDenseErr(arr, i);
            return Err(NonNumeric);
          }
        }
      }
      ToDenseOk(arr);
      DenseExt(ToDense(arr).value, DenseOf(dm));
      return Ok(dm);
    }

    /** `from_dmatrix`: pushes one FLOAT per entry into a new row, and each
        row into the new matrix. */
    static method FromDMatrix(mat: array2<Float>) returns (m: RhaiMatrix)
      ensures m.arr == FromDense(DenseOf(mat))
    {
      var rows: Array := [];
      for i := 0 to mat.Length0
        invariant rows == FromDense(DenseOf(mat))[..i]
      {
        var row: Array := [];
        for j := 0 to mat.Length1
          invariant |row| == j
          invariant forall jj :: 0 <= jj < j ==> row[jj] == VFloat(mat[i, jj])
        {
          row := row + [VFloat(mat[i, j])];
        }
        assert VArr(row) == FromDense(DenseOf(mat))[i];
        rows := rows + [VArr(row)];
      }
      return RhaiMatrix(rows);
    }

    /** `transpose`: through the dense backend, so every entry comes back a
        FLOAT. */
    method Transpose() returns (r: Result<RhaiMatrix>)
      ensures r == Transposed(this)
    {
      var dm :- ToDMatrix();
      var t := new Float[dm.Length1, dm.Length0]((i, j) reads dm =>
        if 0 <= j < dm.Length0 && 0 <= i < dm.Length1 then dm[j, i] else Zero);
      DenseExt(DenseOf(t), TransposeDense(DenseOf(dm)));
      var out := FromDMatrix(t);
      return Ok(out);
    }

    /** `concat_h`: converts the left operand, then the right one, compares
        the row counts, and fills the result from an index function. */
    method ConcatH(other: RhaiMatrix) returns (r: Result<RhaiMatrix>)
      ensures r == ConcatenatedH(this, other)
    {
      var left :- ToDMatrix();
      var right :- other.ToDMatrix();
      if left.Length0 != right.Length0 {
        return Err(RowsMismatch);
      }
      var cols := left.Length1 + right.Length1;
      var rows := left.Length0;
      var mat := new Float[rows, cols]((i, j) reads left, right =>
        if 0 <= i < left.Length0 && 0 <= j < left.Length1 then left[i, j]
        else if 0 <= i < right.Length0 && 0 <= j - left.Length1 < right.Length1 then right[i, j - left.Length1]
        else Zero);
      SideBySide(left, right, mat);
      var out := FromDMatrix(mat);
      return Ok(out);
    }

    /** `concat_v`: converts the top operand, then the bottom one, compares
        the column counts, and fills the result from an index function. */
    method ConcatV(other: RhaiMatrix) returns (r: Result<RhaiMatrix>)
      ensures r == ConcatenatedV(this, other)
    {
      var top :- ToDMatrix();
      var bottom :- other.ToDMatrix();
      if top.Length1 != bottom.Length1 {
        return Err(ColsMismatch);
      }
      var rows := top.Length0 + bottom.Length0;
      var cols := top.Length1;
      var mat := new Float[rows, cols]((i, j) reads top, bottom =>
        if 0 <= i < top.Length0 && 0 <= j < top.Length1 then top[i, j]
        else if 0 <= i - top.Length0 < bottom.Length0 && 0 <= j < bottom.Length1 then bottom[i - top.Length0, j]
        else Zero);
      Stacked(top, bottom, mat);
      var out := FromDMatrix(mat);
      return Ok(out);
    }
  }

  /** The rows `column_vector` builds flatten back to the data. */
  lemma {:induction false} FlattenColumn(data: Array, rows: Array)
    requires |rows| == |data|
    requires forall i :: 0 <= i < |data| ==> rows[i] == VArr([data[i]])
    ensures Flatten(rows) == Flatten(data)
  {
    if data != [] {
      FlattenColumn(data[1..], rows[1..]);
      assert Flatten([data[0]]) == Flatten([data[0]] + []);
      FlattenAppend([data[0]], data[1..]);
      assert [data[0]] + data[1..] == data;
    }
  }

  // ---------------------------------------------------------------------
  // Orientation
  // ---------------------------------------------------------------------

  /** A `1×1` matrix is already both a row and a column. */
  lemma OneByOneIsBoth(m: RhaiMatrix)
    requires Size(m.arr) == [1, 1]
    ensures m.AsRow() == Some(m) && m.AsColumn() == Some(m)
  {
  }

  /** `as_row` is idempotent. */
  lemma AsRowIdempotent(m: RhaiMatrix)
    requires m.AsRow().Some?
    ensures m.AsRow().value.AsRow() == m.AsRow()
  {
  }

  /** `as_column` is idempotent on a matrix holding at least one element. */
  lemma AsColumnIdempotent(m: RhaiMatrix)
    requires m.AsColumn().Some? && Flatten(m.arr) != []
    ensures m.AsColumn().value.AsColumn() == m.AsColumn()
  {
  }

  /** On the empty row `[[]]` it is not: the first conversion gives the
      empty array and the second one has nothing to convert. */
  lemma AsColumnOfEmptyRow()
    ensures RhaiMatrix([VArr([])]).AsColumn() == Some(RhaiMatrix([]))
    ensures RhaiMatrix([]).AsColumn() == None
  {
    assert Flatten([VArr([])]) == [];
  }

  /** A column built from a nonempty list of scalars converts to the row of
      the same list, and back. */
  lemma {:induction false} OrientationRoundTrip(d: Array)
    requires d != [] && Scalars(d)
    ensures RhaiMatrix.ColumnVector(d).AsRow() == Some(RhaiMatrix.RowVector(d))
    ensures RhaiMatrix.RowVector(d).AsColumn() == Some(RhaiMatrix.ColumnVector(d))
  {
    var col, row := RhaiMatrix.ColumnVector(d), RhaiMatrix.RowVector(d);
    if |d| == 1 {
      assert col.arr == [VArr([d[0]])] == row.arr;
    }
  }

  /** Converting a row to a column and back gives the row. */
  lemma RowColumnRow(d: Array)
    requires d != [] && Scalars(d)
    ensures RhaiMatrix.RowVector(d).AsColumn().value.AsRow() == Some(RhaiMatrix.RowVector(d))
  {
    OrientationRoundTrip(d);
  }

  // ---------------------------------------------------------------------
  // Transpose and concatenation
  // ---------------------------------------------------------------------

  /** `transpose` fails exactly when the conversion to the dense backend does,
      with its message. On success an `r×c` matrix with `c ≥ 1` becomes `c×r`,
      every row holds `r` entries, and entry `(i, j)` is the FLOAT of the
      input's entry `(j, i)`. */
  lemma TransposedShape(m: RhaiMatrix)
    ensures Transposed(m).Err? <==> ToDense(m.arr).Err?
    ensures Transposed(m).Err? ==> Transposed(m).message == ToDense(m.arr).message
    ensures Transposed(m).Ok? ==>
              |Transposed(m).value.arr| == FirstRowLength(m.arr) &&
              (FirstRowLength(m.arr) >= 1 ==> Size(Transposed(m).value.arr) == [FirstRowLength(m.arr), |m.arr|]) &&
              (forall i :: 0 <= i < FirstRowLength(m.arr) ==>
                 Transposed(m).value.arr[i].VArr? && |Transposed(m).value.arr[i].elems| == |m.arr|) &&
              forall i, j :: 0 <= i < FirstRowLength(m.arr) && 0 <= j < |m.arr| ==>
                Transposed(m).value.arr[i].elems[j] == VFloat(AsFloat(m.arr[j].elems[i]))
  {
    if ToDense(m.arr).Ok? {
      ToDenseOk(m.arr);
      FromDenseShape(TransposeDense(ToDense(m.arr).value));
    }
  }

  /** Transposing twice gives the matrix back with every entry as a FLOAT,
      provided it has at least one row and one column. */
  lemma {:induction false} TransposedTwice(m: RhaiMatrix)
    requires ToDense(m.arr).Ok? && |m.arr| >= 1 && FirstRowLength(m.arr) >= 1
    ensures Transposed(m).Ok?
    ensures Transposed(Transposed(m).value) == Ok(RhaiMatrix(FromDense(ToDense(m.arr).value)))
  {
    var d := ToDense(m.arr).value;
    DenseRoundTrip(TransposeDense(d));
    TransposeTwice(d);
  }

  /** On an all-FLOAT matrix with a row and a column, transposing twice is
      the identity. */
  lemma TransposedTwiceFloats(m: RhaiMatrix)
    requires ToDense(m.arr).Ok? && |m.arr| >= 1 && FirstRowLength(m.arr) >= 1
    requires forall i, j :: 0 <= i < |m.arr| && m.arr[i].VArr? && 0 <= j < |m.arr[i].elems| ==> m.arr[i].elems[j].VFloat?
    ensures Transposed(m).Ok? && Transposed(Transposed(m).value) == Ok(m)
  {
    TransposedTwice(m);
    FloatsRoundTrip(m.arr);
  }

  /** `concat_h` reports the left operand's conversion error first, then the
      right one's, then "Matrices must have the same number of rows" when
      the row counts differ. Otherwise an `r×c1` and an `r×c2` matrix give
      `r` rows (`ConcatenatedHRows` gives their widths and
      `ConcatenatedHEntries` their entries). */
  lemma ConcatenatedHShape(a: RhaiMatrix, b: RhaiMatrix)
    ensures ToDense(a.arr).Err? ==> ConcatenatedH(a, b) == Err(ToDense(a.arr).message)
    ensures ToDense(a.arr).Ok? && ToDense(b.arr).Err? ==> ConcatenatedH(a, b) == Err(ToDense(b.arr).message)
    ensures ToDense(a.arr).Ok? && ToDense(b.arr).Ok? && |a.arr| != |b.arr| ==>
              ConcatenatedH(a, b) == Err(RowsMismatch)
    ensures ToDense(a.arr).Ok? && ToDense(b.arr).Ok? && |a.arr| == |b.arr| ==>
              && ConcatenatedH(a, b).Ok?
              && |ConcatenatedH(a, b).value.arr| == |a.arr|
  {
    if ToDense(a.arr).Ok? && ToDense(b.arr).Ok? && |a.arr| == |b.arr| {
      ConcatenatedHRows(a, b);
    }
  }

  /** When `concat_h` succeeds, every row of the result is an array of
      exactly `c1 + c2` entries, and its size is `[r, c1 + c2]` when it has a
      row. */
  lemma ConcatenatedHRows(a: RhaiMatrix, b: RhaiMatrix)
    requires ToDense(a.arr).Ok? && ToDense(b.arr).Ok? && |a.arr| == |b.arr|
    ensures ConcatenatedH(a, b).Ok?
    ensures |ConcatenatedH(a, b).value.arr| == |a.arr|
    ensures forall i :: 0 <= i < |a.arr| ==>
              ConcatenatedH(a, b).value.arr[i].VArr? &&
              |ConcatenatedH(a, b).value.arr[i].elems| == FirstRowLength(a.arr) + FirstRowLength(b.arr)
    ensures |a.arr| >= 1 ==>
              Size(ConcatenatedH(a, b).value.arr) == [|a.arr|, FirstRowLength(a.arr) + FirstRowLength(b.arr)]
  {
    var l, r := ToDense(a.arr).value, ToDense(b.arr).value;
    assert ConcatenatedH(a, b) == Ok(RhaiMatrix(FromDense(JoinColumns(l, r))));
    JoinedColumnsShape(l, r);
  }

  /** When `concat_h` succeeds, row `i` of the result is the left operand's
      row `i` followed by the right operand's row `i`, every entry as a FLOAT. */
  lemma ConcatenatedHEntries(a: RhaiMatrix, b: RhaiMatrix)
    requires ToDense(a.arr).Ok? && ToDense(b.arr).Ok? && |a.arr| == |b.arr|
    ensures ConcatenatedH(a, b).Ok?
    ensures forall i, j :: 0 <= i < |a.arr| && 0 <= j < FirstRowLength(a.arr) + FirstRowLength(b.arr) ==>
              var c1 := FirstRowLength(a.arr);
              ConcatenatedH(a, b).value.arr[i].elems[j] ==
              VFloat(if j < c1 then AsFloat(a.arr[i].elems[j]) else AsFloat(b.arr[i].elems[j - c1]))
  {
    ToDenseOk(a.arr);
    ToDenseOk(b.arr);
    var l, r := ToDense(a.arr).value, ToDense(b.arr).value;
    assert ConcatenatedH(a, b) == Ok(RhaiMatrix(FromDense(JoinColumns(l, r))));
    JoinedColumnsShape(l, r);
  }

  /** Back from the dense backend, the horizontal join of `r×c1` and `r×c2`
      is `r` rows of `c1 + c2` FLOATs: the left row, then the right row. */
  lemma JoinedColumnsShape(l: Dense, r: Dense)
    requires l.Valid() && r.Valid() && l.nrows == r.nrows
    ensures |FromDense(JoinColumns(l, r))| == l.nrows
    ensures forall i :: 0 <= i < l.nrows ==>
              FromDense(JoinColumns(l, r))[i].VArr? && |FromDense(JoinColumns(l, r))[i].elems| == l.ncols + r.ncols
    ensures l.nrows >= 1 ==> Size(FromDense(JoinColumns(l, r))) == [l.nrows, l.ncols + r.ncols]
    ensures forall i, j :: 0 <= i < l.nrows && 0 <= j < l.ncols + r.ncols ==>
              FromDense(JoinColumns(l, r))[i].elems[j] ==
              VFloat(if j < l.ncols then l.entries[i][j] else r.entries[i][j - l.ncols])
  {
    var d := JoinColumns(l, r);
    FromDenseShape(d);
    forall i, j | 0 <= i < d.nrows && 0 <= j < d.ncols
      ensures d.entries[i][j] == if j < l.ncols then l.entries[i][j] else r.entries[i][j - l.ncols]
    {
      assert d.entries[i] == l.entries[i] + r.entries[i];
    }
  }

  /** `concat_v` reports the top operand's conversion error first, then the
      bottom one's, then "Matrices must have the same number of columns" when
      the column counts differ. Otherwise an `r1×c` and an `r2×c` matrix give
      `r1 + r2` rows (`ConcatenatedVRows` gives their widths and
      `ConcatenatedVEntries` their entries). */
  lemma ConcatenatedVShape(a: RhaiMatrix, b: RhaiMatrix)
    ensures ToDense(a.arr).Err? ==> ConcatenatedV(a, b) == Err(ToDense(a.arr).message)
    ensures ToDense(a.arr).Ok? && ToDense(b.arr).Err? ==> ConcatenatedV(a, b) == Err(ToDense(b.arr).message)
    ensures ToDense(a.arr).Ok? && ToDense(b.arr).Ok? && FirstRowLength(a.arr) != FirstRowLength(b.arr) ==>
              ConcatenatedV(a, b) == Err(ColsMismatch)
    ensures ToDense(a.arr).Ok? && ToDense(b.arr).Ok? && FirstRowLength(a.arr) == FirstRowLength(b.arr) ==>
              && ConcatenatedV(a, b).Ok?
              && |ConcatenatedV(a, b).value.arr| == |a.arr| + |b.arr|
  {
    if ToDense(a.arr).Ok? && ToDense(b.arr).Ok? && FirstRowLength(a.arr) == FirstRowLength(b.arr) {
      ConcatenatedVRows(a, b);
    }
  }

  /** When `concat_v` succeeds, every row of the result is an array of
      exactly `c` entries, and its size is `[r1 + r2, c]` when it has a row. */
  lemma ConcatenatedVRows(a: RhaiMatrix, b: RhaiMatrix)
    requires ToDense(a.arr).Ok? && ToDense(b.arr).Ok? && FirstRowLength(a.arr) == FirstRowLength(b.arr)
    ensures ConcatenatedV(a, b).Ok?
    ensures |ConcatenatedV(a, b).value.arr| == |a.arr| + |b.arr|
    ensures forall i :: 0 <= i < |a.arr| + |b.arr| ==>
              ConcatenatedV(a, b).value.arr[i].VArr? && |ConcatenatedV(a, b).value.arr[i].elems| == FirstRowLength(a.arr)
    ensures |a.arr| + |b.arr| >= 1 ==>
              Size(ConcatenatedV(a, b).value.arr) == [|a.arr| + |b.arr|, FirstRowLength(a.arr)]
  {
    var t, bt := ToDense(a.arr).value, ToDense(b.arr).value;
    assert ConcatenatedV(a, b) == Ok(RhaiMatrix(FromDense(JoinRows(t, bt))));
    JoinedRowsShape(t, bt);
  }

  /** Back from the dense backend, the vertical join of `r1×c` and `r2×c` is
      `r1 + r2` rows of `c` FLOATs. */
  lemma JoinedRowsShape(t: Dense, bt: Dense)
    requires t.Valid() && bt.Valid() && t.ncols == bt.ncols
    ensures |FromDense(JoinRows(t, bt))| == t.nrows + bt.nrows
    ensures forall i :: 0 <= i < t.nrows + bt.nrows ==>
              FromDense(JoinRows(t, bt))[i].VArr? && |FromDense(JoinRows(t, bt))[i].elems| == t.ncols
    ensures t.nrows + bt.nrows >= 1 ==> Size(FromDense(JoinRows(t, bt))) == [t.nrows + bt.nrows, t.ncols]
    ensures forall i, j :: 0 <= i < t.nrows + bt.nrows && 0 <= j < t.ncols ==>
              FromDense(JoinRows(t, bt))[i].elems[j] ==
              VFloat(if i < t.nrows then t.entries[i][j] else bt.entries[i - t.nrows][j])
  {
    var d := JoinRows(t, bt);
    FromDenseShape(d);
    forall i | 0 <= i < d.nrows
      ensures d.entries[i] == if i < t.nrows then t.entries[i] else bt.entries[i - t.nrows]
    {
    }
  }

  /** When `concat_v` succeeds, the result's rows are the top operand's rows
      followed by the bottom operand's, every entry as a FLOAT. */
  lemma ConcatenatedVEntries(a: RhaiMatrix, b: RhaiMatrix)
    requires ToDense(a.arr).Ok? && ToDense(b.arr).Ok? && FirstRowLength(a.arr) == FirstRowLength(b.arr)
    ensures ConcatenatedV(a, b).Ok?
    ensures forall i, j :: 0 <= i < |a.arr| + |b.arr| && 0 <= j < FirstRowLength(a.arr) ==>
              var r1 := |a.arr|;
              ConcatenatedV(a, b).value.arr[i].elems[j] ==
              VFloat(if i < r1 then AsFloat(a.arr[i].elems[j]) else AsFloat(b.arr[i - r1].elems[j]))
  {
    ToDenseOk(a.arr);
    ToDenseOk(b.arr);
    var t, bt := ToDense(a.arr).value, ToDense(b.arr).value;
    assert ConcatenatedV(a, b) == Ok(RhaiMatrix(FromDense(JoinRows(t, bt))));
    JoinedRowsShape(t, bt);
  }

  /** A row of two elements and a column of two elements do not
      concatenate side by side. */
  lemma RowBesideColumnFails()
    ensures ConcatenatedH(RhaiMatrix.RowVector([VInt(1), VInt(2)]),
                          RhaiMatrix.ColumnVector([VInt(3), VInt(4)])) == Err(RowsMismatch)
  {
    var row := RhaiMatrix.RowVector([VInt(1), VInt(2)]);
    var col := RhaiMatrix.ColumnVector([VInt(3), VInt(4)]);
    assert col.arr == [VArr([VInt(3)]), VArr([VInt(4)])];
    assert RowOk(row.arr[0], 2);
    assert RowOk(col.arr[0], 1) && RowOk(col.arr[1], 1);
    ToDenseOk(row.arr);
    ToDenseOk(col.arr);
  }

  /** A column of two elements does not stack over a row of two elements. */
  lemma ColumnOverRowFails()
    ensures ConcatenatedV(RhaiMatrix.ColumnVector([VInt(1), VInt(2)]),
                          RhaiMatrix.RowVector([VInt(3), VInt(4)])) == Err(ColsMismatch)
  {
    var col := RhaiMatrix.ColumnVector([VInt(1), VInt(2)]);
    var row := RhaiMatrix.RowVector([VInt(3), VInt(4)]);
    assert col.arr == [VArr([VInt(1)]), VArr([VInt(2)])];
    assert RowOk(row.arr[0], 2);
    assert RowOk(col.arr[0], 1) && RowOk(col.arr[1], 1);
    ToDenseOk(row.arr);
    ToDenseOk(col.arr);
  }

  // ---------------------------------------------------------------------
  // RhaiVector
  // ---------------------------------------------------------------------

  /** What `to_dvector` computes: every element widened to a FLOAT, or the
      error when some element is neither INT nor FLOAT. */
  function ToDenseVector(data: Array): Result<seq<Float>>
  {
    if forall k :: 0 <= k < |data| ==> IsNumeric(data[k])
    then Ok(seq(|data|, k requires 0 <= k < |data| => AsFloat(data[k])))
    else Err(VectorNonNumeric)
  }

  /** What `from_dvector` builds: the entries as FLOATs, in order. */
  function FromDenseVector(xs: seq<Float>): Array
  {
    seq(|xs|, k requires 0 <= k < |xs| => VFloat(xs[k]))
  }

  /** Converting a dense vector to a rhai vector and back gives it unchanged. */
  lemma DenseVectorRoundTrip(xs: seq<Float>)
    ensures ToDenseVector(FromDenseVector(xs)) == Ok(xs)
  {
    var data := FromDenseVector(xs);
    assert forall k :: 0 <= k < |data| ==> IsNumeric(data[k]);
    assert ToDenseVector(data).value == xs;
  }

  /** A vector with an INT element comes back from the dense backend with a
      FLOAT in its place. */
  lemma VectorIntsDoNotRoundTrip(data: Array, k: nat)
    requires k < |data| && data[k].VInt? && ToDenseVector(data).Ok?
    ensures FromDenseVector(ToDenseVector(data).value) != data
  {
    assert FromDenseVector(ToDenseVector(data).value)[k].VFloat?;
  }

  datatype RhaiVector = RhaiVector(data: Array) {

    /** `from_array`: wraps the array as it is. */
    static function FromArray(a: Array): (v: RhaiVector)
      ensures v.ToArray() == a
    {
      RhaiVector(a)
    }

    /** `to_array`: unwraps the array as it is. */
    function ToArray(): (a: Array)
      ensures RhaiVector(a) == this
    {
      data
    }

    /** `to_dvector`: writes each element, widened, into a zero buffer of the
        same length, stopping at the first element that is neither INT nor
        FLOAT. */
    method ToDVector() returns (r: Result<array<Float>>)
      ensures r.Ok? <==> ToDenseVector(data).Ok?
      ensures r.Ok? ==> r.value[..] == ToDenseVector(data).value
      ensures r.Err? ==> ToDenseVector(data) == Err(r.message)
    {
      var dv := new Float[|data|](_ => Zero);
      for i := 0 to |data|
        invariant forall k :: 0 <= k < i ==> IsNumeric(data[k]) && dv[k] == AsFloat(data[k])
      {
        var val := data[i];
        if val.VFloat? {
          dv[i] := val.x;
        } else if val.VInt? {
          dv[i] := IntToFloat(val.n);
        } else {
          return Err(VectorNonNumeric);
        }
      }
      return Ok(dv);
    }

    /** `from_dvector`: pushes each entry as a FLOAT. */
    static method FromDVector(vec: array<Float>) returns (v: RhaiVector)
      ensures v.data == FromDenseVector(vec[..])
    {
      var data: Array := [];
      for i := 0 to vec.Length
        invariant data == FromDenseVector(vec[..i])
      {
        data := data + [VFloat(vec[i])];
      }
      return RhaiVector(data);
    }
  }
}

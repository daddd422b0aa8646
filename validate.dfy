/** The shape and element-type predicates of src/validate.rs. Each takes the
    array by `&mut` only to avoid a copy and never writes it; here each is a
    function of the array's value, so it changes nothing and never fails. */
module Validate {
  import opened Dynamic
  import opened Shapes
  import opened Matrix

  /** `is_list`: the size has one extent, that is, the array is empty or
      its first element is not an array. */
  function IsList(a: Array): (r: bool)
    ensures r <==> a == [] || !a[0].VArr?
  {
    |Size(a)| == 1
  }

  /** `is_numeric_array`: INTs and FLOATs together account for every leaf. */
  function IsNumericArray(a: Array): (r: bool)
    ensures r <==> forall v :: v in Flatten(a) ==> IsNumeric(v)
  {
    var t := Tally(a);
    AllNumericIffCount(Flatten(a));
    t.ints + t.floats - t.total == 0
  }

  /** `is_float_list`: a list whose every leaf is a FLOAT. */
  function IsFloatList(a: Array): (r: bool)
    ensures r <==> IsList(a) && forall v :: v in Flatten(a) ==> v.VFloat?
  {
    var t := Tally(a);
    AllFloatsIffCount(Flatten(a));
    t.floats == t.total && IsList(a)
  }

  /** `is_int_list`: a list whose every leaf is an INT. */
  function IsIntList(a: Array): (r: bool)
    ensures r <==> IsList(a) && forall v :: v in Flatten(a) ==> v.VInt?
  {
    var t := Tally(a);
    AllIntsIffCount(Flatten(a));
    t.ints == t.total && IsList(a)
  }

  /** `is_numeric_list`: a list whose leaves are all INTs or all FLOATs. */
  function IsNumericList(a: Array): (r: bool)
    ensures r <==> IsList(a) && ((forall v :: v in Flatten(a) ==> v.VInt?) ||
                                 (forall v :: v in Flatten(a) ==> v.VFloat?))
  {
    var t := Tally(a);
    AllIntsIffCount(Flatten(a));
    AllFloatsIffCount(Flatten(a));
    (t.ints == t.total || t.floats == t.total) && IsList(a)
  }

  /** `is_row_vector`: the size is `[1, n]`, that is, a single row array
      that is empty or starts with a non-array. */
  function IsRowVector(a: Array): (r: bool)
    ensures r <==> |Size(a)| == 2 && Size(a)[0] == 1
    ensures r <==> |a| == 1 && a[0].VArr? && (a[0].elems == [] || !a[0].elems[0].VArr?)
  {
    if RhaiMatrix.FromArray(a).AsRow().Some? then
      var s := Size(a);
      |s| == 2 && s[0] == 1
    else
      false
  }

  /** `is_column_vector`: the size is `[n, 1]`, that is, the first row is an
      array holding exactly one non-array. */
  function IsColumnVector(a: Array): (r: bool)
    ensures r <==> |Size(a)| == 2 && Size(a)[1] == 1
    ensures r <==> a != [] && a[0].VArr? && |a[0].elems| == 1 && !a[0].elems[0].VArr?
  {
    if RhaiMatrix.FromArray(a).AsColumn().Some? then
      var s := Size(a);
      |s| == 2 && s[1] == 1
    else
      false
  }

  /** `is_matrix`, as written: the size has two extents and their product
      equals the number of leaves. */
  function IsMatrix(a: Array): (r: bool)
    ensures r <==> a != [] && a[0].VArr? && (a[0].elems == [] || !a[0].elems[0].VArr?)
                   && Numel(a) == |a| * |a[0].elems|
    ensures r ==> !IsList(a)
  {
    if |Size(a)| != 2 then false
    else
      ProdOfPair(Size(a));
      Prod(Size(a)) == Numel(a)
  }

  // ---------------------------------------------------------------------
  // Relations between the predicates
  // ---------------------------------------------------------------------

  /** A nonempty list is not both an INT list and a FLOAT list. */
  lemma IntAndFloatListsExclusive(a: Array)
    requires IsList(a) && a != []
    ensures !(IsIntList(a) && IsFloatList(a))
  {
    assert Flatten(a)[0] == a[0];
  }

  /** The empty list is both. */
  lemma EmptyListIsIntAndFloatList()
    ensures IsIntList([]) && IsFloatList([])
  {
  }

  /** INT lists and FLOAT lists are numeric lists, and numeric lists are
      numeric arrays. */
  lemma NumericListHierarchy(a: Array)
    ensures IsIntList(a) ==> IsNumericList(a)
    ensures IsFloatList(a) ==> IsNumericList(a)
    ensures IsNumericList(a) ==> IsNumericArray(a)
  {
  }

  /** A list mixing INTs and FLOATs is a numeric array but not a numeric
      list. */
  lemma MixedListIsNotNumericList(i: int, x: Float)
    ensures IsNumericArray([VInt(i), VFloat(x)])
    ensures !IsNumericList([VInt(i), VFloat(x)])
  {
    var a := [VInt(i), VFloat(x)];
    assert Flatten(a) == a;
    assert VInt(i) in Flatten(a) && VFloat(x) in Flatten(a);
  }

  /** A `1×1` matrix is both a row and a column vector. */
  lemma OneByOneIsRowAndColumn(v: Value)
    requires !v.VArr?
    ensures IsRowVector([VArr([v])]) && IsColumnVector([VArr([v])])
  {
  }

  /** `row_vector` builds a row vector from a list; `column_vector` builds a
      column vector from a nonempty list. */
  lemma ConstructorsAreOriented(d: Array)
    requires IsList(d)
    ensures IsRowVector(RhaiMatrix.RowVector(d).ToArray())
    ensures d != [] ==> IsColumnVector(RhaiMatrix.ColumnVector(d).ToArray())
  {
  }

  /** Converting a column to a row gives a row vector, and a row to a column
      gives a column vector, for a nonempty list of scalars. */
  lemma ConvertersAreOriented(d: Array)
    requires d != [] && Scalars(d)
    ensures IsRowVector(RhaiMatrix.ColumnVector(d).AsRow().value.ToArray())
    ensures IsColumnVector(RhaiMatrix.RowVector(d).AsColumn().value.ToArray())
  {
    OrientationRoundTrip(d);
  }

  /** A two-element column is not a row vector and a two-element row is not a
      column vector. */
  lemma OrientationIsNotShared(x: Value, y: Value)
    requires !x.VArr? && !y.VArr?
    ensures !IsRowVector([VArr([x]), VArr([y])])
    ensures !IsColumnVector([VArr([x, y])])
  {
  }

  /** The orientation checks read only the first row, so a ragged array
      such as `[[1], [2, 3]]` passes `is_column_vector`, while `to_dmatrix`
      rejects it for its unequal rows. */
  lemma {:induction false} RaggedColumnIsColumnVector(x: Value, y: Value, z: Value)
    requires IsNumeric(x)
    ensures IsColumnVector([VArr([x]), VArr([y, z])])
    ensures ToDense([VArr([x]), VArr([y, z])]) == Err(UnequalRows)
  {
    var a := [VArr([x]), VArr([y, z])];
    assert RowOk(a[0], FirstRowLength(a));
    assert !RowOk(a[1], FirstRowLength(a));
    ToDenseErr(a, 1);
  }

  /** Transposing a nonempty numeric row gives a column vector. */
  lemma TransposedRowIsColumn(d: Array)
    requires d != [] && forall k :: 0 <= k < |d| ==> IsNumeric(d[k])
    ensures Transposed(RhaiMatrix.RowVector(d)).Ok?
    ensures IsColumnVector(Transposed(RhaiMatrix.RowVector(d)).value.ToArray())
  {
    var m := RhaiMatrix.RowVector(d);
    assert RowOk(m.arr[0], |d|);
    ToDenseOk(m.arr);
    TransposedShape(m);
  }

  // ---------------------------------------------------------------------
  // is_matrix and ragged input
  // ---------------------------------------------------------------------

  /** The corrected `is_matrix`: the array is rectangular. It has a first
      row, every element is a row array of the first row's length, and no
      entry is itself an array. Every such array passes `is_matrix` as
      written. */
  function IsRectangularMatrix(a: Array): (r: bool)
    ensures r ==> IsMatrix(a)
  {
    var ok :=
      && |Size(a)| == 2
      && forall i :: 0 <= i < |a| ==> a[i].VArr? && |a[i].elems| == Size(a)[1] && Scalars(a[i].elems);
    if ok then
      RectangularNumel(a, Size(a)[1]);
      ProdOfPair(Size(a));
      ok
    else
      ok
  }

  /** A rectangular `r×c` array has `r·c` leaves. */
  lemma {:induction false} RectangularNumel(a: Array, c: nat)
    requires forall i :: 0 <= i < |a| ==> a[i].VArr? && |a[i].elems| == c && Scalars(a[i].elems)
    ensures Numel(a) == |a| * c
  {
    if a != [] {
      RectangularNumel(a[1..], c);
      assert a[0] == VArr(a[0].elems);
      assert Flatten(a) == Flatten(a[0].elems) + Flatten(a[1..]);
      assert Flatten(a[0].elems) == a[0].elems;
      assert Numel(a) == c + (|a| - 1) * c;
      MulStep(|a|, c);
    }
  }

  lemma MulStep(n: nat, c: nat)
    requires n >= 1
    ensures c + (n - 1) * c == n * c
  {
  }

  /** For an array with at least one row, the corrected `is_matrix` with
      numeric entries is exactly what the dense bridge accepts. */
  lemma RectangularAgreesWithBridge(a: Array)
    requires a != []
    ensures ToDense(a).Ok? <==>
              IsRectangularMatrix(a) &&
              forall i, j :: 0 <= i < |a| && a[i].VArr? && 0 <= j < |a[i].elems| ==> IsNumeric(a[i].elems[j])
  {
    ToDenseOk(a);
    if ToDense(a).Ok? {
      assert RowOk(a[0], FirstRowLength(a));
      assert a[0].elems != [] ==> IsNumeric(a[0].elems[0]);
      assert Size(a) == [|a|] + Size(a[0].elems);
      assert |Size(a)| == 2 && Size(a)[1] == FirstRowLength(a);
      forall i | 0 <= i < |a|
        ensures a[i].VArr? && |a[i].elems| == Size(a)[1] && Scalars(a[i].elems)
      {
        assert RowOk(a[i], FirstRowLength(a));
      }
    }
  }

  /** `is_matrix` as written accepts a ragged array whose leaf count happens
      to equal rows × first-row length: `[[1, 2], [3, 4, 5], [6]]`. */
  lemma IsMatrixAcceptsRagged()
    ensures IsMatrix([VArr([VInt(1), VInt(2)]), VArr([VInt(3), VInt(4), VInt(5)]), VArr([VInt(6)])])
    ensures !IsRectangularMatrix([VArr([VInt(1), VInt(2)]), VArr([VInt(3), VInt(4), VInt(5)]), VArr([VInt(6)])])
  {
    var r0, r1, r2 := [VInt(1), VInt(2)], [VInt(3), VInt(4), VInt(5)], [VInt(6)];
    var a := [VArr(r0), VArr(r1), VArr(r2)];
    assert Size(r0) == [2];
    assert Size(a) == [3, 2];
    assert Flatten(a) == Flatten(r0) + Flatten(a[1..]);
    assert Flatten(a[1..]) == Flatten(r1) + Flatten(a[2..]);
    assert Flatten(a[2..]) == Flatten(r2) + Flatten(a[3..]);
    assert Numel(a) == 6;
    assert |a[1].elems| != Size(a)[1];
  }

  // ---------------------------------------------------------------------
  // The documented examples
  // ---------------------------------------------------------------------

  /** `[1, 2, 3, 4]` is a list; `[[[1, 2], [3, 4]]]` is not. */
  lemma IsListExamples()
    ensures IsList([VInt(1), VInt(2), VInt(3), VInt(4)])
    ensures !IsList([VArr([VArr([VInt(1), VInt(2)]), VArr([VInt(3), VInt(4)])])])
  {
  }

  /** `[1, 2, 3.0, 5.0]` is numeric; adding a string makes it not. */
  lemma IsNumericArrayExamples(x: Float, y: Float)
    ensures IsNumericArray([VInt(1), VInt(2), VFloat(x), VFloat(y)])
    ensures !IsNumericArray([VInt(1), VInt(2), VFloat(x), VFloat(y), VOther])
  {
    var a := [VInt(1), VInt(2), VFloat(x), VFloat(y)];
    var b := [VInt(1), VInt(2), VFloat(x), VFloat(y), VOther];
    assert Flatten(a) == a;
    assert Scalars(b);
    assert Flatten(b) == b;
    assert VOther in Flatten(b);
  }

  /** Four FLOATs form a FLOAT list and a numeric list but not an INT list;
      four INTs form an INT list and a numeric list but not a FLOAT list;
      four strings form no numeric list. */
  lemma ListTypeExamples(x1: Float, x2: Float, x3: Float, x4: Float)
    ensures IsFloatList([VFloat(x1), VFloat(x2), VFloat(x3), VFloat(x4)])
    ensures !IsIntList([VFloat(x1), VFloat(x2), VFloat(x3), VFloat(x4)])
    ensures IsNumericList([VFloat(x1), VFloat(x2), VFloat(x3), VFloat(x4)])
    ensures IsIntList([VInt(1), VInt(2), VInt(3), VInt(4)])
    ensures !IsFloatList([VInt(1), VInt(2), VInt(3), VInt(4)])
    ensures IsNumericList([VInt(1), VInt(2), VInt(3), VInt(4)])
    ensures !IsNumericList([VOther, VOther, VOther, VOther])
  {
    FloatListExample(x1, x2, x3, x4);
    IntListExample();
    StringListExample();
  }

  /** A list of four floats is a FLOAT list and a numeric list, not an INT list. */
  lemma FloatListExample(x1: Float, x2: Float, x3: Float, x4: Float)
    ensures IsFloatList([VFloat(x1), VFloat(x2), VFloat(x3), VFloat(x4)])
    ensures !IsIntList([VFloat(x1), VFloat(x2), VFloat(x3), VFloat(x4)])
    ensures IsNumericList([VFloat(x1), VFloat(x2), VFloat(x3), VFloat(x4)])
  {
    var f := [VFloat(x1), VFloat(x2), VFloat(x3), VFloat(x4)];
    assert Scalars(f);
    assert VFloat(x1) in Flatten(f);
  }

  /** `[1, 2, 3, 4]` is an INT list and a numeric list, not a FLOAT list. */
  lemma IntListExample()
    ensures IsIntList([VInt(1), VInt(2), VInt(3), VInt(4)])
    ensures !IsFloatList([VInt(1), VInt(2), VInt(3), VInt(4)])
    ensures IsNumericList([VInt(1), VInt(2), VInt(3), VInt(4)])
  {
    var n := [VInt(1), VInt(2), VInt(3), VInt(4)];
    assert Scalars(n);
    assert VInt(1) in Flatten(n);
  }

  /** A list of strings is not a numeric list. */
  lemma StringListExample()
    ensures !IsNumericList([VOther, VOther, VOther, VOther])
  {
    var o := [VOther, VOther, VOther, VOther];
    assert Scalars(o);
    assert VOther in Flatten(o);
  }

  /** A 3×5 matrix passes `is_matrix`; a 5×5×5 array does not. */
  lemma IsMatrixExamples(x: Float)
    ensures IsMatrix(seq(3, _ => VArr(seq(5, _ => VFloat(x)))))
    ensures !IsMatrix(seq(5, _ => VArr(seq(5, _ => VArr(seq(5, _ => VFloat(x)))))))
  {
    var a := seq(3, _ => VArr(seq(5, _ => VFloat(x))));
    assert Size(a[0].elems) == [5];
    assert IsRectangularMatrix(a);
    var b := seq(5, _ => VArr(seq(5, _ => VArr(seq(5, _ => VFloat(x))))));
    assert Size(b[0].elems[0].elems) == [5];
    assert |Size(b)| == 3;
  }
}

/** The crate helpers the matrix layer calls to measure an array:
    `matrix_size_by_reference`, `flatten`, `numel_by_reference`,
    `int_and_float_totals` and `stats::prod`. Their source is not part of
    this model; the definitions below are ASSUMED behaviour, chosen to match
    how the callers use them:
    - Size descends through first elements, so it reports a size even for
      ragged input (the cross-check in `is_matrix` relies on that);
    - Flatten is a row-major, fully recursive flattening;
    - Tally counts the INT leaves, the FLOAT leaves and all leaves of the
      flattened array. */
module Shapes {
  import opened Dynamic

  /** Assumed `matrix_size_by_reference`: the length of the array, then the
      size of its first element while that element is itself an array. */
  function Size(a: Array): (s: seq<nat>)
    ensures |s| >= 1 && s[0] == |a|
    ensures |s| == 1 <==> a == [] || !a[0].VArr?
  {
    [|a|] + (if a != [] && a[0].VArr? then Size(a[0].elems) else [])
  }

  /** No element of `a` is itself an array. */
  predicate Scalars(a: Array)
  {
    forall k :: 0 <= k < |a| ==> !a[k].VArr?
  }

  /** Assumed `flatten`: the leaves of `a` in row-major order. */
  function Flatten(a: Array): (r: Array)
    ensures Scalars(r)
    ensures Scalars(a) ==> r == a
  {
    if a == [] then []
    else
      (match a[0]
       case VArr(s) => Flatten(s)
       case _ => [a[0]]) + Flatten(a[1..])
  }

  /** Assumed `numel_by_reference`: the number of leaves. */
  function Numel(a: Array): nat
  {
    |Flatten(a)|
  }

  /** Assumed `stats::prod` over a size. */
  function Prod(s: seq<nat>): nat
  {
    if s == [] then 1 else s[0] * Prod(s[1..])
  }

  /** The product of a two-extent size is the product of its extents. */
  lemma ProdOfPair(s: seq<nat>)
    requires |s| == 2
    ensures Prod(s) == s[0] * s[1]
  {
    assert s[1..][1..] == [];
    assert Prod(s[1..]) == s[1] * Prod(s[1..][1..]);
  }

  datatype Totals = Totals(ints: nat, floats: nat, total: nat)

  /** Counts the INT, FLOAT and all elements of a sequence of leaves. */
  function Count(leaves: Array): (t: Totals)
    ensures t.total == |leaves|
    ensures t.ints + t.floats <= t.total
  {
    if leaves == [] then Totals(0, 0, 0)
    else
      var t := Count(leaves[1..]);
      match leaves[0]
      case VInt(_) => Totals(t.ints + 1, t.floats, t.total + 1)
      case VFloat(_) => Totals(t.ints, t.floats + 1, t.total + 1)
      case _ => Totals(t.ints, t.floats, t.total + 1)
  }

  /** Assumed `int_and_float_totals`. */
  function Tally(a: Array): Totals
  {
    Count(Flatten(a))
  }

  /** Every leaf is an INT exactly when the INT count reaches the total. */
  lemma {:induction false} AllIntsIffCount(leaves: Array)
    ensures Count(leaves).ints == Count(leaves).total <==> forall v :: v in leaves ==> v.VInt?
  {
    if leaves != [] {
      AllIntsIffCount(leaves[1..]);
      assert forall v :: v in leaves <==> v == leaves[0] || v in leaves[1..];
    }
  }

  /** Every leaf is a FLOAT exactly when the FLOAT count reaches the total. */
  lemma {:induction false} AllFloatsIffCount(leaves: Array)
    ensures Count(leaves).floats == Count(leaves).total <==> forall v :: v in leaves ==> v.VFloat?
  {
    if leaves != [] {
      AllFloatsIffCount(leaves[1..]);
      assert forall v :: v in leaves <==> v == leaves[0] || v in leaves[1..];
    }
  }

  /** Every leaf is numeric exactly when INTs and FLOATs together make up the total. */
  lemma {:induction false} AllNumericIffCount(leaves: Array)
    ensures Count(leaves).ints + Count(leaves).floats == Count(leaves).total
            <==> forall v :: v in leaves ==> IsNumeric(v)
  {
    if leaves != [] {
      AllNumericIffCount(leaves[1..]);
      assert forall v :: v in leaves <==> v == leaves[0] || v in leaves[1..];
      if !IsNumeric(leaves[0]) {
        assert leaves[0] in leaves;
      }
    }
  }

  /** The leaves one element contributes to a flattening. */
  function Leaves(x: Value): Array
  {
    match x
    case VArr(s) => Flatten(s)
    case _ => [x]
  }

  /** A nonempty array flattens to its first element's leaves, then the
      flattening of the rest. */
  lemma FlattenHead(a: Array)
    requires a != []
    ensures Flatten(a) == Leaves(a[0]) + Flatten(a[1..])
  {
  }

  /** The first element and the tail of a concatenation with a nonempty left part. */
  lemma AppendHead(a: Array, b: Array)
    requires a != []
    ensures (a + b)[0] == a[0] && (a + b)[1..] == a[1..] + b
  {
  }

  /** Concatenation of leaf sequences is associative. */
  lemma AppendAssoc(p: Array, q: Array, r: Array)
    ensures (p + q) + r == p + (q + r)
  {
  }

  /** Flattening distributes over concatenation. */
  lemma {:induction false} FlattenAppend(a: Array, b: Array)
    ensures Flatten(a + b) == Flatten(a) + Flatten(b)
  {
    if a == [] {
      assert a + b == b;
    } else {
      FlattenHead(a);
      FlattenHead(a + b);
      AppendHead(a, b);
      FlattenAppend(a[1..], b);
      AppendAssoc(Leaves(a[0]), Flatten(a[1..]), Flatten(b));
    }
  }
}

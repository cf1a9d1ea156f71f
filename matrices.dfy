/**
 The dense-array operations the layers use (ndarray's `dot`, `t()`, `sum_axis(Axis(0))`,
 element-wise arithmetic and the broadcast of a bias row), written over exact reals.

 A matrix is a sequence of rows. A sequence with no rows has forgotten how many columns it
 had, so every operation that needs the column count takes it as an explicit argument.
 */
module Matrices {

  type Vector = seq<real>
  type Matrix = seq<seq<real>>

  /** `m` has `r` rows of exactly `c` entries each. */
  predicate IsMatrix(m: Matrix, r: nat, c: nat) {
    |m| == r && forall i :: 0 <= i < r ==> |m[i]| == c
  }

  /** Number of columns of a matrix that has at least one row; 0 otherwise. */
  function Cols(m: Matrix): nat {
    if m == [] then 0 else |m[0]|
  }

  /** Every row of `m` has as many entries as the first one. */
  predicate Rectangular(m: Matrix) {
    IsMatrix(m, |m|, Cols(m))
  }

  /** `a` and `b` have the same number of rows and matching row lengths. */
  predicate SameShape(a: Matrix, b: Matrix) {
    |a| == |b| && forall i :: 0 <= i < |a| ==> |a[i]| == |b[i]|
  }

  // ----- vectors -----

  function Sum(v: Vector): real {
    if v == [] then 0.0 else v[0] + Sum(v[1..])
  }

  /** The inner product `Σ_k u[k]·v[k]`. */
  function Inner(u: Vector, v: Vector): real
    requires |u| == |v|
  {
    if u == [] then 0.0 else u[0] * v[0] + Inner(u[1..], v[1..])
  }

  function Zeros(n: nat): Vector {
    seq(n, _ => 0.0)
  }

  function VecAdd(u: Vector, v: Vector): Vector
    requires |u| == |v|
  {
    seq(|u|, k requires 0 <= k < |u| => u[k] + v[k])
  }

  function Scale(c: real, v: Vector): Vector {
    seq(|v|, k requires 0 <= k < |v| => c * v[k])
  }

  // ----- matrices -----

  /** Column `j` of `m`, top to bottom. */
  function Column(m: Matrix, j: nat): Vector
    requires forall i :: 0 <= i < |m| ==> j < |m[i]|
  {
    seq(|m|, i requires 0 <= i < |m| => m[i][j])
  }

  /** ndarray's `t()`: the `c × r` transpose of an `r × c` matrix. */
  function Transpose(m: Matrix, c: nat): (r: Matrix)
    requires IsMatrix(m, |m|, c)
    ensures IsMatrix(r, c, |m|)
    ensures forall j, i :: 0 <= j < c && 0 <= i < |m| ==> r[j][i] == m[i][j]
  {
    seq(c, j requires 0 <= j < c => Column(m, j))
  }

  /**
   The row vector `v` times the `k × c` matrix `m`, built as the linear combination of the
   rows of `m` with coefficients `v`; entry `j` is the inner product of `v` with column `j`.
   */
  function VecMat(v: Vector, m: Matrix, c: nat): (r: Vector)
    requires |v| == |m| && IsMatrix(m, |m|, c)
    ensures |r| == c
    ensures forall j :: 0 <= j < c ==> r[j] == Inner(v, Column(m, j))
    decreases |v|
  {
    if v == [] then Zeros(c)
    else
      var rest := VecMat(v[1..], m[1..], c);
      assert forall j :: 0 <= j < c ==> Column(m[1..], j) == Column(m, j)[1..];
      VecAdd(Scale(v[0], m[0]), rest)
  }

  /** ndarray's `a.dot(b)` for an `n × k` matrix `a` and a `k × c` matrix `b`. */
  function Dot(a: Matrix, b: Matrix, c: nat): (r: Matrix)
    requires IsMatrix(a, |a|, |b|) && IsMatrix(b, |b|, c)
    ensures IsMatrix(r, |a|, c)
    ensures forall i, j :: 0 <= i < |a| && 0 <= j < c ==> r[i][j] == Inner(a[i], Column(b, j))
  {
    seq(|a|, i requires 0 <= i < |a| => VecMat(a[i], b, c))
  }

  /**
   ndarray's `sum_axis(Axis(0))` on an `r × c` matrix: the `c` column sums, accumulated
   row by row.
   */
  function ColumnSums(m: Matrix, c: nat): (r: Vector)
    requires IsMatrix(m, |m|, c)
    ensures |r| == c
    ensures forall j :: 0 <= j < c ==> r[j] == Sum(Column(m, j))
  {
    if m == [] then Zeros(c)
    else
      var rest := ColumnSums(m[1..], c);
      assert forall j :: 0 <= j < c ==> Column(m[1..], j) == Column(m, j)[1..];
      VecAdd(m[0], rest)
  }

  /** `m + v` with the row `v` broadcast to every row of `m`. */
  function AddRow(m: Matrix, v: Vector): (r: Matrix)
    requires IsMatrix(m, |m|, |v|)
    ensures IsMatrix(r, |m|, |v|)
    ensures forall i, j :: 0 <= i < |m| && 0 <= j < |v| ==> r[i][j] == m[i][j] + v[j]
  {
    seq(|m|, i requires 0 <= i < |m| => VecAdd(m[i], v))
  }

  /** Element-wise `a + b`. */
  function MatAdd(a: Matrix, b: Matrix): Matrix
    requires SameShape(a, b)
  {
    seq(|a|, i requires 0 <= i < |a| => VecAdd(a[i], b[i]))
  }

  /** Element-wise `a - b`. */
  function MatSub(a: Matrix, b: Matrix): (r: Matrix)
    requires SameShape(a, b)
    ensures SameShape(r, a)
    ensures forall i, j :: 0 <= i < |a| && 0 <= j < |a[i]| ==> r[i][j] == a[i][j] - b[i][j]
  {
    seq(|a|, i requires 0 <= i < |a| => seq(|a[i]|, j requires 0 <= j < |a[i]| => a[i][j] - b[i][j]))
  }

  /** Element-wise `m / s`; the divisor is only used when `m` has entries in some row. */
  function MatDiv(m: Matrix, s: real): (r: Matrix)
    requires m != [] ==> s != 0.0
    ensures SameShape(r, m)
    ensures forall i, j :: 0 <= i < |m| && 0 <= j < |m[i]| ==> r[i][j] * s == m[i][j]
  {
    seq(|m|, i requires 0 <= i < |m| => seq(|m[i]|, j requires 0 <= j < |m[i]| => m[i][j] / s))
  }

}

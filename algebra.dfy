/** Dense real vectors and matrices, with the sums NumPy computes for the network. */
module Algebra {

  type Vector = seq<real>
  type Matrix = seq<seq<real>>

  /** Every row of `a` has exactly `width` entries. */
  predicate HasWidth(a: Matrix, width: nat)
  {
    forall i :: 0 <= i < |a| ==> |a[i]| == width
  }

  /** `a` is a `rows` x `cols` matrix. */
  predicate IsShape(a: Matrix, rows: nat, cols: nat)
  {
    |a| == rows && HasWidth(a, cols)
  }

  /** `a` is a stack of `n` matrices, each `rows` x `cols`. */
  predicate IsShape3(a: seq<Matrix>, n: nat, rows: nat, cols: nat)
  {
    |a| == n
    && (forall m :: 0 <= m < n ==> |a[m]| == rows)
    && (forall m, k :: 0 <= m < n && 0 <= k < rows ==> |a[m][k]| == cols)
  }

  /** `a` and `b` are matrices of one and the same (possibly ragged) shape. */
  predicate SameShape(a: Matrix, b: Matrix)
  {
    |a| == |b| && forall i :: 0 <= i < |a| ==> |a[i]| == |b[i]|
  }

  /** Every row of `a` is as long as every row of `b`: `a . b^T` is defined. */
  predicate RowsMatch(a: Matrix, b: Matrix)
  {
    forall i, k :: 0 <= i < |a| && 0 <= k < |b| ==> |a[i]| == |b[k]|
  }

  predicate IsZeroVector(x: Vector)
  {
    forall i :: 0 <= i < |x| ==> x[i] == 0.0
  }

  predicate IsZeroMatrix(a: Matrix)
  {
    forall i, j :: 0 <= i < |a| && 0 <= j < |a[i]| ==> a[i][j] == 0.0
  }

  /** The inner product, summed from the front. */
  function Dot(x: Vector, y: Vector): real
    requires |x| == |y|
  {
    if |x| == 0 then 0.0 else x[0] * y[0] + Dot(x[1..], y[1..])
  }

  /** Column `j` of `a`. */
  function Column(a: Matrix, j: nat): (c: Vector)
    requires forall i :: 0 <= i < |a| ==> j < |a[i]|
    ensures |c| == |a|
  {
    seq(|a|, i requires 0 <= i < |a| => a[i][j])
  }

  /** The rows (or entries) of `rows` selected by the index vector `idx`, with repetition,
      as NumPy's fancy indexing `rows[idx]` does. */
  function Gather<T>(rows: seq<T>, idx: seq<nat>): (r: seq<T>)
    requires forall b :: 0 <= b < |idx| ==> idx[b] < |rows|
    ensures |r| == |idx|
  {
    seq(|idx|, b requires 0 <= b < |idx| => rows[idx[b]])
  }

  /** `x - lr * d`, entry by entry. */
  function SubScaled(x: Vector, lr: real, d: Vector): (r: Vector)
    requires |d| == |x|
    ensures |r| == |x|
  {
    seq(|x|, i requires 0 <= i < |x| => x[i] - lr * d[i])
  }

  /** `a - lr * d`, entry by entry. */
  function SubScaledRows(a: Matrix, lr: real, d: Matrix): (r: Matrix)
    requires SameShape(d, a)
    ensures SameShape(r, a)
  {
    seq(|a|, i requires 0 <= i < |a| => SubScaled(a[i], lr, d[i]))
  }

  /** A sum of products whose left factors are all zero is zero. */
  lemma {:induction false} DotZeroLeft(x: Vector, y: Vector)
    requires |x| == |y| && IsZeroVector(x)
    ensures Dot(x, y) == 0.0
  {
    if |x| > 0 {
      DotZeroLeft(x[1..], y[1..]);
    }
  }

  /** Gathering only touches the rows the indices name: two sequences that agree on
      their first `n` entries give the same gather for indices below `n`. */
  lemma GatherPrefix<T>(rows1: seq<T>, rows2: seq<T>, idx: seq<nat>, n: nat)
    requires n <= |rows1| && n <= |rows2| && rows1[..n] == rows2[..n]
    requires forall b :: 0 <= b < |idx| ==> idx[b] < n
    ensures Gather(rows1, idx) == Gather(rows2, idx)
  {
    forall b | 0 <= b < |idx|
      ensures rows1[idx[b]] == rows2[idx[b]]
    {
      assert rows1[idx[b]] == rows1[..n][idx[b]];
    }
  }
}

/** Views of the agents' NumPy buffers (fixed-size arrays, updated in place) as
    sequences, so that the specifications can speak of their contents. */
module Buffers {
  import opened Algebra

  /** The contents of a 2-D buffer, row by row. */
  function MatrixOf(a: array2<real>): (m: Matrix)
    reads a
    ensures IsShape(m, a.Length0, a.Length1)
    ensures forall i, j :: 0 <= i < a.Length0 && 0 <= j < a.Length1 ==> m[i][j] == a[i, j]
  {
    seq(a.Length0, i requires 0 <= i < a.Length0 reads a =>
      seq(a.Length1, j requires 0 <= j < a.Length1 reads a => a[i, j]))
  }

  /** Row `m` of a 2-D buffer: `a[m]`. */
  function RowOf(a: array2<real>, m: nat): (r: Vector)
    requires m < a.Length0
    reads a
    ensures |r| == a.Length1
    ensures forall k :: 0 <= k < a.Length1 ==> r[k] == a[m, k]
  {
    seq(a.Length1, k requires 0 <= k < a.Length1 reads a => a[m, k])
  }

  /** Slice `m` of a 3-D buffer: `a[m]`. */
  function SliceOf(a: array3<real>, m: nat): (s: Matrix)
    requires m < a.Length0
    reads a
    ensures IsShape(s, a.Length1, a.Length2)
    ensures forall k, j :: 0 <= k < a.Length1 && 0 <= j < a.Length2 ==> s[k][j] == a[m, k, j]
  {
    seq(a.Length1, k requires 0 <= k < a.Length1 reads a =>
      seq(a.Length2, j requires 0 <= j < a.Length2 reads a => a[m, k, j]))
  }

  /** Two matrices of one shape with equal entries are equal. */
  lemma MatrixExt(a: Matrix, b: Matrix, rows: nat, cols: nat)
    requires IsShape(a, rows, cols) && IsShape(b, rows, cols)
    requires forall i, j :: 0 <= i < rows && 0 <= j < cols ==> a[i][j] == b[i][j]
    ensures a == b
  {
    forall i | 0 <= i < rows
      ensures a[i] == b[i]
    {
    }
  }

  /** `a -= lr * d` on a 2-D buffer. */
  method SubScaledInPlace2(a: array2<real>, lr: real, d: Matrix)
    requires IsShape(d, a.Length0, a.Length1)
    modifies a
    ensures MatrixOf(a) == SubScaledRows(old(MatrixOf(a)), lr, d)
  {
    ghost var target := SubScaledRows(MatrixOf(a), lr, d);
    forall i, j | 0 <= i < a.Length0 && 0 <= j < a.Length1 {
      a[i, j] := a[i, j] - lr * d[i][j];
    }
    MatrixExt(MatrixOf(a), target, a.Length0, a.Length1);
  }

  /** `a -= lr * d` on a 1-D buffer. */
  method SubScaledInPlace(a: array<real>, lr: real, d: Vector)
    requires |d| == a.Length
    modifies a
    ensures a[..] == SubScaled(old(a[..]), lr, d)
  {
    ghost var target := SubScaled(a[..], lr, d);
    forall i | 0 <= i < a.Length {
      a[i] := a[i] - lr * d[i];
    }
    assert forall i :: 0 <= i < a.Length ==> a[..][i] == target[i];
  }

  /** `a[m] -= lr * d` on a 3-D buffer; every other slice is left as it was. */
  method SubScaledSliceInPlace(a: array3<real>, m: nat, lr: real, d: Matrix)
    requires m < a.Length0 && IsShape(d, a.Length1, a.Length2)
    modifies a
    ensures SliceOf(a, m) == SubScaledRows(old(SliceOf(a, m)), lr, d)
    ensures forall n :: 0 <= n < a.Length0 && n != m ==> SliceOf(a, n) == old(SliceOf(a, n))
  {
    ghost var target := SubScaledRows(SliceOf(a, m), lr, d);
    var k := 0;
    while k < a.Length1
      invariant k <= a.Length1
      invariant forall n, i, j :: 0 <= n < a.Length0 && 0 <= i < a.Length1 && 0 <= j < a.Length2 && (n != m || i >= k) ==>
                  a[n, i, j] == old(a[n, i, j])
      invariant forall i, j :: 0 <= i < k && 0 <= j < a.Length2 ==> a[m, i, j] == target[i][j]
    {
      forall j | 0 <= j < a.Length2 {
        a[m, k, j] := a[m, k, j] - lr * d[k][j];
      }
      k := k + 1;
    }
    MatrixExt(SliceOf(a, m), target, a.Length1, a.Length2);
    forall n | 0 <= n < a.Length0 && n != m
      ensures SliceOf(a, n) == old(SliceOf(a, n))
    {
      MatrixExt(SliceOf(a, n), old(SliceOf(a, n)), a.Length1, a.Length2);
    }
  }

  /** `a[m] -= lr * d` on a 2-D buffer; every other row is left as it was. */
  method SubScaledRowInPlace(a: array2<real>, m: nat, lr: real, d: Vector)
    requires m < a.Length0 && |d| == a.Length1
    modifies a
    ensures RowOf(a, m) == SubScaled(old(RowOf(a, m)), lr, d)
    ensures forall n :: 0 <= n < a.Length0 && n != m ==> RowOf(a, n) == old(RowOf(a, n))
  {
    ghost var target := SubScaled(RowOf(a, m), lr, d);
    var k := 0;
    while k < a.Length1
      invariant k <= a.Length1
      invariant forall n, j :: 0 <= n < a.Length0 && 0 <= j < a.Length1 && (n != m || j >= k) ==>
                  a[n, j] == old(a[n, j])
      invariant forall j :: 0 <= j < k ==> a[m, j] == target[j]
    {
      a[m, k] := a[m, k] - lr * d[k];
      k := k + 1;
    }
    ghost var after := RowOf(a, m);
    assert forall j :: 0 <= j < a.Length1 ==> after[j] == target[j];
    forall n | 0 <= n < a.Length0 && n != m
      ensures RowOf(a, n) == old(RowOf(a, n))
    {
      ghost var r, r0 := RowOf(a, n), old(RowOf(a, n));
      assert forall k :: 0 <= k < a.Length1 ==> r[k] == r0[k];
    }
  }

  /** `a[t] = row` on a 2-D buffer. */
  method WriteRow(a: array2<real>, t: nat, row: Vector)
    requires t < a.Length0 && |row| == a.Length1
    modifies a
    ensures MatrixOf(a) == old(MatrixOf(a))[t := row]
  {
    forall j | 0 <= j < a.Length1 {
      a[t, j] := row[j];
    }
    MatrixExt(MatrixOf(a), old(MatrixOf(a))[t := row], a.Length0, a.Length1);
  }

  /** `a[m, t] = v` on a 2-D buffer; every other row is left as it was. */
  method WriteEntry(a: array2<real>, m: nat, t: nat, v: real)
    requires m < a.Length0 && t < a.Length1
    modifies a
    ensures RowOf(a, m) == old(RowOf(a, m))[t := v]
    ensures forall n :: 0 <= n < a.Length0 && n != m ==> RowOf(a, n) == old(RowOf(a, n))
  {
    a[m, t] := v;
    ghost var r, r0 := RowOf(a, m), old(RowOf(a, m))[t := v];
    assert forall k :: 0 <= k < a.Length1 ==> r[k] == r0[k];
    forall n | 0 <= n < a.Length0 && n != m
      ensures RowOf(a, n) == old(RowOf(a, n))
    {
      ghost var q, q0 := RowOf(a, n), old(RowOf(a, n));
      assert forall k :: 0 <= k < a.Length1 ==> q[k] == q0[k];
    }
  }

  /** `np.copy(a)` of a 3-D buffer: a fresh buffer whose every slice is that of `a`. */
  method Copy3(a: array3<real>) returns (c: array3<real>)
    ensures fresh(c)
    ensures c.Length0 == a.Length0 && c.Length1 == a.Length1 && c.Length2 == a.Length2
    ensures forall m :: 0 <= m < a.Length0 ==> SliceOf(c, m) == SliceOf(a, m)
  {
    c := new real[a.Length0, a.Length1, a.Length2];
    forall m, k, j | 0 <= m < a.Length0 && 0 <= k < a.Length1 && 0 <= j < a.Length2 {
      c[m, k, j] := a[m, k, j];
    }
    forall m | 0 <= m < a.Length0
      ensures SliceOf(c, m) == SliceOf(a, m)
    {
      MatrixExt(SliceOf(c, m), SliceOf(a, m), a.Length1, a.Length2);
    }
  }

  /** `np.copy(a)` of a 2-D buffer: a fresh buffer whose every row is that of `a`. */
  method Copy2(a: array2<real>) returns (c: array2<real>)
    ensures fresh(c)
    ensures c.Length0 == a.Length0 && c.Length1 == a.Length1
    ensures forall m :: 0 <= m < a.Length0 ==> RowOf(c, m) == RowOf(a, m)
  {
    c := new real[a.Length0, a.Length1];
    forall m, k | 0 <= m < a.Length0 && 0 <= k < a.Length1 {
      c[m, k] := a[m, k];
    }
    forall m | 0 <= m < a.Length0
      ensures RowOf(c, m) == RowOf(a, m)
    {
      ghost var r, r0 := RowOf(c, m), RowOf(a, m);
      assert forall k :: 0 <= k < a.Length1 ==> r[k] == r0[k];
    }
  }
}

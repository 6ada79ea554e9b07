/** Matrices held in mutable two-dimensional buffers. */
module MatrixBuffer {
  import opened Gf256Tables
  import opened LinearAlgebra

  /** The contents of a two-dimensional array, row by row. */
  ghost function Rows(a: array2<byte>): (m: Matrix)
    reads a
    ensures IsMatrix(m, a.Length0, a.Length1)
  {
    seq(a.Length0, r requires 0 <= r < a.Length0 reads a =>
      seq(a.Length1, c requires 0 <= c < a.Length1 reads a => a[r, c]))
  }

  lemma RowsAre(a: array2<byte>, m: Matrix)
    requires IsMatrix(m, a.Length0, a.Length1)
    requires forall r, c :: 0 <= r < a.Length0 && 0 <= c < a.Length1 ==> a[r, c] == m[r][c]
    ensures Rows(a) == m
  {
    forall r | 0 <= r < |m|
      ensures Rows(a)[r] == m[r]
    {
    }
  }

  method Clear(a: array2<byte>)
    modifies a
    ensures forall r :: 0 <= r < a.Length0 ==> Rows(a)[r] == Zeros(a.Length1)
  {
    var i := 0;
    while i < a.Length0
      invariant i <= a.Length0
      invariant forall r, c :: 0 <= r < i && 0 <= c < a.Length1 ==> a[r, c] == 0
    {
      var k := 0;
      while k < a.Length1
        invariant k <= a.Length1
        invariant forall r, c :: 0 <= r < i && 0 <= c < a.Length1 ==> a[r, c] == 0
        invariant forall c :: 0 <= c < k ==> a[i, c] == 0
      {
        a[i, k] := 0;
        k := k + 1;
      }
      i := i + 1;
    }
  }
}

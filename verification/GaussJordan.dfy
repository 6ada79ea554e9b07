/**
 * In-place inversion of a square matrix.  Two facts survive every row
 * operation: each row of the working matrix is the combination of the original
 * rows that the output records, and whatever the working matrix sends to zero,
 * the original does too.
 */
module GaussJordan {
  import opened Gf256Tables
  import opened Gf256
  import opened LinearAlgebra
  import opened MatrixBuffer

  // ---- Row operations on matrices as values ----

  function Swapped(m: Matrix, i: nat, j: nat): (s: Matrix)
    requires i < |m| && j < |m|
    ensures |s| == |m|
    ensures forall n: nat :: IsMatrix(m, |m|, n) ==> IsMatrix(s, |m|, n)
  {
    m[i := m[j]][j := m[i]]
  }

  function Scaled(m: Matrix, i: nat, f: byte): Matrix
    requires i < |m|
  {
    m[i := VScale(f, m[i])]
  }

  /** Row j gets f times row i added. */
  function Eliminated(m: Matrix, j: nat, f: byte, i: nat): Matrix
    requires i < |m| && j < |m| && |m[i]| == |m[j]|
  {
    m[j := VAdd(m[j], VScale(f, m[i]))]
  }

  /** Each row of `work` is the combination of `orig` rows that `out` records. */
  ghost predicate Records(orig: Matrix, work: Matrix, out: Matrix, n: nat)
    requires IsMatrix(orig, n, n)
  {
    IsMatrix(work, n, n) && IsMatrix(out, n, n) &&
    forall r :: 0 <= r < n ==> work[r] == Combine(out[r], orig, n)
  }

  /** Whatever `work` sends to zero, `orig` does too. */
  ghost predicate KernelKept(orig: Matrix, work: Matrix, n: nat)
    requires IsMatrix(orig, n, n) && IsMatrix(work, n, n)
  {
    forall v: Vec :: |v| == n && Kills(work, v) ==> Kills(orig, v)
  }

  /** `work` was made from `orig` by reversible row operations recorded in `out`. */
  ghost predicate Reduces(orig: Matrix, work: Matrix, out: Matrix, n: nat)
    requires IsMatrix(orig, n, n)
  {
    Records(orig, work, out, n) && KernelKept(orig, work, n)
  }

  lemma ReducesAtStart(m: Matrix, n: nat)
    requires IsMatrix(m, n, n)
    ensures Reduces(m, m, Identity(n), n) && Cleared(m, n, 0)
  {
    forall r | 0 <= r < n
      ensures m[r] == Combine(Identity(n)[r], m, n)
    {
      CombineUnit(r, m, n);
    }
  }

  lemma KillsSwapped(m: Matrix, i: nat, j: nat, v: Vec)
    requires IsMatrix(m, |m|, |v|) && i < |m| && j < |m|
    requires Kills(Swapped(m, i, j), v)
    ensures Kills(m, v)
  {
    var after := Swapped(m, i, j);
    forall r | 0 <= r < |m|
      ensures Dot(m[r], v) == 0
    {
      assert m[r] == after[if r == i then j else if r == j then i else r];
    }
  }

  lemma KillsScaled(m: Matrix, i: nat, f: byte, v: Vec)
    requires IsMatrix(m, |m|, |v|) && i < |m| && f != 0
    requires Kills(Scaled(m, i, f), v)
    ensures Kills(m, v)
  {
    hide Add, Mul;
    var after := Scaled(m, i, f);
    DotScaleLeft(f, m[i], v);
    MulNonZero(f, Dot(m[i], v));
    assert Dot(after[i], v) == 0;
    forall r | 0 <= r < |m|
      ensures Dot(m[r], v) == 0
    {
      assert Dot(after[r], v) == 0;
    }
  }

  lemma KillsEliminated(m: Matrix, j: nat, f: byte, i: nat, v: Vec)
    requires IsMatrix(m, |m|, |v|) && i < |m| && j < |m| && i != j
    requires Kills(Eliminated(m, j, f, i), v)
    ensures Kills(m, v)
  {
    hide Add, Mul;
    var after := Eliminated(m, j, f, i);
    assert Dot(after[i], v) == 0 && Dot(after[j], v) == 0;
    DotAddLeft(m[j], VScale(f, m[i]), v);
    DotScaleLeft(f, m[i], v);
    MulZeroRight(f);
    AddZero(Dot(m[j], v));
    forall r | 0 <= r < |m|
      ensures Dot(m[r], v) == 0
    {
      assert Dot(after[r], v) == 0;
    }
  }

  lemma ReducesSwapped(orig: Matrix, work: Matrix, out: Matrix, n: nat, i: nat, j: nat)
    requires IsMatrix(orig, n, n) && Reduces(orig, work, out, n) && i < n && j < n
    ensures Reduces(orig, Swapped(work, i, j), Swapped(out, i, j), n)
  {
    hide Kills;
    forall v: Vec | |v| == n && Kills(Swapped(work, i, j), v)
      ensures Kills(orig, v)
    {
      KillsSwapped(work, i, j, v);
    }
  }

  lemma ReducesScaled(orig: Matrix, work: Matrix, out: Matrix, n: nat, i: nat, f: byte)
    requires IsMatrix(orig, n, n) && Reduces(orig, work, out, n) && i < n && f != 0
    ensures Reduces(orig, Scaled(work, i, f), Scaled(out, i, f), n)
  {
    hide Add, Mul, Kills;
    CombineScale(f, out[i], orig, n);
    forall v: Vec | |v| == n && Kills(Scaled(work, i, f), v)
      ensures Kills(orig, v)
    {
      KillsScaled(work, i, f, v);
    }
  }

  lemma ReducesEliminated(orig: Matrix, work: Matrix, out: Matrix, n: nat, j: nat, f: byte, i: nat)
    requires IsMatrix(orig, n, n) && Reduces(orig, work, out, n) && i < n && j < n && i != j
    ensures Reduces(orig, Eliminated(work, j, f, i), Eliminated(out, j, f, i), n)
  {
    hide Add, Mul, Kills;
    CombineScale(f, out[i], orig, n);
    CombineAdd(out[j], VScale(f, out[i]), orig, n);
    forall v: Vec | |v| == n && Kills(Eliminated(work, j, f, i), v)
      ensures Kills(orig, v)
    {
      KillsEliminated(work, j, f, i, v);
    }
  }

  // ---- Columns already cleared ----

  /** The first `done` columns are those of the identity. */
  ghost predicate Cleared(m: Matrix, n: nat, done: nat)
    requires IsMatrix(m, |m|, n) && done <= n
  {
    forall r, c :: 0 <= r < |m| && 0 <= c < done ==> m[r][c] == if r == c then 1 else 0
  }

  /** Column i is cleared except in the rows from `rest` on. */
  ghost predicate ColumnCleared(m: Matrix, n: nat, i: nat, rest: nat)
    requires IsMatrix(m, |m|, n) && i < n && i < |m|
  {
    m[i][i] == 1 && forall r :: 0 <= r < |m| && r < rest && r != i ==> m[r][i] == 0
  }

  /** A vector that a matrix with i cleared columns and no pivot in column i sends to zero. */
  ghost function KernelVector(m: Matrix, n: nat, i: nat): (v: Vec)
    requires IsMatrix(m, |m|, n) && i < n && i <= |m|
    ensures |v| == n
  {
    VAdd(seq(n, c requires 0 <= c < n => if c < i then m[c][i] else 0), Unit(n, i))
  }

  lemma NoPivotKernel(m: Matrix, n: nat, i: nat)
    requires IsMatrix(m, |m|, n) && i < n && i <= |m| && Cleared(m, n, i)
    requires forall r :: i <= r < |m| ==> m[r][i] == 0
    ensures KernelVector(m, n, i) != Zeros(n)
    ensures Kills(m, KernelVector(m, n, i))
  {
    hide Add, Mul;
    var p := seq(n, c requires 0 <= c < n => if c < i then m[c][i] else 0);
    var v := KernelVector(m, n, i);
    AddZero(1);
    assert v[i] == 1;
    forall r | 0 <= r < |m|
      ensures Dot(m[r], v) == 0
    {
      DotAddRight(m[r], p, Unit(n, i));
      DotUnit(n, i, m[r]);
      AddZero(m[r][i]);
      if r < i {
        DotSupport(m[r], Unit(n, r), p);
        DotUnit(n, r, p);
      } else {
        DotSupport(m[r], Zeros(n), p);
        DotZeros(p);
      }
    }
  }

  /** Subtracting the pivot row leaves cleared columns cleared and clears entry (j, i). */
  lemma EliminatedColumns(m: Matrix, n: nat, j: nat, i: nat)
    requires IsMatrix(m, |m|, n) && i < n && i < |m| && j < |m| && i != j
    requires Cleared(m, n, i) && ColumnCleared(m, n, i, j)
    ensures var after := Eliminated(m, j, m[j][i], i);
      Cleared(after, n, i) && ColumnCleared(after, n, i, j + 1)
  {
    hide Add, Mul;
    var f := m[j][i];
    MulOne(f);
    AddZero(f);
    MulZeroRight(f);
    forall c | 0 <= c < i
      ensures VAdd(m[j], VScale(f, m[i]))[c] == m[j][c]
    {
      assert m[i][c] == 0;
      AddZero(m[j][c]);
    }
  }

  // ---- The row operations in place ----

  method SwapRows(a: array2<byte>, i: nat, j: nat)
    requires i < a.Length0 && j < a.Length0
    modifies a
    ensures Rows(a) == Swapped(old(Rows(a)), i, j)
  {
    var k := 0;
    while k < a.Length1
      invariant k <= a.Length1
      invariant forall r, c :: 0 <= r < a.Length0 && 0 <= c < a.Length1 ==>
        a[r, c] == if c < k && r == i then old(a[j, c]) else if c < k && r == j then old(a[i, c]) else old(a[r, c])
    {
      var temp := a[i, k];
      a[i, k] := a[j, k];
      a[j, k] := temp;
      k := k + 1;
    }
    RowsAre(a, Swapped(old(Rows(a)), i, j));
  }

  method ScaleRow(a: array2<byte>, i: nat, f: byte)
    requires i < a.Length0
    modifies a
    ensures Rows(a) == Scaled(old(Rows(a)), i, f)
  {
    hide Mul, GfMul;
    var k := 0;
    while k < a.Length1
      invariant k <= a.Length1
      invariant forall r, c :: 0 <= r < a.Length0 && 0 <= c < a.Length1 ==>
        a[r, c] == if c < k && r == i then Mul(f, old(a[r, c])) else old(a[r, c])
    {
      MulComm(a[i, k], f);
      a[i, k] := GfMul(a[i, k], f);
      k := k + 1;
    }
    RowsAre(a, Scaled(old(Rows(a)), i, f));
  }

  method AddScaledRow(a: array2<byte>, j: nat, f: byte, i: nat)
    requires i < a.Length0 && j < a.Length0 && i != j
    modifies a
    ensures Rows(a) == Eliminated(old(Rows(a)), j, f, i)
  {
    hide Add, Mul, GfMul;
    var k := 0;
    while k < a.Length1
      invariant k <= a.Length1
      invariant forall r, c :: 0 <= r < a.Length0 && 0 <= c < a.Length1 ==>
        a[r, c] == if c < k && r == j then Add(old(a[j, c]), Mul(f, old(a[i, c]))) else old(a[r, c])
    {
      a[j, k] := Add(a[j, k], GfMul(f, a[i, k]));
      k := k + 1;
    }
    RowsAre(a, Eliminated(old(Rows(a)), j, f, i));
  }

  method SetIdentity(a: array2<byte>)
    requires a.Length0 == a.Length1
    modifies a
    ensures Rows(a) == Identity(a.Length0)
  {
    var i := 0;
    while i < a.Length0
      invariant i <= a.Length0
      invariant forall r, c :: 0 <= r < i && 0 <= c < a.Length1 ==> a[r, c] == if r == c then 1 else 0
    {
      var k := 0;
      while k < a.Length1
        invariant k <= a.Length1
        invariant forall r, c :: 0 <= r < i && 0 <= c < a.Length1 ==> a[r, c] == if r == c then 1 else 0
        invariant forall c :: 0 <= c < k ==> a[i, c] == if c == i then 1 else 0
      {
        a[i, k] := if k == i then 1 else 0;
        k := k + 1;
      }
      i := i + 1;
    }
    RowsAre(a, Identity(a.Length0));
  }

  lemma ColumnStart(m: Matrix, n: nat, i: nat)
    requires IsMatrix(m, |m|, n) && i < n && i < |m| && m[i][i] == 1
    ensures ColumnCleared(m, n, i, 0)
  {
  }

  lemma ColumnSkip(m: Matrix, n: nat, i: nat)
    requires IsMatrix(m, |m|, n) && i < n && i < |m| && ColumnCleared(m, n, i, i)
    ensures ColumnCleared(m, n, i, i + 1)
  {
  }

  lemma ColumnDone(m: Matrix, n: nat, i: nat)
    requires IsMatrix(m, |m|, n) && i < n && i < |m|
    requires Cleared(m, n, i) && ColumnCleared(m, n, i, |m|)
    ensures Cleared(m, n, i + 1)
  {
  }

  /** Clears column i of every other row with the pivot row, in both matrices. */
  method EliminateColumn(inMat: array2<byte>, outMat: array2<byte>, i: nat, ghost orig: Matrix)
    requires inMat != outMat
    requires inMat.Length0 == inMat.Length1 == outMat.Length0 == outMat.Length1 > i
    requires IsMatrix(orig, inMat.Length0, inMat.Length0)
    requires Reduces(orig, Rows(inMat), Rows(outMat), inMat.Length0)
    requires Cleared(Rows(inMat), inMat.Length0, i) && inMat[i, i] == 1
    modifies inMat, outMat
    ensures Reduces(orig, Rows(inMat), Rows(outMat), inMat.Length0)
    ensures Cleared(Rows(inMat), inMat.Length0, i + 1)
  {
    hide Reduces, Cleared, ColumnCleared, Eliminated;
    var n := inMat.Length0;
    var j := 0;
    ColumnStart(Rows(inMat), n, i);
    while j < n
      invariant j <= n
      invariant Reduces(orig, Rows(inMat), Rows(outMat), n)
      invariant Cleared(Rows(inMat), n, i) && ColumnCleared(Rows(inMat), n, i, j)
    {
      if j != i {
        ghost var work, out := Rows(inMat), Rows(outMat);
        var temp := inMat[j, i];
        AddScaledRow(outMat, j, temp, i);
        AddScaledRow(inMat, j, temp, i);
        ReducesEliminated(orig, work, out, n, j, temp, i);
        EliminatedColumns(work, n, j, i);
      } else {
        ColumnSkip(Rows(inMat), n, i);
      }
      j := j + 1;
    }
    ColumnDone(Rows(inMat), n, i);
  }

  /** Brings a nonzero entry of column i to the diagonal, or reports that none is left at or below it. */
  method PlacePivot(inMat: array2<byte>, outMat: array2<byte>, i: nat, ghost orig: Matrix) returns (found: bool)
    requires inMat != outMat
    requires inMat.Length0 == inMat.Length1 == outMat.Length0 == outMat.Length1 > i
    requires IsMatrix(orig, inMat.Length0, inMat.Length0)
    requires Reduces(orig, Rows(inMat), Rows(outMat), inMat.Length0)
    requires Cleared(Rows(inMat), inMat.Length0, i)
    modifies inMat, outMat
    ensures found ==> Reduces(orig, Rows(inMat), Rows(outMat), inMat.Length0)
    ensures found ==> Cleared(Rows(inMat), inMat.Length0, i) && inMat[i, i] != 0
    ensures !found ==> Singular(orig, inMat.Length0)
  {
    hide Add, Mul, Kills;
    var n := inMat.Length0;
    found := true;
    if inMat[i, i] == 0 {
      var j := i + 1;
      while j < n && inMat[j, i] == 0
        invariant i < j <= n
        invariant forall r :: i <= r < j ==> inMat[r, i] == 0
      {
        j := j + 1;
      }
      if j == n {
        NoPivotKernel(Rows(inMat), n, i);
        return false;
      }
      ReducesSwapped(orig, Rows(inMat), Rows(outMat), n, i, j);
      ghost var before := Rows(inMat);
      SwapRows(inMat, i, j);
      SwapRows(outMat, i, j);
      assert inMat[i, i] == Rows(inMat)[i][i] == before[j][i];
    }
  }

  /** Scales row i so that its diagonal entry becomes 1. */
  method NormalizePivot(inMat: array2<byte>, outMat: array2<byte>, i: nat, ghost orig: Matrix)
    requires inMat != outMat
    requires inMat.Length0 == inMat.Length1 == outMat.Length0 == outMat.Length1 > i
    requires IsMatrix(orig, inMat.Length0, inMat.Length0)
    requires Reduces(orig, Rows(inMat), Rows(outMat), inMat.Length0)
    requires Cleared(Rows(inMat), inMat.Length0, i) && inMat[i, i] != 0
    modifies inMat, outMat
    ensures Reduces(orig, Rows(inMat), Rows(outMat), inMat.Length0)
    ensures Cleared(Rows(inMat), inMat.Length0, i) && inMat[i, i] == 1
  {
    hide Add, Mul, GfInv, Kills;
    var temp := GfInv(inMat[i, i]);
    MulComm(inMat[i, i], temp);
    MulZeroRight(temp);
    ReducesScaled(orig, Rows(inMat), Rows(outMat), inMat.Length0, i, temp);
    ghost var before := Rows(inMat);
    ScaleRow(inMat, i, temp);
    ScaleRow(outMat, i, temp);
    assert inMat[i, i] == Rows(inMat)[i][i] == VScale(temp, before[i])[i];
  }

  /** `gf_invert_matrix`: the inverse in `outMat` and 0, or -1 if the matrix has none. */
  method GfInvertMatrix(inMat: array2<byte>, outMat: array2<byte>) returns (rc: int)
    requires inMat != outMat
    requires inMat.Length0 == inMat.Length1 == outMat.Length0 == outMat.Length1
    modifies inMat, outMat
    ensures rc == 0 || rc == -1
    ensures rc == 0 ==> MatMul(Rows(outMat), old(Rows(inMat)), inMat.Length0) == Identity(inMat.Length0)
    ensures rc == 0 <==> HasLeftInverse(old(Rows(inMat)), inMat.Length0)
    ensures rc == -1 <==> Singular(old(Rows(inMat)), inMat.Length0)
  {
    hide Reduces, Cleared, Singular, HasLeftInverse;
    var n := inMat.Length0;
    ghost var orig := Rows(inMat);
    LeftInverseNotSingular(orig, n);
    SetIdentity(outMat);
    ReducesAtStart(orig, n);
    var i := 0;
    while i < n
      invariant i <= n
      invariant Reduces(orig, Rows(inMat), Rows(outMat), n)
      invariant Cleared(Rows(inMat), n, i)
    {
      var found := PlacePivot(inMat, outMat, i, orig);
      if !found {
        return -1;
      }
      NormalizePivot(inMat, outMat, i, orig);
      EliminateColumn(inMat, outMat, i, orig);
      i := i + 1;
    }
    Inverted(orig, Rows(inMat), Rows(outMat), n);
    return 0;
  }

  lemma Inverted(orig: Matrix, work: Matrix, out: Matrix, n: nat)
    requires IsMatrix(orig, n, n) && Reduces(orig, work, out, n) && Cleared(work, n, n)
    ensures MatMul(out, orig, n) == Identity(n)
    ensures HasLeftInverse(orig, n)
  {
    forall r | 0 <= r < n
      ensures MatMul(out, orig, n)[r] == Identity(n)[r]
    {
      assert work[r] == Identity(n)[r];
    }
  }
}

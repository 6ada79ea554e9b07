/**
 * Planning a repair of several blocks: choose k surviving blocks whose
 * generator rows are independent, and express every failed block in them.
 */
module DecodePlan {
  import opened Gf256Tables
  import opened Gf256
  import opened LinearAlgebra
  import opened MatrixBuffer
  import opened Generators
  import opened Encoding
  import opened GaussJordan
  import opened Wrappers

  /** The rows of a matrix with the given indices. */
  function Pick(g: Matrix, ids: seq<nat>): (m: Matrix)
    requires forall i :: 0 <= i < |ids| ==> ids[i] < |g|
    ensures |m| == |ids|
  {
    seq(|ids|, i requires 0 <= i < |ids| => g[ids[i]])
  }

  ghost predicate Distinct(ids: seq<nat>) {
    forall i, j :: 0 <= i < j < |ids| ==> ids[i] != ids[j]
  }

  /** The indices lo..hi that have not failed, in order. */
  function Surviving(failed: seq<nat>, lo: nat, hi: nat): (ids: seq<nat>)
    ensures forall i :: 0 <= i < |ids| ==> lo <= ids[i] < hi && ids[i] !in failed
    ensures Distinct(ids)
  {
    if hi <= lo then []
    else Surviving(failed, lo, hi - 1) + (if hi - 1 in failed then [] else [hi - 1])
  }

  /** The rows the planner looks at: all global rows, topped up to k with local rows only if there are too few. */
  function Candidates(k: nat, r: nat, z: nat, failed: seq<nat>): (ids: seq<nat>)
    ensures forall i :: 0 <= i < |ids| ==> ids[i] < k + r + z && ids[i] !in failed
    ensures Distinct(ids)
  {
    var global := Surviving(failed, 0, k + r);
    var local := Surviving(failed, k + r, k + r + z);
    if |global| >= k then global
    else global + (if |local| <= k - |global| then local else local[..k - |global|])
  }

  /** The candidate rows of a generator matrix. */
  function CandidateRows(code: CodeType, k: nat, r: nat, z: nat, failed: seq<nat>): (m: Matrix)
    requires ValidShape(code, k, r, z)
    ensures IsMatrix(m, |Candidates(k, r, z, failed)|, k)
  {
    Pick(Generator(code, k, r, z), Candidates(k, r, z, failed))
  }

  method FindCandidates(k: nat, r: nat, z: nat, failed: seq<nat>) returns (candidates: seq<nat>)
    ensures candidates == Candidates(k, r, z, failed)
  {
    candidates := [];
    for i := 0 to k + r
      invariant candidates == Surviving(failed, 0, i)
    {
      if i !in failed {
        candidates := candidates + [i];
      }
    }
    if |candidates| < k {
      var local := TopUp(k + r, k + r + z, failed, k - |candidates|);
      candidates := candidates + local;
    }
  }

  /** The first `want` surviving rows from `lo` on, or all of them. */
  method TopUp(lo: nat, hi: nat, failed: seq<nat>, want: nat) returns (local: seq<nat>)
    requires lo <= hi && want > 0
    ensures var all := Surviving(failed, lo, hi);
      local == if |all| <= want then all else all[..want]
  {
    local := [];
    var i := lo;
    while i < hi && |local| < want
      invariant lo <= i <= hi && |local| <= want
      invariant local == Surviving(failed, lo, i)
    {
      if i !in failed {
        local := local + [i];
      }
      i := i + 1;
    }
    SurvivingPrefix(failed, lo, i, hi);
  }

  lemma {:induction false} SurvivingPrefix(failed: seq<nat>, lo: nat, mid: nat, hi: nat)
    requires lo <= mid <= hi
    ensures Surviving(failed, lo, mid) <= Surviving(failed, lo, hi)
    decreases hi
  {
    if mid < hi {
      SurvivingPrefix(failed, lo, mid, hi - 1);
    }
  }

  // ---- What elimination keeps ----

  /**
   * With the first `cur` chosen rows zero on v, the working rows above `cur`
   * are zero on v too, and those below agree with the rows they came from.
   */
  ghost predicate AgreesOn(work: Matrix, rows: Matrix, cur: nat, v: Vec)
    requires |work| == |rows| && cur <= |work|
    requires IsMatrix(work, |work|, |v|) && IsMatrix(rows, |rows|, |v|)
  {
    (forall s :: 0 <= s < cur ==> Dot(rows[s], v) == 0) ==>
      (forall t :: 0 <= t < cur ==> Dot(work[t], v) == 0) &&
      (forall t :: cur <= t < |work| ==> Dot(work[t], v) == Dot(rows[t], v))
  }

  ghost predicate Agrees(work: Matrix, rows: Matrix, cur: nat, k: nat)
    requires |work| == |rows| && cur <= |work|
    requires IsMatrix(work, |work|, k) && IsMatrix(rows, |rows|, k)
  {
    forall v: Vec :: |v| == k ==> AgreesOn(work, rows, cur, v)
  }

  /** Whatever the working rows send to zero, the candidate rows do too. */
  ghost predicate KeepsKernel(work: Matrix, rows: Matrix, k: nat)
    requires |work| == |rows| && IsMatrix(work, |work|, k) && IsMatrix(rows, |rows|, k)
  {
    forall v: Vec :: |v| == k && Kills(work, v) ==> Kills(rows, v)
  }

  /** The state of the elimination while every column so far had a pivot. */
  ghost predicate Reduced(work: Matrix, rows: Matrix, cur: nat, k: nat) {
    |work| == |rows| && cur <= |work| && cur <= k &&
    IsMatrix(work, |work|, k) && IsMatrix(rows, |rows|, k) &&
    Agrees(work, rows, cur, k) && KeepsKernel(work, rows, k) && Cleared(work, k, cur)
  }

  lemma ReducedAtStart(rows: Matrix, k: nat)
    requires IsMatrix(rows, |rows|, k)
    ensures Reduced(rows, rows, 0, k)
  {
    hide Dot;
  }

  lemma AgreesOnSwapped(work: Matrix, rows: Matrix, cur: nat, sel: nat, v: Vec)
    requires |work| == |rows| && cur <= sel < |work|
    requires IsMatrix(work, |work|, |v|) && IsMatrix(rows, |rows|, |v|)
    requires AgreesOn(work, rows, cur, v)
    ensures AgreesOn(Swapped(work, cur, sel), Swapped(rows, cur, sel), cur, v)
  {
    hide Dot;
    assert forall s :: 0 <= s < cur ==> Swapped(rows, cur, sel)[s] == rows[s];
    assert forall t :: 0 <= t < cur ==> Swapped(work, cur, sel)[t] == work[t];
  }

  lemma AgreesSwapped(work: Matrix, rows: Matrix, cur: nat, sel: nat, k: nat)
    requires |work| == |rows| && cur <= sel < |work|
    requires IsMatrix(work, |work|, k) && IsMatrix(rows, |rows|, k)
    requires Agrees(work, rows, cur, k)
    ensures Agrees(Swapped(work, cur, sel), Swapped(rows, cur, sel), cur, k)
  {
    hide Dot, AgreesOn, Swapped;
    forall v: Vec | |v| == k
      ensures AgreesOn(Swapped(work, cur, sel), Swapped(rows, cur, sel), cur, v)
    {
      assert AgreesOn(work, rows, cur, v);
      AgreesOnSwapped(work, rows, cur, sel, v);
    }
  }

  lemma KernelSwapped(work: Matrix, rows: Matrix, cur: nat, sel: nat, k: nat)
    requires |work| == |rows| && cur < |work| && sel < |work|
    requires IsMatrix(work, |work|, k) && IsMatrix(rows, |rows|, k)
    requires KeepsKernel(work, rows, k)
    ensures KeepsKernel(Swapped(work, cur, sel), Swapped(rows, cur, sel), k)
  {
    hide Dot;
    forall v: Vec | |v| == k && Kills(Swapped(work, cur, sel), v)
      ensures Kills(Swapped(rows, cur, sel), v)
    {
      KillsSwapped(work, cur, sel, v);
      assert Kills(rows, v);
    }
  }

  /** A scaled pivot row joins the rows above. */
  lemma AgreesScaled(work: Matrix, rows: Matrix, cur: nat, f: byte, k: nat)
    requires |work| == |rows| && cur < |work|
    requires IsMatrix(work, |work|, k) && IsMatrix(rows, |rows|, k)
    requires Agrees(work, rows, cur, k)
    ensures Agrees(Scaled(work, cur, f), rows, cur + 1, k)
  {
    hide Dot, Mul;
    MulZeroRight(f);
    forall v: Vec | |v| == k
      ensures AgreesOn(Scaled(work, cur, f), rows, cur + 1, v)
    {
      assert AgreesOn(work, rows, cur, v);
      DotScaleLeft(f, work[cur], v);
    }
  }

  lemma AgreesEliminated(work: Matrix, rows: Matrix, cur: nat, j: nat, f: byte, k: nat)
    requires |work| == |rows| && cur < |work| && j < |work| && j != cur
    requires IsMatrix(work, |work|, k) && IsMatrix(rows, |rows|, k)
    requires Agrees(work, rows, cur + 1, k)
    ensures Agrees(Eliminated(work, j, f, cur), rows, cur + 1, k)
  {
    hide Dot, Mul, Add;
    MulZeroRight(f);
    forall v: Vec | |v| == k
      ensures AgreesOn(Eliminated(work, j, f, cur), rows, cur + 1, v)
    {
      assert AgreesOn(work, rows, cur + 1, v);
      DotAddLeft(work[j], VScale(f, work[cur]), v);
      DotScaleLeft(f, work[cur], v);
      AddZero(Dot(work[j], v));
    }
  }

  lemma KernelScaled(work: Matrix, rows: Matrix, cur: nat, f: byte, k: nat)
    requires |work| == |rows| && cur < |work| && f != 0
    requires IsMatrix(work, |work|, k) && IsMatrix(rows, |rows|, k)
    requires KeepsKernel(work, rows, k)
    ensures KeepsKernel(Scaled(work, cur, f), rows, k)
  {
    hide Kills;
    forall v: Vec | |v| == k && Kills(Scaled(work, cur, f), v)
      ensures Kills(rows, v)
    {
      KillsScaled(work, cur, f, v);
    }
  }

  lemma KernelEliminated(work: Matrix, rows: Matrix, j: nat, f: byte, i: nat, k: nat)
    requires |work| == |rows| && i < |work| && j < |work| && i != j
    requires IsMatrix(work, |work|, k) && IsMatrix(rows, |rows|, k)
    requires KeepsKernel(work, rows, k)
    ensures KeepsKernel(Eliminated(work, j, f, i), rows, k)
  {
    hide Kills;
    forall v: Vec | |v| == k && Kills(Eliminated(work, j, f, i), v)
      ensures Kills(rows, v)
    {
      KillsEliminated(work, j, f, i, v);
    }
  }

  /** With k pivots found, the first k candidate rows are independent. */
  lemma ReducedIndependent(work: Matrix, rows: Matrix, k: nat)
    requires Reduced(work, rows, k, k)
    ensures k <= |rows| && !Singular(rows[..k], k)
  {
    hide Dot;
    forall v: Vec | |v| == k && Kills(rows[..k], v)
      ensures v == Zeros(k)
    {
      assert forall s :: 0 <= s < k ==> rows[..k][s] == rows[s];
      assert AgreesOn(work, rows, k, v);
      forall t | 0 <= t < k
        ensures v[t] == 0
      {
        assert work[t] == Unit(k, t);
        DotUnit(k, t, v);
      }
    }
  }

  // ---- What the plan is worth ----

  /** Every failed block is the combination, with its factors, of the chosen blocks. */
  ghost predicate Repairs(g: Matrix, failed: seq<nat>, chosen: seq<nat>, factors: Matrix, data: Matrix, len: nat)
    requires IsMatrix(g, |g|, |data|) && IsMatrix(data, |data|, len)
    requires forall i :: 0 <= i < |failed| ==> failed[i] < |g|
    requires forall i :: 0 <= i < |chosen| ==> chosen[i] < |g|
    requires IsMatrix(factors, |failed|, |chosen|)
  {
    var blocks := Encode(g, data, len);
    forall f :: 0 <= f < |failed| ==> Combine(factors[f], Pick(blocks, chosen), len) == blocks[failed[f]]
  }

  lemma FactorsRepair(g: Matrix, failed: nat, chosen: seq<nat>, inverse: Matrix, data: Matrix, len: nat)
    requires IsMatrix(g, |g|, |data|) && IsMatrix(data, |data|, len) && |chosen| == |data|
    requires failed < |g| && forall i :: 0 <= i < |chosen| ==> chosen[i] < |g|
    requires IsMatrix(inverse, |data|, |data|)
    requires MatMul(inverse, Pick(g, chosen), |data|) == Identity(|data|)
    ensures var blocks := Encode(g, data, len);
      Combine(Combine(g[failed], inverse, |data|), Pick(blocks, chosen), len) == blocks[failed]
  {
    hide Combine;
    var k := |data|;
    var rows := Pick(g, chosen);
    var factors := Combine(g[failed], inverse, k);
    assert Pick(Encode(g, data, len), chosen) == MatMul(rows, data, len);
    CombineAssoc(factors, rows, data, len);
    CombineAssoc(g[failed], inverse, rows, k);
    CombineIdentity(g[failed]);
  }

  // ---- The elimination in place ----

  /** Row i is zero before column `first`. */
  ghost predicate ZeroBefore(m: Matrix, i: nat, first: nat)
    requires i < |m| && first <= |m[i]|
  {
    forall c :: 0 <= c < first ==> m[i][c] == 0
  }

  /** Scales row i from column `first` on. */
  method ScaleRowFrom(a: array2<byte>, i: nat, f: byte, first: nat)
    requires i < a.Length0 && first <= a.Length1
    modifies a
    ensures ZeroBefore(old(Rows(a)), i, first) ==> Rows(a) == Scaled(old(Rows(a)), i, f)
  {
    hide Mul, GfMul;
    var c := first;
    while c < a.Length1
      invariant first <= c <= a.Length1
      invariant forall s, d :: 0 <= s < a.Length0 && 0 <= d < a.Length1 ==>
        a[s, d] == if s == i && first <= d < c then Mul(f, old(a[s, d])) else old(a[s, d])
    {
      MulComm(a[i, c], f);
      a[i, c] := GfMul(a[i, c], f);
      c := c + 1;
    }
    if ZeroBefore(old(Rows(a)), i, first) {
      assert forall d :: 0 <= d < first ==> old(a[i, d]) == old(Rows(a))[i][d];
      MulZeroRight(f);
      RowsAre(a, Scaled(old(Rows(a)), i, f));
    }
  }

  /** Adds f times row i to row j, from column `first` on. */
  method AddScaledRowFrom(a: array2<byte>, j: nat, f: byte, i: nat, first: nat)
    requires i < a.Length0 && j < a.Length0 && i != j && first <= a.Length1
    modifies a
    ensures ZeroBefore(old(Rows(a)), i, first) ==> Rows(a) == Eliminated(old(Rows(a)), j, f, i)
    ensures forall c :: 0 <= c < a.Length1 ==> a[i, c] == old(a[i, c])
  {
    hide Add, Mul, GfMul;
    var c := first;
    while c < a.Length1
      invariant first <= c <= a.Length1
      invariant forall s, d :: 0 <= s < a.Length0 && 0 <= d < a.Length1 ==>
        a[s, d] == if s == j && first <= d < c then Add(old(a[j, d]), Mul(f, old(a[i, d]))) else old(a[s, d])
    {
      a[j, c] := Add(a[j, c], GfMul(f, a[i, c]));
      c := c + 1;
    }
    if ZeroBefore(old(Rows(a)), i, first) {
      assert forall d :: 0 <= d < first ==> old(a[i, d]) == old(Rows(a))[i][d];
      MulZeroRight(f);
      forall d | 0 <= d < first
        ensures Add(old(a[j, d]), Mul(f, old(a[i, d]))) == old(a[j, d])
      {
        AddZero(old(a[j, d]));
      }
      RowsAre(a, Eliminated(old(Rows(a)), j, f, i));
    }
  }

  /** Normalizes the pivot in row `cur` and clears its column, which is column `col`. */
  method ClearColumn(mat: array2<byte>, cur: nat, col: nat, ghost rows: Matrix)
    requires cur < mat.Length0 && col < mat.Length1 && mat[cur, col] != 0
    modifies mat
    ensures cur == col && old(Reduced(Rows(mat), rows, cur, mat.Length1)) ==>
      Reduced(Rows(mat), rows, cur + 1, mat.Length1)
  {
    hide Mul, GfInv, Reduced, Clearing, ZeroBefore, Scaled, Eliminated;
    var k := mat.Length1;
    ghost var tracked := cur == col && Reduced(Rows(mat), rows, cur, k);
    var pivot := mat[cur, col];
    var inverse := GfInv(pivot);
    if tracked {
      PivotRowStart(Rows(mat), rows, cur, k);
      ScaledStep(Rows(mat), rows, cur, inverse, k);
    }
    ScaleRowFrom(mat, cur, inverse, col);
    var row := 0;
    while row < mat.Length0
      invariant row <= mat.Length0
      invariant tracked ==> Clearing(Rows(mat), rows, cur, row, k)
    {
      if row != cur {
        var factor := mat[row, col];
        if tracked {
          PivotRowZeros(Rows(mat), rows, cur, row, k);
          EliminatedStep(Rows(mat), rows, cur, row, k);
        }
        if factor != 0 {
          AddScaledRowFrom(mat, row, factor, cur, col);
        }
      } else if tracked {
        PivotSkip(Rows(mat), rows, cur, k);
      }
      row := row + 1;
    }
    if tracked {
      ClearingDone(Rows(mat), rows, cur, k);
    }
  }

  /** Half-way through clearing column `cur`: the rows before `row` are done. */
  ghost predicate Clearing(work: Matrix, rows: Matrix, cur: nat, row: nat, k: nat) {
    |work| == |rows| && cur < |work| && cur < k &&
    IsMatrix(work, |work|, k) && IsMatrix(rows, |rows|, k) &&
    Agrees(work, rows, cur + 1, k) && KeepsKernel(work, rows, k) &&
    Cleared(work, k, cur) && ColumnCleared(work, k, cur, row)
  }

  lemma PivotRowStart(work: Matrix, rows: Matrix, cur: nat, k: nat)
    requires Reduced(work, rows, cur, k) && cur < |work|
    ensures |work[cur]| == k && ZeroBefore(work, cur, cur)
  {
  }

  lemma PivotRowZeros(work: Matrix, rows: Matrix, cur: nat, row: nat, k: nat)
    requires Clearing(work, rows, cur, row, k)
    ensures |work[cur]| == k && ZeroBefore(work, cur, cur)
  {
  }

  lemma ScaledStep(work: Matrix, rows: Matrix, cur: nat, inverse: byte, k: nat)
    requires Reduced(work, rows, cur, k) && cur < |work| && cur < k
    requires Mul(work[cur][cur], inverse) == 1
    ensures Clearing(Scaled(work, cur, inverse), rows, cur, 0, k)
  {
    hide Mul, Agrees, KeepsKernel;
    MulZeroRight(work[cur][cur]);
    MulZeroRight(inverse);
    MulComm(work[cur][cur], inverse);
    AgreesScaled(work, rows, cur, inverse, k);
    KernelScaled(work, rows, cur, inverse, k);
  }

  lemma EliminatedStep(work: Matrix, rows: Matrix, cur: nat, row: nat, k: nat)
    requires Clearing(work, rows, cur, row, k) && row < |work| && row != cur
    ensures Clearing(Eliminated(work, row, work[row][cur], cur), rows, cur, row + 1, k)
    ensures work[row][cur] == 0 ==> Eliminated(work, row, work[row][cur], cur) == work
  {
    hide Add, Mul, Agrees, KeepsKernel;
    var f := work[row][cur];
    AgreesEliminated(work, rows, cur, row, f, k);
    KernelEliminated(work, rows, row, f, cur, k);
    EliminatedColumns(work, k, row, cur);
    if f == 0 {
      forall c | 0 <= c < k
        ensures VAdd(work[row], VScale(0, work[cur]))[c] == work[row][c]
      {
        MulZeroLeft(work[cur][c]);
        AddZero(work[row][c]);
      }
      assert VAdd(work[row], VScale(0, work[cur])) == work[row];
    }
  }

  lemma PivotSkip(work: Matrix, rows: Matrix, cur: nat, k: nat)
    requires Clearing(work, rows, cur, cur, k)
    ensures Clearing(work, rows, cur, cur + 1, k)
  {
    hide Agrees, KeepsKernel;
  }

  lemma ClearingDone(work: Matrix, rows: Matrix, cur: nat, k: nat)
    requires Clearing(work, rows, cur, |work|, k)
    ensures Reduced(work, rows, cur + 1, k)
  {
    hide Agrees, KeepsKernel;
  }

  // ---- Choosing independent rows ----

  /** Every one of the listed rows sends v to zero. */
  ghost predicate KillsAll(g: Matrix, ids: seq<nat>, v: Vec)
    requires IsMatrix(g, |g|, |v|) && forall i :: 0 <= i < |ids| ==> ids[i] < |g|
  {
    forall i :: 0 <= i < |ids| ==> Dot(g[ids[i]], v) == 0
  }

  /** The same indices in another order. */
  ghost predicate Reordered(ids: seq<nat>, original: seq<nat>) {
    |ids| == |original| && (Distinct(original) ==> Distinct(ids)) &&
    (forall i :: 0 <= i < |ids| ==> ids[i] in original) &&
    (forall i :: 0 <= i < |original| ==> original[i] in ids)
  }

  lemma ReorderedSwap(ids: seq<nat>, original: seq<nat>, i: nat, j: nat)
    requires Reordered(ids, original) && i < |ids| && j < |ids|
    ensures Reordered(ids[i := ids[j]][j := ids[i]], original)
  {
    var after := ids[i := ids[j]][j := ids[i]];
    forall x | x in ids
      ensures x in after
    {
      var p :| 0 <= p < |ids| && ids[p] == x;
      assert after[if p == i then j else if p == j then i else p] == x;
    }
  }

  lemma KillsReordered(g: Matrix, ids: seq<nat>, original: seq<nat>, v: Vec)
    requires IsMatrix(g, |g|, |v|) && Reordered(ids, original)
    requires forall i :: 0 <= i < |original| ==> original[i] < |g|
    requires forall i :: 0 <= i < |ids| ==> ids[i] < |g|
    requires KillsAll(g, ids, v)
    ensures KillsAll(g, original, v)
  {
    hide Dot;
    forall i | 0 <= i < |original|
      ensures Dot(g[original[i]], v) == 0
    {
      var j :| 0 <= j < |ids| && ids[j] == original[i];
    }
  }

  /** Some nonzero vector is sent to zero by every listed row. */
  ghost predicate Dependent(g: Matrix, ids: seq<nat>, k: nat)
    requires IsMatrix(g, |g|, k) && forall i :: 0 <= i < |ids| ==> ids[i] < |g|
  {
    exists v: Vec :: |v| == k && v != Zeros(k) && KillsAll(g, ids, v)
  }

  lemma DependentIsSingular(g: Matrix, ids: seq<nat>, k: nat)
    requires IsMatrix(g, |g|, k) && forall i :: 0 <= i < |ids| ==> ids[i] < |g|
    ensures Dependent(g, ids, k) <==> Singular(Pick(g, ids), k)
  {
    hide Dot;
    var m := Pick(g, ids);
    if Dependent(g, ids, k) {
      var v: Vec :| |v| == k && v != Zeros(k) && KillsAll(g, ids, v);
      assert Kills(m, v);
    }
    if Singular(m, k) {
      var v: Vec :| |v| == k && v != Zeros(k) && Kills(m, v);
      forall i | 0 <= i < |ids|
        ensures Dot(g[ids[i]], v) == 0
      {
        assert Dot(m[i], v) == 0;
      }
      assert KillsAll(g, ids, v);
    }
  }

  /** No pivot in column `cur`: the candidate rows are dependent. */
  lemma NoPivotDependent(work: Matrix, g: Matrix, ids: seq<nat>, original: seq<nat>, cur: nat, k: nat)
    requires IsMatrix(g, |g|, k) && forall i :: 0 <= i < |ids| ==> ids[i] < |g|
    requires forall i :: 0 <= i < |original| ==> original[i] < |g|
    requires Reduced(work, Pick(g, ids), cur, k) && cur < k && Reordered(ids, original)
    requires forall s :: cur <= s < |work| ==> work[s][cur] == 0
    ensures Dependent(g, original, k)
  {
    hide Dot, Agrees;
    NoPivotKernel(work, k, cur);
    var v := KernelVector(work, k, cur);
    var rows := Pick(g, ids);
    assert Kills(rows, v);
    forall i | 0 <= i < |ids|
      ensures Dot(g[ids[i]], v) == 0
    {
      assert Dot(rows[i], v) == 0;
    }
    KillsReordered(g, ids, original, v);
  }

  /** What the search for independent rows knows: all columns had pivots, or the rows are dependent. */
  ghost predicate Searching(work: Matrix, g: Matrix, ids: seq<nat>, original: seq<nat>, cur: nat, col: nat, k: nat) {
    IsMatrix(g, |g|, k) && Reordered(ids, original) && cur <= col <= k && cur <= |ids| &&
    (forall i :: 0 <= i < |original| ==> original[i] < |g|) &&
    (forall i :: 0 <= i < |ids| ==> ids[i] < |g|) &&
    if cur == col then Reduced(work, Pick(g, ids), cur, k) else Dependent(g, original, k)
  }

  lemma SwapStep(work: Matrix, g: Matrix, ids: seq<nat>, original: seq<nat>, cur: nat, sel: nat, col: nat, k: nat)
    requires Searching(work, g, ids, original, cur, col, k) && cur <= sel < |ids| && |work| == |ids|
    requires cur < |work| && IsMatrix(work, |work|, k)
    ensures Searching(Swapped(work, cur, sel), g, ids[cur := ids[sel]][sel := ids[cur]], original, cur, col, k)
  {
    hide Agrees, KeepsKernel;
    ReorderedSwap(ids, original, cur, sel);
    if cur == col {
      var rows := Pick(g, ids);
      assert Pick(g, ids[cur := ids[sel]][sel := ids[cur]]) == Swapped(rows, cur, sel);
      AgreesSwapped(work, rows, cur, sel, k);
      KernelSwapped(work, rows, cur, sel, k);
    }
  }

  lemma SearchStart(g: Matrix, original: seq<nat>, k: nat)
    requires IsMatrix(g, |g|, k) && forall i :: 0 <= i < |original| ==> original[i] < |g|
    ensures Searching(Pick(g, original), g, original, original, 0, 0, k)
  {
    ReducedAtStart(Pick(g, original), k);
  }

  lemma SearchSkip(work: Matrix, g: Matrix, ids: seq<nat>, original: seq<nat>, cur: nat, col: nat, k: nat)
    requires Searching(work, g, ids, original, cur, col, k) && col < k && |work| == |ids| && IsMatrix(work, |work|, k)
    requires forall s :: cur <= s < |work| ==> work[s][col] == 0
    ensures Searching(work, g, ids, original, cur, col + 1, k)
  {
    hide Reduced, Dependent;
    if cur == col {
      NoPivotDependent(work, g, ids, original, cur, k);
    }
  }

  lemma SearchPivot(before: Matrix, work: Matrix, g: Matrix, ids: seq<nat>, original: seq<nat>, cur: nat, col: nat,
                    k: nat)
    requires Searching(before, g, ids, original, cur, col, k) && col < k && cur < |ids|
    requires cur == col && Reduced(before, Pick(g, ids), cur, k) ==> Reduced(work, Pick(g, ids), cur + 1, k)
    ensures Searching(work, g, ids, original, cur + 1, col + 1, k)
  {
    hide Reduced, Dependent;
  }

  lemma SearchDone(work: Matrix, g: Matrix, ids: seq<nat>, original: seq<nat>, cur: nat, col: nat, k: nat)
    requires Searching(work, g, ids, original, cur, col, k) && |ids| >= k
    requires col == k || cur == |ids|
    ensures cur == k ==> !Singular(Pick(g, ids[..k]), k)
    ensures cur < k ==> Dependent(g, original, k)
  {
    hide Agrees, KeepsKernel, Singular, Dependent;
    if cur == k {
      ReducedIndependent(work, Pick(g, ids), k);
      assert Pick(g, ids)[..k] == Pick(g, ids[..k]);
    }
  }

  /** Brings k independent candidate rows to the front, or finds that the candidates are dependent. */
  method SelectIndependent(mat: array2<byte>, original: seq<nat>, ghost g: Matrix)
      returns (candidates: seq<nat>, cur: nat)
    requires mat.Length0 == |original| >= mat.Length1
    requires IsMatrix(g, |g|, mat.Length1) && forall i :: 0 <= i < |original| ==> original[i] < |g|
    requires Rows(mat) == Pick(g, original)
    modifies mat
    ensures cur <= mat.Length1 && Reordered(candidates, original)
    ensures cur == mat.Length1 ==>
      (forall i :: 0 <= i < |candidates| ==> candidates[i] < |g|) && !Singular(Pick(g, candidates[..mat.Length1]), mat.Length1)
    ensures cur < mat.Length1 ==> Dependent(g, original, mat.Length1)
  {
    hide Reduced, Dependent, Pick, Singular, Swapped;
    var k := mat.Length1;
    candidates := original;
    cur := 0;
    var col := 0;
    SearchStart(g, original, k);
    while col < k && cur < mat.Length0
      invariant |candidates| == mat.Length0
      invariant Searching(Rows(mat), g, candidates, original, cur, col, k)
    {
      var sel := cur;
      while sel < mat.Length0 && mat[sel, col] == 0
        invariant cur <= sel <= mat.Length0
        invariant forall s :: cur <= s < sel ==> mat[s, col] == 0
      {
        sel := sel + 1;
      }
      if sel == mat.Length0 {
        SearchSkip(Rows(mat), g, candidates, original, cur, col, k);
      } else {
        if sel != cur {
          SwapStep(Rows(mat), g, candidates, original, cur, sel, col, k);
          SwapRowsAt(mat, cur, sel, col);
          candidates := candidates[cur := candidates[sel]][sel := candidates[cur]];
        }
        ghost var before := Rows(mat);
        ClearColumn(mat, cur, col, Pick(g, candidates));
        SearchPivot(before, Rows(mat), g, candidates, original, cur, col, k);
        cur := cur + 1;
      }
      col := col + 1;
    }
    SearchDone(Rows(mat), g, candidates, original, cur, col, k);
  }

  method SwapRowsAt(mat: array2<byte>, cur: nat, sel: nat, col: nat)
    requires cur < mat.Length0 && sel < mat.Length0 && col < mat.Length1
    modifies mat
    ensures Rows(mat) == Swapped(old(Rows(mat)), cur, sel)
    ensures mat[cur, col] == old(mat[sel, col])
  {
    ghost var before := Rows(mat);
    SwapRows(mat, cur, sel);
    assert mat[cur, col] == Rows(mat)[cur][col] == before[sel][col];
  }

  // ---- The plan ----

  /** `gf_mul_vect_matrix`. */
  method GfMulVectMatrix(vect: Vec, matrix: array2<byte>) returns (dest: Vec)
    requires matrix.Length0 == matrix.Length1 == |vect|
    ensures dest == Combine(vect, Rows(matrix), |vect|)
  {
    hide Add, Mul, GfMul, Combine;
    var k := |vect|;
    ghost var m := Rows(matrix);
    dest := [];
    var i := 0;
    while i < k
      invariant i <= k && dest == Combine(vect, m, k)[..i]
    {
      var s := 0;
      var j := 0;
      EmptyPrefix(vect, m, k);
      while j < k
        invariant j <= k && s == Prefix(vect, m, k, j)[i]
      {
        assert vect[..j + 1] == vect[..j] + [vect[j]] && m[..j + 1] == m[..j] + [m[j]];
        CombineSnoc(vect[..j], m[..j], vect[j], m[j]);
        s := Add(s, GfMul(vect[j], matrix[j, i]));
        j := j + 1;
      }
      assert vect[..j] == vect && m[..j] == m;
      dest := dest + [s];
      i := i + 1;
    }
  }

  /** Copies the listed rows of a matrix into a fresh buffer. */
  method CopyPicked(g: array2<byte>, ids: seq<nat>) returns (a: array2<byte>)
    requires forall i :: 0 <= i < |ids| ==> ids[i] < g.Length0
    ensures fresh(a) && a.Length0 == |ids| && a.Length1 == g.Length1
    ensures Rows(a) == Pick(Rows(g), ids)
  {
    a := new byte[|ids|, g.Length1];
    var i := 0;
    while i < |ids|
      invariant i <= |ids|
      invariant forall s, c :: 0 <= s < i && 0 <= c < g.Length1 ==> a[s, c] == g[ids[s], c]
    {
      var c := 0;
      while c < g.Length1
        invariant c <= g.Length1
        invariant forall s, d :: 0 <= s < i && 0 <= d < g.Length1 ==> a[s, d] == g[ids[s], d]
        invariant forall d :: 0 <= d < c ==> a[i, d] == g[ids[i], d]
      {
        a[i, c] := g[ids[i], c];
        c := c + 1;
      }
      i := i + 1;
    }
    RowsAre(a, Pick(Rows(g), ids));
  }

  /** The plan rebuilds every failed block of every stripe, whatever its data. */
  ghost predicate RepairsAlways(g: Matrix, k: nat, failed: seq<nat>, chosen: seq<nat>, factors: Matrix)
    requires IsMatrix(g, |g|, k) && |chosen| == k
    requires forall i :: 0 <= i < |failed| ==> failed[i] < |g|
    requires forall i :: 0 <= i < |chosen| ==> chosen[i] < |g|
    requires IsMatrix(factors, |failed|, k)
  {
    forall data: Matrix, len: nat :: IsMatrix(data, k, len) ==> Repairs(g, failed, chosen, factors, data, len)
  }

  lemma FactorsRepairAlways(g: Matrix, k: nat, failed: seq<nat>, chosen: seq<nat>, inverse: Matrix, factors: Matrix)
    requires IsMatrix(g, |g|, k) && |chosen| == k
    requires forall i :: 0 <= i < |failed| ==> failed[i] < |g|
    requires forall i :: 0 <= i < |chosen| ==> chosen[i] < |g|
    requires IsMatrix(inverse, k, k) && MatMul(inverse, Pick(g, chosen), k) == Identity(k)
    requires IsMatrix(factors, |failed|, k)
    requires forall e :: 0 <= e < |failed| ==> factors[e] == Combine(g[failed[e]], inverse, k)
    ensures RepairsAlways(g, k, failed, chosen, factors)
  {
    hide Combine, MatMul;
    forall data: Matrix, len: nat | IsMatrix(data, k, len)
      ensures Repairs(g, failed, chosen, factors, data, len)
    {
      forall e | 0 <= e < |failed|
        ensures Combine(factors[e], Pick(Encode(g, data, len), chosen), len) == Encode(g, data, len)[failed[e]]
      {
        FactorsRepair(g, failed[e], chosen, inverse, data, len);
      }
    }
  }

  /** The factors of each failed block: its generator row times the inverse. */
  method ComputeFactors(genMatrix: array2<byte>, failed: seq<nat>, invM: array2<byte>) returns (factors: Matrix)
    requires invM.Length0 == invM.Length1 == genMatrix.Length1
    requires forall i :: 0 <= i < |failed| ==> failed[i] < genMatrix.Length0
    ensures IsMatrix(factors, |failed|, invM.Length0)
    ensures forall e :: 0 <= e < |failed| ==>
      factors[e] == Combine(Rows(genMatrix)[failed[e]], Rows(invM), invM.Length0)
  {
    hide Combine;
    factors := [];
    var f := 0;
    while f < |failed|
      invariant f <= |failed| && IsMatrix(factors, f, invM.Length0)
      invariant forall e :: 0 <= e < f ==>
        factors[e] == Combine(Rows(genMatrix)[failed[e]], Rows(invM), invM.Length0)
    {
      var row := CopyRow(genMatrix, failed[f]);
      var coeff := GfMulVectMatrix(row, invM);
      factors := factors + [coeff];
      f := f + 1;
    }
  }

  method CopyRow(a: array2<byte>, i: nat) returns (row: Vec)
    requires i < a.Length0
    ensures row == Rows(a)[i]
  {
    row := [];
    var c := 0;
    while c < a.Length1
      invariant c <= a.Length1 && row == Rows(a)[i][..c]
    {
      row := row + [a[i, c]];
      c := c + 1;
    }
  }

  /** If k of the candidate rows are independent, the candidates as a whole determine the data. */
  lemma IndependentCandidates(g: Matrix, candidates: seq<nat>, original: seq<nat>, k: nat)
    requires IsMatrix(g, |g|, k) && Reordered(candidates, original) && k <= |candidates|
    requires forall i :: 0 <= i < |original| ==> original[i] < |g|
    requires forall i :: 0 <= i < |candidates| ==> candidates[i] < |g|
    requires !Singular(Pick(g, candidates[..k]), k)
    ensures !Dependent(g, original, k)
  {
    hide Dot;
    forall v: Vec | |v| == k && KillsAll(g, original, v)
      ensures Kills(Pick(g, candidates[..k]), v)
    {
      forall i | 0 <= i < k
        ensures Dot(Pick(g, candidates[..k])[i], v) == 0
      {
        var j :| 0 <= j < |original| && original[j] == candidates[i];
      }
    }
  }

  /**
   * `get_multi_decode_plan`.  A plan is returned exactly when the candidate rows
   * determine the data.  Its k sources are distinct survivors, and its factors
   * rebuild every failed block of every stripe.
   */
  method GetMultiDecodePlan(k: nat, r: nat, z: nat, codeType: Option<CodeType>, failed: seq<nat>)
      returns (ok: bool, chosen: seq<nat>, factors: Matrix)
    requires codeType.Some? ==> ValidShape(codeType.value, k, r, z)
    requires forall i :: 0 <= i < |failed| ==> failed[i] < k + r + z
    ensures codeType.None? ==> !ok
    ensures codeType.Some? ==>
      (ok <==> |Candidates(k, r, z, failed)| >= k && !Singular(CandidateRows(codeType.value, k, r, z, failed), k))
    ensures !ok ==> chosen == [] && factors == []
    ensures ok ==> |chosen| == k && Distinct(chosen) && IsMatrix(factors, |failed|, k)
    ensures ok ==> forall i :: 0 <= i < k ==> chosen[i] < k + r + z && chosen[i] !in failed
    ensures ok ==> RepairsAlways(Generator(codeType.value, k, r, z), k, failed, chosen, factors)
  {
    hide GeneratorRow, Generator, Candidates, Dependent, Singular, HasLeftInverse, RepairsAlways, MatMul, Rows, Pick;
    ok, chosen, factors := false, [], [];
    if codeType.None? {
      return;
    }
    ghost var g := Generator(codeType.value, k, r, z);
    var genMatrix := new byte[k + r + z, k];
    GenMatrix(codeType.value, genMatrix, k, r, z);
    var original := FindCandidates(k, r, z, failed);
    if |original| < k {
      return;
    }
    DependentIsSingular(g, original, k);
    var mat := CopyPicked(genMatrix, original);
    var candidates, cur := SelectIndependent(mat, original, g);
    if cur < k {
      return;
    }
    chosen := candidates[..k];
    IndependentCandidates(g, candidates, original, k);
    var tempM := CopyPicked(genMatrix, chosen);
    ghost var rows := Rows(tempM);
    var invM := new byte[k, k];
    var rc := GfInvertMatrix(tempM, invM);
    assert rc == 0;  // the branch for a failed inversion cannot be taken
    factors := ComputeFactors(genMatrix, failed, invM);
    FactorsRepairAlways(g, k, failed, chosen, Rows(invM), factors);
    ok := true;
  }
}

/**
 * Rows of surviving blocks: fewer than k of them leave a choice, and what a list
 * of blocks sends to zero.
 */
module DecodeRows {
  import opened Gf256Tables
  import opened Gf256
  import opened LinearAlgebra
  import opened Generators
  import opened DecodePlan
  import opened LocalRepair

  // ---- Fewer rows than columns ----

  /** The row after its first entry has been cleared with the pivot row p. */
  function ClearFirst(row: Vec, p: Vec): (v: Vec)
    requires |row| == |p| > 0
    ensures |v| == |row|
  {
    VAdd(row, VScale(Mul(row[0], GfInv(p[0])), p))
  }

  lemma ClearedFirst(row: Vec, p: Vec)
    requires |row| == |p| > 0 && p[0] != 0
    ensures ClearFirst(row, p)[0] == 0
  {
    hide Add, Mul, GfInv;
    var f := GfInv(p[0]);
    MulAssoc(row[0], f, p[0]);
    MulComm(f, p[0]);
    MulOne(row[0]);
    AddZero(row[0]);
  }

  /** What the pivot row and a cleared row send to zero, the row itself does too. */
  lemma ClearedKills(row: Vec, p: Vec, v: Vec)
    requires |row| == |p| == |v| > 0 && Dot(p, v) == 0 && Dot(ClearFirst(row, p), v) == 0
    ensures Dot(row, v) == 0
  {
    hide Add, Mul, GfInv, Dot;
    var c := Mul(row[0], GfInv(p[0]));
    DotAddLeft(row, VScale(c, p), v);
    DotScaleLeft(c, p, v);
    MulZeroRight(c);
    AddZero(Dot(row, v));
  }

  /** The first entry that makes the pivot row vanish. */
  function Extend(p: Vec, tail: Vec): (v: Vec)
    requires |p| == |tail| + 1
    ensures |v| == |p|
  {
    [Mul(GfInv(p[0]), Dot(p[1..], tail))] + tail
  }

  lemma ExtendKills(p: Vec, tail: Vec)
    requires |p| == |tail| + 1 && p[0] != 0
    ensures Dot(p, Extend(p, tail)) == 0
  {
    hide Add, Mul, GfInv;
    var f, d := GfInv(p[0]), Dot(p[1..], tail);
    var v := Extend(p, tail);
    assert v[1..] == tail;
    MulAssoc(p[0], f, d);
    MulOne(d);
    MulComm(1, d);
    AddZero(d);
  }

  /** A row with first entry zero does not see the first entry. */
  lemma TailKills(row: Vec, v: Vec)
    requires |row| == |v| > 0 && row[0] == 0
    ensures Dot(row, v) == Dot(row[1..], v[1..])
  {
    hide Add, Mul;
    MulZeroLeft(v[0]);
    AddZero(Dot(row[1..], v[1..]));
  }

  /** The rows but the pivot row, cleared, without their first column. */
  function Smaller(m: Matrix, p: nat, k: nat): (s: Matrix)
    requires IsMatrix(m, |m|, k) && p < |m| && k > 0
    ensures IsMatrix(s, |m| - 1, k - 1)
  {
    hide ClearFirst;
    var s := seq(|m| - 1, i requires 0 <= i < |m| - 1 => ClearFirst(m[if i < p then i else i + 1], m[p])[1..]);
    assert forall i :: 0 <= i < |s| ==> s[i] == ClearFirst(m[if i < p then i else i + 1], m[p])[1..];
    s
  }

  /** Fewer than k rows of width k send some nonzero vector to zero. */
  lemma {:induction false} FewRowsSingular(m: Matrix, k: nat)
    requires IsMatrix(m, |m|, k) && |m| < k
    ensures Singular(m, k)
    decreases k
  {
    hide Dot, Kills, Smaller;
    if p :| 0 <= p < |m| && m[p][0] != 0 {
      var small := Smaller(m, p, k);
      FewRowsSingular(small, k - 1);
      var tail: Vec :| |tail| == k - 1 && tail != Zeros(k - 1) && Kills(small, tail);
      PivotSingular(m, p, k, tail);
    } else {
      NoPivotSingular(m, k);
    }
  }

  lemma NoPivotSingular(m: Matrix, k: nat)
    requires IsMatrix(m, |m|, k) && k > 0 && forall p :: 0 <= p < |m| ==> m[p][0] == 0
    ensures Singular(m, k)
  {
    hide Dot;
    var v := Unit(k, 0);
    assert v[0] != Zeros(k)[0];
    forall i | 0 <= i < |m|
      ensures Dot(m[i], v) == 0
    {
      DotUnit(k, 0, m[i]);
    }
    assert Kills(m, v);
  }

  lemma PivotSingular(m: Matrix, p: nat, k: nat, tail: Vec)
    requires IsMatrix(m, |m|, k) && p < |m| && k > 0 && m[p][0] != 0
    requires |tail| == k - 1 && tail != Zeros(k - 1) && Kills(Smaller(m, p, k), tail)
    ensures Singular(m, k)
  {
    hide Dot, Extend, Smaller;
    var v := Extend(m[p], tail);
    ExtendTail(m[p], tail);
    assert Zeros(k)[1..] == Zeros(k - 1);
    ExtendKills(m[p], tail);
    forall i | 0 <= i < |m|
      ensures Dot(m[i], v) == 0
    {
      if i != p {
        SmallerKills(m, p, k, tail, i);
      }
    }
    assert Kills(m, v);
  }

  lemma SmallerKills(m: Matrix, p: nat, k: nat, tail: Vec, i: nat)
    requires IsMatrix(m, |m|, k) && p < |m| && k > 0 && m[p][0] != 0 && i < |m| && i != p
    requires |tail| == k - 1 && Kills(Smaller(m, p, k), tail) && Dot(m[p], Extend(m[p], tail)) == 0
    ensures Dot(m[i], Extend(m[p], tail)) == 0
  {
    hide Dot, Extend, ClearFirst;
    var small, v := Smaller(m, p, k), Extend(m[p], tail);
    var j := if i < p then i else i - 1;
    assert small[j] == ClearFirst(m[i], m[p])[1..];
    assert v[1..] == tail by { ExtendTail(m[p], tail); }
    ClearedFirst(m[i], m[p]);
    TailKills(ClearFirst(m[i], m[p]), v);
    ClearedKills(m[i], m[p], v);
  }

  lemma ExtendTail(p: Vec, tail: Vec)
    requires |p| == |tail| + 1
    ensures Extend(p, tail)[1..] == tail
  {
  }

  // ---- Lists of blocks ----

  lemma {:induction false} SurvivingIs(failed: seq<nat>, lo: nat, hi: nat, id: nat)
    ensures id in Surviving(failed, lo, hi) <==> lo <= id < hi && id !in failed
    decreases hi
  {
    if lo < hi {
      SurvivingIs(failed, lo, hi - 1, id);
      var before := Surviving(failed, lo, hi - 1);
      assert Surviving(failed, lo, hi) == if hi - 1 in failed then before else before + [hi - 1];
    }
  }

  /** All surviving global rows are candidates. */
  lemma GlobalsAreCandidates(k: nat, r: nat, z: nat, failed: seq<nat>, id: nat)
    requires id < k + r && id !in failed
    ensures id in Candidates(k, r, z, failed)
  {
    hide Surviving;
    SurvivingIs(failed, 0, k + r, id);
  }

  /** All members of a group but the local parity are global rows. */
  lemma MembersAre(code: CodeType, k: nat, r: nat, z: nat, g: nat)
    requires z > 0 && g < z
    ensures var ids := Members(code, k, r, z, g);
      ids != [] && ids[|ids| - 1] == k + r + g && forall i :: 0 <= i < |ids| - 1 ==> ids[i] < k + r
  {
  }

  lemma KillsListed(g: Matrix, ids: seq<nat>, v: Vec)
    requires IsMatrix(g, |g|, |v|) && forall i :: 0 <= i < |ids| ==> ids[i] < |g|
    ensures Kills(Pick(g, ids), v) <==> forall id :: id in ids ==> Dot(g[id], v) == 0
  {
    hide Dot;
    forall id | id in ids && Kills(Pick(g, ids), v)
      ensures Dot(g[id], v) == 0
    {
      var i :| 0 <= i < |ids| && ids[i] == id;
      assert Dot(Pick(g, ids)[i], v) == 0;
    }
  }

  lemma PickShape(g: Matrix, ids: seq<nat>, k: nat)
    requires IsMatrix(g, |g|, k) && forall i :: 0 <= i < |ids| ==> ids[i] < |g|
    ensures IsMatrix(Pick(g, ids), |ids|, k)
  {
  }
}

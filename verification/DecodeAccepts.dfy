/**
 * When the planner is sure to accept.  A data block that is the only one its
 * group lacks is restored by the local parity; what remains is determined by
 * the global parities, if there are enough of them in a row.
 */
module DecodeAccepts {
  import opened Gf256Tables
  import opened Gf256
  import opened LinearAlgebra
  import opened Generators
  import opened DecodePlan
  import opened LocalRepair
  import opened DecodeRows
  import opened GlobalRows
  import opened Arithmetic

  // ---- What a list of blocks restores ----

  /** The listed blocks are zero for the stripe v. */
  ghost predicate Vanish(g: Matrix, ids: seq<nat>, v: Vec)
    requires IsMatrix(g, |g|, |v|)
  {
    forall id :: id in ids && id < |g| ==> Dot(g[id], v) == 0
  }

  function GroupOfData(code: CodeType, k: nat, r: nat, z: nat, p: nat): nat
    requires ValidShape(code, k, r, z)
  {
    GroupOf(GroupSize(code, k, r, z), p)
  }

  predicate Cauchylike(code: CodeType) {
    code.OptimalLRC? || code.UniformLRC?
  }

  /** Global parity t is among the blocks. */
  predicate HasGlobal(k: nat, ids: seq<nat>, t: nat) {
    k + t in ids
  }

  /** The local parity g and the global parities folded into it are among the blocks. */
  predicate HasLocal(code: CodeType, k: nat, r: nat, z: nat, ids: seq<nat>, g: nat)
    requires ValidShape(code, k, r, z)
  {
    g < z && k + r + g in ids &&
    var f := FoldedRows(code, k, r, z, g);
    forall i: nat :: f.0 <= i < f.0 + f.1 ==> i in ids
  }

  /** Every other block of its group is among the blocks, and the local weight of p is not zero. */
  predicate Restored(code: CodeType, k: nat, r: nat, z: nat, ids: seq<nat>, p: nat)
    requires ValidShape(code, k, r, z)
  {
    p < k && (Cauchylike(code) ==> k + r < 256) && HasLocal(code, k, r, z, ids, GroupOfData(code, k, r, z, p)) &&
    forall c: nat :: c < k && c != p && GroupOfData(code, k, r, z, c) == GroupOfData(code, k, r, z, p) ==> c in ids
  }

  /** The data blocks that are neither among the blocks nor restored by a local parity. */
  function Open(code: CodeType, k: nat, r: nat, z: nat, ids: seq<nat>): set<nat>
    requires ValidShape(code, k, r, z)
  {
    set p: nat | p < k && p !in ids && !Restored(code, k, r, z, ids, p)
  }

  /** n global parities in a row. */
  ghost predicate HasRun(k: nat, r: nat, ids: seq<nat>, n: nat) {
    exists first: nat :: first + n <= r && RunFrom(k, ids, first, n)
  }

  predicate RunFrom(k: nat, ids: seq<nat>, first: nat, n: nat) {
    forall t: nat :: first <= t < first + n ==> HasGlobal(k, ids, t)
  }

  /** All open positions lie in one group, and its local parity and the first global parities are there. */
  ghost predicate HasGroupRun(code: CodeType, k: nat, r: nat, z: nat, ids: seq<nat>, open: set<nat>, g: nat)
    requires ValidShape(code, k, r, z)
  {
    HasLocal(code, k, r, z, ids, g) && (forall p :: p in open ==> GroupOfData(code, k, r, z, p) == g) &&
    0 < |open| <= r + 1 && RunFrom(k, ids, 0, |open| - 1)
  }

  /** The global parities among the blocks. */
  function Globals(k: nat, r: nat, ids: seq<nat>): set<nat> {
    set i: nat | k <= i < k + r && i in ids
  }

  /**
   * Enough blocks: of the codes with powers a run of global parities as long as
   * there are open positions, all with different points - the local parity of
   * their only group may take the place before the first -, and of the others
   * as many global parities as open positions.
   */
  ghost predicate Enough(code: CodeType, k: nat, r: nat, z: nat, ids: seq<nat>)
    requires ValidShape(code, k, r, z)
  {
    var open := Open(code, k, r, z, ids);
    if Cauchylike(code) then k + r <= 256 && |Globals(k, r, ids)| >= |open|
    else PointsDiffer(open) && (HasRun(k, r, ids, |open|) || exists g: nat :: g < z && HasGroupRun(code, k, r, z, ids, open, g))
  }

  // ---- Enough blocks determine the data ----

  lemma DataVanishes(code: CodeType, k: nat, r: nat, z: nat, ids: seq<nat>, v: Vec, c: nat)
    requires ValidShape(code, k, r, z) && |v| == k && Vanish(Generator(code, k, r, z), ids, v) && c < k && c in ids
    ensures v[c] == 0
  {
    hide Dot;
    DotUnit(k, c, v);
    assert Generator(code, k, r, z)[c] == Unit(k, c);
  }

  lemma GlobalVanishes(code: CodeType, k: nat, r: nat, z: nat, ids: seq<nat>, v: Vec, i: nat)
    requires ValidShape(code, k, r, z) && |v| == k && Vanish(Generator(code, k, r, z), ids, v) && k <= i < k + r
    requires i in ids
    ensures Dot(if Cauchylike(code) then CauchyRow(k, i) else MomentRow(k, i - k + 1), v) == 0
  {
    hide Dot, GlobalRow, CauchyRow, MomentRow, LocalRow;
    GlobalRowIs(k, i - k);
    assert Generator(code, k, r, z)[i] == BaseRow(code, k, i);
  }

  lemma {:induction false} SumVanishes(rows: Matrix, v: Vec)
    requires IsMatrix(rows, |rows|, |v|) && Kills(rows, v)
    ensures Dot(XorRows(rows, |v|), v) == 0
  {
    hide Dot, Add;
    if rows == [] {
      DotZeros(v);
    } else {
      var init := rows[..|rows| - 1];
      forall i | 0 <= i < |init|
        ensures Dot(init[i], v) == 0
      {
        assert Dot(rows[i], v) == 0;
      }
      SumVanishes(init, v);
      DotAddLeft(XorRows(init, |v|), rows[|rows| - 1], v);
      AddZero(0);
    }
  }

  /** The weighted sum of a group's data vanishes if its local parity and what is folded into it do. */
  lemma GroupVanishesOn(code: CodeType, k: nat, r: nat, z: nat, ids: seq<nat>, v: Vec, g: nat)
    requires ValidShape(code, k, r, z) && |v| == k && Vanish(Generator(code, k, r, z), ids, v)
    requires HasLocal(code, k, r, z, ids, g)
    ensures Dot(GroupRow(k, GroupSize(code, k, r, z), g, Weights(code, k, r)), v) == 0
  {
    hide Dot, Add, GroupRow, GroupSize, Weights, BaseRows, XorRows, FoldedRows, Generator, VAdd, Kills, Vanish;
    var f := FoldedRows(code, k, r, z, g);
    var data, folded := GroupRow(k, GroupSize(code, k, r, z), g, Weights(code, k, r)), BaseRows(code, k, f.0, f.1);
    FoldedVanish(code, k, r, z, ids, v, g);
    SumVanishes(folded, v);
    LocalRowIs(code, k, r, z, g);
    LocalGenerated(code, k, r, z, ids, v, g);
    DotAddLeft(data, XorRows(folded, k), v);
    AddZero(Dot(data, v));
  }

  lemma LocalGenerated(code: CodeType, k: nat, r: nat, z: nat, ids: seq<nat>, v: Vec, g: nat)
    requires ValidShape(code, k, r, z) && |v| == k && Vanish(Generator(code, k, r, z), ids, v) && g < z
    requires k + r + g in ids
    ensures Dot(GeneratorRow(code, k, r, z, k + r + g), v) == 0
  {
    hide Dot, GeneratorRow;
    assert Generator(code, k, r, z)[k + r + g] == GeneratorRow(code, k, r, z, k + r + g);
  }

  lemma FoldedVanishes(code: CodeType, k: nat, r: nat, z: nat, ids: seq<nat>, v: Vec, i: nat)
    requires ValidShape(code, k, r, z) && |v| == k && Vanish(Generator(code, k, r, z), ids, v) && k <= i < k + r
    requires i in ids
    ensures Dot(BaseRow(code, k, i), v) == 0
  {
    hide Dot, BaseRow;
    assert Generator(code, k, r, z)[i] == BaseRow(code, k, i);
  }

  lemma FoldedVanish(code: CodeType, k: nat, r: nat, z: nat, ids: seq<nat>, v: Vec, g: nat)
    requires ValidShape(code, k, r, z) && |v| == k && Vanish(Generator(code, k, r, z), ids, v)
    requires HasLocal(code, k, r, z, ids, g)
    ensures var f := FoldedRows(code, k, r, z, g); Kills(BaseRows(code, k, f.0, f.1), v)
  {
    hide Dot, BaseRow, FoldedRows, Generator, Vanish;
    var f := FoldedRows(code, k, r, z, g);
    var folded := BaseRows(code, k, f.0, f.1);
    forall l: nat | l < |folded|
      ensures Dot(folded[l], v) == 0
    {
      FoldedVanishes(code, k, r, z, ids, v, f.0 + l);
    }
  }

  lemma RestoredVanishes(code: CodeType, k: nat, r: nat, z: nat, ids: seq<nat>, v: Vec, p: nat)
    requires ValidShape(code, k, r, z) && |v| == k && Vanish(Generator(code, k, r, z), ids, v)
    requires Restored(code, k, r, z, ids, p)
    ensures v[p] == 0
  {
    hide Dot, Mul, Generator, GroupSize, Weights, Vanish, HasLocal, GroupOf;
    var size, w, g := GroupSize(code, k, r, z), Weights(code, k, r), GroupOfData(code, k, r, z, p);
    var data := GroupRow(k, size, g, w);
    GroupVanishesOn(code, k, r, z, ids, v, g);
    var single := VScale(w[p], Unit(k, p));
    MulZeroRight(w[p]);
    MulOne(w[p]);
    forall c: nat | c < k && v[c] != 0
      ensures data[c] == single[c]
    {
      if c != p && GroupOfData(code, k, r, z, c) == g {
        DataVanishes(code, k, r, z, ids, v, c);
      }
    }
    DotSupport(data, single, v);
    DotScaleLeft(w[p], Unit(k, p), v);
    DotUnit(k, p, v);
    WeightNonZero(code, k, r, p);
    MulNonZero(w[p], v[p]);
  }

  lemma WeightNonZero(code: CodeType, k: nat, r: nat, p: nat)
    requires p < k && (Cauchylike(code) ==> k + r < 256)
    ensures Weights(code, k, r)[p] != 0
  {
    hide LocalVector;
    if Cauchylike(code) {
      LocalWeightNonZero(k, r, p);
    }
  }

  lemma ZeroOutsideOpen(code: CodeType, k: nat, r: nat, z: nat, ids: seq<nat>, v: Vec)
    requires ValidShape(code, k, r, z) && |v| == k && Vanish(Generator(code, k, r, z), ids, v)
    ensures ZeroOutside(v, Open(code, k, r, z, ids))
  {
    hide Generator, Vanish, Restored;
    forall c: nat | c < k && c !in Open(code, k, r, z, ids)
      ensures v[c] == 0
    {
      if c in ids {
        DataVanishes(code, k, r, z, ids, v, c);
      } else {
        RestoredVanishes(code, k, r, z, ids, v, c);
      }
    }
  }

  /** With all open positions in one group, its local parity is the sum of all blocks. */
  lemma GroupIsSum(code: CodeType, k: nat, r: nat, z: nat, ids: seq<nat>, v: Vec, open: set<nat>, g: nat)
    requires ValidShape(code, k, r, z) && !Cauchylike(code) && |v| == k && Vanish(Generator(code, k, r, z), ids, v)
    requires ZeroOutside(v, open) && HasGroupRun(code, k, r, z, ids, open, g)
    ensures Dot(MomentRow(k, 0), v) == 0
  {
    hide Dot, Generator, GroupSize, Vanish, HasLocal, GroupOf, MomentRow, RunFrom;
    GroupVanishesOn(code, k, r, z, ids, v, g);
    SumRowIs(k);
    var data := GroupRow(k, GroupSize(code, k, r, z), g, Weights(code, k, r));
    forall c: nat | c < k && v[c] != 0
      ensures data[c] == Ones(k)[c]
    {
      assert c in open;
      assert GroupOfData(code, k, r, z, c) == g;
    }
    DotSupport(data, Ones(k), v);
  }

  /** A stripe for which enough blocks are zero is zero. */
  lemma EnoughDetermines(code: CodeType, k: nat, r: nat, z: nat, ids: seq<nat>, v: Vec)
    requires ValidShape(code, k, r, z) && |v| == k && Vanish(Generator(code, k, r, z), ids, v)
    requires Enough(code, k, r, z, ids)
    ensures v == Zeros(k)
  {
    hide Dot, Generator, Vanish, Open, CauchyRow, MomentRow, PointsDiffer, ZeroOutside, RunFrom, HasGroupRun;
    var open := Open(code, k, r, z, ids);
    ZeroOutsideOpen(code, k, r, z, ids, v);
    if Cauchylike(code) {
      CauchyDetermines(code, k, r, z, ids, v);
    } else if HasRun(k, r, ids, |open|) {
      var first: nat :| first + |open| <= r && RunFrom(k, ids, first, |open|);
      RunVanishes(code, k, r, z, ids, v, first, |open|);
      Vandermonde(v, open, first + 1);
    } else {
      var g: nat :| g < z && HasGroupRun(code, k, r, z, ids, open, g);
      GroupRunVanishes(code, k, r, z, ids, v, open, g);
      Vandermonde(v, open, 0);
    }
  }

  lemma RunVanishes(code: CodeType, k: nat, r: nat, z: nat, ids: seq<nat>, v: Vec, first: nat, n: nat)
    requires ValidShape(code, k, r, z) && !Cauchylike(code) && |v| == k && Vanish(Generator(code, k, r, z), ids, v)
    requires first + n <= r && RunFrom(k, ids, first, n)
    ensures forall t: nat :: first + 1 <= t < first + 1 + n ==> Dot(MomentRow(k, t), v) == 0
  {
    hide Dot, Generator, Vanish, MomentRow;
    forall t: nat | first + 1 <= t < first + 1 + n
      ensures Dot(MomentRow(k, t), v) == 0
    {
      assert HasGlobal(k, ids, t - 1);
      GlobalVanishes(code, k, r, z, ids, v, k + (t - 1));
    }
  }

  lemma GroupRunVanishes(code: CodeType, k: nat, r: nat, z: nat, ids: seq<nat>, v: Vec, open: set<nat>, g: nat)
    requires ValidShape(code, k, r, z) && !Cauchylike(code) && |v| == k && Vanish(Generator(code, k, r, z), ids, v)
    requires ZeroOutside(v, open) && HasGroupRun(code, k, r, z, ids, open, g)
    ensures forall t: nat :: t < |open| ==> Dot(MomentRow(k, t), v) == 0
  {
    hide Dot, Generator, Vanish, MomentRow, ZeroOutside, RunFrom, HasLocal;
    GroupIsSum(code, k, r, z, ids, v, open, g);
    RunVanishes(code, k, r, z, ids, v, 0, |open| - 1);
  }

  lemma CauchyDetermines(code: CodeType, k: nat, r: nat, z: nat, ids: seq<nat>, v: Vec)
    requires ValidShape(code, k, r, z) && Cauchylike(code) && |v| == k && Vanish(Generator(code, k, r, z), ids, v)
    requires k + r <= 256 && |Globals(k, r, ids)| >= |Open(code, k, r, z, ids)|
    requires ZeroOutside(v, Open(code, k, r, z, ids))
    ensures v == Zeros(k)
  {
    hide Dot, Generator, Vanish, CauchyRow, ZeroOutside, Restored;
    forall i | i in Globals(k, r, ids)
      ensures Dot(CauchyRow(k, i), v) == 0
    {
      GlobalVanishes(code, k, r, z, ids, v, i);
    }
    Cauchy(v, Open(code, k, r, z, ids), Globals(k, r, ids));
  }

  /** The rows of enough blocks are independent, and there are at least k of them. */
  lemma EnoughIndependent(code: CodeType, k: nat, r: nat, z: nat, ids: seq<nat>)
    requires ValidShape(code, k, r, z) && Enough(code, k, r, z, ids) && forall i :: 0 <= i < |ids| ==>
      ids[i] < k + r + z
    ensures IsMatrix(Pick(Generator(code, k, r, z), ids), |ids|, k)
    ensures !Singular(Pick(Generator(code, k, r, z), ids), k) && |ids| >= k
  {
    hide Dot, Generator, Enough, Kills, Pick;
    var g := Generator(code, k, r, z);
    PickShape(g, ids, k);
    forall v: Vec | |v| == k && Kills(Pick(g, ids), v)
      ensures v == Zeros(k)
    {
      KillsListed(g, ids, v);
      EnoughDetermines(code, k, r, z, ids, v);
    }
    if |ids| < k {
      FewRowsSingular(Pick(g, ids), k);
    }
  }

  // ---- Counting survivors ----

  function Kept(failed: seq<nat>, lo: nat, hi: nat): set<nat> {
    set i: nat | lo <= i < hi && i !in failed
  }

  /** The data blocks that have failed. */
  function LostData(k: nat, failed: seq<nat>): set<nat> {
    set p: nat | p < k && p in failed
  }

  lemma {:induction false} KeptCount(failed: seq<nat>, lo: nat, hi: nat)
    ensures |Surviving(failed, lo, hi)| == |Kept(failed, lo, hi)|
    decreases hi
  {
    if hi <= lo {
      assert Kept(failed, lo, hi) == {};
    } else {
      KeptCount(failed, lo, hi - 1);
      assert Kept(failed, lo, hi) == Kept(failed, lo, hi - 1) + (if hi - 1 in failed then {} else {hi - 1});
    }
  }

  lemma {:induction false} DataCount(k: nat, failed: seq<nat>)
    ensures |Kept(failed, 0, k)| + |LostData(k, failed)| == k
  {
    if k == 0 {
      assert Kept(failed, 0, k) == {} && LostData(k, failed) == {};
    } else {
      DataCount(k - 1, failed);
      assert Kept(failed, 0, k) == Kept(failed, 0, k - 1) + (if k - 1 in failed then {} else {k - 1});
      assert LostData(k, failed) == LostData(k - 1, failed) + (if k - 1 in failed then {k - 1} else {});
    }
  }

  /** Survivors among data and global parities: all data but the lost, and the global parities. */
  lemma GlobalCount(k: nat, r: nat, failed: seq<nat>)
    ensures |Surviving(failed, 0, k + r)| + |LostData(k, failed)| == k + |Kept(failed, k, k + r)|
  {
    KeptCount(failed, 0, k + r);
    DataCount(k, failed);
    assert Kept(failed, 0, k + r) == Kept(failed, 0, k) + Kept(failed, k, k + r);
    assert Kept(failed, 0, k) !! Kept(failed, k, k + r);
  }

  /** The global parities and data blocks among the candidates are those that have survived. */
  lemma CandidatesBelow(k: nat, r: nat, z: nat, failed: seq<nat>, id: nat)
    requires id < k + r
    ensures id in Candidates(k, r, z, failed) <==> id !in failed
  {
    hide Surviving, Candidates;
    if id !in failed {
      GlobalsAreCandidates(k, r, z, failed, id);
    }
  }

  lemma CandidateSets(code: CodeType, k: nat, r: nat, z: nat, failed: seq<nat>)
    requires ValidShape(code, k, r, z)
    ensures Open(code, k, r, z, Candidates(k, r, z, failed)) <= LostData(k, failed)
    ensures Globals(k, r, Candidates(k, r, z, failed)) == Kept(failed, k, k + r)
  {
    hide Candidates, Restored;
    forall id: nat | id < k + r
      ensures id in Candidates(k, r, z, failed) <==> id !in failed
    {
      CandidatesBelow(k, r, z, failed, id);
    }
  }

  // ---- Caller's conditions ----

  /** n global parities in a row have survived. */
  ghost predicate RunSurvives(k: nat, r: nat, failed: seq<nat>, n: nat) {
    exists first: nat :: first + n <= r && SurvivesFrom(k, failed, first, n)
  }

  predicate SurvivesFrom(k: nat, failed: seq<nat>, first: nat, n: nat) {
    forall i: nat :: k + first <= i < k + first + n ==> i !in failed
  }

  /** A run of surviving global parities, one for each lost data block: accepted if all points differ. */
  lemma RunAccepted(code: CodeType, k: nat, r: nat, z: nat, failed: seq<nat>)
    requires ValidShape(code, k, r, z) && !Cauchylike(code)
    requires RunSurvives(k, r, failed, |LostData(k, failed)|) && PointsDiffer(LostData(k, failed))
    ensures Enough(code, k, r, z, Candidates(k, r, z, failed))
  {
    hide Candidates, Open, LostData;
    var ids, lost := Candidates(k, r, z, failed), LostData(k, failed);
    var open := Open(code, k, r, z, ids);
    CandidateSets(code, k, r, z, failed);
    var first: nat :| first + |lost| <= r && SurvivesFrom(k, failed, first, |lost|);
    SubsetSize(open, lost);
    forall t: nat | first <= t < first + |open|
      ensures HasGlobal(k, ids, t)
    {
      CandidatesBelow(k, r, z, failed, k + t);
    }
    assert RunFrom(k, ids, first, |open|);
  }

  lemma SubsetSize(a: set<nat>, b: set<nat>)
    requires a <= b
    ensures |a| <= |b|
  {
    assert b == a + (b - a);
  }

  /** Cauchy rows: k survivors among data and global parities are enough. */
  lemma CauchyAccepted(code: CodeType, k: nat, r: nat, z: nat, failed: seq<nat>)
    requires ValidShape(code, k, r, z) && Cauchylike(code) && k + r <= 256 && |Surviving(failed, 0, k + r)| >= k
    ensures Enough(code, k, r, z, Candidates(k, r, z, failed))
  {
    hide Candidates, Open, LostData, Surviving, Globals, Kept;
    CandidateSets(code, k, r, z, failed);
    GlobalCount(k, r, failed);
    SubsetSize(Open(code, k, r, z, Candidates(k, r, z, failed)), LostData(k, failed));
  }

  // ---- Equal points ----

  lemma {:induction false} PowersCommute(a: byte, m: nat, n: nat)
    ensures Power(Power(a, m), n) == Power(Power(a, n), m)
    decreases m
  {
    hide Mul;
    if m == 0 {
      PowerOfOne(n);
    } else {
      PowersCommute(a, m - 1, n);
      PowerMul(a, Power(a, m - 1), n);
    }
  }

  /** The n-th power of the point of position p. */
  function PointPower(p: nat, n: nat): byte {
    Power(Power(2, p), n)
  }

  /** The stripe with the entries x and y at two positions, and zeros elsewhere. */
  function TwoEntries(k: nat, p: nat, x: byte, q: nat, y: byte): (v: Vec)
    requires p < q < k
    ensures |v| == k
  {
    VAdd(VScale(x, Unit(k, p)), VScale(y, Unit(k, q)))
  }

  lemma DotTwo(row: Vec, k: nat, p: nat, x: byte, q: nat, y: byte)
    requires p < q < k == |row|
    ensures Dot(row, TwoEntries(k, p, x, q, y)) == Add(Mul(x, row[p]), Mul(y, row[q]))
  {
    hide Dot, Add, Mul, Unit;
    var a, b := VScale(x, Unit(k, p)), VScale(y, Unit(k, q));
    DotAddRight(row, a, b);
    DotComm(row, a);
    DotComm(row, b);
    DotScaleLeft(x, Unit(k, p), row);
    DotScaleLeft(y, Unit(k, q), row);
    DotUnit(k, p, row);
    DotUnit(k, q, row);
  }

  lemma TwoEntriesAt(k: nat, p: nat, x: byte, q: nat, y: byte)
    requires p < q < k
    ensures var v := TwoEntries(k, p, x, q, y);
      v[p] == x && v[q] == y && forall c: nat :: c < k && c != p && c != q ==> v[c] == 0
  {
    hide Add, Mul;
    MulOne(x);
    MulOne(y);
    MulZeroRight(x);
    MulZeroRight(y);
    AddZero(x);
    AddZero(y);
    AddZero(0);
  }

  /** Data and global parities only: what a stripe with two entries sends to zero. */
  lemma TwoEntriesKill(code: CodeType, k: nat, r: nat, z: nat, ids: seq<nat>, p: nat, x: byte, q: nat, y: byte)
    requires ValidShape(code, k, r, z) && !Cauchylike(code) && p < q < k && p !in ids && q !in ids
    requires forall i :: 0 <= i < |ids| ==> ids[i] < k + r
    requires forall t: nat :: t < r && HasGlobal(k, ids, t) ==>
      Mul(x, PointPower(p, t + 1)) == Mul(y, PointPower(q, t + 1))
    ensures Kills(Pick(Generator(code, k, r, z), ids), TwoEntries(k, p, x, q, y))
  {
    hide Dot, Add, Mul, Power, LocalRow, TwoEntries, GlobalRow, Kills;
    var g, v := Generator(code, k, r, z), TwoEntries(k, p, x, q, y);
    forall id | id in ids
      ensures Dot(g[id], v) == 0
    {
      if id < k {
        assert g[id] == Unit(k, id);
        DotUnit(k, id, v);
        TwoEntriesAt(k, p, x, q, y);
      } else {
        assert HasGlobal(k, ids, id - k);
        assert g[id] == GlobalRow(k, id - k);
        GlobalOnTwo(k, id - k, p, x, q, y);
      }
    }
    KillsListed(g, ids, v);
  }

  /** Global parity t of a stripe with two entries. */
  lemma GlobalOnTwo(k: nat, t: nat, p: nat, x: byte, q: nat, y: byte)
    requires p < q < k
    ensures Dot(GlobalRow(k, t), TwoEntries(k, p, x, q, y)) == 0 <==>
      Mul(x, PointPower(p, t + 1)) == Mul(y, PointPower(q, t + 1))
  {
    hide Dot, Add, Mul, Power, TwoEntries;
    var row := GlobalRow(k, t);
    DotTwo(row, k, p, x, q, y);
    PowersCommute(2, t + 1, p);
    PowersCommute(2, t + 1, q);
    AddCancel(Mul(x, row[p]), Mul(y, row[q]));
  }

  /** Two positions with the same point cannot be told apart by global parities. */
  lemma EqualPointsSingular(code: CodeType, k: nat, r: nat, z: nat, ids: seq<nat>, p: nat, q: nat)
    requires ValidShape(code, k, r, z) && !Cauchylike(code) && p < q < k && p !in ids && q !in ids && (q - p) % 255 == 0
    requires forall i :: 0 <= i < |ids| ==> ids[i] < k + r
    ensures IsMatrix(Pick(Generator(code, k, r, z), ids), |ids|, k)
    ensures Singular(Pick(Generator(code, k, r, z), ids), k)
  {
    hide Dot, Mul, Power, TwoEntries, Generator, Kills, Pick;
    PickShape(Generator(code, k, r, z), ids, k);
    PointsEqual(p, q);
    TwoEntriesKill(code, k, r, z, ids, p, 1, q, 1);
    TwoEntriesAt(k, p, 1, q, 1);
    NotZero(TwoEntries(k, p, 1, q, 1), p);
  }

  lemma NotZero(v: Vec, p: nat)
    requires p < |v| && v[p] != 0
    ensures v != Zeros(|v|)
  {
    assert Zeros(|v|)[p] == 0;
  }

  /** With enough candidates among data and global parities, no local parity is a candidate. */
  lemma NoLocals(k: nat, r: nat, z: nat, failed: seq<nat>)
    requires |Surviving(failed, 0, k + r)| >= k
    ensures Candidates(k, r, z, failed) == Surviving(failed, 0, k + r)
  {
    hide Surviving;
  }

  /** A run as long as the lost data: the planner accepts if and only if all points differ. */
  lemma RunDecides(code: CodeType, k: nat, r: nat, z: nat, failed: seq<nat>)
    requires ValidShape(code, k, r, z) && !Cauchylike(code) && RunSurvives(k, r, failed, |LostData(k, failed)|)
    ensures |Candidates(k, r, z, failed)| >= k && !Singular(CandidateRows(code, k, r, z, failed), k) <==>
      PointsDiffer(LostData(k, failed))
  {
    hide Candidates, LostData, Surviving, Singular, Generator, Enough, Pick;
    if PointsDiffer(LostData(k, failed)) {
      RunAccepted(code, k, r, z, failed);
      EnoughIndependent(code, k, r, z, Candidates(k, r, z, failed));
    } else {
      var p, q :| p in LostData(k, failed) && q in LostData(k, failed) && p < q && (q - p) % 255 == 0;
      RunCounts(k, r, failed);
      NoLocals(k, r, z, failed);
      LostAre(k, failed, p);
      LostAre(k, failed, q);
      EqualPointsSingular(code, k, r, z, Candidates(k, r, z, failed), p, q);
    }
  }

  lemma LostAre(k: nat, failed: seq<nat>, p: nat)
    ensures p in LostData(k, failed) <==> p < k && p in failed
  {
  }

  lemma RunCounts(k: nat, r: nat, failed: seq<nat>)
    requires RunSurvives(k, r, failed, |LostData(k, failed)|)
    ensures |Surviving(failed, 0, k + r)| >= k
  {
    hide Surviving, LostData;
    var n := |LostData(k, failed)|;
    var first: nat :| first + n <= r && SurvivesFrom(k, failed, first, n);
    GlobalCount(k, r, failed);
    KeptCount(failed, k + first, k + first + n);
    KeptAll(failed, k + first, k + first + n);
    SubsetSize(Kept(failed, k + first, k + first + n), Kept(failed, k, k + r));
  }

  lemma {:induction false} KeptAll(failed: seq<nat>, lo: nat, hi: nat)
    requires lo <= hi && forall i: nat :: lo <= i < hi ==> i !in failed
    ensures |Surviving(failed, lo, hi)| == hi - lo
    decreases hi
  {
    if lo < hi {
      KeptAll(failed, lo, hi - 1);
    }
  }

  // ---- Two lost data blocks ----

  predicate Survives(k: nat, failed: seq<nat>, t: nat) {
    k + t !in failed
  }

  /** The distances of two data blocks and of two global parities multiply to no multiple of 255. */
  predicate Apart(p: nat, q: nat, i: nat, j: nat)
    requires p < q && i < j
  {
    ((q - p) * (j - i)) % 255 != 0
  }

  /** Two surviving global parities tell the blocks p and q apart. */
  ghost predicate PairApart(k: nat, r: nat, failed: seq<nat>, p: nat, q: nat)
    requires p < q
  {
    exists i: nat, j: nat :: i < j < r && Survives(k, failed, i) && Survives(k, failed, j) && Apart(p, q, i, j)
  }

  lemma {:induction false} PowerPower(a: byte, m: nat, n: nat)
    ensures Power(Power(a, m), n) == Power(a, n * m)
    decreases n
  {
    hide Mul;
    if n > 0 {
      PowerPower(a, m, n - 1);
      PowerAdd(a, m, (n - 1) * m);
      assert m + (n - 1) * m == n * m;
    }
  }

  /** The ratios of two powers agree exactly if the blocks are not apart. */
  lemma RatioChanges(p: nat, q: nat, i: nat, j: nat)
    requires p < q && i < j
    ensures PointPower(q - p, i + 1) == PointPower(q - p, j + 1) <==> !Apart(p, q, i, j)
  {
    hide Power;
    PowerPower(2, q - p, i + 1);
    PowerPower(2, q - p, j + 1);
    ExponentsDiffer(q - p, i + 1, j + 1);
  }

  lemma ExponentsDiffer(d: nat, m: nat, n: nat)
    requires m <= n
    ensures Power(2, m * d) == Power(2, n * d) <==> (d * (n - m)) % 255 == 0
  {
    hide Power;
    var e, f := m * d, n * d;
    assert f == e + d * (n - m);
    NonNegativeProduct(d, n - m);
    PointsEqual(e, f);
  }

  lemma PowerOfSum(b: byte, d: nat, p: nat, n: nat)
    requires b != 0
    ensures Power(Power(b, d + p), n) == Mul(Power(Power(b, d), n), Power(Power(b, p), n))
    ensures Power(Power(b, p), n) != 0
  {
    hide Mul, Power;
    PowerAdd(b, d, p);
    PowerMul(Power(b, d), Power(b, p), n);
    PowerNonZero(b, p);
    PowerNonZero(Power(b, p), n);
  }

  /** The power of a point is that of a smaller one times the power of their distance. */
  lemma RatioIs(p: nat, q: nat, n: nat)
    requires p < q
    ensures PointPower(q, n) == Mul(PointPower(q - p, n), PointPower(p, n)) && PointPower(p, n) != 0
  {
    hide Mul, Power;
    PowerOfSum(2, q - p, p, n);
  }

  lemma CancelRight(x: byte, y: byte, ratio: byte, point: byte)
    requires point != 0
    ensures Mul(x, point) == Mul(y, Mul(ratio, point)) <==> x == Mul(y, ratio)
  {
    hide Mul;
    MulAssoc(y, ratio, point);
    MulComm(x, point);
    MulComm(Mul(y, ratio), point);
    if Mul(x, point) == Mul(Mul(y, ratio), point) {
      CancelLeft(point, x, Mul(y, ratio));
    }
  }

  /** A global parity vanishes for entries x and y exactly if x is y times the ratio. */
  lemma RatioVanishes(p: nat, q: nat, n: nat, x: byte, y: byte)
    requires p < q
    ensures Mul(x, PointPower(p, n)) == Mul(y, PointPower(q, n)) <==> x == Mul(y, PointPower(q - p, n))
  {
    hide Mul, PointPower;
    RatioIs(p, q, n);
    CancelRight(x, y, PointPower(q - p, n), PointPower(p, n));
  }

  /** If no pair of surviving global parities tells two lost blocks apart, the survivors do not either. */
  lemma TwoLostSingular(code: CodeType, k: nat, r: nat, z: nat, ids: seq<nat>, failed: seq<nat>, p: nat, q: nat)
    requires ValidShape(code, k, r, z) && !Cauchylike(code) && p < q < k && !PairApart(k, r, failed, p, q)
    requires forall i :: 0 <= i < |ids| ==> ids[i] < k + r && ids[i] !in failed
    requires p in failed && q in failed
    ensures IsMatrix(Pick(Generator(code, k, r, z), ids), |ids|, k)
    ensures Singular(Pick(Generator(code, k, r, z), ids), k)
  {
    hide Dot, Mul, PointPower, TwoEntries, Generator, Kills, Pick, PairApart;
    PickShape(Generator(code, k, r, z), ids, k);
    var x := 1;
    if t: nat :| t < r && HasGlobal(k, ids, t) {
      x := PointPower(q - p, t + 1);
      AllSameRatio(k, r, ids, failed, p, q, t);
    }
    forall t: nat | t < r && HasGlobal(k, ids, t)
      ensures Mul(x, PointPower(p, t + 1)) == Mul(1, PointPower(q, t + 1))
    {
      RatioVanishes(p, q, t + 1, x, 1);
      MulComm(1, PointPower(q - p, t + 1));
      MulOne(PointPower(q - p, t + 1));
    }
    TwoEntriesKill(code, k, r, z, ids, p, x, q, 1);
    TwoEntriesAt(k, p, x, q, 1);
    NotZero(TwoEntries(k, p, x, q, 1), q);
  }

  /** All surviving global parities have the same ratio. */
  lemma AllSameRatio(k: nat, r: nat, ids: seq<nat>, failed: seq<nat>, p: nat, q: nat, i: nat)
    requires p < q && !PairApart(k, r, failed, p, q) && i < r && HasGlobal(k, ids, i)
    requires forall x :: 0 <= x < |ids| ==> ids[x] !in failed
    ensures forall t: nat :: t < r && HasGlobal(k, ids, t) ==> PointPower(q - p, t + 1) == PointPower(q - p, i + 1)
  {
    hide PointPower, Apart;
    forall t: nat | t < r && HasGlobal(k, ids, t)
      ensures PointPower(q - p, t + 1) == PointPower(q - p, i + 1)
    {
      assert Survives(k, failed, t) && Survives(k, failed, i);
      if t < i {
        RatioChanges(p, q, t, i);
      } else if i < t {
        RatioChanges(p, q, i, t);
      }
    }
  }

  /** Two global parities that tell the only two lost blocks apart determine them. */
  lemma TwoLostDetermined(code: CodeType, k: nat, r: nat, z: nat, ids: seq<nat>, v: Vec, p: nat, q: nat, i: nat, j: nat)
    requires ValidShape(code, k, r, z) && !Cauchylike(code) && |v| == k && Vanish(Generator(code, k, r, z), ids, v)
    requires p < q < k && ZeroOutside(v, {p, q}) && i < j < r && HasGlobal(k, ids, i) && HasGlobal(k, ids, j)
    requires Apart(p, q, i, j)
    ensures v == Zeros(k)
  {
    hide Dot, Mul, PointPower, TwoEntries, Generator, Vanish, Apart, GlobalRow;
    var x, y := v[p], v[q];
    TwoEntriesAt(k, p, x, q, y);
    assert v == TwoEntries(k, p, x, q, y);
    RatioOf(code, k, r, z, ids, p, x, q, y, i);
    RatioOf(code, k, r, z, ids, p, x, q, y, j);
    RatioChanges(p, q, i, j);
    var a, b := PointPower(q - p, i + 1), PointPower(q - p, j + 1);
    if y != 0 {
      CancelLeft(y, a, b);
    }
    MulZeroLeft(a);
  }

  lemma RatioOf(code: CodeType, k: nat, r: nat, z: nat, ids: seq<nat>, p: nat, x: byte, q: nat, y: byte, t: nat)
    requires ValidShape(code, k, r, z) && !Cauchylike(code) && p < q < k && t < r && HasGlobal(k, ids, t)
    requires Vanish(Generator(code, k, r, z), ids, TwoEntries(k, p, x, q, y))
    ensures x == Mul(y, PointPower(q - p, t + 1))
  {
    hide Dot, Mul, PointPower, TwoEntries, Generator, Vanish, GlobalRow, MomentRow;
    GlobalVanishes(code, k, r, z, ids, TwoEntries(k, p, x, q, y), k + t);
    GlobalRowIs(k, t);
    GlobalOnTwo(k, t, p, x, q, y);
    RatioVanishes(p, q, t + 1, x, y);
  }

  /**
   * Two lost data blocks, and enough other survivors among data and global
   * parities: the candidates determine the data if and only if two of the
   * global parities tell the lost blocks apart.
   */
  lemma TwoLostDecides(code: CodeType, k: nat, r: nat, z: nat, failed: seq<nat>, p: nat, q: nat)
    requires ValidShape(code, k, r, z) && !Cauchylike(code) && p < q && LostData(k, failed) == {p, q}
    requires |Surviving(failed, 0, k + r)| >= k
    ensures !Singular(CandidateRows(code, k, r, z, failed), k) <==> PairApart(k, r, failed, p, q)
  {
    hide Candidates, LostData, Surviving, Generator, Pick, PairApart, Kills;
    var ids := Candidates(k, r, z, failed);
    LostAre(k, failed, p);
    LostAre(k, failed, q);
    NoLocals(k, r, z, failed);
    if PairApart(k, r, failed, p, q) {
      forall v: Vec | |v| == k && Kills(CandidateRows(code, k, r, z, failed), v)
        ensures v == Zeros(k)
      {
        PairDetermines(code, k, r, z, failed, v, p, q);
      }
    } else {
      TwoLostSingular(code, k, r, z, ids, failed, p, q);
    }
  }

  lemma PairDetermines(code: CodeType, k: nat, r: nat, z: nat, failed: seq<nat>, v: Vec, p: nat, q: nat)
    requires ValidShape(code, k, r, z) && !Cauchylike(code) && p < q < k && LostData(k, failed) == {p, q}
    requires |v| == k && Kills(CandidateRows(code, k, r, z, failed), v) && PairApart(k, r, failed, p, q)
    ensures v == Zeros(k)
  {
    hide Candidates, LostData, Generator, Pick, Kills, Dot, Open, Apart;
    var ids := Candidates(k, r, z, failed);
    var i: nat, j: nat :| i < j < r && Survives(k, failed, i) && Survives(k, failed, j) && Apart(p, q, i, j);
    KillsListed(Generator(code, k, r, z), ids, v);
    ZeroOutsideOpen(code, k, r, z, ids, v);
    CandidateSets(code, k, r, z, failed);
    CandidatesBelow(k, r, z, failed, k + i);
    CandidatesBelow(k, r, z, failed, k + j);
    TwoLostDetermined(code, k, r, z, ids, v, p, q, i, j);
  }
}

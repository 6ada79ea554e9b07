/**
 * A refusal by the planner does not mean the data are lost.  The smallest code
 * in which it tops up its candidates with the local parity of an intact group,
 * and stops before the one that would have helped; and a code in which it takes
 * global parities that do not tell the lost blocks apart, and leaves out the
 * local parities that restore them.
 */
module DecodeLimits {
  import opened Gf256Tables
  import opened Gf256
  import opened LinearAlgebra
  import opened Generators
  import opened DecodePlan
  import opened LocalRepair
  import opened DecodeRows
  import opened GlobalRows
  import opened DecodeAccepts
  import opened DecodeExact

  // AzureLRC with k = 4, r = 1, z = 2; blocks 2 and 3 have failed.
  const G := Generator(AzureLRC, 4, 1, 2)

  lemma RowsOfG()
    ensures IsMatrix(G, 7, 4)
    ensures G[0] == [1, 0, 0, 0] && G[1] == [0, 1, 0, 0]
    ensures G[4] == [1, 2, 4, 8] && G[5] == [1, 1, 0, 0] && G[6] == [0, 0, 1, 1]
  {
    hide Mul;
    SmallPowers();
    VAddZeros(GroupRow(4, 2, 0, Ones(4)));
    VAddZeros(GroupRow(4, 2, 1, Ones(4)));
    assert BaseRows(AzureLRC, 4, 4, 0) == [];
    assert G[4] == GlobalRow(4, 0);
  }

  lemma SmallPowers()
    ensures Power(2, 1) == 2 && Power(2, 0) == 1 && Power(2, 2) == 4 && Power(2, 3) == 8
    ensures GlobalPoint(0) == 2
  {
    hide Mul;
    MulOne(2);
    assert Power(2, 1) == Mul(2, Power(2, 0));
    assert Power(2, 2) == Mul(2, Power(2, 1));
    assert Power(2, 3) == Mul(2, Power(2, 2));
    SmallProducts();
  }

  lemma SmallProducts()
    ensures Mul(2, 2) == 4 && Mul(2, 4) == 8 && Mul(4, 2) == 8 && Mul(8, 1) == 8
  {
    MulTimes2Right(2, 1); MulTimes2Right(2, 2); MulTimes2Right(4, 1);
    MulOne(2); MulOne(4); MulOne(8);
  }

  lemma CandidatesAre()
    ensures Candidates(4, 1, 2, [2, 3]) == [0, 1, 4, 5]
  {
    var f := [2, 3];
    assert Surviving(f, 0, 2) == [0, 1];
    assert Surviving(f, 0, 4) == [0, 1];
    assert Surviving(f, 0, 5) == [0, 1, 4];
    assert Surviving(f, 5, 6) == [5];
    assert Surviving(f, 5, 7) == [5, 6];
  }

  /** The dot product of two vectors of length four, written out. */
  lemma Dot4(x: Vec, v: Vec)
    requires |x| == |v| == 4
    ensures Dot(x, v) == Add(Mul(x[0], v[0]), Add(Mul(x[1], v[1]), Add(Mul(x[2], v[2]), Mul(x[3], v[3]))))
  {
    hide Add, Mul;
    AddZero(Mul(x[3], v[3]));
    assert Dot(x[3..], v[3..]) == Add(Mul(x[3], v[3]), 0);
    assert x[1..][1..] == x[2..] && x[2..][1..] == x[3..] && v[1..][1..] == v[2..] && v[2..][1..] == v[3..];
    assert Dot(x[2..], v[2..]) == Add(Mul(x[2], v[2]), Dot(x[3..], v[3..]));
  }

  lemma GroupsOfG()
    ensures Members(AzureLRC, 4, 1, 2, 0) == [0, 1, 5] && Members(AzureLRC, 4, 1, 2, 1) == [2, 3, 6]
  {
    assert Members(AzureLRC, 4, 1, 2, 0) == Range(0, 2) + Range(4, 4) + [5];
    assert Members(AzureLRC, 4, 1, 2, 1) == Range(2, 4) + Range(4, 4) + [6];
  }

  lemma FewGlobals()
    ensures |Surviving([2, 3], 0, 5)| == 3
  {
    var f := [2, 3];
    assert Surviving(f, 0, 2) == [0, 1];
    assert Surviving(f, 0, 4) == [0, 1];
    assert Surviving(f, 0, 5) == [0, 1, 4];
  }

  /** The planner takes local parity 0, whose group is intact, and leaves out local parity 1, whose group is not. */
  lemma IntactTaken()
    ensures TakesIntact(AzureLRC, 4, 1, 2, [2, 3]) && !LeavesOutIntact(AzureLRC, 4, 1, 2, [2, 3])
  {
    hide Candidates, Surviving, Members;
    CandidatesAre();
    GroupsOfG();
    FewGlobals();
    var f := [2, 3];
    assert Intact(AzureLRC, 4, 1, 2, f, 0) && 4 + 1 + 0 in Candidates(4, 1, 2, f);
    assert Members(AzureLRC, 4, 1, 2, 1)[0] in f;
    assert LeftOut(4, 1, 2, f, 1) && !Intact(AzureLRC, 4, 1, 2, f, 1);
  }

  lemma SurvivorsAre()
    ensures Surviving([2, 3], 0, 7) == [0, 1, 4, 5, 6]
  {
    var f := [2, 3];
    assert Surviving(f, 0, 2) == [0, 1];
    assert Surviving(f, 0, 4) == [0, 1];
    assert Surviving(f, 0, 5) == [0, 1, 4];
    assert Surviving(f, 0, 6) == [0, 1, 4, 5];
  }

  /** Yet the survivors determine the data. */
  lemma StillDecodable()
    ensures Decodable(AzureLRC, 4, 1, 2, [2, 3])
  {
    hide Add, Mul, Dot, Surviving, Generator;
    RowsOfG();
    SurvivorsAre();
    var m := Pick(G, [0, 1, 4, 5, 6]);
    forall v: Vec | |v| == 4 && Kills(m, v)
      ensures v == Zeros(4)
    {
      assert m[0] == G[0] && m[1] == G[1] && m[2] == G[4] && m[4] == G[6];
      assert Dot(m[0], v) == 0 && Dot(m[1], v) == 0 && Dot(m[2], v) == 0 && Dot(m[4], v) == 0;
      KilledByAll(v);
    }
  }

  /** The planner refuses to repair blocks 2 and 3, although the other blocks determine them. */
  method RefusesDecodable() returns (ok: bool)
    ensures !ok && Decodable(AzureLRC, 4, 1, 2, [2, 3])
  {
    hide Decodable, TakesIntact, LeavesOutIntact, RepairsAlways, Generator;
    IntactTaken();
    StillDecodable();
    var chosen, factors;
    ok, chosen, factors := DecideDecodable(4, 1, 2, AzureLRC, [2, 3]);
  }

  lemma KilledByAll(v: Vec)
    requires |v| == 4
    requires Dot([1, 0, 0, 0], v) == 0 && Dot([0, 1, 0, 0], v) == 0
    requires Dot([1, 2, 4, 8], v) == 0 && Dot([0, 0, 1, 1], v) == 0
    ensures v == Zeros(4)
  {
    hide Add, Mul, Dot;
    assert Unit(4, 0) == [1, 0, 0, 0] && Unit(4, 1) == [0, 1, 0, 0];
    DotUnit(4, 0, v); DotUnit(4, 1, v);
    Dot4([1, 2, 4, 8], v); Dot4([0, 0, 1, 1], v);
    MulZeroLeft(v[0]); MulZeroLeft(v[1]); MulZeroRight(1); MulZeroRight(2);
    MulOne(v[2]); MulOne(v[3]); MulComm(1, v[2]); MulComm(1, v[3]);
    AddZero(0); AddZero(Add(v[2], v[3])); AddZero(Add(Mul(4, v[2]), Mul(8, v[3])));
    AddCancel(v[2], v[3]);
    MulAddLeft(4, 8, v[2]);
    Twelve();
    MulNonZero(12, v[2]);
  }

  lemma Twelve()
    ensures Add(4, 8) == 12
  {
  }

  // ---- A gap in the global parities ----

  // AzureLRC with k = 86, r = 4, z = 2; blocks 0 and 85 and global parities 1 and 2 have failed.
  const LOST := [0, 85, 87, 88]

  lemma LostAndKept()
    ensures LostData(86, LOST) == {0, 85} && |Surviving(LOST, 0, 90)| == 86
  {
    hide Surviving;
    GlobalCount(86, 4, LOST);
    assert Kept(LOST, 86, 90) == {86, 89};
  }

  /** Global parities 0 and 3 do not tell blocks 0 and 85 apart: 3 times 85 is 255. */
  lemma NotApart()
    ensures !PairApart(86, 4, LOST, 0, 85)
  {
    forall i: nat, j: nat | i < j < 4 && Survives(86, LOST, i) && Survives(86, LOST, j)
      ensures !Apart(0, 85, i, j)
    {
      assert i == 0 && j == 3;
    }
  }

  /** Each of the two lost blocks is the only loss of its group. */
  lemma LocalsRestore(p: nat)
    requires p == 0 || p == 85
    ensures Restored(AzureLRC, 86, 4, 2, Surviving(LOST, 0, 92), p)
  {
    hide Surviving;
    var ids := Surviving(LOST, 0, 92);
    forall c: nat | c < 86 && c != 0 && c != 85
      ensures c in ids
    {
      SurvivingIs(LOST, 0, 92, c);
    }
    SurvivingIs(LOST, 0, 92, 90);
    SurvivingIs(LOST, 0, 92, 91);
    assert GroupOfData(AzureLRC, 86, 4, 2, 0) == 0 && GroupOfData(AzureLRC, 86, 4, 2, 85) == 1;
  }

  lemma GapDecodable()
    ensures Decodable(AzureLRC, 86, 4, 2, LOST)
  {
    hide Surviving, Restored, Decodable;
    var ids := Surviving(LOST, 0, 92);
    forall p: nat | p < 86 && p !in ids
      ensures Restored(AzureLRC, 86, 4, 2, ids, p)
    {
      SurvivingIs(LOST, 0, 92, p);
      LocalsRestore(p);
    }
    assert Open(AzureLRC, 86, 4, 2, ids) == {};
    assert RunFrom(86, ids, 0, 0);
    EnoughDecodes(AzureLRC, 86, 4, 2, LOST);
  }

  /** The planner refuses two blocks that their local parities restore, as it takes two global parities instead. */
  method RefusesGap() returns (ok: bool)
    ensures !ok && Decodable(AzureLRC, 86, 4, 2, LOST)
  {
    hide Decodable, LostData, Surviving, PairApart;
    LostAndKept();
    NotApart();
    GapDecodable();
    ok := DecideTwoLost(86, 4, 2, AzureLRC, LOST, 0, 85);
  }
}

/**
 * When a refusal by the planner means that the data are lost.  The planner does
 * not look at every survivor: once it has k candidates it leaves the other
 * local parities out.  If those it leaves out belong to intact groups it loses
 * nothing; if it takes one of an intact group, it always refuses.
 */
module DecodeExact {
  import opened Gf256Tables
  import opened Gf256
  import opened LinearAlgebra
  import opened Generators
  import opened Encoding
  import opened DecodePlan
  import opened LocalRepair
  import Wrappers
  import opened DecodeRows
  import opened GlobalRows
  import opened DecodeAccepts

  // ---- What the survivors determine ----

  /** Two stripes with the same surviving blocks are the same stripe. */
  ghost predicate Decodable(code: CodeType, k: nat, r: nat, z: nat, failed: seq<nat>)
    requires ValidShape(code, k, r, z)
  {
    !Singular(Pick(Generator(code, k, r, z), Surviving(failed, 0, k + r + z)), k)
  }

  /** The whole repair group of local parity g has survived. */
  predicate Intact(code: CodeType, k: nat, r: nat, z: nat, failed: seq<nat>, g: nat)
    requires z > 0 && g < z
  {
    forall i :: 0 <= i < |Members(code, k, r, z, g)| ==> Members(code, k, r, z, g)[i] !in failed
  }

  /** Local parity g has survived but is no candidate. */
  predicate LeftOut(k: nat, r: nat, z: nat, failed: seq<nat>, g: nat) {
    g < z && k + r + g !in failed && k + r + g !in Candidates(k, r, z, failed)
  }

  /** The planner leaves out only local parities of intact groups. */
  predicate LeavesOutIntact(code: CodeType, k: nat, r: nat, z: nat, failed: seq<nat>)
    requires z > 0
  {
    forall g: nat :: g < z && LeftOut(k, r, z, failed, g) ==> Intact(code, k, r, z, failed, g)
  }

  /** The planner tops up its candidates, and with a local parity of an intact group. */
  predicate TakesIntact(code: CodeType, k: nat, r: nat, z: nat, failed: seq<nat>)
    requires z > 0
  {
    |Surviving(failed, 0, k + r)| < k &&
    exists g: nat :: g < z && Intact(code, k, r, z, failed, g) && k + r + g in Candidates(k, r, z, failed)
  }

  /** What the other members of a group send to zero, its local parity does too. */
  lemma LocalFollows(code: CodeType, k: nat, r: nat, z: nat, g: nat, v: Vec)
    requires ValidShape(code, k, r, z) && g < z && |v| == k
    requires var ids := Members(code, k, r, z, g);
      forall i :: 0 <= i < |ids| - 1 ==> Dot(Generator(code, k, r, z)[ids[i]], v) == 0
    ensures Dot(Generator(code, k, r, z)[k + r + g], v) == 0
  {
    hide Combine, Dot, Members, Generator, WeightsOf;
    var ids := Members(code, k, r, z, g);
    var w, rows := WeightsOf(code, k, r, ids), Pick(Generator(code, k, r, z), ids);
    var last := |ids| - 1;
    MembersAre(code, k, r, z, g);
    GroupRowsVanish(code, k, r, z, g);
    DotZeros(v);
    CombineDot(w, rows, v);
    var d := Dot(rows[last], v);
    assert Apply(rows, v) == VScale(d, Unit(|ids|, last)) by { OnlyLast(rows, v); }
    DotComm(w, VScale(d, Unit(|ids|, last)));
    DotScaleLeft(d, Unit(|ids|, last), w);
    DotUnit(|ids|, last, w);
    LastWeight(code, k, r, ids);
    MulOne(d);
  }

  lemma LastWeight(code: CodeType, k: nat, r: nat, ids: seq<nat>)
    requires ids != [] && ids[|ids| - 1] >= k
    ensures WeightsOf(code, k, r, ids)[|ids| - 1] == 1
  {
  }

  lemma OnlyLast(rows: Matrix, v: Vec)
    requires rows != [] && IsMatrix(rows, |rows|, |v|)
    requires forall i :: 0 <= i < |rows| - 1 ==> Dot(rows[i], v) == 0
    ensures Apply(rows, v) == VScale(Dot(rows[|rows| - 1], v), Unit(|rows|, |rows| - 1))
  {
    hide Dot, Mul;
    var d := Dot(rows[|rows| - 1], v);
    MulOne(d);
    MulZeroRight(d);
  }

  /** A local parity of an intact group adds nothing to the global rows. */
  lemma IntactFollows(code: CodeType, k: nat, r: nat, z: nat, failed: seq<nat>, g: nat, v: Vec)
    requires ValidShape(code, k, r, z) && g < z && |v| == k && Intact(code, k, r, z, failed, g)
    requires forall id: nat :: id < k + r && id !in failed ==> Dot(Generator(code, k, r, z)[id], v) == 0
    ensures Dot(Generator(code, k, r, z)[k + r + g], v) == 0
  {
    hide Members, Generator, Dot;
    MembersAre(code, k, r, z, g);
    LocalFollows(code, k, r, z, g, v);
  }

  // ---- When refusing is right ----

  /** What all candidates send to zero, all survivors do. */
  lemma CandidatesKill(code: CodeType, k: nat, r: nat, z: nat, failed: seq<nat>, v: Vec)
    requires ValidShape(code, k, r, z) && |v| == k && LeavesOutIntact(code, k, r, z, failed)
    requires Kills(CandidateRows(code, k, r, z, failed), v)
    ensures Kills(Pick(Generator(code, k, r, z), Surviving(failed, 0, k + r + z)), v)
  {
    hide Dot, Generator, Candidates, Surviving, Intact, Pick;
    var g := Generator(code, k, r, z);
    KillsListed(g, Candidates(k, r, z, failed), v);
    KillsListed(g, Surviving(failed, 0, k + r + z), v);
    forall id: nat | id < k + r && id !in failed
      ensures Dot(g[id], v) == 0
    {
      GlobalsAreCandidates(k, r, z, failed, id);
    }
    forall id: nat | id in Surviving(failed, 0, k + r + z)
      ensures Dot(g[id], v) == 0
    {
      SurvivingIs(failed, 0, k + r + z, id);
      if id >= k + r && id !in Candidates(k, r, z, failed) {
        assert LeftOut(k, r, z, failed, id - k - r);
        IntactFollows(code, k, r, z, failed, id - k - r, v);
      }
    }
  }

  /** Candidates are survivors. */
  lemma SurvivorsKill(code: CodeType, k: nat, r: nat, z: nat, failed: seq<nat>, v: Vec)
    requires ValidShape(code, k, r, z) && |v| == k
    requires Kills(Pick(Generator(code, k, r, z), Surviving(failed, 0, k + r + z)), v)
    ensures Kills(CandidateRows(code, k, r, z, failed), v)
  {
    hide Dot, Generator, Candidates, Surviving, Pick;
    var g := Generator(code, k, r, z);
    KillsListed(g, Candidates(k, r, z, failed), v);
    KillsListed(g, Surviving(failed, 0, k + r + z), v);
    forall id: nat | id in Candidates(k, r, z, failed)
      ensures Dot(g[id], v) == 0
    {
      SurvivingIs(failed, 0, k + r + z, id);
    }
  }

  /** What the candidates determine, the survivors do; the converse holds if only intact groups are left out. */
  lemma CandidatesDecide(code: CodeType, k: nat, r: nat, z: nat, failed: seq<nat>)
    requires ValidShape(code, k, r, z)
    ensures !Singular(CandidateRows(code, k, r, z, failed), k) ==> Decodable(code, k, r, z, failed)
    ensures LeavesOutIntact(code, k, r, z, failed) && Decodable(code, k, r, z, failed) ==>
      !Singular(CandidateRows(code, k, r, z, failed), k) && |Candidates(k, r, z, failed)| >= k
  {
    hide Kills, Generator, Candidates, Surviving, Pick, LeavesOutIntact;
    var rows, all := CandidateRows(code, k, r, z, failed), Pick(Generator(code, k, r, z),
                                   Surviving(failed, 0, k + r + z));
    PickShape(Generator(code, k, r, z), Surviving(failed, 0, k + r + z), k);
    forall v: Vec | |v| == k && Kills(all, v)
      ensures Kills(rows, v)
    {
      SurvivorsKill(code, k, r, z, failed, v);
    }
    if LeavesOutIntact(code, k, r, z, failed) {
      forall v: Vec | |v| == k && Kills(rows, v)
        ensures Kills(all, v)
      {
        CandidatesKill(code, k, r, z, failed, v);
      }
      if |rows| < k {
        FewRowsSingular(rows, k);
      }
    }
  }

  // ---- When refusing is certain ----

  /** Topping up ends with k candidates at most. */
  lemma ToppedUp(k: nat, r: nat, z: nat, failed: seq<nat>)
    requires |Surviving(failed, 0, k + r)| < k
    ensures |Candidates(k, r, z, failed)| <= k
  {
    hide Surviving;
  }

  /** Candidates with a local parity of an intact group are dependent. */
  lemma IntactWastes(code: CodeType, k: nat, r: nat, z: nat, failed: seq<nat>)
    requires ValidShape(code, k, r, z) && TakesIntact(code, k, r, z, failed)
    ensures Singular(CandidateRows(code, k, r, z, failed), k)
  {
    hide Dot, Generator, Candidates, Surviving, Intact, Kills, Pick;
    var gen, ids := Generator(code, k, r, z), Candidates(k, r, z, failed);
    var g: nat :| g < z && Intact(code, k, r, z, failed, g) && k + r + g in ids;
    var i :| 0 <= i < |ids| && ids[i] == k + r + g;
    ToppedUp(k, r, z, failed);
    var rest := Without(ids, i);
    var m := Pick(gen, rest);
    assert IsMatrix(m, |m|, k) by { PickShape(gen, rest, k); }
    FewRowsSingular(m, k);
    var v: Vec :| |v| == k && v != Zeros(k) && Kills(m, v);
    KillsListed(gen, rest, v);
    forall x | 0 <= x < |ids| && x != i
      ensures Dot(gen[ids[x]], v) == 0
    {
      assert rest[if x < i then x else x - 1] == ids[x];
    }
    RestDecides(code, k, r, z, failed, g, i, v);
  }

  /** Without the local parity of an intact group the candidates say as much as with it. */
  lemma RestDecides(code: CodeType, k: nat, r: nat, z: nat, failed: seq<nat>, g: nat, i: nat, v: Vec)
    requires ValidShape(code, k, r, z) && g < z && Intact(code, k, r, z, failed, g) && |v| == k
    requires i < |Candidates(k, r, z, failed)| && Candidates(k, r, z, failed)[i] == k + r + g
    requires forall x :: 0 <= x < |Candidates(k, r, z, failed)| && x != i ==>
      Dot(Generator(code, k, r, z)[Candidates(k, r, z, failed)[x]], v) == 0
    ensures Kills(CandidateRows(code, k, r, z, failed), v)
  {
    hide Dot, Generator, Candidates, Surviving, Intact, Kills, Pick;
    var gen, ids := Generator(code, k, r, z), Candidates(k, r, z, failed);
    forall id: nat | id < k + r && id !in failed
      ensures Dot(gen[id], v) == 0
    {
      GlobalsAreCandidates(k, r, z, failed, id);
      var x :| 0 <= x < |ids| && ids[x] == id;
    }
    IntactFollows(code, k, r, z, failed, g, v);
    KillsListed(gen, ids, v);
    forall id: nat | id in ids
      ensures Dot(gen[id], v) == 0
    {
      var x :| 0 <= x < |ids| && ids[x] == id;
    }
  }

  /**
   * `get_multi_decode_plan` and what it should decide.  It never accepts what
   * cannot be decoded; if it leaves out only local parities of intact groups it
   * refuses exactly what cannot be decoded; if it takes one of an intact group
   * to reach k candidates, it refuses whatever the rest.  It accepts whenever
   * the candidates are enough: in particular, k survivors among the data and
   * global parities of a code with Cauchy rows; and with rows of powers, as
   * many global parities in a row as data blocks are lost - then exactly if all
   * lost blocks have different points, as they do up to k = 255.
   */
  method DecideDecodable(k: nat, r: nat, z: nat, code: CodeType, failed: seq<nat>)
      returns (ok: bool, chosen: seq<nat>, factors: Matrix)
    requires ValidShape(code, k, r, z) && forall i :: 0 <= i < |failed| ==> failed[i] < k + r + z
    ensures ok ==> Decodable(code, k, r, z, failed)
    ensures LeavesOutIntact(code, k, r, z, failed) ==> (ok <==> Decodable(code, k, r, z, failed))
    ensures TakesIntact(code, k, r, z, failed) ==> !ok
    ensures Enough(code, k, r, z, Candidates(k, r, z, failed)) ==> ok
    ensures Cauchylike(code) && k + r <= 256 && |Surviving(failed, 0, k + r)| >= k ==> ok
    ensures !Cauchylike(code) && RunSurvives(k, r, failed, |LostData(k, failed)|) ==>
      (ok <==> PointsDiffer(LostData(k, failed))) && (k <= 255 ==> ok)
    ensures ok ==> |chosen| == k && IsMatrix(factors, |failed|, k)
    ensures ok ==> forall i :: 0 <= i < k ==> chosen[i] < k + r + z && chosen[i] !in failed
    ensures ok ==> RepairsAlways(Generator(code, k, r, z), k, failed, chosen, factors)
  {
    hide Generator, Candidates, Singular, RepairsAlways, Decodable, LeavesOutIntact, TakesIntact, Pick, Enough,
         Surviving,
         LostData, PointsDiffer, RunSurvives;
    CandidatesDecide(code, k, r, z, failed);
    if TakesIntact(code, k, r, z, failed) {
      IntactWastes(code, k, r, z, failed);
    }
    AcceptsEnough(code, k, r, z, failed);
    ok, chosen, factors := GetMultiDecodePlan(k, r, z, Wrappers.Some(code), failed);
  }

  /** The conditions under which the candidates determine the data. */
  lemma AcceptsEnough(code: CodeType, k: nat, r: nat, z: nat, failed: seq<nat>)
    requires ValidShape(code, k, r, z)
    ensures var decided := |Candidates(k, r, z, failed)| >= k && !Singular(CandidateRows(code, k, r, z, failed), k);
      (Enough(code, k, r, z, Candidates(k, r, z, failed)) ==> decided) &&
      (Cauchylike(code) && k + r <= 256 && |Surviving(failed, 0, k + r)| >= k ==> decided) &&
      (!Cauchylike(code) && RunSurvives(k, r, failed, |LostData(k, failed)|) ==>
        (decided <==> PointsDiffer(LostData(k, failed))) && (k <= 255 ==> decided))
  {
    hide Generator, Candidates, Singular, Pick, Enough, Surviving, LostData, RunSurvives;
    if Cauchylike(code) {
      if k + r <= 256 && |Surviving(failed, 0, k + r)| >= k {
        CauchyAccepted(code, k, r, z, failed);
      }
    } else if RunSurvives(k, r, failed, |LostData(k, failed)|) {
      RunDecides(code, k, r, z, failed);
      if k <= 255 {
        SmallPointsDiffer(k, failed);
      }
    }
    if Enough(code, k, r, z, Candidates(k, r, z, failed)) {
      EnoughIndependent(code, k, r, z, Candidates(k, r, z, failed));
    }
  }

  lemma SmallPointsDiffer(k: nat, failed: seq<nat>)
    requires k <= 255
    ensures PointsDiffer(LostData(k, failed))
  {
  }

  /**
   * Two lost data blocks, and k survivors among data and global parities: the
   * planner accepts if and only if two of the surviving global parities tell
   * the lost blocks apart.
   */
  method DecideTwoLost(k: nat, r: nat, z: nat, code: CodeType, failed: seq<nat>, ghost p: nat, ghost q: nat)
      returns (ok: bool)
    requires ValidShape(code, k, r, z) && !Cauchylike(code) && forall i :: 0 <= i < |failed| ==> failed[i] < k + r + z
    requires p < q && LostData(k, failed) == {p, q} && |Surviving(failed, 0, k + r)| >= k
    ensures ok <==> PairApart(k, r, failed, p, q)
  {
    hide Generator, Candidates, Singular, RepairsAlways, Pick, Surviving, LostData, PairApart;
    TwoLostDecides(code, k, r, z, failed, p, q);
    NoLocals(k, r, z, failed);
    var chosen, factors;
    ok, chosen, factors := GetMultiDecodePlan(k, r, z, Wrappers.Some(code), failed);
  }

  /** Survivors that are enough decode, whether the planner looks at them or not. */
  lemma EnoughDecodes(code: CodeType, k: nat, r: nat, z: nat, failed: seq<nat>)
    requires ValidShape(code, k, r, z) && Enough(code, k, r, z, Surviving(failed, 0, k + r + z))
    ensures Decodable(code, k, r, z, failed)
  {
    hide Generator, Singular, Pick, Enough, Surviving;
    EnoughIndependent(code, k, r, z, Surviving(failed, 0, k + r + z));
  }

  /** If every survivor is a candidate, nothing is left out. */
  lemma AllTaken(code: CodeType, k: nat, r: nat, z: nat, failed: seq<nat>)
    requires z > 0
    requires |Surviving(failed, k + r, k + r + z)| == 0 || |Surviving(failed, 0, k + r)| + |Surviving(failed, k + r, k + r + z)| <= k
    ensures LeavesOutIntact(code, k, r, z, failed)
  {
    hide Surviving, Intact;
    forall g: nat | g < z
      ensures !LeftOut(k, r, z, failed, g)
    {
      SurvivingIs(failed, k + r, k + r + z, k + r + g);
    }
  }

  // ---- What decodable means ----

  /** If the survivors leave a choice, some stripe other than the zero stripe has all of them zero. */
  lemma NotDecodable(code: CodeType, k: nat, r: nat, z: nat, failed: seq<nat>) returns (data: Matrix)
    requires ValidShape(code, k, r, z) && !Decodable(code, k, r, z, failed)
    ensures IsMatrix(data, k, 1) && data != ZeroBlocks(k, 1)
    ensures forall id: nat :: id < k + r + z && id !in failed ==>
      Encode(Generator(code, k, r, z), data, 1)[id] == Zeros(1)
  {
    hide Dot, Generator, Surviving, Combine;
    var g, ids := Generator(code, k, r, z), Surviving(failed, 0, k + r + z);
    var v: Vec :| |v| == k && v != Zeros(k) && Kills(Pick(g, ids), v);
    KillsListed(g, ids, v);
    data := seq(k, i requires 0 <= i < k => [v[i]]);
    assert data != ZeroBlocks(k, 1) by { SomeEntry(v, data); }
    forall id: nat | id < k + r + z && id !in failed
      ensures Encode(g, data, 1)[id] == Zeros(1)
    {
      SurvivingIs(failed, 0, k + r + z, id);
      CombineAt(g[id], data, 1, 0);
      assert Column(data, 1, 0) == v;
      assert Encode(g, data, 1)[id] == Combine(g[id], data, 1);
    }
  }

  lemma SomeEntry(v: Vec, data: Matrix)
    requires |data| == |v| && v != Zeros(|v|) && forall i :: 0 <= i < |v| ==> data[i] == [v[i]]
    ensures data != ZeroBlocks(|v|, 1)
  {
    var i :| 0 <= i < |v| && v[i] != Zeros(|v|)[i];
    assert data[i][0] != ZeroBlocks(|v|, 1)[i][0];
  }
}

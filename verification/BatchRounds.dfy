/**
 * The client's merge rounds on full batches: every pair passes the guards, no
 * data block moves, and after round q the multiples of 2^q are left.
 */
module BatchRounds {
  import opened MergeConfig
  import opened TailUnionFind
  import opened TailLayout
  import opened BatchLayout
  import opened BatchPlan
  import opened BatchData
  import opened MergeParity
  import opened MergePlan
  import T = MergeTables
  import opened MergeTables
  import opened MergeCommit
  import opened MergeTasks
  import opened MergeFiles
  import opened MergeProtocol
  import opened MergeRuns
  import opened Arithmetic

  /** What does not change over the rounds. */
  datatype Plan = Plan(bt: Batch, o: Arrays, overlaps: seq<int>)

  /** Stripe s at a level: its place in its batch follows from its number. */
  ghost predicate InPlace(pl: Plan, t: Tables, s: nat, level: nat)
    requires Setting(pl.bt, pl.o, t)
  {
    StripeLaidOut(pl.bt, pl.o, t, s, level) &&
    var st, size := t.stripes[s], Pow2(|pl.bt.share|);
    st.batch == Run(size, s) && st.pos == Within(size, s) && st.rounds == |pl.bt.share| && st.overlaps == pl.overlaps
  }

  /** s is the j-th multiple of w for some lo <= j < hi. */
  ghost predicate MultipleIn(s: nat, w: nat, lo: nat, hi: nat) {
    exists j: nat :: lo <= j < hi && s == Offset(w, j)
  }

  /** The stripe numbers are the first `count` multiples of w. */
  ghost predicate Multiples(ids: set<nat>, w: nat, count: nat) {
    (forall j: nat :: j < count ==> Offset(w, j) in ids) && forall s :: s in ids ==> MultipleIn(s, w, 0, count)
  }

  /** All stripes of `batches` full batches have been merged `level` times. */
  ghost predicate AtLevel(pl: Plan, t: Tables, batches: nat, level: nat) {
    level <= |pl.bt.share| && Setting(pl.bt, pl.o, t) &&
    Multiples(t.stripes.Keys, Pow2(level), Offset(Pow2(|pl.bt.share| - level), batches)) &&
    forall s :: s in t.stripes ==> InPlace(pl, t, s, level)
  }

  /** During a round: the first `pairs` pairs are merged. */
  ghost predicate PartlyMerged(pl: Plan, t: Tables, batches: nat, level: nat, pairs: nat) {
    0 < level <= |pl.bt.share| && Setting(pl.bt, pl.o, t) &&
    var w, count := Pow2(level - 1), Offset(Pow2(|pl.bt.share| - level), batches);
    pairs <= count &&
    (forall j: nat :: j < pairs ==> Offset(2 * w, j) in t.stripes && InPlace(pl, t, Offset(2 * w, j), level)) &&
    (forall j: nat :: 2 * pairs <= j < 2 * count ==> Offset(w, j) in t.stripes && InPlace(pl, t, Offset(w, j), level - 1)) &&
    forall s :: s in t.stripes ==> MultipleIn(s, 2 * w, 0, pairs) || MultipleIn(s, w, 2 * pairs, 2 * count)
  }

  // ---- Numbers ----

  lemma OffsetTwice(w: nat, j: nat)
    ensures Offset(2 * w, j) == Offset(w, 2 * j) && Offset(w, 2 * j + 1) == Offset(2 * w, j) + w
  {
    OffsetIs(2 * w, j); OffsetIs(w, 2 * j); OffsetIs(w, 2 * j + 1);
    assert j * (2 * w) == (2 * j) * w && (2 * j + 1) * w == (2 * j) * w + w;
  }

  lemma {:induction false} PowSplit(n: nat, level: nat)
    requires level <= n
    ensures Offset(Pow2(level), Pow2(n - level)) == Pow2(n)
    decreases n - level
  {
    if level == n {
      OffsetIs(Pow2(level), 1);
    } else {
      PowSplit(n, level + 1);
      OffsetTwice(Pow2(level), Pow2(n - level - 1));
    }
  }

  lemma OffsetOffset(w: nat, u: nat, q: nat, r: nat)
    ensures Offset(w, Offset(u, q) + r) == Offset(Offset(w, u), q) + Offset(w, r)
  {
    OffsetAdds(w, Offset(u, q), r);
    OffsetIs(w, Offset(u, q)); OffsetIs(u, q); OffsetIs(w, u); OffsetIs(Offset(w, u), q);
    ProductGroups(q, u, w);
  }

  lemma ProductGroups(q: nat, u: nat, w: nat)
    ensures q * u * w == q * (u * w)
  {
  }

  /** Two neighbouring multiples of w, the first of them a multiple of 2w, lie in one batch. */
  lemma NeighbourNumbers(n: nat, level: nat, j: nat)
    requires 0 < level <= n
    ensures var w, size, a := Pow2(level - 1), Pow2(n), Offset(2 * Pow2(level - 1), j);
      Run(size, a + w) == Run(size, a) && Within(size, a + w) == Within(size, a) + w
  {
    hide Run, Within, Offset;
    var w, size, u := Pow2(level - 1), Pow2(n), Pow2(n - level);
    var a := Offset(2 * w, j);
    PowSplit(n, level);
    RunIs(u, j);
    OffsetOffset(2 * w, u, Run(u, j), Within(u, j));
    OffsetUnique(2 * w, Within(u, j), w, u, 0);
    RunUnique(size, Run(u, j), Offset(2 * w, Within(u, j)));
    RunUnique(size, Run(u, j), Offset(2 * w, Within(u, j)) + w);
  }

  // ---- One pair ----

  /** The next pair passes the guards and is at rest. */
  lemma PairReady(baseK: nat, pl: Plan, t: Tables, batches: nat, level: nat, pairs: nat, nodeRow: seq<int>)
    requires Sane(baseK, t) && baseK == DataBlocks(pl.bt) && PartlyMerged(pl, t, batches, level, pairs)
    requires pairs < Offset(Pow2(|pl.bt.share| - level), batches)
    ensures var w := Pow2(level - 1);
      var a, b := Offset(w, 2 * pairs), Offset(w, 2 * pairs + 1);
      Guarded(baseK, t, a, b, level) && AtRest(t, a, b, nodeRow) && Neighbours(pl.bt, pl.o, t, a, b, level - 1) &&
      a == Offset(2 * w, pairs) && a != b
  {
    hide Sane, Setting, StripeLaidOut, Offset, Run, Within, WellFormed, TaskId, TaskRound;
    var w := Pow2(level - 1);
    var a, b := Offset(w, 2 * pairs), Offset(w, 2 * pairs + 1);
    OffsetTwice(w, pairs);
    NeighbourNumbers(|pl.bt.share|, level, pairs);
    assert InPlace(pl, t, a, level - 1) && InPlace(pl, t, b, level - 1);
    PairAdjacent(baseK, pl, t, a, b, level);
    AdjacentMergeable(baseK, t, a, b, level);
    PairUndisturbed(baseK, pl.bt, pl.o, t, a, b, level - 1, level, nodeRow);
  }

  lemma PairAdjacent(baseK: nat, pl: Plan, t: Tables, a: nat, b: nat, level: nat)
    requires Setting(pl.bt, pl.o, t) && Sane(baseK, t) && baseK == DataBlocks(pl.bt) && 0 < level <= |pl.bt.share|
    requires InPlace(pl, t, a, level - 1) && InPlace(pl, t, b, level - 1)
    requires t.stripes[a].batch == t.stripes[b].batch && t.stripes[a].pos + Pow2(level - 1) == t.stripes[b].pos
    ensures Guarded(baseK, t, a, b, level)
  {
    hide Setting, Offset, Run, Within, BlockLaidOut, BlockOk, AllPlaced, RacksOk, DataKeysDiffer, DataBlocks, Pow2;
    assert StripeOk(baseK, t, a) && StripeOk(baseK, t, b);
    OffsetIs(DataBlocks(pl.bt), Pow2(level - 1));
    Commute(Pow2(level - 1), baseK);
  }

  /** Merging it makes one more pair. */
  lemma PairMerged(baseK: nat, pl: Plan, t: Tables, t': Tables, batches: nat, level: nat, pairs: nat,
                   places: map<nat, Place>, task: nat)
    requires Sane(baseK, t) && baseK == DataBlocks(pl.bt) && PartlyMerged(pl, t, batches, level, pairs)
    requires pairs < Offset(Pow2(|pl.bt.share| - level), batches)
    requires var a, b := Offset(Pow2(level - 1), 2 * pairs), Offset(Pow2(level - 1), 2 * pairs + 1);
      Mergeable(baseK, t, a, b, level) && Committed(baseK, t, t', a, b, places, task) && places == CurrentPlaces(t, a, b)
    ensures PartlyMerged(pl, t', batches, level, pairs + 1)
  {
    hide Sane, Setting, InPlace, Offset, Run, Within, WellFormed, Mergeable, Committed, CurrentPlaces, AtRest, Guarded;
    var w := Pow2(level - 1);
    var a, b := Offset(w, 2 * pairs), Offset(w, 2 * pairs + 1);
    PairReady(baseK, pl, t, batches, level, pairs, []);
    SettingStays(baseK, pl.bt, pl.o, t, t', a, b, places, task);
    StripesAfter(baseK, t, t', a, b, level, places, task);
    MergedInPlace(baseK, pl, t, t', a, b, level, places, task) by { assert InPlace(pl, t, a, level - 1); }
    forall j: nat | j < pairs + 1
      ensures Offset(2 * w, j) in t'.stripes && InPlace(pl, t', Offset(2 * w, j), level)
    {
      OtherNumbers(w, pairs, j);
      if j < pairs {
        OtherInPlace(baseK, pl, t, t', a, b, level, places, task, Offset(2 * w, j), level);
      }
    }
    forall j: nat | 2 * (pairs + 1) <= j < 2 * Offset(Pow2(|pl.bt.share| - level), batches)
      ensures Offset(w, j) in t'.stripes && InPlace(pl, t', Offset(w, j), level - 1)
    {
      OtherNumbers(w, pairs, j);
      OtherInPlace(baseK, pl, t, t', a, b, level, places, task, Offset(w, j), level - 1);
    }
    forall s | s in t'.stripes
      ensures MultipleIn(s, 2 * w, 0, pairs + 1) ||
        MultipleIn(s, w, 2 * (pairs + 1), 2 * Offset(Pow2(|pl.bt.share| - level), batches))
    {
      RemainingNumber(pl, t, batches, level, pairs, s, a, b);
    }
  }

  lemma RemainingNumber(pl: Plan, t: Tables, batches: nat, level: nat, pairs: nat, s: nat, a: nat, b: nat)
    requires PartlyMerged(pl, t, batches, level, pairs) && s in t.stripes && s != b
    requires a == Offset(Pow2(level - 1), 2 * pairs) == Offset(2 * Pow2(level - 1), pairs)
    requires b == Offset(Pow2(level - 1), 2 * pairs + 1)
    ensures MultipleIn(s, 2 * Pow2(level - 1), 0, pairs + 1) ||
      MultipleIn(s, Pow2(level - 1), 2 * (pairs + 1), 2 * Offset(Pow2(|pl.bt.share| - level), batches))
  {
    hide Setting, InPlace, Offset;
    var w := Pow2(level - 1);
    if MultipleIn(s, 2 * w, 0, pairs) {
      var j: nat :| j < pairs && s == Offset(2 * w, j);
      assert MultipleIn(s, 2 * w, 0, pairs + 1);
    } else {
      var i: nat :| 2 * pairs <= i < 2 * Offset(Pow2(|pl.bt.share| - level), batches) && s == Offset(w, i);
      if i == 2 * pairs {
        assert s == Offset(2 * w, pairs);
      } else {
        assert i >= 2 * (pairs + 1);
      }
    }
  }

  /** The numbers of other stripes. */
  lemma OtherNumbers(w: nat, pairs: nat, j: nat)
    requires w > 0
    ensures j != 2 * pairs && j != 2 * pairs + 1 ==>
      Offset(w, j) != Offset(w, 2 * pairs) && Offset(w, j) != Offset(w, 2 * pairs + 1)
    ensures j != pairs ==> Offset(2 * w, j) != Offset(w, 2 * pairs) && Offset(2 * w, j) != Offset(w, 2 * pairs + 1)
  {
    hide Offset;
    OffsetTwice(w, j);
    OffsetUnique(w, j, 0, 2 * pairs, 0);
    OffsetUnique(w, j, 0, 2 * pairs + 1, 0);
    OffsetUnique(w, 2 * j, 0, 2 * pairs, 0);
    OffsetUnique(w, 2 * j, 0, 2 * pairs + 1, 0);
  }

  lemma StripesAfter(baseK: nat, t: Tables, t': Tables, a: nat, b: nat, round: nat, places: map<nat, Place>, task: nat)
    requires Mergeable(baseK, t, a, b, round) && Committed(baseK, t, t', a, b, places, task)
    ensures forall s :: s in t'.stripes <==> s in t.stripes && s != b
    ensures a in t.stripes && b in t.stripes && a != b
    ensures t.stripes[a].k <= |t.stripes[a].blocks| && t.stripes[b].k <= |t.stripes[b].blocks|
  {
    assert StripeOk(baseK, t, a) && StripeOk(baseK, t, b);
  }

  lemma MergedInPlace(baseK: nat, pl: Plan, t: Tables, t': Tables, a: nat, b: nat, level: nat, places: map<nat, Place>,
                      task: nat)
    requires Setting(pl.bt, pl.o, t) && Setting(pl.bt, pl.o, t') && 0 < level <= |pl.bt.share|
    requires Neighbours(pl.bt, pl.o, t, a, b, level - 1) && InPlace(pl, t, a, level - 1)
    requires Mergeable(baseK, t, a, b, level) && Committed(baseK, t, t', a, b, places, task)
    requires t.stripes[a].k <= |t.stripes[a].blocks| && t.stripes[b].k <= |t.stripes[b].blocks|
    requires places == CurrentPlaces(t, a, b)
    ensures InPlace(pl, t', a, level)
  {
    hide Setting, StripeLaidOut, Neighbours, CurrentPlaces, BlocksCommitted, IndexesCommitted, AllStripesOk, Offset,
         Run, Within;
    MergedLaidOut(baseK, pl.bt, pl.o, t, t', a, b, level - 1, level, places, task);
  }

  lemma OtherInPlace(baseK: nat, pl: Plan, t: Tables, t': Tables, a: nat, b: nat, round: nat, places: map<nat, Place>,
                     task: nat,
                     s: nat, level: nat)
    requires Setting(pl.bt, pl.o, t) && Setting(pl.bt, pl.o, t') && InPlace(pl, t, s, level) && s != a && s != b
    requires Mergeable(baseK, t, a, b, round) && Committed(baseK, t, t', a, b, places, task)
    ensures s in t'.stripes && InPlace(pl, t', s, level)
  {
    hide Setting, StripeLaidOut, Mergeable, Committed, Run, Within;
    OtherLaidOut(baseK, pl.bt, pl.o, t, t', a, b, round, places, task, s, level);
    SStays(pl, t', s, level);
  }

  lemma SStays(pl: Plan, t: Tables, s: nat, level: nat)
    requires Setting(pl.bt, pl.o, t) && StripeLaidOut(pl.bt, pl.o, t, s, level)
    ensures s in t.stripes
  {
  }

  // ---- Rounds ----

  lemma RoundBegins(pl: Plan, t: Tables, batches: nat, level: nat)
    requires 0 < level <= |pl.bt.share| && AtLevel(pl, t, batches, level - 1)
    ensures PartlyMerged(pl, t, batches, level, 0)
    ensures Multiples(t.stripes.Keys, Pow2(level - 1), 2 * Offset(Pow2(|pl.bt.share| - level), batches))
  {
    hide Setting, InPlace, Offset;
    TwiceAsMany(|pl.bt.share|, level, batches);
  }

  lemma TwiceAsMany(n: nat, level: nat, batches: nat)
    requires 0 < level <= n
    ensures Offset(Pow2(n - (level - 1)), batches) == 2 * Offset(Pow2(n - level), batches)
  {
    hide Offset;
    OffsetIs(Pow2(n - (level - 1)), batches); OffsetIs(Pow2(n - level), batches);
    assert batches * (2 * Pow2(n - level)) == 2 * (batches * Pow2(n - level));
  }

  lemma RoundEnds(pl: Plan, t: Tables, batches: nat, level: nat)
    requires level <= |pl.bt.share| && PartlyMerged(pl, t, batches, level, Offset(Pow2(|pl.bt.share| - level), batches))
    ensures AtLevel(pl, t, batches, level)
  {
    hide Setting, InPlace, Offset;
    var w, count := Pow2(level - 1), Offset(Pow2(|pl.bt.share| - level), batches);
    assert Pow2(level) == 2 * w;
    forall s | s in t.stripes
      ensures MultipleIn(s, 2 * w, 0, count) && InPlace(pl, t, s, level)
    {
      assert MultipleIn(s, 2 * w, 0, count);
      var j: nat :| j < count && s == Offset(2 * w, j);
    }
  }

  predicate Ascending(ids: seq<nat>) {
    forall i, j :: 0 <= i < j < |ids| ==> ids[i] < ids[j]
  }

  /** The stripe numbers in ascending order, as the client sorts them. */
  method SortedIds(ids: set<nat>) returns (sorted: seq<nat>)
    ensures Ascending(sorted) && forall s :: s in ids <==> s in sorted
  {
    sorted := [];
    var rest := ids;
    while rest != {}
      invariant rest <= ids && Ascending(sorted)
      invariant forall s :: s in ids <==> s in sorted || s in rest
      invariant forall s, x :: s in sorted && x in rest ==> s < x
      decreases rest
    {
      ghost var least := LeastExists(rest);
      var s :| s in rest && forall x :: x in rest ==> s <= x;
      assert forall i :: 0 <= i < |sorted| ==> sorted[i] in sorted;
      sorted := sorted + [s];
      rest := rest - {s};
    }
  }

  lemma HasElement(s: seq<nat>)
    requires s != []
    ensures exists x :: x in s
  {
    assert s[0] in s;
  }

  /** Sorted, the first multiples of w are in their places. */
  lemma {:induction false} SortedMultiples(sorted: seq<nat>, w: nat, count: nat)
    requires Ascending(sorted) && w > 0
    requires forall j: nat :: j < count ==> Offset(w, j) in sorted
    requires forall s :: s in sorted ==> MultipleIn(s, w, 0, count)
    ensures |sorted| == count && forall i: nat :: i < count ==> sorted[i] == Offset(w, i)
    decreases count
  {
    hide Offset;
    if count == 0 {
      if sorted != [] {
        HasElement(sorted);
      }
    } else {
      GreatestMultiple(sorted, w, count);
      var init := sorted[..|sorted| - 1];
      WithoutGreatest(sorted, init, w, count, count - 1);
      SortedMultiples(init, w, count - 1);
    }
  }

  /** Without the greatest, the others remain. */
  lemma WithoutGreatest(sorted: seq<nat>, init: seq<nat>, w: nat, count: nat, less: nat)
    requires Ascending(sorted) && w > 0 && count == less + 1 && sorted != [] && sorted[|sorted| - 1] == Offset(w, less)
    requires init == sorted[..|sorted| - 1]
    requires forall j: nat :: j < count ==> Offset(w, j) in sorted
    requires forall s :: s in sorted ==> MultipleIn(s, w, 0, count)
    ensures Ascending(init)
    ensures forall j: nat :: j < less ==> Offset(w, j) in init
    ensures forall s :: s in init ==> MultipleIn(s, w, 0, less)
  {
    hide Offset;
    forall j: nat | j < less
      ensures Offset(w, j) in init
    {
      OffsetUnique(w, j, 0, less, 0);
    }
    forall s | s in init
      ensures MultipleIn(s, w, 0, less)
    {
      assert MultipleIn(s, w, 0, count);
      var j: nat :| j < count && s == Offset(w, j);
      assert s < Offset(w, less);
      assert j < less;
    }
  }

  lemma GreatestMultiple(sorted: seq<nat>, w: nat, count: nat)
    requires Ascending(sorted) && w > 0 && count > 0 && Offset(w, count - 1) in sorted
    requires forall s :: s in sorted ==> MultipleIn(s, w, 0, count)
    ensures sorted != [] && sorted[|sorted| - 1] == Offset(w, count - 1)
  {
    hide Offset;
    var i :| 0 <= i < |sorted| && sorted[i] == Offset(w, count - 1);
    var greatest := sorted[|sorted| - 1];
    assert MultipleIn(greatest, w, 0, count);
    var j: nat :| j < count && greatest == Offset(w, j);
    OffsetUnique(w, j, 0, count - 1, 0);
  }

  /** No data block has moved. */
  ghost predicate SamePlaces(t: Tables, t': Tables) {
    forall p :: IsData(t, p) ==> IsData(t', p) && BlockAt(t', p).place == BlockAt(t, p).place
  }

  /** Merging without a plan to move anything leaves every data block in place. */
  lemma NoMigration(baseK: nat, t: Tables, t': Tables, a: nat, b: nat, round: nat, places: map<nat, Place>, task: nat)
    requires Mergeable(baseK, t, a, b, round) && Committed(baseK, t, t', a, b, places, task)
    requires t.stripes[a].k <= |t.stripes[a].blocks| && t.stripes[b].k <= |t.stripes[b].blocks|
    requires places == CurrentPlaces(t, a, b)
    ensures SamePlaces(t, t')
  {
    hide Mergeable, Committed, CurrentPlaces, T.At;
    forall p | IsData(t, p)
      ensures IsData(t', p) && BlockAt(t', p).place == BlockAt(t, p).place
    {
      var s, i :| Holds(t, s, i, p);
      HeldAfter(baseK, t, t', a, b, round, places, task, s, i, p);
      StaysPut(baseK, t, t', a, b, round, places, task, s, i, p);
    }
  }

  lemma StaysPut(baseK: nat, t: Tables, t': Tables, a: nat, b: nat, round: nat, places: map<nat, Place>, task: nat,
                 s: nat, i: nat, p: nat)
    requires Mergeable(baseK, t, a, b, round) && Committed(baseK, t, t', a, b, places, task) && Holds(t, s, i, p)
    requires t.stripes[a].k <= |t.stripes[a].blocks| && t.stripes[b].k <= |t.stripes[b].blocks|
    requires places == CurrentPlaces(t, a, b)
    ensures BlockAt(t', p).place == BlockAt(t, p).place
  {
    hide Mergeable, Committed, CurrentPlaces;
    SameK(baseK, t, a, b, round);
    Survives(baseK, t, t', a, b, round, places, task);
    MergedData(baseK, t, t', map[], a, b, round, places, task);
    PairDiffers(baseK, t, a, b, round);
    var k := t.stripes[a].k;
    if s == a || s == b {
      DataInPlaces(t, a, b, s, i);
      MergedBlock(baseK, t, t', a, b, round, places, task, if s == a then i else k + i);
    } else {
      OtherBlock(baseK, t, t', a, b, round, places, task, s, i);
    }
  }

  lemma SamePlacesTrans(t: Tables, t': Tables, t'': Tables)
    requires SamePlaces(t, t') && SamePlaces(t', t'')
    ensures SamePlaces(t, t'')
  {
    hide IsData, BlockAt;
  }

  lemma SamePlacesRefl(t: Tables)
    ensures SamePlaces(t, t)
  {
  }

  // ---- A round that is begun again ----

  /** Stripe 0 has been merged in this round already, and comes first. */
  lemma FirstIsMerged(baseK: nat, pl: Plan, t: Tables, batches: nat, round: nat, merged: nat, ids: seq<nat>)
    requires Sane(baseK, t) && baseK == DataBlocks(pl.bt) && PartlyMerged(pl, t, batches, round, merged) && merged > 0
    requires Ascending(ids) && (forall s :: s in t.stripes <==> s in ids)
    ensures |ids| > 0 && ids[0] == 0 && 0 in t.stripes
    ensures t.stripes[0].k == baseK * Pow2(round) > baseK * Pow2(round - 1)
  {
    hide Sane, Setting, Run, Within;
    assert Offset(2 * Pow2(round - 1), 0) == 0;
    assert InPlace(pl, t, 0, round);
    MergedSize(pl, t, round);
    ProductGrows(baseK, Pow2(round - 1)) by { HasData(baseK, pl, t); }
    var i :| 0 <= i < |ids| && ids[i] == 0;
  }

  lemma MergedSize(pl: Plan, t: Tables, round: nat)
    requires Setting(pl.bt, pl.o, t) && StripeLaidOut(pl.bt, pl.o, t, 0, round)
    ensures 0 in t.stripes && t.stripes[0].k == DataBlocks(pl.bt) * Pow2(round)
  {
    OffsetIs(DataBlocks(pl.bt), Pow2(round));
    Commute(Pow2(round), DataBlocks(pl.bt));
  }

  lemma HasData(baseK: nat, pl: Plan, t: Tables)
    requires Setting(pl.bt, pl.o, t) && baseK == DataBlocks(pl.bt)
    ensures baseK > 0
  {
    OffsetIs(pl.bt.b, pl.bt.z);
    MulPositive(pl.bt.z, pl.bt.b);
  }

  lemma ProductGrows(a: nat, b: nat)
    requires a > 0 && b > 0
    ensures a * (2 * b) > a * b
  {
    MulPositive(a, b);
    assert a * (2 * b) == a * b + a * b;
  }

  /** Its pair is refused. */
  lemma FirstRefused(baseK: nat, t: Tables, a: nat, b: nat, round: nat)
    requires a in t.stripes && b in t.stripes && round > 0 && t.stripes[a].k != baseK * Pow2(round - 1)
    ensures Refused(baseK, t, a, b, round)
  {
  }

  /** There is no stripe between the two of a pair. */
  lemma NothingBetween(pl: Plan, t: Tables, batches: nat, level: nat, pairs: nat, x: nat)
    requires PartlyMerged(pl, t, batches, level, pairs) && x in t.stripes
    requires x > Offset(Pow2(level - 1), 2 * pairs)
    ensures Offset(Pow2(level - 1), 2 * pairs) < Offset(Pow2(level - 1), 2 * pairs + 1) <= x
  {
    hide Setting, InPlace, Offset;
    var w := Pow2(level - 1);
    OffsetTwice(w, pairs);
    OffsetUnique(w, 2 * pairs, 0, 2 * pairs + 1, 0);
    if MultipleIn(x, 2 * w, 0, pairs) {
      var j: nat :| j < pairs && x == Offset(2 * w, j);
      OffsetUnique(2 * w, j, 0, pairs, 0);
    } else {
      var i: nat :| 2 * pairs <= i < 2 * Offset(Pow2(|pl.bt.share| - level), batches) && x == Offset(w, i);
      OffsetUnique(w, 2 * pairs + 1, 0, i, 0);
    }
  }

  /** Merging a pair leaves the data of all stripes in order. */
  lemma PairInOrder(baseK: nat, pl: Plan, t: Tables, t': Tables, written: map<nat, Bytes>, batches: nat, level: nat,
                    pairs: nat, places: map<nat, Place>, task: nat)
    requires PartlyMerged(pl, t, batches, level, pairs)
    requires pairs < Offset(Pow2(|pl.bt.share| - level), batches)
    requires var a, b := Offset(Pow2(level - 1), 2 * pairs), Offset(Pow2(level - 1), 2 * pairs + 1);
      Mergeable(baseK, t, a, b, level) && Committed(baseK, t, t', a, b, places, task)
    ensures DataInOrder(t', written, Stripes(pl, batches)) == DataInOrder(t, written, Stripes(pl, batches))
  {
    hide PartlyMerged, Offset, Mergeable, Committed, DataInOrder, DataHeld;
    InRange(pl, t, batches, level, pairs);
    var w := Pow2(level - 1);
    var a, b := Offset(w, 2 * pairs), Offset(w, 2 * pairs + 1);
    OffsetUnique(w, 2 * pairs, 0, 2 * pairs + 1, 0);
    forall x: nat | a < x < b
      ensures x !in t.stripes
    {
      if x in t.stripes {
        NothingBetween(pl, t, batches, level, pairs, x);
      }
    }
    MergedInOrder(baseK, t, t', written, a, b, level, places, task, Stripes(pl, batches));
    LastPair(pl, batches, level, pairs);
  }

  lemma LastPair(pl: Plan, batches: nat, level: nat, pairs: nat)
    requires 0 < level <= |pl.bt.share| && pairs < Offset(Pow2(|pl.bt.share| - level), batches)
    ensures Offset(Pow2(level - 1), 2 * pairs + 1) < Stripes(pl, batches)
  {
    hide Offset;
    var n, w, u := |pl.bt.share|, Pow2(level - 1), Pow2(|pl.bt.share| - level);
    PowSplit(n, level);
    OffsetIs(u, batches); OffsetIs(2 * w, u); OffsetIs(Pow2(n), batches); OffsetIs(2 * w, batches * u);
    assert batches * (u * (2 * w)) == (batches * u) * (2 * w);
    OffsetTwice(w, Offset(u, batches));
    OffsetUnique(w, 2 * pairs + 1, 0, 2 * Offset(u, batches), 0);
  }

  /** The number of stripes that have been stored. */
  function Stripes(pl: Plan, batches: nat): nat {
    Offset(Pow2(|pl.bt.share|), batches)
  }

  /**
   * `start_merge` on full batches: pairs the stripes by number and merges them,
   * stopping at the first failure.  `envs` has the failures of every pair.
   *
   * If no pair of the round has been merged before, all pairs up to the first
   * failure are merged, and without a failure all of them; no data block
   * moves, and all data stays in order.  If some have been, nothing is merged, and nothing changes: the round
   * cannot be taken up again.
   */
  method StartMerge(c: Coordinator, round: nat, envs: nat -> Environment, ghost pl: Plan, ghost batches: nat,
                    ghost before: nat)
      returns (done: bool, ghost merged: nat)
    requires c.Valid() && (forall p :: Possible(envs(p))) && c.baseK == DataBlocks(pl.bt)
    requires 0 < round && PartlyMerged(pl, c.Now(), batches, round, before)
    modifies c`blocks, c`stripes, c`nodes, c`racks, c`disk
    ensures c.Valid() && SamePlaces(old(c.Now()), c.Now()) && PartlyMerged(pl, c.Now(), batches, round, merged)
    ensures DataInOrder(c.Now(), c.written, Stripes(pl, batches)) == old(DataInOrder(c.Now(), c.written, Stripes(pl, batches)))
    ensures before > 0 ==> !done && merged == before && c.Now() == old(c.Now()) && c.disk == old(c.disk)
    ensures before == 0 && !done && batches > 0 ==>
      merged < Offset(Pow2(|pl.bt.share| - round), batches) && !FailureFree(envs(merged))
    ensures done ==> AtLevel(pl, c.Now(), batches, round) && merged == Offset(Pow2(|pl.bt.share| - round), batches)
    ensures batches > 0 && FailureFree(envs(0)) ==> (merged > before <==> before == 0)
  {
    hide FailureFree, Multiples, PartlyMerged, AtLevel, SamePlaces, Offset, Sane, Committed, Mergeable, c.Valid,
         CurrentPlaces, AtRest, Guarded, Refused, DataInOrder, Stripes, ProperPair, StuckPair, FlawedPair, PlannedPair,
         OnlyWritten, OnlyThese, ToWrite, LeftBehind, DeletesAll, Readable;
    done, merged := false, before;
    SamePlacesRefl(c.Now());
    InRange(pl, c.Now(), batches, round, before);
    var ids := SortedIds(c.stripes.Keys);
    if before == 0 {
      FullRound(pl, c.Now(), batches, round, ids);
    }
    if |ids| < 2 || |ids| % 2 != 0 {
      return;
    }
    var pairs := |ids| / 2;
    for p := 0 to pairs
      invariant c.Valid()
      invariant before == 0 ==>
        merged == p && PartlyMerged(pl, c.Now(), batches, round, p) && SamePlaces(old(c.Now()), c.Now())
      invariant DataInOrder(c.Now(), c.written, Stripes(pl, batches)) == old(DataInOrder(c.Now(), c.written, Stripes(pl, batches)))
      invariant before > 0 ==> merged == before && p == 0 && c.Now() == old(c.Now()) && c.disk == old(c.disk)
    {
      ghost var t := c.Now();
      var a, b := ids[2 * p], ids[2 * p + 1];
      ValidSane(c);
      if before > 0 {
        FirstIsMerged(c.baseK, pl, t, batches, round, before, ids);
        FirstRefused(c.baseK, t, a, b, round);
      } else {
        PairReady(c.baseK, pl, t, batches, round, p, if a in c.stripes then c.NodeRow(c.stripes[a].oaRow) else []);
        PairPresent(c.baseK, t, a, b, round);
      }
      var reply;
      ghost var seen, places;
      reply, seen, places := c.MergeStripes(a, b, round, a, envs(p));
      if !reply.MergeDone? {
        return;
      }
      ghost var task := TaskId(t.stripes[a].batch, round, a, b);
      PairMerged(c.baseK, pl, t, c.Now(), batches, round, p, places, task);
      PairInOrder(c.baseK, pl, t, c.Now(), c.written, batches, round, p, places, task);
      StripesAfter(c.baseK, t, c.Now(), a, b, round, places, task);
      NoMigration(c.baseK, t, c.Now(), a, b, round, places, task);
      SamePlacesTrans(old(c.Now()), t, c.Now());
      merged := p + 1;
    }
    RoundEnds(pl, c.Now(), batches, round);
    done := true;
  }

  lemma InRange(pl: Plan, t: Tables, batches: nat, round: nat, merged: nat)
    requires PartlyMerged(pl, t, batches, round, merged)
    ensures 0 < round <= |pl.bt.share|
  {
  }

  /** Before the first pair is merged, the stripes are the multiples of 2^(round - 1). */
  lemma FullRound(pl: Plan, t: Tables, batches: nat, round: nat, ids: seq<nat>)
    requires 0 < round && PartlyMerged(pl, t, batches, round, 0) && Ascending(ids) && forall s :: s in t.stripes.Keys <==> s in ids
    ensures var count := Offset(Pow2(|pl.bt.share| - round), batches);
      |ids| == 2 * count && (forall i: nat :: i < 2 * count ==> ids[i] == Offset(Pow2(round - 1), i)) && (batches > 0 ==> count >= 1)
  {
    hide Setting, InPlace, Offset;
    if batches > 0 {
      AtLeastOne(Pow2(|pl.bt.share| - round), batches);
    }
    forall s | s in ids
      ensures MultipleIn(s, Pow2(round - 1), 0, 2 * Offset(Pow2(|pl.bt.share| - round), batches))
    {
      assert s in t.stripes;
    }
    SortedMultiples(ids, Pow2(round - 1), 2 * Offset(Pow2(|pl.bt.share| - round), batches));
  }

  lemma AtLeastOne(size: nat, batches: nat)
    requires size > 0 && batches > 0
    ensures Offset(size, batches) >= 1
  {
    OffsetIs(size, batches);
    MulPositive(batches, size);
  }

  lemma PairPresent(baseK: nat, t: Tables, a: nat, b: nat, round: nat)
    requires Guarded(baseK, t, a, b, round)
    ensures a in t.stripes && b in t.stripes
  {
  }

  lemma ValidSane(c: Coordinator)
    requires c.Valid()
    ensures Sane(c.baseK, c.Now())
  {
  }

  /**
   * All rounds, from freshly placed batches, until one of them fails.  No data
   * block moves; without failures every batch ends up as one stripe, and with one
   * the rounds end in the state that the pairs merged so far leave.
   */
  method RunRounds(c: Coordinator, envs: (nat, nat) -> Environment, ghost pl: Plan, ghost batches: nat, rounds: nat)
      returns (done: bool, ghost last: nat, ghost merged: nat)
    requires c.Valid() && (forall q, p :: Possible(envs(q, p))) && c.baseK == DataBlocks(pl.bt) && batches > 0
    requires AtLevel(pl, c.Now(), batches, 0) && rounds == |pl.bt.share|
    modifies c`blocks, c`stripes, c`nodes, c`racks, c`disk
    ensures c.Valid() && SamePlaces(old(c.Now()), c.Now())
    ensures DataInOrder(c.Now(), c.written, Stripes(pl, batches)) == old(DataInOrder(c.Now(), c.written, Stripes(pl, batches)))
    ensures done ==> AtLevel(pl, c.Now(), batches, rounds)
    ensures !done ==>
      0 < last <= rounds && PartlyMerged(pl, c.Now(), batches, last, merged) && !FailureFree(envs(last, merged))
  {
    hide AtLevel, SamePlaces, PartlyMerged, c.Valid, DataInOrder, Stripes;
    SamePlacesRefl(c.Now());
    done, last, merged := true, 0, 0;
    for round: nat := 1 to rounds + 1
      invariant c.Valid() && AtLevel(pl, c.Now(), batches, round - 1)
      invariant SamePlaces(old(c.Now()), c.Now())
      invariant DataInOrder(c.Now(), c.written, Stripes(pl, batches)) == old(DataInOrder(c.Now(), c.written, Stripes(pl, batches)))
    {
      ghost var t := c.Now();
      RoundBegins(pl, t, batches, round);
      done, merged := StartMerge(c, round, (p: nat) => envs(round, p), pl, batches, 0);
      SamePlacesTrans(old(c.Now()), t, c.Now());
      if !done {
        last := round;
        return;
      }
    }
    done := true;
  }
}

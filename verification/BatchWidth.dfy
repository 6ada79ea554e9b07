/**
 * The racks that merging ends with are as few as possible: every other
 * placement of a merged stripe's data, on racks of one local group each and with
 * at most r+1 blocks, spans at least as many.
 */
module BatchWidth {
  import opened MergeConfig
  import opened TailUnionFind
  import opened TailLayout
  import opened BatchLayout
  import opened BatchPlan
  import opened MergePlan
  import T = MergeTables
  import opened MergeTables
  import opened MergeIndexed
  import opened BatchRounds
  import opened BatchRacks
  import opened BatchPlacement
  import opened Generators

  // ---- How many blocks a local group of a merged stripe has ----

  /** The b numbers from `first` on. */
  function Interval(first: nat, b: nat): set<nat> {
    if b == 0 then {} else Interval(first, b - 1) + {first + b - 1}
  }

  lemma {:induction false} IntervalIs(first: nat, b: nat)
    ensures |Interval(first, b)| == b && forall i: nat :: i in Interval(first, b) <==> first <= i < first + b
  {
    if b > 0 {
      IntervalIs(first, b - 1);
    }
  }

  /** The positions of local group g in a stripe of n runs of z groups of b blocks. */
  function GroupPositions(z: nat, b: nat, g: nat, n: nat): set<nat> {
    if n == 0 then {}
    else GroupPositions(z, b, g, n - 1) + Interval(Offset(Offset(b, z), n - 1) + Offset(b, g), b)
  }

  /** Position i is in group g. */
  predicate InGroup(z: nat, b: nat, g: nat, i: nat) {
    b > 0 && z > 0 && Offset(b, z) > 0 && Run(b, Within(Offset(b, z), i)) == g
  }

  lemma {:induction false} GroupPositionsAre(z: nat, b: nat, g: nat, n: nat)
    requires z > 0 && b > 0 && g < z
    ensures forall i: nat :: i in GroupPositions(z, b, g, n) <==> i < Offset(Offset(b, z), n) && InGroup(z, b, g, i)
    ensures |GroupPositions(z, b, g, n)| == Offset(b, n)
  {
    hide Offset, InGroup, Interval;
    if n == 0 {
      OffsetIs(Offset(b, z), 0);
      OffsetIs(b, 0);
    } else {
      GroupPositionsAre(z, b, g, n - 1);
      LastPositions(z, b, g, n);
      OneMore(Offset(b, z), n);
      OneMore(b, n);
      DisjointSize(GroupPositions(z, b, g, n - 1), Interval(Offset(Offset(b, z), n - 1) + Offset(b, g), b));
    }
  }

  /** The group's positions in the last run, as a set. */
  lemma LastPositions(z: nat, b: nat, g: nat, n: nat)
    requires z > 0 && b > 0 && g < z && n > 0
    ensures var last := Interval(Offset(Offset(b, z), n - 1) + Offset(b, g), b);
      |last| == b &&
      forall i: nat :: i in last <==>
        Offset(Offset(b, z), n - 1) <= i < Offset(Offset(b, z), n) && InGroup(z, b, g, i)
  {
    hide Offset, InGroup, Interval;
    var start := Offset(Offset(b, z), n - 1) + Offset(b, g);
    IntervalIs(start, b);
    forall i: nat
      ensures i in Interval(start, b) <==>
        Offset(Offset(b, z), n - 1) <= i < Offset(Offset(b, z), n) && InGroup(z, b, g, i)
    {
      LastRun(z, b, g, n, i);
    }
  }

  lemma DisjointSize(s: set<nat>, t: set<nat>)
    requires s !! t
    ensures |s + t| == |s| + |t|
  {
  }

  lemma OneMore(size: nat, n: nat)
    requires n > 0
    ensures Offset(size, n) == Offset(size, n - 1) + size
  {
  }

  /** The group's positions in the last run. */
  lemma LastRun(z: nat, b: nat, g: nat, n: nat, i: nat)
    requires z > 0 && b > 0 && g < z && n > 0
    ensures Offset(b, g) + b <= Offset(b, z)
    ensures var first := Offset(Offset(b, z), n - 1);
      first + Offset(b, g) <= i < first + Offset(b, g) + b <==> first <= i < Offset(Offset(b, z), n) && InGroup(z, b, g, i)
  {
    hide Offset, Run, Within;
    var size := Offset(b, z);
    GroupFits(b, g, z);
    OneMore(size, n);
    var first := Offset(size, n - 1);
    if first <= i < first + size {
      RunUnique(size, n - 1, i - first);
      RunIs(b, i - first);
      OffsetUnique(b, Run(b, i - first), Within(b, i - first), g, 0);
      OffsetUnique(b, g, 0, Run(b, i - first), Within(b, i - first));
      OneMore(b, g + 1);
      OffsetUnique(b, g + 1, 0, Run(b, i - first), Within(b, i - first));
    }
  }

  /** A list without duplicates maps positions to as many elements. */
  lemma {:induction false} ImageSize(list: seq<nat>, ids: set<nat>)
    requires NoDup(list) && forall i :: i in ids ==> i < |list|
    ensures |set i | i in ids :: list[i]| == |ids|
    decreases ids
  {
    if x :| x in ids {
      var rest := ids - {x};
      ImageSize(list, rest);
      assert (set i | i in ids :: list[i]) == (set i | i in rest :: list[i]) + {list[x]};
    }
  }

  // ---- Other placements of the same data ----

  /**
   * Any placement of the stripe's data by local group: racks of one group each, and no more than `cap` blocks
   * per rack.
   */
  ghost predicate GroupPure(t: Tables, s: nat, loc: map<nat, Place>, group: map<nat, nat>, cap: nat)
    requires s in t.stripes && t.stripes[s].k <= |t.stripes[s].blocks|
  {
    var st := t.stripes[s];
    (forall p :: p in loc <==> p in st.blocks[..st.k]) && (forall p :: p in loc <==> p in group) &&
    (forall i :: 0 <= i < st.k ==> st.blocks[i] in group && group[st.blocks[i]] == T.At(t, s, i).localGroup) &&
    (forall p, q :: p in loc && q in loc && loc[p].cluster == loc[q].cluster ==> group[p] == group[q]) &&
    forall c :: |On(loc, loc.Keys, c)| <= cap
  }

  /** Every local group of a stripe of level `level` has 2^level times its b blocks. */
  lemma GroupSizes(baseK: nat, bt: Batch, o: Arrays, t: Tables, s: nat, level: nat, loc: map<nat, Place>,
                   group: map<nat, nat>, cap: nat, g: nat)
    requires Setting(bt, o, t) && AllStripesOk(baseK, t) && StripeLaidOut(bt, o, t, s, level) && g < bt.z
    requires t.stripes[s].k <= |t.stripes[s].blocks| && GroupPure(t, s, loc, group, cap)
    ensures loc.Keys <= group.Keys && |OfGroup(loc, group, g)| == Offset(bt.b, Pow2(level))
  {
    hide Setting, Offset, BlockLaidOut, ClusterOf, InGroup, NoDup, DataBlocks, GroupPositions, Run, Within;
    SettingParts(bt, o, t);
    BatchBasics(bt);
    var st := t.stripes[s];
    var ids := GroupPositions(bt.z, bt.b, g, Pow2(level));
    GroupPositionsAre(bt.z, bt.b, g, Pow2(level));
    assert DataBlocks(bt) == Offset(bt.b, bt.z) by { SizeIs(bt); }
    MergedOwn(baseK, t, s);
    ImageSize(st.blocks, ids);
    forall i: nat | i < st.k
      ensures group[st.blocks[i]] == g <==> i in ids
    {
      PositionGroup(bt, o, t, s, level, i, g);
    }
    assert OfGroup(loc, group, g) == set i | i in ids :: st.blocks[i] by { SameBlocks(t, s, loc, group, cap, g, ids); }
  }

  lemma SizeIs(bt: Batch)
    ensures DataBlocks(bt) == Offset(bt.b, bt.z)
  {
  }

  lemma SameBlocks(t: Tables, s: nat, loc: map<nat, Place>, group: map<nat, nat>, cap: nat, g: nat, ids: set<nat>)
    requires s in t.stripes && t.stripes[s].k <= |t.stripes[s].blocks| && GroupPure(t, s, loc, group, cap)
    requires forall i: nat :: i in ids ==> i < t.stripes[s].k
    requires forall i: nat :: i < t.stripes[s].k ==> (group[t.stripes[s].blocks[i]] == g <==> i in ids)
    ensures loc.Keys <= group.Keys && OfGroup(loc, group, g) == set i | i in ids :: t.stripes[s].blocks[i]
  {
    var st := t.stripes[s];
    forall p: nat
      ensures p in OfGroup(loc, group, g) <==> p in (set i | i in ids :: st.blocks[i])
    {
      if p in OfGroup(loc, group, g) {
        var i :| 0 <= i < st.k && st.blocks[..st.k][i] == p;
        assert st.blocks[i] == p && i in ids;
      }
      if i :| i in ids && st.blocks[i] == p {
        assert st.blocks[..st.k][i] == p;
      }
    }
  }

  lemma PositionGroup(bt: Batch, o: Arrays, t: Tables, s: nat, level: nat, i: nat, g: nat)
    requires Setting(bt, o, t) && StripeLaidOut(bt, o, t, s, level) && i < t.stripes[s].k
    ensures T.At(t, s, i).localGroup == g <==> InGroup(bt.z, bt.b, g, i)
  {
    hide Offset, DataPlace, SlotIn, ClusterOf, BatchOk, ArraysOk, Equipped;
    BatchBasics(bt);
    var st := t.stripes[s];
    assert BlockLaidOut(bt, o, t, st.batch, st.pos, i, T.At(t, s, i));
    SlotGroup(bt, st.pos + Run(DataBlocks(bt), i), Within(DataBlocks(bt), i));
  }

  /**
   * After round `level` every stripe spans as few racks as any placement of its
   * data on group-pure racks of r+1 blocks, with the parities on a rack of their own.
   */
  lemma NoneIsNarrower(baseK: nat, pl: Plan, t: Tables, batches: nat, level: nat, s: nat, loc: map<nat, Place>,
                       group: map<nat, nat>)
    requires AtLevel(pl, t, batches, level) && AllStripesOk(baseK, t) && Indexed(t) && s in t.stripes
    requires t.stripes[s].k <= |t.stripes[s].blocks| && GroupPure(t, s, loc, group, pl.bt.cap)
    ensures |RacksUsed(loc, loc.Keys)| + 1 >= |t.stripes[s].clusters| == Racks(pl.bt.b, pl.bt.cap, pl.bt.z, level)
  {
    hide Setting, StripeLaidOut, Indexed, Offset, CeilDiv, AllStripesOk, RacksUsed, OfGroup, On;
    SettingParts(pl.bt, pl.o, t);
    BatchBasics(pl.bt);
    LevelSpans(baseK, pl, t, batches, level, s);
    assert InPlace(pl, t, s, level);
    var m := Offset(pl.bt.b, Pow2(level));
    forall g: nat | g < pl.bt.z
      ensures |OfGroup(loc, group, g)| == m
    {
      GroupSizes(baseK, pl.bt, pl.o, t, s, level, loc, group, pl.bt.cap, g);
    }
    LeastRacks(loc, group, pl.bt.z, m, pl.bt.cap);
    OffsetIs(pl.bt.b, Pow2(level));
    OffsetIs(CeilDiv(m, pl.bt.cap), pl.bt.z);
    FewerUsed(loc, InGroups(loc, group, pl.bt.z));
  }

  lemma FewerUsed(loc: map<nat, Place>, s: set<nat>)
    requires s <= loc.Keys
    ensures |RacksUsed(loc, s)| <= |RacksUsed(loc, loc.Keys)|
  {
    SubsetSize(RacksUsed(loc, s), RacksUsed(loc, loc.Keys));
  }
}

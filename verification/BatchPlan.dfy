/**
 * Stripes laid out as a batch merge without moving data: on every pair the
 * planner finds nothing to do, and the merged stripe is laid out again.
 */
module BatchPlan {
  import opened MergeConfig
  import opened TailUnionFind
  import opened TailLayout
  import opened BatchLayout
  import opened MergePlan
  import opened MergeMoves
  import T = MergeTables
  import opened MergeTables
  import opened MergeCommit
  import opened MergeTasks

  function NodesOf(t: Tables): map<nat, seq<nat>> {
    map c | c in t.racks :: t.racks[c].nodes
  }

  /** The batch layout and the machines fit together. */
  ghost predicate Setting(bt: Batch, o: Arrays, t: Tables) {
    BatchOk(bt) && ArraysOk(o) && Equipped(o, NodesOf(t)) && bt.cap <= o.width
  }

  /**
   * Data block i of a stripe that starts at a position: block i % k0 of position pos + i / k0, for k0 blocks
   * per position.
   */
  ghost predicate BlockLaidOut(bt: Batch, o: Arrays, t: Tables, batch: nat, pos: nat, i: nat, block: Block)
    requires Setting(bt, o, t)
  {
    var size := DataBlocks(bt);
    size > 0 && pos + Run(size, i) < Pow2(|bt.share|) && Within(size, i) < size &&
    block.place == DataPlace(bt, o, NodesOf(t), batch, pos + Run(size, i), Within(size, i)) &&
    block.localGroup == SlotIn(bt, pos + Run(size, i), Within(size, i)).localGroup
  }

  /** The stripe consists of 2^level neighbouring positions of its batch, each block where the layout puts it. */
  ghost predicate StripeLaidOut(bt: Batch, o: Arrays, t: Tables, s: nat, level: nat)
    requires Setting(bt, o, t)
  {
    s in t.stripes &&
    var st := t.stripes[s];
    level <= |bt.share| && st.k == Offset(DataBlocks(bt), Pow2(level)) && st.z == bt.z && st.r + 1 == bt.cap &&
    st.k < |st.blocks| && st.pos + Pow2(level) <= Pow2(|bt.share|) &&
    (forall i :: 0 <= i < st.k ==> BlockLaidOut(bt, o, t, st.batch, st.pos, i, T.At(t, s, i))) &&
    (forall i :: st.k <= i < |st.blocks| ==> T.At(t, s, i).place.cluster == ClusterOf(o, st.batch, 1))
  }

  /** Two neighbouring stripes of a batch. */
  ghost predicate Neighbours(bt: Batch, o: Arrays, t: Tables, a: nat, b: nat, level: nat)
    requires Setting(bt, o, t)
  {
    StripeLaidOut(bt, o, t, a, level) && StripeLaidOut(bt, o, t, b, level) &&
    t.stripes[a].batch == t.stripes[b].batch && t.stripes[a].pos + Pow2(level) == t.stripes[b].pos
  }

  lemma SizePositive(bt: Batch)
    requires BatchOk(bt)
    ensures DataBlocks(bt) > 0
  {
    OffsetIs(bt.b, bt.z);
    MulPositive(bt.z, bt.b);
  }

  // ---- Every block of the pair has its own slot ----

  /** Where a planned block comes from: a position of the batch and a block number. */
  ghost predicate FromSlot(bt: Batch, o: Arrays, t: Tables, batch: nat, p: nat, pos: nat, i: nat)
    requires Setting(bt, o, t)
  {
    pos < Pow2(|bt.share|) && i < DataBlocks(bt) && p in t.blocks &&
    t.blocks[p].place == DataPlace(bt, o, NodesOf(t), batch, pos, i) &&
    t.blocks[p].localGroup == SlotIn(bt, pos, i).localGroup
  }

  lemma BlockSlot(baseK: nat, bt: Batch, o: Arrays, t: Tables, s: nat, level: nat, x: nat) returns (pos: nat, i: nat)
    requires Setting(bt, o, t) && AllStripesOk(baseK, t) && StripeLaidOut(bt, o, t, s, level) && x < t.stripes[s].k
    ensures FromSlot(bt, o, t, t.stripes[s].batch, t.stripes[s].blocks[x], pos, i)
    ensures t.stripes[s].pos <= pos < t.stripes[s].pos + Pow2(level)
    ensures x == Offset(DataBlocks(bt), pos - t.stripes[s].pos) + i
  {
    hide Setting, Offset, Run, Within, DataPlace, SlotIn, DataBlocks, Pow2, BlockOk;
    var size := DataBlocks(bt);
    assert StripeOk(baseK, t, s);
    assert BlockLaidOut(bt, o, t, t.stripes[s].batch, t.stripes[s].pos, x, T.At(t, s, x));
    RunIs(size, x);
    OffsetUnique(size, Run(size, x), Within(size, x), Pow2(level), 0);
    OffsetUnique(size, Pow2(level), 0, Run(size, x), Within(size, x));
    pos, i := t.stripes[s].pos + Run(size, x), Within(size, x);
  }

  /** Every block of the pair: its slot, which no other block of the pair has. */
  lemma PairSlot(baseK: nat, bt: Batch, o: Arrays, t: Tables, a: nat, b: nat, level: nat, p: nat)
      returns (pos: nat, i: nat)
    requires Setting(bt, o, t) && AllStripesOk(baseK, t) && Neighbours(bt, o, t, a, b, level)
    requires p in CurrentPlaces(t, a, b)
    ensures FromSlot(bt, o, t, t.stripes[a].batch, p, pos, i)
    ensures CurrentPlaces(t, a, b)[p] == t.blocks[p].place
    ensures t.stripes[a].pos <= pos && p == PairBlock(bt, t, a, b, level, pos - t.stripes[a].pos, i)
  {
    hide Setting, Offset, Run, Within, DataPlace, SlotIn, DataBlocks, Pow2, StripeOk, BlockLaidOut;
    PlannedBlock(baseK, t, a, b, p);
    var s, x :| (s == a || s == b) && DataAt(t, s, x) && t.stripes[s].blocks[x] == p;
    pos, i := BlockSlot(baseK, bt, o, t, s, level, x);
  }

  /** The block of the pair at a position and number. */
  function PairBlock(bt: Batch, t: Tables, a: nat, b: nat, level: nat, q: nat, i: nat): nat
    requires a in t.stripes && b in t.stripes
  {
    var s := if q < Pow2(level) then a else b;
    var x := Offset(DataBlocks(bt), if q < Pow2(level) then q else q - Pow2(level)) + i;
    if x < |t.stripes[s].blocks| then t.stripes[s].blocks[x] else 0
  }

  // ---- Nothing to move ----

  /** Two blocks of the pair on one node are the same block. */
  lemma PairApart(baseK: nat, bt: Batch, o: Arrays, t: Tables, a: nat, b: nat, level: nat, p: nat, q: nat)
    requires Setting(bt, o, t) && Sane(baseK, t) && Neighbours(bt, o, t, a, b, level)
    requires p in CurrentPlaces(t, a, b) && q in CurrentPlaces(t, a, b)
    requires CurrentPlaces(t, a, b)[p].node == CurrentPlaces(t, a, b)[q].node
    ensures p == q
  {
    hide Setting, Neighbours, DataPlace, SlotIn, DataBlocks, PairBlock, CurrentPlaces, AllStripesOk, AllPlaced,
         DataKeysDiffer;
    var pos, i := PairSlot(baseK, bt, o, t, a, b, level, p);
    var pos', i' := PairSlot(baseK, bt, o, t, a, b, level, q);
    NeighbourParts(bt, o, t, a, b, level);
    var batch := t.stripes[a].batch;
    SettingParts(bt, o, t);
    DataOffParity(bt, o, NodesOf(t), batch, pos, i);
    DataOffParity(bt, o, NodesOf(t), batch, pos', i');
    ListedNode(t, t.blocks[p].place);
    ListedNode(t, t.blocks[q].place);
    OneRack(t, t.blocks[p].place, t.blocks[q].place);
    DataApart(bt, o, NodesOf(t), batch, pos, i, pos', i');
  }

  lemma OneRack(t: Tables, x: Place, y: Place)
    requires RacksOk(t) && OnItsRack(t, x) && OnItsRack(t, y) && x.node == y.node
    ensures x.cluster == y.cluster
  {
    assert t.nodes[x.node].cluster == x.cluster && t.nodes[y.node].cluster == y.cluster;
  }

  lemma SettingParts(bt: Batch, o: Arrays, t: Tables)
    requires Setting(bt, o, t)
    ensures BatchOk(bt) && ArraysOk(o) && Equipped(o, NodesOf(t)) && bt.cap <= o.width
  {
  }

  /** Blocks of the pair on one rack have different node columns, all within r+1. */
  lemma PairColumns(baseK: nat, bt: Batch, o: Arrays, t: Tables, a: nat, b: nat, level: nat, p: nat, q: nat)
    requires Setting(bt, o, t) && Sane(baseK, t) && Neighbours(bt, o, t, a, b, level)
    requires p in CurrentPlaces(t, a, b) && q in CurrentPlaces(t, a, b)
    requires CurrentPlaces(t, a, b)[p].cluster == CurrentPlaces(t, a, b)[q].cluster
    ensures t.blocks.Keys >= {p, q} && t.blocks[p].localGroup == t.blocks[q].localGroup
    ensures CurrentPlaces(t, a, b)[p].nodeCol == CurrentPlaces(t, a, b)[q].nodeCol ==> p == q
    ensures 1 <= CurrentPlaces(t, a, b)[p].nodeCol <= bt.cap
    ensures CurrentPlaces(t, a, b)[p].cluster != ClusterOf(o, t.stripes[a].batch, 1)
  {
    hide Setting, Neighbours, SlotIn, DataBlocks, PairBlock, CurrentPlaces, AllStripesOk, AllPlaced, DataKeysDiffer,
         RacksOk, ClusterOf;
    var pos, i := PairSlot(baseK, bt, o, t, a, b, level, p);
    var pos', i' := PairSlot(baseK, bt, o, t, a, b, level, q);
    NeighbourParts(bt, o, t, a, b, level);
    var batch := t.stripes[a].batch;
    SettingParts(bt, o, t);
    DataOffParity(bt, o, NodesOf(t), batch, pos, i);
    RackPure(bt, o, NodesOf(t), batch, pos, i, pos', i');
    if CurrentPlaces(t, a, b)[p].nodeCol == CurrentPlaces(t, a, b)[q].nodeCol {
      SamePlace(bt, o, NodesOf(t), batch, pos, i, pos', i');
      PairApart(baseK, bt, o, t, a, b, level, p, q);
    }
  }

  lemma SamePlace(bt: Batch, o: Arrays, racks: map<nat, seq<nat>>, batch: nat, pos: nat, i: nat, pos': nat, i': nat)
    requires BatchOk(bt) && ArraysOk(o) && Equipped(o, racks) && bt.cap <= o.width
    requires pos < Pow2(|bt.share|) && i < DataBlocks(bt) && pos' < Pow2(|bt.share|) && i' < DataBlocks(bt)
    requires SlotIn(bt, pos, i).rackCol == SlotIn(bt, pos', i').rackCol
    requires DataPlace(bt, o, racks, batch, pos, i).nodeCol == DataPlace(bt, o, racks, batch, pos', i').nodeCol
    ensures DataPlace(bt, o, racks, batch, pos, i) == DataPlace(bt, o, racks, batch, pos', i')
  {
    hide BatchOk, ArraysOk, Equipped, SlotIn, DataBlocks, ClusterOf;
    SlotRange(bt, pos, i);
    SlotRange(bt, pos', i');
  }

  /** Pigeonhole: blocks with different node columns among 1..cap are at most cap. */
  lemma {:induction false} ColumnsBound(loc: map<nat, Place>, s: set<nat>, cap: nat)
    requires s <= loc.Keys && forall p :: p in s ==> 1 <= loc[p].nodeCol <= cap
    requires forall p, q :: p in s && q in s && loc[p].nodeCol == loc[q].nodeCol ==> p == q
    ensures |s| <= cap
    decreases cap
  {
    if cap == 0 {
      assert s == {};
    } else if p :| p in s && loc[p].nodeCol == cap {
      ColumnsBound(loc, s - {p}, cap - 1);
    } else {
      ColumnsBound(loc, s, cap - 1);
    }
  }

  /** The planner has nothing to do for two neighbours. */
  lemma PairUndisturbed(baseK: nat, bt: Batch, o: Arrays, t: Tables, a: nat, b: nat, level: nat, round: nat,
                        nodeRow: seq<int>)
    requires Setting(bt, o, t) && Sane(baseK, t) && Neighbours(bt, o, t, a, b, level)
    requires Mergeable(baseK, t, a, b, round)
    ensures t.stripes[a].k < |t.stripes[a].blocks| && t.stripes[b].k <= |t.stripes[b].blocks|
    ensures WellFormed(PlanInput(t, a, b, nodeRow), CurrentPlaces(t, a, b))
    ensures Undisturbed(PlanInput(t, a, b, nodeRow), CurrentPlaces(t, a, b))
  {
    hide Setting, Neighbours, Sane, Mergeable, CurrentPlaces;
    PlanInputShape(baseK, t, a, b, round, nodeRow);
    NeighbourParts(bt, o, t, a, b, level);
    var m, loc := PlanInput(t, a, b, nodeRow), CurrentPlaces(t, a, b);
    PairSound(baseK, bt, o, t, a, b, level);
    PairHoused(baseK, bt, o, t, a, b, level, round, nodeRow);
    Sides(m, loc);
    SoundPart(loc, loc.Keys, Elements(m.left), m.cap);
    SoundPart(loc, loc.Keys, Elements(m.right), m.cap);
  }

  lemma NeighbourParts(bt: Batch, o: Arrays, t: Tables, a: nat, b: nat, level: nat)
    requires Setting(bt, o, t) && Neighbours(bt, o, t, a, b, level)
    ensures a in t.stripes && b in t.stripes && t.stripes[a].r + 1 == bt.cap && t.stripes[a].z == bt.z
    ensures t.stripes[a].k < |t.stripes[a].blocks| && t.stripes[b].k < |t.stripes[b].blocks|
    ensures T.At(t, a, t.stripes[a].k).place.cluster == ClusterOf(o, t.stripes[a].batch, 1)
  {
  }

  lemma PairSound(baseK: nat, bt: Batch, o: Arrays, t: Tables, a: nat, b: nat, level: nat)
    requires Setting(bt, o, t) && Sane(baseK, t) && Neighbours(bt, o, t, a, b, level)
    ensures Sound(CurrentPlaces(t, a, b), CurrentPlaces(t, a, b).Keys, bt.cap)
  {
    hide Setting, Neighbours, Sane, CurrentPlaces;
    NeighbourParts(bt, o, t, a, b, level);
    var loc := CurrentPlaces(t, a, b);
    forall p, q | p in loc && q in loc && p != q
      ensures loc[p].node != loc[q].node
    {
      if loc[p].node == loc[q].node {
        PairApart(baseK, bt, o, t, a, b, level, p, q);
      }
    }
    forall c
      ensures |On(loc, loc.Keys, c)| <= bt.cap
    {
      forall p, q | p in On(loc, loc.Keys, c) && q in On(loc, loc.Keys, c)
        ensures 1 <= loc[p].nodeCol <= bt.cap
        ensures loc[p].nodeCol == loc[q].nodeCol ==> p == q
      {
        PairColumns(baseK, bt, o, t, a, b, level, p, q);
      }
      ColumnsBound(loc, On(loc, loc.Keys, c), bt.cap);
    }
  }

  lemma PairHoused(baseK: nat, bt: Batch, o: Arrays, t: Tables, a: nat, b: nat, level: nat, round: nat,
                   nodeRow: seq<int>)
    requires Setting(bt, o, t) && Sane(baseK, t) && Neighbours(bt, o, t, a, b, level)
    requires Mergeable(baseK, t, a, b, round)
    requires t.stripes[a].k < |t.stripes[a].blocks| && t.stripes[b].k <= |t.stripes[b].blocks|
    requires Shape(PlanInput(t, a, b, nodeRow), CurrentPlaces(t, a, b))
    ensures Housed(PlanInput(t, a, b, nodeRow), CurrentPlaces(t, a, b)) && NodesSeparate(PlanInput(t, a, b, nodeRow))
    ensures forall p :: p in CurrentPlaces(t, a, b) ==> PlanInput(t, a, b, nodeRow).group[p] < t.stripes[a].z
  {
    hide Setting, Neighbours, AllStripesOk, AllPlaced, DataKeysDiffer, CurrentPlaces, Pow2;
    NeighbourParts(bt, o, t, a, b, level);
    var m, loc := PlanInput(t, a, b, nodeRow), CurrentPlaces(t, a, b);
    RacksSeparate(t, a, b, nodeRow);
    forall p, q | p in loc && q in loc && loc[p].cluster == loc[q].cluster
      ensures m.group[p] == m.group[q] && loc[p].cluster != m.parityCluster
    {
      PairColumns(baseK, bt, o, t, a, b, level, p, q);
    }
    forall p | p in loc
      ensures loc[p].cluster in m.clusterNodes && loc[p].node in m.clusterNodes[loc[p].cluster]
      ensures m.group[p] < t.stripes[a].z
    {
      PairNode(baseK, bt, o, t, a, b, level, p);
    }
  }

  lemma PairNode(baseK: nat, bt: Batch, o: Arrays, t: Tables, a: nat, b: nat, level: nat, p: nat)
    requires Setting(bt, o, t) && Sane(baseK, t) && Neighbours(bt, o, t, a, b, level) && p in CurrentPlaces(t, a, b)
    ensures OnItsRack(t, CurrentPlaces(t, a, b)[p])
    ensures p in t.blocks && t.blocks[p].localGroup < bt.z
  {
    hide Setting, Neighbours, SlotIn, DataBlocks, PairBlock, CurrentPlaces, AllStripesOk, AllPlaced, DataKeysDiffer,
         RacksOk, ClusterOf, DataPlace,
         NodesOf, OnItsRack, BatchOk, ArraysOk, Equipped;
    NeighbourParts(bt, o, t, a, b, level);
    var pos, i := PairSlot(baseK, bt, o, t, a, b, level, p);
    SettingParts(bt, o, t);
    DataOffParity(bt, o, NodesOf(t), t.stripes[a].batch, pos, i);
    SlotRange(bt, pos, i);
    ListedNode(t, t.blocks[p].place);
  }

  lemma ListedNode(t: Tables, place: Place)
    requires place.cluster in NodesOf(t) && place.node in NodesOf(t)[place.cluster]
    ensures OnItsRack(t, place)
  {
  }

  lemma RacksSeparate(t: Tables, a: nat, b: nat, nodeRow: seq<int>)
    requires RacksOk(t) && a in t.stripes && b in t.stripes
    requires t.stripes[a].k < |t.stripes[a].blocks| && t.stripes[b].k <= |t.stripes[b].blocks|
    ensures NodesSeparate(PlanInput(t, a, b, nodeRow))
  {
    var m := PlanInput(t, a, b, nodeRow);
    forall c, d, n | c in m.clusterNodes && d in m.clusterNodes && n in m.clusterNodes[c] && n in m.clusterNodes[d]
      ensures c == d
    {
      assert t.nodes[n].cluster == c && t.nodes[n].cluster == d;
    }
  }

  // ---- The merged stripe is laid out again ----

  /** All data stays where it is. */
  ghost predicate NothingMoves(t: Tables, a: nat, b: nat, places: map<nat, Place>)
    requires a in t.stripes && b in t.stripes
    requires t.stripes[a].k <= |t.stripes[a].blocks| && t.stripes[b].k <= |t.stripes[b].blocks|
  {
    places == CurrentPlaces(t, a, b)
  }

  lemma SettingStays(baseK: nat, bt: Batch, o: Arrays, t: Tables, t': Tables, a: nat, b: nat, places: map<nat, Place>,
                     task: nat)
    requires Setting(bt, o, t) && Committed(baseK, t, t', a, b, places, task)
    ensures Setting(bt, o, t') && NodesOf(t') == NodesOf(t)
  {
    hide BatchOk, ArraysOk, Committed;
    CommittedIndexes(baseK, t, t', a, b, places, task);
    CommitMachines(t, t', a, b);
    assert NodesOf(t') == NodesOf(t);
  }

  /** Index i of the merged stripe is the same slot as the index it had. */
  lemma RunShift(size: nat, m: nat, i: nat)
    requires size > 0 && i >= Offset(size, m)
    ensures Run(size, i) == m + Run(size, i - Offset(size, m)) && Within(size, i) == Within(size, i - Offset(size, m))
  {
    hide Run, Within, Offset;
    var x := i - Offset(size, m);
    RunIs(size, x);
    OffsetAdds(size, m, Run(size, x));
    RunUnique(size, m + Run(size, x), Within(size, x));
  }

  lemma OffsetAdds(size: nat, m: nat, q: nat)
    ensures Offset(size, m + q) == Offset(size, m) + Offset(size, q)
  {
    OffsetIs(size, m); OffsetIs(size, q); OffsetIs(size, m + q);
    assert (m + q) * size == m * size + q * size;
  }

  lemma MergedBlockLaidOut(baseK: nat, bt: Batch, o: Arrays, t: Tables, t': Tables, a: nat, b: nat, level: nat,
                           round: nat,
                           places: map<nat, Place>, task: nat, i: nat)
    requires Setting(bt, o, t) && Setting(bt, o, t') && NodesOf(t') == NodesOf(t) && Neighbours(bt, o, t, a, b, level)
    requires Mergeable(baseK, t, a, b, round) && Committed(baseK, t, t', a, b, places, task)
    requires NothingMoves(t, a, b, places)
    requires i < 2 * t.stripes[a].k && i < |t'.stripes[a].blocks|
    ensures BlockLaidOut(bt, o, t', t.stripes[a].batch, t.stripes[a].pos, i, T.At(t', a, i))
  {
    hide Setting, Mergeable, Committed, Offset, Run, Within, DataPlace, SlotIn, DataBlocks, CurrentPlaces, T.At,
         NodesOf;
    MergedBlock(baseK, t, t', a, b, round, places, task, i);
    var k := t.stripes[a].k;
    var s, j := SourceStripe(k, a, b, i), SourceIndex(k, i);
    DataInPlaces(t, a, b, s, j);
    assert BlockLaidOut(bt, o, t, t.stripes[s].batch, t.stripes[s].pos, j, T.At(t, s, j));
    if i >= k {
      RunShift(DataBlocks(bt), Pow2(level), i);
    }
  }

  /** Merging two neighbours without moving data gives a stripe laid out at the next level. */
  lemma MergedLaidOut(baseK: nat, bt: Batch, o: Arrays, t: Tables, t': Tables, a: nat, b: nat, level: nat, round: nat,
                      places: map<nat, Place>, task: nat)
    requires Setting(bt, o, t) && Neighbours(bt, o, t, a, b, level) && level < |bt.share|
    requires Mergeable(baseK, t, a, b, round) && Committed(baseK, t, t', a, b, places, task)
    requires t.stripes[a].k <= |t.stripes[a].blocks| && t.stripes[b].k <= |t.stripes[b].blocks|
    requires NothingMoves(t, a, b, places)
    ensures Setting(bt, o, t') && StripeLaidOut(bt, o, t', a, level + 1)
    ensures t'.stripes[a].batch == t.stripes[a].batch && t'.stripes[a].pos == t.stripes[a].pos
  {
    hide Setting, Offset, BlockLaidOut, DataBlocks, NothingMoves, T.At, BlocksCommitted, IndexesCommitted, MergedBlocks,
         StripeOk;
    SettingParts(bt, o, t);
    SettingStays(baseK, bt, o, t, t', a, b, places, task);
    OffsetAdds(DataBlocks(bt), Pow2(level), Pow2(level));
    var k := t.stripes[a].k;
    forall i: nat | i < |t'.stripes[a].blocks|
      ensures i < 2 * k ==> BlockLaidOut(bt, o, t', t.stripes[a].batch, t.stripes[a].pos, i, T.At(t', a, i))
      ensures i >= 2 * k ==> T.At(t', a, i).place.cluster == ClusterOf(o, t.stripes[a].batch, 1)
    {
      if i < 2 * k {
        MergedBlockLaidOut(baseK, bt, o, t, t', a, b, level, round, places, task, i);
      } else {
        MergedBlock(baseK, t, t', a, b, round, places, task, i);
      }
    }
  }

  /** The other stripes stay laid out. */
  lemma OtherLaidOut(baseK: nat, bt: Batch, o: Arrays, t: Tables, t': Tables, a: nat, b: nat, round: nat,
                     places: map<nat, Place>, task: nat, s: nat, level: nat)
    requires Setting(bt, o, t) && StripeLaidOut(bt, o, t, s, level) && s != a && s != b
    requires Mergeable(baseK, t, a, b, round) && Committed(baseK, t, t', a, b, places, task)
    ensures Setting(bt, o, t') && StripeLaidOut(bt, o, t', s, level) && t'.stripes[s] == t.stripes[s]
  {
    hide Setting, Offset, DataBlocks, T.At, Mergeable, Committed, Run, Within, DataPlace, SlotIn, NodesOf;
    SettingStays(baseK, bt, o, t, t', a, b, places, task);
    OtherStays(baseK, t, t', a, b, round, places, task, s);
    forall i: nat | i < |t.stripes[s].blocks|
      ensures T.At(t', s, i) == T.At(t, s, i)
    {
      OtherBlock(baseK, t, t', a, b, round, places, task, s, i);
    }
  }
}

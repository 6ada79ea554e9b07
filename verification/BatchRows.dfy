/**
 * Which rows of the two tables a batch uses, and how the racks of a stripe are
 * numbered: stated with plain arithmetic on batch and block numbers.
 */
module BatchRows {
  import opened MergeConfig
  import opened TailClasses
  import opened TailUnionFind
  import opened TailLayout
  import opened BatchLayout
  import opened BatchPlan
  import opened MergePlan
  import T = MergeTables
  import opened MergeTables
  import opened Arithmetic

  // ---- Rows of the tables ----

  /** The number of combinations of a rack row and a node row. */
  function Combinations(o: Arrays): (m: nat)
    requires ArraysOk(o)
    ensures m == |o.rackRows| * |o.nodeRows| && m > 0
  {
    PositiveProduct(|o.rackRows|, |o.nodeRows|);
    |o.rackRows| * |o.nodeRows|
  }

  /** The two rows are the digits of the batch number, to the base of the number of node rows. */
  lemma RowsOfCycle(o: Arrays, batch: nat)
    requires ArraysOk(o)
    ensures RowsOf(o, batch).0 * |o.nodeRows| + RowsOf(o, batch).1 == batch % Combinations(o)
  {
    var cycle, n := batch % Combinations(o), |o.nodeRows|;
    assert RowsOf(o, batch) == (cycle / n, cycle % n);
    assert cycle == (cycle / n) * n + cycle % n;
  }

  /** Among as many consecutive batches as there are pairs of rows, each pair has exactly one batch. */
  lemma EveryPairOnce(o: Arrays, first: nat, i: nat, j: nat) returns (batch: nat)
    requires ArraysOk(o) && i < |o.rackRows| && j < |o.nodeRows|
    ensures first <= batch < first + Combinations(o) && RowsOf(o, batch) == (i, j)
    ensures forall x: nat :: first <= x < first + Combinations(o) && RowsOf(o, x) == (i, j) ==> x == batch
  {
    hide RowsOf, ArraysOk;
    var n, m := |o.nodeRows|, Combinations(o);
    var cycle := i * n + j;
    SplitUnique(n, i, j, |o.rackRows|, 0);
    batch := NextWith(first, m, cycle);
    RowsOfCycle(o, batch);
    SplitUnique(n, i, j, RowsOf(o, batch).0, RowsOf(o, batch).1);
    forall x: nat | first <= x < first + m && RowsOf(o, x) == (i, j)
      ensures x == batch
    {
      RowsOfCycle(o, x);
      SameRemainder(first, m, x, batch);
    }
  }

  /** The next number with a given remainder. */
  lemma NextWith(first: nat, m: nat, rest: nat) returns (x: nat)
    requires rest < m
    ensures first <= x < first + m && x % m == rest
  {
    var q := first / m;
    assert first == q * m + first % m;
    var p := if rest >= first % m then q else q + 1;
    x := p * m + rest;
    assert (q + 1) * m == q * m + m;
    assert x == (x / m) * m + x % m;
    SplitUnique(m, p, rest, x / m, x % m);
  }

  lemma SameRemainder(first: nat, m: nat, x: nat, y: nat)
    requires m > 0 && first <= x < first + m && first <= y < first + m && x % m == y % m
    ensures x == y
  {
    assert x == (x / m) * m + x % m && y == (y / m) * m + y % m;
    var d := x / m - y / m;
    assert x - y == d * m;
    if d > 0 {
      AtLeast(d, m);
    } else if d < 0 {
      AtLeast(-d, m);
    }
  }

  /** A place, read off the tables: rack column and node column in the rows of the batch. */
  ghost predicate OnRows(o: Arrays, nodes: map<nat, seq<nat>>, batch: nat, place: Place)
    requires ArraysOk(o)
  {
    CycleInRange(|o.rackRows|, |o.nodeRows|, batch);
    var cycle := batch % (|o.rackRows| * |o.nodeRows|);
    assert Permutes(o.rackRows[cycle / |o.nodeRows|], RACKS) && Permutes(o.nodeRows[cycle % |o.nodeRows|], o.width);
    1 <= place.rackCol <= RACKS && 1 <= place.nodeCol <= o.width && place.cluster in nodes &&
    place.cluster == o.rackRows[cycle / |o.nodeRows|][place.rackCol - 1] - 1 &&
    var x := o.nodeRows[cycle % |o.nodeRows|][place.nodeCol - 1] - 1;
    x < |nodes[place.cluster]| && place.node == nodes[place.cluster][x]
  }

  lemma PlaceOnRows(o: Arrays, nodes: map<nat, seq<nat>>, batch: nat, rackCol: nat, nodeCol: nat)
    requires ArraysOk(o) && Equipped(o, nodes) && 1 <= rackCol <= RACKS && 1 <= nodeCol <= o.width
    ensures OnRows(o, nodes, batch, PlaceOf(o, nodes, batch, rackCol, nodeCol))
    ensures PlaceOf(o, nodes, batch, rackCol, nodeCol).rackCol == rackCol
    ensures PlaceOf(o, nodes, batch, rackCol, nodeCol).nodeCol == nodeCol
  {
    var c := ClusterOf(o, batch, rackCol);
    assert c in nodes && |nodes[c]| == o.width;
  }

  // ---- Racks of a stripe ----

  /** The racks of a stripe are numbered group by group: the full racks of a group, then its tail rack. */
  function RackNumber(bt: Batch, i: nat): nat
    requires bt.b > 0 && bt.cap > 0
  {
    Offset(FullRacks(bt.b, bt.cap) + 1, Run(bt.b, i)) + Run(bt.cap, Within(bt.b, i))
  }

  /** The number after those of all data racks. */
  function ParityNumber(bt: Batch): nat
    requires bt.b > 0 && bt.cap > 0
  {
    Offset(FullRacks(bt.b, bt.cap) + 1, bt.z)
  }

  /** Group and rack of a data block, and their place in the numbering. */
  lemma NumberParts(bt: Batch, i: nat)
    requires BatchOk(bt) && i < DataBlocks(bt)
    ensures Run(bt.b, i) < bt.z && Run(bt.cap, Within(bt.b, i)) <= FullRacks(bt.b, bt.cap)
    ensures RackNumber(bt, i) < ParityNumber(bt)
  {
    hide LayoutFor, Offset, Run, Within, FullRacks, Dictated, SharingFirst;
    GroupBound(bt.z, bt.b, i);
    RunIs(bt.b, i);
    var w := Within(bt.b, i);
    RunIs(bt.cap, w);
    RackBound(bt.b, bt.cap, Run(bt.cap, w), Within(bt.cap, w));
    OffsetUnique(FullRacks(bt.b, bt.cap) + 1, Run(bt.b, i), Run(bt.cap, w), bt.z, 0);
  }

  /** Two data blocks have the same number exactly if they have the same rack column. */
  lemma SameNumber(bt: Batch, pos: nat, i: nat, j: nat)
    requires BatchOk(bt) && pos < Pow2(|bt.share|) && i < DataBlocks(bt) && j < DataBlocks(bt)
    ensures RackNumber(bt, i) == RackNumber(bt, j) <==> SlotIn(bt, pos, i).rackCol == SlotIn(bt, pos, j).rackCol
  {
    hide LayoutFor, Offset, Run, Within, FullRacks, Dictated, SharingFirst, SlotIn, ColumnAt;
    NumberParts(bt, i);
    NumberParts(bt, j);
    var g, rack := SlotColumn(bt, pos, i);
    var g', rack' := SlotColumn(bt, pos, j);
    ColumnsAgree(bt, pos, g, rack, pos, g', rack');
    OffsetUnique(FullRacks(bt.b, bt.cap) + 1, g, rack, g', rack');
  }

  /** From one data block to the next the number stays or grows by one. */
  lemma NextNumber(bt: Batch, i: nat)
    requires BatchOk(bt) && i + 1 < DataBlocks(bt)
    ensures RackNumber(bt, i) <= RackNumber(bt, i + 1) <= RackNumber(bt, i) + 1
  {
    hide LayoutFor, Offset, Run, Within, FullRacks, Dictated, SharingFirst;
    var b, cap, full := bt.b, bt.cap, FullRacks(bt.b, bt.cap);
    var g, w := Run(b, i), Within(b, i);
    NumberParts(bt, i);
    RunIs(b, i);
    if w + 1 < b {
      RunUnique(b, g, w + 1);
      NextRun(cap, w);
    } else {
      GroupFits(b, g, g + 1);
      RunUnique(b, g + 1, 0);
      RunUnique(cap, 0, 0);
      ZeroOffset(cap);
      GroupFits(full + 1, g, g + 1);
      LastIsTail(b, cap);
    }
  }

  lemma ZeroOffset(size: nat)
    ensures Offset(size, 0) == 0
  {
  }

  lemma NextRun(size: nat, w: nat)
    requires size > 0
    ensures Run(size, w) <= Run(size, w + 1) <= Run(size, w) + 1
  {
    hide Run, Within, Offset;
    RunIs(size, w);
    var q, x := Run(size, w), Within(size, w);
    if x + 1 < size {
      RunUnique(size, q, x + 1);
    } else {
      GroupFits(size, q, q + 1);
      RunUnique(size, q + 1, 0);
    }
  }

  /** The last block of a group is in its tail rack. */
  lemma LastIsTail(b: nat, cap: nat)
    requires b > 0 && cap > 0
    ensures Run(cap, b - 1) == FullRacks(b, cap)
  {
    hide Run, Within, Offset, FullRacks;
    var load := Load(b, cap);
    RunUnique(cap, FullRacks(b, cap), load - 1);
  }

  /** The first block has number 0, and the parities follow the last data block. */
  lemma NumberEnds(bt: Batch)
    requires BatchOk(bt) && DataBlocks(bt) > 0
    ensures RackNumber(bt, 0) == 0 && RackNumber(bt, DataBlocks(bt) - 1) + 1 == ParityNumber(bt)
  {
    hide LayoutFor, Run, Within, Offset, FullRacks, Dictated, SharingFirst;
    var b, cap, z, full := bt.b, bt.cap, bt.z, FullRacks(bt.b, bt.cap);
    ZeroOffset(b);
    ZeroOffset(cap);
    ZeroOffset(full + 1);
    RunUnique(b, 0, 0);
    RunUnique(cap, 0, 0);
    GroupFits(b, z - 1, z);
    RunUnique(b, z - 1, b - 1);
    LastIsTail(b, cap);
    GroupFits(full + 1, z - 1, z);
  }

  // ---- Stripes in the tables ----

  /** Stripe number s: its batch and position, its node row, and every block on the rows of its batch. */
  ghost predicate StripeOnRows(bt: Batch, o: Arrays, t: Tables, s: nat)
    requires ArraysOk(o) && s in t.stripes
  {
    PositiveProduct(|o.rackRows|, |o.nodeRows|);
    var st, nodes := t.stripes[s], map c | c in t.racks :: t.racks[c].nodes;
    st.batch == s / Pow2(|bt.share|) && st.pos == s % Pow2(|bt.share|) &&
    st.oaRow == st.batch % (|o.rackRows| * |o.nodeRows|) % |o.nodeRows| &&
    |st.blocks| == st.k + st.r + st.z &&
    (forall i: nat :: i < |st.blocks| ==> OnRows(o, nodes, st.batch, T.At(t, s, i).place)) &&
    forall i: nat :: st.k <= i < |st.blocks| ==>
      T.At(t, s, i).place.rackCol == 1 && T.At(t, s, i).place.nodeCol == i - st.k + 1
  }

  lemma NodesAre(t: Tables)
    ensures NodesOf(t) == map c | c in t.racks :: t.racks[c].nodes
  {
  }

  /** The placement groups of a stripe are its racks, numbered in the order of the blocks. */
  ghost predicate GroupsAreRacks(t: Tables, s: nat)
    requires s in t.stripes
  {
    var st := t.stripes[s];
    (forall i: nat, j: nat :: i < |st.blocks| && j < |st.blocks| ==>
       (T.At(t, s, i).group == T.At(t, s, j).group <==>
        T.At(t, s, i).place.cluster == T.At(t, s, j).place.cluster)) &&
    (st.blocks != [] ==> T.At(t, s, 0).group == 0) &&
    forall i: nat, j: nat :: j == i + 1 && j < |st.blocks| ==>
      T.At(t, s, i).group <= T.At(t, s, j).group <= T.At(t, s, i).group + 1
  }
}

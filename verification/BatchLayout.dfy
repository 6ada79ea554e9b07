/**
 * A batch of stripes on the machines: logical columns become racks and nodes
 * through the rows of two tables of permutations.
 */
module BatchLayout {
  import opened MergeConfig
  import opened TailClasses
  import opened TailUnionFind
  import opened TailLayout
  import opened MergePlan

  /** The racks a batch may use. */
  const RACKS: nat := 17

  /** A batch layout with its parameters: z groups of b data blocks, racks of cap blocks. */
  datatype Batch = Batch(layout: Layout, share: seq<bool>, z: nat, b: nat, cap: nat)

  /** The layout is complete, fits, and every position of the batch can be placed. */
  ghost predicate BatchOk(bt: Batch) {
    bt.z > 0 && bt.b > 0 && bt.cap > 0 && Dictated(bt.share, bt.b, bt.cap) && SharingFirst(bt.share) &&
    LayoutFor(bt.layout, bt.share, bt.z, bt.b, bt.cap) && Racks(bt.b, bt.cap, bt.z, |bt.share|) <= RACKS
  }

  /** Data blocks per stripe. */
  function DataBlocks(bt: Batch): nat {
    Offset(bt.b, bt.z)
  }

  ghost function SlotIn(bt: Batch, pos: nat, i: nat): Slot
    requires BatchOk(bt) && pos < Pow2(|bt.share|) && i < DataBlocks(bt)
  {
    SlotOf(bt.layout, bt.share, bt.z, bt.b, bt.cap, pos, i)
  }

  // ---- Columns ----

  /** The column of a rack of a group. */
  ghost function ColumnAt(bt: Batch, pos: nat, g: nat, rack: nat): nat
    requires BatchOk(bt) && pos < Pow2(|bt.share|) && g < bt.z
  {
    SlotAt(bt.layout, bt.share, bt.z, bt.b, bt.cap, pos, g, rack, 0).rackCol
  }

  /** The group and rack that data block i of a stripe goes to. */
  lemma SlotColumn(bt: Batch, pos: nat, i: nat) returns (g: nat, rack: nat)
    requires BatchOk(bt) && pos < Pow2(|bt.share|) && i < DataBlocks(bt)
    ensures g < bt.z && rack <= FullRacks(bt.b, bt.cap)
    ensures SlotIn(bt, pos, i).rackCol == ColumnAt(bt, pos, g, rack) && SlotIn(bt, pos, i).localGroup == g
    ensures g == Run(bt.b, i) && rack == Run(bt.cap, Within(bt.b, i))
  {
    hide LayoutFor, Offset, Run, Within, FullRacks, Dictated, SharingFirst, TailColumn, FullColumn;
    var z, b, cap := bt.z, bt.b, bt.cap;
    GroupBound(z, b, i);
    var w := Within(b, i);
    RunIs(b, i);
    RunIs(cap, w);
    RackBound(b, cap, Run(cap, w), Within(cap, w));
    g, rack := Run(b, i), Run(cap, w);
  }

  /** A full rack's or a tail rack's column. */
  lemma ColumnIs(bt: Batch, pos: nat, g: nat, rack: nat)
    requires BatchOk(bt) && pos < Pow2(|bt.share|) && g < bt.z
    ensures FullNumbered(bt.layout.fullCols, bt.layout.firstFull, Pow2(|bt.share|), bt.z, FullRacks(bt.b, bt.cap))
    ensures Numbered(bt.layout.tailCol, bt.layout.firstFull, bt.share, bt.z, Pow2(|bt.share|), 0)
    ensures ColumnAt(bt, pos, g, rack) ==
      if rack < FullRacks(bt.b, bt.cap)
      then bt.layout.firstFull + Offset(FullRacks(bt.b, bt.cap), Elem(bt.z, pos, g)) + rack
      else TailColumn(bt.layout, bt.share, bt.z, pos, g)
  {
    hide LayoutFor, Offset, FullRacks, Dictated, SharingFirst, TailColumn, FullColumn, Elem, Numbered, FullNumbered;
    FullShape(bt.layout, bt.share, bt.z, bt.b, bt.cap);
  }

  /** Columns are the same exactly for the same full rack, or for tail racks of one class and group. */
  lemma ColumnsAgree(bt: Batch, pos: nat, g: nat, rack: nat, pos': nat, g': nat, rack': nat)
    requires BatchOk(bt) && pos < Pow2(|bt.share|) && pos' < Pow2(|bt.share|) && g < bt.z && g' < bt.z
    requires rack <= FullRacks(bt.b, bt.cap) && rack' <= FullRacks(bt.b, bt.cap)
    ensures ColumnAt(bt, pos, g, rack) == ColumnAt(bt, pos', g', rack') <==>
      g == g' && rack == rack' &&
      (pos == pos' || (rack == FullRacks(bt.b, bt.cap) && Rep(bt.share, |bt.share|, pos) == Rep(bt.share, |bt.share|, pos')))
  {
    hide LayoutFor, Offset, FullRacks, Dictated, SharingFirst, TailColumn, Elem, Numbered, FullNumbered, Rep, ColumnAt;
    ColumnIs(bt, pos, g, rack);
    ColumnIs(bt, pos', g', rack');
    var full := FullRacks(bt.b, bt.cap);
    if rack < full && rack' < full {
      FullSeparate(bt.layout.firstFull, bt.z, full, pos, g, rack, pos', g', rack');
    } else if rack == full && rack' == full {
      ColumnsSeparate(bt.layout, bt.share, bt.z, bt.b, bt.cap, pos, g, pos', g');
      SameTailColumn(bt, pos, g, pos', g');
    }
  }

  lemma SameTailColumn(bt: Batch, pos: nat, g: nat, pos': nat, g': nat)
    requires BatchOk(bt) && pos < Pow2(|bt.share|) && pos' < Pow2(|bt.share|) && g < bt.z && g' < bt.z
    requires Numbered(bt.layout.tailCol, bt.layout.firstFull, bt.share, bt.z, Pow2(|bt.share|), 0)
    ensures g == g' && Rep(bt.share, |bt.share|, pos) == Rep(bt.share, |bt.share|, pos') ==>
      TailColumn(bt.layout, bt.share, bt.z, pos, g) == TailColumn(bt.layout, bt.share, bt.z, pos', g')
  {
    hide LayoutFor, Dictated, SharingFirst, Elem, Numbered, Rep;
  }

  /** All columns lie between 2 and the number of racks. */
  lemma ColumnRange(bt: Batch, pos: nat, g: nat, rack: nat)
    requires BatchOk(bt) && pos < Pow2(|bt.share|) && g < bt.z && rack <= FullRacks(bt.b, bt.cap)
    ensures 2 <= ColumnAt(bt, pos, g, rack) <= RACKS
  {
    hide LayoutFor, Offset, FullRacks, Dictated, SharingFirst, TailColumn, Elem, Numbered, FullNumbered, Racks,
         ColumnAt;
    ColumnIs(bt, pos, g, rack);
    LastColumn(bt);
    if rack < FullRacks(bt.b, bt.cap) {
      FirstFullBound(bt.layout, bt.share, bt.z, bt.b, bt.cap, pos, g);
      ElemInRange(bt.z, FullRacks(bt.b, bt.cap), pos, g, rack, Pow2(|bt.share|));
    }
  }

  lemma LastColumn(bt: Batch)
    requires BatchOk(bt)
    ensures bt.layout.firstFull + Offset(FullRacks(bt.b, bt.cap), Offset(bt.z, Pow2(|bt.share|))) <= RACKS + 1
  {
    hide Offset, FullRacks, Dictated, SharingFirst, Numbered, FullNumbered, Racks;
  }

  lemma ElemInRange(z: nat, full: nat, pos: nat, g: nat, rack: nat, positions: nat)
    requires pos < positions && g < z && rack < full
    ensures Offset(full, Elem(z, pos, g)) + rack < Offset(full, Offset(z, positions))
  {
    hide Offset;
    OffsetUnique(z, pos, g, positions, 0);
    OffsetUnique(full, Elem(z, pos, g), rack, Offset(z, positions), 0);
  }

  // ---- Machines ----

  /** The two tables of permutations: a row of racks and a row of nodes for every batch. */
  datatype Arrays = Arrays(rackRows: seq<seq<int>>, nodeRows: seq<seq<int>>, width: nat)

  /** The row starts with a permutation of 1..width. */
  predicate Permutes(row: seq<int>, width: nat) {
    |row| >= width && (forall i :: 0 <= i < width ==> 1 <= row[i] <= width) &&
    forall i, j :: 0 <= i < j < width ==> row[i] != row[j]
  }

  /** What the placement checks about both tables; `width` is the number of nodes of a rack. */
  predicate ArraysOk(o: Arrays) {
    o.rackRows != [] && o.nodeRows != [] &&
    (forall i :: 0 <= i < |o.rackRows| ==> Permutes(o.rackRows[i], RACKS)) &&
    (forall i :: 0 <= i < |o.nodeRows| ==> Permutes(o.nodeRows[i], o.width))
  }

  /** Batches walk through all combinations of rows. */
  function RowsOf(o: Arrays, batch: nat): (rows: (nat, nat))
    requires ArraysOk(o)
    ensures rows.0 < |o.rackRows| && rows.1 < |o.nodeRows|
  {
    CycleInRange(|o.rackRows|, |o.nodeRows|, batch);
    var cycle := batch % (|o.rackRows| * |o.nodeRows|);
    (cycle / |o.nodeRows|, cycle % |o.nodeRows|)
  }

  lemma CycleInRange(a: nat, b: nat, batch: nat)
    requires a > 0 && b > 0
    ensures a * b > 0 && batch % (a * b) / b < a
  {
    MulPositive(a, b);
    var cycle := batch % (a * b);
    assert cycle == (cycle / b) * b + cycle % b;
    MulGrows(a, cycle / b, b);
  }

  lemma MulGrows(x: nat, y: nat, b: nat)
    ensures x <= y ==> x * b <= y * b
  {
  }

  /** The rack of a logical rack column. */
  function ClusterOf(o: Arrays, batch: nat, col: nat): (c: nat)
    requires ArraysOk(o) && 1 <= col <= RACKS
    ensures c < RACKS
  {
    assert Permutes(o.rackRows[RowsOf(o, batch).0], RACKS);
    o.rackRows[RowsOf(o, batch).0][col - 1] - 1
  }

  /** Every rack has its `width` nodes, all different. */
  predicate Equipped(o: Arrays, racks: map<nat, seq<nat>>) {
    forall c: nat :: c < RACKS ==> c in racks && |racks[c]| == o.width && NoDup(racks[c])
  }

  /** The place of a logical rack and node column. */
  function PlaceOf(o: Arrays, racks: map<nat, seq<nat>>, batch: nat, rackCol: nat, nodeCol: nat): (p: Place)
    requires ArraysOk(o) && Equipped(o, racks) && 1 <= rackCol <= RACKS && 1 <= nodeCol <= o.width
    ensures p.cluster in racks && p.node in racks[p.cluster]
  {
    var c := ClusterOf(o, batch, rackCol);
    assert Permutes(o.nodeRows[RowsOf(o, batch).1], o.width);
    Place(c, racks[c][o.nodeRows[RowsOf(o, batch).1][nodeCol - 1] - 1], rackCol, nodeCol)
  }

  /** Different columns are different racks. */
  lemma ClustersDiffer(o: Arrays, batch: nat, x: nat, y: nat)
    requires ArraysOk(o) && 1 <= x <= RACKS && 1 <= y <= RACKS && ClusterOf(o, batch, x) == ClusterOf(o, batch, y)
    ensures x == y
  {
    hide RowsOf;
    var row := o.rackRows[RowsOf(o, batch).0];
    assert Permutes(row, RACKS);
    OneToOne(row, RACKS, x - 1, y - 1);
  }

  /** Within a batch different columns are different nodes of their rack. */
  lemma PlacesDiffer(o: Arrays, racks: map<nat, seq<nat>>, batch: nat, x: nat, i: nat, y: nat, j: nat)
    requires ArraysOk(o) && Equipped(o, racks)
    requires 1 <= x <= RACKS && 1 <= y <= RACKS && 1 <= i <= o.width && 1 <= j <= o.width
    requires PlaceOf(o, racks, batch, x, i).cluster == PlaceOf(o, racks, batch, y, j).cluster
    requires PlaceOf(o, racks, batch, x, i).node == PlaceOf(o, racks, batch, y, j).node
    ensures x == y && i == j
  {
    hide RowsOf, ClusterOf;
    ClustersDiffer(o, batch, x, y);
    var row := o.nodeRows[RowsOf(o, batch).1];
    assert Permutes(row, o.width);
    var nodes := racks[ClusterOf(o, batch, x)];
    SameElement(nodes, row[i - 1] - 1, row[j - 1] - 1);
    OneToOne(row, o.width, i - 1, j - 1);
  }

  lemma OneToOne(row: seq<int>, width: nat, i: nat, j: nat)
    requires Permutes(row, width) && i < width && j < width && row[i] == row[j]
    ensures i == j
  {
  }

  lemma SameElement(s: seq<nat>, i: nat, j: nat)
    requires NoDup(s) && i < |s| && j < |s| && s[i] == s[j]
    ensures i == j
  {
  }

  // ---- Data blocks of a batch ----

  /** The place of data block i of the stripe at a position, on racks with enough nodes. */
  ghost function DataPlace(bt: Batch, o: Arrays, racks: map<nat, seq<nat>>, batch: nat, pos: nat, i: nat): (p: Place)
    requires BatchOk(bt) && ArraysOk(o) && Equipped(o, racks) && bt.cap <= o.width
    requires pos < Pow2(|bt.share|) && i < DataBlocks(bt)
  {
    hide BatchOk, ArraysOk, Equipped;
    SlotRange(bt, pos, i);
    PlaceOf(o, racks, batch, SlotIn(bt, pos, i).rackCol, SlotIn(bt, pos, i).nodeCol)
  }

  lemma SlotRange(bt: Batch, pos: nat, i: nat)
    requires BatchOk(bt) && pos < Pow2(|bt.share|) && i < DataBlocks(bt)
    ensures 2 <= SlotIn(bt, pos, i).rackCol <= RACKS && 1 <= SlotIn(bt, pos, i).nodeCol <= bt.cap
    ensures SlotIn(bt, pos, i).localGroup < bt.z
  {
    hide LayoutFor, Offset, FullRacks, Dictated, SharingFirst, ColumnAt, SlotOf, Placeable, Racks;
    var g, rack := SlotColumn(bt, pos, i);
    ColumnRange(bt, pos, g, rack);
    SlotsInRange(bt.layout, bt.share, bt.z, bt.b, bt.cap, pos, i);
    SharingFirstPlaceable(bt.share, bt.b, bt.cap, pos);
  }

  /** Data blocks of a batch on one rack are of one group ... */
  lemma RackPure(bt: Batch, o: Arrays, racks: map<nat, seq<nat>>, batch: nat, pos: nat, i: nat, pos': nat, i': nat)
    requires BatchOk(bt) && ArraysOk(o) && Equipped(o, racks) && bt.cap <= o.width
    requires pos < Pow2(|bt.share|) && i < DataBlocks(bt) && pos' < Pow2(|bt.share|) && i' < DataBlocks(bt)
    requires DataPlace(bt, o, racks, batch, pos, i).cluster == DataPlace(bt, o, racks, batch, pos', i').cluster
    ensures SlotIn(bt, pos, i).localGroup == SlotIn(bt, pos', i').localGroup
    ensures SlotIn(bt, pos, i).rackCol == SlotIn(bt, pos', i').rackCol
  {
    hide BatchOk, ArraysOk, Equipped, SlotIn, ClusterOf, ColumnAt;
    SlotRange(bt, pos, i);
    SlotRange(bt, pos', i');
    ClustersDiffer(o, batch, SlotIn(bt, pos, i).rackCol, SlotIn(bt, pos', i').rackCol);
    BatchBasics(bt);
    var g, rack := SlotColumn(bt, pos, i);
    var g', rack' := SlotColumn(bt, pos', i');
    ColumnsAgree(bt, pos, g, rack, pos', g', rack');
  }

  lemma BatchBasics(bt: Batch)
    requires BatchOk(bt)
    ensures bt.z > 0 && bt.b > 0 && bt.cap > 0
  {
  }

  /** ... and on different nodes. */
  lemma DataApart(bt: Batch, o: Arrays, racks: map<nat, seq<nat>>, batch: nat, pos: nat, i: nat, pos': nat, i': nat)
    requires BatchOk(bt) && ArraysOk(o) && Equipped(o, racks) && bt.cap <= o.width
    requires pos < Pow2(|bt.share|) && i < DataBlocks(bt) && pos' < Pow2(|bt.share|) && i' < DataBlocks(bt)
    requires DataPlace(bt, o, racks, batch, pos, i).cluster == DataPlace(bt, o, racks, batch, pos', i').cluster
    requires DataPlace(bt, o, racks, batch, pos, i).node == DataPlace(bt, o, racks, batch, pos', i').node
    ensures pos == pos' && i == i'
  {
    hide ArraysOk, Equipped, PlaceOf, LayoutFor, Dictated, SharingFirst, SlotOf, Offset, Racks;
    SlotRange(bt, pos, i);
    SlotRange(bt, pos', i');
    var s, s' := SlotIn(bt, pos, i), SlotIn(bt, pos', i');
    PlacesDiffer(o, racks, batch, s.rackCol, s.nodeCol, s'.rackCol, s'.nodeCol);
    SlotsDistinct(bt.layout, bt.share, bt.z, bt.b, bt.cap, pos, i, pos', i');
  }

  /** Data is never on the parity rack. */
  lemma DataOffParity(bt: Batch, o: Arrays, racks: map<nat, seq<nat>>, batch: nat, pos: nat, i: nat)
    requires BatchOk(bt) && ArraysOk(o) && Equipped(o, racks) && bt.cap <= o.width
    requires pos < Pow2(|bt.share|) && i < DataBlocks(bt)
    ensures DataPlace(bt, o, racks, batch, pos, i).cluster != ClusterOf(o, batch, 1)
    ensures 1 <= DataPlace(bt, o, racks, batch, pos, i).nodeCol <= bt.cap
    ensures DataPlace(bt, o, racks, batch, pos, i).cluster in racks
    ensures DataPlace(bt, o, racks, batch, pos, i).node in racks[DataPlace(bt, o, racks, batch, pos, i).cluster]
  {
    hide BatchOk, ArraysOk, Equipped, SlotIn, ClusterOf;
    SlotRange(bt, pos, i);
    var s := SlotIn(bt, pos, i);
    if ClusterOf(o, batch, s.rackCol) == ClusterOf(o, batch, 1) {
      ClustersDiffer(o, batch, s.rackCol, 1);
    }
  }
}

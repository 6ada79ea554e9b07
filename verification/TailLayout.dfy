/**
 * The logical layout of a batch: a column for every tail class and every full
 * rack, and the slot - rack column and node column - of every data block.
 */
module TailLayout {
  import opened MergeConfig
  import opened TailClasses
  import opened TailUnionFind

  /** Where a data block goes, and the local group it belongs to. */
  datatype Slot = Slot(rackCol: nat, nodeCol: nat, localGroup: nat)

  /** Columns by tail class root and by (position, group, full rack); columns from firstFull on are full racks. */
  datatype Layout = Layout(tailCol: map<nat, nat>, firstFull: nat, fullCols: seq<seq<seq<nat>>>, rackCount: nat)

  // ---- Numbering the racks ----

  /** The number of racks of one group of a single stripe that are filled completely. */
  function FullRacks(b: nat, cap: nat): nat
    requires b > 0 && cap > 0
  {
    GroupsPositive(b, cap);
    GroupRacks(b, cap, 0) - 1
  }

  lemma GroupsPositive(b: nat, cap: nat)
    requires b > 0 && cap > 0
    ensures GroupRacks(b, cap, 0) >= 1
  {
    CeilDivIs(b, cap, GroupRacks(b, cap, 0));
    if GroupRacks(b, cap, 0) == 0 {
      CeilDivIs(b, cap, 0);
    }
  }

  /** Position `pos` and group `group` come before (p, g) in the numbering order. */
  predicate Earlier(pos: nat, group: nat, p: nat, g: nat) {
    pos < p || (pos == p && group < g)
  }

  /** What the tail columns are after everything before (pos, group) has been numbered. */
  ghost predicate Numbered(tailCol: map<nat, nat>, next: nat, share: seq<bool>, z: nat, pos: nat, group: nat) {
    (forall p: nat, g: nat :: p < Pow2(|share|) && g < z && Earlier(p, g, pos, group) ==>
       Elem(z, Rep(share, |share|, p), g) in tailCol) &&
    (forall key :: key in tailCol ==> 2 <= tailCol[key] < next && Known(key, share, z, pos, group)) &&
    (forall key, key' :: key in tailCol && key' in tailCol && tailCol[key] == tailCol[key'] ==> key == key')
  }

  /** The key is the element of a representative before (pos, group). */
  ghost predicate Known(key: nat, share: seq<bool>, z: nat, pos: nat, group: nat) {
    exists p: nat, g: nat :: p < Pow2(|share|) && g < z && Earlier(p, g, pos, group) && key == Elem(z, p, g)
  }

  /** A root is already numbered exactly if its position is not its own representative. */
  lemma NumberedBefore(tailCol: map<nat, nat>, next: nat, share: seq<bool>, z: nat, pos: nat, group: nat)
    requires Numbered(tailCol, next, share, z, pos, group) && pos < Pow2(|share|) && group < z
    ensures Elem(z, Rep(share, |share|, pos), group) in tailCol <==> Rep(share, |share|, pos) != pos
  {
    hide Elem;
    var rep := Rep(share, |share|, pos);
    if rep != pos {
      RepIdempotent(share, |share|, pos);
      assert Earlier(rep, group, pos, group);
    } else if Elem(z, rep, group) in tailCol {
      var p: nat, g: nat :| p < Pow2(|share|) && g < z && Earlier(p, g, pos, group) && Elem(z, rep, group) == Elem(z, p, g);
      ElemUnique(z, pos, group, p, g);
    }
  }

  lemma KnownLater(key: nat, share: seq<bool>, z: nat, pos: nat, group: nat, pos': nat, group': nat)
    requires Known(key, share, z, pos, group)
    requires pos < pos' || (pos == pos' && group <= group')
    ensures Known(key, share, z, pos', group')
  {
    hide Elem;
    var p: nat, g: nat :| p < Pow2(|share|) && g < z && Earlier(p, g, pos, group) && key == Elem(z, p, g);
    assert Earlier(p, g, pos', group');
  }

  lemma NumberedSkip(tailCol: map<nat, nat>, next: nat, share: seq<bool>, z: nat, pos: nat, group: nat)
    requires Numbered(tailCol, next, share, z, pos, group) && pos < Pow2(|share|) && group < z
    requires Elem(z, Rep(share, |share|, pos), group) in tailCol
    ensures Numbered(tailCol, next, share, z, pos, group + 1)
  {
    hide Elem, Rep, Known;
    forall key | key in tailCol
      ensures Known(key, share, z, pos, group + 1)
    {
      KnownLater(key, share, z, pos, group, pos, group + 1);
    }
  }

  lemma NumberedAdd(tailCol: map<nat, nat>, next: nat, share: seq<bool>, z: nat, pos: nat, group: nat)
    requires Numbered(tailCol, next, share, z, pos, group) && pos < Pow2(|share|) && group < z
    requires Rep(share, |share|, pos) == pos && next >= 2
    ensures Numbered(tailCol[Elem(z, pos, group) := next], next + 1, share, z, pos, group + 1)
  {
    hide Elem, Rep, Known;
    NewKnown(share, z, pos, group);
    forall key | key in tailCol
      ensures Known(key, share, z, pos, group + 1)
    {
      KnownLater(key, share, z, pos, group, pos, group + 1);
    }
  }

  lemma NewKnown(share: seq<bool>, z: nat, pos: nat, group: nat)
    requires pos < Pow2(|share|) && group < z
    ensures Known(Elem(z, pos, group), share, z, pos, group + 1)
  {
    hide Elem;
    assert Earlier(pos, group, pos, group + 1);
  }

  lemma NumberedNext(tailCol: map<nat, nat>, next: nat, share: seq<bool>, z: nat, pos: nat)
    requires Numbered(tailCol, next, share, z, pos, z)
    ensures Numbered(tailCol, next, share, z, pos + 1, 0)
  {
    hide Elem, Rep, Known;
    forall key | key in tailCol
      ensures Known(key, share, z, pos + 1, 0)
    {
      KnownLater(key, share, z, pos, z, pos + 1, 0);
    }
  }

  /**
   * The columns are given in order of first appearance: position by position, and for a position that
   * represents its class group by group.
   */
  ghost predicate TailsInOrder(tailCol: map<nat, nat>, share: seq<bool>, z: nat) {
    forall p: nat, g: nat :: p < Pow2(|share|) && g < z && Elem(z, p, g) in tailCol ==>
      tailCol[Elem(z, p, g)] == 2 + CountReps(share, |share|, p) * z + g
  }

  lemma NextTail(tailCol: map<nat, nat>, share: seq<bool>, z: nat, pos: nat, group: nat)
    requires TailsInOrder(tailCol, share, z) && pos < Pow2(|share|) && group < z
    ensures TailsInOrder(tailCol[Elem(z, pos, group) := 2 + CountReps(share, |share|, pos) * z + group], share, z)
  {
    hide Elem, CountReps;
    var tailCol' := tailCol[Elem(z, pos, group) := 2 + CountReps(share, |share|, pos) * z + group];
    forall p: nat, g: nat | p < Pow2(|share|) && g < z && Elem(z, p, g) in tailCol'
      ensures tailCol'[Elem(z, p, g)] == 2 + CountReps(share, |share|, p) * z + g
    {
      ElemUnique(z, pos, group, p, g);
    }
  }

  /** Gives every tail class a column of its own, in order of first appearance. */
  method NumberTails(parent: array<nat>, share: seq<bool>, z: nat) returns (tailCol: map<nat, nat>, next: nat)
    requires z > 0 && parent.Length == Pow2(|share|) * z && Forest(parent[..])
    requires forall pos: nat, g: nat :: pos < Pow2(|share|) && g < z ==>
      Elem(z, pos, g) < parent.Length &&
      Root(parent[..], Elem(z, pos, g)) == Elem(z, Rep(share, |share|, pos), g)
    modifies parent
    ensures SameRoots(parent[..], old(parent[..]))
    ensures Numbered(tailCol, next, share, z, Pow2(|share|), 0)
    ensures next == 2 + CountReps(share, |share|, Pow2(|share|)) * z
    ensures TailsInOrder(tailCol, share, z)
  {
    hide Root, Elem, Rep, Numbered, TailsInOrder;
    NoTails(share, z);
    tailCol, next := map[], 2;
    assert Numbered(tailCol, next, share, z, 0, 0) by { NumberedStart(share, z); }
    ghost var original := parent[..];
    for pos := 0 to Pow2(|share|)
      invariant SameRoots(parent[..], original)
      invariant Numbered(tailCol, next, share, z, pos, 0)
      invariant next == 2 + CountReps(share, |share|, pos) * z
      invariant TailsInOrder(tailCol, share, z)
    {
      ghost var rep := Rep(share, |share|, pos);
      ghost var before := next;
      for group := 0 to z
        invariant SameRoots(parent[..], original)
        invariant Numbered(tailCol, next, share, z, pos, group)
        invariant next == before + if rep == pos then group else 0
        invariant TailsInOrder(tailCol, share, z)
      {
        NumberedBefore(tailCol, next, share, z, pos, group);
        var root: nat := FindRoot(parent, Elem(z, pos, group));
        if root in tailCol {
          NumberedSkip(tailCol, next, share, z, pos, group);
        } else {
          NumberedAdd(tailCol, next, share, z, pos, group);
          NextTail(tailCol, share, z, pos, group);
          tailCol := tailCol[root := next];
          next := next + 1;
        }
      }
      NumberedNext(tailCol, next, share, z, pos);
    }
  }

  lemma NoTails(share: seq<bool>, z: nat)
    ensures TailsInOrder(map[], share, z)
  {
  }

  lemma NumberedStart(share: seq<bool>, z: nat)
    ensures Numbered(map[], 2, share, z, 0, 0)
  {
  }

  /** The columns of the full racks run on from `first`, in order of position, group and rack. */
  ghost predicate FullNumbered(fullCols: seq<seq<seq<nat>>>, first: nat, positions: nat, z: nat, full: nat) {
    |fullCols| == positions &&
    forall p: nat :: p < positions ==> RowNumbered(fullCols[p], first, p, z, full)
  }

  ghost predicate RowNumbered(row: seq<seq<nat>>, first: nat, p: nat, z: nat, full: nat) {
    |row| == z &&
    forall g: nat :: g < z ==> CellNumbered(row[g], first + Offset(full, Elem(z, p, g)), full)
  }

  ghost predicate CellNumbered(cols: seq<nat>, first: nat, full: nat) {
    |cols| == full && forall rack: nat :: rack < full ==> cols[rack] == first + rack
  }

  method NumberFull(positions: nat, z: nat, full: nat, first: nat) returns (fullCols: seq<seq<seq<nat>>>, next: nat)
    ensures FullNumbered(fullCols, first, positions, z, full)
    ensures next == first + Offset(full, Offset(z, positions))
  {
    hide Offset, RowNumbered;
    fullCols, next := [], first;
    assert Offset(z, 0) == 0 && Offset(full, 0) == 0 by { OffsetIs(z, 0); OffsetIs(full, 0); }
    for pos := 0 to positions
      invariant FullNumbered(fullCols, first, pos, z, full)
      invariant next == first + Offset(full, Offset(z, pos))
    {
      var row;
      row, next := NumberRow(pos, z, full, first, next);
      fullCols := fullCols + [row];
    }
  }

  method NumberRow(pos: nat, z: nat, full: nat, first: nat, start: nat) returns (row: seq<seq<nat>>, next: nat)
    requires start == first + Offset(full, Offset(z, pos))
    ensures RowNumbered(row, first, pos, z, full)
    ensures next == first + Offset(full, Offset(z, pos + 1))
  {
    row, next := [], start;
    for group := 0 to z
      invariant |row| == group
      invariant forall g: nat :: g < group ==> CellNumbered(row[g], first + Offset(full, Elem(z, pos, g)), full)
      invariant next == first + Offset(full, Elem(z, pos, group))
    {
      var cols: seq<nat> := [];
      for rack := 0 to full
        invariant CellNumbered(cols, first + Offset(full, Elem(z, pos, group)), rack)
        invariant next == first + Offset(full, Elem(z, pos, group)) + rack
      {
        cols := cols + [next];
        next := next + 1;
      }
      assert Elem(z, pos, group + 1) == Elem(z, pos, group) + 1;
      row := row + [cols];
    }
    assert Elem(z, pos, z) == Offset(z, pos + 1);
  }

  /** A layout that numbers the tail classes and full racks of a batch, and no other racks. */
  ghost predicate LayoutFor(l: Layout, share: seq<bool>, z: nat, b: nat, cap: nat)
    requires b > 0 && cap > 0
  {
    Numbered(l.tailCol, l.firstFull, share, z, Pow2(|share|), 0) &&
    FullNumbered(l.fullCols, l.firstFull, Pow2(|share|), z, FullRacks(b, cap)) &&
    l.rackCount == Racks(b, cap, z, |share|) &&
    l.rackCount + 1 == l.firstFull + Offset(FullRacks(b, cap), Offset(z, Pow2(|share|)))
  }

  /** The racks numbered are exactly the racks the arithmetic announces for the fully merged stripe. */
  lemma RacksAdd(share: seq<bool>, z: nat, b: nat, cap: nat)
    requires b > 0 && cap > 0 && Dictated(share, b, cap)
    ensures CountReps(share, |share|, Pow2(|share|)) * z + Offset(FullRacks(b, cap), Offset(z, Pow2(|share|))) + 1
         == Racks(b, cap, z, |share|)
  {
    hide GroupRacks, Dictated;
    ClassesAreRacks(share, b, cap, |share|);
    var size, full, count := Pow2(|share|), FullRacks(b, cap), CountReps(share, |share|, Pow2(|share|));
    OffsetIs(z, size);
    OffsetIs(full, Offset(z, size));
    Rearranged(size, z, full, count);
  }

  lemma Rearranged(size: nat, z: nat, full: nat, count: nat)
    ensures count * z + size * z * full == z * (count + size * full)
  {
    assert size * z * full == z * (size * full);
  }

  method BuildLayout(share: seq<bool>, z: nat, b: nat, cap: nat) returns (l: Layout, parent: array<nat>)
    requires z > 0 && b > 0 && cap > 0 && Dictated(share, b, cap)
    ensures LayoutFor(l, share, z, b, cap) && TailsInOrder(l.tailCol, share, z)
    ensures fresh(parent) && parent.Length == Pow2(|share|) * z && Forest(parent[..])
    ensures forall pos: nat, g: nat :: pos < Pow2(|share|) && g < z ==>
      Elem(z, pos, g) < parent.Length && Root(parent[..], Elem(z, pos, g)) == Elem(z, Rep(share, |share|, pos), g)
  {
    hide Dictated, Numbered, FullNumbered, Root, Elem, Rep, TailsInOrder;
    parent := JoinTails(share, z);
    ghost var roots := parent[..];
    var tailCol, first := NumberTails(parent, share, z);
    var racks := (b + cap - 1) / cap;
    assert racks == GroupRacks(b, cap, 0);
    var fullCols, next := NumberFull(Pow2(|share|), z, FullRacks(b, cap), first);
    RacksAdd(share, z, b, cap);
    l := Layout(tailCol, first, fullCols, next - 1);
  }

  // ---- Slots ----

  /** Which run of `size` the n-th element falls into, and where in it. */
  function Run(size: nat, n: nat): nat
    requires size > 0
  {
    n / size
  }

  function Within(size: nat, n: nat): nat
    requires size > 0
  {
    n % size
  }

  lemma RunIs(size: nat, n: nat)
    requires size > 0
    ensures Within(size, n) < size && n == Offset(size, Run(size, n)) + Within(size, n)
  {
    OffsetIs(size, n / size);
  }

  lemma RunUnique(size: nat, q: nat, i: nat)
    requires i < size
    ensures Run(size, Offset(size, q) + i) == q && Within(size, Offset(size, q) + i) == i
  {
    hide Run, Within, Offset;
    var n := Offset(size, q) + i;
    RunIs(size, n);
    OffsetUnique(size, q, i, Run(size, n), Within(size, n));
  }

  lemma OffsetUnique(size: nat, q: nat, i: nat, q': nat, i': nat)
    requires i < size && i' < size
    ensures Offset(size, q) + i == Offset(size, q') + i' <==> q == q' && i == i'
    ensures q < q' ==> Offset(size, q) + i < Offset(size, q')
  {
    OffsetIs(size, q); OffsetIs(size, q');
    SplitUnique(size, q, i, q', i');
    SplitUnique(size, q, i, q', 0);
  }

  /** The slot of data block i of the stripe at position pos. */
  ghost function SlotOf(l: Layout, share: seq<bool>, z: nat, b: nat, cap: nat, pos: nat, i: nat): Slot
    requires b > 0 && cap > 0 && LayoutFor(l, share, z, b, cap) && pos < Pow2(|share|) && i < Offset(b, z)
  {
    hide LayoutFor, Run, Within, Offset;
    GroupBound(z, b, i);
    var w := Within(b, i);
    SlotAt(l, share, z, b, cap, pos, Run(b, i), Run(cap, w), Within(cap, w))
  }

  lemma GroupBound(z: nat, b: nat, i: nat)
    requires b > 0 && i < Offset(b, z)
    ensures Run(b, i) < z
  {
    hide Run, Within, Offset;
    RunIs(b, i);
    OffsetUnique(b, z, 0, Run(b, i), Within(b, i));
  }

  /** The slot of the index-th block of a rack of a group. */
  ghost function SlotAt(l: Layout, share: seq<bool>, z: nat, b: nat, cap: nat, pos: nat, g: nat, rack: nat,
                        index: nat): Slot
    requires b > 0 && cap > 0 && LayoutFor(l, share, z, b, cap) && pos < Pow2(|share|) && g < z
  {
    hide Numbered, FullNumbered;
    if rack < FullRacks(b, cap) then
      Slot(FullColumn(l, |share|, z, FullRacks(b, cap), pos, g, rack), index + 1, g)
    else
      Slot(TailColumn(l, share, z, pos, g), Offset(Load(b, cap), Before(share, |share|, pos)) + index + 1, g)
  }

  ghost function FullColumn(l: Layout, n: nat, z: nat, full: nat, pos: nat, g: nat, rack: nat): (col: nat)
    requires FullNumbered(l.fullCols, l.firstFull, Pow2(n), z, full) && pos < Pow2(n) && g < z && rack < full
    ensures col == l.firstFull + Offset(full, Elem(z, pos, g)) + rack
  {
    hide Offset, Elem;
    assert RowNumbered(l.fullCols[pos], l.firstFull, pos, z, full);
    l.fullCols[pos][g][rack]
  }

  ghost function TailColumn(l: Layout, share: seq<bool>, z: nat, pos: nat, g: nat): (col: nat)
    requires Numbered(l.tailCol, l.firstFull, share, z, Pow2(|share|), 0) && pos < Pow2(|share|) && g < z
    ensures 2 <= col < l.firstFull
  {
    hide Elem, Rep;
    TailKnown(l.tailCol, l.firstFull, share, z, pos, g);
    l.tailCol[Elem(z, Rep(share, |share|, pos), g)]
  }

  lemma TailKnown(tailCol: map<nat, nat>, next: nat, share: seq<bool>, z: nat, pos: nat, g: nat)
    requires Numbered(tailCol, next, share, z, Pow2(|share|), 0) && pos < Pow2(|share|) && g < z
    ensures Elem(z, Rep(share, |share|, pos), g) in tailCol
  {
    hide Elem, Rep;
    assert Earlier(pos, g, Pow2(|share|), 0);
  }

  /** The blocks in the tail rack of one stripe's group. */
  function Load(b: nat, cap: nat): (load: nat)
    requires b > 0 && cap > 0
    ensures 1 <= load <= cap && b == Offset(cap, FullRacks(b, cap)) + load
    ensures load == TailLoad(b, cap, 0)
  {
    TailLoadRange(b, cap, 0);
    OffsetIs(cap, FullRacks(b, cap));
    TailLoad(b, cap, 0)
  }

  /** Block g * b + rack * cap + index is the index-th block of its rack. */
  lemma SlotIndex(l: Layout, share: seq<bool>, z: nat, b: nat, cap: nat, pos: nat, g: nat, rack: nat, index: nat)
    requires b > 0 && cap > 0 && LayoutFor(l, share, z, b, cap) && pos < Pow2(|share|)
    requires g < z && index < cap && Offset(cap, rack) + index < b
    ensures Offset(b, g) + Offset(cap, rack) + index < Offset(b, z)
    ensures SlotOf(l, share, z, b, cap, pos, Offset(b, g) + Offset(cap, rack) + index)
         == SlotAt(l, share, z, b, cap, pos, g, rack, index)
  {
    hide LayoutFor, SlotAt, Offset, Run, Within;
    var w := Offset(cap, rack) + index;
    OffsetUnique(b, g, w, z, 0);
    RunUnique(b, g, w);
    RunUnique(cap, rack, index);
  }

  // ---- Placing one stripe ----

  /** What placing a stripe gives: its slots, or one of the two errors the coordinator throws. */
  datatype Placement = Placed(slots: seq<Slot>) | TooManyRacks | TailOverflow

  /** One more earlier stripe pushes the tail on exactly if it is of the same class. */
  lemma TailStep(share: seq<bool>, z: nat, pos: nat, group: nat, previous: nat, load: nat)
    requires previous < pos < Pow2(|share|) && group < z
    ensures Offset(load, Rank(share, |share|, pos, previous + 1))
         == Offset(load, Rank(share, |share|, pos, previous))
            + if Elem(z, Rep(share, |share|, previous), group) == Elem(z, Rep(share, |share|, pos), group) then load else 0
  {
    hide Rep, Elem;
    ElemUnique(z, Rep(share, |share|, previous), group, Rep(share, |share|, pos), group);
  }

  lemma TailEmpty(share: seq<bool>, pos: nat, load: nat)
    requires pos < Pow2(|share|)
    ensures Rank(share, |share|, pos, 0) == 0 && Offset(load, 0) == 0
  {
  }

  /** How far the tail blocks of earlier stripes already fill the tail rack. */
  method TailOffset(parent: array<nat>, share: seq<bool>, z: nat, pos: nat, group: nat, load: nat) returns (offset: nat)
    requires parent.Length == Pow2(|share|) * z && Forest(parent[..]) && pos < Pow2(|share|) && group < z
    requires forall p: nat, g: nat :: p < Pow2(|share|) && g < z ==>
      Elem(z, p, g) < parent.Length && Root(parent[..], Elem(z, p, g)) == Elem(z, Rep(share, |share|, p), g)
    modifies parent
    ensures SameRoots(parent[..], old(parent[..]))
    ensures offset == Offset(load, Before(share, |share|, pos))
  {
    hide Root, Elem, Rep, Offset, Rank;
    offset := 0;
    assert Rank(share, |share|, pos, 0) == 0 && Offset(load, 0) == 0 by { TailEmpty(share, pos, load); }
    ghost var original := parent[..];
    var root := FindRoot(parent, Elem(z, pos, group));
    for previous := 0 to pos
      invariant SameRoots(parent[..], original)
      invariant offset == Offset(load, Rank(share, |share|, pos, previous))
    {
      var other := FindRoot(parent, Elem(z, previous, group));
      TailStep(share, z, pos, group, previous, load);
      if other == root {
        offset := offset + load;
      }
    }
  }

  /** The first `count` slots are those of the stripe at position pos. */
  ghost predicate SlotsAre(slots: seq<Slot>, l: Layout, share: seq<bool>, z: nat, b: nat, cap: nat, pos: nat,
                           count: nat)
    requires b > 0 && cap > 0 && LayoutFor(l, share, z, b, cap) && pos < Pow2(|share|)
  {
    |slots| == count <= Offset(b, z) && forall i: nat :: i < count ==> slots[i] == SlotOf(l, share, z, b, cap, pos, i)
  }

  /** `initialize_ddlrt_lrc_stripe_placement`: the slots of a stripe, or why it cannot be placed. */
  method PlaceStripe(l: Layout, parent: array<nat>, share: seq<bool>, z: nat, b: nat, cap: nat, pos: nat,
                     clusterNum: nat)
      returns (result: Placement)
    requires b > 0 && cap > 0 && LayoutFor(l, share, z, b, cap) && pos < Pow2(|share|)
    requires parent.Length == Pow2(|share|) * z && Forest(parent[..])
    requires forall p: nat, g: nat :: p < Pow2(|share|) && g < z ==>
      Elem(z, p, g) < parent.Length && Root(parent[..], Elem(z, p, g)) == Elem(z, Rep(share, |share|, p), g)
    modifies parent
    ensures result.TooManyRacks? <==> Racks(b, cap, z, |share|) > clusterNum
    ensures result.TailOverflow? <==> Racks(b, cap, z, |share|) <= clusterNum && z > 0 && !Placeable(share, b, cap, pos)
    ensures result.Placed? ==> SlotsAre(result.slots, l, share, z, b, cap, pos, Offset(b, z))
    ensures SameRoots(parent[..], old(parent[..]))
  {
    hide Root, Elem, Rep, LayoutFor, SlotOf, SlotAt, Racks, Offset;
    LayoutRacks(l, share, z, b, cap);
    if l.rackCount > clusterNum {
      return TooManyRacks;
    }
    ghost var original := parent[..];
    var slots: seq<Slot> := [];
    OffsetIs(b, 0);
    for group := 0 to z
      invariant SameRoots(parent[..], original)
      invariant SlotsAre(slots, l, share, z, b, cap, pos, Offset(b, group))
      invariant group > 0 ==> Placeable(share, b, cap, pos)
    {
      slots := PlaceFullRacks(l, share, z, b, cap, pos, group, slots);
      var load := Load(b, cap);
      var offset := TailOffset(parent, share, z, pos, group, load);
      OffsetIs(load, Before(share, |share|, pos));
      GroupFits(b, group, z);
      if offset + load > cap {
        return TailOverflow;
      }
      var root := FindRoot(parent, Elem(z, pos, group));
      TailColumnIs(l, share, z, b, cap, pos, group);
      slots := PlaceTail(l, share, z, b, cap, pos, group, offset, l.tailCol[root], slots);
    }
    return Placed(slots);
  }

  lemma TailColumnIs(l: Layout, share: seq<bool>, z: nat, b: nat, cap: nat, pos: nat, group: nat)
    requires b > 0 && cap > 0 && LayoutFor(l, share, z, b, cap) && pos < Pow2(|share|) && group < z
    ensures Elem(z, Rep(share, |share|, pos), group) in l.tailCol
    ensures Numbered(l.tailCol, l.firstFull, share, z, Pow2(|share|), 0)
    ensures l.tailCol[Elem(z, Rep(share, |share|, pos), group)] == TailColumn(l, share, z, pos, group)
  {
    hide Elem, Rep;
    TailKnown(l.tailCol, l.firstFull, share, z, pos, group);
  }

  lemma LayoutRacks(l: Layout, share: seq<bool>, z: nat, b: nat, cap: nat)
    requires b > 0 && cap > 0 && LayoutFor(l, share, z, b, cap)
    ensures l.rackCount == Racks(b, cap, z, |share|)
  {
  }

  lemma GroupFits(b: nat, group: nat, z: nat)
    requires group < z
    ensures Offset(b, group + 1) == Offset(b, group) + b && Offset(b, group) + b <= Offset(b, z)
  {
    OffsetIs(b, group); OffsetIs(b, z);
    MulPositive(z - group - 1, if b > 0 then b else 1);
    assert z * b == group * b + b + (z - group - 1) * b;
  }

  /** The full racks of one group: r+1 blocks each, on node columns 1..r+1. */
  method PlaceFullRacks(l: Layout, share: seq<bool>, z: nat, b: nat, cap: nat, pos: nat, group: nat, placed: seq<Slot>)
      returns (slots: seq<Slot>)
    requires b > 0 && cap > 0 && LayoutFor(l, share, z, b, cap) && pos < Pow2(|share|) && group < z
    requires SlotsAre(placed, l, share, z, b, cap, pos, Offset(b, group))
    ensures SlotsAre(slots, l, share, z, b, cap, pos, Offset(b, group) + Offset(cap, FullRacks(b, cap)))
  {
    hide SlotOf, LayoutFor, Offset, FullRacks;
    slots := placed;
    var full, load := FullRacks(b, cap), Load(b, cap);
    GroupFits(b, group, z);
    FullShape(l, share, z, b, cap);
    assert Offset(cap, 0) == 0 by { OffsetIs(cap, 0); }
    for rack := 0 to full
      invariant SlotsAre(slots, l, share, z, b, cap, pos, Offset(b, group) + Offset(cap, rack))
    {
      GroupFits(cap, rack, full);
      for index := 0 to cap
        invariant SlotsAre(slots, l, share, z, b, cap, pos, Offset(b, group) + Offset(cap, rack) + index)
      {
        SlotIndex(l, share, z, b, cap, pos, group, rack, index);
        slots := slots + [Slot(FullColumnAt(l, |share|, z, full, pos, group, rack), index + 1, group)];
      }
    }
  }

  /** Reading a full rack's column. */
  function FullColumnAt(l: Layout, n: nat, z: nat, full: nat, pos: nat, g: nat, rack: nat): (col: nat)
    requires FullNumbered(l.fullCols, l.firstFull, Pow2(n), z, full) && pos < Pow2(n) && g < z && rack < full
    ensures col == FullColumn(l, n, z, full, pos, g, rack)
  {
    hide Offset, Elem;
    assert RowNumbered(l.fullCols[pos], l.firstFull, pos, z, full);
    l.fullCols[pos][g][rack]
  }

  lemma FullShape(l: Layout, share: seq<bool>, z: nat, b: nat, cap: nat)
    requires b > 0 && cap > 0 && LayoutFor(l, share, z, b, cap)
    ensures FullNumbered(l.fullCols, l.firstFull, Pow2(|share|), z, FullRacks(b, cap))
    ensures Numbered(l.tailCol, l.firstFull, share, z, Pow2(|share|), 0)
  {
  }

  /** The tail rack of one group, behind what earlier stripes put there. */
  method PlaceTail(l: Layout, share: seq<bool>, z: nat, b: nat, cap: nat, pos: nat, group: nat, offset: nat, col: nat,
                   placed: seq<Slot>) returns (slots: seq<Slot>)
    requires b > 0 && cap > 0 && LayoutFor(l, share, z, b, cap) && pos < Pow2(|share|) && group < z
    requires offset == Offset(Load(b, cap), Before(share, |share|, pos))
    requires col == TailColumn(l, share, z, pos, group)
    requires SlotsAre(placed, l, share, z, b, cap, pos, Offset(b, group) + Offset(cap, FullRacks(b, cap)))
    ensures SlotsAre(slots, l, share, z, b, cap, pos, Offset(b, group + 1))
  {
    hide SlotOf, LayoutFor, Rep, Before, Offset, FullRacks, TailColumn;
    slots := placed;
    var load, full := Load(b, cap), FullRacks(b, cap);
    GroupFits(b, group, z);
    for index := 0 to load
      invariant SlotsAre(slots, l, share, z, b, cap, pos, Offset(b, group) + Offset(cap, full) + index)
    {
      SlotIndex(l, share, z, b, cap, pos, group, full, index);
      slots := slots + [Slot(col, offset + index + 1, group)];
    }
  }

  // ---- No two blocks of a batch share a slot ----

  lemma {:induction false} RankGrows(share: seq<bool>, level: nat, i: nat, lo: nat, hi: nat)
    requires level <= |share| && i < Pow2(level) && lo <= hi <= Pow2(level)
    ensures Rank(share, level, i, lo) <= Rank(share, level, i, hi)
    decreases hi
  {
    if lo < hi {
      RankGrows(share, level, i, lo, hi - 1);
    }
  }

  lemma {:induction false} RankOfClass(share: seq<bool>, level: nat, i: nat, j: nat, upto: nat)
    requires level <= |share| && i < Pow2(level) && j < Pow2(level) && upto <= Pow2(level)
    requires Rep(share, level, i) == Rep(share, level, j)
    ensures Rank(share, level, i, upto) == Rank(share, level, j, upto)
    decreases upto
  {
    if upto > 0 {
      RankOfClass(share, level, i, j, upto - 1);
    }
  }

  /** Two positions of one class have different ranks. */
  lemma RankDistinguishes(share: seq<bool>, level: nat, i: nat, j: nat)
    requires level <= |share| && i < j < Pow2(level)
    requires Rep(share, level, i) == Rep(share, level, j)
    ensures Before(share, level, i) < Before(share, level, j)
  {
    RankOfClass(share, level, i, j, i);
    RankGrows(share, level, j, i + 1, j);
  }

  /** Tail columns separate classes and groups; full-rack columns separate positions, groups and racks. */
  lemma ColumnsSeparate(l: Layout, share: seq<bool>, z: nat, b: nat, cap: nat, pos: nat, g: nat, pos': nat, g': nat)
    requires b > 0 && cap > 0 && LayoutFor(l, share, z, b, cap)
    requires pos < Pow2(|share|) && pos' < Pow2(|share|) && g < z && g' < z
    ensures TailColumn(l, share, z, pos, g) == TailColumn(l, share, z, pos', g') ==>
      g == g' && Rep(share, |share|, pos) == Rep(share, |share|, pos')
  {
    hide Elem, Rep;
    TailKnown(l.tailCol, l.firstFull, share, z, pos, g);
    TailKnown(l.tailCol, l.firstFull, share, z, pos', g');
    ElemUnique(z, Rep(share, |share|, pos), g, Rep(share, |share|, pos'), g');
  }

  lemma FullSeparate(first: nat, z: nat, full: nat, pos: nat, g: nat, rack: nat, pos': nat, g': nat, rack': nat)
    requires g < z && g' < z && rack < full && rack' < full
    ensures first + Offset(full, Elem(z, pos, g)) + rack == first + Offset(full, Elem(z, pos', g')) + rack' <==>
      pos == pos' && g == g' && rack == rack'
  {
    hide Elem;
    OffsetIs(full, Elem(z, pos, g));
    OffsetIs(full, Elem(z, pos', g'));
    SplitUnique(full, Elem(z, pos, g), rack, Elem(z, pos', g'), rack');
    ElemUnique(z, pos, g, pos', g');
  }

  /** Same rack column and node column means same block, stated by group, rack and index. */
  lemma SlotsAtDistinct(l: Layout, share: seq<bool>, z: nat, b: nat, cap: nat,
                        pos: nat, g: nat, rack: nat, index: nat, pos': nat, g': nat, rack': nat, index': nat)
    requires b > 0 && cap > 0 && LayoutFor(l, share, z, b, cap)
    requires pos < Pow2(|share|) && pos' < Pow2(|share|) && g < z && g' < z
    requires Offset(cap, rack) + index < b && Offset(cap, rack') + index' < b && index < cap && index' < cap
    requires SlotAt(l, share, z, b, cap, pos, g, rack, index).rackCol == SlotAt(l, share, z, b, cap, pos', g', rack', index').rackCol
    requires SlotAt(l, share, z, b, cap, pos, g, rack, index).nodeCol == SlotAt(l, share, z, b, cap, pos', g', rack', index').nodeCol
    ensures pos == pos' && g == g' && rack == rack' && index == index'
  {
    hide LayoutFor, Rep, Before, TailColumn, FullColumn, Offset, Elem;
    var full, load := FullRacks(b, cap), Load(b, cap);
    FullShape(l, share, z, b, cap);
    RackBound(b, cap, rack, index);
    RackBound(b, cap, rack', index');
    if rack < full && rack' < full {
      FullSeparate(l.firstFull, z, full, pos, g, rack, pos', g', rack');
    } else if rack == full && rack' == full {
      ColumnsSeparate(l, share, z, b, cap, pos, g, pos', g');
      OffsetIs(load, Before(share, |share|, pos));
      OffsetIs(load, Before(share, |share|, pos'));
      SplitUnique(load, Before(share, |share|, pos), index, Before(share, |share|, pos'), index');
      if pos < pos' {
        RankDistinguishes(share, |share|, pos, pos');
      } else if pos' < pos {
        RankDistinguishes(share, |share|, pos', pos);
      }
    }
  }

  /** A block of the tail rack has an index below the tail load. */
  lemma RackBound(b: nat, cap: nat, rack: nat, index: nat)
    requires b > 0 && cap > 0 && index < cap && Offset(cap, rack) + index < b
    ensures rack <= FullRacks(b, cap)
    ensures rack == FullRacks(b, cap) ==> index < Load(b, cap)
  {
    hide Offset, FullRacks;
    var full, load := FullRacks(b, cap), Load(b, cap);
    if rack > full {
      GroupFits(cap, full, rack);
    }
  }

  /** All data blocks of all stripes of a batch have different slots. */
  lemma SlotsDistinct(l: Layout, share: seq<bool>, z: nat, b: nat, cap: nat, pos: nat, i: nat, pos': nat, i': nat)
    requires b > 0 && cap > 0 && LayoutFor(l, share, z, b, cap)
    requires pos < Pow2(|share|) && pos' < Pow2(|share|) && i < Offset(b, z) && i' < Offset(b, z)
    requires SlotOf(l, share, z, b, cap, pos, i).rackCol == SlotOf(l, share, z, b, cap, pos', i').rackCol
    requires SlotOf(l, share, z, b, cap, pos, i).nodeCol == SlotOf(l, share, z, b, cap, pos', i').nodeCol
    ensures pos == pos' && i == i'
  {
    hide LayoutFor, SlotAt, Offset, Run, Within;
    var w, w' := Within(b, i), Within(b, i');
    GroupBound(z, b, i); GroupBound(z, b, i');
    RunIs(b, i); RunIs(b, i');
    RunIs(cap, w); RunIs(cap, w');
    SlotsAtDistinct(l, share, z, b, cap, pos, Run(b, i), Run(cap, w), Within(cap, w),
                    pos', Run(b, i'), Run(cap, w'), Within(cap, w'));
  }

  /** Data never goes to the parity column 1, and, where placeable, stays within r+1 nodes of its rack. */
  lemma SlotsInRange(l: Layout, share: seq<bool>, z: nat, b: nat, cap: nat, pos: nat, i: nat)
    requires b > 0 && cap > 0 && LayoutFor(l, share, z, b, cap)
    requires pos < Pow2(|share|) && i < Offset(b, z)
    ensures var s := SlotOf(l, share, z, b, cap, pos, i);
      2 <= s.rackCol && s.localGroup == i / b && 1 <= s.nodeCol && (Placeable(share, b, cap, pos) ==> s.nodeCol <= cap)
  {
    hide LayoutFor, Rep, Before, TailColumn, FullColumn, Offset, Elem, Within, FullRacks;
    FullShape(l, share, z, b, cap);
    var w := Within(b, i);
    GroupBound(z, b, i);
    RunIs(b, i);
    RunIs(cap, w);
    RackBound(b, cap, Run(cap, w), Within(cap, w));
    OffsetIs(Load(b, cap), Before(share, |share|, pos));
    FirstFullBound(l, share, z, b, cap, pos, Run(b, i));
  }

  lemma FirstFullBound(l: Layout, share: seq<bool>, z: nat, b: nat, cap: nat, pos: nat, g: nat)
    requires b > 0 && cap > 0 && LayoutFor(l, share, z, b, cap) && pos < Pow2(|share|) && g < z
    ensures l.firstFull >= 2
  {
    hide Elem, Rep;
    var col := TailColumn(l, share, z, pos, g);
  }
}

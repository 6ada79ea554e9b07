/**
 * How many racks a merged stripe spans: exactly as many as the rack arithmetic
 * announces for its merge level, which is the least possible.
 */
module BatchRacks {
  import opened MergeConfig
  import opened TailClasses
  import opened TailUnionFind
  import opened TailLayout
  import opened BatchLayout
  import opened BatchPlan
  import opened BatchRounds
  import opened MergePlan
  import T = MergeTables
  import opened MergeTables
  import opened MergeIndex
  import opened MergeCommit
  import opened MergeIndexed

  // ---- Classes within a super-stripe ----

  /** Within an aligned block of 2^level positions, classes are those of level `level`. */
  lemma {:induction false} BlockClasses(share: seq<bool>, level: nat, n: nat, q: nat, i: nat, j: nat)
    requires level <= n <= |share| && i < Pow2(level) && j < Pow2(level) && q < Pow2(n - level)
    ensures Offset(Pow2(level), q) + i < Pow2(n) && Offset(Pow2(level), q) + j < Pow2(n)
    ensures Rep(share, n, Offset(Pow2(level), q) + i) == Rep(share, n, Offset(Pow2(level), q) + j)
      <==> Rep(share, level, i) == Rep(share, level, j)
    decreases n
  {
    hide Offset, Rep;
    BlockInRange(level, n, q, i);
    BlockInRange(level, n, q, j);
    if n == level {
      OffsetIs(Pow2(level), 0);
    } else {
      var u := Pow2(n - 1 - level);
      PowSplit(n - 1, level);
      if q < u {
        BlockClasses(share, level, n - 1, q, i, j);
        LeftHalf(share, n, Offset(Pow2(level), q) + i);
        LeftHalf(share, n, Offset(Pow2(level), q) + j);
      } else {
        OffsetAdds(Pow2(level), u, q - u);
        BlockClasses(share, level, n - 1, q - u, i, j);
        RightHalf(share, n, Offset(Pow2(level), q - u) + i);
        RightHalf(share, n, Offset(Pow2(level), q - u) + j);
      }
    }
  }

  lemma BlockInRange(level: nat, n: nat, q: nat, i: nat)
    requires level <= n && i < Pow2(level) && q < Pow2(n - level)
    ensures Offset(Pow2(level), q) + i < Pow2(n)
  {
    hide Offset;
    PowSplit(n, level);
    OffsetUnique(Pow2(level), q, i, Pow2(n - level), 0);
  }

  lemma LeftHalf(share: seq<bool>, n: nat, i: nat)
    requires 0 < n <= |share| && i < Pow2(n - 1)
    ensures i < Pow2(n) && Rep(share, n, i) == Rep(share, n - 1, i)
  {
  }

  /** In the right half the tail of the left half takes over one class at most. */
  lemma RightHalf(share: seq<bool>, n: nat, i: nat)
    requires 0 < n <= |share| && i < Pow2(n - 1)
    ensures var tail := Rep(share, n - 1, Pow2(n - 1) - 1);
      Rep(share, n, Pow2(n - 1) + i) ==
        if share[n - 1] && Rep(share, n - 1, i) == tail then tail else Pow2(n - 1) + Rep(share, n - 1, i)
  {
  }

  /** A position opens a new class exactly if it is its own representative. */
  lemma NewClass(share: seq<bool>, level: nat, n: nat)
    requires level <= |share| && n < Pow2(level)
    ensures Rep(share, level, n) == n ==> forall j: nat :: j < n ==> Rep(share, level, j) != Rep(share, level, n)
    ensures Rep(share, level, n) != n ==> Rep(share, level, Rep(share, level, n)) == Rep(share, level, n) < n
  {
    hide Rep;
    RepIdempotent(share, level, n);
  }

  // ---- The columns of one group ----

  /** The columns of the first `count` full racks. */
  ghost function FullCols(bt: Batch, pos: nat, g: nat, count: nat): set<nat>
    requires BatchOk(bt) && pos < Pow2(|bt.share|) && g < bt.z
  {
    if count == 0 then {} else FullCols(bt, pos, g, count - 1) + {ColumnAt(bt, pos, g, count - 1)}
  }

  lemma {:induction false} FullColsAre(bt: Batch, pos: nat, g: nat, count: nat)
    requires BatchOk(bt) && pos < Pow2(|bt.share|) && g < bt.z && count <= FullRacks(bt.b, bt.cap)
    ensures |FullCols(bt, pos, g, count)| == count
    ensures forall x :: x in FullCols(bt, pos, g, count) ==> RackBelow(bt, pos, g, count, x)
    ensures forall rack: nat :: rack < count ==> ColumnAt(bt, pos, g, rack) in FullCols(bt, pos, g, count)
  {
    hide BatchOk, ColumnAt, FullRacks;
    if count > 0 {
      FullColsAre(bt, pos, g, count - 1);
      var x := ColumnAt(bt, pos, g, count - 1);
      assert RackBelow(bt, pos, g, count, x);
      forall y | y in FullCols(bt, pos, g, count - 1)
        ensures RackBelow(bt, pos, g, count, y) && y != x
      {
        var rack: nat :| rack < count - 1 && y == ColumnAt(bt, pos, g, rack);
        BatchBasics(bt);
        ColumnsAgree(bt, pos, g, rack, pos, g, count - 1);
      }
    }
  }

  ghost predicate RackBelow(bt: Batch, pos: nat, g: nat, count: nat, x: nat)
    requires BatchOk(bt) && pos < Pow2(|bt.share|) && g < bt.z
  {
    exists rack: nat :: rack < count && x == ColumnAt(bt, pos, g, rack)
  }

  /** The columns of group g at n positions from `first`. */
  ghost function GroupCols(bt: Batch, first: nat, g: nat, n: nat): set<nat>
    requires BatchOk(bt) && first + n <= Pow2(|bt.share|) && g < bt.z
  {
    if n == 0 then {}
    else
      var pos := first + n - 1;
      GroupCols(bt, first, g, n - 1) + FullCols(bt, pos, g, FullRacks(bt.b, bt.cap)) + {ColumnAt(bt, pos, g, FullRacks(bt.b, bt.cap))}
  }

  /** x is the column of a rack of the group at one of the positions. */
  ghost predicate GroupColumn(bt: Batch, first: nat, g: nat, n: nat, x: nat)
    requires BatchOk(bt) && first + n <= Pow2(|bt.share|) && g < bt.z
  {
    exists pos: nat, rack: nat :: first <= pos < first + n && rack <= FullRacks(bt.b, bt.cap) && x == ColumnAt(bt, pos, g, rack)
  }

  lemma InFullCols(bt: Batch, pos: nat, g: nat, count: nat, x: nat)
    requires BatchOk(bt) && pos < Pow2(|bt.share|) && g < bt.z && count <= FullRacks(bt.b, bt.cap)
    ensures x in FullCols(bt, pos, g, count) <==> RackBelow(bt, pos, g, count, x)
  {
    hide BatchOk, ColumnAt, FullRacks, FullCols;
    FullColsAre(bt, pos, g, count);
  }

  /** A further position adds its own racks. */
  lemma OneMorePosition(bt: Batch, first: nat, g: nat, n: nat, x: nat)
    requires BatchOk(bt) && 0 < n && first + n <= Pow2(|bt.share|) && g < bt.z
    ensures bt.b > 0 && bt.cap > 0
    ensures var last, full := first + n - 1, FullRacks(bt.b, bt.cap);
      GroupColumn(bt, first, g, n, x) <==>
        GroupColumn(bt, first, g, n - 1, x) || RackBelow(bt, last, g, full, x) || x == ColumnAt(bt, last, g, full)
  {
    hide BatchOk, ColumnAt, FullRacks;
    BatchBasics(bt);
    var last, full := first + n - 1, FullRacks(bt.b, bt.cap);
    if GroupColumn(bt, first, g, n, x) {
      var pos: nat, rack: nat :| first <= pos < first + n && rack <= full && x == ColumnAt(bt, pos, g, rack);
      if pos < last {
        assert GroupColumn(bt, first, g, n - 1, x);
      } else if rack < full {
        assert RackBelow(bt, last, g, full, x);
      }
    }
  }

  lemma {:induction false} GroupColsAre(bt: Batch, first: nat, g: nat, n: nat)
    requires BatchOk(bt) && first + n <= Pow2(|bt.share|) && g < bt.z
    ensures forall x :: x in GroupCols(bt, first, g, n) <==> GroupColumn(bt, first, g, n, x)
  {
    hide BatchOk, ColumnAt, FullRacks, FullCols, RackBelow;
    BatchBasics(bt);
    if n > 0 {
      GroupColsAre(bt, first, g, n - 1);
      hide GroupColumn;
      forall x: nat
        ensures x in GroupCols(bt, first, g, n) <==> GroupColumn(bt, first, g, n, x)
      {
        OneMorePosition(bt, first, g, n, x);
        InFullCols(bt, first + n - 1, g, FullRacks(bt.b, bt.cap), x);
      }
    }
  }

  /** A further position adds its full racks, and its tail rack unless that is there already. */
  lemma GroupColsGrow(bt: Batch, first: nat, g: nat, n: nat)
    requires BatchOk(bt) && 0 < n && first + n <= Pow2(|bt.share|) && g < bt.z
    ensures bt.b > 0 && bt.cap > 0
    ensures var full := FullRacks(bt.b, bt.cap);
      |GroupCols(bt, first, g, n)|
      == |GroupCols(bt, first, g, n - 1)| + full + if ColumnAt(bt, first + n - 1, g, full) in GroupCols(bt, first, g, n - 1) then 0 else 1
  {
    hide BatchOk, ColumnAt, FullRacks, FullCols, Pow2;
    BatchBasics(bt);
    var full := FullRacks(bt.b, bt.cap);
    FullColsAre(bt, first + n - 1, g, full);
    FullsAreNew(bt, first, g, n);
    ThreeSets(GroupCols(bt, first, g, n - 1), FullCols(bt, first + n - 1, g, full),
              ColumnAt(bt, first + n - 1, g, full));
  }

  /** n positions of an aligned block: n times the full racks, and one tail rack per class. */
  lemma {:induction false} GroupColsSize(bt: Batch, level: nat, q: nat, g: nat, n: nat)
    requires BatchOk(bt) && level <= |bt.share| && q < Pow2(|bt.share| - level) && n <= Pow2(level) && g < bt.z
    ensures Offset(Pow2(level), q) + n <= Pow2(|bt.share|)
    ensures |GroupCols(bt, Offset(Pow2(level), q), g, n)| == Offset(FullRacks(bt.b, bt.cap), n) + CountReps(bt.share, level, n)
    decreases n
  {
    hide BatchOk, ColumnAt, FullRacks, Rep, GroupCols, Offset, CountReps;
    BatchBasics(bt);
    if n == 0 {
      BlockInRange(level, |bt.share|, q, 0);
      NoGroupCols(bt, Offset(Pow2(level), q), g, FullRacks(bt.b, bt.cap), level);
    } else {
      BlockInRange(level, |bt.share|, q, n - 1);
      GroupColsSize(bt, level, q, g, n - 1);
      GroupColsGrow(bt, Offset(Pow2(level), q), g, n);
      TailIsNew(bt, level, q, g, n);
      CountsGrow(bt.share, level, n, FullRacks(bt.b, bt.cap));
    }
  }

  lemma NoGroupCols(bt: Batch, first: nat, g: nat, full: nat, level: nat)
    requires BatchOk(bt) && first <= Pow2(|bt.share|) && g < bt.z && level <= |bt.share|
    ensures GroupCols(bt, first, g, 0) == {} && Offset(full, 0) == 0 && CountReps(bt.share, level, 0) == 0
  {
  }

  lemma CountsGrow(share: seq<bool>, level: nat, n: nat, full: nat)
    requires level <= |share| && 0 < n <= Pow2(level)
    ensures Offset(full, n) == Offset(full, n - 1) + full
    ensures CountReps(share, level, n) == CountReps(share, level, n - 1) + if Rep(share, level, n - 1) == n - 1 then 1 else 0
  {
  }

  lemma ThreeSets(a: set<nat>, b: set<nat>, x: nat)
    requires a !! b && x !in b
    ensures |a + b + {x}| == |a| + |b| + if x in a then 0 else 1
  {
    if x in a {
      assert a + b + {x} == a + b;
    }
  }

  /** The full racks of a further position are new, and its tail rack is not one of them. */
  lemma FullsAreNew(bt: Batch, first: nat, g: nat, n: nat)
    requires BatchOk(bt) && 0 < n && first + n <= Pow2(|bt.share|) && g < bt.z
    ensures bt.b > 0 && bt.cap > 0
    ensures GroupCols(bt, first, g, n - 1) !! FullCols(bt, first + n - 1, g, FullRacks(bt.b, bt.cap))
    ensures ColumnAt(bt, first + n - 1, g, FullRacks(bt.b, bt.cap)) !in FullCols(bt, first + n - 1, g, FullRacks(bt.b, bt.cap))
  {
    hide BatchOk, ColumnAt, FullRacks, FullCols, GroupCols, Rep;
    BatchBasics(bt);
    var full, last := FullRacks(bt.b, bt.cap), first + n - 1;
    var fulls, before := FullCols(bt, last, g, full), GroupCols(bt, first, g, n - 1);
    FullColsAre(bt, last, g, full);
    GroupColsAre(bt, first, g, n - 1);
    forall x | x in fulls
      ensures x !in before && x != ColumnAt(bt, last, g, full)
    {
      var rack: nat :| rack < full && x == ColumnAt(bt, last, g, rack);
      ColumnsAgree(bt, last, g, rack, last, g, full);
      if GroupColumn(bt, first, g, n - 1, x) {
        var pos: nat, rack': nat :| first <= pos < last && rack' <= full && x == ColumnAt(bt, pos, g, rack');
        ColumnsAgree(bt, last, g, rack, pos, g, rack');
      }
    }
  }

  /** The tail rack of a further position is new exactly if the position opens a class. */
  lemma TailIsNew(bt: Batch, level: nat, q: nat, g: nat, n: nat)
    requires BatchOk(bt) && level <= |bt.share| && q < Pow2(|bt.share| - level) && 0 < n <= Pow2(level) && g < bt.z
    requires Offset(Pow2(level), q) + n <= Pow2(|bt.share|)
    ensures bt.b > 0 && bt.cap > 0
    ensures ColumnAt(bt, Offset(Pow2(level), q) + n - 1, g, FullRacks(bt.b, bt.cap)) in GroupCols(bt, Offset(Pow2(level), q), g, n - 1)
      <==> Rep(bt.share, level, n - 1) != n - 1
  {
    hide BatchOk, ColumnAt, FullRacks, FullCols, GroupCols, Rep, Offset;
    BatchBasics(bt);
    var first, full := Offset(Pow2(level), q), FullRacks(bt.b, bt.cap);
    var tail := ColumnAt(bt, first + n - 1, g, full);
    GroupColsAre(bt, first, g, n - 1);
    NewClass(bt.share, level, n - 1);
    if Rep(bt.share, level, n - 1) != n - 1 {
      var i := Rep(bt.share, level, n - 1);
      BlockClasses(bt.share, level, |bt.share|, q, i, n - 1);
      var pos := first + i;
      ColumnsAgree(bt, pos, g, full, first + n - 1, g, full);
      assert tail == ColumnAt(bt, pos, g, full);
    } else if GroupColumn(bt, first, g, n - 1, tail) {
      var pos: nat, rack: nat :| first <= pos < first + n - 1 && rack <= full && tail == ColumnAt(bt, pos, g, rack);
      BlockClasses(bt.share, level, |bt.share|, q, pos - first, n - 1);
      ColumnsAgree(bt, pos, g, rack, first + n - 1, g, full);
    }
  }

  // ---- All columns of a stripe ----

  ghost function AllCols(bt: Batch, first: nat, n: nat, groups: nat): set<nat>
    requires BatchOk(bt) && first + n <= Pow2(|bt.share|) && groups <= bt.z
  {
    if groups == 0 then {} else AllCols(bt, first, n, groups - 1) + GroupCols(bt, first, groups - 1, n)
  }

  ghost predicate StripeColumn(bt: Batch, first: nat, n: nat, groups: nat, x: nat)
    requires BatchOk(bt) && first + n <= Pow2(|bt.share|) && groups <= bt.z
  {
    exists g: nat :: g < groups && GroupColumn(bt, first, g, n, x)
  }

  lemma {:induction false} AllColsAre(bt: Batch, first: nat, n: nat, groups: nat)
    requires BatchOk(bt) && first + n <= Pow2(|bt.share|) && groups <= bt.z
    ensures forall x :: x in AllCols(bt, first, n, groups) <==> StripeColumn(bt, first, n, groups, x)
  {
    hide BatchOk, GroupColumn, GroupCols;
    if groups > 0 {
      AllColsAre(bt, first, n, groups - 1);
      GroupColsAre(bt, first, groups - 1, n);
      forall x
        ensures StripeColumn(bt, first, n, groups, x) <==>
          StripeColumn(bt, first, n, groups - 1, x) || GroupColumn(bt, first, groups - 1, n, x)
      {
      }
    }
  }

  lemma {:induction false} AllColsSize(bt: Batch, level: nat, q: nat, groups: nat)
    requires BatchOk(bt) && level <= |bt.share| && q < Pow2(|bt.share| - level) && groups <= bt.z
    ensures Offset(Pow2(level), q) + Pow2(level) <= Pow2(|bt.share|)
    ensures |AllCols(bt, Offset(Pow2(level), q), Pow2(level), groups)| == Offset(GroupRacks(bt.b, bt.cap, level), groups)
    decreases groups
  {
    hide BatchOk, GroupCols, GroupRacks, FullRacks;
    BatchBasics(bt);
    BlockInRange(level, |bt.share|, q, Pow2(level) - 1);
    if groups > 0 {
      AllColsSize(bt, level, q, groups - 1);
      var first, n := Offset(Pow2(level), q), Pow2(level);
      GroupColsSize(bt, level, q, groups - 1, n);
      ClassesAndFulls(bt, level);
      GroupsDisjoint(bt, first, n, groups - 1);
    }
  }

  /** Tail classes and full racks of a super-stripe make up the racks of one of its groups. */
  lemma ClassesAndFulls(bt: Batch, level: nat)
    requires BatchOk(bt) && level <= |bt.share|
    ensures bt.b > 0 && bt.cap > 0
    ensures Offset(FullRacks(bt.b, bt.cap), Pow2(level)) + CountReps(bt.share, level, Pow2(level)) == GroupRacks(bt.b, bt.cap, level)
  {
    hide LayoutFor, SharingFirst, Dictated, CountReps, Racks;
    ClassesAreRacks(bt.share, bt.b, bt.cap, level);
    OffsetIs(FullRacks(bt.b, bt.cap), Pow2(level));
  }

  lemma GroupsDisjoint(bt: Batch, first: nat, n: nat, g: nat)
    requires BatchOk(bt) && first + n <= Pow2(|bt.share|) && g < bt.z
    ensures AllCols(bt, first, n, g) !! GroupCols(bt, first, g, n)
  {
    hide BatchOk, GroupCols, AllCols, FullRacks, ColumnAt;
    BatchBasics(bt);
    AllColsAre(bt, first, n, g);
    GroupColsAre(bt, first, g, n);
    var all := AllCols(bt, first, n, g);
    forall x | x in all
      ensures !GroupColumn(bt, first, g, n, x)
    {
      var h: nat :| h < g && GroupColumn(bt, first, h, n, x);
      if GroupColumn(bt, first, g, n, x) {
        var pos: nat, rack: nat :| first <= pos < first + n && rack <= FullRacks(bt.b, bt.cap) && x == ColumnAt(bt, pos, h, rack);
        var pos': nat, rack': nat :| first <= pos' < first + n && rack' <= FullRacks(bt.b, bt.cap) && x == ColumnAt(bt, pos', g, rack');
        ColumnsAgree(bt, pos, h, rack, pos', g, rack');
      }
    }
  }

  /** Every rack of a group holds a data block: its first one. */
  lemma ColumnUsed(bt: Batch, pos: nat, g: nat, rack: nat) returns (i: nat)
    requires BatchOk(bt) && pos < Pow2(|bt.share|) && g < bt.z && rack <= FullRacks(bt.b, bt.cap)
    ensures i < DataBlocks(bt) && SlotIn(bt, pos, i).rackCol == ColumnAt(bt, pos, g, rack)
  {
    hide LayoutFor, Dictated, SharingFirst, Offset, FullRacks, SlotOf, SlotAt, Racks;
    var b, cap := bt.b, bt.cap;
    var load := Load(b, cap);
    OffsetUnique(cap, rack, 0, FullRacks(b, cap), 0);
    SlotIndex(bt.layout, bt.share, bt.z, b, cap, pos, g, rack, 0);
    i := Offset(b, g) + Offset(cap, rack);
  }

  // ---- The racks of a stripe ----

  /** The racks of a set of columns. */
  ghost function RacksOf(o: Arrays, batch: nat, cols: set<nat>): set<nat>
    requires ArraysOk(o) && forall x :: x in cols ==> 1 <= x <= RACKS
  {
    set x | x in cols :: ClusterOf(o, batch, x)
  }

  lemma {:induction false} RacksOfSize(o: Arrays, batch: nat, cols: set<nat>)
    requires ArraysOk(o) && forall x :: x in cols ==> 1 <= x <= RACKS
    ensures |RacksOf(o, batch, cols)| == |cols|
    decreases |cols|
  {
    hide ArraysOk, ClusterOf;
    if cols == {} {
      assert RacksOf(o, batch, cols) == {};
    } else {
      var x :| x in cols;
      var rest := cols - {x};
      RacksOfSize(o, batch, rest);
      assert RacksOf(o, batch, cols) == RacksOf(o, batch, rest) + {ClusterOf(o, batch, x)};
      if ClusterOf(o, batch, x) in RacksOf(o, batch, rest) {
        var y :| y in rest && ClusterOf(o, batch, y) == ClusterOf(o, batch, x);
        ClustersDiffer(o, batch, x, y);
      }
    }
  }

  /** All columns of a laid out stripe, the parity column included, are within range. */
  lemma ColumnsInRange(bt: Batch, first: nat, n: nat)
    requires BatchOk(bt) && first + n <= Pow2(|bt.share|)
    ensures forall x :: x in AllCols(bt, first, n, bt.z) ==> 2 <= x <= RACKS
  {
    hide BatchOk, AllCols, ColumnAt, FullRacks;
    BatchBasics(bt);
    AllColsAre(bt, first, n, bt.z);
    var all := AllCols(bt, first, n, bt.z);
    forall x | x in all
      ensures 2 <= x <= RACKS
    {
      var g: nat :| g < bt.z && GroupColumn(bt, first, g, n, x);
      var pos: nat, rack: nat :| first <= pos < first + n && rack <= FullRacks(bt.b, bt.cap) && x == ColumnAt(bt, pos, g, rack);
      ColumnRange(bt, pos, g, rack);
    }
  }

  /** A rack has a block of the stripe exactly if it is the rack of one of its columns. */
  lemma RackOfStripe(baseK: nat, bt: Batch, o: Arrays, t: Tables, s: nat, level: nat, c: nat)
    requires Setting(bt, o, t) && AllStripesOk(baseK, t) && StripeLaidOut(bt, o, t, s, level)
    requires forall x :: x in AllCols(bt, t.stripes[s].pos, Pow2(level), bt.z) ==> 1 <= x <= RACKS
    ensures ArraysOk(o)
    ensures OnRack(EntriesOf(t, s), c) <==>
      c in RacksOf(o, t.stripes[s].batch, AllCols(bt, t.stripes[s].pos, Pow2(level), bt.z)) || c == ClusterOf(o,
                   t.stripes[s].batch, 1)
  {
    hide Setting, AllCols, ClusterOf, EntriesOf, BlockLaidOut, DataBlocks, Offset;
    SettingParts(bt, o, t);
    var st := t.stripes[s];
    var cols := AllCols(bt, st.pos, Pow2(level), bt.z);
    if OnRack(EntriesOf(t, s), c) {
      var x: nat :| x < |st.blocks| && EntriesOf(t, s)[x].place.cluster == c;
      EntryPlace(t, s, x);
      if x < st.k {
        BlockColumn(baseK, bt, o, t, s, level, x);
      }
    }
    if c == ClusterOf(o, st.batch, 1) {
      EntryPlace(t, s, st.k);
      assert EntriesOf(t, s)[st.k].place.cluster == c;
    }
    if c in RacksOf(o, st.batch, cols) {
      var y :| y in cols && ClusterOf(o, st.batch, y) == c;
      ColumnBlock(baseK, bt, o, t, s, level, y);
    }
  }

  /** A data block's rack is the rack of one of the stripe's columns ... */
  lemma BlockColumn(baseK: nat, bt: Batch, o: Arrays, t: Tables, s: nat, level: nat, x: nat)
    requires Setting(bt, o, t) && AllStripesOk(baseK, t) && StripeLaidOut(bt, o, t, s, level) && x < t.stripes[s].k
    requires ArraysOk(o) && forall y :: y in AllCols(bt, t.stripes[s].pos, Pow2(level), bt.z) ==> 1 <= y <= RACKS
    ensures T.At(t, s, x).place.cluster in RacksOf(o, t.stripes[s].batch, AllCols(bt, t.stripes[s].pos, Pow2(level), bt.z))
  {
    hide BatchOk, ArraysOk, Equipped, AllCols, ClusterOf, BlockLaidOut, DataBlocks, Offset, NodesOf, ColumnAt,
         FullRacks, SlotIn;
    var st := t.stripes[s];
    var pos, i := BlockSlot(baseK, bt, o, t, s, level, x);
    BatchBasics(bt);
    SlotRange(bt, pos, i);
    var g, rack := SlotColumn(bt, pos, i);
    AllColsAre(bt, st.pos, Pow2(level), bt.z);
    var y := ColumnAt(bt, pos, g, rack);
    assert GroupColumn(bt, st.pos, g, Pow2(level), y);
    assert StripeColumn(bt, st.pos, Pow2(level), bt.z, y);
  }

  /** ... and every column of the stripe has a data block on its rack. */
  lemma ColumnBlock(baseK: nat, bt: Batch, o: Arrays, t: Tables, s: nat, level: nat, y: nat)
    requires Setting(bt, o, t) && AllStripesOk(baseK, t) && StripeLaidOut(bt, o, t, s, level)
    requires ArraysOk(o) && y in AllCols(bt, t.stripes[s].pos, Pow2(level), bt.z) && 1 <= y <= RACKS
    ensures OnRack(EntriesOf(t, s), ClusterOf(o, t.stripes[s].batch, y))
  {
    hide BatchOk, ArraysOk, Equipped, AllCols, ClusterOf, NodesOf, ColumnAt, FullRacks, SlotIn, EntriesOf, Offset, Run,
         Within, DataBlocks;
    var st := t.stripes[s];
    BatchBasics(bt);
    AllColsAre(bt, st.pos, Pow2(level), bt.z);
    var g: nat :| g < bt.z && GroupColumn(bt, st.pos, g, Pow2(level), y);
    var pos: nat, rack: nat :| st.pos <= pos < st.pos + Pow2(level) && rack <= FullRacks(bt.b, bt.cap) && y == ColumnAt(bt, pos, g, rack);
    var i := ColumnUsed(bt, pos, g, rack);
    var size := DataBlocks(bt);
    var x := Offset(size, pos - st.pos) + i;
    OffsetUnique(size, pos - st.pos, i, Pow2(level), 0);
    RunUnique(size, pos - st.pos, i);
    SlotRange(bt, pos, i);
    assert BlockLaidOut(bt, o, t, st.batch, st.pos, x, T.At(t, s, x));
    EntryPlace(t, s, x);
  }

  /** A stripe laid out at a level spans exactly the racks announced for that level. */
  lemma RacksSpanned(baseK: nat, bt: Batch, o: Arrays, t: Tables, s: nat, level: nat, q: nat)
    requires Setting(bt, o, t) && AllStripesOk(baseK, t) && StripeLaidOut(bt, o, t, s, level) && StripeIndexed(t, s)
    requires q < Pow2(|bt.share| - level) && t.stripes[s].pos == Offset(Pow2(level), q)
    ensures |t.stripes[s].clusters| == Racks(bt.b, bt.cap, bt.z, level)
  {
    hide Setting, AllCols, ClusterOf, EntriesOf, Partition, StripeOk, OnRack, BlockLaidOut, DataBlocks, GroupRacks;
    SettingParts(bt, o, t);
    BatchBasics(bt);
    var st := t.stripes[s];
    var cols := AllCols(bt, st.pos, Pow2(level), bt.z);
    ColumnsInRange(bt, st.pos, Pow2(level));
    AllColsSize(bt, level, q, bt.z);
    RacksOfSize(o, st.batch, cols);
    forall c
      ensures c in st.clusters <==> c in RacksOf(o, st.batch, cols) || c == ClusterOf(o, st.batch, 1)
    {
      RackOfStripe(baseK, bt, o, t, s, level, c);
    }
    assert st.clusters == RacksOf(o, st.batch, cols) + {ClusterOf(o, st.batch, 1)};
    forall x | x in cols
      ensures ClusterOf(o, st.batch, x) != ClusterOf(o, st.batch, 1)
    {
      if ClusterOf(o, st.batch, x) == ClusterOf(o, st.batch, 1) {
        ClustersDiffer(o, st.batch, x, 1);
      }
    }
    OffsetIs(GroupRacks(bt.b, bt.cap, level), bt.z);
  }

  /** After every round, every stripe spans exactly the racks of its level. */
  lemma LevelSpans(baseK: nat, pl: Plan, t: Tables, batches: nat, level: nat, s: nat)
    requires AtLevel(pl, t, batches, level) && AllStripesOk(baseK, t) && Indexed(t) && s in t.stripes
    ensures pl.bt.cap > 0 && |t.stripes[s].clusters| == Racks(pl.bt.b, pl.bt.cap, pl.bt.z, level)
  {
    hide Setting, StripeLaidOut, StripeIndexed, Run, Within, Offset, Racks, AllStripesOk, RackIndexed, NodesIndexed;
    SettingParts(pl.bt, pl.o, t);
    BatchBasics(pl.bt);
    var n, w := |pl.bt.share|, Pow2(level);
    assert InPlace(pl, t, s, level);
    assert MultipleIn(s, w, 0, Offset(Pow2(n - level), batches));
    var j: nat :| s == Offset(w, j);
    PositionOf(n, level, j);
    RunIs(Pow2(n - level), j);
    RacksSpanned(baseK, pl.bt, pl.o, t, s, level, Within(Pow2(n - level), j));
  }

  /** The position of a multiple of 2^level in its batch is again a multiple. */
  lemma PositionOf(n: nat, level: nat, j: nat)
    requires level <= n
    ensures Within(Pow2(n), Offset(Pow2(level), j)) == Offset(Pow2(level), Within(Pow2(n - level), j))
  {
    hide Run, Within, Offset;
    var w, u := Pow2(level), Pow2(n - level);
    PowSplit(n, level);
    RunIs(u, j);
    OffsetOffset(w, u, Run(u, j), Within(u, j));
    OffsetUnique(w, Within(u, j), 0, u, 0);
    RunUnique(Pow2(n), Run(u, j), Offset(w, Within(u, j)));
  }

  // ---- Fewer racks are not enough ----

  /** Racks of capacity cap hold no more than cap blocks each. */
  lemma {:induction false} RacksHold(loc: map<nat, Place>, s: set<nat>, racks: set<nat>, cap: nat)
    requires s <= loc.Keys && (forall p :: p in s ==> loc[p].cluster in racks) && forall c :: |On(loc, s, c)| <= cap
    ensures |s| <= Offset(cap, |racks|)
    decreases |racks|
  {
    if racks == {} {
      assert s == {};
    } else {
      var c :| c in racks;
      var rest := s - On(loc, s, c);
      forall d
        ensures |On(loc, rest, d)| <= cap
      {
        SubsetSize(On(loc, rest, d), On(loc, s, d));
      }
      RacksHold(loc, rest, racks - {c}, cap);
      assert s == rest + On(loc, s, c);
    }
  }

  function RacksUsed(loc: map<nat, Place>, s: set<nat>): set<nat>
    requires s <= loc.Keys
  {
    set p | p in s :: loc[p].cluster
  }

  function InGroups(loc: map<nat, Place>, group: map<nat, nat>, z: nat): set<nat>
    requires loc.Keys <= group.Keys
  {
    set p | p in loc && group[p] < z
  }

  function OfGroup(loc: map<nat, Place>, group: map<nat, nat>, g: nat): set<nat>
    requires loc.Keys <= group.Keys
  {
    set p | p in loc && group[p] == g
  }

  /**
   * However z groups of m blocks are placed on group-pure racks of capacity cap, they take z times ceil(m /
   * cap) racks.
   */
  lemma {:induction false} LeastRacks(loc: map<nat, Place>, group: map<nat, nat>, z: nat, m: nat, cap: nat)
    requires cap > 0 && loc.Keys <= group.Keys
    requires forall p, q :: p in loc && q in loc && loc[p].cluster == loc[q].cluster ==> group[p] == group[q]
    requires forall c :: |On(loc, loc.Keys, c)| <= cap
    requires forall g: nat :: g < z ==> |OfGroup(loc, group, g)| == m
    ensures |RacksUsed(loc, InGroups(loc, group, z))| >= Offset(CeilDiv(m, cap), z)
    decreases z
  {
    hide CeilDiv;
    if z > 0 {
      LeastRacks(loc, group, z - 1, m, cap);
      var s := OfGroup(loc, group, z - 1);
      var used, before := RacksUsed(loc, s), RacksUsed(loc, InGroups(loc, group, z - 1));
      forall c
        ensures |On(loc, s, c)| <= cap
      {
        SubsetSize(On(loc, s, c), On(loc, loc.Keys, c));
      }
      RacksHold(loc, s, used, cap);
      OffsetIs(cap, |used|);
      EnoughRacks(m, cap, |used|);
      assert used !! before;
      assert RacksUsed(loc, InGroups(loc, group, z)) == before + used;
    }
  }

  lemma EnoughRacks(m: nat, cap: nat, racks: nat)
    requires cap > 0 && m <= racks * cap
    ensures CeilDiv(m, cap) <= racks
  {
    CeilDivIs(m, cap, CeilDiv(m, cap));
    var c := CeilDiv(m, cap);
    if c > racks {
      MulGrows(racks, c - 1, cap);
    }
  }
}

/**
 * One batch of a merge stage: what it costs and how tightly the merged stripe
 * fills its data clusters.
 */
module SimBatch {
  import opened SimClusters
  import opened SimSums
  import opened SimState
  import opened SimRelabel
  import opened SimMove

  // ---- The cost of recomputing the global parities ----

  /** What a cluster contributes: its data, averaged over the batches if it is shared, but no more than g blocks. */
  function Contribution(su: Setup, k: Cluster, batches: nat): int
    requires batches > 0
  {
    if k.kind == Local then (if k.numData <= su.g * batches then k.numData / batches else su.g)
    else if k.numData <= su.g then k.numData else su.g
  }

  ghost function Contributions(su: Setup, cl: seq<Cluster>, batches: nat): nat -> int
    requires batches > 0
  {
    (c: nat) => if c < |cl| then Contribution(su, cl[c], batches) else 0
  }

  /** The data clusters of the groups below i. */
  function DBelow(cl: seq<Cluster>, place: set<nat>, i: nat): set<nat> {
    if i == 0 then {} else DBelow(cl, place, i - 1) + DSet(cl, place, i - 1)
  }

  lemma {:induction false} InDBelow(cl: seq<Cluster>, place: set<nat>, i: nat, c: nat)
    ensures c in DBelow(cl, place, i) <==>
      c in place && c < |cl| && cl[c].kind == Data && cl[c].blocks != [] && cl[c].blocks[0].group < i
  {
    if i > 0 {
      InDBelow(cl, place, i - 1, c);
    }
  }

  lemma {:induction false} SumBelow(cl: seq<Cluster>, place: set<nat>, i: nat, f: nat -> int, v: int)
    requires forall j: nat :: j < i ==> Sum(DSet(cl, place, j), f) == v
    ensures Sum(DBelow(cl, place, i), f) == i * v
  {
    hide Sum, DSet;
    if i == 0 {
      NoSum(f);
    } else {
      SumBelow(cl, place, i - 1, f, v);
      OneMoreTime(i, v);
      var below := DBelow(cl, place, i - 1);
      forall c | c in below
        ensures c !in DSet(cl, place, i - 1)
      {
        InDBelow(cl, place, i - 1, c);
        DSetIs(cl, place, i - 1, c);
      }
      SumUnion(DBelow(cl, place, i - 1), DSet(cl, place, i - 1), f);
    }
  }

  lemma DSetIs(cl: seq<Cluster>, place: set<nat>, i: nat, c: nat)
    ensures c in DSet(cl, place, i) <==> c in place && IsDataOf(cl, c, i)
  {
  }

  /** The parity clusters. */
  function Parities(su: Setup): set<nat> {
    Elems(su.lids) + {su.gid}
  }

  /** A stripe's clusters are its data clusters and the parity clusters. */
  lemma PlaceSplits(su: Setup, cl: seq<Cluster>, rows: Rows, n: nat)
    requires World(su, cl, rows) && n in rows
    ensures rows[n].place == DBelow(cl, rows[n].place, su.l) + Parities(su)
    ensures DBelow(cl, rows[n].place, su.l) !! Parities(su)
  {
    hide RowCounts, RowSums, Counted, DBelow;
    var place := rows[n].place;
    assert RowOk(su, cl, n, rows[n]);
    forall c: nat
      ensures c in place <==> c in DBelow(cl, place, su.l) || c in Parities(su)
      ensures !(c in DBelow(cl, place, su.l) && c in Parities(su))
    {
      InDBelow(cl, place, su.l, c);
      if c in place || c in Parities(su) {
        assert ClusterOk(su, rows, c, cl[c]);
      }
    }
  }

  lemma {:induction false} DistinctSize(s: seq<nat>)
    requires NoDup(s)
    ensures |Elems(s)| == |s|
  {
    if s == [] {
      assert Elems(s) == {};
    } else {
      var m := |s| - 1;
      DistinctSize(s[..m]);
      assert Elems(s) == Elems(s[..m]) + {s[m]};
    }
  }

  /** The cluster of the global parities holds no data. */
  lemma NoDataWithGlobals(su: Setup, cl: seq<Cluster>, rows: Rows)
    requires World(su, cl, rows)
    ensures cl[su.gid].numData == 0 && cl[su.gid].kind == if su.loose > 0 then Global else Local
  {
    assert ClusterOk(su, rows, su.gid, cl[su.gid]);
    forall x | 0 <= x < |cl[su.gid].blocks|
      ensures cl[su.gid].blocks[x].kind != Data
    {
      assert AllowedAt(su, su.gid, cl[su.gid].blocks[x]);
    }
    NoData(cl[su.gid].blocks);
    if su.loose == 0 {
      assert su.lids[0] == su.gid;
    }
  }

  lemma {:induction false} NoData(s: seq<Block>)
    requires forall x :: 0 <= x < |s| ==> s[x].kind != Data
    ensures CountData(s) == 0
  {
    if s != [] {
      NoData(s[..|s| - 1]);
    }
  }

  /** What the shared parity clusters of the groups contribute. */
  function SharedCost(su: Setup, numData: int, batches: nat): int
    requires batches > 0
  {
    if su.loose == 0 then 0 else if numData <= su.g * batches then numData / batches else su.g
  }

  lemma ParityCosts(su: Setup, cl: seq<Cluster>, rows: Rows, batches: nat, numData: int)
    requires World(su, cl, rows) && batches > 0
    requires forall i :: 0 <= i < su.l ==> cl[su.lids[i]].numData == numData
    ensures Sum(Parities(su), Contributions(su, cl, batches)) == su.l * SharedCost(su, numData, batches)
  {
    hide ClusterOk, RowOk;
    NoDataWithGlobals(su, cl, rows);
    var f := Contributions(su, cl, batches);
    if su.loose == 0 {
      assert Elems(su.lids) + {su.gid} == {su.gid} by { AllOne(su); }
      SumRemove({su.gid}, f, su.gid);
      NoSum(f);
      assert {su.gid} - {su.gid} == {};
      ZeroOver(batches);
    } else {
      var s := Elems(su.lids);
      forall c | c in s
        ensures f(c) == SharedCost(su, numData, batches)
      {
        var i :| 0 <= i < su.l && su.lids[i] == c;
        LocalKind(su, cl, rows, i);
      }
      SumConst(s, f, SharedCost(su, numData, batches));
      DistinctSize(su.lids);
      SumAdd(s, f, su.gid);
    }
  }

  lemma ZeroOver(batches: nat)
    requires batches > 0
    ensures 0 / batches == 0
  {
  }

  lemma AllOne(su: Setup)
    requires SetupOk(su) && su.loose == 0
    ensures Elems(su.lids) == {su.gid}
  {
    assert su.lids[0] == su.gid;
  }

  lemma LocalKind(su: Setup, cl: seq<Cluster>, rows: Rows, i: nat)
    requires World(su, cl, rows) && i < su.l
    ensures cl[su.lids[i]].kind == Local
  {
    assert ClusterOk(su, rows, su.lids[i], cl[su.lids[i]]);
  }

  /** A data cluster contributes as many blocks as it has, up to g. */
  lemma DataContribution(su: Setup, cl: seq<Cluster>, rows: Rows, batches: nat, i: nat, place: set<nat>)
    requires World(su, cl, rows) && batches > 0
    ensures Sum(DSet(cl, place, i), Contributions(su, cl, batches)) == Sum(DSet(cl, place, i), Costs(cl, su.g))
  {
    hide RowOk;
    forall c | c in DSet(cl, place, i)
      ensures Contributions(su, cl, batches)(c) == Costs(cl, su.g)(c)
    {
      assert ClusterOk(su, rows, c, cl[c]);
      AllAreData(cl[c].blocks);
    }
    SumSame(DSet(cl, place, i), Contributions(su, cl, batches), Costs(cl, su.g));
  }

  lemma {:induction false} AllAreData(s: seq<Block>)
    requires forall x :: 0 <= x < |s| ==> s[x].kind == Data
    ensures CountData(s) == |s|
  {
    if s != [] {
      AllAreData(s[..|s| - 1]);
    }
  }

  /** The whole batch: equal costs of all groups' data clusters, and the shared clusters. */
  lemma BatchCost(su: Setup, cl: seq<Cluster>, rows: Rows, n: nat, batches: nat, v: int, numData: int)
    requires World(su, cl, rows) && n in rows && batches > 0
    requires forall i: nat :: i < su.l ==> Sum(DSet(cl, rows[n].place, i), Costs(cl, su.g)) == v
    requires forall i :: 0 <= i < su.l ==> cl[su.lids[i]].numData == numData
    ensures Sum(rows[n].place, Contributions(su, cl, batches)) == su.l * v + su.l * SharedCost(su, numData, batches)
  {
    hide World, Sum, DSet, Costs, Contributions, Contribution, DBelow;
    var place, f := rows[n].place, Contributions(su, cl, batches);
    forall i: nat | i < su.l
      ensures Sum(DSet(cl, place, i), f) == v
    {
      DataContribution(su, cl, rows, batches, i, place);
    }
    SumBelow(cl, place, su.l, f, v);
    PlaceSplits(su, cl, rows, n);
    SumUnion(DBelow(cl, place, su.l), Parities(su), f);
    ParityCosts(su, cl, rows, batches, numData);
  }

  // ---- Tightness of the merged stripe ----

  /** Every group of the stripe fills its data clusters tightly. */
  ghost predicate RowTight(su: Setup, cl: seq<Cluster>, row: Row) {
    forall i: nat :: i < su.l ==> Tight(cl, DSet(cl, row.place, i), su.g + 1)
  }

  lemma DataFilled(su: Setup, cl: seq<Cluster>, rows: Rows, place: set<nat>, i: nat)
    requires World(su, cl, rows)
    ensures Filled(cl, DSet(cl, place, i), su.g + 1)
  {
    hide RowOk;
    forall c | c in DSet(cl, place, i)
      ensures 1 <= Size(cl, c) <= su.g + 1
    {
      assert ClusterOk(su, rows, c, cl[c]);
    }
  }

  /** One group of a tight stripe: its cost, its room, and the size of the cluster that is not full. */
  lemma GroupFigures(su: Setup, cl: seq<Cluster>, rows: Rows, o: nat, i: nat, sum: nat)
    requires World(su, cl, rows) && o in rows && i < su.l && rows[o].sums == Const(su.l, sum)
    requires RowTight(su, cl, rows[o])
    ensures var ids := DSet(cl, rows[o].place, i);
      Sum(ids, Costs(cl, su.g)) == (sum / (su.g + 1)) * su.g + sum % (su.g + 1) &&
      Sum(ids, Rooms(cl, su.g + 1)) == RoomEach(su, sum % (su.g + 1)) &&
      SamePartials(su, cl, ids, sum % (su.g + 1))
  {
    hide ClusterOk, Sum, DSet, Size, Costs, Rooms, Sizes, RowCounts, RowPlace;
    var ids := DSet(cl, rows[o].place, i);
    assert RowOk(su, cl, o, rows[o]);
    DataFilled(su, cl, rows, rows[o].place, i);
    assert Tight(cl, ids, su.g + 1);
    TightCost(cl, ids, su.g, sum);
    forall c | c in ids
      ensures Size(cl, c) == su.g + 1 || (Size(cl, c) == sum % (su.g + 1) && 0 < sum % (su.g + 1))
    {
      if Size(cl, c) != su.g + 1 {
        PartialSize(cl, ids, su.g, sum, c);
      }
    }
  }

  /** The cluster that is not full holds the remainder. */
  lemma PartialSize(cl: seq<Cluster>, ids: set<nat>, g: nat, total: int, c: nat)
    requires Tight(cl, ids, g + 1) && Filled(cl, ids, g + 1) && Sum(ids, Sizes(cl)) == total
    requires c in ids && Size(cl, c) != g + 1
    ensures total >= 0 && Size(cl, c) == total % (g + 1) && 0 < total % (g + 1)
  {
    hide Sum, Size;
    var rest := ids - {c};
    SumRemove(ids, Sizes(cl), c);
    FullSums(cl, rest, g);
    Split(|rest|, g + 1, Size(cl, c), total);
  }

  /** After relabelling: costs, room and partial clusters of the merged stripe's groups. */
  lemma MergedFigures(su: Setup, cl: seq<Cluster>, rows: Rows, lo: nat, hi: nat, n: nat, i: nat, sum: nat)
    requires World(su, cl, rows) && lo < hi && i < su.l
    requires forall o :: lo <= o < hi ==> o in rows && rows[o].sums == Const(su.l, sum) && RowTight(su, cl, rows[o])
    ensures var cl' := RelabelAll(cl, lo, hi, n);
      var ids := DSet(cl', UnionPlaces(rows, lo, hi), i);
      Sum(ids, Costs(cl', su.g)) == (hi - lo) * ((sum / (su.g + 1)) * su.g + sum % (su.g + 1)) &&
      Sum(ids, Rooms(cl', su.g + 1)) == (hi - lo) * RoomEach(su, sum % (su.g + 1)) &&
      SamePartials(su, cl', ids, sum % (su.g + 1))
  {
    hide ClusterOk, Sum, DSet, Size, RelabelAll, RowTight, UnionPlaces, RowCounts, RowSums, RoomEach, SamePartials;
    var cl' := RelabelAll(cl, lo, hi, n);
    var cost, room := (sum / (su.g + 1)) * su.g + sum % (su.g + 1), RoomEach(su, sum % (su.g + 1));
    forall o | lo <= o < hi
      ensures RowPlace(su, cl, o, rows[o])
      ensures Sum(DSet(cl, rows[o].place, i), Costs(cl, su.g)) == cost
      ensures Sum(DSet(cl, rows[o].place, i), Rooms(cl, su.g + 1)) == room
      ensures SamePartials(su, cl, DSet(cl, rows[o].place, i), sum % (su.g + 1))
    {
      assert RowOk(su, cl, o, rows[o]);
      GroupFigures(su, cl, rows, o, i, sum);
    }
    UnionSum(su, cl, rows, lo, hi, i, Costs(cl, su.g), cost);
    UnionSum(su, cl, rows, lo, hi, i, Rooms(cl, su.g + 1), room);
    var ids := DSet(cl, UnionPlaces(rows, lo, hi), i);
    RelabelSizes(cl, lo, hi, n, UnionPlaces(rows, lo, hi), i);
    forall c: nat
      ensures Size(cl', c) == Size(cl, c)
    {
      SizeRelabelled(cl, lo, hi, n, c);
    }
    SumSame(ids, Costs(cl, su.g), Costs(cl', su.g));
    SumSame(ids, Rooms(cl, su.g + 1), Rooms(cl', su.g + 1));
    UnionPartials(su, cl, cl', rows, lo, hi, i, sum % (su.g + 1));
  }

  lemma SizeRelabelled(cl: seq<Cluster>, lo: nat, hi: nat, n: nat, c: nat)
    ensures Size(RelabelAll(cl, lo, hi, n), c) == Size(cl, c)
  {
  }

  lemma UnionPartials(su: Setup, cl: seq<Cluster>, cl': seq<Cluster>, rows: Rows, lo: nat, hi: nat, i: nat, p: nat)
    requires forall c: nat :: Size(cl', c) == Size(cl, c)
    requires forall o :: lo <= o < hi ==> o in rows && SamePartials(su, cl, DSet(cl, rows[o].place, i), p)
    ensures SamePartials(su, cl', DSet(cl, UnionPlaces(rows, lo, hi), i), p)
  {
    hide Size, UnionPlaces;
    forall c | c in DSet(cl, UnionPlaces(rows, lo, hi), i)
      ensures Size(cl', c) == su.g + 1 || (Size(cl', c) == p && 0 < p)
    {
      InUnion(rows, lo, hi, c);
      var o :| lo <= o < hi && c in rows[o].place;
      assert SamePartials(su, cl, DSet(cl, rows[o].place, i), p);
      assert c in DSet(cl, rows[o].place, i);
    }
  }
}

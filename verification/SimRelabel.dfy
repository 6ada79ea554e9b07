/**
 * Merging stripes on paper: all blocks of the stripes lo..hi-1 become blocks
 * of stripe n.
 */
module SimRelabel {
  import opened SimClusters
  import opened SimSums
  import opened SimState

  function RelabelBlock(b: Block, lo: nat, hi: nat, n: nat): Block {
    if lo <= b.stripe < hi then b.(stripe := n) else b
  }

  function RelabelSeq(s: seq<Block>, lo: nat, hi: nat, n: nat): (u: seq<Block>)
    ensures |u| == |s|
  {
    seq(|s|, i requires 0 <= i < |s| => RelabelBlock(s[i], lo, hi, n))
  }

  function RelabelCluster(k: Cluster, lo: nat, hi: nat, n: nat): Cluster {
    k.(blocks := RelabelSeq(k.blocks, lo, hi, n))
  }

  function RelabelAll(cl: seq<Cluster>, lo: nat, hi: nat, n: nat): (cl': seq<Cluster>)
    ensures |cl'| == |cl|
  {
    seq(|cl|, c requires 0 <= c < |cl| => RelabelCluster(cl[c], lo, hi, n))
  }

  /** `merge_to_larger_stripe` on all blocks of a cluster, for one old stripe after the other. */
  method MergeToLarger(k: Cluster, lo: nat, hi: nat, n: nat) returns (k': Cluster)
    requires k.numBlocks == |k.blocks| && lo <= hi
    ensures k' == RelabelCluster(k, lo, hi, n)
  {
    var blocks := k.blocks;
    for old_id := lo to hi
      invariant blocks == RelabelSeq(k.blocks, lo, old_id, n)
    {
      ghost var before := blocks;
      for j := 0 to k.numBlocks
        invariant |blocks| == |k.blocks|
        invariant forall i :: 0 <= i < |blocks| ==>
          blocks[i] == if i < j then RelabelBlock(k.blocks[i], lo, old_id + 1, n) else before[i]
      {
        if blocks[j].stripe == old_id {
          blocks := blocks[j := blocks[j].(stripe := n)];
        }
      }
    }
    k' := k.(blocks := blocks);
  }

  // ---- Counts ----

  /** The blocks of a kind (and group, if given) that belong to stripes lo..hi-1. */
  function RangeCount(s: seq<Block>, kind: Kind, lo: nat, hi: nat, groups: set<nat>): nat {
    if s == [] then 0
    else
      var b := s[|s| - 1];
      RangeCount(s[..|s| - 1], kind, lo, hi, groups)
      + (if b.kind == kind && lo <= b.stripe < hi && b.group in groups then 1 else 0)
  }

  lemma RelabelSnoc(s: seq<Block>, lo: nat, hi: nat, n: nat)
    requires s != []
    ensures RelabelSeq(s, lo, hi, n) == RelabelSeq(s[..|s| - 1], lo, hi, n) + [RelabelBlock(s[|s| - 1], lo, hi, n)]
  {
  }

  /** Stripes outside the range and other than n keep their counts; the data stays the same. */
  lemma {:induction false} RelabelOthers(s: seq<Block>, lo: nat, hi: nat, n: nat, kind: Kind, sid: nat, i: nat)
    requires !(lo <= sid < hi) && sid != n
    ensures Count(RelabelSeq(s, lo, hi, n), kind, sid) == Count(s, kind, sid)
    ensures CountIn(RelabelSeq(s, lo, hi, n), kind, sid, i) == CountIn(s, kind, sid, i)
  {
    if s != [] {
      RelabelOthers(s[..|s| - 1], lo, hi, n, kind, sid, i);
      RelabelSnoc(s, lo, hi, n);
      Snoc(RelabelSeq(s[..|s| - 1], lo, hi, n), RelabelBlock(s[|s| - 1], lo, hi, n), kind, sid, i);
    }
  }

  lemma {:induction false} RelabelData(s: seq<Block>, lo: nat, hi: nat, n: nat)
    ensures CountData(RelabelSeq(s, lo, hi, n)) == CountData(s) && DataIds(RelabelSeq(s, lo, hi, n)) == DataIds(s)
  {
    if s != [] {
      RelabelData(s[..|s| - 1], lo, hi, n);
      RelabelSnoc(s, lo, hi, n);
      SnocData(RelabelSeq(s[..|s| - 1], lo, hi, n), RelabelBlock(s[|s| - 1], lo, hi, n));
    }
  }

  /** Stripe n gains what the range had. */
  lemma {:induction false} RelabelGains(s: seq<Block>, lo: nat, hi: nat, n: nat, kind: Kind, i: nat)
    requires lo < hi && n <= lo
    ensures CountIn(RelabelSeq(s, lo, hi, n), kind, n, i)
         == RangeCount(s, kind, lo, hi, {i}) + if n == lo then 0 else CountIn(s, kind, n, i)
  {
    if s != [] {
      RelabelGains(s[..|s| - 1], lo, hi, n, kind, i);
      RelabelSnoc(s, lo, hi, n);
      Snoc(RelabelSeq(s[..|s| - 1], lo, hi, n), RelabelBlock(s[|s| - 1], lo, hi, n), kind, n, i);
    }
  }

  lemma {:induction false} RelabelGainsAll(s: seq<Block>, lo: nat, hi: nat, n: nat, kind: Kind)
    requires lo < hi && n <= lo
    ensures Count(RelabelSeq(s, lo, hi, n), kind, n) == AllCount(s, kind, lo, hi) + if n == lo then 0 else Count(s, kind, n)
  {
    if s != [] {
      RelabelGainsAll(s[..|s| - 1], lo, hi, n, kind);
      RelabelSnoc(s, lo, hi, n);
      Snoc(RelabelSeq(s[..|s| - 1], lo, hi, n), RelabelBlock(s[|s| - 1], lo, hi, n), kind, n, 0);
    }
  }

  function AllCount(s: seq<Block>, kind: Kind, lo: nat, hi: nat): nat {
    if s == [] then 0
    else AllCount(s[..|s| - 1], kind, lo, hi) + if s[|s| - 1].kind == kind && lo <= s[|s| - 1].stripe < hi then 1 else 0
  }

  lemma {:induction false} OneMoreStripe(s: seq<Block>, kind: Kind, lo: nat, hi: nat, i: nat)
    requires lo <= hi
    ensures AllCount(s, kind, lo, hi + 1) == AllCount(s, kind, lo, hi) + Count(s, kind, hi)
    ensures RangeCount(s, kind, lo, hi + 1, {i}) == RangeCount(s, kind, lo, hi, {i}) + CountIn(s, kind, hi, i)
  {
    if s != [] {
      OneMoreStripe(s[..|s| - 1], kind, lo, hi, i);
    }
  }

  lemma {:induction false} EmptyRange(s: seq<Block>, kind: Kind, lo: nat, i: nat)
    ensures AllCount(s, kind, lo, lo) == 0 && RangeCount(s, kind, lo, lo, {i}) == 0
  {
    if s != [] {
      EmptyRange(s[..|s| - 1], kind, lo, i);
    }
  }

  lemma OneMoreTime(n: int, v: int)
    ensures n * v == (n - 1) * v + v
  {
  }

  /** Equal counts add up. */
  lemma {:induction false} AllCountIs(s: seq<Block>, kind: Kind, lo: nat, hi: nat, v: nat)
    requires lo <= hi && forall o :: lo <= o < hi ==> Count(s, kind, o) == v
    ensures AllCount(s, kind, lo, hi) == (hi - lo) * v
    decreases hi
  {
    hide Count, AllCount;
    if lo == hi {
      EmptyRange(s, kind, lo, 0);
    } else {
      OneMoreTime(hi - lo, v);
      AllCountIs(s, kind, lo, hi - 1, v);
      OneMoreStripe(s, kind, lo, hi - 1, 0);
    }
  }

  lemma {:induction false} RangeCountIs(s: seq<Block>, kind: Kind, lo: nat, hi: nat, i: nat, v: nat)
    requires lo <= hi && forall o :: lo <= o < hi ==> CountIn(s, kind, o, i) == v
    ensures RangeCount(s, kind, lo, hi, {i}) == (hi - lo) * v
    decreases hi
  {
    hide CountIn, RangeCount;
    if lo == hi {
      EmptyRange(s, kind, lo, i);
    } else {
      OneMoreTime(hi - lo, v);
      RangeCountIs(s, kind, lo, hi - 1, i, v);
      OneMoreStripe(s, kind, lo, hi - 1, i);
    }
  }

  // ---- Places ----

  /** The clusters that the stripes lo..hi-1 span. */
  function UnionPlaces(rows: Rows, lo: nat, hi: nat): set<nat>
    requires forall o :: lo <= o < hi ==> o in rows
  {
    if lo >= hi then {} else UnionPlaces(rows, lo, hi - 1) + rows[hi - 1].place
  }

  lemma {:induction false} InUnion(rows: Rows, lo: nat, hi: nat, c: nat)
    requires forall o :: lo <= o < hi ==> o in rows
    ensures c in UnionPlaces(rows, lo, hi) <==> exists o :: lo <= o < hi && c in rows[o].place
    decreases hi
  {
    if lo < hi {
      InUnion(rows, lo, hi - 1, c);
    }
  }

  /** Different stripes have different data clusters, so sums over their data clusters add up. */
  lemma {:induction false} UnionSum(su: Setup, cl: seq<Cluster>, rows: Rows, lo: nat, hi: nat, i: nat, f: nat -> int,
                                    v: int)
    requires lo <= hi && forall o :: lo <= o < hi ==>
      o in rows && RowPlace(su, cl, o, rows[o]) && Sum(DSet(cl, rows[o].place, i), f) == v
    ensures Sum(DSet(cl, UnionPlaces(rows, lo, hi), i), f) == (hi - lo) * v
    decreases hi
  {
    hide Sum, DSet, RowPlace;
    if lo == hi {
      assert DSet(cl, {}, i) == {} by { NoDSet(cl, i); }
      assert Sum({}, f) == 0 by { NoSum(f); }
    } else {
      UnionSum(su, cl, rows, lo, hi - 1, i, f, v);
      OneMoreTime(hi - lo, v);
      var before, last := UnionPlaces(rows, lo, hi - 1), rows[hi - 1].place;
      DSetUnion(cl, before, last, i);
      forall c | c in DSet(cl, before, i)
        ensures c !in DSet(cl, last, i)
      {
        OwnClusters(su, cl, rows, lo, hi, i, c);
      }
      SumUnion(DSet(cl, before, i), DSet(cl, last, i), f);
    }
  }

  lemma NoDSet(cl: seq<Cluster>, i: nat)
    ensures DSet(cl, {}, i) == {}
  {
  }

  lemma NoSum(f: nat -> int)
    ensures Sum({}, f) == 0
  {
  }

  lemma DSetUnion(cl: seq<Cluster>, s: set<nat>, t: set<nat>, i: nat)
    ensures DSet(cl, s + t, i) == DSet(cl, s, i) + DSet(cl, t, i)
  {
  }

  lemma OwnClusters(su: Setup, cl: seq<Cluster>, rows: Rows, lo: nat, hi: nat, i: nat, c: nat)
    requires lo < hi && forall o :: lo <= o < hi ==> o in rows && RowPlace(su, cl, o, rows[o])
    requires c in DSet(cl, UnionPlaces(rows, lo, hi - 1), i)
    ensures c !in DSet(cl, rows[hi - 1].place, i)
  {
    InUnion(rows, lo, hi - 1, c);
    var o :| lo <= o < hi - 1 && c in rows[o].place;
    assert RowPlace(su, cl, o, rows[o]) && RowPlace(su, cl, hi - 1, rows[hi - 1]);
  }

  // ---- The state after relabelling ----

  function Const(l: nat, v: nat): (s: seq<nat>)
    ensures |s| == l
  {
    seq(l, _ => v)
  }

  /** A stripe with the same amounts in all groups. */
  predicate Uniform(su: Setup, row: Row, sum: nat, lam: nat) {
    row.sums == Const(su.l, sum) && row.lam == Const(su.l, lam) && row.locals == Const(su.l, 1) && row.globals == su.g
  }

  ghost predicate UniformRange(su: Setup, rows: Rows, lo: nat, hi: nat, sum: nat, lam: nat) {
    forall o :: lo <= o < hi ==> o in rows && Uniform(su, rows[o], sum, lam)
  }

  /** What the merged stripe has before its parities are recomputed. */
  function MergedRow(su: Setup, rows: Rows, lo: nat, hi: nat, sum: nat, lam: nat): Row
    requires lo <= hi && forall o :: lo <= o < hi ==> o in rows
  {
    Row(Const(su.l, (hi - lo) * sum), Const(su.l, (hi - lo) * lam), Const(su.l, hi - lo), (hi - lo) * su.g,
        UnionPlaces(rows, lo, hi))
  }

  function MergedRows(rows: Rows, lo: nat, hi: nat, n: nat, row: Row): Rows {
    (map s | s in rows && !(lo <= s < hi) :: rows[s])[n := row]
  }

  lemma RelabelCounted(c: nat, k: Cluster, lo: nat, hi: nat, n: nat)
    requires Counted(c, k)
    ensures Counted(c, RelabelCluster(k, lo, hi, n))
  {
    RelabelData(k.blocks, lo, hi, n);
  }

  lemma RelabelClusterOk(su: Setup, rows: Rows, rows': Rows, c: nat, k: Cluster, lo: nat, hi: nat, n: nat)
    requires lo < hi && ClusterOk(su, rows, c, k) && n in rows'
    requires forall o :: lo <= o < hi ==> o in rows && rows[o].place <= rows'[n].place
    requires forall s :: s in rows && !(lo <= s < hi) ==> s in rows' && rows'[s].place == rows[s].place
    ensures ClusterOk(su, rows', c, RelabelCluster(k, lo, hi, n))
  {
    hide Counted;
    RelabelCounted(c, k, lo, hi, n);
  }

  /** Data clusters keep their groups and sizes. */
  lemma RelabelSizes(cl: seq<Cluster>, lo: nat, hi: nat, n: nat, place: set<nat>, i: nat)
    ensures DSet(RelabelAll(cl, lo, hi, n), place, i) == DSet(cl, place, i)
    ensures Sum(DSet(cl, place, i), Sizes(RelabelAll(cl, lo, hi, n))) == Sum(DSet(cl, place, i), Sizes(cl))
  {
    var cl' := RelabelAll(cl, lo, hi, n);
    forall c
      ensures IsDataOf(cl', c, i) <==> IsDataOf(cl, c, i)
      ensures Size(cl', c) == Size(cl, c)
    {
    }
    SumSame(DSet(cl, place, i), Sizes(cl'), Sizes(cl));
  }

  /** The rows of the other stripes still hold. */
  lemma RelabelOther(su: Setup, cl: seq<Cluster>, lo: nat, hi: nat, n: nat, sid: nat, row: Row)
    requires RowOk(su, cl, sid, row) && !(lo <= sid < hi) && sid != n
    ensures RowOk(su, RelabelAll(cl, lo, hi, n), sid, row)
  {
    hide Count, CountIn, Sum, DSet, RelabelSeq;
    var cl' := RelabelAll(cl, lo, hi, n);
    forall i: nat | i < su.l
      ensures GroupCounts(su, cl', sid, row, i)
      ensures Sum(DSet(cl', row.place, i), Sizes(cl')) == row.sums[i]
    {
      assert GroupCounts(su, cl, sid, row, i);
      RelabelOthers(cl[su.lids[i]].blocks, lo, hi, n, Data, sid, i);
      RelabelOthers(cl[su.lids[i]].blocks, lo, hi, n, Local, sid, i);
      RelabelSizes(cl, lo, hi, n, row.place, i);
    }
    RelabelOthers(cl[su.gid].blocks, lo, hi, n, Global, sid, 0);
    RelabelPlace(su, cl, lo, hi, n, sid, row);
  }

  lemma RelabelPlace(su: Setup, cl: seq<Cluster>, lo: nat, hi: nat, n: nat, sid: nat, row: Row)
    requires RowPlace(su, cl, sid, row) && !(lo <= sid < hi)
    ensures RowPlace(su, RelabelAll(cl, lo, hi, n), sid, row)
  {
  }

  /** Stripe n has everything the range had. */
  lemma RelabelMerged(su: Setup, cl: seq<Cluster>, rows: Rows, lo: nat, hi: nat, n: nat, sum: nat, lam: nat)
    requires World(su, cl, rows) && lo < hi && n <= lo && (n in rows ==> n == lo)
    requires UniformRange(su, rows, lo, hi, sum, lam)
    ensures RowOk(su, RelabelAll(cl, lo, hi, n), n, MergedRow(su, rows, lo, hi, sum, lam))
  {
    hide Count, CountIn, Sum, DSet, RelabelSeq, UnionPlaces, ClusterOk;
    var cl', row := RelabelAll(cl, lo, hi, n), MergedRow(su, rows, lo, hi, sum, lam);
    assert RowOk(su, cl, lo, rows[lo]);
    forall i: nat | i < su.l
      ensures GroupCounts(su, cl', n, row, i)
      ensures Sum(DSet(cl', row.place, i), Sizes(cl')) == row.sums[i]
    {
      MergedGroup(su, cl, rows, lo, hi, n, sum, lam, i);
    }
    MergedGlobals(su, cl, rows, lo, hi, n, sum, lam);
    MergedPlaceOk(su, cl, rows, lo, hi, n);
  }

  /** A stripe that is not there has no blocks. */
  lemma {:induction false} NoBlocks(s: seq<Block>, kind: Kind, n: nat, i: nat)
    requires forall x :: 0 <= x < |s| ==> s[x].stripe != n
    ensures Count(s, kind, n) == 0 && CountIn(s, kind, n, i) == 0
  {
    if s != [] {
      NoBlocks(s[..|s| - 1], kind, n, i);
    }
  }

  lemma MergedGroup(su: Setup, cl: seq<Cluster>, rows: Rows, lo: nat, hi: nat, n: nat, sum: nat, lam: nat, i: nat)
    requires World(su, cl, rows) && lo < hi && n <= lo && (n in rows ==> n == lo)
    requires UniformRange(su, rows, lo, hi, sum, lam)
    requires i < su.l
    ensures GroupCounts(su, RelabelAll(cl, lo, hi, n), n, MergedRow(su, rows, lo, hi, sum, lam), i)
    ensures Sum(DSet(RelabelAll(cl, lo, hi, n), UnionPlaces(rows, lo, hi), i), Sizes(RelabelAll(cl, lo, hi, n))) == (hi - lo) * sum
  {
    hide Count, CountIn, Sum, DSet, RelabelSeq, UnionPlaces, Counted, DataOk, AllowedAt;
    var s := cl[su.lids[i]].blocks;
    forall o | lo <= o < hi
      ensures Count(s, Data, o) == lam && CountIn(s, Local, o, i) == 1
      ensures RowPlace(su, cl, o, rows[o]) && Sum(DSet(cl, rows[o].place, i), Sizes(cl)) == sum
    {
      assert RowOk(su, cl, o, rows[o]) && GroupCounts(su, cl, o, rows[o], i);
    }
    RelabelGainsAll(s, lo, hi, n, Data);
    RelabelGains(s, lo, hi, n, Local, i);
    AllCountIs(s, Data, lo, hi, lam);
    RangeCountIs(s, Local, lo, hi, i, 1);
    if n != lo {
      assert ClusterOk(su, rows, su.lids[i], cl[su.lids[i]]);
      NoBlocks(s, Data, n, i);
      NoBlocks(s, Local, n, i);
    }
    RelabelSizes(cl, lo, hi, n, UnionPlaces(rows, lo, hi), i);
    UnionSum(su, cl, rows, lo, hi, i, Sizes(cl), sum);
  }

  lemma MergedGlobals(su: Setup, cl: seq<Cluster>, rows: Rows, lo: nat, hi: nat, n: nat, sum: nat, lam: nat)
    requires World(su, cl, rows) && lo < hi && n <= lo && (n in rows ==> n == lo)
    requires UniformRange(su, rows, lo, hi, sum, lam)
    ensures Count(RelabelAll(cl, lo, hi, n)[su.gid].blocks, Global, n) == (hi - lo) * su.g
  {
    hide Count, CountIn, Sum, DSet, RelabelSeq, Counted, DataOk, AllowedAt, GroupCounts;
    var s := cl[su.gid].blocks;
    forall o | lo <= o < hi
      ensures Count(s, Global, o) == su.g
    {
      assert RowOk(su, cl, o, rows[o]);
    }
    RelabelGainsAll(s, lo, hi, n, Global);
    AllCountIs(s, Global, lo, hi, su.g);
    if n != lo {
      assert ClusterOk(su, rows, su.gid, cl[su.gid]);
      NoBlocks(s, Global, n, 0);
    }
  }

  lemma MergedPlaceOk(su: Setup, cl: seq<Cluster>, rows: Rows, lo: nat, hi: nat, n: nat)
    requires lo < hi && forall o :: lo <= o < hi ==> o in rows && RowPlace(su, cl, o, rows[o])
    ensures RowPlace(su, RelabelAll(cl, lo, hi, n), n, Row([], [], [], 0, UnionPlaces(rows, lo, hi)))
  {
    hide UnionPlaces;
    var cl', place := RelabelAll(cl, lo, hi, n), UnionPlaces(rows, lo, hi);
    assert RowPlace(su, cl, lo, rows[lo]);
    forall c: nat
      ensures c in rows[lo].place ==> c in place
      ensures c in place ==> c < |cl'| && (cl'[c].kind == Data ==> cl'[c].blocks != [] && cl'[c].blocks[0].stripe == n)
    {
      InUnion(rows, lo, hi, c);
      if c in place {
        var o :| lo <= o < hi && c in rows[o].place;
        assert RowPlace(su, cl, o, rows[o]);
      }
    }
  }

  /** Relabelling merges the rows. */
  lemma RelabelWorld(su: Setup, cl: seq<Cluster>, rows: Rows, lo: nat, hi: nat, n: nat, sum: nat, lam: nat)
    requires World(su, cl, rows) && lo < hi && n <= lo && (n in rows ==> n == lo)
    requires UniformRange(su, rows, lo, hi, sum, lam)
    ensures World(su, RelabelAll(cl, lo, hi, n), MergedRows(rows, lo, hi, n, MergedRow(su, rows, lo, hi, sum, lam)))
  {
    hide ClusterOk, RowOk, RelabelCluster, UnionPlaces;
    var cl', row := RelabelAll(cl, lo, hi, n), MergedRow(su, rows, lo, hi, sum, lam);
    var rows' := MergedRows(rows, lo, hi, n, row);
    RangePlaces(rows, lo, hi);
    forall c: nat | c < |cl'|
      ensures ClusterOk(su, rows', c, cl'[c])
    {
      RelabelClusterOk(su, rows, rows', c, cl[c], lo, hi, n);
    }
    forall sid | sid in rows'
      ensures RowOk(su, cl', sid, rows'[sid])
    {
      if sid == n {
        RelabelMerged(su, cl, rows, lo, hi, n, sum, lam);
      } else {
        RelabelOther(su, cl, lo, hi, n, sid, rows[sid]);
      }
    }
  }

  lemma RangePlaces(rows: Rows, lo: nat, hi: nat)
    requires forall o :: lo <= o < hi ==> o in rows
    ensures forall o :: lo <= o < hi ==> rows[o].place <= UnionPlaces(rows, lo, hi)
  {
    forall o, c: nat | lo <= o < hi && c in rows[o].place
      ensures c in UnionPlaces(rows, lo, hi)
    {
      InUnion(rows, lo, hi, c);
    }
  }

  /** Only the clusters that the merged stripes span have blocks of theirs. */
  lemma OnlySpanned(su: Setup, cl: seq<Cluster>, rows: Rows, lo: nat, hi: nat, n: nat, c: nat)
    requires World(su, cl, rows) && lo < hi && (forall o :: lo <= o < hi ==> o in rows) && c < |cl|
    requires c !in UnionPlaces(rows, lo, hi)
    ensures RelabelCluster(cl[c], lo, hi, n) == cl[c]
  {
    hide RowCounts, RowSums, Counted, UnionPlaces;
    RangePlaces(rows, lo, hi);
    assert ClusterOk(su, rows, c, cl[c]) && RowOk(su, cl, lo, rows[lo]);
    assert cl[c].kind == Data;
    assert RelabelSeq(cl[c].blocks, lo, hi, n) == cl[c].blocks;
  }
}

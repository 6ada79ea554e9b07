/**
 * The state of the simulation: where the blocks of every stripe are, and how
 * adding, removing and moving a block changes that.
 */
module SimState {
  import opened SimClusters
  import opened SimSums

  /**
   * Code parameters and the clusters with special roles: the cluster of local
   * parities and loose data of each group, and the cluster of global parities.
   * Without loose data (a group fills its clusters exactly) they are all one.
   */
  datatype Setup = Setup(g: nat, l: nat, loose: nat, lids: seq<nat>, gid: nat)

  ghost predicate SetupOk(su: Setup) {
    su.l > 0 && |su.lids| == su.l && su.loose <= su.g &&
    (su.loose > 0 ==> forall i, j :: 0 <= i < j < su.l ==> su.lids[i] != su.lids[j]) &&
    (su.loose > 0 ==> su.gid !in su.lids) &&
    (su.loose == 0 ==> forall i :: 0 <= i < su.l ==> su.lids[i] == su.gid)
  }

  /** What there is of a stripe: per group the data in data clusters, the loose data and the local parities. */
  datatype Row = Row(sums: seq<nat>, lam: seq<nat>, locals: seq<nat>, globals: nat, place: set<nat>)

  type Rows = map<nat, Row>

  // ---- Clusters ----

  function KindOf(su: Setup, c: nat): Kind {
    if c in su.lids then Local else if c == su.gid then Global else Data
  }

  /** Which blocks may be in a parity cluster. */
  predicate AllowedAt(su: Setup, c: nat, b: Block) {
    if b.kind == Global then c == su.gid
    else b.group < su.l && b.group < |su.lids| && c == su.lids[b.group] && (b.kind == Data ==> su.loose > 0)
  }

  /** A data cluster: up to g+1 data blocks of one group of one stripe, which knows the cluster. */
  ghost predicate DataOk(su: Setup, rows: Rows, c: nat, blocks: seq<Block>) {
    0 < |blocks| <= su.g + 1 && blocks[0].group < su.l &&
    blocks[0].stripe in rows && c in rows[blocks[0].stripe].place &&
    forall i :: 0 <= i < |blocks| ==> Is(blocks[i], Data, blocks[0].stripe) && blocks[i].group == blocks[0].group
  }

  ghost predicate ClusterOk(su: Setup, rows: Rows, c: nat, k: Cluster) {
    k.kind == KindOf(su, c) && Counted(c, k) &&
    if k.kind == Data then DataOk(su, rows, c, k.blocks)
    else forall i :: 0 <= i < |k.blocks| ==> k.blocks[i].stripe in rows && AllowedAt(su, c, k.blocks[i])
  }

  // ---- Stripes ----

  predicate IsDataOf(cl: seq<Cluster>, c: nat, i: nat) {
    c < |cl| && cl[c].kind == Data && cl[c].blocks != [] && cl[c].blocks[0].group == i
  }

  /** The data clusters of a group among the given clusters. */
  function DSet(cl: seq<Cluster>, place: set<nat>, i: nat): set<nat> {
    set c | c in place && IsDataOf(cl, c, i)
  }

  /** The blocks of a stripe in the parity clusters. */
  ghost predicate RowCounts(su: Setup, cl: seq<Cluster>, sid: nat, row: Row) {
    |row.lam| == su.l && |row.locals| == su.l && |su.lids| == su.l && su.gid < |cl| &&
    (forall i :: 0 <= i < su.l ==> GroupCounts(su, cl, sid, row, i)) &&
    Count(cl[su.gid].blocks, Global, sid) == row.globals
  }

  ghost predicate GroupCounts(su: Setup, cl: seq<Cluster>, sid: nat, row: Row, i: nat)
    requires i < |su.lids| && i < |row.lam| && i < |row.locals|
  {
    su.lids[i] < |cl| && Count(cl[su.lids[i]].blocks, Data, sid) == row.lam[i] &&
    CountIn(cl[su.lids[i]].blocks, Local, sid, i) == row.locals[i]
  }

  /** The clusters of a stripe: all parity clusters, and data clusters of its own. */
  ghost predicate RowPlace(su: Setup, cl: seq<Cluster>, sid: nat, row: Row) {
    (forall i :: 0 <= i < |su.lids| ==> su.lids[i] in row.place) && su.gid in row.place &&
    forall c :: c in row.place ==> c < |cl| && (cl[c].kind == Data ==> cl[c].blocks != [] && cl[c].blocks[0].stripe == sid)
  }

  ghost predicate RowSums(su: Setup, cl: seq<Cluster>, row: Row) {
    |row.sums| == su.l && forall i :: 0 <= i < su.l ==> Sum(DSet(cl, row.place, i), Sizes(cl)) == row.sums[i]
  }

  ghost predicate RowOk(su: Setup, cl: seq<Cluster>, sid: nat, row: Row) {
    RowCounts(su, cl, sid, row) && RowPlace(su, cl, sid, row) && RowSums(su, cl, row)
  }

  /** The clusters hold exactly what the rows say. */
  ghost predicate World(su: Setup, cl: seq<Cluster>, rows: Rows) {
    SetupOk(su) && su.gid < |cl| && (forall i :: 0 <= i < su.l ==> su.lids[i] < |cl|) &&
    (forall c :: 0 <= c < |cl| ==> ClusterOk(su, rows, c, cl[c])) &&
    (forall sid :: sid in rows ==> RowOk(su, cl, sid, rows[sid]))
  }

  // ---- Changing a parity cluster ----

  /** All counts of the stripe are the same in both lists. */
  ghost predicate SameCounts(s: seq<Block>, u: seq<Block>, sid: nat) {
    (forall kind :: Count(u, kind, sid) == Count(s, kind, sid)) &&
    forall kind, i :: CountIn(u, kind, sid, i) == CountIn(s, kind, sid, i)
  }

  lemma ParityData(cl: seq<Cluster>, c: nat, k: Cluster, place: set<nat>, i: nat)
    requires c < |cl| && cl[c].kind != Data && k.kind != Data
    ensures DSet(cl[c := k], place, i) == DSet(cl, place, i)
    ensures Sum(DSet(cl, place, i), Sizes(cl[c := k])) == Sum(DSet(cl, place, i), Sizes(cl))
  {
    SumSame(DSet(cl, place, i), Sizes(cl[c := k]), Sizes(cl));
  }

  /** A change in a parity cluster that concerns only stripe n; the row of n changes accordingly. */
  lemma ChangeParity(su: Setup, cl: seq<Cluster>, rows: Rows, c: nat, k: Cluster, n: nat, row: Row)
    requires World(su, cl, rows) && c < |cl| && cl[c].kind != Data && n in rows
    requires ClusterOk(su, rows, c, k)
    requires (forall sid :: sid in rows && sid != n ==> SameCounts(cl[c].blocks, k.blocks, sid))
    requires row.place == rows[n].place && row.sums == rows[n].sums && RowCounts(su, cl[c := k], n, row)
    ensures World(su, cl[c := k], rows[n := row])
  {
    hide Count, CountIn, Counted, DSet, Sum, AllowedAt, Sizes, Is;
    var cl', rows' := cl[c := k], rows[n := row];
    forall d | 0 <= d < |cl'|
      ensures ClusterOk(su, rows', d, cl'[d])
    {
      assert d != c ==> ClusterOk(su, rows, d, cl[d]);
    }
    assert ClusterOk(su, rows, c, cl[c]);
    forall sid | sid in rows'
      ensures RowOk(su, cl', sid, rows'[sid])
    {
      assert RowOk(su, cl, sid, rows[sid]);
      forall i | 0 <= i < su.l
        ensures Sum(DSet(cl', rows[sid].place, i), Sizes(cl')) == rows[sid].sums[i]
      {
        ParityData(cl, c, k, rows[sid].place, i);
      }
      if sid != n {
        assert SameCounts(cl[c].blocks, k.blocks, sid);
        OtherCounts(su, cl, c, k, sid, rows[sid]);
      }
    }
  }

  lemma OtherCounts(su: Setup, cl: seq<Cluster>, c: nat, k: Cluster, sid: nat, row: Row)
    requires RowCounts(su, cl, sid, row) && c < |cl| && SameCounts(cl[c].blocks, k.blocks, sid)
    ensures RowCounts(su, cl[c := k], sid, row)
  {
    hide Count, CountIn;
    var cl' := cl[c := k];
    forall i: nat | i < su.l
      ensures GroupCounts(su, cl', sid, row, i)
    {
      assert GroupCounts(su, cl, sid, row, i);
    }
  }

  // ---- Changing a data cluster ----

  /** One more data block in a data cluster that is not full. */
  lemma GrowData(su: Setup, cl: seq<Cluster>, rows: Rows, c: nat, b: Block, n: nat)
    requires World(su, cl, rows) && n in rows && c in rows[n].place && c < |cl| && cl[c].kind == Data
    requires |cl[c].blocks| < su.g + 1 && Is(b, Data, n) && b.cluster == c && cl[c].blocks != []
    requires b.group == cl[c].blocks[0].group
    ensures b.group < su.l && |rows[n].sums| == su.l
    ensures World(su, cl[c := AddNewBlock(cl[c], b)], rows[n := rows[n].(sums := rows[n].sums[b.group := rows[n].sums[b.group] + 1])])
  {
    hide Count, CountIn, Counted, DSet, Sum, AllowedAt, Sizes, CountData;
    assert ClusterOk(su, rows, c, cl[c]) && RowOk(su, cl, n, rows[n]);
    var k := AddNewBlock(cl[c], b);
    var row := rows[n].(sums := rows[n].sums[b.group := rows[n].sums[b.group] + 1]);
    var cl', rows' := cl[c := k], rows[n := row];
    AddedCounted(c, cl[c], b);
    forall d | 0 <= d < |cl'|
      ensures ClusterOk(su, rows', d, cl'[d])
    {
      assert ClusterOk(su, rows, d, cl[d]);
    }
    forall sid | sid in rows'
      ensures RowOk(su, cl', sid, rows'[sid])
    {
      assert RowOk(su, cl, sid, rows[sid]);
      DataCounts(su, cl, c, k, sid, rows[sid]);
      SameParities(su, cl', sid, rows[sid], rows'[sid]);
      GrownSums(su, cl, rows, c, b, n, sid);
    }
  }

  lemma SameParities(su: Setup, cl: seq<Cluster>, sid: nat, row: Row, row': Row)
    requires RowCounts(su, cl, sid, row) && row'.lam == row.lam && row'.locals == row.locals
    requires row'.globals == row.globals
    ensures RowCounts(su, cl, sid, row')
  {
    hide Count, CountIn;
    forall i: nat | i < su.l
      ensures GroupCounts(su, cl, sid, row', i)
    {
      assert GroupCounts(su, cl, sid, row, i);
    }
  }

  /** Parity clusters are not concerned. */
  lemma DataCounts(su: Setup, cl: seq<Cluster>, c: nat, k: Cluster, sid: nat, row: Row)
    requires RowCounts(su, cl, sid, row) && c < |cl| && c !in su.lids && c != su.gid
    ensures RowCounts(su, cl[c := k], sid, row)
  {
    hide Count, CountIn;
    var cl' := cl[c := k];
    forall i: nat | i < su.l
      ensures GroupCounts(su, cl', sid, row, i)
    {
      assert GroupCounts(su, cl, sid, row, i);
    }
  }

  lemma GrownSums(su: Setup, cl: seq<Cluster>, rows: Rows, c: nat, b: Block, n: nat, sid: nat)
    requires World(su, cl, rows) && n in rows && sid in rows && c in rows[n].place && c < |cl| && cl[c].kind == Data
    requires Is(b, Data, n) && cl[c].blocks != [] && b.group == cl[c].blocks[0].group && b.group < su.l
    ensures |rows[sid].sums| == su.l
    ensures RowSums(su, cl[c := AddNewBlock(cl[c], b)],
                    if sid == n then rows[n].(sums := rows[n].sums[b.group := rows[n].sums[b.group] + 1]) else rows[sid])
  {
    hide Count, CountIn, Counted, Sum, AllowedAt, CountData, RowCounts, ClusterOk;
    assert RowOk(su, cl, sid, rows[sid]) && RowOk(su, cl, n, rows[n]);
    var cl' := cl[c := AddNewBlock(cl[c], b)];
    var place := rows[sid].place;
    forall i: nat | i < su.l
      ensures Sum(DSet(cl', place, i), Sizes(cl')) == rows[sid].sums[i] + if sid == n && i == b.group then 1 else 0
    {
      assert DSet(cl', place, i) == DSet(cl, place, i);
      if sid == n && i == b.group {
        assert c in DSet(cl, place, i);
        SumChange(DSet(cl, place, i), Sizes(cl), Sizes(cl'), c);
      } else {
        SumSame(DSet(cl, place, i), Sizes(cl'), Sizes(cl));
      }
    }
  }

  /** A new data cluster with one block. */
  lemma StartData(su: Setup, cl: seq<Cluster>, rows: Rows, b: Block, n: nat)
    requires World(su, cl, rows) && n in rows && Is(b, Data, n) && b.cluster == |cl| && b.group < su.l
    ensures |rows[n].sums| == su.l
    ensures World(su, cl + [AddNewBlock(NewCluster(), b)],
                  rows[n := rows[n].(sums := rows[n].sums[b.group := rows[n].sums[b.group] + 1], place := rows[n].place + {|cl|})])
  {
    hide Count, CountIn, DSet, Sum, AllowedAt, Sizes, CountData;
    assert RowOk(su, cl, n, rows[n]);
    var k := AddNewBlock(NewCluster(), b);
    var row := rows[n].(sums := rows[n].sums[b.group := rows[n].sums[b.group] + 1], place := rows[n].place + {|cl|});
    var cl', rows' := cl + [k], rows[n := row];
    FreshCounted(|cl|, b);
    forall d | 0 <= d < |cl'|
      ensures ClusterOk(su, rows', d, cl'[d])
    {
      assert d < |cl| ==> ClusterOk(su, rows, d, cl[d]);
      assert k.blocks == [b];
    }
    forall sid | sid in rows'
      ensures RowOk(su, cl', sid, rows'[sid])
    {
      assert RowOk(su, cl, sid, rows[sid]);
      MoreCounts(su, cl, k, sid, rows[sid]);
      SameParities(su, cl', sid, rows[sid], rows'[sid]);
      StartedSums(su, cl, rows, b, n, sid);
    }
  }

  lemma FreshCounted(c: nat, b: Block)
    requires b.cluster == c
    ensures Counted(c, AddNewBlock(NewCluster(), b))
  {
    AddedCounted(c, NewCluster(), b);
  }

  lemma MoreCounts(su: Setup, cl: seq<Cluster>, k: Cluster, sid: nat, row: Row)
    requires RowCounts(su, cl, sid, row)
    ensures RowCounts(su, cl + [k], sid, row)
  {
    hide Count, CountIn;
    var cl' := cl + [k];
    forall i: nat | i < su.l
      ensures GroupCounts(su, cl', sid, row, i)
    {
      assert GroupCounts(su, cl, sid, row, i);
    }
  }

  lemma StartedSums(su: Setup, cl: seq<Cluster>, rows: Rows, b: Block, n: nat, sid: nat)
    requires World(su, cl, rows) && n in rows && sid in rows && Is(b, Data, n) && b.group < su.l
    ensures |rows[sid].sums| == su.l
    ensures RowSums(su, cl + [AddNewBlock(NewCluster(), b)],
      if sid == n then rows[n].(sums := rows[n].sums[b.group := rows[n].sums[b.group] + 1], place := rows[n].place + {|cl|})
      else rows[sid])
  {
    hide Count, CountIn, Counted, Sum, AllowedAt, CountData, RowCounts, ClusterOk;
    assert RowOk(su, cl, sid, rows[sid]) && RowOk(su, cl, n, rows[n]);
    var cl' := cl + [AddNewBlock(NewCluster(), b)];
    var place := rows[sid].place;
    var place' := if sid == n then place + {|cl|} else place;
    forall i: nat | i < su.l
      ensures Sum(DSet(cl', place', i), Sizes(cl')) == rows[sid].sums[i] + if sid == n && i == b.group then 1 else 0
    {
      SumSame(DSet(cl, place, i), Sizes(cl'), Sizes(cl));
      if sid == n && i == b.group {
        assert DSet(cl', place', i) == DSet(cl, place, i) + {|cl|};
        SumAdd(DSet(cl, place, i), Sizes(cl'), |cl|);
      } else {
        assert DSet(cl', place', i) == DSet(cl, place, i);
      }
    }
  }

  // ---- All data ----

  /** The ids of all data blocks, wherever they are. */
  function AllData(cl: seq<Cluster>): multiset<nat> {
    if cl == [] then multiset{} else AllData(cl[..|cl| - 1]) + DataIds(cl[|cl| - 1].blocks)
  }

  lemma AllDataSnoc(cl: seq<Cluster>, k: Cluster)
    ensures AllData(cl + [k]) == AllData(cl) + DataIds(k.blocks)
  {
    assert (cl + [k])[..|cl|] == cl;
  }

  /** The data of a nonempty list: that of all clusters but the last, and of the last. */
  lemma AllDataLast(cl: seq<Cluster>)
    requires cl != []
    ensures AllData(cl) == AllData(cl[..|cl| - 1]) + DataIds(cl[|cl| - 1].blocks)
  {
  }

  lemma {:induction false} AllDataChange(cl: seq<Cluster>, c: nat, k: Cluster)
    requires c < |cl|
    ensures AllData(cl[c := k]) + DataIds(cl[c].blocks) == AllData(cl) + DataIds(k.blocks)
    decreases |cl|
  {
    hide AllData, DataIds;
    var n := |cl| - 1;
    AllDataLast(cl);
    AllDataLast(cl[c := k]);
    if c < n {
      AllDataChange(cl[..n], c, k);
      InitChange(cl, c, k);
      CarryAlong(AllData(cl[..n][c := k]), DataIds(cl[c].blocks), AllData(cl[..n]), DataIds(k.blocks),
                 DataIds(cl[n].blocks));
    } else {
      LastChange(cl, k);
      SwapLast(AllData(cl[..n]), DataIds(cl[n].blocks), DataIds(k.blocks));
    }
  }

  lemma InitChange(cl: seq<Cluster>, c: nat, k: Cluster)
    requires c < |cl| - 1
    ensures var n := |cl| - 1;
      |cl[c := k]| == |cl| && cl[c := k][..n] == cl[..n][c := k] && cl[c := k][n] == cl[n] && cl[..n][c] == cl[c]
  {
  }

  lemma LastChange(cl: seq<Cluster>, k: Cluster)
    requires cl != []
    ensures var n := |cl| - 1;
      |cl[n := k]| == |cl| && cl[n := k][..n] == cl[..n] && cl[n := k][n] == k
  {
  }

  lemma CarryAlong(a: multiset<nat>, d: multiset<nat>, b: multiset<nat>, e: multiset<nat>, l: multiset<nat>)
    requires a + d == b + e
    ensures (a + l) + d == (b + l) + e
  {
    assert (a + l) + d == (a + d) + l;
    assert (b + l) + e == (b + e) + l;
  }

  lemma SwapLast(a: multiset<nat>, d: multiset<nat>, e: multiset<nat>)
    ensures (a + e) + d == (a + d) + e
  {
  }

  /** Lists with the same data in every cluster. */
  lemma {:induction false} SameData(cl: seq<Cluster>, cl': seq<Cluster>)
    requires |cl| == |cl'| && forall c :: 0 <= c < |cl| ==> DataIds(cl'[c].blocks) == DataIds(cl[c].blocks)
    ensures AllData(cl') == AllData(cl)
  {
    hide DataIds;
    if cl != [] {
      SameData(cl[..|cl| - 1], cl'[..|cl| - 1]);
    }
  }
}

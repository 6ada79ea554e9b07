/**
 * The staged merging itself: batches of stripes are merged stage by stage,
 * and every stage records its local parity, data relocation and global parity costs.
 */
module SimStages {
  import opened SimClusters
  import opened SimSums
  import opened SimState
  import opened SimRelabel
  import opened SimMove
  import opened SimNames
  import opened SimParity
  import opened SimBatch
  import opened SimProgress

  // ---- Listing the clusters of a batch ----

  /** The clusters in some fixed order. */
  method ListOf(s: set<nat>) returns (order: seq<nat>)
    ensures NoDup(order) && Elems(order) == s
  {
    order := [];
    var rest := s;
    while rest != {}
      invariant rest <= s && NoDup(order) && Elems(order) == s - rest
      decreases rest
    {
      var c :| c in rest;
      rest := rest - {c};
      assert c !in Elems(order) && Elems(order + [c]) == Elems(order) + {c};
      order := order + [c];
    }
  }

  // ---- The cost of recomputing local parities ----

  /** `find_local_parity_block` for a stripe and a group. */
  method FindLocal(k: Cluster, stripe: nat, group: nat) returns (found: bool)
    ensures found <==> CountIn(k.blocks, Local, stripe, group) > 0
  {
    for i := 0 to |k.blocks|
      invariant CountIn(k.blocks[..i], Local, stripe, group) == 0
    {
      assert k.blocks[..i + 1] == k.blocks[..i] + [k.blocks[i]];
      Snoc(k.blocks[..i], k.blocks[i], Local, stripe, group);
      if Is(k.blocks[i], Local, stripe) && k.blocks[i].group == group {
        assert k.blocks == k.blocks[..i + 1] + k.blocks[i + 1..];
        Append(k.blocks[..i + 1], k.blocks[i + 1..], Local, stripe, group);
        return true;
      }
    }
    assert k.blocks[..|k.blocks|] == k.blocks;
    return false;
  }

  /** Local parities of a group are in the group's parity cluster only. */
  lemma LocalsWhere(su: Setup, cl: seq<Cluster>, rows: Rows, c: nat, stripe: nat, group: nat)
    requires World(su, cl, rows) && c < |cl| && CountIn(cl[c].blocks, Local, stripe, group) > 0
    ensures group < su.l && group < |su.lids| && c == su.lids[group]
  {
    hide RowOk, Counted;
    assert ClusterOk(su, rows, c, cl[c]);
    CountedBlock(cl[c].blocks, stripe, group);
  }

  lemma {:induction false} CountedBlock(s: seq<Block>, stripe: nat, group: nat)
    requires CountIn(s, Local, stripe, group) > 0
    ensures exists i :: 0 <= i < |s| && Is(s[i], Local, stripe) && s[i].group == group
  {
    var m := |s| - 1;
    if Is(s[m], Local, stripe) && s[m].group == group {
    } else {
      CountedBlock(s[..m], stripe, group);
      var i :| 0 <= i < m && Is(s[..m][i], Local, stripe) && s[..m][i].group == group;
      assert s[i] == s[..m][i];
    }
  }

  /** The clusters that hold the group's local parity of one of the stripes, and the one of the global parities. */
  method LocalClusters(su: Setup, cl: seq<Cluster>, ghost rows: Rows, order: seq<nat>, lo: nat, hi: nat, group: nat)
      returns (s: set<nat>)
    requires World(su, cl, rows) && group < su.l && lo < hi && (forall x :: 0 <= x < |order| ==> order[x] < |cl|)
    requires lo in rows && |rows[lo].locals| == su.l && rows[lo].locals[group] > 0 && Elems(order) >= rows[lo].place
    ensures group < |su.lids| && s == {su.lids[group], su.gid}
  {
    hide World, CountIn;
    s := {};
    for x := 0 to |order|
      invariant forall c :: c in s ==> group < |su.lids| && c == su.lids[group]
      invariant forall y :: 0 <= y < x && CountIn(cl[order[y]].blocks, Local, lo, group) > 0 ==> order[y] in s
    {
      var found := false;
      var stripe := lo;
      while stripe < hi && !found
        invariant lo <= stripe <= hi
        invariant found ==> group < |su.lids| && order[x] == su.lids[group]
        invariant stripe > lo && !found ==> CountIn(cl[order[x]].blocks, Local, lo, group) == 0
      {
        found := FindLocal(cl[order[x]], stripe, group);
        if found {
          LocalsWhere(su, cl, rows, order[x], stripe, group);
        }
        stripe := stripe + 1;
      }
      if found {
        s := s + {order[x]};
      }
    }
    LocalPresent(su, cl, rows, lo, group);
    var y :| 0 <= y < |order| && order[y] == su.lids[group];
    s := s + {su.gid};
  }

  lemma LocalPresent(su: Setup, cl: seq<Cluster>, rows: Rows, lo: nat, group: nat)
    requires World(su, cl, rows) && group < su.l && lo in rows && |rows[lo].locals| == su.l
    requires rows[lo].locals[group] > 0
    ensures group < |su.lids| && su.lids[group] in rows[lo].place && su.lids[group] < |cl|
    ensures CountIn(cl[su.lids[group]].blocks, Local, lo, group) > 0
  {
    hide ClusterOk, Count, CountIn;
    assert RowOk(su, cl, lo, rows[lo]);
    assert GroupCounts(su, cl, lo, rows[lo], group);
  }

  /** One transfer per group if the local parities are not with the global ones. */
  method LocalCost(su: Setup, cl: seq<Cluster>, ghost rows: Rows, order: seq<nat>, lo: nat, hi: nat) returns (lc: int)
    requires World(su, cl, rows) && lo < hi && (forall x :: 0 <= x < |order| ==> order[x] < |cl|)
    requires lo in rows && |rows[lo].locals| == su.l && (forall i :: 0 <= i < su.l ==> rows[lo].locals[i] > 0)
    requires Elems(order) >= rows[lo].place
    ensures lc == if su.loose > 0 then su.l else 0
  {
    hide World;
    lc := 0;
    for group := 0 to su.l
      invariant lc == if su.loose > 0 then group else 0
    {
      var s := LocalClusters(su, cl, rows, order, lo, hi, group);
      RolesDiffer(su, cl, rows, group);
      lc := lc + |s| - 1;
    }
  }

  lemma RolesDiffer(su: Setup, cl: seq<Cluster>, rows: Rows, i: nat)
    requires World(su, cl, rows) && i < su.l
    ensures i < |su.lids| && (su.lids[i] == su.gid <==> su.loose == 0)
  {
  }

  // ---- The cost of recomputing global parities ----

  method GlobalCost(su: Setup, cl: seq<Cluster>, order: seq<nat>, batches: nat) returns (gc: int)
    requires batches > 0 && NoDup(order) && forall x :: 0 <= x < |order| ==> order[x] < |cl|
    ensures gc == Sum(Elems(order), Contributions(su, cl, batches))
  {
    hide Sum;
    gc := 0;
    NoSum(Contributions(su, cl, batches));
    assert Elems([]) == {};
    for x := 0 to |order|
      invariant gc == Sum(Elems(order[..x]), Contributions(su, cl, batches))
    {
      var k := cl[order[x]];
      assert Elems(order[..x + 1]) == Elems(order[..x]) + {order[x]};
      SumAdd(Elems(order[..x]), Contributions(su, cl, batches), order[x]);
      if k.kind == Local {
        gc := gc + if k.numData <= su.g * batches then k.numData / batches else su.g;
      } else {
        gc := gc + if k.numData <= su.g then k.numData else su.g;
      }
    }
    assert order[..|order|] == order;
  }

  // ---- Working off the parity clusters ----

  /** Whether a shared cluster has more than g data blocks per batch. */
  predicate Overfull(su: Setup, numData: int, batches: nat) {
    numData > su.g * batches
  }

  /** How many of the first i groups have their parity cluster among the given ones. */
  function Visited(su: Setup, done: set<nat>, i: nat): nat
    requires i <= |su.lids|
  {
    if i == 0 then 0 else Visited(su, done, i - 1) + if su.lids[i - 1] in done then 1 else 0
  }

  lemma {:induction false} NoneVisited(su: Setup, i: nat)
    requires i <= |su.lids|
    ensures Visited(su, {}, i) == 0
  {
    if i > 0 {
      NoneVisited(su, i - 1);
    }
  }

  lemma {:induction false} AllVisited(su: Setup, done: set<nat>, i: nat)
    requires i <= |su.lids| && forall j :: 0 <= j < i ==> su.lids[j] in done
    ensures Visited(su, done, i) == i
  {
    if i > 0 {
      AllVisited(su, done, i - 1);
    }
  }

  lemma {:induction false} VisitMore(su: Setup, done: set<nat>, c: nat, i: nat, j: nat)
    requires i <= |su.lids| && j < |su.lids| && su.lids[j] == c && c !in done
    requires forall x, y :: 0 <= x < y < |su.lids| ==> su.lids[x] != su.lids[y]
    ensures Visited(su, done + {c}, i) == Visited(su, done, i) + if j < i then 1 else 0
  {
    if i > 0 {
      VisitMore(su, done, c, i - 1, j);
    }
  }

  lemma {:induction false} VisitOther(su: Setup, done: set<nat>, c: nat, i: nat)
    requires i <= |su.lids| && c !in su.lids
    ensures Visited(su, done + {c}, i) == Visited(su, done, i)
  {
    if i > 0 {
      VisitOther(su, done, c, i - 1);
    }
  }

  /** A cluster of type L is the parity cluster of some group. */
  lemma GroupOfCluster(su: Setup, cl: seq<Cluster>, rows: Rows, c: nat) returns (i: nat)
    requires World(su, cl, rows) && c < |cl| && cl[c].kind == Local
    ensures i < su.l && i < |su.lids| && su.lids[i] == c
  {
    hide RowOk, Counted;
    assert ClusterOk(su, rows, c, cl[c]);
    i :| 0 <= i < |su.lids| && su.lids[i] == c;
  }

  lemma NextElem(order: seq<nat>, x: nat)
    requires x < |order| && NoDup(order)
    ensures Elems(order[..x + 1]) == Elems(order[..x]) + {order[x]} && order[x] !in Elems(order[..x])
  {
    assert order[..x + 1] == order[..x] + [order[x]];
  }

  lemma ProgressFacts(su: Setup, was: seq<Cluster>, cl: seq<Cluster>, rows0: Rows, rows: Rows, order: seq<nat>,
                      added: set<nat>,
                      n: nat, f: Figures, done: set<nat>)
    requires Progress(su, was, cl, rows0, rows, order, added, n, f, done)
    ensures World(su, cl, rows) && NoDup(order) && |su.lids| == su.l && n in rows
    ensures forall x :: 0 <= x < |order| ==> order[x] < |cl|
    ensures forall i: nat :: i < su.l && su.lids[i] !in done ==> cl[su.lids[i]].numData == f.numData
  {
    forall i: nat | i < su.l && su.lids[i] !in done
      ensures cl[su.lids[i]].numData == f.numData
    {
      assert SharedState(su, cl, f, done, i);
    }
    assert forall x :: 0 <= x < |order| ==> order[x] in order;
  }

  /** The groups whose local parities of stripe n are in cluster c. */
  lemma LocalGroups(su: Setup, was: seq<Cluster>, cl: seq<Cluster>, rows0: Rows, rows: Rows, order: seq<nat>,
                    added: set<nat>, n: nat, f: Figures, done: set<nat>, c: nat, i: nat)
    requires Progress(su, was, cl, rows0, rows, order, added, n, f, done) && c < |cl| && c !in done && f.x >= 1
    ensures |su.lids| == su.l
    ensures CountIn(cl[c].blocks, Local, n, i) > 0 <==> i < su.l && su.lids[i] == c
  {
    hide Count, CountIn, ClusterOk, RowSums, RowPlace, GroupState, SharedState, AllData, Elsewhere, Elems;
    assert RowOk(su, cl, n, rows[n]);
    if CountIn(cl[c].blocks, Local, n, i) > 0 {
      LocalsWhere(su, cl, rows, c, n, i);
    }
    if i < su.l && su.lids[i] == c {
      assert Amount(su, rows[n], f, done, i) && GroupCounts(su, cl, n, rows[n], i);
    }
  }

  /** One parity cluster. */
  method WorkOffOne(su: Setup, ghost was: seq<Cluster>, clusters: seq<Cluster>, ghost rows0: Rows, ghost rows1: Rows,
                    order: seq<nat>,
                    added0: set<nat>, n: nat, xi: nat, batches: nat, ghost f: Figures, ghost done: set<nat>, c: nat)
      returns (cl: seq<Cluster>, added: set<nat>, dc: int, ghost rows: Rows)
    requires Progress(su, was, clusters, rows0, rows1, order, added0, n, f, done) && Start(su, was, order, f)
    requires FiguresOk(su, f) && f.x == xi && batches > 0 && c in order && c !in done && c < |clusters|
    requires clusters[c].kind == Local
    requires Moderate(su, f, batches) && LocalsDuring(su, was, clusters, n, done)
    ensures Progress(su, was, cl, rows0, rows, order, added, n, f, done + {c})
    ensures LocalsDuring(su, was, cl, n, done + {c})
    ensures dc == if Overfull(su, f.numData, batches) then (xi - 1) * su.g else 0
  {
    hide Progress, Start, Between, Moving, World, OnlyKind, ParityOk, CountIn, Elems, LocalsDuring, Swapped,
         LocalsNamed,
         KeepsNames;
    ProgressFacts(su, was, clusters, rows0, rows1, order, added0, n, f, done);
    ghost var i := GroupOfCluster(su, clusters, rows1, c);
    var numData := clusters[c].numData;
    ParityOf(su, clusters, rows1, c);
    SetupOf(su, clusters, rows1);
    var k;
    ghost var groups;
    k, groups := ReplaceLocals(su, rows1, c, clusters[c], n);
    forall j: nat
      ensures |su.lids| == su.l && (j in groups <==> j < su.l && su.lids[j] == c)
    {
      LocalGroups(su, was, clusters, rows0, rows1, order, added0, n, f, done, c, j);
    }
    LocalsRenamed(su, was, clusters, n, done, c, k, groups);
    LocalsDone(su, was, clusters, rows0, rows1, order, added0, n, f, done, c, k);
    cl, added := clusters[c := k], added0;
    rows := rows1[n := LocalsReplaced(su, rows1[n], c)];
    if numData > su.g * batches {
      dc := (xi - 1) * su.g;
      MoveBegins(su, was, cl, rows0, rows, order, added, n, f, done, c, i);
      ghost var cl1, rows2 := cl, rows;
      cl, added, rows := MoveLoose(su, cl, rows, order, added, c, n, i, dc);
      LocalsKept(su, was, cl1, cl, n, done + {c});
      MoveEnds(su, was, cl1, cl, rows0, rows2, rows, order, added0, added, n, f, done, c, i);
    } else {
      dc := 0;
      NothingToMove(su, was, cl, rows0, rows, order, added, n, f, done, c);
    }
  }

  lemma SetupOf(su: Setup, cl: seq<Cluster>, rows: Rows)
    requires World(su, cl, rows)
    ensures SetupOk(su)
  {
  }

  /** Relocation takes place exactly when the shared clusters are overfull, and then g loose blocks per group stay. */
  ghost predicate Moderate(su: Setup, f: Figures, batches: nat) {
    if Overfull(su, f.numData, batches) then f.x >= 1 && f.lam == su.g && f.quota == (f.x - 1) * su.g && su.loose > 0
    else f.quota == 0 && f.sum % (su.g + 1) == 0
  }

  /** New local parities and, if too much data is loose, relocation, for every parity cluster. */
  method WorkOff(su: Setup, clusters: seq<Cluster>, ghost rows0: Rows, order: seq<nat>, n: nat, xi: nat, batches: nat,
                 ghost f: Figures)
      returns (cl: seq<Cluster>, added: set<nat>, dc: int, ghost rows: Rows)
    requires Progress(su, clusters, clusters, rows0, rows0, order, {}, n, f, {}) && Start(su, clusters, order, f)
    requires FiguresOk(su, f) && f.x == xi && batches > 0 && Moderate(su, f, batches)
    ensures Progress(su, clusters, cl, rows0, rows, order, added, n, f, Elems(order))
    ensures |su.lids| == su.l && LocalsDuring(su, clusters, cl, n, Elems(order))
    ensures dc == if Overfull(su, f.numData, batches) then Visited(su, Elems(order), su.l) * ((xi - 1) * su.g) else 0
  {
    hide Progress, Start, Visited, Elems, FiguresOk, LocalsDuring;
    cl, added, dc, rows := clusters, {}, 0, rows0;
    NothingRenamed(su, clusters, n);
    ProgressFacts(su, clusters, cl, rows0, rows, order, added, n, f, {});
    NoneVisited(su, su.l);
    assert Elems(order[..0]) == {} by { NoElems(order); }
    for x := 0 to |order|
      invariant Progress(su, clusters, cl, rows0, rows, order, added, n, f, Elems(order[..x]))
      invariant LocalsDuring(su, clusters, cl, n, Elems(order[..x]))
      invariant dc == if Overfull(su, f.numData, batches) then Visited(su, Elems(order[..x]), su.l) * ((xi - 1) * su.g) else 0
    {
      var c := order[x];
      ghost var done := Elems(order[..x]);
      ProgressFacts(su, clusters, cl, rows0, rows, order, added, n, f, done);
      NextElem(order, x);
      VisitStep(su, cl, rows, done, c, (xi - 1) * su.g);
      if cl[c].kind == Local {
        var more;
        cl, added, more, rows := WorkOffOne(su, clusters, cl, rows0, rows, order, added, n, xi, batches, f, done, c);
        dc := dc + more;
      } else {
        PassOver(su, clusters, cl, rows0, rows, order, added, n, f, done, c);
        LocalsPassed(su, clusters, cl, rows, n, done, c);
      }
    }
    assert order[..|order|] == order;
  }

  lemma NoElems(order: seq<nat>)
    ensures Elems(order[..0]) == {}
  {
  }

  /** A visited parity cluster counts once. */
  lemma VisitStep(su: Setup, cl: seq<Cluster>, rows: Rows, done: set<nat>, c: nat, each: int)
    requires World(su, cl, rows) && c < |cl| && c !in done
    ensures |su.lids| == su.l
    ensures su.loose > 0 || cl[c].kind != Local ==>
      Visited(su, done + {c}, su.l) * each == Visited(su, done, su.l) * each + if cl[c].kind == Local then each else 0
  {
    hide RowOk, Counted;
    if cl[c].kind == Local {
      if su.loose > 0 {
        var i := GroupOfCluster(su, cl, rows, c);
        VisitMore(su, done, c, su.l, i);
        OneMoreTime(Visited(su, done, su.l) + 1, each);
      }
    } else {
      assert ClusterOk(su, rows, c, cl[c]);
      VisitOther(su, done, c, su.l);
    }
  }

  // ---- A batch ----

  /** What a batch costs: local parities, data relocation and global parities. */
  datatype Cost = Cost(lc: int, dc: int, gc: int)

  /** Data blocks of one group that go into the new global parities, for a group with `sum` blocks in data clusters. */
  function GroupCost(su: Setup, sum: nat): int {
    (sum / (su.g + 1)) * su.g + sum % (su.g + 1)
  }

  function CostOf(su: Setup, cauchy: bool, f: Figures, batches: nat): Cost
    requires batches > 0
  {
    Cost(if cauchy && su.loose > 0 then su.l else 0,
         su.l * f.quota,
         su.l * (f.x * GroupCost(su, f.sum)) + su.l * SharedCost(su, f.numData, batches))
  }

  /** The clusters of the stripes lo..hi-1 that are about to merge. */
  ghost predicate BatchReady(su: Setup, cl: seq<Cluster>, rows: Rows, lo: nat, hi: nat, n: nat, f: Figures) {
    World(su, cl, rows) && lo < hi && hi - lo == f.x && n <= lo && (n in rows ==> n == lo) &&
    UniformRange(su, rows, lo, hi, f.sum, f.lam) && (forall o :: lo <= o < hi ==> RowTight(su, cl, rows[o])) &&
    |su.lids| == su.l && forall i :: 0 <= i < su.l ==> su.lids[i] < |cl| && cl[su.lids[i]].numData == f.numData
  }

  /** The state after relabelling and with new global parities is the start of the parity loop. */
  lemma BeginBatch(su: Setup, cl0: seq<Cluster>, rows0: Rows, cl: seq<Cluster>, k: Cluster, order: seq<nat>, lo: nat,
                   hi: nat, n: nat,
                   f: Figures, batches: nat) returns (rows: Rows)
    requires BatchReady(su, cl0, rows0, lo, hi, n, f) && batches > 0 && cl == RelabelAll(cl0, lo, hi, n)
    requires NoDup(order) && Elems(order) == UnionPlaces(rows0, lo, hi) && su.gid < |cl|
    requires n in BatchRows(su, rows0, lo, hi, n, f)
    requires ParityOk(su, BatchRows(su, rows0, lo, hi, n, f), su.gid, k)
    requires OnlyKind(cl[su.gid].blocks, k.blocks, n, Global)
    requires Count(k.blocks, Global, n) == su.g
    ensures rows == BatchRows(su, rows0, lo, hi, n, f)[n := BatchRows(su, rows0, lo, hi, n, f)[n].(globals := su.g)]
    ensures Progress(su, cl[su.gid := k], cl[su.gid := k], rows, rows, order, {}, n, f, {})
    ensures Start(su, cl[su.gid := k], order, f)
  {
    hide World, RelabelAll, Sum, DSet, Count, UnionPlaces, OnlyKind, ParityOk, Elems, Rooms, RoomEach, AllData,
         SamePartials, Size, Counted;
    var merged := BatchRows(su, rows0, lo, hi, n, f);
    RelabelWorld(su, cl0, rows0, lo, hi, n, f.sum, f.lam);
    GlobalKind(su, cl, merged);
    GlobalsWorld(su, cl, merged, k, n);
    rows := merged[n := merged[n].(globals := su.g)];
    var was := cl[su.gid := k];
    assert ParityKinds(k) by { ParityKind(su, merged, k); }
    forall i: nat | i < su.l
      ensures SamePartials(su, was, DSet(was, Elems(order), i), f.sum % (su.g + 1))
      ensures Sum(DSet(was, Elems(order), i), Rooms(was, su.g + 1)) == f.x * RoomEach(su, f.sum % (su.g + 1))
      ensures Amount(su, rows[n], f, {}, i) && GroupState(su, was, was, order, {}, {}, i)
      ensures SharedState(su, was, f, {}, i)
    {
      MergedFigures(su, cl0, rows0, lo, hi, n, i, f.sum) by { SumsOfRange(su, rows0, lo, hi, f); }
      FiguresStay(su, cl, k, Elems(order), i, f.sum % (su.g + 1));
      NoDSet(was, i);
      SharedStart(su, cl0, rows0, cl, k, lo, hi, n, f, i, merged);
    }
    OrderInRange(su, was, rows, n, order);
    assert Elems(order) + {} == Elems(order);
  }

  function BatchRows(su: Setup, rows: Rows, lo: nat, hi: nat, n: nat, f: Figures): Rows
    requires lo <= hi && forall o :: lo <= o < hi ==> o in rows
  {
    MergedRows(rows, lo, hi, n, MergedRow(su, rows, lo, hi, f.sum, f.lam))
  }

  predicate ParityKinds(k: Cluster) {
    k.kind != Data
  }

  lemma ParityKind(su: Setup, rows: Rows, k: Cluster)
    requires ParityOk(su, rows, su.gid, k)
    ensures k.kind != Data
  {
  }

  lemma GlobalKind(su: Setup, cl: seq<Cluster>, rows: Rows)
    requires World(su, cl, rows)
    ensures su.gid < |cl| && cl[su.gid].kind != Data
  {
    assert ClusterOk(su, rows, su.gid, cl[su.gid]);
  }

  lemma SumsOfRange(su: Setup, rows: Rows, lo: nat, hi: nat, f: Figures)
    requires UniformRange(su, rows, lo, hi, f.sum, f.lam)
    ensures forall o :: lo <= o < hi ==> o in rows && rows[o].sums == Const(su.l, f.sum)
  {
    hide Const;
    forall o | lo <= o < hi
      ensures o in rows && rows[o].sums == Const(su.l, f.sum)
    {
      assert Uniform(su, rows[o], f.sum, f.lam);
    }
  }

  /** New global parities do not matter for data clusters. */
  lemma FiguresStay(su: Setup, cl: seq<Cluster>, k: Cluster, place: set<nat>, i: nat, p: nat)
    requires su.gid < |cl| && cl[su.gid].kind != Data && k.kind != Data
    ensures DSet(cl[su.gid := k], place, i) == DSet(cl, place, i)
    ensures Sum(DSet(cl, place, i), Rooms(cl[su.gid := k], su.g + 1)) == Sum(DSet(cl, place, i), Rooms(cl, su.g + 1))
    ensures SamePartials(su, cl, DSet(cl, place, i), p) ==> SamePartials(su, cl[su.gid := k], DSet(cl, place, i), p)
  {
    hide Sum, Size;
    SameData2(cl, su.gid, k, place, i);
    SameRooms(cl, cl[su.gid := k], DSet(cl, place, i), su.g + 1);
  }

  lemma SharedStart(su: Setup, cl0: seq<Cluster>, rows0: Rows, cl: seq<Cluster>, k: Cluster, lo: nat, hi: nat, n: nat,
                    f: Figures,
                    i: nat, rows: Rows)
    requires BatchReady(su, cl0, rows0, lo, hi, n, f) && cl == RelabelAll(cl0, lo, hi, n) && World(su, cl, rows)
    requires i < su.l
    requires ParityOk(su, rows, su.gid, k) && OnlyKind(cl[su.gid].blocks, k.blocks, n, Global)
    ensures SharedState(su, cl[su.gid := k], f, {}, i)
  {
    hide World, RowTight, UniformRange, OnlyKind, RelabelSeq;
    NumDataGlobal(su, rows, cl, k, n);
  }

  lemma NumDataGlobal(su: Setup, rows: Rows, cl: seq<Cluster>, k: Cluster, n: nat)
    requires World(su, cl, rows) && ParityOk(su, rows, su.gid, k) && OnlyKind(cl[su.gid].blocks, k.blocks, n, Global)
    ensures su.gid < |cl| && k.numData == cl[su.gid].numData
  {
    hide RowOk;
    assert ClusterOk(su, rows, su.gid, cl[su.gid]);
  }

  lemma OrderInRange(su: Setup, cl: seq<Cluster>, rows: Rows, n: nat, order: seq<nat>)
    requires World(su, cl, rows) && n in rows && rows[n].place == Elems(order)
    ensures forall c :: c in order ==> c < |cl|
  {
    hide ClusterOk, RowCounts, RowSums;
    assert RowOk(su, cl, n, rows[n]);
    forall c | c in order
      ensures c < |cl|
    {
      assert c in rows[n].place;
    }
  }

  /**
   * The merged stripe is uniform and fills its clusters tightly; its share of the loose data has left the
   * shared clusters.
   */
  ghost predicate RowDone(su: Setup, cl: seq<Cluster>, row: Row, f: Figures) {
    f.quota <= f.x * f.lam && Uniform(su, row, f.x * f.sum + f.quota, f.x * f.lam - f.quota) && RowTight(su, cl, row) &&
    |su.lids| == su.l && forall i :: 0 <= i < su.l ==> su.lids[i] < |cl| && cl[su.lids[i]].numData == f.numData - f.quota
  }

  /** When all parity clusters are worked off, the merged stripe is uniform and tight again. */
  lemma EndBatch(su: Setup, was: seq<Cluster>, cl: seq<Cluster>, rows1: Rows, rows: Rows, order: seq<nat>,
                 added: set<nat>, n: nat, f: Figures)
    requires Progress(su, was, cl, rows1, rows, order, added, n, f, Elems(order))
    requires (forall i :: 0 <= i < |su.lids| ==> su.lids[i] in order)
    requires FiguresOk(su, f)
    ensures n in rows && RowDone(su, cl, rows[n], f)
  {
    hide World, DSet, Tight, AllData, Elsewhere;
    var row := rows[n];
    forall i: nat | i < su.l
      ensures |su.lids| == su.l && su.lids[i] < |cl| && cl[su.lids[i]].numData == f.numData - f.quota
      ensures RowLengths(su, row) && row.sums[i] == f.x * f.sum + f.quota && row.lam[i] == f.x * f.lam - f.quota
      ensures row.locals[i] == 1
      ensures Tight(cl, DSet(cl, row.place, i), su.g + 1)
    {
      assert Amount(su, row, f, Elems(order), i) && GroupState(su, was, cl, order, added, Elems(order), i);
      assert SharedState(su, cl, f, Elems(order), i);
    }
    SetupPositive(su, cl, rows);
    assert Amount(su, row, f, Elems(order), 0);
    assert row.sums == Const(su.l, f.x * f.sum + f.quota);
    assert row.lam == Const(su.l, f.x * f.lam - f.quota);
    assert row.locals == Const(su.l, 1);
  }

  lemma SetupPositive(su: Setup, cl: seq<Cluster>, rows: Rows)
    requires World(su, cl, rows)
    ensures su.l > 0 && |su.lids| == su.l
  {
  }

  /** Other stripes' data clusters are not concerned. */
  lemma OtherTight(su: Setup, cl0: seq<Cluster>, rows0: Rows, was: seq<Cluster>, cl: seq<Cluster>, order: seq<nat>,
                   added: set<nat>,
                   lo: nat, hi: nat, n: nat, k: Cluster, rows: Rows, o: nat)
    requires World(su, cl, rows) && World(su, cl0, rows0) && lo < hi && (forall x :: lo <= x < hi ==> x in rows0)
    requires Elems(order) == UnionPlaces(rows0, lo, hi) && su.gid < |cl0| && k.kind != Data && cl0[su.gid].kind != Data
    requires was == RelabelAll(cl0, lo, hi, n)[su.gid := k] && Elsewhere(was, cl, order, added)
    requires o in rows0 && !(lo <= o < hi) && RowTight(su, cl0, rows0[o])
    ensures RowTight(su, cl, rows0[o])
  {
    hide RowCounts, RowSums, ClusterOk, Tight, UnionPlaces, RelabelCluster;
    var place := rows0[o].place;
    assert RowOk(su, cl0, o, rows0[o]);
    forall c | c in place && c < |cl0| && cl0[c].kind == Data
      ensures c < |cl| && cl[c] == cl0[c]
    {
      forall x | lo <= x < hi
        ensures c !in rows0[x].place
      {
        if c in rows0[x].place {
          OwnedOnce(su, cl0, rows0, o, x, c);
        }
      }
      InUnion(rows0, lo, hi, c);
      assert c !in Elems(order);
      OnlySpanned(su, cl0, rows0, lo, hi, n, c);
      assert was[c] == cl0[c];
    }
    forall i: nat | i < su.l
      ensures Tight(cl, DSet(cl, place, i), su.g + 1)
    {
      SameKinds(su, cl0, cl, rows0, rows);
      StillTight(su, cl0, cl, rows0, o, i);
    }
  }

  /** A data cluster belongs to one stripe. */
  lemma OwnedOnce(su: Setup, cl: seq<Cluster>, rows: Rows, o: nat, x: nat, c: nat)
    requires World(su, cl, rows) && o in rows && x in rows && c in rows[o].place && c in rows[x].place
    requires c < |cl| && cl[c].kind == Data
    ensures o == x
  {
    hide ClusterOk, RowCounts, RowSums;
    assert RowOk(su, cl, o, rows[o]) && RowOk(su, cl, x, rows[x]);
  }

  /** The type of a cluster depends on its role only. */
  lemma SameKinds(su: Setup, cl0: seq<Cluster>, cl: seq<Cluster>, rows0: Rows, rows: Rows)
    requires World(su, cl0, rows0) && World(su, cl, rows)
    ensures forall c :: 0 <= c < |cl0| && c < |cl| ==> cl[c].kind == cl0[c].kind
  {
    forall c | 0 <= c < |cl0| && c < |cl|
      ensures cl[c].kind == cl0[c].kind
    {
      assert ClusterOk(su, rows0, c, cl0[c]) && ClusterOk(su, rows, c, cl[c]);
    }
  }

  lemma StillTight(su: Setup, cl0: seq<Cluster>, cl: seq<Cluster>, rows0: Rows, o: nat, i: nat)
    requires World(su, cl0, rows0) && o in rows0 && i < su.l && RowTight(su, cl0, rows0[o]) && |cl| >= |cl0|
    requires forall c :: c in rows0[o].place && c < |cl0| && cl0[c].kind == Data ==> c < |cl| && cl[c] == cl0[c]
    requires forall c :: c in rows0[o].place && c < |cl0| && cl0[c].kind != Data ==> c < |cl| && cl[c].kind != Data
    ensures Tight(cl, DSet(cl, rows0[o].place, i), su.g + 1)
  {
    hide RowCounts, RowSums, ClusterOk;
    var place := rows0[o].place;
    assert RowOk(su, cl0, o, rows0[o]);
    assert DSet(cl, place, i) == DSet(cl0, place, i);
    assert Tight(cl0, DSet(cl0, place, i), su.g + 1);
  }

  // ---- Steps of a batch ----

  lemma CountedCluster(su: Setup, cl: seq<Cluster>, rows: Rows, c: nat)
    requires World(su, cl, rows) && c < |cl|
    ensures cl[c].numBlocks == |cl[c].blocks|
  {
    assert ClusterOk(su, rows, c, cl[c]);
  }

  lemma UnionNext(rows: Rows, lo: nat, j: nat)
    requires lo <= j && forall o :: lo <= o <= j ==> o in rows
    ensures UnionPlaces(rows, lo, j + 1) == UnionPlaces(rows, lo, j) + rows[j].place && UnionPlaces(rows, lo, lo) == {}
  {
  }

  /** The batch spans existing clusters, the parity clusters among them. */
  lemma SpanInRange(su: Setup, cl: seq<Cluster>, rows: Rows, lo: nat, hi: nat, order: seq<nat>)
    requires World(su, cl, rows) && lo < hi && (forall o :: lo <= o < hi ==> o in rows) && Elems(order) == UnionPlaces(rows, lo, hi)
    ensures forall x :: 0 <= x < |order| ==> order[x] < |cl|
    ensures |su.lids| == su.l && forall i :: 0 <= i < |su.lids| ==> su.lids[i] in order
    ensures rows[lo].place <= Elems(order)
  {
    hide ClusterOk, RowCounts, RowSums, UnionPlaces;
    forall x | 0 <= x < |order|
      ensures order[x] < |cl|
    {
      assert order[x] in Elems(order);
      InUnion(rows, lo, hi, order[x]);
      var o :| lo <= o < hi && order[x] in rows[o].place;
      assert RowOk(su, cl, o, rows[o]);
    }
    RangePlaces(rows, lo, hi);
    assert RowOk(su, cl, lo, rows[lo]);
    forall i | 0 <= i < |su.lids|
      ensures su.lids[i] in order
    {
      assert su.lids[i] in Elems(order);
    }
  }

  lemma RangeThere(su: Setup, rows: Rows, lo: nat, hi: nat, f: Figures)
    requires UniformRange(su, rows, lo, hi, f.sum, f.lam)
    ensures forall o :: lo <= o < hi ==> o in rows
  {
  }

  lemma FirstLocals(su: Setup, rows: Rows, lo: nat, hi: nat, f: Figures)
    requires lo < hi && UniformRange(su, rows, lo, hi, f.sum, f.lam)
    ensures lo in rows && |rows[lo].locals| == su.l && forall i :: 0 <= i < su.l ==> rows[lo].locals[i] > 0
  {
    assert Uniform(su, rows[lo], f.sum, f.lam);
  }

  /** What the new global parities of the batch cost. */
  lemma BatchCostIs(su: Setup, cl0: seq<Cluster>, rows0: Rows, lo: nat, hi: nat, n: nat, f: Figures, batches: nat,
                    order: seq<nat>)
    requires BatchReady(su, cl0, rows0, lo, hi, n, f) && batches > 0 && Elems(order) == UnionPlaces(rows0, lo, hi)
    requires World(su, RelabelAll(cl0, lo, hi, n), BatchRows(su, rows0, lo, hi, n, f))
    ensures Sum(Elems(order), Contributions(su, RelabelAll(cl0, lo, hi, n), batches)) == CostOf(su, false, f, batches).gc
  {
    hide World, Sum, DSet, RelabelSeq, UnionPlaces, Elems, Contributions, Costs, RowTight, UniformRange;
    RangeThere(su, rows0, lo, hi, f);
    var cl, rows := RelabelAll(cl0, lo, hi, n), BatchRows(su, rows0, lo, hi, n, f);
    SumsOfRange(su, rows0, lo, hi, f);
    forall i: nat | i < su.l
      ensures Sum(DSet(cl, rows[n].place, i), Costs(cl, su.g)) == f.x * GroupCost(su, f.sum)
    {
      MergedFigures(su, cl0, rows0, lo, hi, n, i, f.sum);
    }
    BatchCost(su, cl, rows, n, batches, f.x * GroupCost(su, f.sum), f.numData);
  }

  lemma RowsAgree(rows0: Rows, rows: Rows, lo: nat, hi: nat, n: nat, merged: Row, started: Row)
    requires n in rows && rows == MergedRows(rows0, lo, hi, n, merged)[n := started][n := rows[n]]
    ensures rows == MergedRows(rows0, lo, hi, n, rows[n])
  {
  }

  lemma RelabelledData(cl: seq<Cluster>, lo: nat, hi: nat, n: nat)
    ensures AllData(RelabelAll(cl, lo, hi, n)) == AllData(cl)
  {
    hide DataIds, AllData, RelabelSeq;
    forall c | 0 <= c < |cl|
      ensures DataIds(RelabelAll(cl, lo, hi, n)[c].blocks) == DataIds(cl[c].blocks)
    {
      RelabelData(cl[c].blocks, lo, hi, n);
    }
    SameData(cl, RelabelAll(cl, lo, hi, n));
  }

  /** What the loop over the parity clusters leaves of the rest. */
  lemma ProgressEnds(su: Setup, was: seq<Cluster>, cl: seq<Cluster>, rows0: Rows, rows: Rows, order: seq<nat>,
                     added: set<nat>,
                     n: nat, f: Figures, done: set<nat>)
    requires Progress(su, was, cl, rows0, rows, order, added, n, f, done)
    ensures World(su, cl, rows) && n in rows && rows == rows0[n := rows[n]] && rows[n].place == Elems(order) + added
    ensures Elsewhere(was, cl, order, added) && AllData(cl) == AllData(was)
  {
  }

  lemma LidsListed(su: Setup, order: seq<nat>)
    requires forall i :: 0 <= i < |su.lids| ==> su.lids[i] in order
    ensures forall i :: 0 <= i < |su.lids| ==> su.lids[i] in Elems(order)
  {
  }

  lemma LoopCost(su: Setup, f: Figures, batches: nat, order: seq<nat>, xi: nat, dc: int)
    requires |su.lids| == su.l && (forall i :: 0 <= i < |su.lids| ==> su.lids[i] in order)
    requires f.x == xi && batches > 0 && Moderate(su, f, batches)
    requires dc == if Overfull(su, f.numData, batches) then Visited(su, Elems(order), su.l) * ((xi - 1) * su.g) else 0
    ensures dc == su.l * f.quota
  {
    AllVisited(su, Elems(order), su.l);
  }

  /** Stripes lo..hi-1 have become stripe n. */
  ghost predicate BatchDone(su: Setup, cl: seq<Cluster>, rows0: Rows, rows: Rows, lo: nat, hi: nat, n: nat, f: Figures,
                            place: set<nat>) {
    World(su, cl, rows) && n in rows && rows == MergedRows(rows0, lo, hi, n, rows[n]) && place == rows[n].place &&
    RowDone(su, cl, rows[n], f)
  }

  /** The other stripes fill their clusters as tightly as before. */
  ghost predicate OthersTight(su: Setup, cl: seq<Cluster>, cl': seq<Cluster>, rows: Rows, lo: nat, hi: nat) {
    forall o :: o in rows && !(lo <= o < hi) && RowTight(su, cl, rows[o]) ==> RowTight(su, cl', rows[o])
  }

  // ---- The simulation ----

  class Merging {
    const su: Setup
    /** Whether local parities are recomputed with the help of the global ones. */
    const cauchy: bool
    var clusters: seq<Cluster>
    /** The clusters that each stripe spans. */
    var places: seq<set<nat>>

    constructor (su: Setup, cauchy: bool, clusters: seq<Cluster>, places: seq<set<nat>>)
      ensures this.su == su && this.cauchy == cauchy && this.clusters == clusters && this.places == places
    {
      this.su, this.cauchy, this.clusters, this.places := su, cauchy, clusters, places;
    }

    /** Relabels all blocks of the batch in the clusters it spans. */
    method RelabelClusters(ghost rows: Rows, order: seq<nat>, lo: nat, hi: nat, n: nat)
      requires World(su, clusters, rows) && lo < hi && (forall o :: lo <= o < hi ==> o in rows)
      requires NoDup(order) && Elems(order) == UnionPlaces(rows, lo, hi) && forall x :: 0 <= x < |order| ==>
        order[x] < |clusters|
      modifies this`clusters
      ensures clusters == RelabelAll(old(clusters), lo, hi, n)
    {
      hide World, UnionPlaces, RelabelCluster;
      for x := 0 to |order|
        invariant |clusters| == |old(clusters)|
        invariant forall c :: 0 <= c < |clusters| ==>
          clusters[c] == if c in order[..x] then RelabelCluster(old(clusters)[c], lo, hi, n) else old(clusters)[c]
      {
        assert order[x] !in order[..x] && order[..x + 1] == order[..x] + [order[x]];
        CountedCluster(su, old(clusters), rows, order[x]);
        var k := MergeToLarger(clusters[order[x]], lo, hi, n);
        clusters := clusters[order[x] := k];
      }
      assert order[..|order|] == order;
      forall c: nat | c < |clusters|
        ensures clusters[c] == RelabelCluster(old(clusters)[c], lo, hi, n)
      {
        if c !in order {
          OnlySpanned(su, old(clusters), rows, lo, hi, n, c);
        }
      }
    }

    /** One batch: xi neighbouring stripes become stripe n. */
    method MergeBatch(ghost rows0: Rows, lo: nat, hi: nat, n: nat, batches: nat, ghost f: Figures)
        returns (cost: Cost, place: set<nat>, ghost rows: Rows)
      requires BatchReady(su, clusters, rows0, lo, hi, n, f) && batches > 0 && FiguresOk(su, f)
      requires Moderate(su, f, batches)
      requires hi <= |places| && forall o :: lo <= o < hi ==> places[o] == rows0[o].place
      modifies this`clusters
      ensures BatchDone(su, clusters, rows0, rows, lo, hi, n, f, place)
      ensures OthersTight(su, old(clusters), clusters, rows0, lo, hi)
      ensures AllData(clusters) == AllData(old(clusters))
      ensures cost == CostOf(su, cauchy, f, batches)
      ensures BatchNamed(su, old(clusters), clusters, lo, hi, n)
    {
      hide World, RelabelAll, Sum, DSet, Count, UnionPlaces, OnlyKind, ParityOk, Elems, AllData, RowTight, Progress,
           Start, Uniform,
           FiguresOk, Contributions, Visited, Elsewhere, Moderate, Overfull, UniformRange, MergedRow, GroupCost,
           SharedCost, RowDone, Swapped, GlobalsNamed, LocalsDuring, BatchNamed;
      ghost var cl0 := clusters;
      RangeThere(su, rows0, lo, hi, f);
      var span := Spanned(rows0, lo, hi);
      var order := ListOf(span);
      SpanInRange(su, cl0, rows0, lo, hi, order);
      var lc := 0;
      if cauchy {
        FirstLocals(su, rows0, lo, hi, f);
        lc := LocalCost(su, clusters, rows0, order, lo, hi);
      }
      RelabelClusters(rows0, order, lo, hi, n);
      ghost var merged := BatchRows(su, rows0, lo, hi, n, f);
      ghost var cl := clusters;
      RelabelWorld(su, cl0, rows0, lo, hi, n, f.sum, f.lam);
      BatchCostIs(su, cl0, rows0, lo, hi, n, f, batches, order);
      var gc := GlobalCost(su, clusters, order, batches);
      GlobalKind(su, clusters, merged);
      ParityOf(su, clusters, merged, su.gid);
      var k := ReplaceGlobals(su, merged, su.gid, clusters[su.gid], n);
      ghost var rows1 := BeginBatch(su, cl0, rows0, cl, k, order, lo, hi, n, f, batches);
      GlobalsWorld(su, cl, merged, k, n);
      clusters := clusters[su.gid := k];
      ghost var was := clusters;
      var added, dc;
      clusters, added, dc, rows := WorkOff(su, clusters, rows1, order, n, hi - lo, batches, f);
      ProgressEnds(su, was, clusters, rows1, rows, order, added, n, f, Elems(order));
      EndBatch(su, was, clusters, rows1, rows, order, added, n, f);
      RowsAgree(rows0, rows, lo, hi, n, MergedRow(su, rows0, lo, hi, f.sum, f.lam), rows1[n]);
      LoopCost(su, f, batches, order, hi - lo, dc);
      LidsListed(su, order);
      BatchIsNamed(su, cl0, rows0, cl, k, was, clusters, rows, lo, hi, n, Elems(order));
      place := span + added;
      cost := Cost(lc, dc, gc);
      forall o | o in rows0 && !(lo <= o < hi) && RowTight(su, cl0, rows0[o])
        ensures RowTight(su, clusters, rows0[o])
      {
        ParityKind(su, merged, k);
        GlobalKind(su, cl0, rows0);
        OtherTight(su, cl0, rows0, was, clusters, order, added, lo, hi, n, k, rows, o);
      }
      RelabelledData(cl0, lo, hi, n);
    }

    /** All clusters that the stripes of the batch span. */
    method Spanned(ghost rows: Rows, lo: nat, hi: nat) returns (span: set<nat>)
      requires lo <= hi <= |places| && forall o :: lo <= o < hi ==> o in rows && places[o] == rows[o].place
      ensures span == UnionPlaces(rows, lo, hi)
    {
      hide UnionPlaces;
      span := {};
      assert UnionPlaces(rows, lo, lo) == {} by { NoUnion(rows, lo); }
      for j := lo to hi
        invariant span == UnionPlaces(rows, lo, j)
      {
        UnionNext(rows, lo, j);
        span := span + places[j];
      }
    }
  }

  lemma NoUnion(rows: Rows, lo: nat)
    ensures UnionPlaces(rows, lo, lo) == {}
  {
  }
}

/**
 * The initial placement of the simulation: full data clusters for every group
 * of every stripe, the remainders with the local parities, and the global parities.
 */
module SimPlacement {
  import opened SimClusters
  import opened SimSums
  import opened SimState
  import opened SimRelabel
  import opened SimMove
  import opened SimNames
  import opened SimBatch
  import opened SimStages
  import opened SimRun
  import opened SimIds

  // ---- Full data clusters ----

  /** A list of data blocks of one group of one stripe, with consecutive numbers from `first`. */
  ghost predicate DataRun(s: seq<Block>, l: nat, b: nat, j: nat, i: nat, first: nat, c: nat) {
    forall t :: 0 <= t < |s| ==> s[t] == Block(Data, DataId(l, b, j, i, first + t), i, j, c)
  }

  /** g+1 data blocks of group i of stripe j. */
  method FullCluster(l: nat, b: nat, j: nat, i: nat, first: nat, size: nat, c: nat) returns (k: Cluster)
    ensures k.kind == Data && Counted(c, k) && |k.blocks| == size && DataRun(k.blocks, l, b, j, i, first, c)
  {
    k := NewCluster();
    for t := 0 to size
      invariant k.kind == Data && Counted(c, k) && |k.blocks| == t && DataRun(k.blocks, l, b, j, i, first, c)
    {
      var block := Block(Data, DataId(l, b, j, i, first + t), i, j, c);
      AddedCounted(c, k, block);
      k := AddNewBlock(k, block);
    }
  }

  /** Cluster c is a full data cluster of group i of stripe j. */
  ghost predicate FullOf(su: Setup, cl: seq<Cluster>, c: nat, j: nat, i: nat) {
    c < |cl| && cl[c].kind == Data && Counted(c, cl[c]) && |cl[c].blocks| == su.g + 1 &&
    forall t :: 0 <= t < |cl[c].blocks| ==> Is(cl[c].blocks[t], Data, j) && cl[c].blocks[t].group == i
  }

  /** The clusters of group i of stripe j: so many, and all full. */
  ghost predicate Filled2(su: Setup, cl: seq<Cluster>, places: seq<set<nat>>, j: nat, i: nat, count: nat) {
    j < |places| && |DSet(cl, places[j], i)| == count && forall c :: c in DSet(cl, places[j], i) ==> FullOf(su, cl, c, j, i)
  }

  /** All clusters so far are full data clusters of some group of some stripe that knows them. */
  ghost predicate AllFull(su: Setup, cl: seq<Cluster>, places: seq<set<nat>>) {
    (forall c :: 0 <= c < |cl| ==> FullSomewhere(su, cl, places, c)) &&
    forall j :: 0 <= j < |places| ==> OwnPlaces(cl, places[j], j)
  }

  ghost predicate OwnPlaces(cl: seq<Cluster>, place: set<nat>, j: nat) {
    forall c :: c in place ==> c < |cl| && cl[c].blocks != [] && cl[c].blocks[0].stripe == j
  }

  ghost predicate FullSomewhere(su: Setup, cl: seq<Cluster>, places: seq<set<nat>>, c: nat)
    requires c < |cl|
  {
    cl[c].blocks != [] && cl[c].blocks[0].stripe < |places| && cl[c].blocks[0].group < su.l &&
    c in places[cl[c].blocks[0].stripe] && FullOf(su, cl, c, cl[c].blocks[0].stripe, cl[c].blocks[0].group)
  }

  /** How many full clusters a group has: all groups before i, and of group i the stripes before j, are done. */
  function CountAt(full: nat, i0: nat, j0: nat, partial: nat, i: nat, j: nat): nat {
    if i < i0 || (i == i0 && j < j0) then full else if i == i0 && j == j0 then partial else 0
  }

  ghost predicate Placing(su: Setup, cl: seq<Cluster>, places: seq<set<nat>>, x: nat, full: nat, i0: nat, j0: nat,
                          partial: nat) {
    |places| == x && AllFull(su, cl, places) &&
    forall i: nat, j: nat :: i < su.l && j < x ==> GroupPlaced(su, cl, places, full, i0, j0, partial, i, j)
  }

  ghost predicate GroupPlaced(su: Setup, cl: seq<Cluster>, places: seq<set<nat>>, full: nat, i0: nat, j0: nat,
                              partial: nat, i: nat, j: nat) {
    Filled2(su, cl, places, j, i, CountAt(full, i0, j0, partial, i, j))
  }

  /** One more full cluster for group i of stripe j. */
  lemma PlaceOne(su: Setup, cl: seq<Cluster>, places: seq<set<nat>>, x: nat, full: nat, i0: nat, j0: nat, partial: nat,
                 k: Cluster, first: nat, b: nat)
    requires Placing(su, cl, places, x, full, i0, j0, partial) && i0 < su.l && j0 < x
    requires k.kind == Data && Counted(|cl|, k) && |k.blocks| == su.g + 1
    requires DataRun(k.blocks, su.l, b, j0, i0, first, |cl|)
    ensures Placing(su, cl + [k], places[j0 := places[j0] + {|cl|}], x, full, i0, j0, partial + 1)
  {
    hide Counted, DataId, Filled2, FullOf, DSet;
    var cl', places' := cl + [k], places[j0 := places[j0] + {|cl|}];
    NewIsFull(su, cl, k, j0, i0, first, b);
    forall c | 0 <= c < |cl'|
      ensures FullSomewhere(su, cl', places', c)
    {
      if c < |cl| {
        StillFull(su, cl, places, k, j0, c);
      }
    }
    forall j | 0 <= j < |places'|
      ensures OwnPlaces(cl', places'[j], j)
    {
      assert OwnPlaces(cl, places[j], j);
    }
    var next := partial + 1;
    forall i: nat, j: nat | i < su.l && j < x
      ensures GroupPlaced(su, cl', places', full, i0, j0, next, i, j)
    {
      assert GroupPlaced(su, cl, places, full, i0, j0, partial, i, j);
      GroupGrows(su, cl, places, k, i0, j0, i, j, CountAt(full, i0, j0, partial, i, j));
    }
  }

  lemma NewIsFull(su: Setup, cl: seq<Cluster>, k: Cluster, j: nat, i: nat, first: nat, b: nat)
    requires k.kind == Data && Counted(|cl|, k) && |k.blocks| == su.g + 1
    requires DataRun(k.blocks, su.l, b, j, i, first, |cl|)
    ensures FullOf(su, cl + [k], |cl|, j, i) && k.blocks[0].stripe == j && k.blocks[0].group == i
  {
    hide Counted, DataId;
  }

  lemma StillFull(su: Setup, cl: seq<Cluster>, places: seq<set<nat>>, k: Cluster, j0: nat, c: nat)
    requires c < |cl| && FullSomewhere(su, cl, places, c) && j0 < |places|
    ensures FullSomewhere(su, cl + [k], places[j0 := places[j0] + {|cl|}], c)
  {
    hide Counted;
  }

  lemma GroupGrows(su: Setup, cl: seq<Cluster>, places: seq<set<nat>>, k: Cluster, i0: nat, j0: nat, i: nat, j: nat,
                   count: nat)
    requires AllFull(su, cl, places) && j0 < |places| && k.kind == Data && k.blocks != [] && k.blocks[0].group == i0
    requires Filled2(su, cl, places, j, i, count) && FullOf(su, cl + [k], |cl|, j0, i0)
    ensures Filled2(su, cl + [k], places[j0 := places[j0] + {|cl|}], j, i, count + if i == i0 && j == j0 then 1 else 0)
  {
    hide Counted, DSet, AllFull;
    var cl', places' := cl + [k], places[j0 := places[j0] + {|cl|}];
    PlacedSet(su, cl, places, k, i0, j0, i, j);
    forall c | c in DSet(cl', places'[j], i)
      ensures FullOf(su, cl', c, j, i)
    {
      if c != |cl| {
        assert FullOf(su, cl, c, j, i);
      }
    }
  }

  lemma PlacedSet(su: Setup, cl: seq<Cluster>, places: seq<set<nat>>, k: Cluster, i0: nat, j0: nat, i: nat, j: nat)
    requires AllFull(su, cl, places) && j < |places| && j0 < |places| && k.kind == Data && k.blocks != []
    requires k.blocks[0].group == i0
    ensures DSet(cl + [k], places[j0 := places[j0] + {|cl|}][j], i)
         == DSet(cl, places[j], i) + if i == i0 && j == j0 then {|cl|} else {}
    ensures |cl| !in DSet(cl, places[j], i)
  {
    hide FullSomewhere;
    var cl', places' := cl + [k], places[j0 := places[j0] + {|cl|}];
    forall c: nat
      ensures c in DSet(cl', places'[j], i) <==> c in DSet(cl, places[j], i) || (i == i0 && j == j0 && c == |cl|)
      ensures c in DSet(cl, places[j], i) ==> c < |cl|
    {
      assert OwnPlaces(cl, places[j], j);
    }
  }

  /** Moving on to the next stripe, or the next group, once all full clusters are there. */
  lemma NextGroup(su: Setup, cl: seq<Cluster>, places: seq<set<nat>>, x: nat, full: nat, i0: nat, j0: nat)
    requires Placing(su, cl, places, x, full, i0, j0, full)
    ensures Placing(su, cl, places, x, full, i0, j0 + 1, 0)
  {
    hide AllFull, Filled2;
    var j1 := j0 + 1;
    forall i: nat, j: nat | i < su.l && j < x
      ensures GroupPlaced(su, cl, places, full, i0, j1, 0, i, j)
    {
      assert GroupPlaced(su, cl, places, full, i0, j0, full, i, j);
    }
  }

  lemma NextRow(su: Setup, cl: seq<Cluster>, places: seq<set<nat>>, x: nat, full: nat, i0: nat)
    requires Placing(su, cl, places, x, full, i0, x, 0)
    ensures Placing(su, cl, places, x, full, i0 + 1, 0, 0)
  {
    hide AllFull, Filled2;
    var i1 := i0 + 1;
    forall i: nat, j: nat | i < su.l && j < x
      ensures GroupPlaced(su, cl, places, full, i1, 0, 0, i, j)
    {
      assert GroupPlaced(su, cl, places, full, i0, x, 0, i, j);
    }
  }

  lemma NothingPlaced(su: Setup, x: nat, full: nat)
    ensures Placing(su, [], seq(x, _ => {}), x, full, 0, 0, 0)
  {
    hide FullOf;
    var places := seq(x, _ => {});
    forall i: nat, j: nat | i < su.l && j < x
      ensures GroupPlaced(su, [], places, full, 0, 0, 0, i, j)
    {
      assert DSet([], places[j], i) == {};
    }
  }

  /** The blocks of full clusters and the remainder. */
  lemma Remainder(b: nat, size: nat, first: nat, n: nat)
    requires size > 0 && first == n * size && first <= b
    ensures first + size > b ==> n == b / size && b - first == b % size
    ensures first + size <= b ==> n < b / size && first + size == (n + 1) * size
  {
    OneMoreTime(n + 1, size);
    if first + size > b {
      Split(n, size, b - first, b);
    } else {
      var q := b / size;
      assert b == q * size + b % size;
      TimesGrow(q, n, size);
    }
  }

  lemma TimesGrow(x: nat, y: nat, size: nat)
    ensures x <= y ==> x * size <= y * size
  {
  }

  /** The blocks of a run are named after their group and stripe. */
  lemma RunProper(s: seq<Block>, l: nat, b: nat, j: nat, i: nat, first: nat, c: nat)
    requires DataRun(s, l, b, j, i, first, c) && i < l && first + |s| <= b
    ensures AllProper(s, l, b) && forall p: Block :: p.kind != Data ==> Copies(s, p) == 0
  {
    hide DataId;
    forall t | 0 <= t < |s|
      ensures ProperData(l, b, s[t])
    {
      IdIsProper(l, b, j, i, first + t, c);
    }
    forall p: Block | p.kind != Data
      ensures Copies(s, p) == 0
    {
      CopiesIn(s, p);
    }
  }

  lemma IdIsProper(l: nat, b: nat, j: nat, i: nat, t: nat, c: nat)
    requires i < l && t < b
    ensures ProperData(l, b, Block(Data, DataId(l, b, j, i, t), i, j, c))
  {
    IdParts(l, b, j, i, DataId(l, b, j, i, t));
  }

  lemma OnlyDataMore(cl: seq<Cluster>, k: Cluster)
    requires OnlyData(cl) && forall p: Block :: p.kind != Data ==> Copies(k.blocks, p) == 0
    ensures OnlyData(cl + [k])
  {
    hide Copies;
    forall c: nat, b: Block | b.kind != Data
      ensures Held(cl + [k], c, b) == 0
    {
      assert Held(cl, c, b) == 0;
    }
  }

  /** The full clusters of one group of one stripe; `rest` is where the remainder begins. */
  method PlaceGroup(ghost su: Setup, clusters: seq<Cluster>, places: seq<set<nat>>, g: nat, l: nat, b: nat, x: nat,
                    i: nat, j: nat)
      returns (cl: seq<Cluster>, spanned: seq<set<nat>>, rest: nat)
    requires su.g == g && su.l == l && i < l && j < x && Placing(su, clusters, places, x, b / (g + 1), i, j, 0)
    ensures Placing(su, cl, spanned, x, b / (g + 1), i, j, b / (g + 1)) && rest == b - b % (g + 1)
    ensures AllData(cl) == AllData(clusters) + Ids(DataId(l, b, j, i, 0), rest)
    ensures ClustersProper(clusters, l, b) && OnlyData(clusters) ==> ClustersProper(cl, l, b) && OnlyData(cl)
  {
    hide Placing, DataRun, Counted, DataId, AllData, Ids, ClustersProper, OnlyData, AllProper, Copies;
    cl, spanned, rest := clusters, places, 0;
    assert Ids(DataId(l, b, j, i, 0), 0) == multiset{} by { NoIds(DataId(l, b, j, i, 0)); }
    ghost var n := 0;
    while rest + g + 1 <= b
      invariant rest == n * (g + 1) && rest <= b
      invariant Placing(su, cl, spanned, x, b / (g + 1), i, j, n)
      invariant AllData(cl) == AllData(clusters) + Ids(DataId(l, b, j, i, 0), rest)
      invariant ClustersProper(clusters, l, b) && OnlyData(clusters) ==> ClustersProper(cl, l, b) && OnlyData(cl)
    {
      Remainder(b, g + 1, rest, n);
      ghost var before := cl;
      var k := FullCluster(l, b, j, i, rest, g + 1, |cl|);
      SizeOfPlaces(su, cl, spanned, x, b / (g + 1), i, j, n);
      PlaceOne(su, cl, spanned, x, b / (g + 1), i, j, n, k, rest, b);
      spanned := spanned[j := spanned[j] + {|cl|}];
      RunIds(k.blocks, l, b, j, i, rest, |cl|);
      RunProper(k.blocks, l, b, j, i, rest, |cl|);
      if ClustersProper(cl, l, b) && OnlyData(cl) {
        ProperClusters(cl, k, l, b);
        OnlyDataMore(cl, k);
      }
      cl := cl + [k];
      AllDataSnoc(before, k);
      IdsAppend(DataId(l, b, j, i, 0), rest, g + 1);
      rest := rest + g + 1;
      n := n + 1;
    }
    Remainder(b, g + 1, rest, n);
  }

  lemma SizeOfPlaces(su: Setup, cl: seq<Cluster>, places: seq<set<nat>>, x: nat, full: nat, i0: nat, j0: nat,
                     partial: nat)
    requires Placing(su, cl, places, x, full, i0, j0, partial)
    ensures |places| == x
  {
  }

  lemma NoBlocks()
    ensures DataIds([]) == multiset{}
  {
  }

  /** A run of data blocks has consecutive ids. */
  lemma {:induction false} RunIds(s: seq<Block>, l: nat, b: nat, j: nat, i: nat, first: nat, c: nat)
    requires DataRun(s, l, b, j, i, first, c)
    ensures DataIds(s) == Ids(DataId(l, b, j, i, 0) + first, |s|)
  {
    hide Ids, DataIds;
    if s == [] {
      NoIds(DataId(l, b, j, i, 0) + first);
      NoBlocks();
    } else {
      var n := |s| - 1;
      RunIds(s[..n], l, b, j, i, first, c);
      IdsMore(DataId(l, b, j, i, 0) + first, n);
      SnocData(s[..n], s[n]);
      assert s == s[..n] + [s[n]];
      assert s[n] == Block(Data, DataId(l, b, j, i, first + n), i, j, c);
    }
  }

  /** All full data clusters, group by group and stripe by stripe. */
  method PlaceData(ghost su: Setup, g: nat, l: nat, b: nat, x: nat)
      returns (cl: seq<Cluster>, spanned: seq<set<nat>>, rest: nat)
    requires su.g == g && su.l == l && l > 0 && x > 0
    ensures Placing(su, cl, spanned, x, b / (g + 1), l, 0, 0) && rest == b - b % (g + 1)
    ensures AllData(cl) == SumIds(l, b, x, 0, rest, l, 0)
    ensures ClustersProper(cl, l, b) && OnlyData(cl)
  {
    hide Placing, DataId, AllData, Ids, AllProper;
    cl, spanned, rest := [], seq(x, _ => {}), b - b % (g + 1);
    NothingPlaced(su, x, b / (g + 1));
    assert AllData([]) == multiset{} by { NoClusters(); }
    for i := 0 to l
      invariant Placing(su, cl, spanned, x, b / (g + 1), i, 0, 0)
      invariant AllData(cl) == SumIds(l, b, x, 0, rest, i, 0)
      invariant ClustersProper(cl, l, b) && OnlyData(cl)
    {
      for j := 0 to x
        invariant Placing(su, cl, spanned, x, b / (g + 1), i, j, 0)
        invariant AllData(cl) == SumIds(l, b, x, 0, rest, i, j)
        invariant ClustersProper(cl, l, b) && OnlyData(cl)
      {
        var from;
        cl, spanned, from := PlaceGroup(su, cl, spanned, g, l, b, x, i, j);
        NextGroup(su, cl, spanned, x, b / (g + 1), i, j);
      }
      NextRow(su, cl, spanned, x, b / (g + 1), i);
    }
  }

  lemma NoClusters()
    ensures AllData([]) == multiset{}
  {
  }

  // ---- Parity clusters ----

  /** The blocks of a parity cluster belong to existing stripes and belong here. */
  ghost predicate Belongs(su: Setup, x: nat, c: nat, s: seq<Block>) {
    forall t :: 0 <= t < |s| ==> s[t].stripe < x && AllowedAt(su, c, s[t]) && s[t].cluster == c
  }

  /** Loose data and local parities of a group that a stripe has here. */
  ghost predicate LooseCounts(s: seq<Block>, i: nat, o: nat, data: nat, locals: nat) {
    Count(s, Data, o) == data && CountIn(s, Local, o, i) == locals
  }

  /** A new block changes the counts of its own stripe only. */
  lemma LooseAdd(s: seq<Block>, b: Block, i: nat, o: nat, data: nat, locals: nat)
    requires LooseCounts(s, i, o, data, locals)
    ensures LooseCounts(s + [b], i, o, data + if Is(b, Data, o) then 1 else 0, locals + if Is(b, Local, o) && b.group == i then 1 else 0)
  {
    hide Count, CountIn;
    Snoc(s, b, Data, o, i);
    Snoc(s, b, Local, o, i);
  }

  lemma BelongsAdd(su: Setup, x: nat, c: nat, s: seq<Block>, b: Block)
    requires Belongs(su, x, c, s) && b.stripe < x && AllowedAt(su, c, b) && b.cluster == c
    ensures Belongs(su, x, c, s + [b])
  {
    hide AllowedAt;
  }

  /** The stripes lo..hi-1 have m more loose blocks each, and a local parity of group i. */
  ghost predicate LooseGrown(s: seq<Block>, u: seq<Block>, lo: nat, hi: nat, i: nat, m: nat) {
    forall o: nat, ii: nat, data: nat, locals: nat :: LooseCounts(s, ii, o, data, locals) ==>
      LooseCounts(u, ii, o, data + if lo <= o < hi then m else 0, locals + if lo <= o < hi && ii == i then 1 else 0)
  }

  lemma LooseGrownMore(s: seq<Block>, u: seq<Block>, v: seq<Block>, j: nat, i: nat, m: nat)
    requires LooseGrown(s, u, 0, j, i, m) && LooseGrown(u, v, j, j + 1, i, m)
    ensures LooseGrown(s, v, 0, j + 1, i, m)
  {
    hide LooseCounts;
    forall o: nat, ii: nat, data: nat, locals: nat | LooseCounts(s, ii, o, data, locals)
      ensures LooseCounts(v, ii, o, data + if o < j + 1 then m else 0, locals + if o < j + 1 && ii == i then 1 else 0)
    {
      assert LooseCounts(u, ii, o, data + if o < j then m else 0, locals + if o < j && ii == i then 1 else 0);
    }
  }

  lemma NotGrown(s: seq<Block>, i: nat, m: nat)
    ensures LooseGrown(s, s, 0, 0, i, m)
  {
    hide LooseCounts;
  }

  /** The remainder of one group of one stripe, with its local parity. */
  method AddRemainder(ghost su: Setup, ghost x: nat, c: nat, k0: Cluster, l: nat, b: nat, i: nat, j: nat, rest: nat,
                      m: nat)
      returns (k: Cluster)
    requires SetupOk(su) && su.l == l && i < l && su.lids[i] == c && j < x && (m > 0 ==> su.loose > 0)
    requires Counted(c, k0) && k0.kind != Global && Belongs(su, x, c, k0.blocks)
    ensures k.kind == Local && Counted(c, k) && Belongs(su, x, c, k.blocks) && k.numData == k0.numData + m
    ensures LooseGrown(k0.blocks, k.blocks, j, j + 1, i, m)
    ensures forall o: nat :: Count(k.blocks, Global, o) == Count(k0.blocks, Global, o)
    ensures DataIds(k.blocks) == DataIds(k0.blocks) + Ids(DataId(l, b, j, i, 0) + rest, m)
    ensures RemainderPut(k0.blocks, k.blocks, Block(Local, i + j * l, i, j, c))
    ensures rest + m <= b && AllProper(k0.blocks, l, b) ==> AllProper(k.blocks, l, b)
  {
    hide Counted, Belongs, LooseCounts, Count, DataIds, Ids, DataPut, AllProper, DataId;
    k := k0;
    NothingPut(k.blocks, 0, l, c, i);
    NoIds(DataId(l, b, j, i, 0) + rest);
    for t := 0 to m
      invariant Counted(c, k) && Belongs(su, x, c, k.blocks) && k.kind != Global && k.numData == k0.numData + t
      invariant forall o: nat, ii: nat, data: nat, locals: nat :: LooseCounts(k0.blocks, ii, o, data, locals) ==>
        LooseCounts(k.blocks, ii, o, data + if o == j then t else 0, locals)
      invariant forall o: nat :: Count(k.blocks, Global, o) == Count(k0.blocks, Global, o)
      invariant DataIds(k.blocks) == DataIds(k0.blocks) + Ids(DataId(l, b, j, i, 0) + rest, t)
      invariant DataPut(k0.blocks, k.blocks)
      invariant rest + m <= b && AllProper(k0.blocks, l, b) ==> AllProper(k.blocks, l, b)
    {
      var block := Block(Data, DataId(l, b, j, i, rest + t), i, j, c);
      PutData(k0.blocks, k.blocks, block);
      LooseProper(k.blocks, l, b, j, i, rest + t, c, rest + m <= b && AllProper(k.blocks, l, b));
      k := AddLoose(su, x, c, k, block, j);
      IdsMore(DataId(l, b, j, i, 0) + rest, t);
      DataIdStep(l, b, j, i, rest + t);
    }
    ghost var before := k.blocks;
    k := AddLoose(su, x, c, k, Block(Local, i + j * l, i, j, c), j);
    assert k.blocks[..|k.blocks| - 1] == before;
    if AllProper(before, l, b) {
      ParityProper(before, Block(Local, i + j * l, i, j, c), l, b);
    }
  }

  lemma DataIdStep(l: nat, b: nat, j: nat, i: nat, t: nat)
    ensures DataId(l, b, j, i, t) == DataId(l, b, j, i, 0) + t
  {
  }

  lemma LooseProper(s: seq<Block>, l: nat, b: nat, j: nat, i: nat, t: nat, c: nat, proper: bool)
    requires i < l && (proper ==> t < b && AllProper(s, l, b))
    ensures proper ==> AllProper(s + [Block(Data, DataId(l, b, j, i, t), i, j, c)], l, b)
  {
    hide AllProper, DataId;
    if proper {
      IdIsProper(l, b, j, i, t, c);
      ProperMore(s, Block(Data, DataId(l, b, j, i, t), i, j, c), l, b);
    }
  }

  lemma ParityProper(s: seq<Block>, x: Block, l: nat, b: nat)
    requires AllProper(s, l, b) && x.kind != Data
    ensures AllProper(s + [x], l, b)
  {
    ProperMore(s, x, l, b);
  }

  /** Some data and then a local parity are new. */
  ghost predicate RemainderPut(s: seq<Block>, u: seq<Block>, parity: Block) {
    u != [] && u[|u| - 1] == parity && DataPut(s, u[..|u| - 1])
  }

  /** One loose data block or local parity. */
  method AddLoose(ghost su: Setup, ghost x: nat, c: nat, k0: Cluster, block: Block, ghost j: nat) returns (k: Cluster)
    requires Counted(c, k0) && Belongs(su, x, c, k0.blocks) && k0.kind != Global
    requires block.stripe == j < x && AllowedAt(su, c, block) && block.cluster == c && block.kind != Global
    ensures k.kind == (if block.kind == Local then Local else k0.kind) && Counted(c, k) && Belongs(su, x, c, k.blocks)
    ensures k.numData == k0.numData + if block.kind == Data then 1 else 0
    ensures forall o: nat, ii: nat, data: nat, locals: nat :: LooseCounts(k0.blocks, ii, o, data, locals) ==>
      LooseCounts(k.blocks, ii, o, data + (if o == j && block.kind == Data then 1 else 0),
                  locals + (if o == j && block.kind == Local && ii == block.group then 1 else 0))
    ensures forall o: nat :: Count(k.blocks, Global, o) == Count(k0.blocks, Global, o)
    ensures DataIds(k.blocks) == DataIds(k0.blocks) + if block.kind == Data then multiset{block.id} else multiset{}
    ensures k.blocks == k0.blocks + [block]
  {
    hide Counted, Belongs, LooseCounts, Count, DataIds;
    k := AddNewBlock(k0, block);
    AddedCounted(c, k0, block);
    BelongsAdd(su, x, c, k0.blocks, block);
    SnocData(k0.blocks, block);
    forall o: nat, ii: nat, data: nat, locals: nat | LooseCounts(k0.blocks, ii, o, data, locals)
      ensures LooseCounts(k.blocks, ii, o, data + (if o == j && block.kind == Data then 1 else 0),
                          locals + (if o == j && block.kind == Local && ii == block.group then 1 else 0))
    {
      LooseAdd(k0.blocks, block, ii, o, data, locals);
    }
    forall o: nat
      ensures Count(k.blocks, Global, o) == Count(k0.blocks, Global, o)
    {
      Snoc(k0.blocks, block, Global, o, 0);
    }
  }

  /** The remainders of one group, of all stripes. */
  method AddGroup(ghost su: Setup, c: nat, k0: Cluster, l: nat, b: nat, x: nat, i: nat, rest: nat, m: nat)
      returns (k: Cluster)
    requires SetupOk(su) && su.l == l && i < l && su.lids[i] == c && x > 0 && (m > 0 ==> su.loose > 0)
    requires Counted(c, k0) && k0.kind != Global && Belongs(su, x, c, k0.blocks)
    ensures k.kind == Local && Counted(c, k) && Belongs(su, x, c, k.blocks) && k.numData == k0.numData + x * m
    ensures LooseGrown(k0.blocks, k.blocks, 0, x, i, m)
    ensures forall o: nat :: Count(k.blocks, Global, o) == Count(k0.blocks, Global, o)
    ensures DataIds(k.blocks) + SumIds(l, b, x, rest, m, i, 0) == DataIds(k0.blocks) + SumIds(l, b, x, rest, m, i, x)
    ensures LocalsPut(k0.blocks, k.blocks, l, c, i, x)
    ensures rest + m <= b && AllProper(k0.blocks, l, b) ==> AllProper(k.blocks, l, b)
  {
    hide Counted, Belongs, LooseGrown, Count, DataIds, Ids, DataId, SetupOk, SumIds, AllowedAt, LocalsPut, AllProper,
         DataPut;
    k := k0;
    NothingPut(k.blocks, 0, l, c, i);
    NotGrown(k.blocks, i, m);
    for j := 0 to x
      invariant Counted(c, k) && Belongs(su, x, c, k.blocks) && k.kind == if j == 0 then k0.kind else Local
      invariant k.numData == k0.numData + j * m
      invariant LooseGrown(k0.blocks, k.blocks, 0, j, i, m)
      invariant forall o: nat :: Count(k.blocks, Global, o) == Count(k0.blocks, Global, o)
      invariant DataIds(k.blocks) + SumIds(l, b, x, rest, m, i, 0) == DataIds(k0.blocks) + SumIds(l, b, x, rest, m, i, j)
      invariant LocalsPut(k0.blocks, k.blocks, l, c, i, j)
      invariant rest + m <= b && AllProper(k0.blocks, l, b) ==> AllProper(k.blocks, l, b)
    {
      Shuffle(DataIds(k.blocks), SumIds(l, b, x, rest, m, i, 0), DataIds(k0.blocks), SumIds(l, b, x, rest, m, i, j),
              Ids(DataId(l, b, j, i, 0) + rest, m));
      SumStep(l, b, x, rest, m, i, j);
      OneMoreTime(j + 1, m);
      ghost var before := k;
      k := AddRemainder(su, x, c, k, l, b, i, j, rest, m);
      LooseGrownMore(k0.blocks, before.blocks, k.blocks, j, i, m);
      RemainderIs(k.blocks);
      PutLocal(k0.blocks, before.blocks, k.blocks[..|k.blocks| - 1], l, c, i, j, k.blocks[|k.blocks| - 1]);
    }
  }

  lemma RemainderIs(s: seq<Block>)
    requires s != []
    ensures s == s[..|s| - 1] + [s[|s| - 1]]
  {
  }

  lemma Shuffle(a: multiset<nat>, s: multiset<nat>, d: multiset<nat>, t: multiset<nat>, e: multiset<nat>)
    requires a + s == d + t
    ensures (a + e) + s == d + (t + e)
  {
    assert (a + e) + s == (a + s) + e;
    assert d + (t + e) == (d + t) + e;
  }

  /** g global parities of every stripe. */
  method AddGlobals(ghost su: Setup, c: nat, k0: Cluster, g: nat, l: nat, x: nat) returns (k: Cluster)
    requires c == su.gid && su.g == g && su.l == l && Counted(c, k0) && Belongs(su, x, c, k0.blocks)
    requires forall o: nat :: Count(k0.blocks, Global, o) == 0
    ensures Counted(c, k) && Belongs(su, x, c, k.blocks)
    ensures k.kind == if k0.kind == Data && g > 0 && x > 0 then Global else k0.kind
    ensures forall o: nat :: Count(k.blocks, Global, o) == if o < x then g else 0
    ensures forall o: nat, ii: nat, data: nat, locals: nat :: LooseCounts(k0.blocks, ii, o, data, locals) ==>
      LooseCounts(k.blocks, ii, o, data, locals)
    ensures DataIds(k.blocks) == DataIds(k0.blocks)
    ensures GlobalsPut(k0.blocks, k.blocks, g, l, c, x, 0)
    ensures forall b: nat :: AllProper(k0.blocks, l, b) ==> AllProper(k.blocks, l, b)
  {
    hide Counted, Belongs, LooseCounts, Count, DataIds, GlobalsPut, AllProper;
    k := k0;
    NothingPut(k.blocks, g, l, c, 0);
    for i := 0 to x
      invariant Counted(c, k) && Belongs(su, x, c, k.blocks) && k.kind == if k0.kind == Data && g > 0 && i > 0 then Global else k0.kind
      invariant forall o: nat :: Count(k.blocks, Global, o) == if o < i then g else 0
      invariant forall o: nat, ii: nat, data: nat, locals: nat :: LooseCounts(k0.blocks, ii, o, data, locals) ==>
        LooseCounts(k.blocks, ii, o, data, locals)
      invariant DataIds(k.blocks) == DataIds(k0.blocks)
      invariant GlobalsPut(k0.blocks, k.blocks, g, l, c, i, 0)
      invariant forall b: nat :: AllProper(k0.blocks, l, b) ==> AllProper(k.blocks, l, b)
    {
      for t := 0 to g
        invariant Counted(c, k) && Belongs(su, x, c, k.blocks)
        invariant k.kind == if k0.kind == Data && g > 0 && (i > 0 || t > 0) then Global else k0.kind
        invariant forall o: nat :: Count(k.blocks, Global, o) == if o < i then g else if o == i then t else 0
        invariant forall o: nat, ii: nat, data: nat, locals: nat :: LooseCounts(k0.blocks, ii, o, data, locals) ==>
          LooseCounts(k.blocks, ii, o, data, locals)
        invariant DataIds(k.blocks) == DataIds(k0.blocks)
        invariant GlobalsPut(k0.blocks, k.blocks, g, l, c, i, t)
        invariant forall b: nat :: AllProper(k0.blocks, l, b) ==> AllProper(k.blocks, l, b)
      {
        var block := Block(Global, t + i * g, l, i, c);
        PutGlobal(k0.blocks, k.blocks, g, l, c, i, t, block);
        forall b: nat | AllProper(k.blocks, l, b)
          ensures AllProper(k.blocks + [block], l, b)
        {
          ParityProper(k.blocks, block, l, b);
        }
        k := AddGlobal(su, x, c, k, block);
      }
      PutNextStripe(k0.blocks, k.blocks, g, l, c, i);
    }
  }

  method AddGlobal(ghost su: Setup, ghost x: nat, c: nat, k0: Cluster, block: Block) returns (k: Cluster)
    requires Counted(c, k0) && Belongs(su, x, c, k0.blocks) && c == su.gid
    requires block.kind == Global && block.stripe < x && block.cluster == c
    ensures k.kind == (if k0.kind == Data then Global else k0.kind) && Counted(c, k) && Belongs(su, x, c, k.blocks)
    ensures forall o: nat :: Count(k.blocks, Global, o) == Count(k0.blocks, Global, o) + if o == block.stripe then 1 else 0
    ensures forall o: nat, ii: nat, data: nat, locals: nat :: LooseCounts(k0.blocks, ii, o, data, locals) ==>
      LooseCounts(k.blocks, ii, o, data, locals)
    ensures DataIds(k.blocks) == DataIds(k0.blocks)
    ensures k.blocks == k0.blocks + [block]
  {
    hide Counted, Belongs, LooseCounts, Count, DataIds;
    k := AddNewBlock(k0, block);
    AddedCounted(c, k0, block);
    BelongsAdd(su, x, c, k0.blocks, block);
    SnocData(k0.blocks, block);
    forall o: nat, ii: nat, data: nat, locals: nat | LooseCounts(k0.blocks, ii, o, data, locals)
      ensures LooseCounts(k.blocks, ii, o, data, locals)
    {
      LooseAdd(k0.blocks, block, ii, o, data, locals);
    }
    forall o: nat
      ensures Count(k.blocks, Global, o) == Count(k0.blocks, Global, o) + if o == block.stripe then 1 else 0
    {
      Snoc(k0.blocks, block, Global, o, 0);
    }
  }

  // ---- The whole placement ----

  /** The parity clusters as they should be. */
  ghost predicate ParityDone(su: Setup, cl: seq<Cluster>, x: nat, m: nat, first: nat) {
    (forall c :: first <= c < |cl| ==>
      cl[c].kind == KindOf(su, c) && cl[c].kind != Data && Counted(c, cl[c]) && Belongs(su, x, c, cl[c].blocks)) &&
    (forall i: nat :: i < su.l ==> GroupDone(su, cl, x, m, i)) &&
    su.gid < |cl| && forall o: nat :: o < x ==> Count(cl[su.gid].blocks, Global, o) == su.g
  }

  ghost predicate GroupDone(su: Setup, cl: seq<Cluster>, x: nat, m: nat, i: nat) {
    i < |su.lids| && su.lids[i] < |cl| && cl[su.lids[i]].numData == x * m &&
    forall o: nat :: o < x ==> LooseCounts(cl[su.lids[i]].blocks, i, o, m, 1)
  }

  /** The numbers from lo to hi-1. */
  function Numbers(lo: nat, hi: nat): set<nat> {
    set c: nat | c < hi && From(c, lo)
  }

  predicate From(c: nat, lo: nat) {
    lo <= c
  }

  /** Roles of the clusters after the data clusters. */
  function SetupFor(g: nat, l: nat, m: nat, first: nat): (su: Setup)
    ensures su.g == g && su.l == l
  {
    if m == 0 then Setup(g, l, 0, seq(l, _ => first), first)
    else Setup(g, l, m, seq(l, i => first + i), first + l)
  }

  lemma SetupForOk(g: nat, l: nat, m: nat, first: nat)
    requires l > 0 && m <= g
    ensures SetupOk(SetupFor(g, l, m, first))
    ensures Parities(SetupFor(g, l, m, first)) == Numbers(first, first + if m == 0 then 1 else l + 1)
  {
    var su := SetupFor(g, l, m, first);
    forall c
      ensures c in Parities(su) <==> first <= c <= first + if m == 0 then 0 else l
    {
      if m == 0 {
        assert c == first ==> su.lids[0] == c;
      } else if first <= c < first + l {
        assert su.lids[c - first] == c;
      }
    }
  }

  lemma SamePlacing(su: Setup, su': Setup, cl: seq<Cluster>, places: seq<set<nat>>, x: nat, full: nat, i0: nat)
    requires Placing(su, cl, places, x, full, i0, 0, 0) && su.g == su'.g && su.l == su'.l
    ensures Placing(su', cl, places, x, full, i0, 0, 0)
  {
    forall c | 0 <= c < |cl|
      ensures FullSomewhere(su', cl, places, c)
    {
      assert FullSomewhere(su, cl, places, c);
    }
    forall i: nat, j: nat | i < su'.l && j < x
      ensures GroupPlaced(su', cl, places, full, i0, 0, 0, i, j)
    {
      assert GroupPlaced(su, cl, places, full, i0, 0, 0, i, j);
      forall c | c in DSet(cl, places[j], i)
        ensures FullOf(su', cl, c, j, i)
      {
        assert FullOf(su, cl, c, j, i);
      }
    }
  }

  /** The rows of the initial placement. */
  function StartRows(su: Setup, places: seq<set<nat>>, sum: nat, m: nat): Rows {
    map j: nat | j < |places| :: Row(Const(su.l, sum), Const(su.l, m), Const(su.l, 1), su.g, places[j])
  }

  function WithParities(su: Setup, spanned: seq<set<nat>>): (places: seq<set<nat>>)
    ensures |places| == |spanned|
  {
    seq(|spanned|, j requires 0 <= j < |spanned| => spanned[j] + Parities(su))
  }

  /** The initial placement is a state of the simulation, with all stripes alike. */
  lemma InitialWorld(su: Setup, dcl: seq<Cluster>, cl: seq<Cluster>, spanned: seq<set<nat>>, x: nat, full: nat, m: nat)
    requires SetupOk(su) && Placing(su, dcl, spanned, x, full, su.l, 0, 0) && |dcl| <= |cl| && cl[..|dcl|] == dcl
    requires Parities(su) == Numbers(|dcl|, |cl|)
    requires ParityDone(su, cl, x, m, |dcl|)
    ensures var places := WithParities(su, spanned);
      AllAlike(su, cl, StartRows(su, places, full * (su.g + 1), m), places, Phase(x, full * (su.g + 1), m))
  {
    hide Placing, ParityDone, ClusterOk, RowOk, RowTight, Parities, Const;
    var places := WithParities(su, spanned);
    var rows := StartRows(su, places, full * (su.g + 1), m);
    PlacingSize(su, dcl, spanned, x, full);
    forall c | 0 <= c < |cl|
      ensures ClusterOk(su, rows, c, cl[c])
    {
      InitialCluster(su, dcl, cl, spanned, x, full, m, c);
    }
    forall j: nat | j < x
      ensures RowOk(su, cl, j, rows[j]) && RowTight(su, cl, rows[j])
    {
      InitialRow(su, dcl, cl, spanned, x, full, m, j);
    }
    RolesInRange(su, cl, x, m, |dcl|);
  }

  lemma PlacingSize(su: Setup, cl: seq<Cluster>, places: seq<set<nat>>, x: nat, full: nat)
    requires Placing(su, cl, places, x, full, su.l, 0, 0)
    ensures |places| == x && AllFull(su, cl, places)
    ensures forall i: nat, j: nat :: i < su.l && j < x ==> Filled2(su, cl, places, j, i, full)
  {
    hide AllFull, Filled2;
    forall i: nat, j: nat | i < su.l && j < x
      ensures Filled2(su, cl, places, j, i, full)
    {
      assert GroupPlaced(su, cl, places, full, su.l, 0, 0, i, j);
    }
  }

  lemma RolesInRange(su: Setup, cl: seq<Cluster>, x: nat, m: nat, first: nat)
    requires SetupOk(su) && ParityDone(su, cl, x, m, first)
    ensures su.gid < |cl| && Shared(su, cl, x * m)
  {
    forall i: nat | i < su.l
      ensures su.lids[i] < |cl| && cl[su.lids[i]].numData == x * m
    {
      assert GroupDone(su, cl, x, m, i);
    }
  }

  lemma InitialCluster(su: Setup, dcl: seq<Cluster>, cl: seq<Cluster>, spanned: seq<set<nat>>, x: nat, full: nat,
                       m: nat, c: nat)
    requires SetupOk(su) && |spanned| == x && AllFull(su, dcl, spanned) && |dcl| <= |cl| && cl[..|dcl|] == dcl
    requires c < |cl|
    requires Parities(su) == Numbers(|dcl|, |cl|) && ParityDone(su, cl, x, m, |dcl|)
    ensures ClusterOk(su, StartRows(su, WithParities(su, spanned), full * (su.g + 1), m), c, cl[c])
  {
    hide GroupDone, Count, Const;
    if c < |dcl| {
      assert cl[c] == dcl[c] && FullSomewhere(su, dcl, spanned, c);
      assert c !in Parities(su);
    }
  }

  lemma InitialRow(su: Setup, dcl: seq<Cluster>, cl: seq<Cluster>, spanned: seq<set<nat>>, x: nat, full: nat, m: nat,
                   j: nat)
    requires SetupOk(su) && Placing(su, dcl, spanned, x, full, su.l, 0, 0) && |dcl| <= |cl| && cl[..|dcl|] == dcl
    requires j < x
    requires Parities(su) == Numbers(|dcl|, |cl|) && ParityDone(su, cl, x, m, |dcl|) && |spanned| == x
    ensures var rows := StartRows(su, WithParities(su, spanned), full * (su.g + 1), m);
      RowOk(su, cl, j, rows[j]) && RowTight(su, cl, rows[j])
  {
    hide Count, CountIn, Counted, Sum, DSet, Placing, Belongs, AllFull, Filled2;
    var row := StartRows(su, WithParities(su, spanned), full * (su.g + 1), m)[j];
    PlacingSize(su, dcl, spanned, x, full);
    forall i: nat | i < su.l
      ensures GroupCounts(su, cl, j, row, i)
      ensures Sum(DSet(cl, row.place, i), Sizes(cl)) == full * (su.g + 1) && Tight(cl, DSet(cl, row.place, i), su.g + 1)
    {
      assert GroupDone(su, cl, x, m, i) && LooseCounts(cl[su.lids[i]].blocks, i, j, m, 1);
      InitialGroup(su, dcl, cl, spanned, x, full, m, i, j);
    }
    InitialPlace(su, dcl, cl, spanned, x, m, j, row);
  }

  lemma InitialGroup(su: Setup, dcl: seq<Cluster>, cl: seq<Cluster>, spanned: seq<set<nat>>, x: nat, full: nat, m: nat,
                     i: nat, j: nat)
    requires |spanned| == x && Filled2(su, dcl, spanned, j, i, full) && AllFull(su, dcl, spanned) && |dcl| <= |cl|
    requires cl[..|dcl|] == dcl
    requires Parities(su) == Numbers(|dcl|, |cl|) && ParityDone(su, cl, x, m, |dcl|) && j < x
    ensures var ids := DSet(cl, spanned[j] + Parities(su), i);
      Sum(ids, Sizes(cl)) == full * (su.g + 1) && Tight(cl, ids, su.g + 1)
  {
    hide Count, Counted, Sum, Belongs, GroupDone, FullSomewhere;
    var ids := DSet(cl, spanned[j] + Parities(su), i);
    assert OwnPlaces(dcl, spanned[j], j);
    forall c: nat
      ensures c in ids <==> c in DSet(dcl, spanned[j], i)
      ensures c in ids ==> Size(cl, c) == su.g + 1
    {
      if c < |dcl| {
        assert cl[c] == dcl[c];
      }
      if c in DSet(dcl, spanned[j], i) {
        assert FullOf(su, dcl, c, j, i);
      }
    }
    assert ids == DSet(dcl, spanned[j], i);
    FullSums(cl, ids, su.g);
  }

  lemma InitialPlace(su: Setup, dcl: seq<Cluster>, cl: seq<Cluster>, spanned: seq<set<nat>>, x: nat, m: nat, j: nat,
                     row: Row)
    requires SetupOk(su) && |spanned| == x && AllFull(su, dcl, spanned) && |dcl| <= |cl| && cl[..|dcl|] == dcl && j < x
    requires Parities(su) == Numbers(|dcl|, |cl|) && ParityDone(su, cl, x, m, |dcl|)
    requires row.place == spanned[j] + Parities(su)
    ensures RowPlace(su, cl, j, row)
  {
    hide Count, Counted, Belongs, GroupDone, FullSomewhere;
    assert OwnPlaces(dcl, spanned[j], j);
    forall i | 0 <= i < |su.lids|
      ensures su.lids[i] in row.place
    {
      assert su.lids[i] in Elems(su.lids);
    }
    forall c | c in row.place
      ensures c < |cl| && (cl[c].kind == Data ==> cl[c].blocks != [] && cl[c].blocks[0].stripe == j)
    {
      if c in spanned[j] {
        assert cl[c] == dcl[c];
      }
    }
  }

  // ---- Building the parity clusters ----

  /** The stripes also span cluster c. */
  method SpanAll(places: seq<set<nat>>, c: nat) returns (more: seq<set<nat>>)
    ensures |more| == |places| && forall j :: 0 <= j < |places| ==> more[j] == places[j] + {c}
  {
    more := places;
    for j := 0 to |places|
      invariant |more| == |places| && forall i :: 0 <= i < |places| ==>
        more[i] == if i < j then places[i] + {c} else places[i]
    {
      more := more[j := more[j] + {c}];
    }
  }

  lemma NewIsEmpty(su: Setup, c: nat, x: nat)
    ensures Counted(c, NewCluster()) && Belongs(su, x, c, NewCluster().blocks)
    ensures DataIds(NewCluster().blocks) == multiset{}
    ensures forall o: nat :: Count(NewCluster().blocks, Global, o) == 0
    ensures forall o: nat, ii: nat :: LooseCounts(NewCluster().blocks, ii, o, 0, 0)
  {
  }

  lemma Cancel(a: multiset<nat>, s: multiset<nat>, t: multiset<nat>, d: multiset<nat>)
    requires a + s == d + t && d == s
    ensures a == t
  {
    forall e
      ensures a[e] == t[e]
    {
      assert (a + s)[e] == (d + t)[e];
    }
  }

  /** The local parities of the groups below i are there, and nothing is loose. */
  ghost predicate LocalsSoFar(s: seq<Block>, ii: nat, o: nat, i: nat) {
    LooseCounts(s, ii, o, 0, if ii < i then 1 else 0)
  }

  /** With nothing loose: one cluster for all local parities, and then the global ones. */
  method OneParityCluster(ghost su: Setup, c: nat, g: nat, l: nat, b: nat, x: nat, rest: nat) returns (k: Cluster)
    requires SetupOk(su) && su.g == g && su.l == l && su.loose == 0 && su.gid == c && x > 0
    ensures k.kind == Local && Counted(c, k) && Belongs(su, x, c, k.blocks) && k.numData == 0
    ensures forall o: nat, ii: nat :: o < x && ii < l ==> LooseCounts(k.blocks, ii, o, 0, 1)
    ensures forall o: nat :: o < x ==> Count(k.blocks, Global, o) == g
    ensures DataIds(k.blocks) == SumIds(l, b, x, rest, 0, l, 0)
    ensures OneNamed(k.blocks, g, l, c, x, l, x) && (rest <= b ==> AllProper(k.blocks, l, b))
  {
    hide Counted, Belongs, LooseCounts, Count, DataIds, SumIds, AllowedAt, DataId, Ids, OneNamed, LocalsPut, GlobalsPut,
         AllProper;
    k := NewCluster();
    NoNames(g, l, c, b);
    NewIsEmpty(su, c, x);
    SumStep(l, b, x, rest, 0, 0, 0);
    for i := 0 to l
      invariant Counted(c, k) && Belongs(su, x, c, k.blocks) && k.kind == (if i == 0 then Data else Local) && k.numData == 0
      invariant forall o: nat, ii: nat :: o < x && ii < l ==> LocalsSoFar(k.blocks, ii, o, i)
      invariant forall o: nat :: Count(k.blocks, Global, o) == 0
      invariant DataIds(k.blocks) == SumIds(l, b, x, rest, 0, i, 0)
      invariant OneNamed(k.blocks, g, l, c, x, i, 0) && (rest <= b ==> AllProper(k.blocks, l, b))
    {
      ghost var before := k;
      k := AddGroup(su, c, k, l, b, x, i, rest, 0);
      NextLocals(before.blocks, k.blocks, g, l, c, x, i);
      ghost var next := i + 1;
      forall o: nat, ii: nat | o < x && ii < l
        ensures LocalsSoFar(k.blocks, ii, o, next)
      {
        assert LocalsSoFar(before.blocks, ii, o, i);
      }
      SumStep(l, b, x, rest, 0, i, 0);
      Cancel(DataIds(k.blocks), SumIds(l, b, x, rest, 0, i, 0), SumIds(l, b, x, rest, 0, i, x), DataIds(before.blocks));
    }
    ghost var before := k;
    k := AddGlobals(su, c, k, g, l, x);
    forall o: nat, ii: nat | o < x && ii < l
      ensures LooseCounts(k.blocks, ii, o, 0, 1)
    {
      assert LocalsSoFar(before.blocks, ii, o, l);
    }
    SameNumData(c, before, k);
    AllGlobals(before.blocks, k.blocks, g, l, c, x);
  }

  /**
   * With nothing loose: the local parities of the groups below i of x stripes, and the global
   * parities of `done` stripes, each once.
   */
  ghost predicate OneNamed(s: seq<Block>, g: nat, l: nat, c: nat, x: nat, i: nat, done: nat) {
    forall b: Block :: b.kind != Data ==>
      Copies(s, b) == if (b.group < i && FirstLocal(l, c, b.group, x, b)) || FirstGlobal(g, l, c, done, 0, b) then 1 else 0
  }

  lemma NoNames(g: nat, l: nat, c: nat, b: nat)
    ensures forall x: nat :: OneNamed(NewCluster().blocks, g, l, c, x, 0, 0)
    ensures AllProper(NewCluster().blocks, l, b)
  {
  }

  lemma NextLocals(s: seq<Block>, u: seq<Block>, g: nat, l: nat, c: nat, x: nat, i: nat)
    requires OneNamed(s, g, l, c, x, i, 0) && LocalsPut(s, u, l, c, i, x)
    ensures OneNamed(u, g, l, c, x, i + 1, 0)
  {
    hide Copies;
  }

  lemma AllGlobals(s: seq<Block>, u: seq<Block>, g: nat, l: nat, c: nat, x: nat)
    requires OneNamed(s, g, l, c, x, l, 0) && GlobalsPut(s, u, g, l, c, x, 0)
    ensures OneNamed(u, g, l, c, x, l, x)
  {
    hide Copies;
  }

  lemma SameNumData(c: nat, k: Cluster, k': Cluster)
    requires Counted(c, k) && Counted(c, k') && DataIds(k.blocks) == DataIds(k'.blocks)
    ensures k.numData == k'.numData
  {
    HowManyIds(k.blocks);
    HowManyIds(k'.blocks);
  }

  lemma {:induction false} HowManyIds(s: seq<Block>)
    ensures |DataIds(s)| == CountData(s)
  {
    if s != [] {
      HowManyIds(s[..|s| - 1]);
    }
  }

  /** The parity clusters of the groups below i, one after the other. */
  ghost predicate GroupClusters(su: Setup, cl: seq<Cluster>, first: nat, x: nat, m: nat, i: nat) {
    |cl| == first + i && forall ii :: 0 <= ii < i ==> GroupCluster(su, cl, first, x, m, ii)
  }

  ghost predicate GroupCluster(su: Setup, cl: seq<Cluster>, first: nat, x: nat, m: nat, i: nat) {
    first + i < |cl| && ParityOfGroup(su, cl[first + i], first + i, x, m, i)
  }

  ghost predicate ParityOfGroup(su: Setup, k: Cluster, c: nat, x: nat, m: nat, i: nat) {
    k.kind == Local && Counted(c, k) && Belongs(su, x, c, k.blocks) && k.numData == x * m &&
    LocalsPut([], k.blocks, su.l, c, i, x) &&
    forall o: nat :: o < x ==> LooseCounts(k.blocks, i, o, m, 1)
  }

  /** With loose blocks: a cluster for each group. */
  method ManyParityClusters(ghost su: Setup, dcl: seq<Cluster>, spanned: seq<set<nat>>, l: nat, b: nat, x: nat,
                            rest: nat, m: nat)
      returns (cl: seq<Cluster>, places: seq<set<nat>>)
    requires SetupOk(su) && su.l == l && m > 0 && su == SetupFor(su.g, l, m, |dcl|) && x > 0
    ensures |cl| == |dcl| + l && cl[..|dcl|] == dcl && GroupClusters(su, cl, |dcl|, x, m, l)
    ensures |places| == |spanned| && forall j :: 0 <= j < |spanned| ==>
      places[j] == spanned[j] + Numbers(|dcl|, |dcl| + l)
    ensures AllData(cl) == AllData(dcl) + SumIds(l, b, x, rest, m, l, 0)
    ensures rest + m <= b && ClustersProper(dcl, l, b) ==> ClustersProper(cl, l, b)
  {
    hide Counted, Belongs, LooseCounts, Count, DataIds, SumIds, AllowedAt, AllData, ClustersProper, AllProper,
         LocalsPut;
    NoNames(0, l, 0, b);
    cl, places := dcl, spanned;
    SumStep(l, b, x, rest, m, 0, 0);
    for i := 0 to l
      invariant |cl| == |dcl| + i && cl[..|dcl|] == dcl && GroupClusters(su, cl, |dcl|, x, m, i)
      invariant |places| == |spanned| && forall j :: 0 <= j < |spanned| ==>
        places[j] == spanned[j] + Numbers(|dcl|, |dcl| + i)
      invariant AllData(cl) == AllData(dcl) + SumIds(l, b, x, rest, m, i, 0)
      invariant rest + m <= b && ClustersProper(dcl, l, b) ==> ClustersProper(cl, l, b)
    {
      ghost var before := cl;
      var c := |cl|;
      NewIsEmpty(su, c, x);
      var k := AddGroup(su, c, NewCluster(), l, b, x, i, rest, m);
      assert ParityOfGroup(su, k, c, x, m, i) by { FromEmpty(k, x, m, i); }
      MoreGroups(su, cl, k, |dcl|, x, m, i);
      SumStep(l, b, x, rest, m, i, 0);
      AllDataSnoc(cl, k);
      if rest + m <= b && ClustersProper(cl, l, b) {
        ProperClusters(cl, k, l, b);
      }
      NewData(DataIds(k.blocks), SumIds(l, b, x, rest, m, i, 0), SumIds(l, b, x, rest, m, i, x), AllData(dcl));
      cl := cl + [k];
      places := SpanAll(places, c);
      OneMoreNumber(|dcl|, |dcl| + i);
    }
  }

  lemma MoreGroups(su: Setup, cl: seq<Cluster>, k: Cluster, first: nat, x: nat, m: nat, i: nat)
    requires GroupClusters(su, cl, first, x, m, i) && ParityOfGroup(su, k, |cl|, x, m, i)
    ensures GroupClusters(su, cl + [k], first, x, m, i + 1)
  {
    hide ParityOfGroup;
    forall ii: nat | ii < i + 1
      ensures GroupCluster(su, cl + [k], first, x, m, ii)
    {
      assert ii < i ==> GroupCluster(su, cl, first, x, m, ii);
    }
  }

  lemma FromEmpty(k: Cluster, x: nat, m: nat, i: nat)
    requires LooseGrown(NewCluster().blocks, k.blocks, 0, x, i, m)
    ensures forall o: nat :: o < x ==> LooseCounts(k.blocks, i, o, m, 1)
  {
    forall o: nat | o < x
      ensures LooseCounts(k.blocks, i, o, m, 1)
    {
      assert LooseCounts(NewCluster().blocks, i, o, 0, 0);
    }
  }

  lemma NewData(a: multiset<nat>, s: multiset<nat>, t: multiset<nat>, d: multiset<nat>)
    requires a + s == multiset{} + t
    ensures (d + s) + a == d + t
  {
    assert (d + s) + a == d + (a + s);
  }

  lemma OneMoreNumber(lo: nat, hi: nat)
    requires lo <= hi
    ensures Numbers(lo, hi + 1) == Numbers(lo, hi) + {hi} && Numbers(lo, lo) == {}
  {
  }

  // ---- The placement ----

  lemma OneDone(su: Setup, dcl: seq<Cluster>, k: Cluster, x: nat)
    requires SetupOk(su) && su.loose == 0 && su.gid == |dcl|
    requires k.kind == Local && Counted(|dcl|, k) && Belongs(su, x, |dcl|, k.blocks) && k.numData == 0
    requires forall o: nat, ii: nat :: o < x && ii < su.l ==> LooseCounts(k.blocks, ii, o, 0, 1)
    requires forall o: nat :: o < x ==> Count(k.blocks, Global, o) == su.g
    ensures ParityDone(su, dcl + [k], x, 0, |dcl|)
  {
    hide Counted, Belongs, LooseCounts, Count;
    assert su.lids[0] == |dcl|;
    forall i: nat | i < su.l
      ensures GroupDone(su, dcl + [k], x, 0, i)
    {
      assert su.lids[i] == |dcl|;
    }
  }

  lemma ManyDone(su: Setup, cl: seq<Cluster>, k: Cluster, first: nat, x: nat, m: nat)
    requires SetupOk(su) && m > 0 && su == SetupFor(su.g, su.l, m, first) && GroupClusters(su, cl, first, x, m, su.l)
    requires k.kind == Global && Counted(|cl|, k) && Belongs(su, x, |cl|, k.blocks) && forall o: nat :: o < x ==>
      Count(k.blocks, Global, o) == su.g
    ensures ParityDone(su, cl + [k], x, m, first)
  {
    hide Counted, Belongs, LooseCounts, Count;
    var cl' := cl + [k];
    forall c | first <= c < |cl'|
      ensures cl'[c].kind == KindOf(su, c) && cl'[c].kind != Data && Counted(c, cl'[c])
      ensures Belongs(su, x, c, cl'[c].blocks)
    {
      if c < |cl| {
        assert su.lids[c - first] == c && GroupCluster(su, cl, first, x, m, c - first);
      }
    }
    forall i: nat | i < su.l
      ensures GroupDone(su, cl', x, m, i)
    {
      assert su.lids[i] == first + i && GroupCluster(su, cl, first, x, m, i);
    }
  }

  /** With one parity cluster every stripe has its parities. */
  lemma OneIsNamed(su: Setup, dcl: seq<Cluster>, k: Cluster, x: nat)
    requires SetupOk(su) && su.loose == 0 && su.gid == |dcl| && OnlyData(dcl)
    requires OneNamed(k.blocks, su.g, su.l, |dcl|, x, su.l, x)
    ensures forall o: nat :: o < x ==> ParitiesNamed(su, dcl + [k], o)
  {
    hide Copies;
    var cl := dcl + [k];
    forall c: nat, b: Block | b.kind != Data && b.stripe < x
      ensures Held(cl, c, b) == if Proper(su, b) && b.cluster == c then 1 else 0
    {
      assert Held(dcl, c, b) == 0;
      if b.kind == Local && b.group < su.l {
        assert su.lids[b.group] == su.gid;
      }
    }
  }

  /** With a cluster for each group as well. */
  lemma ManyAreNamed(su: Setup, dcl: seq<Cluster>, groups: seq<Cluster>, k: Cluster, x: nat, m: nat)
    requires SetupOk(su) && m > 0 && su == SetupFor(su.g, su.l, m, |dcl|) && OnlyData(dcl)
    requires GroupClusters(su, groups, |dcl|, x, m, su.l) && groups[..|dcl|] == dcl
    requires GlobalsPut(NewCluster().blocks, k.blocks, su.g, su.l, |groups|, x, 0)
    ensures forall o: nat :: o < x ==> ParitiesNamed(su, groups + [k], o)
  {
    hide Proper, Held;
    forall c: nat, b: Block | b.kind != Data && b.stripe < x
      ensures Held(groups + [k], c, b) == if Proper(su, b) && b.cluster == c then 1 else 0
    {
      NamedCluster(su, dcl, groups, k, x, m, c, b);
    }
  }

  lemma NamedCluster(su: Setup, dcl: seq<Cluster>, groups: seq<Cluster>, k: Cluster, x: nat, m: nat, c: nat, b: Block)
    requires SetupOk(su) && m > 0 && su == SetupFor(su.g, su.l, m, |dcl|) && OnlyData(dcl)
    requires GroupClusters(su, groups, |dcl|, x, m, su.l) && groups[..|dcl|] == dcl
    requires GlobalsPut(NewCluster().blocks, k.blocks, su.g, su.l, |groups|, x, 0)
    requires b.kind != Data && b.stripe < x
    ensures Held(groups + [k], c, b) == if Proper(su, b) && b.cluster == c then 1 else 0
  {
    hide Copies, Counted, Belongs, LooseCounts;
    var cl := groups + [k];
    NoCopies(b);
    if c < |dcl| {
      assert cl[c] == groups[..|dcl|][c] && Held(dcl, c, b) == 0;
    } else if c < |groups| {
      assert GroupCluster(su, groups, |dcl|, x, m, c - |dcl|);
      assert FirstLocal(su.l, c, c - |dcl|, x, b) <==> Proper(su, b) && b.cluster == c;
    } else if c == |groups| {
      assert FirstGlobal(su.g, su.l, c, x, 0, b) <==> Proper(su, b) && b.cluster == c;
    }
  }

  lemma NoCopies(b: Block)
    ensures Copies([], b) == 0
  {
  }

  lemma StripesNamed(su: Setup, cl: seq<Cluster>, x: nat, b: nat)
    requires ClustersProper(cl, su.l, b) && forall o: nat :: o < x ==> ParitiesNamed(su, cl, o)
    ensures AllNamed(su, cl, x, 1, b)
  {
    hide ClustersProper, ParitiesNamed, DataNamed;
    forall o: nat | o < x
      ensures StripeNamed(su, cl, o, o * 1, 1, b)
    {
      ProperIsNamed(cl, su.l, b, o);
    }
  }

  /**
   * The initial placement of x stripes with l groups of b blocks: a state of
   * the simulation in which all stripes are alike, with every data block placed once
   * and every block named after its stripe.
   */
  method Place(g: nat, l: nat, b: nat, x: nat)
      returns (su: Setup, cl: seq<Cluster>, places: seq<set<nat>>, ghost rows: Rows)
    requires l > 0 && x > 0
    ensures SetupOk(su) && su.g == g && su.l == l && su.loose == b % (g + 1)
    ensures AllAlike(su, cl, rows, places, Phase(x, (b / (g + 1)) * (g + 1), b % (g + 1)))
    ensures forall id: nat :: AllData(cl)[id] == if id < x * (l * b) then 1 else 0
    ensures AllNamed(su, cl, x, 1, b) && ParitiesApart(cl)
  {
    hide Placing, ParityDone, AllAlike, SumIds, AllData, SetupOk, GroupClusters, Counted, Belongs, LooseCounts, Count,
         DataIds, SetupFor, Parities, OneNamed, GlobalsPut, AllProper, ClustersProper, OnlyData, AllNamed, ParitiesApart;
    var full, m := b / (g + 1), b % (g + 1);
    ghost var any := Setup(g, l, 0, [], 0);
    var dcl, spanned, rest := PlaceData(any, g, l, b, x);
    su := SetupFor(g, l, m, |dcl|);
    SetupForOk(g, l, m, |dcl|);
    SetupForIs(g, l, m, |dcl|);
    SamePlacing(any, su, dcl, spanned, x, full, l);
    SizeOfPlaces(su, dcl, spanned, x, full, l, 0, 0);
    if m == 0 {
      var k := OneParityCluster(su, |dcl|, g, l, b, x, rest);
      cl := dcl + [k];
      places := SpanAll(spanned, |dcl|);
      AllDataSnoc(dcl, k);
      OneDone(su, dcl, k, x);
      OneIsNamed(su, dcl, k, x);
      ProperClusters(dcl, k, l, b);
      OneMoreNumber(|dcl|, |dcl|);
    } else {
      var groups;
      groups, places := ManyParityClusters(su, dcl, spanned, l, b, x, rest, m);
      NewIsEmpty(su, |groups|, x);
      NoNames(g, l, |groups|, b);
      var k := AddGlobals(su, |groups|, NewCluster(), g, l, x);
      cl := groups + [k];
      places := SpanAll(places, |groups|);
      AllDataSnoc(groups, k);
      NoMore(AllData(groups), DataIds(k.blocks));
      ManyDone(su, groups, k, |dcl|, x, m);
      ManyAreNamed(su, dcl, groups, k, x, m);
      ProperClusters(groups, k, l, b);
      OneMoreNumber(|dcl|, |dcl| + l);
    }
    assert cl[..|dcl|] == dcl;
    forall id: nat
      ensures AllData(cl)[id] == if id < x * (l * b) then 1 else 0
    {
      EveryIdOnce(l, b, x, rest, id);
    }
    forall j | 0 <= j < |spanned|
      ensures places[j] == spanned[j] + Parities(su)
    {
    }
    assert places == WithParities(su, spanned);
    InitialWorld(su, dcl, cl, spanned, x, full, m);
    rows := StartRows(su, places, full * (g + 1), m);
    StripesNamed(su, cl, x, b);
    AlikeApart(su, cl, rows, places, Phase(x, full * (g + 1), m), 1, b);
  }

  lemma SetupForIs(g: nat, l: nat, m: nat, first: nat)
    ensures SetupFor(g, l, m, first).gid == first + if m == 0 then 0 else l
    ensures SetupFor(g, l, m, first).loose == m
  {
  }

  lemma NoMore(a: multiset<nat>, d: multiset<nat>)
    requires d == multiset{}
    ensures a + d == a
  {
  }
}

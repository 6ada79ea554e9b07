/**
 * Progress within a batch: the parity clusters are worked off one after the
 * other; a group is done once its parity cluster has been.
 */
module SimProgress {
  import opened SimClusters
  import opened SimSums
  import opened SimState
  import opened SimRelabel
  import opened SimMove
  import opened SimParity
  import opened SimBatch

  /**
   * The figures of a batch: how many stripes merge, what each has per group in
   * data clusters and loose, how many loose blocks per group are to be moved,
   * and how much data the shared clusters hold before.
   */
  datatype Figures = Figures(x: nat, sum: nat, lam: nat, quota: nat, numData: int)

  /** Either nothing moves and all data clusters are full, or g loose blocks per group are left. */
  ghost predicate FiguresOk(su: Setup, f: Figures) {
    f.x >= 1 && f.quota <= f.x * f.lam &&
    ((f.quota == 0 && f.sum % (su.g + 1) == 0) || (f.lam == su.g && f.quota == (f.x - 1) * su.g && su.loose > 0))
  }

  /** What stripe n has of group i. */
  ghost predicate Amount(su: Setup, row: Row, f: Figures, done: set<nat>, i: nat) {
    |su.lids| == su.l && RowLengths(su, row) && i < su.l &&
    if su.lids[i] in done then row.sums[i] == f.x * f.sum + f.quota && row.lam[i] == f.x * f.lam - f.quota && row.locals[i] == 1
    else row.sums[i] == f.x * f.sum && row.lam[i] == f.x * f.lam && row.locals[i] == f.x
  }

  /** The data clusters of group i: as they were, or tight. */
  ghost predicate GroupState(su: Setup, was: seq<Cluster>, cl: seq<Cluster>, order: seq<nat>, added: set<nat>,
                             done: set<nat>, i: nat) {
    i < |su.lids| &&
    if su.lids[i] in done then Tight(cl, DSet(cl, Elems(order) + added, i), su.g + 1)
    else
      DSet(cl, Elems(order), i) == DSet(was, Elems(order), i) && DSet(cl, added, i) == {} &&
      forall c :: c in DSet(was, Elems(order), i) ==> Size(cl, c) == Size(was, c)
  }

  /** The shared cluster of group i has lost its quota once it is done. */
  ghost predicate SharedState(su: Setup, cl: seq<Cluster>, f: Figures, done: set<nat>, i: nat) {
    i < |su.lids| && su.lids[i] < |cl| && cl[su.lids[i]].numData == f.numData - if su.lids[i] in done then f.quota else 0
  }

  /** Clusters that the merged stripe does not span are untouched; new ones come after the old ones. */
  ghost predicate Elsewhere(was: seq<Cluster>, cl: seq<Cluster>, order: seq<nat>, added: set<nat>) {
    |was| <= |cl| && (forall c :: 0 <= c < |was| && c !in order ==> cl[c] == was[c]) &&
    (forall c :: c in added ==> |was| <= c < |cl|) && (forall c :: c in order ==> c < |was|) && NoDup(order)
  }

  ghost predicate Progress(su: Setup, was: seq<Cluster>, cl: seq<Cluster>, rows0: Rows, rows: Rows, order: seq<nat>,
                           added: set<nat>,
                           n: nat, f: Figures, done: set<nat>)
  {
    World(su, cl, rows) && n in rows && rows == rows0[n := rows[n]] &&
    rows[n].place == Elems(order) + added && rows[n].globals == su.g &&
    (forall i: nat :: i < su.l ==> Amount(su, rows[n], f, done, i)) &&
    (forall i: nat :: i < su.l ==> GroupState(su, was, cl, order, added, done, i)) &&
    (forall i: nat :: i < su.l ==> SharedState(su, cl, f, done, i)) &&
    Elsewhere(was, cl, order, added) && AllData(cl) == AllData(was)
  }

  // ---- A cluster without local parities ----

  /** Data clusters, and the cluster of the global parities if it is separate, need nothing. */
  lemma PassOver(su: Setup, was: seq<Cluster>, cl: seq<Cluster>, rows0: Rows, rows: Rows, order: seq<nat>,
                 added: set<nat>,
                 n: nat, f: Figures, done: set<nat>, c: nat)
    requires Progress(su, was, cl, rows0, rows, order, added, n, f, done) && c < |cl| && cl[c].kind != Local
    ensures Progress(su, was, cl, rows0, rows, order, added, n, f, done + {c})
  {
    hide ClusterOk, RowOk, Tight, AllData, DSet;
    forall i: nat | i < su.l
      ensures su.lids[i] != c
    {
      LocalKind(su, cl, rows, i);
    }
    forall i: nat | i < su.l
      ensures Amount(su, rows[n], f, done + {c}, i) && GroupState(su, was, cl, order, added, done + {c}, i)
      ensures SharedState(su, cl, f, done + {c}, i)
    {
      assert Amount(su, rows[n], f, done, i) && GroupState(su, was, cl, order, added, done, i) && SharedState(su, cl, f, done, i);
    }
  }

  // ---- New local parities ----

  /** The state between new local parities and the relocation: cluster c has its new parities only. */
  ghost predicate Between(su: Setup, was: seq<Cluster>, cl: seq<Cluster>, rows0: Rows, rows: Rows, order: seq<nat>,
                          added: set<nat>,
                          n: nat, f: Figures, done: set<nat>, c: nat)
  {
    World(su, cl, rows) && n in rows && rows == rows0[n := rows[n]] &&
    rows[n].place == Elems(order) + added && rows[n].globals == su.g && c in order && c !in done &&
    (forall i: nat :: i < su.l ==> HalfAmount(su, rows[n], f, done, c, i)) &&
    (forall i: nat :: i < su.l ==> GroupState(su, was, cl, order, added, done, i)) &&
    (forall i: nat :: i < su.l ==> SharedState(su, cl, f, done, i)) &&
    Elsewhere(was, cl, order, added) && AllData(cl) == AllData(was)
  }

  ghost predicate HalfAmount(su: Setup, row: Row, f: Figures, done: set<nat>, c: nat, i: nat) {
    |su.lids| == su.l && RowLengths(su, row) && i < su.l &&
    if su.lids[i] == c then row.sums[i] == f.x * f.sum && row.lam[i] == f.x * f.lam && row.locals[i] == 1
    else Amount(su, row, f, done, i)
  }

  lemma LocalsDone(su: Setup, was: seq<Cluster>, cl: seq<Cluster>, rows0: Rows, rows: Rows, order: seq<nat>,
                   added: set<nat>,
                   n: nat, f: Figures, done: set<nat>, c: nat, k: Cluster)
    requires Progress(su, was, cl, rows0, rows, order, added, n, f, done) && c in order && c !in done && f.x >= 1
    requires c < |cl| && cl[c].kind == Local && ParityOk(su, rows, c, k) && OnlyKind(cl[c].blocks, k.blocks, n, Local)
    requires forall i: nat :: CountIn(k.blocks, Local, n, i) == if CountIn(cl[c].blocks, Local, n, i) > 0 then 1 else 0
    ensures |rows[n].locals| == su.l == |su.lids|
    ensures Between(su, was, cl[c := k], rows0, rows[n := LocalsReplaced(su, rows[n], c)], order, added, n, f, done, c)
  {
    hide World, AllData, DSet, Tight, CountIn, Size, Elems;
    LocalsWorld(su, cl, rows, c, k, n);
    var cl', rows' := cl[c := k], rows[n := LocalsReplaced(su, rows[n], c)];
    NumDataKept(su, rows, c, cl, k, n);
    forall i: nat | i < su.l
      ensures HalfAmount(su, rows'[n], f, done, c, i) && GroupState(su, was, cl', order, added, done, i)
      ensures SharedState(su, cl', f, done, i)
    {
      assert Amount(su, rows[n], f, done, i) && GroupState(su, was, cl, order, added, done, i) && SharedState(su, cl, f, done, i);
      SameData2(cl, c, k, Elems(order) + added, i);
      SameData2(cl, c, k, Elems(order), i);
      SameData2(cl, c, k, added, i);
      SameTight(cl, cl', DSet(cl, Elems(order) + added, i), su.g + 1);
    }
  }

  lemma NumDataKept(su: Setup, rows: Rows, c: nat, cl: seq<Cluster>, k: Cluster, n: nat)
    requires World(su, cl, rows) && c < |cl| && ParityOk(su, rows, c, k) && OnlyKind(cl[c].blocks, k.blocks, n, Local)
    ensures k.numData == cl[c].numData && k.kind == cl[c].kind
  {
    assert ClusterOk(su, rows, c, cl[c]);
  }

  /** Parity clusters do not matter for data clusters. */
  lemma SameData2(cl: seq<Cluster>, c: nat, k: Cluster, place: set<nat>, i: nat)
    requires c < |cl| && cl[c].kind != Data && k.kind != Data
    ensures DSet(cl[c := k], place, i) == DSet(cl, place, i)
    ensures forall x :: x in DSet(cl, place, i) ==> Size(cl[c := k], x) == Size(cl, x)
  {
  }

  lemma SameTight(cl: seq<Cluster>, cl': seq<Cluster>, ids: set<nat>, cap: nat)
    requires forall c :: c in ids ==> Size(cl', c) == Size(cl, c)
    ensures Tight(cl, ids, cap) ==> Tight(cl', ids, cap)
  {
    hide Size;
  }

  // ---- Without relocation ----

  /** What is known of the merged stripe's data clusters at the start of the batch. */
  ghost predicate Start(su: Setup, was: seq<Cluster>, order: seq<nat>, f: Figures) {
    forall i: nat :: i < su.l ==>
      SamePartials(su, was, DSet(was, Elems(order), i), f.sum % (su.g + 1)) &&
      Sum(DSet(was, Elems(order), i), Rooms(was, su.g + 1)) == f.x * RoomEach(su, f.sum % (su.g + 1))
  }

  lemma NothingToMove(su: Setup, was: seq<Cluster>, cl: seq<Cluster>, rows0: Rows, rows: Rows, order: seq<nat>,
                      added: set<nat>,
                      n: nat, f: Figures, done: set<nat>, c: nat)
    requires Between(su, was, cl, rows0, rows, order, added, n, f, done, c) && Start(su, was, order, f)
    requires f.quota == 0 && f.sum % (su.g + 1) == 0
    ensures Progress(su, was, cl, rows0, rows, order, added, n, f, done + {c})
  {
    hide World, AllData, DSet, Size, Elems, Sum, Rooms;
    forall i: nat | i < su.l
      ensures Amount(su, rows[n], f, done + {c}, i) && GroupState(su, was, cl, order, added, done + {c}, i)
      ensures SharedState(su, cl, f, done + {c}, i)
    {
      assert HalfAmount(su, rows[n], f, done, c, i) && GroupState(su, was, cl, order, added, done, i) && SharedState(su, cl, f, done, i);
      if su.lids[i] == c {
        DSetUnion(cl, Elems(order), added, i);
        assert SamePartials(su, was, DSet(was, Elems(order), i), f.sum % (su.g + 1));
        FullIsTight(su, was, cl, order, added, i);
      }
    }
  }

  lemma FullIsTight(su: Setup, was: seq<Cluster>, cl: seq<Cluster>, order: seq<nat>, added: set<nat>, i: nat)
    requires DSet(cl, Elems(order) + added, i) == DSet(cl, Elems(order), i) + DSet(cl, added, i)
    requires DSet(cl, Elems(order), i) == DSet(was, Elems(order), i) && DSet(cl, added, i) == {}
    requires forall c :: c in DSet(was, Elems(order), i) ==> Size(cl, c) == Size(was, c)
    requires SamePartials(su, was, DSet(was, Elems(order), i), 0)
    ensures Tight(cl, DSet(cl, Elems(order) + added, i), su.g + 1)
  {
    hide Size, DSet, Elems;
  }

  // ---- With relocation ----

  /** The relocation of a group can begin. */
  lemma MoveBegins(su: Setup, was: seq<Cluster>, cl: seq<Cluster>, rows0: Rows, rows: Rows, order: seq<nat>,
                   added: set<nat>,
                   n: nat, f: Figures, done: set<nat>, c: nat, i: nat)
    requires Between(su, was, cl, rows0, rows, order, added, n, f, done, c) && i < su.l && i < |su.lids|
    requires su.lids[i] == c
    ensures Moving(su, cl, rows, cl, rows, order, added, n, i, 0) && rows[n].lam[i] == f.x * f.lam
    ensures NoDup(order) && forall x :: x in order ==> x < |cl|
  {
    hide World, AllData, DSet, Size, Sum, Rooms, Tight;
    assert HalfAmount(su, rows[n], f, done, c, i) && GroupState(su, was, cl, order, added, done, i) && SharedState(su, cl, f, done, i);
    DataFilled(su, cl, rows, Elems(order), i);
    NothingTight(cl, su.g + 1);
    var row := rows[n];
    assert row.(lam := row.lam[i := row.lam[i] - 0], sums := row.sums[i := row.sums[i] + 0], place := row.place + added) == row by {
      assert row.lam[i := row.lam[i]] == row.lam && row.sums[i := row.sums[i]] == row.sums;
      assert row.place + added == row.place;
    }
    OnlyStart(cl, c, i, Elems(order) + added);
    assert rows[n := row] == rows;
    assert Relocating(su, cl, cl, order, added, i);
  }

  lemma NothingTight(cl: seq<Cluster>, cap: nat)
    ensures Tight(cl, {}, cap)
  {
  }

  lemma OnlyStart(cl: seq<Cluster>, c: nat, i: nat, touched: set<nat>)
    ensures OnlyGroup(cl, cl, c, i, touched)
  {
  }

  /** After the relocation the group is done and tight, and the other groups are as before. */
  lemma MoveEnds(su: Setup, was: seq<Cluster>, cl: seq<Cluster>, cl': seq<Cluster>, rows0: Rows, rows: Rows,
                 rows': Rows,
                 order: seq<nat>, added: set<nat>, added': set<nat>, n: nat, f: Figures, done: set<nat>, c: nat, i: nat)
    requires Between(su, was, cl, rows0, rows, order, added, n, f, done, c) && Start(su, was, order, f)
    requires FiguresOk(su, f)
    requires f.lam == su.g && f.quota == (f.x - 1) * su.g && su.loose > 0
    requires i < su.l && i < |su.lids| && su.lids[i] == c
    requires Moving(su, cl, rows, cl', rows', order, added', n, i, f.quota)
    requires added <= added' && forall x :: x in added' && x !in added ==> |cl| <= x < |cl'|
    ensures Progress(su, was, cl', rows0, rows', order, added', n, f, done + {c})
  {
    hide World, AllData, DSet, Size, Sum, Rooms, Tight, Relocating, OnlyGroup, Amount, GroupState, SharedState,
         Elsewhere, HalfAmount, Elems;
    MovedRows(rows0, rows, rows', added, added', n, i, f.quota, Elems(order));
    DistinctLids(su, cl, rows);
    forall j: nat | j < su.l
      ensures Amount(su, rows'[n], f, done + {c}, j) && GroupState(su, was, cl', order, added', done + {c}, j)
      ensures SharedState(su, cl', f, done + {c}, j)
    {
      assert HalfAmount(su, rows[n], f, done, c, j) && GroupState(su, was, cl, order, added, done, j) && SharedState(su, cl, f, done, j);
      MovedAmount(su, rows[n], rows'[n], f, done, c, i, j, added');
      LocalKind(su, cl, rows, i);
      LocalKind(su, cl', rows', i);
      LocalKind(su, cl, rows, j);
      if j == i {
        OwnLengths(su, rows[n], f, done, c, i);
        Undone(su, was, cl, order, added, done, i);
        GroupTight(su, was, cl, cl', rows, rows', order, added, added', n, f, i, c);
        OwnShared(su, cl, cl', f, done, c, i);
        DoneState(su, was, cl', order, added', done + {c}, i);
      } else {
        InOldRange(was, cl, order, added);
        OtherGroup(su, cl, cl', rows, order, added, added', c, i, j);
        OtherState(su, was, cl, cl', order, added, added', done, c, i, j, f);
      }
    }
    ElsewhereStays(su, was, cl, cl', rows, rows', order, added, added', n, i, c, f.quota);
  }

  lemma InOldRange(was: seq<Cluster>, cl: seq<Cluster>, order: seq<nat>, added: set<nat>)
    requires Elsewhere(was, cl, order, added)
    ensures (forall x :: x in order ==> x < |cl|) && forall x :: x in added ==> x < |cl|
  {
  }

  lemma OwnLengths(su: Setup, row: Row, f: Figures, done: set<nat>, c: nat, i: nat)
    requires HalfAmount(su, row, f, done, c, i) && su.lids[i] == c
    ensures RowLengths(su, row) && row.sums[i] == f.x * f.sum
  {
  }

  lemma Undone(su: Setup, was: seq<Cluster>, cl: seq<Cluster>, order: seq<nat>, added: set<nat>, done: set<nat>, i: nat)
    requires GroupState(su, was, cl, order, added, done, i) && su.lids[i] !in done
    ensures GroupState(su, was, cl, order, added, {}, i)
  {
    hide DSet, Size, Tight;
  }

  lemma DoneState(su: Setup, was: seq<Cluster>, cl: seq<Cluster>, order: seq<nat>, added: set<nat>, done: set<nat>,
                  i: nat)
    requires i < |su.lids| && su.lids[i] in done && Tight(cl, DSet(cl, Elems(order) + added, i), su.g + 1)
    ensures GroupState(su, was, cl, order, added, done, i)
  {
    hide DSet, Size, Tight;
  }

  lemma MovedAmount(su: Setup, row: Row, row': Row, f: Figures, done: set<nat>, c: nat, i: nat, j: nat, added: set<nat>)
    requires HalfAmount(su, row, f, done, c, j) && i < su.l && i < |su.lids| && su.lids[i] == c && j < su.l
    requires forall x, y :: 0 <= x < y < su.l ==> su.lids[x] != su.lids[y]
    requires RowLengths(su, row) && f.quota <= row.lam[i]
    requires row' == row.(lam := row.lam[i := row.lam[i] - f.quota],
                             sums := row.sums[i := row.sums[i] + f.quota],
                             place := row.place + added)
    ensures Amount(su, row', f, done + {c}, j)
  {
  }

  lemma OwnShared(su: Setup, cl: seq<Cluster>, cl': seq<Cluster>, f: Figures, done: set<nat>, c: nat, i: nat)
    requires SharedState(su, cl, f, done, i) && su.lids[i] == c && c !in done && c < |cl'|
    requires cl'[c].numData == cl[c].numData - f.quota
    ensures SharedState(su, cl', f, done + {c}, i)
  {
  }

  /** The other groups' states carry over. */
  lemma OtherState(su: Setup, was: seq<Cluster>, cl: seq<Cluster>, cl': seq<Cluster>, order: seq<nat>, added: set<nat>,
                   added': set<nat>,
                   done: set<nat>, c: nat, i: nat, j: nat, f: Figures)
    requires GroupState(su, was, cl, order, added, done, j) && SharedState(su, cl, f, done, j) && j < |su.lids|
    requires su.lids[j] != c
    requires OnlyGroup(cl, cl', c, i, Elems(order) + added') && i != j && cl[su.lids[j]].kind != Data
    requires DSet(cl', Elems(order), j) == DSet(cl, Elems(order), j) && DSet(cl', added', j) == DSet(cl, added, j)
    requires forall x :: x in DSet(cl, Elems(order) + added, j) ==> Size(cl', x) == Size(cl, x)
    requires Tight(cl, DSet(cl, Elems(order) + added, j), su.g + 1) ==>
      Tight(cl', DSet(cl', Elems(order) + added', j), su.g + 1)
    ensures GroupState(su, was, cl', order, added', done + {c}, j) && SharedState(su, cl', f, done + {c}, j)
  {
    hide Size, Tight, DSet;
    DSetUnion(cl, Elems(order), added, j);
  }

  lemma DistinctLids(su: Setup, cl: seq<Cluster>, rows: Rows)
    requires World(su, cl, rows) && su.loose > 0
    ensures |su.lids| == su.l && forall i, j :: 0 <= i < j < su.l ==> su.lids[i] != su.lids[j]
  {
  }

  lemma MovedRows(rows0: Rows, rows: Rows, rows': Rows, added: set<nat>, added': set<nat>, n: nat, i: nat, quota: nat,
                  old_place: set<nat>)
    requires n in rows && rows == rows0[n := rows[n]] && i < |rows[n].lam| && i < |rows[n].sums|
    requires quota <= rows[n].lam[i]
    requires rows[n].place == old_place + added && added <= added'
    requires rows' == rows[n := rows[n].(lam := rows[n].lam[i := rows[n].lam[i] - quota],
                                         sums := rows[n].sums[i := rows[n].sums[i] + quota], place := rows[n].place + added')]
    ensures n in rows' && rows' == rows0[n := rows'[n]] && rows'[n].place == old_place + added'
  {
    assert old_place + added + added' == old_place + added';
  }

  /** The relocated group: its sizes add up, so first fit has left one cluster unfilled at most. */
  lemma GroupTight(su: Setup, was: seq<Cluster>, cl: seq<Cluster>, cl': seq<Cluster>, rows: Rows, rows': Rows,
                   order: seq<nat>, added: set<nat>, added': set<nat>, n: nat, f: Figures, i: nat, c: nat)
    requires Start(su, was, order, f) && f.x >= 1 && f.quota == (f.x - 1) * su.g && i < su.l && i < |su.lids|
    requires su.lids[i] == c
    requires GroupState(su, was, cl, order, added, {}, i) && World(su, cl, rows) && n in rows
    requires rows[n].place == Elems(order) + added && RowLengths(su, rows[n]) && rows[n].sums[i] == f.x * f.sum
    requires Moving(su, cl, rows, cl', rows', order, added', n, i, f.quota)
    requires n in rows' && rows'[n].place == Elems(order) + added'
    ensures Tight(cl', DSet(cl', Elems(order) + added', i), su.g + 1)
  {
    hide World, AllData, DSet, Size, Sum, Rooms, Tight, OnlyGroup, Sizes, Elems, FilledInOrder, RoomEach;
    var p := f.sum % (su.g + 1);
    var ids := DSet(was, Elems(order), i);
    assert SamePartials(su, was, ids, p) && Sum(ids, Rooms(was, su.g + 1)) == f.x * RoomEach(su, p);
    assert SamePartials(su, cl, ids, p);
    SameRooms(was, cl, ids, su.g + 1);
    DSetUnion(cl, Elems(order), added, i);
    DSetUnion(cl', Elems(order), added', i);
    assert rows'[n].sums[i] == f.x * f.sum + f.quota;
    GroupSum(su, cl, rows, n, i);
    GroupSum(su, cl', rows', n, i);
    assert DSet(cl, Elems(order) + added, i) == ids by { UnionEmpty(ids); }
    if DSet(cl', added', i) == {} {
      UnionEmpty(ids);
      RoomsFromSizes(cl, ids, su.g + 1);
      RoomsFromSizes(cl', ids, su.g + 1);
    }
    OldTight(su, cl, cl', order, added', i, f.x, p);
    TightTogether(su, cl, cl', order, added', i);
  }

  lemma UnionEmpty(ids: set<nat>)
    ensures ids + {} == ids
  {
  }

  lemma GroupSum(su: Setup, cl: seq<Cluster>, rows: Rows, n: nat, i: nat)
    requires World(su, cl, rows) && n in rows && i < su.l
    ensures |rows[n].sums| == su.l && Sum(DSet(cl, rows[n].place, i), Sizes(cl)) == rows[n].sums[i]
  {
    hide ClusterOk, Sum, DSet, Sizes, RowCounts, RowPlace;
    assert RowOk(su, cl, n, rows[n]);
  }

  lemma SameRooms(was: seq<Cluster>, cl: seq<Cluster>, ids: set<nat>, cap: nat)
    requires forall c :: c in ids ==> Size(cl, c) == Size(was, c)
    ensures Sum(ids, Rooms(cl, cap)) == Sum(ids, Rooms(was, cap))
  {
    hide Size, Sum;
    SumSame(ids, Rooms(cl, cap), Rooms(was, cap));
  }

  lemma {:induction false} RoomsFromSizes(cl: seq<Cluster>, ids: set<nat>, cap: nat)
    ensures Sum(ids, Rooms(cl, cap)) == |ids| * cap - Sum(ids, Sizes(cl))
    decreases |ids|
  {
    hide Size;
    if ids != {} {
      var x :| x in ids;
      RoomsFromSizes(cl, ids - {x}, cap);
      SumRemove(ids, Rooms(cl, cap), x);
      SumRemove(ids, Sizes(cl), x);
      OneMoreTime(|ids|, cap);
    }
  }

  /** Old clusters and new ones together: if there are new ones, the old ones are full. */
  lemma TightTogether(su: Setup, was: seq<Cluster>, cl: seq<Cluster>, order: seq<nat>, added: set<nat>, i: nat)
    requires Relocating(su, was, cl, order, added, i) && Tight(cl, DSet(cl, Elems(order), i), su.g + 1)
    ensures Tight(cl, DSet(cl, Elems(order) + added, i), su.g + 1)
  {
    hide Size, DSet, Elems, FilledInOrder;
    DSetUnion(cl, Elems(order), added, i);
  }

  /** Another group keeps its data clusters. */
  lemma OtherGroup(su: Setup, cl: seq<Cluster>, cl': seq<Cluster>, rows: Rows, order: seq<nat>, added: set<nat>,
                   added': set<nat>,
                   c: nat, i: nat, j: nat)
    requires OnlyGroup(cl, cl', c, i, Elems(order) + added') && i != j && c < |cl| && cl[c].kind != Data && c < |cl'|
    requires cl'[c].kind != Data
    requires added <= added' && (forall x :: x in added' && x !in added ==> |cl| <= x < |cl'|)
    requires forall x :: x in order ==> x < |cl|
    requires forall x :: x in added ==> x < |cl|
    ensures DSet(cl', Elems(order), j) == DSet(cl, Elems(order), j) && DSet(cl', added', j) == DSet(cl, added, j)
    ensures DSet(cl', Elems(order) + added', j) == DSet(cl, Elems(order) + added, j)
    ensures forall x :: x in DSet(cl, Elems(order) + added, j) ==> Size(cl', x) == Size(cl, x)
    ensures Tight(cl, DSet(cl, Elems(order) + added, j), su.g + 1) ==>
      Tight(cl', DSet(cl', Elems(order) + added', j), su.g + 1)
  {
    forall x: nat
      ensures x < |cl| ==>
        (IsDataOf(cl', x, j) <==> IsDataOf(cl, x, j)) && (IsDataOf(cl, x, j) ==> Size(cl', x) == Size(cl, x))
      ensures x >= |cl| ==> !IsDataOf(cl', x, j) && !IsDataOf(cl, x, j)
    {
      assert x >= |cl| && x < |cl'| ==> IsDataOf(cl', x, i);
    }
  }

  lemma ElsewhereStays(su: Setup, was: seq<Cluster>, cl: seq<Cluster>, cl': seq<Cluster>, rows: Rows, rows': Rows,
                       order: seq<nat>,
                       added: set<nat>, added': set<nat>, n: nat, i: nat, c: nat, quota: nat)
    requires Elsewhere(was, cl, order, added) && World(su, cl, rows) && n in rows
    requires rows[n].place == Elems(order) + added && c in order
    requires Moving(su, cl, rows, cl', rows', order, added', n, i, quota) && su.lids[i] == c
    requires added <= added' && forall x :: x in added' && x !in added ==> |cl| <= x < |cl'|
    ensures Elsewhere(was, cl', order, added')
  {
    hide World, Relocating, AllData, IsDataOf;
    forall x | 0 <= x < |was| && x !in order
      ensures cl'[x] == was[x]
    {
      assert x !in Elems(order) + added';
    }
  }
}

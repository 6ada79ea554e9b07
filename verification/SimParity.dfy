/**
 * Recomputing the parities of a merged stripe: the old ones are taken out and
 * one local parity per group, or g global parities, are added.
 */
module SimParity {
  import opened SimClusters
  import opened SimSums
  import opened SimState
  import opened SimRelabel
  import opened SimNames

  /** Every count of the stripe except those of one kind is the same. */
  ghost predicate OnlyKind(s: seq<Block>, u: seq<Block>, n: nat, kind: Kind) {
    (forall kind', sid :: kind' != kind || sid != n ==> Count(u, kind', sid) == Count(s, kind', sid)) &&
    (forall kind', sid, i :: kind' != kind || sid != n ==> CountIn(u, kind', sid, i) == CountIn(s, kind', sid, i)) &&
    CountData(u) == CountData(s) && DataIds(u) == DataIds(s)
  }

  lemma RemovedOnly(s: seq<Block>, n: nat, kind: Kind)
    requires kind != Data
    ensures OnlyKind(s, Remaining(s, n, kind), n, kind)
    ensures Count(Remaining(s, n, kind), kind, n) == 0
    ensures forall i: nat :: CountIn(Remaining(s, n, kind), kind, n, i) == 0
  {
    hide Count, CountIn, Remaining, CountData, DataIds;
    var u := Remaining(s, n, kind);
    forall kind', sid: nat
      ensures Count(u, kind', sid) == if kind == kind' && n == sid then 0 else Count(s, kind', sid)
    {
      RemainingCounts(s, n, kind, kind', sid, 0);
    }
    forall kind', sid: nat, i: nat
      ensures CountIn(u, kind', sid, i) == if kind == kind' && n == sid then 0 else CountIn(s, kind', sid, i)
    {
      RemainingCounts(s, n, kind, kind', sid, i);
    }
    RemainingData(s, n, kind);
  }

  lemma AddedOnly(s: seq<Block>, u: seq<Block>, b: Block)
    requires OnlyKind(s, u, b.stripe, b.kind) && b.kind != Data
    ensures OnlyKind(s, u + [b], b.stripe, b.kind)
  {
    hide Count, CountIn, CountData, DataIds;
    forall kind', sid: nat | kind' != b.kind || sid != b.stripe
      ensures Count(u + [b], kind', sid) == Count(s, kind', sid)
    {
      Snoc(u, b, kind', sid, 0);
    }
    forall kind', sid: nat, i: nat | kind' != b.kind || sid != b.stripe
      ensures CountIn(u + [b], kind', sid, i) == CountIn(s, kind', sid, i)
    {
      Snoc(u, b, kind', sid, i);
    }
    SnocData(u, b);
  }

  /** What is in a parity cluster may stay; what is added belongs there. */
  ghost predicate ParityOk(su: Setup, rows: Rows, c: nat, k: Cluster) {
    k.kind == KindOf(su, c) && k.kind != Data && Counted(c, k) &&
    forall i :: 0 <= i < |k.blocks| ==> k.blocks[i].stripe in rows && AllowedAt(su, c, k.blocks[i])
  }

  lemma ParityRemoved(su: Setup, rows: Rows, c: nat, k: Cluster, left: Cluster, n: nat, kind: Kind)
    requires ParityOk(su, rows, c, k) && left.kind == k.kind && left.blocks == Remaining(k.blocks, n, kind)
    requires Counted(c, left)
    ensures ParityOk(su, rows, c, left)
  {
    hide Counted, AllowedAt, KindOf;
    RemainingIs(k.blocks, n, kind);
    assert forall i :: 0 <= i < |left.blocks| ==> left.blocks[i] in left.blocks;
  }

  lemma ParityAdded(su: Setup, rows: Rows, c: nat, k: Cluster, b: Block)
    requires ParityOk(su, rows, c, k) && b.stripe in rows && AllowedAt(su, c, b) && b.cluster == c && b.kind != Data
    requires b.kind == Local ==> k.kind == Local
    ensures ParityOk(su, rows, c, AddNewBlock(k, b))
  {
    AddedCounted(c, k, b);
  }

  // ---- Global parities ----

  /** New global parities replace the old ones. */
  method ReplaceGlobals(su: Setup, ghost rows: Rows, c: nat, k: Cluster, n: nat) returns (k': Cluster)
    requires ParityOk(su, rows, c, k) && c == su.gid && n in rows
    ensures ParityOk(su, rows, c, k') && OnlyKind(k.blocks, k'.blocks, n, Global)
    ensures Count(k'.blocks, Global, n) == su.g
    ensures Swapped(k.blocks, k'.blocks, n, Global) && GlobalsNamed(su, k'.blocks, c, n, su.g)
  {
    hide ParityOk, OnlyKind, Count, CountIn, Remaining, Counted, Swapped, GlobalsNamed;
    CountedOf(su, rows, c, k);
    var left, groups := RemoveBlock(c, k, n, Global);
    RemovedOnly(k.blocks, n, Global);
    SwappedOut(k.blocks, n, Global);
    NoGlobalsYet(su, left.blocks, c, n);
    ParityRemoved(su, rows, c, k, left, n, Global);
    k' := left;
    for j := 0 to su.g
      invariant ParityOk(su, rows, c, k') && OnlyKind(k.blocks, k'.blocks, n, Global)
      invariant Count(k'.blocks, Global, n) == j
      invariant Swapped(k.blocks, k'.blocks, n, Global) && GlobalsNamed(su, k'.blocks, c, n, j)
    {
      var b := Block(Global, j + n * su.g, su.l, n, c);
      GoesIs(b, n, Global);
      SwappedIn(k.blocks, k'.blocks, b, n, Global);
      OneMoreGlobal(su, k'.blocks, c, n, j, b);
      GlobalBelongs(su, c, b);
      ParityAdded(su, rows, c, k', b);
      AddedOnly(k.blocks, k'.blocks, b);
      Snoc(k'.blocks, b, Global, n, 0);
      k' := AddNewBlock(k', b);
    }
  }

  lemma NoGlobalsYet(su: Setup, s: seq<Block>, c: nat, n: nat)
    requires forall b: Block :: Goes(b, n, Global) ==> Copies(s, b) == 0
    ensures GlobalsNamed(su, s, c, n, 0)
  {
    hide Copies;
  }

  lemma NoLocalsYet(su: Setup, s: seq<Block>, c: nat, n: nat)
    requires forall b: Block :: Goes(b, n, Local) ==> Copies(s, b) == 0
    ensures LocalsNamed(su, s, c, n, {})
  {
    hide Copies;
  }

  lemma CountedOf(su: Setup, rows: Rows, c: nat, k: Cluster)
    requires ParityOk(su, rows, c, k)
    ensures Counted(c, k)
  {
  }

  lemma GlobalBelongs(su: Setup, c: nat, b: Block)
    requires b.kind == Global && c == su.gid
    ensures AllowedAt(su, c, b) && Is(b, Global, b.stripe)
  {
  }

  // ---- Local parities ----

  /** One new local parity per group that had any. */
  method ReplaceLocals(su: Setup, ghost rows: Rows, c: nat, k: Cluster, n: nat)
      returns (k': Cluster, ghost groups: set<nat>)
    requires SetupOk(su) && ParityOk(su, rows, c, k) && k.kind == Local && n in rows
    ensures ParityOk(su, rows, c, k') && OnlyKind(k.blocks, k'.blocks, n, Local)
    ensures forall i: nat :: CountIn(k'.blocks, Local, n, i) == if CountIn(k.blocks, Local, n, i) > 0 then 1 else 0
    ensures forall i: nat :: i in groups <==> CountIn(k.blocks, Local, n, i) > 0
    ensures Swapped(k.blocks, k'.blocks, n, Local) && LocalsNamed(su, k'.blocks, c, n, groups)
  {
    hide ParityOk, OnlyKind, Count, CountIn, Remaining, Counted, GroupsGone, Swapped, LocalsNamed;
    CountedOf(su, rows, c, k);
    var left, found := RemoveBlock(c, k, n, Local);
    groups := found;
    RemovedOnly(k.blocks, n, Local);
    SwappedOut(k.blocks, n, Local);
    NoLocalsYet(su, left.blocks, c, n);
    ParityRemoved(su, rows, c, k, left, n, Local);
    k' := left;
    var rest := found;
    assert groups - rest == {};
    while rest != {}
      invariant rest <= groups && k'.kind == Local
      invariant Swapped(k.blocks, k'.blocks, n, Local) && LocalsNamed(su, k'.blocks, c, n, groups - rest)
      invariant ParityOk(su, rows, c, k') && OnlyKind(k.blocks, k'.blocks, n, Local)
      invariant forall i: nat :: CountIn(k'.blocks, Local, n, i) == if i in groups && i !in rest then 1 else 0
      decreases rest
    {
      var group :| group in rest;
      ghost var seen := groups - rest;
      rest := rest - {group};
      var b := Block(Local, group + n * su.l, group, n, c);
      GoesIs(b, n, Local);
      SwappedIn(k.blocks, k'.blocks, b, n, Local);
      OneMoreLocal(su, k'.blocks, c, n, seen, b);
      assert groups - rest == seen + {group};
      LocalBelongs(su, rows, c, k, n, groups, b);
      ParityAdded(su, rows, c, k', b);
      AddedOnly(k.blocks, k'.blocks, b);
      ghost var before := k'.blocks;
      forall i: nat
        ensures CountIn(before + [b], Local, n, i) == CountIn(before, Local, n, i) + if i == group then 1 else 0
      {
        Snoc(before, b, Local, n, i);
      }
      k' := AddNewBlock(k', b);
    }
    assert groups - rest == groups;
    forall i: nat
      ensures i in groups <==> CountIn(k.blocks, Local, n, i) > 0
    {
      GroupsCounted(k.blocks, n, groups, i);
    }
  }

  /** A group that had a local parity here is this cluster's. */
  lemma LocalBelongs(su: Setup, rows: Rows, c: nat, k: Cluster, n: nat, groups: set<nat>, b: Block)
    requires SetupOk(su) && ParityOk(su, rows, c, k) && GroupsGone(k.blocks, n, Local, groups) && b.group in groups
    requires b.kind == Local
    ensures AllowedAt(su, c, b)
  {
    assert GoesFrom(k.blocks, n, Local, b.group);
    var x :| 0 <= x < |k.blocks| && Goes(k.blocks[x], n, Local) && k.blocks[x].group == b.group;
    assert AllowedAt(su, c, k.blocks[x]);
  }

  lemma GroupsCounted(s: seq<Block>, n: nat, groups: set<nat>, i: nat)
    requires GroupsGone(s, n, Local, groups)
    ensures i in groups <==> CountIn(s, Local, n, i) > 0
  {
    CountedGroup(s, n, i);
  }

  lemma {:induction false} CountedGroup(s: seq<Block>, n: nat, i: nat)
    ensures GoesFrom(s, n, Local, i) <==> CountIn(s, Local, n, i) > 0
  {
    if s != [] {
      var m := |s| - 1;
      CountedGroup(s[..m], n, i);
      if GoesFrom(s, n, Local, i) {
        var x :| 0 <= x < |s| && Goes(s[x], n, Local) && s[x].group == i;
        assert x < m ==> s[..m][x] == s[x];
      }
      if GoesFrom(s[..m], n, Local, i) {
        var x :| 0 <= x < m && Goes(s[..m][x], n, Local) && s[..m][x].group == i;
        assert s[x] == s[..m][x];
      }
    }
  }

  // ---- The state with new parities ----

  lemma ParityOf(su: Setup, cl: seq<Cluster>, rows: Rows, c: nat)
    requires World(su, cl, rows) && c < |cl| && cl[c].kind != Data
    ensures ParityOk(su, rows, c, cl[c])
  {
    assert ClusterOk(su, rows, c, cl[c]);
  }

  lemma OnlyOthers(s: seq<Block>, u: seq<Block>, n: nat, kind: Kind, sid: nat)
    requires OnlyKind(s, u, n, kind) && sid != n
    ensures SameCounts(s, u, sid)
  {
  }

  /** New global parities in the state. */
  lemma GlobalsWorld(su: Setup, cl: seq<Cluster>, rows: Rows, k: Cluster, n: nat)
    requires World(su, cl, rows) && n in rows && cl[su.gid].kind != Data
    requires ParityOk(su, rows, su.gid, k) && OnlyKind(cl[su.gid].blocks, k.blocks, n, Global)
    requires Count(k.blocks, Global, n) == su.g
    ensures World(su, cl[su.gid := k], rows[n := rows[n].(globals := su.g)])
    ensures AllData(cl[su.gid := k]) == AllData(cl)
  {
    hide Count, CountIn, Counted, RowSums, RowPlace, AllowedAt, DataIds, AllData;
    var c, row := su.gid, rows[n].(globals := su.g);
    forall sid | sid in rows && sid != n
      ensures SameCounts(cl[c].blocks, k.blocks, sid)
    {
      OnlyOthers(cl[c].blocks, k.blocks, n, Global, sid);
    }
    assert RowOk(su, cl, n, rows[n]);
    var cl' := cl[c := k];
    forall i: nat | i < su.l
      ensures GroupCounts(su, cl', n, row, i)
    {
      assert GroupCounts(su, cl, n, rows[n], i);
    }
    ChangeParity(su, cl, rows, c, k, n, row);
    AllDataChange(cl, c, k);
    SameSum(AllData(cl[c := k]), AllData(cl), DataIds(k.blocks));
  }

  lemma SameSum(a: multiset<nat>, b: multiset<nat>, d: multiset<nat>)
    requires a + d == b + d
    ensures a == b
  {
    forall y
      ensures a[y] == b[y]
    {
      assert (a + d)[y] == (b + d)[y];
    }
  }

  /** New local parities of all groups whose parity cluster this is. */
  function LocalsReplaced(su: Setup, row: Row, c: nat): Row
    requires |row.locals| == su.l == |su.lids|
  {
    row.(locals := seq(su.l, i requires 0 <= i < su.l => if su.lids[i] == c && row.locals[i] > 0 then 1 else row.locals[i]))
  }

  lemma LocalsRow(su: Setup, cl: seq<Cluster>, c: nat, k: Cluster, n: nat, row: Row)
    requires RowCounts(su, cl, n, row) && c < |cl| && OnlyKind(cl[c].blocks, k.blocks, n, Local)
    requires forall i: nat :: CountIn(k.blocks, Local, n, i) == if CountIn(cl[c].blocks, Local, n, i) > 0 then 1 else 0
    ensures |row.locals| == su.l == |su.lids| && RowCounts(su, cl[c := k], n, LocalsReplaced(su, row, c))
  {
    hide Count, CountIn, CountData, DataIds;
    var cl' := cl[c := k];
    forall i: nat | i < su.l
      ensures GroupCounts(su, cl', n, LocalsReplaced(su, row, c), i)
    {
      assert GroupCounts(su, cl, n, row, i);
    }
  }

  lemma LocalsWorld(su: Setup, cl: seq<Cluster>, rows: Rows, c: nat, k: Cluster, n: nat)
    requires World(su, cl, rows) && n in rows && c < |cl| && cl[c].kind == Local
    requires ParityOk(su, rows, c, k) && OnlyKind(cl[c].blocks, k.blocks, n, Local)
    requires forall i: nat :: CountIn(k.blocks, Local, n, i) == if CountIn(cl[c].blocks, Local, n, i) > 0 then 1 else 0
    ensures |rows[n].locals| == su.l == |su.lids| && World(su, cl[c := k], rows[n := LocalsReplaced(su, rows[n], c)])
    ensures AllData(cl[c := k]) == AllData(cl)
  {
    hide Count, CountIn, Counted, RowSums, RowPlace, AllowedAt, DataIds, AllData, RowCounts;
    assert RowOk(su, cl, n, rows[n]);
    LocalsRow(su, cl, c, k, n, rows[n]);
    var row := LocalsReplaced(su, rows[n], c);
    forall sid | sid in rows && sid != n
      ensures SameCounts(cl[c].blocks, k.blocks, sid)
    {
      OnlyOthers(cl[c].blocks, k.blocks, n, Local, sid);
    }
    ChangeParity(su, cl, rows, c, k, n, row);
    AllDataChange(cl, c, k);
    SameSum(AllData(cl[c := k]), AllData(cl), DataIds(k.blocks));
  }
}

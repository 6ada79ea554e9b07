/**
 * Relocating loose data blocks first-fit: every block goes to the first data
 * cluster of its group that has room, in a fixed order, or to a new cluster;
 * in the end at most one cluster of the group is not full.
 */
module SimMove {
  import opened SimClusters
  import opened SimSums
  import opened SimState
  import opened SimNames

  /** The block at `index` leaves the parity cluster of its group. */
  lemma TakeLoose(su: Setup, cl: seq<Cluster>, rows: Rows, n: nat, i: nat, index: nat)
    requires World(su, cl, rows) && n in rows && i < su.l && index < |cl[su.lids[i]].blocks|
    requires Is(cl[su.lids[i]].blocks[index], Data, n)
    ensures cl[su.lids[i]].blocks[index].group == i && |rows[n].lam| == su.l && rows[n].lam[i] > 0
    ensures World(su, cl[su.lids[i] := Taken(cl[su.lids[i]], index)], rows[n := rows[n].(lam := rows[n].lam[i := rows[n].lam[i] - 1])])
  {
    hide Count, CountIn, Pop, Sum, DSet, Counted;
    var c := su.lids[i];
    var k, b := Taken(cl[c], index), cl[c].blocks[index];
    assert ClusterOk(su, rows, c, cl[c]) && RowOk(su, cl, n, rows[n]) && GroupCounts(su, cl, n, rows[n], i);
    TakenCluster(su, rows, c, cl[c], index);
    GroupOfLoose(su, c, i, b);
    Popped(cl[c].blocks, index, Data, n, i);
    var row := rows[n].(lam := rows[n].lam[i := rows[n].lam[i] - 1]);
    forall sid | sid in rows && sid != n
      ensures SameCounts(cl[c].blocks, k.blocks, sid)
    {
      TakenOthers(cl[c], index, sid);
    }
    TakenCounts(su, cl, n, rows[n], i, index);
    ChangeParity(su, cl, rows, c, k, n, row);
  }

  /** The cluster without the block. */
  function Taken(k: Cluster, index: nat): Cluster
    requires index < |k.blocks|
  {
    Cluster(k.kind, Pop(k.blocks, index), k.numBlocks - 1, k.numData - 1)
  }

  /** Loose data is in the cluster of its group. */
  lemma GroupOfLoose(su: Setup, c: nat, i: nat, b: Block)
    requires SetupOk(su) && i < su.l && c == su.lids[i] && AllowedAt(su, c, b) && b.kind == Data
    ensures b.group == i
  {
  }

  lemma TakenCluster(su: Setup, rows: Rows, c: nat, k: Cluster, index: nat)
    requires ClusterOk(su, rows, c, k) && k.kind != Data && index < |k.blocks| && k.blocks[index].kind == Data
    ensures ClusterOk(su, rows, c, Taken(k, index))
  {
    hide CountData, AllowedAt;
    PoppedData(k.blocks, index);
  }

  lemma TakenOthers(k: Cluster, index: nat, sid: nat)
    requires index < |k.blocks| && k.blocks[index].stripe != sid
    ensures SameCounts(k.blocks, Taken(k, index).blocks, sid)
  {
    hide Count, CountIn, Pop;
    forall kind
      ensures Count(Taken(k, index).blocks, kind, sid) == Count(k.blocks, kind, sid)
    {
      Popped(k.blocks, index, kind, sid, 0);
    }
    forall kind, i: nat
      ensures CountIn(Taken(k, index).blocks, kind, sid, i) == CountIn(k.blocks, kind, sid, i)
    {
      Popped(k.blocks, index, kind, sid, i);
    }
  }

  lemma TakenCounts(su: Setup, cl: seq<Cluster>, n: nat, row: Row, i: nat, index: nat)
    requires SetupOk(su) && RowCounts(su, cl, n, row) && i < su.l && su.lids[i] < |cl|
    requires index < |cl[su.lids[i]].blocks|
    requires Is(cl[su.lids[i]].blocks[index], Data, n) && AllowedAt(su, su.lids[i], cl[su.lids[i]].blocks[index])
    requires row.lam[i] > 0
    ensures RowCounts(su, cl[su.lids[i] := Taken(cl[su.lids[i]], index)], n, row.(lam := row.lam[i := row.lam[i] - 1]))
  {
    hide Count, CountIn, Pop;
    var c := su.lids[i];
    var cl', row' := cl[c := Taken(cl[c], index)], row.(lam := row.lam[i := row.lam[i] - 1]);
    forall x: nat | x < su.l
      ensures GroupCounts(su, cl', n, row', x)
    {
      assert GroupCounts(su, cl, n, row, x);
      Popped(cl[c].blocks, index, Data, n, x);
      Popped(cl[c].blocks, index, Local, n, x);
    }
    Popped(cl[c].blocks, index, Global, n, 0);
  }

  // ---- First fit ----

  /** Cluster c holds data of group i and has room. */
  predicate FitsIn(su: Setup, cl: seq<Cluster>, c: nat, i: nat) {
    c < |cl| && cl[c].kind == Data && cl[c].numBlocks < su.g + 1 && cl[c].blocks != [] && cl[c].blocks[0].group == i
  }

  /** The first cluster in the order that fits. */
  method FirstFit(su: Setup, cl: seq<Cluster>, order: seq<nat>, self: nat, i: nat) returns (at: nat)
    ensures at <= |order|
    ensures at < |order| ==> order[at] != self && FitsIn(su, cl, order[at], i)
    ensures forall u :: 0 <= u < at ==> order[u] == self || !FitsIn(su, cl, order[u], i)
  {
    at := 0;
    while at < |order|
      invariant at <= |order| && forall u :: 0 <= u < at ==> order[u] == self || !FitsIn(su, cl, order[u], i)
    {
      if order[at] != self && FitsIn(su, cl, order[at], i) {
        return;
      }
      at := at + 1;
    }
  }

  /** Some new cluster that fits, in whatever order they are looked at. */
  method AnyFit(su: Setup, cl: seq<Cluster>, added: set<nat>, self: nat, i: nat) returns (found: bool, c: nat)
    ensures found ==> c in added && c != self && FitsIn(su, cl, c, i)
    ensures !found ==> forall x :: x in added ==> x == self || !FitsIn(su, cl, x, i)
  {
    var rest := added;
    while rest != {}
      invariant rest <= added && forall x :: x in added && x !in rest ==> x == self || !FitsIn(su, cl, x, i)
      decreases rest
    {
      c :| c in rest;
      if c != self && FitsIn(su, cl, c, i) {
        return true, c;
      }
      rest := rest - {c};
    }
    return false, 0;
  }

  // ---- What first fit keeps ----

  /** In the fixed order, whatever stands before a cluster that received blocks is full. */
  ghost predicate FilledInOrder(su: Setup, was: seq<Cluster>, cl: seq<Cluster>, order: seq<nat>, i: nat) {
    var ids := DSet(was, Elems(order), i);
    forall u, v :: (0 <= u < v < |order| && order[u] in ids && order[v] in ids && Size(cl, order[v]) != Size(was, order[v])) ==>
      Size(cl, order[u]) == su.g + 1
  }

  function Elems(s: seq<nat>): set<nat> {
    set x | x in s
  }

  /** New clusters are tight, and started only when the old ones are full. */
  ghost predicate NewAfterOld(su: Setup, was: seq<Cluster>, cl: seq<Cluster>, order: seq<nat>, added: set<nat>,
                              i: nat) {
    Tight(cl, DSet(cl, added, i), su.g + 1) &&
    (DSet(cl, added, i) != {} ==> forall c :: c in DSet(was, Elems(order), i) ==> Size(cl, c) == su.g + 1)
  }

  /** During the relocation of group i: the old data clusters are the same, only fuller. */
  ghost predicate Relocating(su: Setup, was: seq<Cluster>, cl: seq<Cluster>, order: seq<nat>, added: set<nat>, i: nat) {
    |was| <= |cl| && (forall c :: c in added ==> c !in order) &&
    DSet(cl, Elems(order), i) == DSet(was, Elems(order), i) &&
    (forall c :: c in DSet(was, Elems(order), i) ==> Size(was, c) <= Size(cl, c) <= su.g + 1) &&
    FilledInOrder(su, was, cl, order, i) && NewAfterOld(su, was, cl, order, added, i)
  }

  // ---- Tight in the end ----

  lemma {:induction false} SumNonNegative(s: set<nat>, f: nat -> int)
    requires forall x :: x in s ==> f(x) >= 0
    ensures Sum(s, f) >= 0
    decreases |s|
  {
    if s != {} {
      var x :| x in s;
      SumRemove(s, f, x);
      SumNonNegative(s - {x}, f);
    }
  }

  lemma TwoElements(s: set<nat>, f: nat -> int, c: nat, d: nat)
    requires c in s && d in s && c != d && forall x :: x in s ==> f(x) >= 0
    ensures Sum(s, f) >= f(c) + f(d)
  {
    SumRemove(s, f, c);
    SumRemove(s - {c}, f, d);
    SumNonNegative(s - {c} - {d}, f);
  }

  /** The old clusters of a merged group: each full or as full as every stripe's last one. */
  ghost predicate SamePartials(su: Setup, was: seq<Cluster>, ids: set<nat>, p: nat) {
    forall c :: c in ids ==> Size(was, c) == su.g + 1 || (Size(was, c) == p && 0 < p)
  }

  /** The room that x equally filled groups leave. */
  function RoomEach(su: Setup, p: nat): int {
    if p == 0 then 0 else su.g + 1 - p
  }

  /** If (x-1)*g blocks were relocated into old clusters with room for x partial ones, one is left unfilled at most. */
  lemma OldTight(su: Setup, was: seq<Cluster>, cl: seq<Cluster>, order: seq<nat>, added: set<nat>, i: nat, x: nat,
                 p: nat)
    requires Relocating(su, was, cl, order, added, i) && x >= 1 && p <= su.g
    requires SamePartials(su, was, DSet(was, Elems(order), i), p)
    requires Sum(DSet(was, Elems(order), i), Rooms(was, su.g + 1)) == x * RoomEach(su, p)
    requires DSet(cl, added, i) == {} ==>
      Sum(DSet(was, Elems(order), i), Rooms(cl, su.g + 1)) == x * RoomEach(su, p) - (x - 1) * su.g
    ensures Tight(cl, DSet(cl, Elems(order), i), su.g + 1)
  {
    hide Sum, DSet, Size, Elems;
    var ids := DSet(was, Elems(order), i);
    forall c, d | c in ids && d in ids && c != d
      ensures Size(cl, c) == su.g + 1 || Size(cl, d) == su.g + 1
    {
      if DSet(cl, added, i) == {} && Size(cl, c) != su.g + 1 && Size(cl, d) != su.g + 1 {
        TwoElements(ids, Rooms(cl, su.g + 1), c, d);
        OneUntouched(su, was, cl, order, i, c, d);
        RoomLimit(su, x, p);
      }
    }
  }

  /** Of two clusters that are not full, one has received nothing. */
  lemma OneUntouched(su: Setup, was: seq<Cluster>, cl: seq<Cluster>, order: seq<nat>, i: nat, c: nat, d: nat)
    requires FilledInOrder(su, was, cl, order, i) && c != d
    requires c in DSet(was, Elems(order), i) && d in DSet(was, Elems(order), i)
    requires Size(cl, c) != su.g + 1 && Size(cl, d) != su.g + 1
    ensures Size(cl, c) == Size(was, c) || Size(cl, d) == Size(was, d)
  {
    hide Size;
    var u :| 0 <= u < |order| && order[u] == c;
    var v :| 0 <= v < |order| && order[v] == d;
    assert u < v || v < u;
  }

  lemma RoomLimit(su: Setup, x: nat, p: nat)
    requires x >= 1 && p <= su.g
    ensures x * RoomEach(su, p) - (x - 1) * su.g <= RoomEach(su, p)
  {
    var r := RoomEach(su, p);
    assert r <= su.g;
    assert x * r == (x - 1) * r + r;
    Monotone(x - 1, r, su.g);
  }

  lemma Monotone(n: nat, a: int, b: int)
    requires a <= b
    ensures n * a <= n * b
  {
  }

  // ---- One relocation ----

  /**
   * Nothing but the parity cluster `self` and the given data clusters of group i has changed; new clusters
   * are of group i.
   */
  ghost predicate OnlyGroup(was: seq<Cluster>, cl: seq<Cluster>, self: nat, i: nat, touched: set<nat>) {
    |was| <= |cl| &&
    (forall c :: 0 <= c < |was| && c != self && (!IsDataOf(was, c, i) || c !in touched) ==> cl[c] == was[c]) &&
    (forall c :: 0 <= c < |was| ==> (IsDataOf(was, c, i) <==> IsDataOf(cl, c, i))) &&
    (forall c :: |was| <= c < |cl| ==> IsDataOf(cl, c, i))
  }

  /** Where the block goes: into an old data cluster, a new one that has room, or a further new one. */
  datatype Target = Old(at: nat) | New(c: nat) | Further

  /** A target that first fit chooses. */
  ghost predicate Chosen(su: Setup, cl: seq<Cluster>, order: seq<nat>, added: set<nat>, self: nat, i: nat,
                         target: Target) {
    match target
    case Old(at) =>
      at < |order| && order[at] != self && FitsIn(su, cl, order[at], i) &&
      forall u :: 0 <= u < at ==> order[u] == self || !FitsIn(su, cl, order[u], i)
    case New(c) =>
      c in added && c != self && FitsIn(su, cl, c, i) && NoneFits(su, cl, order, self, i)
    case Further =>
      NoneFits(su, cl, order, self, i) && forall x :: x in added ==> x == self || !FitsIn(su, cl, x, i)
  }

  ghost predicate NoneFits(su: Setup, cl: seq<Cluster>, order: seq<nat>, self: nat, i: nat) {
    forall u :: 0 <= u < |order| ==> order[u] == self || !FitsIn(su, cl, order[u], i)
  }

  function TargetCluster(cl: seq<Cluster>, order: seq<nat>, target: Target): nat {
    match target
    case Old(at) => if at < |order| then order[at] else 0
    case New(c) => c
    case Further => |cl|
  }

  function AddedTo(cl: seq<Cluster>, added: set<nat>, target: Target): set<nat> {
    if target.Further? then added + {|cl|} else added
  }

  /** Puts the block where it goes. */
  function PutInto(cl: seq<Cluster>, c: nat, b: Block): seq<Cluster> {
    if c < |cl| then cl[c := AddNewBlock(cl[c], b)] else cl + [AddNewBlock(NewCluster(), b)]
  }

  /** The clusters after the relocation of one block. */
  function Relocated(cl: seq<Cluster>, self: nat, index: nat, c: nat): seq<Cluster>
    requires self < |cl| && index < |cl[self].blocks| && c != self
  {
    PutInto(cl[self := Taken(cl[self], index)], c, cl[self].blocks[index].(cluster := c))
  }

  /** Only the cluster of a data block has changed. */
  lemma RelocatedNames(cl: seq<Cluster>, self: nat, index: nat, c: nat)
    requires self < |cl| && index < |cl[self].blocks| && c != self && c <= |cl|
    requires cl[self].blocks[index].kind == Data
    ensures KeepsNames(cl, Relocated(cl, self, index, c))
  {
    hide Pop, Copies, Has;
    var cl', moved := Relocated(cl, self, index, c), cl[self].blocks[index];
    forall d: nat, b: Block
      ensures Held(cl', d, b) + (if d == self && b == moved then 1 else 0) ==
        Held(cl, d, b) + if d == c && b == moved.(cluster := c) then 1 else 0
    {
      RelocatedCopies(cl, self, index, c, d, b);
    }
    forall id: nat, group: nat, stripe: nat | Has(cl', id, group, stripe)
      ensures Has(cl, id, group, stripe)
    {
      RelocatedData(cl, cl', self, index, c, id, group, stripe);
    }
  }

  lemma RelocatedCopies(cl: seq<Cluster>, self: nat, index: nat, c: nat, d: nat, b: Block)
    requires self < |cl| && index < |cl[self].blocks| && c != self && c <= |cl|
    ensures Held(Relocated(cl, self, index, c), d, b) + (if d == self && b == cl[self].blocks[index] then 1 else 0)
         == Held(cl, d, b) + if d == c && b == cl[self].blocks[index].(cluster := c) then 1 else 0
  {
    hide Pop, Copies;
    var moved := cl[self].blocks[index];
    PoppedCopies(cl[self].blocks, index, b);
    CopiesIn(cl[self].blocks, moved);
    CopiesSnoc(if c < |cl| then cl[c].blocks else [], moved.(cluster := c), b);
    CopiesIn([], b);
  }

  lemma RelocatedData(cl: seq<Cluster>, cl': seq<Cluster>, self: nat, index: nat, c: nat, id: nat, group: nat,
                      stripe: nat)
    requires self < |cl| && index < |cl[self].blocks| && cl[self].blocks[index].kind == Data
    requires forall d: nat, b: Block ::
      Held(cl', d, b) + (if d == self && b == cl[self].blocks[index] then 1 else 0) ==
      Held(cl, d, b) + if d == c && b == cl[self].blocks[index].(cluster := c) then 1 else 0
    requires Has(cl', id, group, stripe)
    ensures Has(cl, id, group, stripe)
  {
    hide Copies;
    var moved := cl[self].blocks[index];
    var d: nat, b: Block :| IsHeld(cl', d, b, id, group, stripe);
    if d == c && b == moved.(cluster := c) {
      CopiesIn(cl[self].blocks, moved);
      assert IsHeld(cl, self, moved, id, group, stripe);
    } else {
      assert IsHeld(cl, d, b, id, group, stripe);
    }
  }

  /** In a consistent state sizes are counted right. */
  lemma FitsMeans(su: Setup, cl: seq<Cluster>, rows: Rows, c: nat, i: nat)
    requires World(su, cl, rows)
    ensures FitsIn(su, cl, c, i) <==> IsDataOf(cl, c, i) && Size(cl, c) < su.g + 1
    ensures IsDataOf(cl, c, i) ==> 1 <= Size(cl, c) <= su.g + 1
  {
    if c < |cl| {
      assert ClusterOk(su, rows, c, cl[c]);
    }
  }

  /** What happens to the sizes. */
  lemma RelocatedSizes(su: Setup, cl: seq<Cluster>, rows: Rows, self: nat, index: nat, c: nat, i: nat, x: nat)
    requires World(su, cl, rows) && self < |cl| && cl[self].kind != Data && index < |cl[self].blocks| && c <= |cl|
    requires c != self
    requires cl[self].blocks[index].kind == Data && cl[self].blocks[index].group == i
    requires (c < |cl| ==> IsDataOf(cl, c, i))
    ensures var cl' := Relocated(cl, self, index, c);
      (IsDataOf(cl', x, i) <==> IsDataOf(cl, x, i) || x == c == |cl|) &&
      (x != self ==> Size(cl', x) == Size(cl, x) + if x == c then 1 else 0)
  {
    hide World;
  }

  /** Cluster c of group i has grown by one block, or is new; sizes are as counted. */
  ghost predicate OneMore(su: Setup, cl: seq<Cluster>, cl': seq<Cluster>, self: nat, i: nat, c: nat) {
    (forall x: nat :: FitsIn(su, cl, x, i) <==> IsDataOf(cl, x, i) && Size(cl, x) < su.g + 1) &&
    (forall x: nat :: IsDataOf(cl, x, i) ==> 1 <= Size(cl, x) <= su.g + 1) &&
    (forall x: nat :: IsDataOf(cl', x, i) <==> IsDataOf(cl, x, i) || x == c == |cl|) &&
    (forall x: nat :: x != self ==> Size(cl', x) == Size(cl, x) + if x == c then 1 else 0) &&
    !IsDataOf(cl, self, i) && self < |cl| <= |cl'| && Size(cl, |cl|) == 0
  }

  /** Old clusters stay filled in order. */
  lemma OrderStep(su: Setup, was: seq<Cluster>, cl: seq<Cluster>, cl': seq<Cluster>, order: seq<nat>, added: set<nat>,
                  self: nat, i: nat, target: Target)
    requires OneMore(su, cl, cl', self, i, TargetCluster(cl, order, target))
    requires Relocating(su, was, cl, order, added, i) && Chosen(su, cl, order, added, self, i, target)
    requires NoDup(order) && forall x :: x in order ==> x < |was|
    ensures DSet(cl', Elems(order), i) == DSet(was, Elems(order), i)
    ensures forall x :: x in DSet(was, Elems(order), i) ==> Size(was, x) <= Size(cl', x) <= su.g + 1
    ensures FilledInOrder(su, was, cl', order, i)
  {
    hide Size, FitsIn, NewAfterOld;
    var c := TargetCluster(cl, order, target);
    var ids := DSet(was, Elems(order), i);
    assert forall x :: x in ids ==> IsDataOf(cl, x, i);
    assert c == |cl| ==> c !in order;
    forall u, v | 0 <= u < v < |order| && order[u] in ids && order[v] in ids && Size(cl', order[v]) != Size(was, order[v])
      ensures Size(cl', order[u]) == su.g + 1
    {
      if order[v] == c {
        if target.Old? {
          EarlierFull(su, cl, order, self, i, target.at, u, v);
        }
      }
    }
  }

  /** Before the first cluster that fits, all data clusters of the group are full. */
  lemma EarlierFull(su: Setup, cl: seq<Cluster>, order: seq<nat>, self: nat, i: nat, at: nat, u: nat, v: nat)
    requires at < |order| && u < v < |order| && order[v] == order[at]
    requires forall x :: 0 <= x < at ==> order[x] == self || !FitsIn(su, cl, order[x], i)
    requires FitsIn(su, cl, order[at], i) && !IsDataOf(cl, self, i)
    requires forall x: nat :: FitsIn(su, cl, x, i) <==> IsDataOf(cl, x, i) && Size(cl, x) < su.g + 1
    requires forall x: nat :: IsDataOf(cl, x, i) ==> 1 <= Size(cl, x) <= su.g + 1
    requires NoDup(order)
    ensures IsDataOf(cl, order[u], i) ==> Size(cl, order[u]) == su.g + 1 && order[u] != order[at]
  {
    hide Size, FitsIn, IsDataOf;
    assert v == at;
  }

  predicate NoDup(s: seq<nat>) {
    forall u, v :: 0 <= u < v < |s| ==> s[u] != s[v]
  }

  /** New clusters stay tight. */
  lemma AddedStep(su: Setup, was: seq<Cluster>, cl: seq<Cluster>, cl': seq<Cluster>, order: seq<nat>, added: set<nat>,
                  self: nat, i: nat, target: Target)
    requires OneMore(su, cl, cl', self, i, TargetCluster(cl, order, target))
    requires Relocating(su, was, cl, order, added, i) && Chosen(su, cl, order, added, self, i, target)
    requires NoDup(order) && forall x :: x in order ==> x < |was|
    ensures NewAfterOld(su, was, cl', order, AddedTo(cl, added, target), i)
  {
    hide Size, FitsIn, FilledInOrder;
    var c, added' := TargetCluster(cl, order, target), AddedTo(cl, added, target);
    var ids := DSet(was, Elems(order), i);
    assert forall x :: x in ids ==> IsDataOf(cl, x, i) && x < |was|;
    assert forall x :: x in DSet(cl, added, i) ==> IsDataOf(cl, x, i);
    match target {
      case Old(at) =>
        assert order[at] in ids;
        assert DSet(cl', added', i) == DSet(cl, added, i);
        assert DSet(cl, added, i) == {};
      case New(_) =>
        assert DSet(cl', added', i) == DSet(cl, added, i);
        AllFull(su, cl, order, self, i, ids);
      case Further =>
        assert DSet(cl', added', i) == DSet(cl, added, i) + {|cl|};
        AllFull(su, cl, order, self, i, ids);
    }
  }

  lemma AllFull(su: Setup, cl: seq<Cluster>, order: seq<nat>, self: nat, i: nat, ids: set<nat>)
    requires NoneFits(su, cl, order, self, i) && !IsDataOf(cl, self, i)
    requires forall x: nat :: FitsIn(su, cl, x, i) <==> IsDataOf(cl, x, i) && Size(cl, x) < su.g + 1
    requires forall x: nat :: IsDataOf(cl, x, i) ==> 1 <= Size(cl, x) <= su.g + 1
    requires forall x :: x in ids ==> x in order && IsDataOf(cl, x, i)
    ensures forall x :: x in ids ==> Size(cl, x) == su.g + 1
  {
    hide Size, FitsIn, IsDataOf;
  }

  /** First fit in a fixed order keeps old clusters filled in order, and new ones tight. */
  lemma RelocatingStep(su: Setup, was: seq<Cluster>, cl: seq<Cluster>, rows: Rows, order: seq<nat>, added: set<nat>,
                       self: nat,
                       index: nat, i: nat, target: Target)
    requires World(su, cl, rows) && self < |cl| && cl[self].kind != Data && index < |cl[self].blocks|
    requires cl[self].blocks[index].kind == Data && cl[self].blocks[index].group == i
    requires Relocating(su, was, cl, order, added, i) && Chosen(su, cl, order, added, self, i, target)
    requires NoDup(order) && forall x :: x in order ==> x < |was|
    ensures var c := TargetCluster(cl, order, target);
      c != self && c <= |cl| && Relocating(su, was, Relocated(cl, self, index, c), order, AddedTo(cl, added, target), i)
  {
    hide World, Relocated, Size, FitsIn;
    var c := TargetCluster(cl, order, target);
    TargetInRange(su, cl, rows, order, added, self, i, target);
    var cl' := Relocated(cl, self, index, c);
    forall x: nat
      ensures FitsIn(su, cl, x, i) <==> IsDataOf(cl, x, i) && Size(cl, x) < su.g + 1
      ensures IsDataOf(cl, x, i) ==> 1 <= Size(cl, x) <= su.g + 1
      ensures IsDataOf(cl', x, i) <==> IsDataOf(cl, x, i) || x == c == |cl|
      ensures x != self ==> Size(cl', x) == Size(cl, x) + if x == c then 1 else 0
    {
      FitsMeans(su, cl, rows, x, i);
      RelocatedSizes(su, cl, rows, self, index, c, i, x);
    }
    RelocatedLength(cl, self, index, c);
    OrderStep(su, was, cl, cl', order, added, self, i, target);
    AddedStep(su, was, cl, cl', order, added, self, i, target);
  }

  lemma TargetInRange(su: Setup, cl: seq<Cluster>, rows: Rows, order: seq<nat>, added: set<nat>, self: nat, i: nat,
                      target: Target)
    requires World(su, cl, rows) && self < |cl| && cl[self].kind != Data
    requires Chosen(su, cl, order, added, self, i, target)
    ensures var c := TargetCluster(cl, order, target);
      c != self && c <= |cl| && (c < |cl| ==> IsDataOf(cl, c, i))
  {
    hide World;
  }

  lemma RelocatedLength(cl: seq<Cluster>, self: nat, index: nat, c: nat)
    requires self < |cl| && index < |cl[self].blocks| && c != self
    ensures |Relocated(cl, self, index, c)| >= |cl| && Size(cl, |cl|) == 0
  {
  }

  // ---- What a relocation does to the state ----

  /** The row after one block of group i went from the parity cluster to a data cluster. */
  function MovedRow(row: Row, i: nat, c: nat, n: nat): Row
    requires i < |row.lam| && i < |row.sums| && row.lam[i] > 0
  {
    row.(lam := row.lam[i := row.lam[i] - 1], sums := row.sums[i := row.sums[i] + 1],
         place := if c == n then row.place + {c} else row.place)
  }

  lemma RelocateWorld(su: Setup, cl: seq<Cluster>, rows: Rows, n: nat, i: nat, index: nat, c: nat)
    requires World(su, cl, rows) && n in rows && i < su.l && index < |cl[su.lids[i]].blocks|
    requires Is(cl[su.lids[i]].blocks[index], Data, n)
    requires c == |cl| || (c in rows[n].place && IsDataOf(cl, c, i) && Size(cl, c) < su.g + 1)
    ensures |rows[n].lam| == su.l && |rows[n].sums| == su.l && rows[n].lam[i] > 0 && c != su.lids[i]
    ensures World(su, Relocated(cl, su.lids[i], index, c), rows[n := MovedRow(rows[n], i, c, |cl|)])
  {
    hide ClusterOk, RowCounts, RowSums, KindOf;
    var self := su.lids[i];
    var b := cl[self].blocks[index].(cluster := c);
    assert RowOk(su, cl, n, rows[n]);
    KindOfParity(su, cl, rows, i);
    TakeLoose(su, cl, rows, n, i, index);
    SumsLength(su, cl, n, rows[n]);
    var cl1 := cl[self := Taken(cl[self], index)];
    var rows1 := rows[n := rows[n].(lam := rows[n].lam[i := rows[n].lam[i] - 1])];
    if c == |cl| {
      StartData(su, cl1, rows1, b, n);
      assert rows1[n := rows1[n].(sums := rows1[n].sums[i := rows1[n].sums[i] + 1], place := rows1[n].place + {|cl|})]
        == rows[n := MovedRow(rows[n], i, c, |cl|)];
    } else {
      GrowData(su, cl1, rows1, c, b, n);
      assert rows1[n := rows1[n].(sums := rows1[n].sums[i := rows1[n].sums[i] + 1])] == rows[n := MovedRow(rows[n], i, c, |cl|)];
    }
  }

  lemma KindOfParity(su: Setup, cl: seq<Cluster>, rows: Rows, i: nat)
    requires World(su, cl, rows) && i < su.l
    ensures cl[su.lids[i]].kind == Local && su.lids[i] < |cl| && !IsDataOf(cl, su.lids[i], i)
  {
    assert ClusterOk(su, rows, su.lids[i], cl[su.lids[i]]);
  }

  lemma SumsLength(su: Setup, cl: seq<Cluster>, n: nat, row: Row)
    requires RowOk(su, cl, n, row)
    ensures |row.sums| == su.l && |row.lam| == su.l
  {
  }

  lemma RelocateOnly(was: seq<Cluster>, cl: seq<Cluster>, self: nat, index: nat, c: nat, i: nat, touched: set<nat>,
                     touched': set<nat>)
    requires self < |cl| && index < |cl[self].blocks| && c != self && c <= |cl| && self < |was| && cl[self].kind != Data
    requires OnlyGroup(was, cl, self, i, touched) && touched <= touched'
    requires (c < |cl| ==> IsDataOf(cl, c, i) && c in touched')
    requires cl[self].blocks[index].kind == Data && cl[self].blocks[index].group == i
    ensures OnlyGroup(was, Relocated(cl, self, index, c), self, i, touched')
    ensures Relocated(cl, self, index, c)[self].kind == cl[self].kind
    ensures Relocated(cl, self, index, c)[self].numData == cl[self].numData - 1
    ensures Relocated(cl, self, index, c)[self].blocks == Pop(cl[self].blocks, index)
  {
    hide Pop;
    var b := cl[self].blocks[index].(cluster := c);
    assert AddNewBlock(NewCluster(), b).blocks == [b];
    var cl' := Relocated(cl, self, index, c);
    forall x: nat | x < |cl'|
      ensures IsDataOf(cl', x, i) <==> IsDataOf(cl, x, i) || x == c
      ensures x != self && x != c ==> cl'[x] == cl[x]
    {
    }
  }

  /** No data is lost. */
  lemma RelocateData(cl: seq<Cluster>, self: nat, index: nat, c: nat)
    requires self < |cl| && index < |cl[self].blocks| && c != self && c <= |cl| && cl[self].blocks[index].kind == Data
    ensures AllData(Relocated(cl, self, index, c)) == AllData(cl)
  {
    hide AllData, DataIds, Pop;
    var k := Taken(cl[self], index);
    var cl1 := cl[self := k];
    var b := cl[self].blocks[index].(cluster := c);
    AllDataChange(cl, self, k);
    PoppedData(cl[self].blocks, index);
    Cancel(AllData(cl1), AllData(cl), DataIds(k.blocks), b.id);
    if c < |cl| {
      AllDataChange(cl1, c, AddNewBlock(cl1[c], b));
      SnocData(cl1[c].blocks, b);
      CancelAdded(AllData(Relocated(cl, self, index, c)), AllData(cl1), DataIds(cl1[c].blocks), b.id);
    } else {
      AllDataSnoc(cl1, AddNewBlock(NewCluster(), b));
      SnocData([], b);
      assert NewCluster().blocks + [b] == [] + [b];
      assert DataIds([]) == multiset{} by { NoDataIds(); }
    }
  }

  lemma Cancel(a: multiset<nat>, b: multiset<nat>, p: multiset<nat>, x: nat)
    requires a + (p + multiset{x}) == b + p
    ensures a + multiset{x} == b
  {
    forall y
      ensures (a + multiset{x})[y] == b[y]
    {
      assert (a + (p + multiset{x}))[y] == (b + p)[y];
    }
  }

  lemma CancelAdded(r: multiset<nat>, a: multiset<nat>, d: multiset<nat>, x: nat)
    requires r + d == a + (d + multiset{x})
    ensures r == a + multiset{x}
  {
    forall y
      ensures r[y] == (a + multiset{x})[y]
    {
      assert (r + d)[y] == (a + (d + multiset{x}))[y];
    }
  }

  lemma NoDataIds()
    ensures DataIds([]) == multiset{}
  {
  }

  // ---- The loop ----

  /** The first `index` blocks are not loose data of stripe n. */
  predicate Passed(s: seq<Block>, index: nat, n: nat) {
    index <= |s| && forall x :: 0 <= x < index ==> !Is(s[x], Data, n)
  }

  lemma {:induction false} NoneLeft(s: seq<Block>, n: nat)
    requires Passed(s, |s|, n)
    ensures Count(s, Data, n) == 0
  {
    if s != [] {
      NoneLeft(s[..|s| - 1], n);
    }
  }

  /** Everything the relocation loop keeps. */
  ghost predicate Moving(su: Setup, was: seq<Cluster>, rows0: Rows, cl: seq<Cluster>, rows: Rows, order: seq<nat>,
                         added: set<nat>,
                         n: nat, i: nat, moved: nat)
  {
    World(su, cl, rows) && n in rows0 && i < su.l == |su.lids| && su.lids[i] < |cl| && RowLengths(su, rows0[n]) &&
    moved <= rows0[n].lam[i] &&
    su.lids[i] < |was| && OnlyGroup(was, cl, su.lids[i], i, Elems(order) + added) && Relocating(su, was, cl, order, added, i) &&
    cl[su.lids[i]].numData == was[su.lids[i]].numData - moved && AllData(cl) == AllData(was) &&
    rows == rows0[n := rows0[n].(lam := rows0[n].lam[i := rows0[n].lam[i] - moved],
                                 sums := rows0[n].sums[i := rows0[n].sums[i] + moved],
                                 place := rows0[n].place + added)] &&
    Elems(order) <= rows0[n].place
  }

  predicate RowLengths(su: Setup, row: Row) {
    |row.lam| == su.l && |row.sums| == su.l && |row.locals| == su.l
  }

  lemma MovingStep(su: Setup, was: seq<Cluster>, rows0: Rows, cl: seq<Cluster>, rows: Rows, order: seq<nat>,
                   added: set<nat>,
                   n: nat, i: nat, moved: nat, index: nat, target: Target) returns (rows': Rows)
    requires Moving(su, was, rows0, cl, rows, order, added, n, i, moved)
    requires NoDup(order) && forall x :: x in order ==> x < |was|
    requires index < |cl[su.lids[i]].blocks| && Is(cl[su.lids[i]].blocks[index], Data, n)
    requires Chosen(su, cl, order, added, su.lids[i], i, target)
    ensures var c := TargetCluster(cl, order, target);
      c != su.lids[i] && c <= |cl| &&
      Moving(su, was, rows0, Relocated(cl, su.lids[i], index, c), rows', order, AddedTo(cl, added, target), n, i, moved + 1) &&
      Relocated(cl, su.lids[i], index, c)[su.lids[i]].blocks == Pop(cl[su.lids[i]].blocks, index)
  {
    hide World, Relocating, OnlyGroup, Relocated, AllData, Pop, Size;
    var self := su.lids[i];
    var c := TargetCluster(cl, order, target);
    SelfFacts(su, cl, rows, n, i, index);
    TargetInRange(su, cl, rows, order, added, self, i, target);
    TargetFits(su, was, cl, rows, order, added, self, i, target);
    RelocatingStep(su, was, cl, rows, order, added, self, index, i, target);
    RelocateWorld(su, cl, rows, n, i, index, c);
    RelocateOnly(was, cl, self, index, c, i, Elems(order) + added, Elems(order) + AddedTo(cl, added, target));
    RelocateData(cl, self, index, c);
    RelocatedLength(cl, self, index, c);
    rows' := rows[n := MovedRow(rows[n], i, c, |cl|)];
    MovedTwice(rows0[n], i, moved, added, AddedTo(cl, added, target), c, |cl|);
  }

  lemma MovedTwice(row: Row, i: nat, moved: nat, added: set<nat>, added': set<nat>, c: nat, n: nat)
    requires i < |row.lam| && i < |row.sums| && moved < row.lam[i] && added' == if c == n then added + {c} else added
    ensures MovedRow(row.(lam := row.lam[i := row.lam[i] - moved], sums := row.sums[i := row.sums[i] + moved], place := row.place + added),
                     i, c, n)
         == row.(lam := row.lam[i := row.lam[i] - (moved + 1)],
                 sums := row.sums[i := row.sums[i] + (moved + 1)],
                 place := row.place + added')
  {
    assert row.lam[i := row.lam[i] - moved][i := row.lam[i] - (moved + 1)] == row.lam[i := row.lam[i] - (moved + 1)];
    assert row.sums[i := row.sums[i] + moved][i := row.sums[i] + (moved + 1)] == row.sums[i := row.sums[i] + (moved + 1)];
    assert row.place + added + (if c == n then {c} else {}) == row.place + added';
  }

  lemma SelfFacts(su: Setup, cl: seq<Cluster>, rows: Rows, n: nat, i: nat, index: nat)
    requires World(su, cl, rows) && n in rows && i < su.l && index < |cl[su.lids[i]].blocks|
    requires Is(cl[su.lids[i]].blocks[index], Data, n)
    ensures cl[su.lids[i]].kind == Local && cl[su.lids[i]].blocks[index].group == i
  {
    hide Count, CountIn, Counted, RowOk;
    assert ClusterOk(su, rows, su.lids[i], cl[su.lids[i]]);
    GroupOfLoose(su, su.lids[i], i, cl[su.lids[i]].blocks[index]);
  }

  lemma TargetFits(su: Setup, was: seq<Cluster>, cl: seq<Cluster>, rows: Rows, order: seq<nat>, added: set<nat>,
                   self: nat, i: nat, target: Target)
    requires World(su, cl, rows) && Chosen(su, cl, order, added, self, i, target) && (target.Further? || self < |cl|)
    ensures var c := TargetCluster(cl, order, target);
      c == |cl| || ((c in order || c in added) && Size(cl, c) < su.g + 1)
    ensures target.Further? <==> TargetCluster(cl, order, target) == |cl|
  {
    hide World;
    FitsMeans(su, cl, rows, TargetCluster(cl, order, target), i);
  }

  /** Chooses the target of one block: an old cluster first, then a new one, then a further new one. */
  method ChooseTarget(su: Setup, cl: seq<Cluster>, order: seq<nat>, added: set<nat>, self: nat, i: nat)
      returns (target: Target)
    ensures Chosen(su, cl, order, added, self, i, target)
  {
    hide FitsIn;
    var at := FirstFit(su, cl, order, self, i);
    if at < |order| {
      return Old(at);
    }
    var found, c := AnyFit(su, cl, added, self, i);
    return if found then New(c) else Further;
  }

  /** The relocation loop: `quota` data blocks of stripe n leave the parity cluster of group i. */
  method MoveLoose(su: Setup, clusters: seq<Cluster>, ghost rows0: Rows, order: seq<nat>, added0: set<nat>, self: nat,
                   n: nat,
                   ghost i: nat, quota: nat) returns (cl: seq<Cluster>, added: set<nat>, ghost rows: Rows)
    requires i < |su.lids| && self == su.lids[i]
    requires Moving(su, clusters, rows0, clusters, rows0, order, added0, n, i, 0) && quota <= rows0[n].lam[i]
    requires NoDup(order) && forall x :: x in order ==> x < |clusters|
    ensures Moving(su, clusters, rows0, cl, rows, order, added, n, i, quota)
    ensures added0 <= added && forall x :: x in added && x !in added0 ==> |clusters| <= x < |cl|
    ensures KeepsNames(clusters, cl)
  {
    hide Moving, Pop, Is, Passed, KeepsNames;
    cl, added, rows := clusters, added0, rows0;
    KeepsRefl(cl);
    MovingFacts(su, clusters, rows0, cl, rows, order, added, n, i, 0);
    var index, moved := 0, 0;
    assert Passed(cl[self].blocks, 0, n) by { PassedNone(cl[self].blocks, n); }
    while index < cl[self].numBlocks && moved != quota
      invariant Moving(su, clusters, rows0, cl, rows, order, added, n, i, moved)
      invariant i < |su.lids| && self == su.lids[i] < |cl| && cl[self].numBlocks == |cl[self].blocks|
      invariant |clusters| <= |cl|
      invariant moved <= quota && index <= |cl[self].blocks| && Passed(cl[self].blocks, index, n)
      invariant added0 <= added && forall x :: x in added && x !in added0 ==> |clusters| <= x < |cl|
      invariant KeepsNames(clusters, cl)
      decreases |cl[self].blocks| - index
    {
      var block := cl[self].blocks[index];
      if block.kind == Data && block.stripe == n {
        assert Is(block, Data, n) by { IsMeans(block, n); }
        var target := ChooseTarget(su, cl, order, added, self, block.group);
        GroupIsSelf(su, clusters, rows0, cl, rows, order, added, n, i, moved, index);
        rows := MovingStep(su, clusters, rows0, cl, rows, order, added, n, i, moved, index, target);
        ghost var before := cl[self].blocks;
        var c := TargetCluster(cl, order, target);
        added := AddedTo(cl, added, target);
        RelocatedLength(cl, self, index, c);
        RelocatedNames(cl, self, index, c);
        KeepsTrans(clusters, cl, Relocated(cl, self, index, c));
        cl := Relocated(cl, self, index, c);
        PassedPop(before, index, n);
        moved := moved + 1;
        MovingFacts(su, clusters, rows0, cl, rows, order, added, n, i, moved);
      } else {
        PassedMore(cl[self].blocks, index, n) by { IsMeans(block, n); }
        index := index + 1;
      }
    }
    if moved != quota {
      NoneLeft(cl[self].blocks, n);
      AllMoved(su, clusters, rows0, cl, rows, order, added, n, i, moved);
    }
  }

  lemma MovingFacts(su: Setup, was: seq<Cluster>, rows0: Rows, cl: seq<Cluster>, rows: Rows, order: seq<nat>,
                    added: set<nat>,
                    n: nat, i: nat, moved: nat)
    requires Moving(su, was, rows0, cl, rows, order, added, n, i, moved)
    ensures i < |su.lids| && su.lids[i] < |cl| && cl[su.lids[i]].numBlocks == |cl[su.lids[i]].blocks| && |was| <= |cl|
  {
    assert ClusterOk(su, rows, su.lids[i], cl[su.lids[i]]);
  }

  lemma IsMeans(b: Block, n: nat)
    ensures Is(b, Data, n) <==> b.kind == Data && b.stripe == n
  {
  }

  lemma PassedNone(s: seq<Block>, n: nat)
    ensures Passed(s, 0, n)
  {
  }

  lemma PassedPop(s: seq<Block>, index: nat, n: nat)
    requires index < |s| && Passed(s, index, n)
    ensures Passed(Pop(s, index), index, n)
  {
  }

  lemma PassedMore(s: seq<Block>, index: nat, n: nat)
    requires index < |s| && Passed(s, index, n) && !Is(s[index], Data, n)
    ensures Passed(s, index + 1, n)
  {
  }

  lemma GroupIsSelf(su: Setup, was: seq<Cluster>, rows0: Rows, cl: seq<Cluster>, rows: Rows, order: seq<nat>,
                    added: set<nat>,
                    n: nat, i: nat, moved: nat, index: nat)
    requires Moving(su, was, rows0, cl, rows, order, added, n, i, moved)
    requires index < |cl[su.lids[i]].blocks| && Is(cl[su.lids[i]].blocks[index], Data, n)
    ensures cl[su.lids[i]].blocks[index].group == i
  {
    hide World, Relocating, OnlyGroup, AllData;
    SelfFacts(su, cl, rows, n, i, index);
  }

  /** Without loose data left, all of it has been moved. */
  lemma AllMoved(su: Setup, was: seq<Cluster>, rows0: Rows, cl: seq<Cluster>, rows: Rows, order: seq<nat>,
                 added: set<nat>,
                 n: nat, i: nat, moved: nat)
    requires Moving(su, was, rows0, cl, rows, order, added, n, i, moved) && Count(cl[su.lids[i]].blocks, Data, n) == 0
    ensures moved == rows0[n].lam[i]
  {
    hide Relocating, OnlyGroup, AllData, ClusterOk;
    assert RowOk(su, cl, n, rows[n]);
    assert GroupCounts(su, cl, n, rows[n], i);
  }
}

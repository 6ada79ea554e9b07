/**
 * The ids of the simulation's blocks: which parities a stripe has, by name,
 * and which data blocks belong to which stripe and group.
 */
module SimNames {
  import opened SimClusters
  import opened SimSums
  import opened SimState
  import opened SimRelabel
  import opened Arithmetic

  // ---- Copies of a block ----

  ghost function Copies(s: seq<Block>, b: Block): nat {
    multiset(s)[b]
  }

  lemma CopiesSnoc(s: seq<Block>, x: Block, b: Block)
    ensures Copies(s + [x], b) == Copies(s, b) + if b == x then 1 else 0
  {
  }

  lemma CopiesLast(s: seq<Block>, b: Block)
    requires s != []
    ensures Copies(s, b) == Copies(s[..|s| - 1], b) + if b == s[|s| - 1] then 1 else 0
  {
    assert s == s[..|s| - 1] + [s[|s| - 1]];
  }

  lemma CopiesIn(s: seq<Block>, b: Block)
    ensures Copies(s, b) > 0 <==> b in s
  {
  }

  lemma {:induction false} RemainingCopies(s: seq<Block>, n: nat, kind: Kind, b: Block)
    ensures Copies(Remaining(s, n, kind), b) == if Goes(b, n, kind) then 0 else Copies(s, b)
  {
    hide Copies;
    if s == [] {
      CopiesIn(s, b);
    } else {
      RemainingCopies(s[..|s| - 1], n, kind, b);
      CopiesLast(s, b);
      CopiesSnoc(Remaining(s[..|s| - 1], n, kind), s[|s| - 1], b);
    }
  }

  lemma PoppedCopies(s: seq<Block>, i: nat, b: Block)
    requires i < |s|
    ensures Copies(Pop(s, i), b) == Copies(s, b) - if b == s[i] then 1 else 0
  {
    assert s == s[..i] + [s[i]] + s[i + 1..];
  }

  /** How often cluster c holds a block. */
  ghost function Held(cl: seq<Cluster>, c: nat, b: Block): nat {
    if c < |cl| then Copies(cl[c].blocks, b) else 0
  }

  // ---- Names of parities ----

  /** The parities of a stripe: global ones n*g .. n*g + g - 1, and n*l + i for group i, each in its cluster. */
  ghost predicate Proper(su: Setup, b: Block) {
    match b.kind
    case Data => false
    case Global => b.group == su.l && b.cluster == su.gid && b.stripe * su.g <= b.id < b.stripe * su.g + su.g
    case Local => b.group < su.l && |su.lids| == su.l && b.cluster == su.lids[b.group] && b.id == b.stripe * su.l + b.group
  }

  /** The stripe has its parities, each once and nowhere else, and no others. */
  ghost predicate ParitiesNamed(su: Setup, cl: seq<Cluster>, sid: nat) {
    forall c: nat, b: Block :: b.kind != Data && b.stripe == sid ==>
      Held(cl, c, b) == if Proper(su, b) && b.cluster == c then 1 else 0
  }

  // ---- Names of data ----

  /** Some cluster holds a data block with that id, group and stripe. */
  ghost predicate Has(cl: seq<Cluster>, id: nat, group: nat, stripe: nat) {
    exists c: nat, b: Block :: IsHeld(cl, c, b, id, group, stripe)
  }

  ghost predicate IsHeld(cl: seq<Cluster>, c: nat, b: Block, id: nat, group: nat, stripe: nat) {
    Held(cl, c, b) > 0 && b.kind == Data && b.id == id && b.group == group && b.stripe == stripe
  }

  /** The ids of stripe sid's data are those of the stripes first .. first + count - 1 that it comes from. */
  ghost predicate DataNamed(cl: seq<Cluster>, sid: nat, first: nat, count: nat, l: nat, b: nat) {
    forall id: nat, group: nat :: Has(cl, id, group, sid) ==>
      l > 0 && b > 0 && group == (id / b) % l && first <= (id / b) / l < first + count
  }

  // ---- Steps ----

  /** Parities stay where they are, and all data was there before. */
  ghost predicate KeepsNames(cl: seq<Cluster>, cl': seq<Cluster>) {
    (forall c: nat, b: Block :: b.kind != Data ==> Held(cl', c, b) == Held(cl, c, b)) && DataFrom(cl, cl')
  }

  ghost predicate DataFrom(cl: seq<Cluster>, cl': seq<Cluster>) {
    forall id: nat, group: nat, stripe: nat :: Has(cl', id, group, stripe) ==> Has(cl, id, group, stripe)
  }

  lemma KeepsRefl(cl: seq<Cluster>)
    ensures KeepsNames(cl, cl)
  {
  }

  lemma KeepsTrans(cl: seq<Cluster>, cl': seq<Cluster>, cl'': seq<Cluster>)
    requires KeepsNames(cl, cl') && KeepsNames(cl', cl'')
    ensures KeepsNames(cl, cl'')
  {
    hide Held, Has;
  }

  /** One cluster is replaced by one with the same data. */
  lemma SameDataBlocks(cl: seq<Cluster>, c: nat, k: Cluster)
    requires c < |cl| && forall b: Block :: b.kind == Data ==> Copies(k.blocks, b) == Copies(cl[c].blocks, b)
    ensures DataFrom(cl, cl[c := k])
  {
    hide Copies;
    var cl' := cl[c := k];
    forall id: nat, group: nat, stripe: nat | Has(cl', id, group, stripe)
      ensures Has(cl, id, group, stripe)
    {
      var d: nat, b: Block :| IsHeld(cl', d, b, id, group, stripe);
      assert IsHeld(cl, d, b, id, group, stripe);
    }
  }

  /** In a consistent state a parity is only where it may be ... */
  lemma ParityWhere(su: Setup, cl: seq<Cluster>, rows: Rows, c: nat, b: Block)
    requires World(su, cl, rows) && Held(cl, c, b) > 0 && b.kind != Data
    ensures c < |cl| && cl[c].kind == KindOf(su, c) != Data && AllowedAt(su, c, b) && b.cluster == c && b.stripe in rows
  {
    hide RowOk;
    CopiesIn(cl[c].blocks, b);
    assert ClusterOk(su, rows, c, cl[c]);
    var i :| 0 <= i < |cl[c].blocks| && cl[c].blocks[i] == b;
  }

  /** ... and all data is of existing stripes. */
  lemma DataKnown(su: Setup, cl: seq<Cluster>, rows: Rows, id: nat, group: nat, stripe: nat)
    requires World(su, cl, rows) && Has(cl, id, group, stripe)
    ensures stripe in rows
  {
    hide RowOk, Counted;
    var c: nat, b: Block :| IsHeld(cl, c, b, id, group, stripe);
    CopiesIn(cl[c].blocks, b);
    assert ClusterOk(su, rows, c, cl[c]);
    var i :| 0 <= i < |cl[c].blocks| && cl[c].blocks[i] == b;
  }

  // ---- Relabelling ----

  lemma {:induction false} RelabelCopies(s: seq<Block>, lo: nat, hi: nat, n: nat, b: Block)
    requires b.stripe != n && !(lo <= b.stripe < hi)
    ensures Copies(RelabelSeq(s, lo, hi, n), b) == Copies(s, b)
  {
    hide Copies, RelabelSeq;
    if s == [] {
      assert RelabelSeq(s, lo, hi, n) == [];
    } else {
      RelabelCopies(s[..|s| - 1], lo, hi, n, b);
      RelabelSnoc(s, lo, hi, n);
      CopiesLast(s, b);
      CopiesSnoc(RelabelSeq(s[..|s| - 1], lo, hi, n), RelabelBlock(s[|s| - 1], lo, hi, n), b);
    }
  }

  /** All data of the range is now data of stripe n; other data stays with its stripe. */
  ghost predicate DataMerged(cl: seq<Cluster>, cl': seq<Cluster>, lo: nat, hi: nat, n: nat) {
    forall id: nat, group: nat, stripe: nat :: Has(cl', id, group, stripe) ==>
      if stripe == n then HadBy(cl, id, group, lo, hi) else !(lo <= stripe < hi) && Has(cl, id, group, stripe)
  }

  ghost predicate HadBy(cl: seq<Cluster>, id: nat, group: nat, lo: nat, hi: nat) {
    exists o: nat :: lo <= o < hi && Has(cl, id, group, o)
  }

  lemma RelabelNames(su: Setup, cl: seq<Cluster>, rows: Rows, lo: nat, hi: nat, n: nat)
    requires World(su, cl, rows) && lo < hi && n <= lo && (n in rows ==> n == lo)
    ensures DataMerged(cl, RelabelAll(cl, lo, hi, n), lo, hi, n)
    ensures forall c: nat, b: Block :: b.stripe != n && !(lo <= b.stripe < hi) ==>
      Held(RelabelAll(cl, lo, hi, n), c, b) == Held(cl, c, b)
  {
    hide World, Copies, RelabelSeq;
    var cl' := RelabelAll(cl, lo, hi, n);
    forall c: nat, b: Block | b.stripe != n && !(lo <= b.stripe < hi)
      ensures Held(cl', c, b) == Held(cl, c, b)
    {
      if c < |cl| {
        RelabelCopies(cl[c].blocks, lo, hi, n, b);
      }
    }
    forall id: nat, group: nat, stripe: nat | Has(cl', id, group, stripe)
      ensures if stripe == n then HadBy(cl, id, group, lo, hi) else !(lo <= stripe < hi) && Has(cl, id, group, stripe)
    {
      var s := Origin(cl, lo, hi, n, id, group, stripe);
      DataKnown(su, cl, rows, id, group, s);
    }
  }

  /** Where a relabelled data block comes from. */
  lemma Origin(cl: seq<Cluster>, lo: nat, hi: nat, n: nat, id: nat, group: nat, stripe: nat) returns (s: nat)
    requires Has(RelabelAll(cl, lo, hi, n), id, group, stripe)
    ensures Has(cl, id, group, s) && stripe == if lo <= s < hi then n else s
  {
    var cl' := RelabelAll(cl, lo, hi, n);
    var c: nat, b: Block :| IsHeld(cl', c, b, id, group, stripe);
    CopiesIn(cl'[c].blocks, b);
    var i :| 0 <= i < |cl'[c].blocks| && cl'[c].blocks[i] == b;
    var was := cl[c].blocks[i];
    CopiesIn(cl[c].blocks, was);
    s := was.stripe;
    assert IsHeld(cl, c, was, id, group, s);
  }

  lemma MergedThenKept(cl: seq<Cluster>, cl': seq<Cluster>, cl'': seq<Cluster>, lo: nat, hi: nat, n: nat)
    requires DataMerged(cl, cl', lo, hi, n) && DataFrom(cl', cl'')
    ensures DataMerged(cl, cl'', lo, hi, n)
  {
    hide Has, HadBy;
  }

  // ---- Recomputing parities ----

  /** Only blocks of one kind and stripe have come or gone. */
  ghost predicate Swapped(s: seq<Block>, u: seq<Block>, n: nat, kind: Kind) {
    forall b: Block :: !Goes(b, n, kind) ==> Copies(u, b) == Copies(s, b)
  }

  lemma SwappedOut(s: seq<Block>, n: nat, kind: Kind)
    ensures Swapped(s, Remaining(s, n, kind), n, kind)
    ensures forall b: Block :: Goes(b, n, kind) ==> Copies(Remaining(s, n, kind), b) == 0
  {
    hide Copies, Goes;
    forall b: Block
      ensures Copies(Remaining(s, n, kind), b) == if Goes(b, n, kind) then 0 else Copies(s, b)
    {
      RemainingCopies(s, n, kind, b);
    }
  }

  lemma SwappedIn(s: seq<Block>, u: seq<Block>, x: Block, n: nat, kind: Kind)
    requires Swapped(s, u, n, kind) && Goes(x, n, kind)
    ensures Swapped(s, u + [x], n, kind)
    ensures forall b: Block :: Copies(u + [x], b) == Copies(u, b) + if b == x then 1 else 0
  {
    hide Copies;
    forall b: Block
      ensures Copies(u + [x], b) == Copies(u, b) + if b == x then 1 else 0
    {
      CopiesSnoc(u, x, b);
    }
  }

  /** The first j new global parities of stripe n, each once. */
  ghost predicate GlobalsNamed(su: Setup, s: seq<Block>, c: nat, n: nat, j: nat) {
    forall b: Block :: Goes(b, n, Global) ==>
      Copies(s, b) == if b.group == su.l && b.cluster == c && n * su.g <= b.id < n * su.g + j then 1 else 0
  }

  /** The new local parities of stripe n for some groups, each once. */
  ghost predicate LocalsNamed(su: Setup, s: seq<Block>, c: nat, n: nat, groups: set<nat>) {
    forall b: Block :: Goes(b, n, Local) ==>
      Copies(s, b) == if b.group in groups && b.cluster == c && b.id == n * su.l + b.group then 1 else 0
  }

  lemma OneMoreGlobal(su: Setup, s: seq<Block>, c: nat, n: nat, j: nat, x: Block)
    requires GlobalsNamed(su, s, c, n, j) && x.kind == Global && x.id == n * su.g + j && x.group == su.l
    requires x.stripe == n && x.cluster == c
    ensures GlobalsNamed(su, s + [x], c, n, j + 1)
  {
    hide Copies;
    forall b: Block | Goes(b, n, Global)
      ensures Copies(s + [x], b) == if b.group == su.l && b.cluster == c && n * su.g <= b.id < n * su.g + j + 1 then 1 else 0
    {
      CopiesSnoc(s, x, b);
    }
  }

  lemma OneMoreLocal(su: Setup, s: seq<Block>, c: nat, n: nat, groups: set<nat>, x: Block)
    requires LocalsNamed(su, s, c, n, groups) && x.group !in groups
    requires x.kind == Local && x.id == n * su.l + x.group && x.stripe == n && x.cluster == c
    ensures LocalsNamed(su, s + [x], c, n, groups + {x.group})
  {
    hide Copies;
    forall b: Block | Goes(b, n, Local)
      ensures Copies(s + [x], b) ==
        if b.group in groups + {x.group} && b.cluster == c && b.id == n * su.l + b.group then 1 else 0
    {
      CopiesSnoc(s, x, b);
    }
  }

  /** New global parities in the state. */
  lemma GlobalsRenamed(su: Setup, cl: seq<Cluster>, k: Cluster, n: nat)
    requires su.gid < |cl| && Swapped(cl[su.gid].blocks, k.blocks, n, Global)
    ensures DataFrom(cl, cl[su.gid := k])
    ensures forall c: nat, b: Block :: b.stripe != n ==> Held(cl[su.gid := k], c, b) == Held(cl, c, b)
  {
    hide Copies;
    SameDataBlocks(cl, su.gid, k);
  }

  // ---- Recomputing local parities, cluster by cluster ----

  /** The clusters in `done` have the new local parities of stripe n; the others are as they were. */
  ghost predicate LocalsDuring(su: Setup, was: seq<Cluster>, cl: seq<Cluster>, n: nat, done: set<nat>) {
    (forall c: nat, b: Block :: b.kind != Data && !Goes(b, n, Local) ==> Held(cl, c, b) == Held(was, c, b)) &&
    (forall c: nat, b: Block :: Goes(b, n, Local) ==>
       Held(cl, c, b) == if c !in done then Held(was, c, b) else if Proper(su, b) && b.cluster == c then 1 else 0) &&
    DataFrom(was, cl)
  }

  lemma NothingRenamed(su: Setup, was: seq<Cluster>, n: nat)
    ensures LocalsDuring(su, was, was, n, {})
  {
    hide Held, Has;
  }

  /** A cluster that is not of local parities has none. */
  lemma LocalsPassed(su: Setup, was: seq<Cluster>, cl: seq<Cluster>, rows: Rows, n: nat, done: set<nat>, c: nat)
    requires LocalsDuring(su, was, cl, n, done) && World(su, cl, rows) && c < |cl| && cl[c].kind != Local
    ensures LocalsDuring(su, was, cl, n, done + {c})
  {
    hide Held, Has, RowOk;
    var done' := done + {c};
    forall d: nat, b: Block | Goes(b, n, Local)
      ensures Held(cl, d, b) == if d !in done' then Held(was, d, b) else if Proper(su, b) && b.cluster == d then 1 else 0
    {
      if d == c {
        assert ClusterOk(su, rows, c, cl[c]);
        if Held(cl, c, b) > 0 {
          ParityWhere(su, cl, rows, c, b);
        }
      }
    }
  }

  /** A cluster gets its new local parities. */
  lemma LocalsRenamed(su: Setup, was: seq<Cluster>, cl: seq<Cluster>, n: nat, done: set<nat>, c: nat, k: Cluster,
                      groups: set<nat>)
    requires LocalsDuring(su, was, cl, n, done) && c < |cl| && c !in done
    requires Swapped(cl[c].blocks, k.blocks, n, Local) && LocalsNamed(su, k.blocks, c, n, groups)
    requires |su.lids| == su.l && forall i: nat :: i in groups <==> i < su.l && su.lids[i] == c
    ensures LocalsDuring(su, was, cl[c := k], n, done + {c})
  {
    hide Has, Copies;
    SameDataBlocks(cl, c, k);
    FromTrans(was, cl, cl[c := k]);
    var cl', done' := cl[c := k], done + {c};
    forall d: nat, b: Block | b.kind != Data && !Goes(b, n, Local)
      ensures Held(cl', d, b) == Held(was, d, b)
    {
      assert Held(cl', d, b) == Held(cl, d, b);
    }
    forall d: nat, b: Block | Goes(b, n, Local)
      ensures Held(cl', d, b) == if d !in done' then Held(was, d, b) else if Proper(su, b) && b.cluster == d then 1 else 0
    {
      if d != c {
        assert Held(cl', d, b) == Held(cl, d, b);
      }
    }
  }

  lemma FromTrans(cl: seq<Cluster>, cl': seq<Cluster>, cl'': seq<Cluster>)
    requires DataFrom(cl, cl') && DataFrom(cl', cl'')
    ensures DataFrom(cl, cl'')
  {
    hide Has;
  }

  lemma LocalsKept(su: Setup, was: seq<Cluster>, cl: seq<Cluster>, cl': seq<Cluster>, n: nat, done: set<nat>)
    requires LocalsDuring(su, was, cl, n, done) && KeepsNames(cl, cl')
    ensures LocalsDuring(su, was, cl', n, done)
  {
    hide Has, Held;
  }

  // ---- A whole batch ----

  /** What a batch does to the names. */
  ghost predicate BatchNamed(su: Setup, cl: seq<Cluster>, cl': seq<Cluster>, lo: nat, hi: nat, n: nat) {
    ParitiesNamed(su, cl', n) && DataMerged(cl, cl', lo, hi, n) &&
    forall o: nat :: o != n && !(lo <= o < hi) && ParitiesNamed(su, cl, o) ==> ParitiesNamed(su, cl', o)
  }

  lemma BatchIsNamed(su: Setup, cl0: seq<Cluster>, rows0: Rows, cl: seq<Cluster>, k: Cluster, was: seq<Cluster>,
                     cl': seq<Cluster>, rows: Rows, lo: nat, hi: nat, n: nat, done: set<nat>)
    requires World(su, cl0, rows0) && lo < hi && n <= lo && (n in rows0 ==> n == lo)
    requires cl == RelabelAll(cl0, lo, hi, n) && su.gid < |cl| && was == cl[su.gid := k]
    requires Swapped(cl[su.gid].blocks, k.blocks, n, Global) && GlobalsNamed(su, k.blocks, su.gid, n, su.g)
    requires LocalsDuring(su, was, cl', n, done) && World(su, cl', rows)
    requires |su.lids| == su.l && forall i :: 0 <= i < |su.lids| ==> su.lids[i] in done
    ensures BatchNamed(su, cl0, cl', lo, hi, n)
  {
    hide Held, Has, HadBy, World, RelabelAll, Proper, Swapped, GlobalsNamed, AllowedAt;
    RelabelNames(su, cl0, rows0, lo, hi, n);
    GlobalsRenamed(su, cl, k, n);
    FromTrans(cl, was, cl');
    MergedThenKept(cl0, cl, cl', lo, hi, n);
    forall c: nat, b: Block | b.kind != Data && b.stripe == n
      ensures Held(cl', c, b) == if Proper(su, b) && b.cluster == c then 1 else 0
    {
      NewParity(su, cl, k, was, cl', rows, n, done, c, b);
    }
    forall o: nat | o != n && !(lo <= o < hi) && ParitiesNamed(su, cl0, o)
      ensures ParitiesNamed(su, cl', o)
    {
      forall c: nat, b: Block | b.kind != Data && b.stripe == o
        ensures Held(cl', c, b) == if Proper(su, b) && b.cluster == c then 1 else 0
      {
        assert Held(cl', c, b) == Held(was, c, b) == Held(cl, c, b) == Held(cl0, c, b);
      }
    }
  }

  lemma NewParity(su: Setup, cl: seq<Cluster>, k: Cluster, was: seq<Cluster>, cl': seq<Cluster>, rows: Rows, n: nat,
                  done: set<nat>, c: nat, b: Block)
    requires su.gid < |cl| && was == cl[su.gid := k]
    requires GlobalsNamed(su, k.blocks, su.gid, n, su.g)
    requires LocalsDuring(su, was, cl', n, done) && World(su, cl', rows)
    requires |su.lids| == su.l && forall i :: 0 <= i < |su.lids| ==> su.lids[i] in done
    requires b.kind != Data && b.stripe == n
    ensures Held(cl', c, b) == if Proper(su, b) && b.cluster == c then 1 else 0
  {
    hide Has, World, DataFrom;
    if Held(cl', c, b) > 0 {
      ParityWhere(su, cl', rows, c, b);
    }
    if b.kind == Global {
      assert Held(cl', c, b) == Held(was, c, b);
    }
  }

  // ---- All stripes ----

  /** Stripes 0..x-1 have their own parities, and the data of `width` original stripes each. */
  ghost predicate AllNamed(su: Setup, cl: seq<Cluster>, x: nat, width: nat, b: nat) {
    forall o: nat :: o < x ==> StripeNamed(su, cl, o, o * width, width, b)
  }

  ghost predicate StripeNamed(su: Setup, cl: seq<Cluster>, o: nat, first: nat, count: nat, b: nat) {
    ParitiesNamed(su, cl, o) && DataNamed(cl, o, first, count, su.l, b)
  }

  /** After t batches of xi stripes each. */
  ghost predicate PartlyNamed(su: Setup, cl: seq<Cluster>, x: nat, width: nat, b: nat, xi: nat, t: nat) {
    (forall o: nat :: o < t ==> StripeNamed(su, cl, o, o * (width * xi), width * xi, b)) &&
    forall o: nat :: t * xi <= o < x ==> StripeNamed(su, cl, o, o * width, width, b)
  }

  /** One more batch. */
  lemma BatchNames(su: Setup, cl: seq<Cluster>, cl': seq<Cluster>, x: nat, width: nat, b: nat, xi: nat, t: nat)
    requires PartlyNamed(su, cl, x, width, b, xi, t) && BatchNamed(su, cl, cl', t * xi, (t + 1) * xi, t)
    requires xi > 0 && (t + 1) * xi <= x
    ensures PartlyNamed(su, cl', x, width, b, xi, t + 1)
  {
    hide ParitiesNamed, Has;
    assert (t + 1) * xi == t * xi + xi;
    Grows(t, xi);
    forall o: nat | o < t + 1
      ensures StripeNamed(su, cl', o, o * (width * xi), width * xi, b)
    {
      if o < t {
        assert StripeNamed(su, cl, o, o * (width * xi), width * xi, b);
      } else {
        MergedNamed(su, cl, cl', width, b, xi, t);
      }
    }
    forall o: nat | (t + 1) * xi <= o < x
      ensures StripeNamed(su, cl', o, o * width, width, b)
    {
      assert StripeNamed(su, cl, o, o * width, width, b);
    }
  }

  lemma Grows(t: nat, xi: nat)
    requires xi > 0
    ensures t <= t * xi
  {
  }

  /** The merged stripe's data: that of xi neighbours. */
  lemma MergedNamed(su: Setup, cl: seq<Cluster>, cl': seq<Cluster>, width: nat, b: nat, xi: nat, t: nat)
    requires BatchNamed(su, cl, cl', t * xi, (t + 1) * xi, t) && xi > 0
    requires forall o: nat :: t * xi <= o < (t + 1) * xi ==> StripeNamed(su, cl, o, o * width, width, b)
    ensures StripeNamed(su, cl', t, t * (width * xi), width * xi, b)
  {
    hide ParitiesNamed, Has;
    forall id: nat, group: nat | Has(cl', id, group, t)
      ensures su.l > 0 && b > 0 && group == (id / b) % su.l &&
        t * (width * xi) <= (id / b) / su.l < t * (width * xi) + width * xi
    {
      var o: nat :| t * xi <= o < (t + 1) * xi && Has(cl, id, group, o);
      assert StripeNamed(su, cl, o, o * width, width, b);
      WithinBatch(t, xi, width, o);
    }
  }

  lemma WithinBatch(t: nat, xi: nat, width: nat, o: nat)
    requires t * xi <= o < (t + 1) * xi
    ensures t * (width * xi) <= o * width && o * width + width <= t * (width * xi) + width * xi
  {
    var d := o - t * xi;
    assert o * width == t * (width * xi) + d * width;
    var e := xi - d - 1;
    assert (t + 1) * xi == t * xi + xi;
    assert width * xi == d * width + width + e * width;
    NonNegativeProduct(d, width);
    NonNegativeProduct(e, width);
  }

  // ---- No two parities share a name ----

  /** Every parity is there once, and no two of one kind have the same id. */
  ghost predicate ParitiesApart(cl: seq<Cluster>) {
    forall c: nat, b: Block, c': nat, b': Block ::
      Held(cl, c, b) > 0 && Held(cl, c', b') > 0 && b.kind == b'.kind != Data && b.id == b'.id ==>
        c == c' && b == b' && Held(cl, c, b) == 1
  }

  lemma NamesApart(su: Setup, cl: seq<Cluster>, rows: Rows, x: nat, width: nat, b: nat)
    requires World(su, cl, rows) && (forall o: nat :: o in rows <==> o < x) && AllNamed(su, cl, x, width, b)
    ensures ParitiesApart(cl)
  {
    hide World, DataNamed, Held;
    forall c: nat, p: Block, c': nat, p': Block |
        Held(cl, c, p) > 0 && Held(cl, c', p') > 0 && p.kind == p'.kind != Data && p.id == p'.id
      ensures c == c' && p == p' && Held(cl, c, p) == 1
    {
      HasItsName(su, cl, rows, x, width, b, c, p);
      HasItsName(su, cl, rows, x, width, b, c', p');
      OneName(su, p, p');
    }
  }

  lemma HasItsName(su: Setup, cl: seq<Cluster>, rows: Rows, x: nat, width: nat, b: nat, c: nat, p: Block)
    requires World(su, cl, rows) && (forall o: nat :: o in rows <==> o < x) && AllNamed(su, cl, x, width, b)
    requires Held(cl, c, p) > 0 && p.kind != Data
    ensures Proper(su, p) && p.cluster == c && Held(cl, c, p) == 1
  {
    hide World, DataNamed, Held, Proper;
    ParityWhere(su, cl, rows, c, p);
    assert StripeNamed(su, cl, p.stripe, p.stripe * width, width, b);
  }

  lemma OneName(su: Setup, p: Block, q: Block)
    requires Proper(su, p) && Proper(su, q) && p.kind == q.kind && p.id == q.id
    ensures p == q
  {
    if p.kind == Global {
      Split(p.stripe, su.g, p.id - p.stripe * su.g, p.id);
      Split(q.stripe, su.g, q.id - q.stripe * su.g, q.id);
    } else {
      Split(p.stripe, su.l, p.group, p.id);
      Split(q.stripe, su.l, q.group, q.id);
    }
  }

  // ---- The names at the start ----

  /** A data block's id tells its group and stripe. */
  ghost predicate ProperData(l: nat, b: nat, block: Block) {
    block.kind == Data ==> l > 0 && b > 0 && block.group == (block.id / b) % l && block.stripe == (block.id / b) / l
  }

  ghost predicate AllProper(s: seq<Block>, l: nat, b: nat) {
    forall t :: 0 <= t < |s| ==> ProperData(l, b, s[t])
  }

  ghost predicate ClustersProper(cl: seq<Cluster>, l: nat, b: nat) {
    forall c :: 0 <= c < |cl| ==> AllProper(cl[c].blocks, l, b)
  }

  lemma ProperMore(s: seq<Block>, x: Block, l: nat, b: nat)
    requires AllProper(s, l, b) && ProperData(l, b, x)
    ensures AllProper(s + [x], l, b)
  {
    hide ProperData;
  }

  lemma ProperClusters(cl: seq<Cluster>, k: Cluster, l: nat, b: nat)
    requires ClustersProper(cl, l, b) && AllProper(k.blocks, l, b)
    ensures ClustersProper(cl + [k], l, b)
  {
    hide AllProper;
  }

  lemma ProperIsNamed(cl: seq<Cluster>, l: nat, b: nat, o: nat)
    requires ClustersProper(cl, l, b)
    ensures DataNamed(cl, o, o, 1, l, b)
  {
    forall id: nat, group: nat | Has(cl, id, group, o)
      ensures l > 0 && b > 0 && group == (id / b) % l && o <= (id / b) / l < o + 1
    {
      var c: nat, block: Block :| IsHeld(cl, c, block, id, group, o);
      CopiesIn(cl[c].blocks, block);
      assert AllProper(cl[c].blocks, l, b);
      var t :| 0 <= t < |cl[c].blocks| && cl[c].blocks[t] == block;
      assert ProperData(l, b, block);
    }
  }

  /** All blocks are data. */
  ghost predicate OnlyData(cl: seq<Cluster>) {
    forall c: nat, b: Block :: b.kind != Data ==> Held(cl, c, b) == 0
  }

  /** The local parity of group i of one of the first x stripes. */
  ghost predicate FirstLocal(l: nat, c: nat, i: nat, x: nat, b: Block) {
    b.kind == Local && b.group == i && b.stripe < x && b.id == b.stripe * l + i && b.cluster == c
  }

  /** A global parity of one of the first x stripes, or one of the first t of stripe x. */
  ghost predicate FirstGlobal(g: nat, l: nat, c: nat, x: nat, t: nat, b: Block) {
    b.kind == Global && b.group == l && b.cluster == c && b.stripe * g <= b.id &&
    ((b.stripe < x && b.id < b.stripe * g + g) || (b.stripe == x && b.id < b.stripe * g + t))
  }

  /** The local parities of group i of x stripes are new in the list. */
  ghost predicate LocalsPut(s: seq<Block>, u: seq<Block>, l: nat, c: nat, i: nat, x: nat) {
    forall b: Block :: b.kind != Data ==> Copies(u, b) == Copies(s, b) + if FirstLocal(l, c, i, x, b) then 1 else 0
  }

  ghost predicate GlobalsPut(s: seq<Block>, u: seq<Block>, g: nat, l: nat, c: nat, x: nat, t: nat) {
    forall b: Block :: b.kind != Data ==>
      Copies(u, b) == Copies(s, b) + if FirstGlobal(g, l, c, x, t, b) then 1 else 0
  }

  /** Only data is new. */
  ghost predicate DataPut(s: seq<Block>, u: seq<Block>) {
    forall b: Block :: b.kind != Data ==> Copies(u, b) == Copies(s, b)
  }

  lemma NothingPut(s: seq<Block>, g: nat, l: nat, c: nat, i: nat)
    ensures DataPut(s, s) && LocalsPut(s, s, l, c, i, 0) && GlobalsPut(s, s, g, l, c, 0, 0)
  {
    hide Copies;
  }

  lemma PutData(s: seq<Block>, u: seq<Block>, x: Block)
    requires DataPut(s, u) && x.kind == Data
    ensures DataPut(s, u + [x])
  {
    hide Copies;
    forall b: Block | b.kind != Data
      ensures Copies(u + [x], b) == Copies(s, b)
    {
      CopiesSnoc(u, x, b);
    }
  }

  /** The remainder of stripe j: its data and its local parity. */
  lemma PutLocal(s: seq<Block>, u: seq<Block>, v: seq<Block>, l: nat, c: nat, i: nat, j: nat, x: Block)
    requires LocalsPut(s, u, l, c, i, j) && DataPut(u, v) && x == Block(Local, i + j * l, i, j, c)
    ensures LocalsPut(s, v + [x], l, c, i, j + 1)
  {
    hide Copies;
    forall b: Block | b.kind != Data
      ensures Copies(v + [x], b) == Copies(s, b) + if FirstLocal(l, c, i, j + 1, b) then 1 else 0
    {
      CopiesSnoc(v, x, b);
    }
  }

  lemma PutGlobal(s: seq<Block>, u: seq<Block>, g: nat, l: nat, c: nat, i: nat, t: nat, x: Block)
    requires GlobalsPut(s, u, g, l, c, i, t) && x == Block(Global, t + i * g, l, i, c)
    ensures GlobalsPut(s, u + [x], g, l, c, i, t + 1)
  {
    hide Copies;
    forall b: Block | b.kind != Data
      ensures Copies(u + [x], b) == Copies(s, b) + if FirstGlobal(g, l, c, i, t + 1, b) then 1 else 0
    {
      CopiesSnoc(u, x, b);
    }
  }

  lemma PutNextStripe(s: seq<Block>, u: seq<Block>, g: nat, l: nat, c: nat, i: nat)
    requires GlobalsPut(s, u, g, l, c, i, g)
    ensures GlobalsPut(s, u, g, l, c, i + 1, 0)
  {
    hide Copies;
    var next := i + 1;
    forall b: Block | b.kind != Data
      ensures Copies(u, b) == Copies(s, b) + if FirstGlobal(g, l, c, next, 0, b) then 1 else 0
    {
      assert FirstGlobal(g, l, c, next, 0, b) <==> FirstGlobal(g, l, c, i, g, b);
    }
  }
}

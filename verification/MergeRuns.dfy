/**
 * Runs of uploads and merges, with whatever the environment does to the steps
 * of the merges: nothing is ever unreadable, and no data block is lost,
 * duplicated or changed.
 */
module MergeRuns {
  import opened LinearAlgebra
  import opened MergeConfig
  import opened MergePlan
  import opened MergeParity
  import opened MergeTables
  import opened MergeCommit
  import opened MergeIndexed
  import opened MergeFiles
  import opened MergeProtocol
  import opened MergePlacement
  import opened MergeUpload

  datatype Request =
    | MergePair(a: nat, b: nat, round: int, target: nat, env: Environment)
    | Upload(stripe: Stripe, spots: seq<Spot>, data: Matrix)

  /** Block p is data block i of stripe s. */
  predicate Holds(t: Tables, s: nat, i: nat, p: nat) {
    DataAt(t, s, i) && t.stripes[s].blocks[i] == p
  }

  ghost predicate IsData(t: Tables, p: nat) {
    exists s, i :: Holds(t, s, i, p)
  }

  /** The same data blocks, under the same keys. */
  ghost predicate SameData(t: Tables, t': Tables) {
    (forall p :: IsData(t, p) <==> IsData(t', p)) &&
    forall p :: IsData(t, p) ==> BlockAt(t', p).key == BlockAt(t, p).key
  }

  /** Every data block has one position only. */
  ghost predicate HeldAtMostOnce(t: Tables) {
    forall s, i, s', i', p :: Holds(t, s, i, p) && Holds(t, s', i', p) ==> s == s' && i == i'
  }

  lemma NoDuplicates(baseK: nat, t: Tables)
    requires Sane(baseK, t)
    ensures HeldAtMostOnce(t)
  {
    hide Sane, Holds;
    forall s, i, s', i', p | Holds(t, s, i, p) && Holds(t, s', i', p)
      ensures s == s' && i == i'
    {
      HeldOnce(baseK, t, s, i, s', i', p);
    }
  }

  lemma HeldOnce(baseK: nat, t: Tables, s: nat, i: nat, s': nat, i': nat, p: nat)
    requires Sane(baseK, t) && Holds(t, s, i, p) && Holds(t, s', i', p)
    ensures s == s' && i == i'
  {
    hide ParityKey, AllPlaced, RacksOk;
    assert StripeOk(baseK, t, s) && StripeOk(baseK, t, s');
    SourceOk(baseK, t, s, i);
    SourceOk(baseK, t, s', i');
  }

  /** Where a data block of the merged tables comes from ... */
  lemma HeldBefore(baseK: nat, t: Tables, t': Tables, a: nat, b: nat, round: nat, places: map<nat, Place>, task: nat,
                   s: nat, i: nat, p: nat)
    requires Mergeable(baseK, t, a, b, round) && Committed(baseK, t, t', a, b, places, task) && Holds(t', s, i, p)
    ensures IsData(t, p) && At(t', s, i).key == BlockAt(t, p).key && BlockAt(t', p) == At(t', s, i)
  {
    hide Mergeable, Committed, At;
    SameK(baseK, t, a, b, round);
    CommittedStripe(baseK, t, t', a, b, round, places, task, s);
    var k := t.stripes[a].k;
    var x, j := OriginStripe(k, a, b, s, i), OriginIndex(k, a, s, i);
    DataOrigin(baseK, t, t', a, b, round, places, task, s, i);
    if s == a {
      MergedBlock(baseK, t, t', a, b, round, places, task, i);
    }
    assert Holds(t, x, j, p);
    AtIsBlock(t, x, j);
    AtIsBlock(t', s, i);
  }

  lemma AtIsBlock(t: Tables, s: nat, i: nat)
    requires DataAt(t, s, i)
    ensures At(t, s, i) == BlockAt(t, t.stripes[s].blocks[i])
  {
  }

  /** ... and where one of the old tables goes. */
  lemma HeldAfter(baseK: nat, t: Tables, t': Tables, a: nat, b: nat, round: nat, places: map<nat, Place>, task: nat,
                  s: nat, i: nat, p: nat)
    requires Mergeable(baseK, t, a, b, round) && Committed(baseK, t, t', a, b, places, task) && Holds(t, s, i, p)
    ensures IsData(t', p)
  {
    hide Mergeable, Committed, At;
    SameK(baseK, t, a, b, round);
    Survives(baseK, t, t', a, b, round, places, task);
    MergedData(baseK, t, t', map[], a, b, round, places, task);
    var k := t.stripes[a].k;
    if s == a || s == b {
      var j := if s == a then i else k + i;
      PairDiffers(baseK, t, a, b, round);
      MergedBlock(baseK, t, t', a, b, round, places, task, j);
      assert Holds(t', a, j, p);
    } else {
      OtherStays(baseK, t, t', a, b, round, places, task, s);
      assert Holds(t', s, i, p);
    }
  }

  /** A merge keeps all data blocks. */
  lemma CommitKeepsData(baseK: nat, t: Tables, t': Tables, a: nat, b: nat, round: nat, places: map<nat, Place>,
                        task: nat)
    requires Mergeable(baseK, t, a, b, round) && Committed(baseK, t, t', a, b, places, task)
    ensures SameData(t, t')
  {
    hide Mergeable, Committed, At;
    forall p
      ensures IsData(t, p) <==> IsData(t', p)
      ensures IsData(t, p) ==> BlockAt(t', p).key == BlockAt(t, p).key
    {
      if IsData(t, p) {
        var s, i :| Holds(t, s, i, p);
        HeldAfter(baseK, t, t', a, b, round, places, task, s, i, p);
      }
      if IsData(t', p) {
        var s, i :| Holds(t', s, i, p);
        HeldBefore(baseK, t, t', a, b, round, places, task, s, i, p);
      }
    }
  }

  /** Uploads add data blocks, numbered from n on; nothing else changes the data. */
  ghost predicate KeepsData(t: Tables, t': Tables, n: nat) {
    (forall p :: IsData(t, p) ==> IsData(t', p) && BlockAt(t', p).key == BlockAt(t, p).key) &&
    forall p: nat :: IsData(t', p) && p < n ==> IsData(t, p)
  }

  lemma SameDataKeeps(t: Tables, t': Tables, n: nat)
    requires SameData(t, t')
    ensures KeepsData(t, t', n)
  {
    hide Holds, BlockAt;
  }

  lemma KeepsDataTrans(t: Tables, t': Tables, t'': Tables, n: nat, m: nat)
    requires KeepsData(t, t', n) && KeepsData(t', t'', m) && n <= m
    ensures KeepsData(t, t'', n)
  {
    hide IsData, BlockAt;
  }

  lemma UploadKeepsData(baseK: nat, t: Tables, t': Tables, sid: nat, base: nat, s: Stripe, spots: seq<Spot>)
    requires AllStripesOk(baseK, t) && Allocated(t, base) && Added(t, t', sid, base, s, spots)
    ensures KeepsData(t, t', base)
  {
    hide AllStripesOk, Added, At, BlockAt;
    AddedShape(t, t', sid, base, s, spots);
    forall p: nat
      ensures IsData(t, p) ==> IsData(t', p) && BlockAt(t', p).key == BlockAt(t, p).key
      ensures IsData(t', p) && p < base ==> IsData(t, p)
    {
      if IsData(t, p) {
        var o, i :| Holds(t, o, i, p);
        EarlierBlock(baseK, t, t', sid, base, s, spots, o, i);
        AtIsBlock(t, o, i);
        assert Holds(t', o, i, p);
        AtIsBlock(t', o, i);
      }
      if IsData(t', p) && p < base {
        var o, i :| Holds(t', o, i, p);
        if o == sid {
          AddedBlock(t, t', sid, base, s, spots, i);
        } else {
          EarlierStripe(t, t', sid, base, s, spots, o);
          assert Holds(t, o, i, p);
        }
      }
    }
  }

  /** The machines stay, so places stay good. */
  lemma SpotsStay(t: Tables, t': Tables, s: Stripe, spots: seq<Spot>)
    requires SameMachines(t, t') && SpotsOk(t, s, spots)
    ensures SpotsOk(t', s, spots)
  {
    hide OnItsRack, SameMachines;
    forall i | 0 <= i < |spots|
      ensures OnItsRack(t', spots[i].place)
    {
      MachinesPlace(t, t', spots[i].place);
    }
  }

  lemma SameMachinesTrans(t: Tables, t': Tables, t'': Tables)
    requires SameMachines(t, t') && SameMachines(t', t'')
    ensures SameMachines(t, t'')
  {
  }

  lemma SameMachinesRefl(t: Tables)
    ensures SameMachines(t, t)
  {
  }

  /** Later uploads do not touch what is readable. */
  lemma StillReads(baseK: nat, t: Tables, written: map<nat, Bytes>, written': map<nat, Bytes>, len: nat, disk: Disk,
                   base: nat)
    requires AllStripesOk(baseK, t) && Allocated(t, base) && Readable(t, written, len, disk)
    requires Extends(written, written', base)
    ensures Readable(t, written', len, disk)
  {
    hide Expected, At, Location, GroupsOf, BlockOk, WrittenInto;
    forall o | o in t.stripes
      ensures StripeReadable(t, written', len, disk, o)
    {
      assert StripeReadable(t, written, len, disk, o) && StripeOk(baseK, t, o);
      assert DataOf(t, written', o) == DataOf(t, written, o);
    }
  }

  lemma ExtendsTrans(w: map<nat, Bytes>, w': map<nat, Bytes>, w'': map<nat, Bytes>, n: nat, m: nat)
    requires Extends(w, w', n) && Extends(w', w'', m) && n <= m
    ensures Extends(w, w'', n)
  {
    hide WrittenInto;
  }

  /** A moment of the run: tables and files that go together. */
  ghost predicate Sound(baseK: nat, written: map<nat, Bytes>, len: nat, n: nat, s: Snapshot) {
    AllStripesOk(baseK, s.tables) && Allocated(s.tables, n) && Readable(s.tables, written, len, s.disk)
  }

  lemma SoundLater(baseK: nat, written: map<nat, Bytes>, written': map<nat, Bytes>, len: nat, n: nat, m: nat,
                   s: Snapshot)
    requires Sound(baseK, written, len, n, s) && Extends(written, written', n) && n <= m
    ensures Sound(baseK, written', len, m, s)
  {
    hide AllStripesOk, Readable, Extends;
    StillReads(baseK, s.tables, written, written', len, s.disk, n);
  }

  /** Stripes to upload fit the machines, merges have a possible environment. */
  ghost predicate RequestOk(c: Coordinator, t: Tables, q: Request) {
    match q
    case MergePair(_, _, _, _, env) => Possible(env)
    case Upload(s, spots, data) => Unmerged(c.baseK, s) && SpotsOk(t, s, spots) && InRuns(s, spots) && IsMatrix(data, s.k, c.blockSize)
  }

  /**
   * Any sequence of uploads and merges, each merge with its own failures: the
   * tables stay consistent, every block they name is readable at every moment,
   * and all data blocks stay, with the same keys and contents.
   */
  method RunRequests(c: Coordinator, requests: seq<Request>) returns (ghost seen: seq<Snapshot>)
    requires c.Valid() && forall i :: 0 <= i < |requests| ==> RequestOk(c, c.Now(), requests[i])
    modifies c
    ensures c.Valid()
    ensures forall s :: s in seen ==> Readable(s.tables, c.written, c.blockSize, s.disk)
    ensures KeepsData(old(c.Now()), c.Now(), old(c.nextBlock)) && Extends(old(c.written), c.written, old(c.nextBlock))
    ensures HeldAtMostOnce(c.Now())
  {
    hide HeldAtMostOnce, RequestOk, Sound, Readable, KeepsData, Extends, c.Valid, SameMachines;
    seen := [];
    KeepsDataRefl(c.Now(), c.nextBlock);
    ExtendsRefl(c.written, c.nextBlock);
    SameMachinesRefl(c.Now());
    for i := 0 to |requests|
      invariant c.Valid() && old(c.nextBlock) <= c.nextBlock && SameMachines(old(c.Now()), c.Now())
      invariant forall s :: s in seen ==> Sound(c.baseK, c.written, c.blockSize, c.nextBlock, s)
      invariant KeepsData(old(c.Now()), c.Now(), old(c.nextBlock))
      invariant Extends(old(c.written), c.written, old(c.nextBlock))
    {
      ghost var t, written, n := c.Now(), c.written, c.nextBlock;
      RequestStays(c, old(c.Now()), t, requests[i]);
      ghost var more := RunRequest(c, requests[i]);
      KeepsDataTrans(old(c.Now()), t, c.Now(), old(c.nextBlock), n);
      ExtendsTrans(old(c.written), written, c.written, old(c.nextBlock), n);
      SameMachinesTrans(old(c.Now()), t, c.Now());
      forall s | s in seen
        ensures Sound(c.baseK, c.written, c.blockSize, c.nextBlock, s)
      {
        SoundLater(c.baseK, written, c.written, c.blockSize, n, c.nextBlock, s);
      }
      seen := seen + more;
    }
    forall s | s in seen
      ensures Readable(s.tables, c.written, c.blockSize, s.disk)
    {
      SoundReads(c.baseK, c.written, c.blockSize, c.nextBlock, s);
    }
    NoDuplicates(c.baseK, c.Now()) by { ValidParts(c); }
  }

  lemma SoundReads(baseK: nat, written: map<nat, Bytes>, len: nat, n: nat, s: Snapshot)
    requires Sound(baseK, written, len, n, s)
    ensures Readable(s.tables, written, len, s.disk)
  {
  }

  lemma RequestStays(c: Coordinator, t: Tables, t': Tables, q: Request)
    requires RequestOk(c, t, q) && SameMachines(t, t')
    ensures RequestOk(c, t', q)
  {
    hide SpotsOk, SameMachines, Possible, InRuns, Unmerged;
    if q.Upload? {
      SpotsStay(t, t', q.stripe, q.spots);
    }
  }

  /** What one request may do: keep the machines, all data and their contents; everything seen is sound. */
  twostate predicate Kept(c: Coordinator)
    reads c
  {
    c.Valid() && old(c.nextBlock) <= c.nextBlock && SameMachines(old(c.Now()), c.Now()) &&
    KeepsData(old(c.Now()), c.Now(), old(c.nextBlock)) && Extends(old(c.written), c.written, old(c.nextBlock))
  }

  /** One merge. */
  method RunMerge(c: Coordinator, a: nat, b: nat, round: int, target: nat, env: Environment)
      returns (ghost seen: seq<Snapshot>)
    requires c.Valid() && Possible(env)
    modifies c
    ensures Kept(c)
    ensures forall s :: s in seen ==> Sound(c.baseK, c.written, c.blockSize, c.nextBlock, s)
  {
    hide Readable, KeepsData, Extends, c.Valid, SameMachines, Committed, Mergeable, SameData, AllStripesOk, Allocated,
         Guarded, Refused, ProperPair, AtRest, TaskId, IndexesCommitted, StuckPair, FlawedPair, PlannedPair, OnlyWritten,
         OnlyThese, ToWrite, LeftBehind, DeletesAll;
    ghost var t, n := c.Now(), c.nextBlock;
    KeepsDataRefl(t, n);
    ExtendsRefl(c.written, n);
    SameMachinesRefl(t);
    ValidParts(c);
    var reply;
    ghost var places;
    reply, seen, places := c.MergeStripes(a, b, round, target, env);
    ValidParts(c);
    if reply.MergeDone? {
      PresentInput(c.baseK, t, a, b, round);
      ghost var task := TaskId(t.stripes[a].batch, round, a, b);
      CommitKeepsData(c.baseK, t, c.Now(), a, b, round, places, task);
      SameDataKeeps(t, c.Now(), n);
      CommittedIndexes(c.baseK, t, c.Now(), a, b, places, task);
      CommitMachines(t, c.Now(), a, b);
    }
  }

  /** One upload. */
  method RunUpload(c: Coordinator, s: Stripe, spots: seq<Spot>, data: Matrix) returns (ghost seen: seq<Snapshot>)
    requires c.Valid() && RequestOk(c, c.Now(), Upload(s, spots, data))
    modifies c
    ensures Kept(c)
    ensures forall s :: s in seen ==> Sound(c.baseK, c.written, c.blockSize, c.nextBlock, s)
  {
    hide Readable, KeepsData, Extends, c.Valid, SameMachines, AllStripesOk, Allocated, Added, DataWritten, SpotsOk,
         InRuns, Unmerged;
    ghost var t, n, written := c.Now(), c.nextBlock, c.written;
    ValidParts(c);
    var sid := SetStripe(c, s, spots, data);
    DataExtends(written, n, data);
    UploadKeepsData(c.baseK, t, c.Now(), sid, n, s, spots);
    ValidParts(c);
    seen := [Snapshot(c.Now(), c.disk)];
  }

  /** One request. */
  method RunRequest(c: Coordinator, q: Request) returns (ghost seen: seq<Snapshot>)
    requires c.Valid() && RequestOk(c, c.Now(), q)
    modifies c
    ensures Kept(c)
    ensures forall s :: s in seen ==> Sound(c.baseK, c.written, c.blockSize, c.nextBlock, s)
  {
    hide Sound, Kept, c.Valid, SpotsOk, InRuns, Unmerged, IsMatrix;
    match q {
      case MergePair(a, b, round, target, env) => seen := RunMerge(c, a, b, round, target, env);
      case Upload(s, spots, data) => seen := RunUpload(c, s, spots, data);
    }
  }

  lemma ValidParts(c: Coordinator)
    requires c.Valid()
    ensures Sane(c.baseK, c.Now()) && AllStripesOk(c.baseK, c.Now()) && Allocated(c.Now(), c.nextBlock)
    ensures Readable(c.Now(), c.written, c.blockSize, c.disk)
  {
  }

  lemma KeepsDataRefl(t: Tables, n: nat)
    ensures KeepsData(t, t, n)
  {
  }

  lemma ExtendsRefl(w: map<nat, Bytes>, n: nat)
    ensures Extends(w, w, n)
  {
  }

  lemma PresentInput(baseK: nat, t: Tables, a: nat, b: nat, round: nat)
    requires Mergeable(baseK, t, a, b, round)
    ensures a in t.stripes && b in t.stripes
  {
  }
}

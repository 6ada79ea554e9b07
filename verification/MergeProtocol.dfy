/**
 * The coordinator's merge of two DdlRT-LRC stripes as a whole: guards, plan,
 * copies and parity folds, then commit or roll back, and runs of merges.
 */
module MergeProtocol {
  import opened LinearAlgebra
  import opened MergeConfig
  import opened MergeParity
  import opened MergePlan
  import opened MergeMoves
  import opened MergeTables
  import opened MergeIO
  import opened MergeIndex
  import opened MergeCommit
  import opened MergeIndexed
  import opened MergeTasks
  import opened MergeFiles

  datatype Reply =
    | MergeDone
    | StripeNotFound
    | InvalidInputs
    | WrongTarget
    | NoRackLeft
    | PlanRejected(fault: Fault)
    | StepFailed

  /** What the environment decides: how steps interleave and fail, and which deletions take place. */
  datatype Environment = Environment(schedule: (nat, nat) -> seq<Event>, deletions: nat -> seq<nat>)

  ghost predicate Possible(env: Environment) {
    (forall n, c :: c <= n ==> ValidSchedule(env.schedule(n, c), n, c)) &&
    (forall n, i :: 0 <= i < |env.deletions(n)| ==> env.deletions(n)[i] < n)
  }

  /** Every deletion takes place. */
  ghost predicate DeletesAll(env: Environment) {
    forall n: nat, i: nat :: i < n ==> i in env.deletions(n)
  }

  lemma AllNamed(env: Environment, items: seq<(nat, Key)>, w: (nat, Key))
    requires DeletesAll(env) && w in items
    ensures Named(items, env.deletions(|items|), w)
  {
    var i :| 0 <= i < |items| && items[i] == w;
    assert i in env.deletions(|items|);
  }

  /** No step fails. */
  ghost predicate FailureFree(env: Environment) {
    forall n, c :: NoFailure(env.schedule(n, c))
  }

  /** The tables and files at some moment. */
  datatype Snapshot = Snapshot(tables: Tables, disk: Disk)

  function Snapshots(t: Tables, disks: seq<Disk>): (seen: seq<Snapshot>)
    ensures forall s :: s in seen ==> s.tables == t && s.disk in disks
  {
    seq(|disks|, i requires 0 <= i < |disks| => Snapshot(t, disks[i]))
  }

  /** The guards on two stripes that exist. */
  ghost predicate Adjacent(baseK: nat, left: Stripe, right: Stripe, round: int) {
    1 <= round <= left.rounds && right.k == left.k && right.r == left.r && right.z == left.z &&
    left.k == baseK * Pow2(round - 1) && left.batch == right.batch && left.pos + Pow2(round - 1) == right.pos &&
    left.overlaps == right.overlaps &&
    |left.blocks| == left.k + left.r + left.z && |right.blocks| == left.k + left.r + left.z
  }

  ghost predicate Guarded(baseK: nat, t: Tables, a: nat, b: nat, round: int) {
    a in t.stripes && b in t.stripes && Adjacent(baseK, t.stripes[a], t.stripes[b], round)
  }

  ghost predicate Refused(baseK: nat, t: Tables, a: nat, b: nat, round: int) {
    a in t.stripes && b in t.stripes && !Adjacent(baseK, t.stripes[a], t.stripes[b], round)
  }

  /** Both stripes' data is laid out as the placement does it. */
  ghost predicate ProperPair(t: Tables, a: nat, b: nat, nodeRow: seq<int>) {
    a in t.stripes && b in t.stripes &&
    t.stripes[a].k < |t.stripes[a].blocks| && t.stripes[b].k <= |t.stripes[b].blocks| &&
    WellFormed(PlanInput(t, a, b, nodeRow), CurrentPlaces(t, a, b))
  }

  /** A proper pair of which no data block has to move. */
  ghost predicate AtRest(t: Tables, a: nat, b: nat, nodeRow: seq<int>) {
    ProperPair(t, a, b, nodeRow) && Undisturbed(PlanInput(t, a, b, nodeRow), CurrentPlaces(t, a, b))
  }

  /** The plan for the pair has this fault. */
  ghost predicate FlawedPair(t: Tables, a: nat, b: nat, nodeRow: seq<int>, fault: Fault) {
    a in t.stripes && b in t.stripes &&
    t.stripes[a].k < |t.stripes[a].blocks| && t.stripes[b].k <= |t.stripes[b].blocks| &&
    Flawed(PlanInput(t, a, b, nodeRow), CurrentPlaces(t, a, b), fault)
  }

  /** The places are those of a plan for the pair. */
  ghost predicate PlannedPair(t: Tables, a: nat, b: nat, nodeRow: seq<int>, places: map<nat, Place>) {
    a in t.stripes && b in t.stripes &&
    t.stripes[a].k < |t.stripes[a].blocks| && t.stripes[b].k <= |t.stripes[b].blocks| &&
    exists moves :: PlannedWith(PlanInput(t, a, b, nodeRow), CurrentPlaces(t, a, b), places, moves)
  }

  ghost predicate PlannedWith(m: Merge, loc0: map<nat, Place>, loc: map<nat, Place>, moves: seq<Migration>) {
    Shape(m, loc0) && Moved(m, loc0, loc, moves) && GoodLayout(m, loc) &&
    (ColumnsMeanRacks(m, loc0) ==> BestMoves(m, loc0, loc, moves))
  }

  /** A pair of which some block has to move while no rack of its group can take it. */
  ghost predicate StuckPair(t: Tables, a: nat, b: nat, nodeRow: seq<int>) {
    a in t.stripes && b in t.stripes &&
    t.stripes[a].k < |t.stripes[a].blocks| && t.stripes[b].k <= |t.stripes[b].blocks| &&
    Shape(PlanInput(t, a, b, nodeRow), CurrentPlaces(t, a, b)) &&
    (ColumnsMeanRacks(PlanInput(t, a, b, nodeRow), CurrentPlaces(t, a, b)) ==>
     Stuck(PlanInput(t, a, b, nodeRow), CurrentPlaces(t, a, b)))
  }

  lemma AdjacentMergeable(baseK: nat, t: Tables, a: nat, b: nat, round: int)
    requires Sane(baseK, t) && a in t.stripes && b in t.stripes && Adjacent(baseK, t.stripes[a], t.stripes[b], round)
    ensures round >= 1 && Mergeable(baseK, t, a, b, round)
    ensures TaskRound(TaskId(t.stripes[a].batch, round, a, b)) == round
  {
    hide TaskId, TaskRound, AllPlaced, RacksOk, DataKeysDiffer, BlockOk;
    assert StripeOk(baseK, t, a);
    TaskRoundIs(t.stripes[a].batch, round, a, b);
  }

  /** A block as the first pass of the commit leaves it; the second pass sets its group. */
  function Renumbered(sid: nat, i: nat, place: Place, was: Block): Block {
    was.(id := i, stripe := sid, place := place)
  }

  function Refolded(s: Stripe, sid: nat, j: nat, task: nat, was: Block): Block {
    was.(id := 2 * s.k + j, stripe := sid, key := NewKey(s, sid, task, j), kind := KindOf(s, j),
         localGroup := if j < s.r then -1 else j - s.r)
  }

  function Regrouped(z: nat, was: Block): Block {
    was.(group := if was.kind == Data then was.localGroup else z)
  }

  function EntriesIn(blocks: map<nat, Block>, list: seq<nat>): (entries: seq<Entry>)
    ensures |entries| == |list|
  {
    seq(|list|, i requires 0 <= i < |list| =>
      var b := if list[i] in blocks then blocks[list[i]] else NO_BLOCK;
      Entry(list[i], b.place, b.group))
  }

  lemma NoEntries(start: Index, sid: nat, blocks: map<nat, Block>)
    ensures IndexAll(start, sid, EntriesIn(blocks, [])) == start
  {
  }

  /** Indexing one more block of the list. */
  lemma OneMoreEntry(start: Index, sid: nat, before: map<nat, Block>, after: map<nat, Block>, list: seq<nat>, i: nat)
    requires i < |list| && list[i] !in list[..i] && list[i] in after
    requires forall p :: p != list[i] ==> (p in after <==> p in before) && (p in after ==> after[p] == before[p])
    ensures IndexAll(start, sid, EntriesIn(after, list[..i + 1]))
         == IndexOne(IndexAll(start, sid, EntriesIn(before, list[..i])), sid, i,
                     Entry(list[i], after[list[i]].place, after[list[i]].group))
  {
    hide IndexOne;
    var entries := EntriesIn(after, list[..i + 1]);
    assert list[..i + 1] == list[..i] + [list[i]];
    assert entries[..i] == EntriesIn(before, list[..i]);
  }

  /** The lists the commit walks over. */
  lemma CommitLists(baseK: nat, t: Tables, a: nat, b: nat, round: nat, places: map<nat, Place>)
    requires Sane(baseK, t) && Mergeable(baseK, t, a, b, round) && WellPlaced(t, a, b, places)
    ensures var left, right := t.stripes[a], t.stripes[b];
      left.k <= |left.blocks| && right.k <= |right.blocks| && left.k == right.k &&
      NoDup(left.blocks[..left.k]) && NoDup(right.blocks[..left.k]) && NoDup(left.blocks[left.k..]) &&
      (forall p :: p in left.blocks[..left.k] ==> p in t.blocks && p in places) &&
      (forall p :: p in right.blocks[..left.k] ==> p in t.blocks && p in places) &&
      (forall p :: p in left.blocks[left.k..] ==> p in t.blocks)
  {
    hide AllPlaced, RacksOk, DataKeysDiffer, Pow2, BlockOk;
    MergeableSizes(baseK, t, a, b, round);
    OwnBlocks(baseK, t, a);
    OwnBlocks(baseK, t, b);
    var left, right := t.stripes[a], t.stripes[b];
    assert forall i: nat :: i < left.k ==> DataAt(t, a, i) && DataAt(t, b, i);
  }

  lemma OwnBlocks(baseK: nat, t: Tables, s: nat)
    requires AllStripesOk(baseK, t) && s in t.stripes
    ensures NoDup(t.stripes[s].blocks)
    ensures forall p :: p in t.stripes[s].blocks ==> p in t.blocks && t.blocks[p].stripe == s
  {
    hide ParityKey;
    assert StripeOk(baseK, t, s);
  }

  lemma MergedDiffer(baseK: nat, t: Tables, a: nat, b: nat, round: nat)
    requires Sane(baseK, t) && Mergeable(baseK, t, a, b, round)
    ensures t.stripes[a].k <= |t.stripes[a].blocks| && t.stripes[b].k <= |t.stripes[b].blocks|
    ensures NoDup(MergedBlocks(t.stripes[a], t.stripes[b]))
    ensures forall p :: p in MergedBlocks(t.stripes[a], t.stripes[b]) ==> p in t.blocks
  {
    hide AllPlaced, RacksOk, DataKeysDiffer, Pow2, MergedBlocks;
    MergeableSizes(baseK, t, a, b, round);
    OwnBlocks(baseK, t, a);
    OwnBlocks(baseK, t, b);
    var left, right := t.stripes[a], t.stripes[b];
    forall i: nat | i < |MergedBlocks(left, right)|
      ensures MergedBlocks(left, right)[i] in t.blocks
    {
      MergedAt(left, right, i);
    }
    forall i: nat, j: nat | i < j < |MergedBlocks(left, right)|
      ensures MergedBlocks(left, right)[i] != MergedBlocks(left, right)[j]
    {
      MergedAt(left, right, i);
      MergedAt(left, right, j);
    }
  }

  /** The blocks after the first pass: all but the groups is final. */
  ghost predicate RelabelledOk(t: Tables, blocks: map<nat, Block>, a: nat, b: nat, places: map<nat, Place>, task: nat)
    requires a in t.stripes && b in t.stripes
    requires t.stripes[a].k <= |t.stripes[a].blocks| && t.stripes[b].k <= |t.stripes[b].blocks|
  {
    var left := t.stripes[a];
    var merged := MergedBlocks(left, t.stripes[b]);
    blocks.Keys == t.blocks.Keys &&
    (forall p :: p in blocks && p !in merged ==> blocks[p] == t.blocks[p]) &&
    (forall p :: p in merged ==> p in blocks) &&
    (forall i :: 0 <= i < |merged| ==>
       Regrouped(left.z, blocks[merged[i]]) == NewBlock(left, a, i, task, PlaceIn(places, merged[i]),
                 BlockAt(t, merged[i])))
  }

  /** A walk over a list of blocks changes no other block. */
  ghost predicate Walked(before: map<nat, Block>, after: map<nat, Block>, list: seq<nat>) {
    after.Keys == before.Keys && (forall p :: p in list ==> p in before) &&
    forall p :: p in before && p !in list ==> after[p] == before[p]
  }

  /** The walk over a list of data blocks, numbered from `first`. */
  ghost predicate DataWalk(before: map<nat, Block>, after: map<nat, Block>, list: seq<nat>, first: nat, sid: nat,
                           places: map<nat, Place>) {
    Walked(before, after, list) &&
    forall x :: 0 <= x < |list| ==> after[list[x]] == Renumbered(sid, first + x, PlaceIn(places, list[x]), before[list[x]])
  }

  ghost predicate ParityWalk(before: map<nat, Block>, after: map<nat, Block>, list: seq<nat>, left: Stripe, sid: nat,
                             task: nat) {
    Walked(before, after, list) &&
    forall x :: 0 <= x < |list| ==> after[list[x]] == Refolded(left, sid, x, task, before[list[x]])
  }

  /** The three walks of the commit, block by block. */
  lemma Relabelling(baseK: nat, t: Tables, one: map<nat, Block>, two: map<nat, Block>, three: map<nat, Block>,
                    a: nat, b: nat, round: nat, places: map<nat, Place>, task: nat)
    requires Sane(baseK, t) && Mergeable(baseK, t, a, b, round) && SizesMatch(t, a, b)
    requires t.stripes[a].k == t.stripes[b].k
    requires DataWalk(t.blocks, one, t.stripes[a].blocks[..t.stripes[a].k], 0, a, places)
    requires DataWalk(one, two, t.stripes[b].blocks[..t.stripes[a].k], t.stripes[a].k, a, places)
    requires ParityWalk(two, three, t.stripes[a].blocks[t.stripes[a].k..], t.stripes[a], a, task)
    ensures RelabelledOk(t, three, a, b, places, task)
  {
    hide Sane, Mergeable, Regrouped, NewBlock, MergedBlocks, DataWalk, ParityWalk, NoDup;
    MergedDiffer(baseK, t, a, b, round);
    var left, right := t.stripes[a], t.stripes[b];
    var merged := MergedBlocks(left, right);
    forall i: nat | i < |merged|
      ensures merged[i] in three
      ensures Regrouped(left.z, three[merged[i]]) == NewBlock(left, a, i, task, PlaceIn(places, merged[i]), BlockAt(t, merged[i]))
    {
      WalkedBlock(baseK, t, one, two, three, a, b, round, places, task, i);
    }
    forall p | p in t.blocks && p !in merged
      ensures p in three && three[p] == t.blocks[p]
    {
      UnwalkedBlock(t, one, two, three, a, b, places, task, p);
    }
    assert three.Keys == t.blocks.Keys by { WalkedKeys(t, one, two, three, a, b, places, task); }
  }

  lemma WalkedKeys(t: Tables, one: map<nat, Block>, two: map<nat, Block>, three: map<nat, Block>,
                   a: nat, b: nat, places: map<nat, Place>, task: nat)
    requires SizesMatch(t, a, b) && t.stripes[a].k == t.stripes[b].k
    requires DataWalk(t.blocks, one, t.stripes[a].blocks[..t.stripes[a].k], 0, a, places)
    requires DataWalk(one, two, t.stripes[b].blocks[..t.stripes[a].k], t.stripes[a].k, a, places)
    requires ParityWalk(two, three, t.stripes[a].blocks[t.stripes[a].k..], t.stripes[a], a, task)
    ensures three.Keys == t.blocks.Keys
  {
    hide Renumbered, Refolded;
  }

  lemma UnwalkedBlock(t: Tables, one: map<nat, Block>, two: map<nat, Block>, three: map<nat, Block>,
                      a: nat, b: nat, places: map<nat, Place>, task: nat, p: nat)
    requires SizesMatch(t, a, b) && t.stripes[a].k == t.stripes[b].k
    requires DataWalk(t.blocks, one, t.stripes[a].blocks[..t.stripes[a].k], 0, a, places)
    requires DataWalk(one, two, t.stripes[b].blocks[..t.stripes[a].k], t.stripes[a].k, a, places)
    requires ParityWalk(two, three, t.stripes[a].blocks[t.stripes[a].k..], t.stripes[a], a, task)
    requires p in t.blocks && p !in MergedBlocks(t.stripes[a], t.stripes[b])
    ensures p in three && three[p] == t.blocks[p]
  {
    hide Renumbered, Refolded;
  }

  lemma WalkedBlock(baseK: nat, t: Tables, one: map<nat, Block>, two: map<nat, Block>, three: map<nat, Block>,
                    a: nat, b: nat, round: nat, places: map<nat, Place>, task: nat, i: nat)
    requires Sane(baseK, t) && Mergeable(baseK, t, a, b, round) && SizesMatch(t, a, b)
    requires t.stripes[a].k == t.stripes[b].k
    requires DataWalk(t.blocks, one, t.stripes[a].blocks[..t.stripes[a].k], 0, a, places)
    requires DataWalk(one, two, t.stripes[b].blocks[..t.stripes[a].k], t.stripes[a].k, a, places)
    requires ParityWalk(two, three, t.stripes[a].blocks[t.stripes[a].k..], t.stripes[a], a, task)
    requires i < |MergedBlocks(t.stripes[a], t.stripes[b])|
    ensures var p := MergedBlocks(t.stripes[a], t.stripes[b])[i];
      p in three &&
      Regrouped(t.stripes[a].z, three[p]) == NewBlock(t.stripes[a], a, i, task, PlaceIn(places, p), BlockAt(t, p))
  {
    hide Sane, Mergeable, MergedBlocks, PlaceIn, DataWalk, ParityWalk, Regrouped, NewBlock, Renumbered, Refolded;
    var left, right := t.stripes[a], t.stripes[b];
    var k := left.k;
    MergedAt(left, right, i);
    SourceKind(baseK, t, a, b, round, i);
    var p := MergedBlocks(left, right)[i];
    ListedOnce(baseK, t, a, b, round, i, p);
    OnWalks(t.blocks, one, two, three, left.blocks[..k], right.blocks[..k], left.blocks[k..], left, a, places, task, p,
            if i < k then i else if i < 2 * k then i - k else i - 2 * k);
    if i < 2 * k {
      DataTwice(left, a, i, task, PlaceIn(places, p), t.blocks[p]);
    } else {
      ParityTwice(left, a, i - 2 * k, task, PlaceIn(places, p), t.blocks[p]);
    }
  }

  /** A block is touched by the one walk whose list it is on. */
  lemma OnWalks(zero: map<nat, Block>, one: map<nat, Block>, two: map<nat, Block>, three: map<nat, Block>,
                first: seq<nat>, second: seq<nat>, third: seq<nat>, left: Stripe, a: nat, places: map<nat, Place>, task: nat,
                p: nat, x: nat)
    requires DataWalk(zero, one, first, 0, a, places) && DataWalk(one, two, second, |first|, a, places)
    requires ParityWalk(two, three, third, left, a, task) && p in zero
    requires (x < |first| && first[x] == p) || p !in first
    requires (x < |second| && second[x] == p) || p !in second
    requires (x < |third| && third[x] == p) || p !in third
    ensures p in three
    ensures p in first && p !in second && p !in third ==> three[p] == Renumbered(a, x, PlaceIn(places, p), zero[p])
    ensures p !in first && p in second && p !in third ==>
      three[p] == Renumbered(a, |first| + x, PlaceIn(places, p), zero[p])
    ensures p !in first && p !in second && p in third ==> three[p] == Refolded(left, a, x, task, zero[p])
  {
    hide Renumbered, Refolded, PlaceIn;
  }

  /** Both passes together make the new data block ... */
  lemma DataTwice(left: Stripe, sid: nat, i: nat, task: nat, place: Place, was: Block)
    requires i < 2 * left.k && was.kind == Data
    ensures Regrouped(left.z, Renumbered(sid, i, place, was)) == NewBlock(left, sid, i, task, place, was)
  {
  }

  /** ... and the new parity block. */
  lemma ParityTwice(left: Stripe, sid: nat, j: nat, task: nat, place: Place, was: Block)
    ensures Regrouped(left.z, Refolded(left, sid, j, task, was)) == NewBlock(left, sid, 2 * left.k + j, task, place, was)
  {
  }

  /** Each block is on one of the three lists only. */
  lemma ListedOnce(baseK: nat, t: Tables, a: nat, b: nat, round: nat, i: nat, p: nat)
    requires Sane(baseK, t) && Mergeable(baseK, t, a, b, round) && SizesMatch(t, a, b)
    requires i < |MergedBlocks(t.stripes[a], t.stripes[b])| && MergedBlocks(t.stripes[a], t.stripes[b])[i] == p
    ensures t.stripes[b].k <= |t.stripes[b].blocks|
    ensures p in t.stripes[a].blocks[..t.stripes[a].k] <==> i < t.stripes[a].k
    ensures p in t.stripes[b].blocks[..t.stripes[a].k] <==> t.stripes[a].k <= i < 2 * t.stripes[a].k
    ensures p in t.stripes[a].blocks[t.stripes[a].k..] <==> 2 * t.stripes[a].k <= i
  {
    hide AllPlaced, RacksOk, DataKeysDiffer, Pow2, MergedBlocks;
    MergeableSizes(baseK, t, a, b, round);
    OwnBlocks(baseK, t, a);
    OwnBlocks(baseK, t, b);
    MergedAt(t.stripes[a], t.stripes[b], i);
  }

  /** Data comes from data blocks. */
  lemma SourceKind(baseK: nat, t: Tables, a: nat, b: nat, round: nat, i: nat)
    requires Sane(baseK, t) && Mergeable(baseK, t, a, b, round) && SizesMatch(t, a, b)
    requires i < |MergedBlocks(t.stripes[a], t.stripes[b])|
    ensures MergedBlocks(t.stripes[a], t.stripes[b])[i] in t.blocks
    ensures i < 2 * t.stripes[a].k ==> BlockAt(t, MergedBlocks(t.stripes[a], t.stripes[b])[i]).kind == Data
  {
    hide AllPlaced, RacksOk, DataKeysDiffer, Pow2, MergedBlocks, ParityKey;
    MergeableSizes(baseK, t, a, b, round);
    MergedAt(t.stripes[a], t.stripes[b], i);
    var k := t.stripes[a].k;
    var s, j := SourceStripe(k, a, b, i), SourceIndex(k, i);
    assert StripeOk(baseK, t, s);
    SourceOk(baseK, t, s, j);
  }

  /** All parts of the commit together. */
  lemma CommitDone(baseK: nat, t: Tables, t': Tables, relabelled: map<nat, Block>, a: nat, b: nat, round: nat,
                   places: map<nat, Place>, task: nat)
    requires Sane(baseK, t) && Mergeable(baseK, t, a, b, round) && SizesMatch(t, a, b)
    requires t.stripes[a].k == t.stripes[b].k
    requires RelabelledOk(t, relabelled, a, b, places, task)
    requires Walked(relabelled, t'.blocks, MergedBlocks(t.stripes[a], t.stripes[b]))
    requires forall x :: 0 <= x < |MergedBlocks(t.stripes[a], t.stripes[b])| ==>
      var p := MergedBlocks(t.stripes[a], t.stripes[b])[x];
      t'.blocks[p] == Regrouped(t.stripes[a].z, relabelled[p])
    requires StripesCommitted(t, t', a, b) && IndexesCommitted(t, t', a, b)
    ensures Committed(baseK, t, t', a, b, places, task)
  {
    hide Mergeable, Regrouped, NewBlock, MergedBlocks, StripesCommitted, IndexesCommitted, AllStripesOk, AllPlaced,
         RacksOk, DataKeysDiffer;
  }

  class Coordinator {
    const baseK: nat
    const blockSize: nat
    const nodeRows: seq<seq<int>>
    /** What was written into every data block. */
    ghost var written: map<nat, Bytes>
    /** The next free stripe number and block. */
    var nextStripe: nat
    var nextBlock: nat
    var blocks: map<nat, Block>
    var stripes: map<nat, Stripe>
    var racks: map<nat, Rack>
    var nodes: map<nat, Node>
    var disk: Disk

    /** No stripes yet, only machines. */
    constructor (baseK: nat, blockSize: nat, nodeRows: seq<seq<int>>, racks: map<nat, Rack>, nodes: map<nat, Node>)
      requires baseK > 0 && RacksOk(Tables(map[], map[], racks, nodes))
      requires forall c :: c in racks ==> racks[c].stripes == {} && racks[c].blocks == []
      requires forall n :: n in nodes ==> nodes[n].stripes == map[]
      ensures Valid() && Now() == Tables(map[], map[], racks, nodes) && nextStripe == 0 && nextBlock == 0
      ensures this.baseK == baseK && this.blockSize == blockSize && this.nodeRows == nodeRows
    {
      this.baseK, this.blockSize, this.nodeRows, this.racks, this.nodes := baseK, blockSize, nodeRows, racks, nodes;
      blocks, stripes, disk, written := map[], map[], map[], map[];
      nextStripe, nextBlock := 0, 0;
    }

    function Now(): Tables
      reads this
    {
      Tables(blocks, stripes, racks, nodes)
    }

    ghost predicate Valid()
      reads this
    {
      Sane(baseK, Now()) && Indexed(Now()) && Readable(Now(), written, blockSize, disk) && ParitiesAtHome(Now(), disk) &&
      NumbersBelow(Now(), disk, nextStripe) && Allocated(Now(), nextBlock)
    }

    // ---- Commit ----

    /** Removes both stripes from the node and rack indexes. */
    method ForgetPair(a: nat, b: nat)
      requires a in stripes && b in stripes
      modifies this`nodes, this`racks
      ensures Index(racks, nodes, map[], {}) == Forget(old(Now()), a, b)
    {
      hide Without;
      var gone := OldBlocks(Now(), a, b);
      nodes := map n | n in nodes :: ForgetNode(nodes[n], a, b);
      racks := map c | c in racks :: ForgetRack(racks[c], a, b, gone);
    }

    /** Appends data blocks to the merged stripe: new number, new stripe, planned place. */
    method AppendData(list: seq<nat>, places: map<nat, Place>, sid: nat, merged: seq<nat>) returns (longer: seq<nat>)
      requires NoDup(list) && forall p :: p in list ==> p in blocks && p in places
      modifies this`blocks
      ensures longer == merged + list && DataWalk(old(blocks), blocks, list, |merged|, sid, places)
    {
      longer := merged;
      for i := 0 to |list|
        invariant longer == merged + list[..i] && DataWalk(old(blocks), blocks, list[..i], |merged|, sid, places)
      {
        var p := list[i];
        assert p !in list[..i] && list[..i + 1] == list[..i] + [p];
        blocks := blocks[p := blocks[p].(id := |longer|, stripe := sid, place := places[p])];
        longer := longer + [p];
      }
      assert list[..|list|] == list;
    }

    /** Appends the left parity blocks, which now stand for the folded parities. */
    method AppendParity(left: Stripe, list: seq<nat>, sid: nat, task: nat, merged: seq<nat>) returns (longer: seq<nat>)
      requires NoDup(list) && (forall p :: p in list ==> p in blocks) && |merged| == 2 * left.k
      modifies this`blocks
      ensures longer == merged + list && ParityWalk(old(blocks), blocks, list, left, sid, task)
    {
      hide KindOf, NewKey;
      longer := merged;
      for j := 0 to |list|
        invariant longer == merged + list[..j] && ParityWalk(old(blocks), blocks, list[..j], left, sid, task)
      {
        var p := list[j];
        assert p !in list[..j] && list[..j + 1] == list[..j] + [p];
        blocks := blocks[p := blocks[p].(id := 2 * left.k + j, stripe := sid, key := NewKey(left, sid, task, j),
                                         kind := KindOf(left, j), localGroup := if j < left.r then -1 else j - left.r)];
        longer := longer + [p];
      }
      assert list[..|list|] == list;
    }

    /** Second pass: placement groups and all indexes of the merged stripe. */
    method IndexMerged(sid: nat, merged: seq<nat>, z: nat) returns (groups: map<int, seq<nat>>, clusters: set<nat>)
      requires NoDup(merged) && forall p :: p in merged ==> p in blocks
      modifies this`blocks, this`nodes, this`racks
      ensures Walked(old(blocks), blocks, merged)
      ensures forall x :: 0 <= x < |merged| ==> blocks[merged[x]] == Regrouped(z, old(blocks)[merged[x]])
      ensures Index(racks, nodes, groups, clusters)
           == IndexAll(Index(old(racks), old(nodes), map[], {}), sid, EntriesIn(blocks, merged))
    {
      hide IndexAll, AddToRack, AddToNode, AddToGroup, EntriesIn;
      groups, clusters := map[], {};
      ghost var start := Index(racks, nodes, map[], {});
      NoEntries(start, sid, blocks);
      for i := 0 to |merged|
        invariant Walked(old(blocks), blocks, merged[..i])
        invariant forall x :: 0 <= x < i ==> blocks[merged[x]] == Regrouped(z, old(blocks)[merged[x]])
        invariant Index(racks, nodes, groups, clusters) == IndexAll(start, sid, EntriesIn(blocks, merged[..i]))
      {
        var p := merged[i];
        assert p !in merged[..i] && merged[..i + 1] == merged[..i] + [p];
        ghost var before := blocks;
        var group := if blocks[p].kind == Data then blocks[p].localGroup else z;
        blocks := blocks[p := blocks[p].(group := group)];
        groups := AddToGroup(groups, group, i);
        clusters := clusters + {blocks[p].place.cluster};
        nodes := AddToNode(nodes, blocks[p].place.node, sid, i);
        racks := AddToRack(racks, blocks[p].place.cluster, sid, p);
        OneMoreEntry(start, sid, before, blocks, merged, i);
      }
      assert merged[..|merged|] == merged;
    }

    /** The commit: both stripes leave the indexes, the merged stripe takes the left one's number. */
    method Commit(a: nat, b: nat, ghost round: nat, places: map<nat, Place>, task: nat)
      requires Sane(baseK, Now()) && Mergeable(baseK, Now(), a, b, round) && WellPlaced(Now(), a, b, places)
      modifies this`blocks, this`stripes, this`nodes, this`racks
      ensures Committed(baseK, old(Now()), Now(), a, b, places, task)
    {
      hide Sane, Mergeable, WellPlaced, IndexAll, Forget, DataWalk, ParityWalk, RelabelledOk, NoDup, Regrouped,
           EntriesIn;
      ghost var t := Now();
      SameK(baseK, t, a, b, round);
      PairDiffers(baseK, t, a, b, round);
      MergeableSizes(baseK, t, a, b, round);
      CommitLists(baseK, t, a, b, round, places);
      MergedDiffer(baseK, t, a, b, round);
      var left, right := stripes[a], stripes[b];
      var k := left.k;
      ForgetPair(a, b);
      var merged := AppendData(left.blocks[..k], places, a, []);
      ghost var one := blocks;
      StillThere(t.blocks, one, left.blocks[..k], 0, a, places);
      merged := AppendData(right.blocks[..k], places, a, merged);
      ghost var two := blocks;
      StillThere(one, two, right.blocks[..k], k, a, places);
      merged := AppendParity(left, left.blocks[k..], a, task, merged);
      ghost var relabelled := blocks;
      Relabelling(baseK, t, one, two, relabelled, a, b, round, places, task);
      assert merged == MergedBlocks(left, right);
      AllThere(t, relabelled, a, b, places, task);
      var groups, clusters := IndexMerged(a, merged, left.z);
      stripes := stripes - {b};
      stripes := stripes[a := left.(k := 2 * k, blocks := merged, groups := groups, clusters := clusters)];
      EntriesAgree(Now(), a);
      StripesDone(t, Now(), a, b, groups, clusters);
      CommitDone(baseK, t, Now(), relabelled, a, b, round, places, task);
    }

    // ---- The merge ----

    /** The row of node columns of a stripe. */
    ghost function NodeRow(row: nat): seq<int> {
      if row < |nodeRows| then nodeRows[row] else []
    }

    /** The copies of the plan and the folds of all parities. */
    method MakeSteps(a: nat, b: nat, task: nat, moves: seq<Migration>) returns (steps: seq<Task>)
      requires SizesMatch(Now(), a, b)
      ensures StepsOf(steps, Now(), a, b, task, moves)
    {
      hide CopyTask, FoldTask;
      steps := [];
      for i := 0 to |moves|
        invariant |steps| == i && forall x :: 0 <= x < i ==> steps[x] == CopyTask(Now(), moves[x])
      {
        steps := steps + [CopyTask(Now(), moves[i])];
      }
      var parities := |stripes[a].blocks| - stripes[a].k;
      for j := 0 to parities
        invariant |steps| == |moves| + j
        invariant forall x :: 0 <= x < |moves| ==> steps[x] == CopyTask(Now(), moves[x])
        invariant forall x :: |moves| <= x < |steps| ==> steps[x] == FoldTask(Now(), a, b, task, x - |moves|)
      {
        steps := steps + [FoldTask(Now(), a, b, task, j)];
      }
    }

    /** Everything up to the end of the I/O phase. */
    method PerformSteps(a: nat, b: nat, ghost round: nat, ghost places: map<nat, Place>, moves: seq<Migration>,
                        task: nat,
                        env: Environment) returns (ok: bool, steps: seq<Task>, ghost seen: seq<Snapshot>)
      requires Possible(env) && Ready(baseK, Now(), written, blockSize, disk, a, b, round, places, moves, task)
      requires SizesMatch(Now(), a, b) && NumbersBelow(Now(), disk, nextStripe)
      modifies this`disk
      ensures StepsOf(steps, Now(), a, b, task, moves)
      ensures Readable(Now(), written, blockSize, disk) && ParitiesAtHome(Now(), disk)
      ensures NumbersBelow(Now(), disk, nextStripe)
      ensures forall s :: s in seen ==> s.tables == Now() && Readable(s.tables, written, blockSize, s.disk)
      ensures forall w :: w in Targets(steps) ==> !InUse(Now(), w)
      ensures FailureFree(env) ==> ok
      ensures ok ==> stripes[a].k == stripes[b].k && MergeStored(Now(), written, blockSize, disk, a, b, places, task)
      ensures Outside(old(disk), disk, Targets(steps))
    {
      hide Ready, Readable, ParitiesAtHome, NumbersBelow, StepsOf, Runnable, Targets, Outside, AllStored, MergeStored,
           InUse, ValidSchedule;
      ghost var before := disk;
      steps := MakeSteps(a, b, task, moves);
      StepsRunnable(baseK, Now(), written, blockSize, disk, a, b, round, places, moves, task, steps);
      StepsCount(steps, Now(), a, b, task, moves);
      ghost var disks;
      ok, disk, disks := RunTasks(steps, |moves|, env.schedule(|steps|, |moves|), disk, blockSize);
      StepsHarmless(baseK, Now(), written, blockSize, before, disk, a, b, round, places, moves, task, steps);
      StepsNumbered(baseK, Now(), written, blockSize, before, disk, a, b, round, places, moves, task, steps,
                    nextStripe);
      seen := Snapshots(Now(), disks);
      forall s | s in seen
        ensures s.tables == Now() && Readable(s.tables, written, blockSize, s.disk)
      {
        StepsHarmless(baseK, Now(), written, blockSize, before, s.disk, a, b, round, places, moves, task, steps);
      }
      if ok {
        StepsStore(baseK, Now(), written, blockSize, before, disk, a, b, round, places, moves, task, steps);
      }
    }

    /** Deletes files that are not in use, as far as the environment lets it. */
    method CleanUp(items: seq<(nat, Key)>, env: Environment) returns (ghost seen: seq<Snapshot>)
      requires Possible(env) && Readable(Now(), written, blockSize, disk) && ParitiesAtHome(Now(), disk)
      requires NumbersBelow(Now(), disk, nextStripe) && forall w :: w in items ==> !InUse(Now(), w)
      modifies this`disk
      ensures Readable(Now(), written, blockSize, disk) && ParitiesAtHome(Now(), disk)
      ensures NumbersBelow(Now(), disk, nextStripe)
      ensures forall s :: s in seen ==> s.tables == Now() && Readable(s.tables, written, blockSize, s.disk)
      ensures forall w :: w !in items ==>
        (w in disk <==> w in old(disk)) && (w in old(disk) ==> disk[w] == old(disk)[w])
      ensures DeletesAll(env) ==> forall w :: w in items ==> w !in disk
    {
      hide Readable, InUse, AtHome, DeletesAll, Named;
      ghost var before := disk;
      ghost var disks;
      disk, disks := Cleanup(items, env.deletions(|items|), disk);
      if DeletesAll(env) {
        forall w | w in items
          ensures w !in disk
        {
          AllNamed(env, items, w);
        }
      }
      StillReadable(Now(), written, blockSize, before, disk);
      StillAtHome(Now(), before, disk);
      seen := Snapshots(Now(), disks);
      forall s | s in seen
        ensures s.tables == Now() && Readable(s.tables, written, blockSize, s.disk)
      {
        StillReadable(Now(), written, blockSize, before, s.disk);
      }
    }

    /** The files the failed steps were to write. */
    method Garbage(steps: seq<Task>) returns (items: seq<(nat, Key)>)
      ensures forall w :: w in items <==> w in Targets(steps)
    {
      items := [];
      for i := 0 to |steps|
        invariant forall w :: w in items <==> exists x :: 0 <= x < i && steps[x].target == w
      {
        items := items + [steps[i].target];
      }
    }

    /** The files the successful steps made obsolete. */
    method ObsoleteFiles(steps: seq<Task>) returns (items: seq<(nat, Key)>)
      ensures forall w :: w in items <==> Obsolete(steps, w)
    {
      items := [];
      for i := 0 to |steps|
        invariant forall w :: w in items <==> exists x :: 0 <= x < i && InputOf(steps[x], w)
      {
        match steps[i] {
          case CopyBlock(source, _) => items := items + [source];
          case FoldParity(left, right, _, _) => items := items + [left, right];
        }
      }
    }

    /** The guards of the merge, one after the other. */
    method CheckPair(left: Stripe, right: Stripe, round: int) returns (fit: bool)
      ensures fit <==> Adjacent(baseK, left, right, round)
    {
      if round < 1 || round > left.rounds || right.k != left.k || right.r != left.r || right.z != left.z {
        return false;
      }
      if left.k != baseK * Pow2(round - 1) || left.batch != right.batch || left.pos + Pow2(round - 1) != right.pos {
        return false;
      }
      return left.overlaps == right.overlaps && |left.blocks| == left.k + left.r + left.z &&
             |right.blocks| == left.k + left.r + left.z;
    }

    /** Where the data blocks of the two stripes are. */
    method ReadPlaces(a: nat, b: nat) returns (current: map<nat, Place>)
      requires a in stripes && b in stripes && stripes[a].k == stripes[b].k
      requires stripes[a].k <= |stripes[a].blocks| && stripes[b].k <= |stripes[b].blocks|
      ensures current == CurrentPlaces(Now(), a, b)
    {
      hide BlockAt;
      var left, right := stripes[a], stripes[b];
      current := map[];
      for i := 0 to left.k
        invariant ReadSoFar(Now(), left.blocks, right.blocks, i, current)
      {
        ReadMore(Now(), left.blocks, right.blocks, i, current);
        current := current[left.blocks[i] := BlockAt(Now(), left.blocks[i]).place];
        current := current[right.blocks[i] := BlockAt(Now(), right.blocks[i]).place];
      }
    }

    /** What the planner gets to see of the two stripes. */
    method ReadPair(a: nat, b: nat) returns (input: Merge, current: map<nat, Place>)
      requires a in stripes && b in stripes && stripes[a].k == stripes[b].k
      requires stripes[a].k < |stripes[a].blocks| && stripes[b].k <= |stripes[b].blocks|
      ensures input == PlanInput(Now(), a, b, NodeRow(stripes[a].oaRow)) && current == CurrentPlaces(Now(), a, b)
    {
      hide CurrentPlaces, BlockAt;
      current := ReadPlaces(a, b);
      var left, right := stripes[a], stripes[b];
      input := Merge(left.blocks[..left.k], right.blocks[..left.k],
                     map p | p in blocks && blocks[p].localGroup >= 0 :: blocks[p].localGroup,
                     left.z, left.r + 1, BlockAt(Now(), left.blocks[left.k]).place.cluster,
                     if left.oaRow < |nodeRows| then nodeRows[left.oaRow] else [],
                     map c | c in racks :: racks[c].nodes);
    }

    /**
     * `mergeStripesDdlrtLrc`.  Whatever fails, every block the tables name is
     * readable at every moment; without success the tables are unchanged, and
     * with success they are those of the merged stripe.
     */
    method MergeStripes(a: nat, b: nat, round: int, newSid: nat, env: Environment)
        returns (reply: Reply, ghost seen: seq<Snapshot>, ghost places: map<nat, Place>)
      requires Valid() && Possible(env)
      modifies this`blocks, this`stripes, this`nodes, this`racks, this`disk
      ensures Valid()
      ensures forall s :: s in seen ==>
        (s.tables == old(Now()) || s.tables == Now()) && Readable(s.tables, written, blockSize, s.disk)
      ensures reply.StripeNotFound? <==> !(a in old(stripes) && b in old(stripes))
      ensures reply.InvalidInputs? <==> Refused(baseK, old(Now()), a, b, round)
      ensures reply.WrongTarget? <==> Guarded(baseK, old(Now()), a, b, round) && newSid != a
      ensures reply.PlanRejected? ==> !ProperPair(old(Now()), a, b, NodeRow(old(stripes)[a].oaRow))
      ensures Guarded(baseK, old(Now()), a, b, round) && newSid == a && AtRest(old(Now()), a, b, NodeRow(old(stripes)[a].oaRow)) ==>
        (reply.StepFailed? && !FailureFree(env)) || (reply.MergeDone? && places == CurrentPlaces(old(Now()), a, b))
      ensures !reply.MergeDone? ==> Now() == old(Now())
      ensures !reply.MergeDone? && !reply.StepFailed? ==> disk == old(disk)
      ensures reply.MergeDone? ==> round > 0 && Mergeable(baseK, old(Now()), a, b, round)
      ensures reply.MergeDone? ==>
        Committed(baseK, old(Now()), Now(), a, b, places, TaskId(old(stripes)[a].batch, round, a, b))
      ensures reply.MergeDone? || reply.StepFailed? ==>
        PlannedPair(old(Now()), a, b, NodeRow(old(stripes)[a].oaRow), places)
      ensures reply.PlanRejected? ==> FlawedPair(old(Now()), a, b, NodeRow(old(stripes)[a].oaRow), reply.fault)
      ensures reply.NoRackLeft? ==> StuckPair(old(Now()), a, b, NodeRow(old(stripes)[a].oaRow))
      ensures Guarded(baseK, old(Now()), a, b, round) && newSid == a && FailureFree(env) ==>
        reply.MergeDone? || reply.NoRackLeft? || reply.PlanRejected?
      ensures reply.StepFailed? ==> round > 0
      ensures reply.StepFailed? ==>
        OnlyWritten(old(Now()), a, b, places, TaskId(old(stripes)[a].batch, round, a, b), old(disk), disk)
      ensures reply.StepFailed? && DeletesAll(env) ==>
        forall w :: ToWrite(old(Now()), a, b, places, TaskId(old(stripes)[a].batch, round, a, b), w) ==> w !in disk
      ensures reply.MergeDone? ==>
        OnlyThese(old(Now()), a, b, places, TaskId(old(stripes)[a].batch, round, a, b), old(disk), disk)
      ensures reply.MergeDone? && DeletesAll(env) ==> forall w :: LeftBehind(old(Now()), a, b, places, w) ==> w !in disk
    {
      hide Sane, Indexed, Readable, ParitiesAtHome, NumbersBelow, Allocated, Adjacent, Mergeable, Committed, Shape,
           Moved, GoodLayout, PlanInput, CurrentPlaces, TaskId, TaskRound, WellFormed, Stuck, Flawed, ColumnsMeanRacks,
           BestMoves, OnlyWritten, OnlyThese, ToWrite, LeftBehind, DeletesAll;
      seen, places := [Snapshot(Now(), disk)], map[];
      if a !in stripes || b !in stripes {
        return StripeNotFound, seen, places;
      }
      var fit := CheckPair(stripes[a], stripes[b], round);
      if !fit {
        return InvalidInputs, seen, places;
      }
      if newSid != a {
        return WrongTarget, seen, places;
      }
      AdjacentMergeable(baseK, Now(), a, b, round);
      MergeableSizes(baseK, Now(), a, b, round);
      PlanInputShape(baseK, Now(), a, b, round, NodeRow(stripes[a].oaRow));
      SameK(baseK, Now(), a, b, round);
      var input, current := ReadPair(a, b);
      var plan := Plan(input, current);
      match plan {
        case ResourceExhausted => reply := NoRackLeft;
        case FailedPrecondition(fault) => reply := PlanRejected(fault);
        case Planned(locations, moves) =>
          places := locations;
          assert PlannedWith(PlanInput(Now(), a, b, NodeRow(stripes[a].oaRow)), CurrentPlaces(Now(), a, b), places,
                             moves);
          ghost var more;
          reply, more := Execute(a, b, round, locations, moves, TaskId(stripes[a].batch, round, a, b), env);
          seen := seen + more;
      }
    }

    /** Carries out a plan: copies and folds, then commit or roll back. */
    method Execute(a: nat, b: nat, ghost round: nat, places: map<nat, Place>, moves: seq<Migration>, task: nat,
                   env: Environment)
        returns (reply: Reply, ghost seen: seq<Snapshot>)
      requires Valid() && Possible(env) && Mergeable(baseK, Now(), a, b, round) && TaskRound(task) == round
      requires SizesMatch(Now(), a, b) && stripes[a].k < |stripes[a].blocks| && stripes[b].k <= |stripes[b].blocks|
      requires Moved(PlanInput(Now(), a, b, NodeRow(stripes[a].oaRow)), CurrentPlaces(Now(), a, b), places, moves)
      requires GoodLayout(PlanInput(Now(), a, b, NodeRow(stripes[a].oaRow)), places)
      modifies this`blocks, this`stripes, this`nodes, this`racks, this`disk
      ensures Valid() && (reply.MergeDone? || reply.StepFailed?) && (FailureFree(env) ==> reply.MergeDone?)
      ensures forall s :: s in seen ==>
        (s.tables == old(Now()) || s.tables == Now()) && Readable(s.tables, written, blockSize, s.disk)
      ensures reply.StepFailed? ==> Now() == old(Now())
      ensures reply.MergeDone? ==> Committed(baseK, old(Now()), Now(), a, b, places, task)
      ensures reply.StepFailed? ==> OnlyWritten(old(Now()), a, b, places, task, old(disk), disk)
      ensures reply.StepFailed? && DeletesAll(env) ==>
        forall w :: ToWrite(old(Now()), a, b, places, task, w) ==> w !in disk
      ensures reply.MergeDone? ==> OnlyThese(old(Now()), a, b, places, task, old(disk), disk)
      ensures reply.MergeDone? && DeletesAll(env) ==> forall w :: LeftBehind(old(Now()), a, b, places, w) ==> w !in disk
    {
      hide Sane, Indexed, Readable, ParitiesAtHome, NumbersBelow, Allocated, Mergeable, Committed, Moved, GoodLayout,
           PlanInput, CurrentPlaces,
           TaskRound, Ready, StepsOf, MergeStored, InUse, Targets, Obsolete, WellPlaced,
           Outside, OnlyWritten, OnlyThese, ToWrite, LeftBehind, DeletesAll;
      ghost var t := Now();
      ghost var start := disk;
      PlanReady(baseK, t, written, blockSize, disk, a, b, round, NodeRow(stripes[a].oaRow), places, moves, task);
      PlanWellPlaced(baseK, t, a, b, round, NodeRow(stripes[a].oaRow), places, moves);
      var ok, steps;
      ok, steps, seen := PerformSteps(a, b, round, places, moves, task, env);
      FilesOfSteps(baseK, t, written, blockSize, start, a, b, round, places, moves, task, steps);
      ghost var performed := disk;
      ghost var more;
      if !ok {
        var garbage := Garbage(steps);
        more := CleanUp(garbage, env);
        WrittenGone(t, a, b, places, task, Targets(steps), start, performed, disk);
        seen := seen + more;
        return StepFailed, seen;
      }
      Commit(a, b, round, places, task);
      CommitSane(baseK, t, Now(), a, b, round, places, task);
      CommitIndexed(baseK, t, Now(), a, b, round, places, task);
      CommitReadable(baseK, t, Now(), written, blockSize, disk, a, b, round, places, task);
      CommitAtHome(baseK, t, Now(), a, b, round, places, task, disk);
      CommitNumbers(baseK, t, Now(), a, b, round, places, task, disk, nextStripe);
      CommitAllocated(baseK, t, Now(), a, b, places, task, nextBlock);
      var obsolete := ObsoleteFiles(steps);
      forall w | w in obsolete
        ensures !InUse(Now(), w)
      {
        ObsoleteUnused(baseK, t, Now(), written, blockSize, start, a, b, round, places, moves, task, steps, w);
      }
      more := CleanUp(obsolete, env);
      OthersStay(t, a, b, places, task, Targets(steps), obsolete, start, performed, disk);
      seen := seen + more;
      reply := MergeDone;
    }
  }

  /** The places of the first i blocks of both stripes. */
  ghost predicate ReadSoFar(t: Tables, left: seq<nat>, right: seq<nat>, i: nat, current: map<nat, Place>) {
    i <= |left| && i <= |right| && current == map p | p in left[..i] + right[..i] :: BlockAt(t, p).place
  }

  lemma ReadMore(t: Tables, left: seq<nat>, right: seq<nat>, i: nat, current: map<nat, Place>)
    requires ReadSoFar(t, left, right, i, current) && i < |left| && i < |right|
    ensures ReadSoFar(t, left, right, i + 1,
                      current[left[i] := BlockAt(t, left[i]).place][right[i] := BlockAt(t, right[i]).place])
  {
    hide BlockAt;
    assert left[..i + 1] == left[..i] + [left[i]] && right[..i + 1] == right[..i] + [right[i]];
  }

  lemma CommitAllocated(baseK: nat, t: Tables, t': Tables, a: nat, b: nat, places: map<nat, Place>, task: nat, n: nat)
    requires Committed(baseK, t, t', a, b, places, task) && Allocated(t, n)
    ensures Allocated(t', n)
  {
    hide AllStripesOk, StripesCommitted, IndexesCommitted, NewBlock, MergedBlocks;
    assert AllStripesOk(baseK, t);
    TwoStripes(baseK, t, a);
    TwoStripes(baseK, t, b);
  }

  lemma TwoStripes(baseK: nat, t: Tables, s: nat)
    requires AllStripesOk(baseK, t) && s in t.stripes
    ensures t.stripes[s].k <= |t.stripes[s].blocks|
  {
    hide BlockOk;
    assert StripeOk(baseK, t, s);
  }

  lemma StepsCount(steps: seq<Task>, t: Tables, a: nat, b: nat, task: nat, moves: seq<Migration>)
    requires SizesMatch(t, a, b) && StepsOf(steps, t, a, b, task, moves)
    ensures |moves| <= |steps|
  {
  }

  lemma StillAtHome(t: Tables, disk: Disk, disk': Disk)
    requires ParitiesAtHome(t, disk) && forall w :: w in disk' ==> w in disk
    ensures ParitiesAtHome(t, disk')
  {
    hide AtHome;
  }

  lemma PairDiffers(baseK: nat, t: Tables, a: nat, b: nat, round: nat)
    requires Mergeable(baseK, t, a, b, round)
    ensures a != b
  {
  }

  lemma StillThere(before: map<nat, Block>, after: map<nat, Block>, list: seq<nat>, first: nat, sid: nat,
                   places: map<nat, Place>)
    requires DataWalk(before, after, list, first, sid, places)
    ensures after.Keys == before.Keys
  {
  }

  lemma AllThere(t: Tables, blocks: map<nat, Block>, a: nat, b: nat, places: map<nat, Place>, task: nat)
    requires a in t.stripes && b in t.stripes
    requires t.stripes[a].k <= |t.stripes[a].blocks| && t.stripes[b].k <= |t.stripes[b].blocks|
    requires RelabelledOk(t, blocks, a, b, places, task)
    ensures forall p :: p in MergedBlocks(t.stripes[a], t.stripes[b]) ==> p in blocks
  {
    hide NewBlock, Regrouped, MergedBlocks;
  }

  lemma StripesDone(t: Tables, t': Tables, a: nat, b: nat, groups: map<int, seq<nat>>, clusters: set<nat>)
    requires a in t.stripes && b in t.stripes && a != b
    requires t.stripes[a].k <= |t.stripes[a].blocks| && t.stripes[b].k <= |t.stripes[b].blocks|
    requires t'.stripes == (t.stripes - {b})[a := t.stripes[a].(k := 2 * t.stripes[a].k,
               blocks := MergedBlocks(t.stripes[a], t.stripes[b]), groups := groups, clusters := clusters)]
    ensures StripesCommitted(t, t', a, b)
  {
    hide MergedBlocks;
  }

  lemma EntriesAgree(t: Tables, a: nat)
    requires a in t.stripes
    ensures EntriesIn(t.blocks, t.stripes[a].blocks) == EntriesOf(t, a)
  {
  }
}

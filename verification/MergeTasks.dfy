/**
 * From a plan to the steps that carry it out: the copies and parity folds of a
 * merge, and why none of them touches a file that is in use.
 */
module MergeTasks {
  import opened Gf256Tables
  import opened LinearAlgebra
  import opened MergeConfig
  import opened MergeParity
  import opened MergePlan
  import opened MergeMoves
  import opened MergeTables
  import opened MergeIO
  import opened MergeCommit

  // ---- The planner's input ----

  /** What the planner gets to see of the two stripes. */
  ghost function PlanInput(t: Tables, a: nat, b: nat, nodeRow: seq<int>): Merge
    requires a in t.stripes && b in t.stripes
    requires t.stripes[a].k < |t.stripes[a].blocks| && t.stripes[b].k <= |t.stripes[b].blocks|
  {
    var left, right := t.stripes[a], t.stripes[b];
    Merge(left.blocks[..left.k], right.blocks[..right.k],
          map p | p in t.blocks && t.blocks[p].localGroup >= 0 :: t.blocks[p].localGroup,
          left.z, left.r + 1, BlockAt(t, left.blocks[left.k]).place.cluster, nodeRow,
          map c | c in t.racks :: t.racks[c].nodes)
  }

  ghost function CurrentPlaces(t: Tables, a: nat, b: nat): map<nat, Place>
    requires a in t.stripes && b in t.stripes
    requires t.stripes[a].k <= |t.stripes[a].blocks| && t.stripes[b].k <= |t.stripes[b].blocks|
  {
    map p | p in t.stripes[a].blocks[..t.stripes[a].k] + t.stripes[b].blocks[..t.stripes[b].k] :: BlockAt(t, p).place
  }

  /** Every planned block is a data block of one of the stripes. */
  lemma PlannedBlock(baseK: nat, t: Tables, a: nat, b: nat, p: nat)
    requires AllStripesOk(baseK, t) && a in t.stripes && b in t.stripes
    requires t.stripes[a].k <= |t.stripes[a].blocks| && t.stripes[b].k <= |t.stripes[b].blocks|
    requires p in CurrentPlaces(t, a, b)
    ensures exists s, i :: (s == a || s == b) && DataAt(t, s, i) && t.stripes[s].blocks[i] == p
  {
    var left, right := t.stripes[a], t.stripes[b];
    if p in left.blocks[..left.k] {
      var i :| 0 <= i < left.k && left.blocks[i] == p;
      assert DataAt(t, a, i);
    } else {
      var i :| 0 <= i < right.k && right.blocks[i] == p;
      assert DataAt(t, b, i);
    }
  }

  lemma DataInPlaces(t: Tables, a: nat, b: nat, s: nat, i: nat)
    requires a in t.stripes && b in t.stripes && (s == a || s == b) && DataAt(t, s, i)
    requires t.stripes[a].k <= |t.stripes[a].blocks| && t.stripes[b].k <= |t.stripes[b].blocks|
    ensures t.stripes[s].blocks[i] in CurrentPlaces(t, a, b)
    ensures CurrentPlaces(t, a, b)[t.stripes[s].blocks[i]] == At(t, s, i).place
  {
    var left, right := t.stripes[a], t.stripes[b];
    if s == a {
      assert left.blocks[..left.k][i] == left.blocks[i];
    } else {
      assert right.blocks[..right.k][i] == right.blocks[i];
    }
  }

  lemma DataBlocksDiffer(baseK: nat, t: Tables, s: nat)
    requires AllStripesOk(baseK, t) && s in t.stripes
    ensures t.stripes[s].k <= |t.stripes[s].blocks| && NoDup(t.stripes[s].blocks[..t.stripes[s].k])
    ensures forall p :: p in t.stripes[s].blocks[..t.stripes[s].k] ==>
      p in t.blocks && t.blocks[p].stripe == s && 0 <= t.blocks[p].localGroup < t.stripes[s].z
  {
    hide ParityKey;
    assert StripeOk(baseK, t, s);
  }

  lemma PlanInputShape(baseK: nat, t: Tables, a: nat, b: nat, round: nat, nodeRow: seq<int>)
    requires Sane(baseK, t) && Mergeable(baseK, t, a, b, round)
    ensures t.stripes[a].k < |t.stripes[a].blocks| && t.stripes[b].k <= |t.stripes[b].blocks|
    ensures Shape(PlanInput(t, a, b, nodeRow), CurrentPlaces(t, a, b))
  {
    hide NoDup, RacksOk, DataKeysDiffer, AllStripesOk, Pow2;
    assert StripePlaced(t, a) && StripePlaced(t, b);
    DataBlocksDiffer(baseK, t, a);
    DataBlocksDiffer(baseK, t, b);
    var loc := CurrentPlaces(t, a, b);
    forall p | p in loc
      ensures loc[p].cluster in t.racks
    {
      PlannedBlock(baseK, t, a, b, p);
      var s, i :| (s == a || s == b) && DataAt(t, s, i) && t.stripes[s].blocks[i] == p;
      assert OnItsRack(t, At(t, s, i).place);
    }
  }

  /** A successful plan is a proper placement of the merged stripe's data. */
  lemma PlanWellPlaced(baseK: nat, t: Tables, a: nat, b: nat, round: nat, nodeRow: seq<int>, places: map<nat, Place>,
                       moves: seq<Migration>)
    requires Sane(baseK, t) && Mergeable(baseK, t, a, b, round)
    requires t.stripes[a].k < |t.stripes[a].blocks| && t.stripes[b].k <= |t.stripes[b].blocks|
    requires Moved(PlanInput(t, a, b, nodeRow), CurrentPlaces(t, a, b), places, moves)
    requires GoodLayout(PlanInput(t, a, b, nodeRow), places)
    ensures WellPlaced(t, a, b, places)
  {
    hide GoodLayout, Sane, Mergeable, PlanInput, CurrentPlaces, Moved, At;
    SameK(baseK, t, a, b, round);
    forall p | p in places
      ensures OnItsRack(t, places[p]) && places[p].cluster != At(t, a, t.stripes[a].k).place.cluster
    {
      PlannedPlace(baseK, t, a, b, round, nodeRow, places, moves, p);
    }
    forall p, q | p in places && q in places && p != q
      ensures places[p].node != places[q].node
    {
      PlannedPlace(baseK, t, a, b, round, nodeRow, places, moves, p);
      PlannedPlace(baseK, t, a, b, round, nodeRow, places, moves, q);
      PlannedNodes(baseK, t, PlanInput(t, a, b, nodeRow), places, p, q);
    }
    forall s, i | (s == a || s == b) && DataAt(t, s, i)
      ensures t.stripes[s].blocks[i] in places
    {
      DataInPlaces(t, a, b, s, i);
      MovedKeys(PlanInput(t, a, b, nodeRow), CurrentPlaces(t, a, b), places, moves);
    }
  }

  lemma MovedKeys(m: Merge, loc0: map<nat, Place>, loc: map<nat, Place>, moves: seq<Migration>)
    requires Moved(m, loc0, loc, moves)
    ensures loc.Keys == loc0.Keys
  {
  }

  lemma PlannedNodes(baseK: nat, t: Tables, m: Merge, places: map<nat, Place>, p: nat, q: nat)
    requires Sane(baseK, t) && GoodLayout(m, places) && p in places && q in places && p != q
    requires OnItsRack(t, places[p]) && OnItsRack(t, places[q])
    ensures places[p].node != places[q].node
  {
    hide AllStripesOk, AllPlaced, DataKeysDiffer, RacksOk;
    if places[p].cluster == places[q].cluster {
      var c := places[p].cluster;
      assert c in Clusters(places);
      assert p in On(places, places.Keys, c) && q in On(places, places.Keys, c);
    } else {
      RacksApart(t, places[p], places[q]);
    }
  }

  lemma PlannedPlace(baseK: nat, t: Tables, a: nat, b: nat, round: nat, nodeRow: seq<int>, places: map<nat, Place>,
                     moves: seq<Migration>, p: nat)
    requires Sane(baseK, t) && Mergeable(baseK, t, a, b, round)
    requires t.stripes[a].k < |t.stripes[a].blocks| && t.stripes[b].k <= |t.stripes[b].blocks|
    requires Moved(PlanInput(t, a, b, nodeRow), CurrentPlaces(t, a, b), places, moves)
    requires GoodLayout(PlanInput(t, a, b, nodeRow), places) && p in places
    ensures OnItsRack(t, places[p]) && places[p].cluster != At(t, a, t.stripes[a].k).place.cluster
  {
    hide Pow2, StripeOk, RacksOk, DataKeysDiffer, CurrentPlaces;
    assert places[p].cluster in Clusters(places);
    if Moves(moves, p) {
      var i :| 0 <= i < |moves| && moves[i].block == p;
      assert MovedOne(PlanInput(t, a, b, nodeRow), CurrentPlaces(t, a, b), places, moves[i]);
    } else {
      PlannedBlock(baseK, t, a, b, p);
      var s, i :| (s == a || s == b) && DataAt(t, s, i) && t.stripes[s].blocks[i] == p;
      DataInPlaces(t, a, b, s, i);
      assert StripePlaced(t, s);
    }
  }

  // ---- The steps ----

  function KeyOf(t: Tables, p: nat): Key {
    BlockAt(t, p).key
  }

  /** Copy a migrating block to its planned node, keeping the source. */
  function CopyTask(t: Tables, mv: Migration): Task {
    CopyBlock((mv.source.node, KeyOf(t, mv.block)), (mv.target.node, KeyOf(t, mv.block)))
  }

  /** Fold parity j of both stripes on the left parity's node, under the new key. */
  function FoldTask(t: Tables, a: nat, b: nat, task: nat, j: nat): Task
    requires a in t.stripes && b in t.stripes
    requires t.stripes[a].k + j < |t.stripes[a].blocks| && t.stripes[b].k + j < |t.stripes[b].blocks|
  {
    var left, right := At(t, a, t.stripes[a].k + j), At(t, b, t.stripes[b].k + j);
    FoldParity(Location(left), Location(right), Coefficient(j, t.stripes[a].r, t.stripes[a].k),
               (left.place.node, NewKey(t.stripes[a], a, task, j)))
  }

  /** The steps of a merge: copies first, then one fold per parity. */
  ghost predicate StepsOf(steps: seq<Task>, t: Tables, a: nat, b: nat, task: nat, moves: seq<Migration>)
    requires a in t.stripes && b in t.stripes
    requires t.stripes[a].k <= |t.stripes[a].blocks|
    requires |t.stripes[a].blocks| - t.stripes[a].k == |t.stripes[b].blocks| - t.stripes[b].k
  {
    |steps| == |moves| + |t.stripes[a].blocks| - t.stripes[a].k &&
    (forall i :: 0 <= i < |moves| ==> steps[i] == CopyTask(t, moves[i])) &&
    (forall i :: |moves| <= i < |steps| ==> steps[i] == FoldTask(t, a, b, task, i - |moves|))
  }

  /** A plan for two stripes that may be merged, on consistent tables whose files are all there. */
  ghost predicate Ready(baseK: nat, t: Tables, written: map<nat, Bytes>, len: nat, disk: Disk, a: nat, b: nat,
                        round: nat,
                        places: map<nat, Place>, moves: seq<Migration>, task: nat) {
    Sane(baseK, t) && Mergeable(baseK, t, a, b, round) && TaskRound(task) == round &&
    Readable(t, written, len, disk) && ParitiesAtHome(t, disk) &&
    (forall i :: 0 <= i < |moves| ==> RightMove(t, a, b, places, moves[i])) &&
    (forall i, j :: 0 <= i < j < |moves| ==> moves[i].block != moves[j].block) &&
    (forall s, i :: (s == a || s == b) && DataAt(t, s, i) ==> PlannedOrStays(t, places, moves, s, i))
  }

  /** The move takes a data block of the right stripe from its node to another one. */
  ghost predicate RightMove(t: Tables, a: nat, b: nat, places: map<nat, Place>, mv: Migration) {
    b in t.stripes && mv.block in places && mv.target == places[mv.block] &&
    mv.source == BlockAt(t, mv.block).place && mv.target.node != mv.source.node &&
    exists i :: DataAt(t, b, i) && t.stripes[b].blocks[i] == mv.block
  }

  ghost predicate PlannedOrStays(t: Tables, places: map<nat, Place>, moves: seq<Migration>, s: nat, i: nat)
    requires DataAt(t, s, i)
  {
    Moves(moves, t.stripes[s].blocks[i]) || PlaceIn(places, t.stripes[s].blocks[i]) == At(t, s, i).place
  }

  /** A live block's file is there, with a full block of bytes. */
  lemma LiveStored(baseK: nat, t: Tables, written: map<nat, Bytes>, len: nat, disk: Disk, s: nat, i: nat)
    requires Sane(baseK, t) && Readable(t, written, len, disk) && s in t.stripes && i < |t.stripes[s].blocks|
    ensures Stored(disk, Location(At(t, s, i)), len)
    ensures t.stripes[s].k <= |t.stripes[s].blocks| && IsMatrix(DataOf(t, written, s), t.stripes[s].k, len)
    ensures disk[Location(At(t, s, i))] == Expected(t.stripes[s], DataOf(t, written, s), GroupsOf(t, s), len, i)
  {
    hide At, Location, GroupsOf, DataOf, GlobalParity, LocalParity, StripeOk, AllPlaced, RacksOk, DataKeysDiffer;
    assert StripeReadable(t, written, len, disk, s);
    assert StoredAt(disk, Location(At(t, s, i)), Expected(t.stripes[s], DataOf(t, written, s), GroupsOf(t, s), len, i));
    ExpectedSize(t.stripes[s], DataOf(t, written, s), GroupsOf(t, s), len, i);
  }

  lemma ExpectedSize(s: Stripe, data: seq<Bytes>, groups: seq<int>, len: nat, i: nat)
    requires IsMatrix(data, s.k, len) && |groups| == s.k
    ensures |Expected(s, data, groups, len, i)| == len
  {
    hide GlobalParity, LocalParity;
  }

  // ---- Copies ----

  lemma CopyPrepared(baseK: nat, t: Tables, written: map<nat, Bytes>, len: nat, disk: Disk, a: nat, b: nat, round: nat,
                     places: map<nat, Place>, moves: seq<Migration>, task: nat, i: nat)
    requires Ready(baseK, t, written, len, disk, a, b, round, places, moves, task) && i < |moves|
    ensures Prepared(disk, CopyTask(t, moves[i]), len)
    ensures !InUse(t, CopyTask(t, moves[i]).target)
    ensures KeyOf(t, moves[i].block).kind == Data
  {
    hide Sane, Mergeable, TaskRound, Readable, ParitiesAtHome, PlannedOrStays;
    assert RightMove(t, a, b, places, moves[i]);
    var x :| DataAt(t, b, x) && t.stripes[b].blocks[x] == moves[i].block;
    LiveStored(baseK, t, written, len, disk, b, x);
    StrayCopy(baseK, t, b, x, moves[i].target.node);
    DataKind(baseK, t, b, x);
  }

  lemma DataKind(baseK: nat, t: Tables, s: nat, x: nat)
    requires Sane(baseK, t) && DataAt(t, s, x)
    ensures At(t, s, x).key.kind == Data && BlockAt(t, t.stripes[s].blocks[x]) == At(t, s, x)
  {
    hide ParityKey, AllPlaced, RacksOk, DataKeysDiffer;
    assert StripeOk(baseK, t, s);
    SourceOk(baseK, t, s, x);
  }

  lemma ParityKind(baseK: nat, t: Tables, s: nat, x: nat)
    requires Sane(baseK, t) && s in t.stripes && t.stripes[s].k <= x < |t.stripes[s].blocks|
    ensures At(t, s, x).key.kind != Data && At(t, s, x).key.sid == s && HomeOf(t.stripes[s], At(t, s, x).key) == x
  {
    hide AllPlaced, RacksOk, DataKeysDiffer;
    assert StripeOk(baseK, t, s);
    SourceOk(baseK, t, s, x);
  }

  /** Different moves have different keys. */
  lemma MoveKeysDiffer(baseK: nat, t: Tables, written: map<nat, Bytes>, len: nat, disk: Disk, a: nat, b: nat,
                       round: nat,
                       places: map<nat, Place>, moves: seq<Migration>, task: nat, i: nat, j: nat)
    requires Ready(baseK, t, written, len, disk, a, b, round, places, moves, task) && i < j < |moves|
    ensures KeyOf(t, moves[i].block) != KeyOf(t, moves[j].block)
  {
    hide Sane, Mergeable, TaskRound, Readable, ParitiesAtHome, PlannedOrStays, At;
    assert RightMove(t, a, b, places, moves[i]) && RightMove(t, a, b, places, moves[j]);
    var x :| DataAt(t, b, x) && t.stripes[b].blocks[x] == moves[i].block;
    var y :| DataAt(t, b, y) && t.stripes[b].blocks[y] == moves[j].block;
    DataKind(baseK, t, b, x);
    DataKind(baseK, t, b, y);
    if At(t, b, x).key == At(t, b, y).key {
      KeysDiffer(baseK, t, b, x, b, y);
    }
  }

  // ---- Folds ----

  ghost predicate ParityIndex(t: Tables, a: nat, b: nat, j: nat) {
    a in t.stripes && b in t.stripes && t.stripes[a].k + j < |t.stripes[a].blocks| && t.stripes[b].k + j < |t.stripes[b].blocks|
  }

  /** The right parity is found: the left node has a file of that name only if it is the right parity's node. */
  lemma RightFound(baseK: nat, t: Tables, written: map<nat, Bytes>, len: nat, disk: Disk, a: nat, b: nat, task: nat,
                   j: nat)
    requires Sane(baseK, t) && Readable(t, written, len, disk) && ParitiesAtHome(t, disk) && ParityIndex(t, a, b, j)
    ensures RightSource(disk, FoldTask(t, a, b, task, j)) == Location(At(t, b, t.stripes[b].k + j))
  {
    hide Sane, Readable, At, NewKey, Coefficient;
    var right := At(t, b, t.stripes[b].k + j);
    var local := (At(t, a, t.stripes[a].k + j).place.node, right.key);
    ParityKind(baseK, t, b, t.stripes[b].k + j);
    if local in disk {
      assert AtHome(t, local);
    }
  }

  lemma FoldPrepared(baseK: nat, t: Tables, written: map<nat, Bytes>, len: nat, disk: Disk, a: nat, b: nat, round: nat,
                     places: map<nat, Place>, moves: seq<Migration>, task: nat, j: nat)
    requires Ready(baseK, t, written, len, disk, a, b, round, places, moves, task) && ParityIndex(t, a, b, j)
    ensures Prepared(disk, FoldTask(t, a, b, task, j), len)
    ensures Result(disk, FoldTask(t, a, b, task, j), len) == FoldedParity(t, written, len, a, b, j)
    ensures !InUse(t, FoldTask(t, a, b, task, j).target) && AtHome(t, FoldTask(t, a, b, task, j).target)
  {
    hide Sane, Readable, At, ParitiesAtHome, TaskRound, Coefficient, Expected, VAdd, VScale, Pow2, DataOf, GroupsOf;
    SameK(baseK, t, a, b, round);
    var k := t.stripes[a].k;
    LiveStored(baseK, t, written, len, disk, a, k + j);
    LiveStored(baseK, t, written, len, disk, b, k + j);
    RightFound(baseK, t, written, len, disk, a, b, task, j);
    NewKeyUnused(baseK, t, a, b, round, task, j, At(t, a, k + j).place.node);
    NewKeyHome(t.stripes[a], a, task, j);
  }

  lemma NewKeyHome(s: Stripe, sid: nat, task: nat, j: nat)
    ensures var key := NewKey(s, sid, task, j);
      key.kind != Data && key.sid == sid && HomeOf(s, key) == s.k + j
  {
  }

  // ---- All steps together ----

  /** Parity keys, including the new ones, name their stripe; the new keys are new. */
  lemma TargetKey(baseK: nat, t: Tables, written: map<nat, Bytes>, len: nat, disk: Disk, a: nat, b: nat, round: nat,
                  places: map<nat, Place>, moves: seq<Migration>, task: nat, steps: seq<Task>, i: nat)
    requires Ready(baseK, t, written, len, disk, a, b, round, places, moves, task) && i < |steps|
    requires SizesMatch(t, a, b) && StepsOf(steps, t, a, b, task, moves)
    ensures Prepared(disk, steps[i], len) && !InUse(t, steps[i].target) && AtHome(t, steps[i].target)
    ensures i < |moves| ==> steps[i] == CopyTask(t, moves[i]) && steps[i].target.1 == KeyOf(t, moves[i].block)
    ensures i >= |moves| ==> ParityIndex(t, a, b, i - |moves|) && steps[i] == FoldTask(t, a, b, task, i - |moves|)
    ensures i >= |moves| ==> steps[i].target.1 == NewKey(t.stripes[a], a, task, i - |moves|)
    ensures steps[i].target.1.kind == Data <==> i < |moves|
  {
    hide Ready, Prepared, InUse, KeyOf, At;
    if i < |moves| {
      CopyPrepared(baseK, t, written, len, disk, a, b, round, places, moves, task, i);
    } else {
      FoldPrepared(baseK, t, written, len, disk, a, b, round, places, moves, task, i - |moves|);
    }
  }

  ghost predicate SizesMatch(t: Tables, a: nat, b: nat) {
    a in t.stripes && b in t.stripes && t.stripes[a].k <= |t.stripes[a].blocks| &&
    |t.stripes[a].blocks| - t.stripes[a].k == |t.stripes[b].blocks| - t.stripes[b].k
  }

  lemma MergeableSizes(baseK: nat, t: Tables, a: nat, b: nat, round: nat)
    requires Sane(baseK, t) && Mergeable(baseK, t, a, b, round)
    ensures SizesMatch(t, a, b) && |t.stripes[a].blocks| == t.stripes[a].k + t.stripes[a].r + t.stripes[a].z
    ensures t.stripes[a].r > 0
  {
    hide Pow2, BlockOk, AllPlaced, RacksOk, DataKeysDiffer;
    assert StripeOk(baseK, t, a) && StripeOk(baseK, t, b);
  }

  /** A place in use is no step's target, and the inputs of a step are in use or not written at all. */
  lemma StepSeparate(baseK: nat, t: Tables, written: map<nat, Bytes>, len: nat, disk: Disk, a: nat, b: nat, round: nat,
                     places: map<nat, Place>, moves: seq<Migration>, task: nat, steps: seq<Task>, i: nat)
    requires Ready(baseK, t, written, len, disk, a, b, round, places, moves, task) && i < |steps|
    requires SizesMatch(t, a, b) && StepsOf(steps, t, a, b, task, moves)
    ensures Separate(steps[i], Targets(steps))
  {
    hide Prepared, InUse, Readable, ParitiesAtHome, PlannedOrStays, TaskRound, Mergeable, Sane, AtHome, At, KeyOf;
    TargetKey(baseK, t, written, len, disk, a, b, round, places, moves, task, steps, i);
    forall w | w in Targets(steps)
      ensures !InUse(t, w) && (w.1.kind == Data || w.1 == NewKey(t.stripes[a], a, task, NewIndex(t, a, w.1)))
    {
      var x :| 0 <= x < |steps| && steps[x].target == w;
      TargetKey(baseK, t, written, len, disk, a, b, round, places, moves, task, steps, x);
      if x >= |moves| {
        NewIndexIs(t, a, task, x - |moves|);
      }
    }
    if i < |moves| {
      CopySourceUsed(baseK, t, written, len, disk, a, b, round, places, moves, task, i);
    } else {
      FoldSources(baseK, t, written, len, disk, a, b, round, places, moves, task, i - |moves|);
    }
  }

  /** Which parity a new key is for. */
  function NewIndex(t: Tables, a: nat, key: Key): nat
    requires a in t.stripes
  {
    if key.kind == Local then t.stripes[a].r + key.idx else key.idx
  }

  lemma NewIndexIs(t: Tables, a: nat, task: nat, j: nat)
    requires a in t.stripes
    ensures NewIndex(t, a, NewKey(t.stripes[a], a, task, j)) == j
  {
  }

  lemma CopySourceUsed(baseK: nat, t: Tables, written: map<nat, Bytes>, len: nat, disk: Disk, a: nat, b: nat,
                       round: nat,
                       places: map<nat, Place>, moves: seq<Migration>, task: nat, i: nat)
    requires Ready(baseK, t, written, len, disk, a, b, round, places, moves, task) && i < |moves|
    ensures InUse(t, CopyTask(t, moves[i]).source)
  {
    hide Sane, Mergeable, TaskRound, Readable, ParitiesAtHome, PlannedOrStays;
    assert RightMove(t, a, b, places, moves[i]);
    var x :| DataAt(t, b, x) && t.stripes[b].blocks[x] == moves[i].block;
    assert Location(At(t, b, x)) == CopyTask(t, moves[i]).source;
  }

  /** A fold reads both parities' own files, and at most looks for a file with the right parity's key. */
  lemma FoldSources(baseK: nat, t: Tables, written: map<nat, Bytes>, len: nat, disk: Disk, a: nat, b: nat, round: nat,
                    places: map<nat, Place>, moves: seq<Migration>, task: nat, j: nat)
    requires Ready(baseK, t, written, len, disk, a, b, round, places, moves, task) && ParityIndex(t, a, b, j)
    ensures InUse(t, FoldTask(t, a, b, task, j).left) && InUse(t, FoldTask(t, a, b, task, j).right)
    ensures FoldTask(t, a, b, task, j).right.1.kind != Data
    ensures forall x: nat :: FoldTask(t, a, b, task, j).right.1 != NewKey(t.stripes[a], a, task, x)
  {
    hide Sane, TaskRound, Readable, ParitiesAtHome, PlannedOrStays, At, Pow2, NewKey;
    var y := t.stripes[b].k + j;
    ParityKind(baseK, t, b, y);
    forall x: nat
      ensures At(t, b, y).key != NewKey(t.stripes[a], a, task, x)
    {
      NewKeyFresh(baseK, t, a, b, round, task, x, b, y);
    }
  }

  /** The steps can run, in any interleaving. */
  lemma StepsRunnable(baseK: nat, t: Tables, written: map<nat, Bytes>, len: nat, disk: Disk, a: nat, b: nat, round: nat,
                      places: map<nat, Place>, moves: seq<Migration>, task: nat, steps: seq<Task>)
    requires Ready(baseK, t, written, len, disk, a, b, round, places, moves, task)
    requires SizesMatch(t, a, b) && StepsOf(steps, t, a, b, task, moves)
    ensures Runnable(steps, disk, len)
  {
    hide Ready, Prepared, InUse, Separate, StepsOf, NewKey, KeyOf, CopyTask, FoldTask, AtHome;
    forall i: nat | i < |steps|
      ensures Prepared(disk, steps[i], len) && Separate(steps[i], Targets(steps))
    {
      TargetKey(baseK, t, written, len, disk, a, b, round, places, moves, task, steps, i);
      StepSeparate(baseK, t, written, len, disk, a, b, round, places, moves, task, steps, i);
    }
    forall i: nat, j: nat | i < j < |steps|
      ensures steps[i].target != steps[j].target
    {
      TargetKey(baseK, t, written, len, disk, a, b, round, places, moves, task, steps, i);
      TargetKey(baseK, t, written, len, disk, a, b, round, places, moves, task, steps, j);
      if j < |moves| {
        MoveKeysDiffer(baseK, t, written, len, disk, a, b, round, places, moves, task, i, j);
      } else if i >= |moves| {
        NewIndexIs(t, a, task, i - |moves|);
        NewIndexIs(t, a, task, j - |moves|);
      }
    }
  }

  /** While and after the steps run, everything stays readable and parities at home. */
  lemma StepsHarmless(baseK: nat, t: Tables, written: map<nat, Bytes>, len: nat, disk: Disk, disk': Disk, a: nat,
                      b: nat,
                      round: nat, places: map<nat, Place>, moves: seq<Migration>, task: nat, steps: seq<Task>)
    requires Ready(baseK, t, written, len, disk, a, b, round, places, moves, task)
    requires SizesMatch(t, a, b) && StepsOf(steps, t, a, b, task, moves) && Outside(disk, disk', Targets(steps))
    ensures Readable(t, written, len, disk') && ParitiesAtHome(t, disk')
    ensures forall w :: w in Targets(steps) ==> !InUse(t, w)
  {
    hide StepsOf, InUse, AtHome, Sane, Mergeable, TaskRound, Readable, RightMove, PlannedOrStays;
    forall w | w in Targets(steps)
      ensures !InUse(t, w) && AtHome(t, w)
    {
      var x :| 0 <= x < |steps| && steps[x].target == w;
      TargetKey(baseK, t, written, len, disk, a, b, round, places, moves, task, steps, x);
    }
    StillReadable(t, written, len, disk, disk');
  }

  /** The files of a merge carry numbers of stripes that exist or existed. */
  lemma StepsNumbered(baseK: nat, t: Tables, written: map<nat, Bytes>, len: nat, disk: Disk, disk': Disk, a: nat,
                      b: nat,
                      round: nat, places: map<nat, Place>, moves: seq<Migration>, task: nat, steps: seq<Task>, n: nat)
    requires Ready(baseK, t, written, len, disk, a, b, round, places, moves, task) && NumbersBelow(t, disk, n)
    requires SizesMatch(t, a, b) && StepsOf(steps, t, a, b, task, moves) && Outside(disk, disk', Targets(steps))
    ensures NumbersBelow(t, disk', n)
  {
    hide StepsOf, InUse, AtHome, Sane, Mergeable, TaskRound, Readable, PlannedOrStays, At, DataAt;
    forall w | w in disk'
      ensures w.1.sid < n
    {
      if w in Targets(steps) {
        var x :| 0 <= x < |steps| && steps[x].target == w;
        TargetKey(baseK, t, written, len, disk, a, b, round, places, moves, task, steps, x);
        if x < |moves| {
          assert RightMove(t, a, b, places, moves[x]);
          MovedNumber(t, disk, a, b, places, moves[x], n);
        }
      }
    }
  }

  lemma MovedNumber(t: Tables, disk: Disk, a: nat, b: nat, places: map<nat, Place>, mv: Migration, n: nat)
    requires RightMove(t, a, b, places, mv) && NumbersBelow(t, disk, n)
    ensures KeyOf(t, mv.block).sid < n
  {
    var i :| DataAt(t, b, i) && t.stripes[b].blocks[i] == mv.block;
    assert At(t, b, i).key.sid < n;
  }

  /** When all steps are done, everything the merged stripe needs is stored. */
  lemma StepsStore(baseK: nat, t: Tables, written: map<nat, Bytes>, len: nat, disk: Disk, disk': Disk, a: nat, b: nat,
                   round: nat, places: map<nat, Place>, moves: seq<Migration>, task: nat, steps: seq<Task>)
    requires Ready(baseK, t, written, len, disk, a, b, round, places, moves, task)
    requires SizesMatch(t, a, b) && StepsOf(steps, t, a, b, task, moves) && Runnable(steps, disk, len)
    requires Outside(disk, disk', Targets(steps)) && AllStored(steps, disk, disk', len)
    ensures t.stripes[a].k == t.stripes[b].k && MergeStored(t, written, len, disk', a, b, places, task)
  {
    hide Ready, Runnable, StepsOf, Outside, AllStored, At, NewKey, PlaceIn, FoldedParity;
    ReadySame(baseK, t, written, len, disk, a, b, round, places, moves, task);
    forall s, i | (s == a || s == b) && DataAt(t, s, i)
      ensures StoredAt(disk', (PlaceIn(places, t.stripes[s].blocks[i]).node, At(t, s, i).key), DataOf(t, written, s)[i])
    {
      DataStored(baseK, t, written, len, disk, disk', a, b, round, places, moves, task, steps, s, i);
    }
    forall j, x | 0 <= j && x == t.stripes[a].k + j < |t.stripes[a].blocks|
      ensures StoredAt(disk', (At(t, a, x).place.node, NewKey(t.stripes[a], a, task, j)), FoldedParity(t, written, len, a, b, j))
    {
      ParityStored(baseK, t, written, len, disk, disk', a, b, round, places, moves, task, steps, j);
    }
  }

  lemma ReadySame(baseK: nat, t: Tables, written: map<nat, Bytes>, len: nat, disk: Disk, a: nat, b: nat, round: nat,
                  places: map<nat, Place>, moves: seq<Migration>, task: nat)
    requires Ready(baseK, t, written, len, disk, a, b, round, places, moves, task)
    ensures a in t.stripes && b in t.stripes && t.stripes[a].k == t.stripes[b].k
    ensures t.stripes[a].k <= |t.stripes[a].blocks| && t.stripes[b].k <= |t.stripes[b].blocks|
    ensures IsMatrix(DataOf(t, written, a), t.stripes[a].k, len) && IsMatrix(DataOf(t, written, b), t.stripes[b].k, len)
  {
    hide Sane, ParitiesAtHome, PlannedOrStays, TaskRound, DataOf;
    assert StripeReadable(t, written, len, disk, a) && StripeReadable(t, written, len, disk, b);
  }

  lemma ParityStored(baseK: nat, t: Tables, written: map<nat, Bytes>, len: nat, disk: Disk, disk': Disk, a: nat, b: nat,
                     round: nat, places: map<nat, Place>, moves: seq<Migration>, task: nat, steps: seq<Task>, j: nat)
    requires Ready(baseK, t, written, len, disk, a, b, round, places, moves, task)
    requires SizesMatch(t, a, b) && StepsOf(steps, t, a, b, task, moves) && Runnable(steps, disk, len)
    requires AllStored(steps, disk, disk', len) && ParityIndex(t, a, b, j)
    requires t.stripes[a].k == t.stripes[b].k
    requires IsMatrix(DataOf(t, written, a), t.stripes[a].k, len)
    requires IsMatrix(DataOf(t, written, b), t.stripes[b].k, len)
    ensures StoredAt(disk', (At(t, a, t.stripes[a].k + j).place.node, NewKey(t.stripes[a], a, task, j)),
                     FoldedParity(t, written, len, a, b, j))
  {
    hide Ready, Runnable, At, NewKey, FoldedParity, Result, Prepared, StoredAt;
    var i := |moves| + j;
    assert steps[i] == FoldTask(t, a, b, task, i - |moves|);
    FoldPrepared(baseK, t, written, len, disk, a, b, round, places, moves, task, j);
    StepStored(steps, disk, disk', len, i);
  }

  lemma StepStored(steps: seq<Task>, disk: Disk, disk': Disk, len: nat, i: nat)
    requires Runnable(steps, disk, len) && AllStored(steps, disk, disk', len) && i < |steps|
    ensures Prepared(disk, steps[i], len) && StoredAt(disk', steps[i].target, Result(disk, steps[i], len))
  {
    hide Prepared, Result;
  }

  lemma DataStored(baseK: nat, t: Tables, written: map<nat, Bytes>, len: nat, disk: Disk, disk': Disk, a: nat, b: nat,
                   round: nat, places: map<nat, Place>, moves: seq<Migration>, task: nat, steps: seq<Task>, s: nat, i: nat)
    requires Ready(baseK, t, written, len, disk, a, b, round, places, moves, task)
    requires SizesMatch(t, a, b) && StepsOf(steps, t, a, b, task, moves) && Runnable(steps, disk, len)
    requires Outside(disk, disk', Targets(steps)) && AllStored(steps, disk, disk', len)
    requires (s == a || s == b) && DataAt(t, s, i) && t.stripes[s].k <= |t.stripes[s].blocks|
    ensures StoredAt(disk', (PlaceIn(places, t.stripes[s].blocks[i]).node, At(t, s, i).key), DataOf(t, written, s)[i])
  {
    hide Sane, Mergeable, Readable, ParitiesAtHome, TaskRound, Runnable, AllStored, GroupsOf, DataOf, At;
    LiveStored(baseK, t, written, len, disk, s, i);
    DataKind(baseK, t, s, i);
    if Moves(moves, t.stripes[s].blocks[i]) {
      var x :| 0 <= x < |moves| && moves[x].block == t.stripes[s].blocks[i];
      assert RightMove(t, a, b, places, moves[x]);
      TargetKey(baseK, t, written, len, disk, a, b, round, places, moves, task, steps, x);
      StepStored(steps, disk, disk', len, x);
    } else {
      assert PlannedOrStays(t, places, moves, s, i);
      StepsHarmless(baseK, t, written, len, disk, disk', a, b, round, places, moves, task, steps);
      LiveStored(baseK, t, written, len, disk', s, i);
    }
  }

  // ---- From the plan to the steps ----

  lemma PlanReady(baseK: nat, t: Tables, written: map<nat, Bytes>, len: nat, disk: Disk, a: nat, b: nat, round: nat,
                  nodeRow: seq<int>, places: map<nat, Place>, moves: seq<Migration>, task: nat)
    requires Sane(baseK, t) && Mergeable(baseK, t, a, b, round) && TaskRound(task) == round
    requires Readable(t, written, len, disk) && ParitiesAtHome(t, disk)
    requires t.stripes[a].k < |t.stripes[a].blocks| && t.stripes[b].k <= |t.stripes[b].blocks|
    requires Moved(PlanInput(t, a, b, nodeRow), CurrentPlaces(t, a, b), places, moves)
    ensures Ready(baseK, t, written, len, disk, a, b, round, places, moves, task)
  {
    hide Sane, Readable, ParitiesAtHome, PlanInput, CurrentPlaces, RightMove, PlannedOrStays, MovedOne, Moves, Pow2,
         TaskRound;
    var m, loc0 := PlanInput(t, a, b, nodeRow), CurrentPlaces(t, a, b);
    forall i: nat | i < |moves|
      ensures RightMove(t, a, b, places, moves[i])
    {
      PlannedRightMove(baseK, t, a, b, round, nodeRow, places, moves[i]);
    }
    forall s, i | (s == a || s == b) && DataAt(t, s, i)
      ensures PlannedOrStays(t, places, moves, s, i)
    {
      DataInPlaces(t, a, b, s, i);
      Stays(t, loc0, places, moves, s, i);
    }
  }

  lemma Stays(t: Tables, loc0: map<nat, Place>, places: map<nat, Place>, moves: seq<Migration>, s: nat, i: nat)
    requires DataAt(t, s, i) && t.stripes[s].blocks[i] in loc0 && loc0[t.stripes[s].blocks[i]] == At(t, s, i).place
    requires places.Keys == loc0.Keys && forall p :: p in places && !Moves(moves, p) ==> places[p] == loc0[p]
    ensures PlannedOrStays(t, places, moves, s, i)
  {
  }

  lemma PlannedRightMove(baseK: nat, t: Tables, a: nat, b: nat, round: nat, nodeRow: seq<int>, places: map<nat, Place>,
                         mv: Migration)
    requires Sane(baseK, t) && Mergeable(baseK, t, a, b, round)
    requires t.stripes[a].k < |t.stripes[a].blocks| && t.stripes[b].k <= |t.stripes[b].blocks|
    requires places.Keys == CurrentPlaces(t, a, b).Keys
    requires MovedOne(PlanInput(t, a, b, nodeRow), CurrentPlaces(t, a, b), places, mv)
    ensures RightMove(t, a, b, places, mv)
  {
    hide Pow2, AllStripesOk, RacksOk, DataKeysDiffer, CurrentPlaces, At;
    var right := t.stripes[b];
    var i :| 0 <= i < right.k && right.blocks[i] == mv.block;
    assert DataAt(t, b, i);
    DataInPlaces(t, a, b, b, i);
    DataKind(baseK, t, b, i);
    assert StripePlaced(t, b);
    RacksApart(t, mv.target, mv.source);
  }

  // ---- The files a merge leaves behind ----

  /** What the merge makes obsolete: the source of a copy, and both inputs of a fold. */
  ghost predicate Obsolete(steps: seq<Task>, w: (nat, Key)) {
    exists i :: 0 <= i < |steps| && InputOf(steps[i], w)
  }

  predicate InputOf(task: Task, w: (nat, Key)) {
    match task
    case CopyBlock(source, _) => w == source
    case FoldParity(left, right, _, _) => w == left || w == right
  }

  /** After the commit no obsolete file is in use. */
  lemma ObsoleteUnused(baseK: nat, t: Tables, t': Tables, written: map<nat, Bytes>, len: nat, disk: Disk, a: nat,
                       b: nat,
                       round: nat, places: map<nat, Place>, moves: seq<Migration>, task: nat, steps: seq<Task>, w: (nat, Key))
    requires Ready(baseK, t, written, len, disk, a, b, round, places, moves, task)
    requires SizesMatch(t, a, b) && StepsOf(steps, t, a, b, task, moves)
    requires Committed(baseK, t, t', a, b, places, task) && Sane(baseK, t') && Obsolete(steps, w)
    ensures !InUse(t', w)
  {
    hide Sane, Mergeable, Committed, Readable, ParitiesAtHome, InUse, PlannedOrStays, TaskRound, RightMove, At;
    var i :| 0 <= i < |steps| && InputOf(steps[i], w);
    SameK(baseK, t, a, b, round);
    if i < |moves| {
      MovedSourceUnused(baseK, t, t', a, b, round, places, moves[i], task);
    } else {
      var x := t.stripes[a].k + (i - |moves|);
      OldParityUnused(baseK, t, t', a, b, round, places, task, a, x, At(t, a, x).place.node);
      OldParityUnused(baseK, t, t', a, b, round, places, task, b, x, At(t, b, x).place.node);
    }
  }

  /** A moved block's old copy: the block is now at its planned place. */
  lemma MovedSourceUnused(baseK: nat, t: Tables, t': Tables, a: nat, b: nat, round: nat, places: map<nat, Place>,
                          mv: Migration, task: nat)
    requires Sane(baseK, t) && Mergeable(baseK, t, a, b, round) && Committed(baseK, t, t', a, b, places, task)
    requires Sane(baseK, t') && RightMove(t, a, b, places, mv)
    ensures !InUse(t', CopyTask(t, mv).source)
  {
    hide Sane, Committed, InUse, Pow2, At;
    var x :| DataAt(t, b, x) && t.stripes[b].blocks[x] == mv.block;
    DataKind(baseK, t, b, x);
    var i := t.stripes[a].k + x;
    Survives(baseK, t, t', a, b, round, places, task);
    MergedData(baseK, t, t', map[], a, b, round, places, task);
    MergedBlock(baseK, t, t', a, b, round, places, task, i);
    StrayCopy(baseK, t', a, i, mv.source.node);
  }
}

/**
 * The files that a merge writes and those it leaves behind, told from the
 * tables before the merge and from the planned places alone.
 */
module MergeFiles {
  import opened MergeParity
  import opened MergePlan
  import opened MergeMoves
  import opened MergeTables
  import opened MergeIO
  import opened MergeCommit
  import opened MergeTasks

  /** The file of a parity of one of the two stripes. */
  ghost predicate OldParityFile(t: Tables, a: nat, b: nat, w: (nat, Key)) {
    exists s: nat, x: nat :: ParityOf(t, a, b, s, x) && w == (At(t, s, x).place.node, At(t, s, x).key)
  }

  ghost predicate ParityOf(t: Tables, a: nat, b: nat, s: nat, x: nat) {
    (s == a || s == b) && s in t.stripes && t.stripes[s].k <= x < |t.stripes[s].blocks|
  }

  /** A data block of one of the two stripes that the plan puts on another node. */
  ghost predicate Relocated(t: Tables, a: nat, b: nat, places: map<nat, Place>, s: nat, i: nat) {
    (s == a || s == b) && s in t.stripes && i < t.stripes[s].k && i < |t.stripes[s].blocks| &&
    t.stripes[s].blocks[i] in places && places[t.stripes[s].blocks[i]].node != At(t, s, i).place.node
  }

  /** The file of such a block where it was ... */
  ghost predicate SourceFile(t: Tables, a: nat, b: nat, places: map<nat, Place>, w: (nat, Key)) {
    exists s: nat, i: nat :: Relocated(t, a, b, places, s, i) && w == (At(t, s, i).place.node, At(t, s, i).key)
  }

  /** ... and where it is to be. */
  ghost predicate CopyFile(t: Tables, a: nat, b: nat, places: map<nat, Place>, w: (nat, Key)) {
    exists s: nat, i: nat :: Relocated(t, a, b, places, s, i) && w == (places[t.stripes[s].blocks[i]].node, At(t, s, i).key)
  }

  /** The file of a folded parity: on the node of the left one, under a key made of the task's number. */
  ghost predicate FoldedFile(t: Tables, a: nat, task: nat, w: (nat, Key)) {
    exists j: nat :: FoldOf(t, a, task, j, w)
  }

  ghost predicate FoldOf(t: Tables, a: nat, task: nat, j: nat, w: (nat, Key)) {
    a in t.stripes && t.stripes[a].k + j < |t.stripes[a].blocks| &&
    w.0 == At(t, a, t.stripes[a].k + j).place.node &&
    w.1 == if j < t.stripes[a].r then Merged(a, task, Global, j) else Merged(a, task, Local, j - t.stripes[a].r)
  }

  /** The files that a merge makes needless. */
  ghost predicate LeftBehind(t: Tables, a: nat, b: nat, places: map<nat, Place>, w: (nat, Key)) {
    OldParityFile(t, a, b, w) || SourceFile(t, a, b, places, w)
  }

  /** The files that a merge sets out to write. */
  ghost predicate ToWrite(t: Tables, a: nat, b: nat, places: map<nat, Place>, task: nat, w: (nat, Key)) {
    CopyFile(t, a, b, places, w) || FoldedFile(t, a, task, w)
  }

  /** All other files are as they were. */
  ghost predicate OnlyThese(t: Tables, a: nat, b: nat, places: map<nat, Place>, task: nat, disk: Disk, disk': Disk) {
    forall w :: !LeftBehind(t, a, b, places, w) && !ToWrite(t, a, b, places, task, w) ==>
      (w in disk' <==> w in disk) && (w in disk ==> disk'[w] == disk[w])
  }

  /** Only files that the merge sets out to write have changed. */
  ghost predicate OnlyWritten(t: Tables, a: nat, b: nat, places: map<nat, Place>, task: nat, disk: Disk, disk': Disk) {
    forall w :: !ToWrite(t, a, b, places, task, w) ==> (w in disk' <==> w in disk) && (w in disk ==> disk'[w] == disk[w])
  }

  // ---- The steps ----

  /** A move and the block it moves. */
  lemma MoveIsRelocation(baseK: nat, t: Tables, a: nat, b: nat, places: map<nat, Place>, mv: Migration)
      returns (x: nat)
    requires Sane(baseK, t) && RightMove(t, a, b, places, mv)
    ensures Relocated(t, a, b, places, b, x) && t.stripes[b].blocks[x] == mv.block
    ensures CopyTask(t, mv).source == (At(t, b, x).place.node, At(t, b, x).key)
    ensures CopyTask(t, mv).target == (places[mv.block].node, At(t, b, x).key)
  {
    hide Sane, At, BlockAt;
    x :| DataAt(t, b, x) && t.stripes[b].blocks[x] == mv.block;
    DataKind(baseK, t, b, x);
  }

  /** A relocated block is moved. */
  lemma RelocationIsMoved(baseK: nat, t: Tables, a: nat, b: nat, places: map<nat, Place>, moves: seq<Migration>,
                          s: nat, i: nat) returns (x: nat)
    requires Sane(baseK, t) && Relocated(t, a, b, places, s, i) && PlannedOrStays(t, places, moves, s, i)
    requires forall x :: 0 <= x < |moves| ==> RightMove(t, a, b, places, moves[x])
    ensures x < |moves| && CopyTask(t, moves[x]).source == (At(t, s, i).place.node, At(t, s, i).key)
    ensures CopyTask(t, moves[x]).target == (places[t.stripes[s].blocks[i]].node, At(t, s, i).key)
  {
    hide Sane, At, BlockAt;
    x :| x < |moves| && moves[x].block == t.stripes[s].blocks[i];
    assert RightMove(t, a, b, places, moves[x]);
    DataKind(baseK, t, s, i);
  }

  /** The targets of the steps are the files to be written. */
  lemma TargetsAre(baseK: nat, t: Tables, a: nat, b: nat, places: map<nat, Place>, moves: seq<Migration>, task: nat,
                   steps: seq<Task>, w: (nat, Key))
    requires Sane(baseK, t) && SizesMatch(t, a, b) && StepsOf(steps, t, a, b, task, moves)
    requires forall x :: 0 <= x < |moves| ==> RightMove(t, a, b, places, moves[x])
    requires forall s, i :: (s == a || s == b) && DataAt(t, s, i) ==> PlannedOrStays(t, places, moves, s, i)
    ensures w in Targets(steps) <==> ToWrite(t, a, b, places, task, w)
  {
    hide Sane, At, RightMove, PlannedOrStays, FoldTask, CopyTask, FoldOf;
    if w in Targets(steps) {
      var i :| 0 <= i < |steps| && steps[i].target == w;
      if i < |moves| {
        var x := MoveIsRelocation(baseK, t, a, b, places, moves[i]);
      } else {
        FoldTarget(t, a, b, task, i - |moves|);
        assert FoldOf(t, a, task, i - |moves|, w);
      }
    }
    if CopyFile(t, a, b, places, w) {
      var s: nat, i: nat :| Relocated(t, a, b, places, s, i) && w == (places[t.stripes[s].blocks[i]].node, At(t, s, i).key);
      IsDataAt(t, a, b, places, s, i);
      var x := RelocationIsMoved(baseK, t, a, b, places, moves, s, i);
      assert steps[x] in steps;
    }
    if FoldedFile(t, a, task, w) {
      var j: nat :| FoldOf(t, a, task, j, w);
      FoldRange(t, a, task, j, w);
      FoldTarget(t, a, b, task, j);
      SameFold(t, a, task, j, w, FoldTask(t, a, b, task, j).target);
      assert steps[|moves| + j] in steps && steps[|moves| + j] == FoldTask(t, a, b, task, |moves| + j - |moves|);
    }
  }

  lemma IsDataAt(t: Tables, a: nat, b: nat, places: map<nat, Place>, s: nat, i: nat)
    requires Relocated(t, a, b, places, s, i)
    ensures (s == a || s == b) && DataAt(t, s, i) && t.stripes[s].blocks[i] in places
  {
  }

  lemma FoldRange(t: Tables, a: nat, task: nat, j: nat, w: (nat, Key))
    requires FoldOf(t, a, task, j, w)
    ensures a in t.stripes && t.stripes[a].k + j < |t.stripes[a].blocks|
  {
  }

  lemma SameFold(t: Tables, a: nat, task: nat, j: nat, w: (nat, Key), w': (nat, Key))
    requires FoldOf(t, a, task, j, w) && FoldOf(t, a, task, j, w')
    ensures w == w'
  {
    hide At;
  }

  /** What a fold reads and writes. */
  lemma FoldTarget(t: Tables, a: nat, b: nat, task: nat, j: nat)
    requires SizesMatch(t, a, b) && t.stripes[a].k + j < |t.stripes[a].blocks|
    ensures FoldOf(t, a, task, j, FoldTask(t, a, b, task, j).target)
    ensures FoldTask(t, a, b, task, j).FoldParity?
    ensures FoldTask(t, a, b, task, j).left == Location(At(t, a, t.stripes[a].k + j))
    ensures FoldTask(t, a, b, task, j).right == Location(At(t, b, t.stripes[b].k + j))
  {
    hide At;
  }

  /** The inputs of the steps are the files left behind. */
  lemma InputsAre(baseK: nat, t: Tables, a: nat, b: nat, places: map<nat, Place>, moves: seq<Migration>, task: nat,
                  steps: seq<Task>, w: (nat, Key))
    requires Sane(baseK, t) && SizesMatch(t, a, b) && StepsOf(steps, t, a, b, task, moves)
    requires forall x :: 0 <= x < |moves| ==> RightMove(t, a, b, places, moves[x])
    requires forall s, i :: (s == a || s == b) && DataAt(t, s, i) ==> PlannedOrStays(t, places, moves, s, i)
    ensures Obsolete(steps, w) <==> LeftBehind(t, a, b, places, w)
  {
    hide Sane, At, RightMove, PlannedOrStays, FoldTask, CopyTask;
    if Obsolete(steps, w) {
      var i :| 0 <= i < |steps| && InputOf(steps[i], w);
      if i < |moves| {
        var x := MoveIsRelocation(baseK, t, a, b, places, moves[i]);
        CopyShape(t, moves[i]);
      } else {
        FoldTarget(t, a, b, task, i - |moves|);
        assert ParityOf(t, a, b, a, t.stripes[a].k + (i - |moves|)) && ParityOf(t, a, b, b, t.stripes[b].k + (i - |moves|));
      }
    }
    if SourceFile(t, a, b, places, w) {
      var s: nat, i: nat :| Relocated(t, a, b, places, s, i) && w == (At(t, s, i).place.node, At(t, s, i).key);
      IsDataAt(t, a, b, places, s, i);
      var x := RelocationIsMoved(baseK, t, a, b, places, moves, s, i);
      CopyShape(t, moves[x]);
      assert InputOf(steps[x], w);
    }
    if OldParityFile(t, a, b, w) {
      var s: nat, x: nat :| ParityOf(t, a, b, s, x) && w == (At(t, s, x).place.node, At(t, s, x).key);
      var j := x - t.stripes[s].k;
      FoldTarget(t, a, b, task, j);
      assert steps[|moves| + j] == FoldTask(t, a, b, task, |moves| + j - |moves|);
      assert InputOf(steps[|moves| + j], w);
    }
  }

  lemma CopyShape(t: Tables, mv: Migration)
    ensures CopyTask(t, mv).CopyBlock?
  {
  }

  /** Both together, for a plan that is ready to be carried out. */
  lemma FilesOfSteps(baseK: nat, t: Tables, written: map<nat, Bytes>, len: nat, disk: Disk, a: nat, b: nat, round: nat,
                     places: map<nat, Place>, moves: seq<Migration>, task: nat, steps: seq<Task>)
    requires Ready(baseK, t, written, len, disk, a, b, round, places, moves, task)
    requires SizesMatch(t, a, b) && StepsOf(steps, t, a, b, task, moves)
    ensures forall w :: w in Targets(steps) <==> ToWrite(t, a, b, places, task, w)
    ensures forall w :: Obsolete(steps, w) <==> LeftBehind(t, a, b, places, w)
  {
    hide Sane, Mergeable, TaskRound, Readable, ParitiesAtHome, RightMove, PlannedOrStays, Targets, Obsolete, ToWrite,
         LeftBehind, StepsOf, SizesMatch;
    forall w
      ensures w in Targets(steps) <==> ToWrite(t, a, b, places, task, w)
      ensures Obsolete(steps, w) <==> LeftBehind(t, a, b, places, w)
    {
      TargetsAre(baseK, t, a, b, places, moves, task, steps, w);
      InputsAre(baseK, t, a, b, places, moves, task, steps, w);
    }
  }

  /** Deleting what was written undoes the steps. */
  lemma WrittenGone(t: Tables, a: nat, b: nat, places: map<nat, Place>, task: nat, targets: set<(nat, Key)>,
                    disk: Disk, disk': Disk, disk'': Disk)
    requires forall w :: w in targets <==> ToWrite(t, a, b, places, task, w)
    requires Outside(disk, disk', targets)
    requires forall w :: w !in targets ==> (w in disk'' <==> w in disk') && (w in disk' ==> disk''[w] == disk'[w])
    ensures OnlyWritten(t, a, b, places, task, disk, disk'')
  {
    hide ToWrite;
  }

  /** Steps and deletion together touch only what is written or left behind. */
  lemma OthersStay(t: Tables, a: nat, b: nat, places: map<nat, Place>, task: nat, targets: set<(nat, Key)>,
                   items: seq<(nat, Key)>, disk: Disk, disk': Disk, disk'': Disk)
    requires forall w :: w in targets <==> ToWrite(t, a, b, places, task, w)
    requires forall w :: w in items <==> LeftBehind(t, a, b, places, w)
    requires Outside(disk, disk', targets)
    requires forall w :: w !in items ==> (w in disk'' <==> w in disk') && (w in disk' ==> disk''[w] == disk'[w])
    ensures OnlyThese(t, a, b, places, task, disk, disk'')
  {
    hide ToWrite, LeftBehind;
  }
}

/**
 * The I/O of a merge.  Blocks are copied one after the other while all parity
 * blocks are folded concurrently; any step may fail, and a step that fails or
 * is still running may leave part of a file behind.
 */
module MergeIO {
  import opened Gf256Tables
  import opened LinearAlgebra
  import opened MergeParity
  import opened MergeTables

  datatype Task =
    | CopyBlock(source: (nat, Key), target: (nat, Key))
    | FoldParity(left: (nat, Key), right: (nat, Key), coeff: byte, target: (nat, Key))

  /** What the environment may let happen to a task. */
  datatype Event = Partial(task: nat, bytes: Bytes) | Finish(task: nat) | Fail(task: nat)

  predicate Ends(e: Event) {
    e.Finish? || e.Fail?
  }

  /** The first `copies` tasks run in order and stop at the first failure; the others all run to their end. */
  ghost predicate ValidSchedule(schedule: seq<Event>, tasks: nat, copies: nat) {
    (forall e :: 0 <= e < |schedule| ==> schedule[e].task < tasks) &&
    (forall d, e :: 0 <= d < e < |schedule| && Ends(schedule[d]) ==> schedule[e].task != schedule[d].task) &&
    (forall e, c :: 0 <= e < |schedule| && 0 <= c < schedule[e].task < copies ==> Finish(c) in schedule[..e]) &&
    (forall j :: copies <= j < tasks ==> Finish(j) in schedule || Fail(j) in schedule) &&
    ((exists c :: 0 <= c < copies && Fail(c) in schedule) || forall c :: 0 <= c < copies ==> Finish(c) in schedule)
  }

  /** Where a datanode finds the right parity: its own storage first, then the peer's. */
  function RightSource(disk: Disk, task: Task): (nat, Key)
    requires task.FoldParity?
  {
    if (task.left.0, task.right.1) in disk then (task.left.0, task.right.1) else task.right
  }

  predicate Stored(disk: Disk, where: (nat, Key), len: nat) {
    where in disk && |disk[where]| == len
  }

  /** All inputs of a task are there. */
  predicate Prepared(disk: Disk, task: Task, len: nat) {
    match task
    case CopyBlock(source, _) => Stored(disk, source, len)
    case FoldParity(left, _, _, _) => Stored(disk, left, len) && Stored(disk, RightSource(disk, task), len)
  }

  /** The file that a task produces. */
  function Result(disk: Disk, task: Task, len: nat): Bytes
    requires Prepared(disk, task, len)
  {
    match task
    case CopyBlock(source, _) => disk[source]
    case FoldParity(left, _, coeff, _) => VAdd(disk[left], VScale(coeff, disk[RightSource(disk, task)]))
  }

  /** The task reads only places that no task writes. */
  ghost predicate Separate(task: Task, targets: set<(nat, Key)>) {
    match task
    case CopyBlock(source, _) => source !in targets
    case FoldParity(left, right, _, _) => left !in targets && right !in targets && (left.0, right.1) !in targets
  }

  function Targets(tasks: seq<Task>): set<(nat, Key)> {
    set task | task in tasks :: task.target
  }

  ghost predicate Runnable(tasks: seq<Task>, disk: Disk, len: nat) {
    (forall i :: 0 <= i < |tasks| ==> Prepared(disk, tasks[i], len) && Separate(tasks[i], Targets(tasks))) &&
    (forall i, j :: 0 <= i < j < |tasks| ==> tasks[i].target != tasks[j].target)
  }

  /** Nothing but the targets of the tasks has changed. */
  ghost predicate Outside(disk: Disk, disk': Disk, targets: set<(nat, Key)>) {
    forall w :: w !in targets ==> (w in disk <==> w in disk') && (w in disk ==> disk'[w] == disk[w])
  }

  lemma OutsidePrepared(disk: Disk, disk': Disk, targets: set<(nat, Key)>, task: Task, len: nat)
    requires Outside(disk, disk', targets) && Prepared(disk, task, len) && Separate(task, targets)
    ensures Prepared(disk', task, len) && Result(disk', task, len) == Result(disk, task, len)
  {
    hide VAdd, VScale;
  }

  /** One task that nothing prevents from finishing. */
  method Perform(disk: Disk, task: Task, len: nat) returns (disk': Disk)
    requires Prepared(disk, task, len)
    ensures disk' == disk[task.target := Result(disk, task, len)]
  {
    hide VAdd, VScale;
    match task {
      case CopyBlock(source, target) =>
        disk' := disk[target := disk[source]];
      case FoldParity(left, right, coeff, target) =>
        var local := (left.0, right.1);
        var a := disk[left];
        var b := disk[if local in disk then local else right];
        var folded := MergeStripeParityGfXor(a, b, coeff);
        disk' := disk[target := folded];
    }
  }

  /** Only targets have changed, and finished tasks hold their results. */
  ghost predicate Underway(tasks: seq<Task>, disk: Disk, disk': Disk, events: seq<Event>, len: nat)
    requires Runnable(tasks, disk, len)
  {
    Outside(disk, disk', Targets(tasks)) &&
    forall i :: 0 <= i < |tasks| && Finish(i) in events ==> StoredAt(disk', tasks[i].target, Result(disk, tasks[i], len))
  }

  /** Every target holds its task's result. */
  ghost predicate AllStored(tasks: seq<Task>, disk: Disk, disk': Disk, len: nat)
    requires Runnable(tasks, disk, len)
  {
    forall i :: 0 <= i < |tasks| ==> StoredAt(disk', tasks[i].target, Result(disk, tasks[i], len))
  }

  /** A task that has not finished may write anything to its own target. */
  lemma PartialKeeps(tasks: seq<Task>, disk: Disk, disk': Disk, events: seq<Event>, len: nat, i: nat, bytes: Bytes)
    requires Runnable(tasks, disk, len) && Underway(tasks, disk, disk', events, len)
    requires i < |tasks| && Finish(i) !in events
    ensures Underway(tasks, disk, disk'[tasks[i].target := bytes], events + [Partial(i, bytes)], len)
  {
    hide Result, Prepared, Separate;
    assert tasks[i] in tasks;
  }

  lemma FinishKeeps(tasks: seq<Task>, disk: Disk, disk': Disk, events: seq<Event>, len: nat, i: nat)
    requires Runnable(tasks, disk, len) && Underway(tasks, disk, disk', events, len)
    requires i < |tasks| && Finish(i) !in events
    ensures Prepared(disk', tasks[i], len)
    ensures Underway(tasks, disk, disk'[tasks[i].target := Result(disk', tasks[i], len)], events + [Finish(i)], len)
  {
    hide Result, Prepared, Separate;
    assert tasks[i] in tasks;
    OutsidePrepared(disk, disk', Targets(tasks), tasks[i], len);
  }

  lemma FailKeeps(tasks: seq<Task>, disk: Disk, disk': Disk, events: seq<Event>, len: nat, i: nat)
    requires Runnable(tasks, disk, len) && Underway(tasks, disk, disk', events, len)
    ensures Underway(tasks, disk, disk', events + [Fail(i)], len)
  {
    hide Result, Prepared, Separate;
  }

  ghost predicate NoFailure(events: seq<Event>) {
    forall e :: 0 <= e < |events| ==> !events[e].Fail?
  }

  /** In a complete schedule without failures every task has finished. */
  lemma AllFinish(schedule: seq<Event>, tasks: nat, copies: nat, i: nat)
    requires ValidSchedule(schedule, tasks, copies) && NoFailure(schedule) && i < tasks && copies <= tasks
    ensures Finish(i) in schedule
  {
    assert forall c :: Fail(c) !in schedule;
  }

  /**
   * Runs the tasks as scheduled.  Without a failure every target holds its
   * task's result; in any case, and at every moment, only targets have changed.
   */
  method RunTasks(tasks: seq<Task>, ghost copies: nat, schedule: seq<Event>, disk: Disk, len: nat)
      returns (ok: bool, disk': Disk, ghost seen: seq<Disk>)
    requires Runnable(tasks, disk, len) && copies <= |tasks| && ValidSchedule(schedule, |tasks|, copies)
    ensures ok <==> NoFailure(schedule)
    ensures ok ==> AllStored(tasks, disk, disk', len)
    ensures Outside(disk, disk', Targets(tasks))
    ensures forall d :: d in seen ==> Outside(disk, d, Targets(tasks))
  {
    hide Prepared, Result, Separate, Targets, Outside, StoredAt, Runnable, AllStored, ValidSchedule;
    ok, disk', seen := true, disk, [];
    assert Underway(tasks, disk, disk', [], len) by { NothingDone(tasks, disk, len); }
    for e := 0 to |schedule|
      invariant Underway(tasks, disk, disk', schedule[..e], len)
      invariant forall d :: d in seen ==> Outside(disk, d, Targets(tasks))
      invariant ok <==> NoFailure(schedule[..e])
    {
      assert schedule[..e + 1] == schedule[..e] + [schedule[e]];
      var i := schedule[e].task;
      NotEnded(schedule, |tasks|, copies, e);
      match schedule[e] {
        case Partial(_, bytes) =>
          PartialKeeps(tasks, disk, disk', schedule[..e], len, i, bytes);
          disk' := disk'[tasks[i].target := bytes];
        case Finish(_) =>
          FinishKeeps(tasks, disk, disk', schedule[..e], len, i);
          disk' := Perform(disk', tasks[i], len);
        case Fail(_) =>
          FailKeeps(tasks, disk, disk', schedule[..e], len, i);
          ok := false;
      }
      seen := seen + [disk'];
    }
    assert schedule[..|schedule|] == schedule;
    if ok {
      AllResults(tasks, copies, schedule, disk, disk', len);
    }
  }

  lemma NotEnded(schedule: seq<Event>, tasks: nat, copies: nat, e: nat)
    requires ValidSchedule(schedule, tasks, copies) && e < |schedule|
    ensures schedule[e].task < tasks && Finish(schedule[e].task) !in schedule[..e]
  {
  }

  lemma AllResults(tasks: seq<Task>, copies: nat, schedule: seq<Event>, disk: Disk, disk': Disk, len: nat)
    requires Runnable(tasks, disk, len) && copies <= |tasks| && ValidSchedule(schedule, |tasks|, copies)
    requires Underway(tasks, disk, disk', schedule, len) && NoFailure(schedule)
    ensures AllStored(tasks, disk, disk', len)
  {
    hide Result, Separate, ValidSchedule, Outside;
    forall i | 0 <= i < |tasks|
      ensures StoredAt(disk', tasks[i].target, Result(disk, tasks[i], len))
    {
      AllFinish(schedule, |tasks|, copies, i);
    }
  }

  lemma NothingDone(tasks: seq<Task>, disk: Disk, len: nat)
    requires Runnable(tasks, disk, len)
    ensures Underway(tasks, disk, disk, [], len)
  {
  }

  /** The file is one of those that `order` names. */
  ghost predicate Named(items: seq<(nat, Key)>, order: seq<nat>, w: (nat, Key)) {
    exists i: nat :: i in order && i < |items| && items[i] == w
  }

  /**
   * Deletes files in any order and as far as it gets: `order` names the deletions
   * that happen, and exactly those files are gone afterwards.
   */
  method Cleanup(items: seq<(nat, Key)>, order: seq<nat>, disk: Disk) returns (disk': Disk, ghost seen: seq<Disk>)
    requires forall i :: 0 <= i < |order| ==> order[i] < |items|
    ensures forall w :: w !in items ==> (w in disk' <==> w in disk) && (w in disk ==> disk'[w] == disk[w])
    ensures forall w :: w in disk' ==> w in disk
    ensures forall w :: w in disk' <==> w in disk && !Named(items, order, w)
    ensures forall w :: w in disk' ==> w in disk && disk'[w] == disk[w]
    ensures forall d, w :: d in seen && w in disk && w !in items ==> w in d && d[w] == disk[w]
  {
    disk', seen := disk, [];
    for i := 0 to |order|
      invariant forall w :: w !in items ==> (w in disk' <==> w in disk) && (w in disk ==> disk'[w] == disk[w])
      invariant forall w :: w in disk' ==> w in disk && disk'[w] == disk[w]
      invariant forall w :: w in disk' <==> w in disk && !Named(items, order[..i], w)
      invariant forall d, w :: d in seen && w in disk && w !in items ==> w in d && d[w] == disk[w]
    {
      OneMoreNamed(items, order, i);
      disk' := disk' - {items[order[i]]};
      seen := seen + [disk'];
    }
    assert order[..|order|] == order;
  }

  lemma OneMoreNamed(items: seq<(nat, Key)>, order: seq<nat>, i: nat)
    requires i < |order| && order[i] < |items|
    ensures forall w :: Named(items, order[..i + 1], w) <==> Named(items, order[..i], w) || w == items[order[i]]
  {
    assert order[..i + 1] == order[..i] + [order[i]];
    assert order[i] in order[..i + 1];
  }
}

/**
 * Repair of a lost data block of a DdlRT-LRC stripe: every rack XORs its
 * surviving blocks of the local group, and the partial results are XORed.
 */
module RackRepair {
  import opened Gf256Tables
  import opened Gf256
  import opened LinearAlgebra
  import opened Encoding
  import opened LocalRepair
  import opened MergeParity
  import opened MergePlan
  import opened MergeTables
  import opened MergeProtocol

  // ---- Summing rack by rack ----

  /** The XOR of the listed files of one rack. */
  function RackSum(files: Matrix, list: seq<nat>, len: nat): (v: Vec)
    requires IsMatrix(files, |files|, len)
    ensures |v| == len
  {
    if list == [] then Zeros(len)
    else
      var last := list[|list| - 1];
      VAdd(RackSum(files, list[..|list| - 1], len), if last < |files| then files[last] else Zeros(len))
  }

  /** The XOR over the racks below n, in the order of the rack numbers. */
  function SumRacks(files: Matrix, byRack: map<nat, seq<nat>>, n: nat, len: nat): (v: Vec)
    requires IsMatrix(files, |files|, len)
    ensures |v| == len
  {
    if n == 0 then Zeros(len)
    else VAdd(SumRacks(files, byRack, n - 1, len),
              if n - 1 in byRack then RackSum(files, byRack[n - 1], len) else Zeros(len))
  }

  lemma RackSumPush(files: Matrix, list: seq<nat>, len: nat, i: nat)
    requires IsMatrix(files, |files|, len) && i < |files|
    ensures RackSum(files, list + [i], len) == VAdd(RackSum(files, list, len), files[i])
  {
    assert (list + [i])[..|list|] == list;
  }

  /** Which rack a block is counted in does not matter for the total. */
  lemma {:induction false} PushSum(files: Matrix, byRack: map<nat, seq<nat>>, n: nat, len: nat, c: nat, i: nat)
    requires IsMatrix(files, |files|, len) && i < |files|
    ensures SumRacks(files, Push(byRack, c, i), n, len)
         == if c < n then VAdd(SumRacks(files, byRack, n, len), files[i]) else SumRacks(files, byRack, n, len)
  {
    hide VAdd, RackSum;
    if n > 0 {
      PushSum(files, byRack, n - 1, len, c, i);
      var before := SumRacks(files, byRack, n - 1, len);
      var rack := if n - 1 in byRack then RackSum(files, byRack[n - 1], len) else Zeros(len);
      if c == n - 1 {
        RackSumPush(files, if c in byRack then byRack[c] else [], len, i);
        assert RackSum(files, [], len) == Zeros(len) by { EmptyRack(files, len); }
        VAddAssoc(before, rack, files[i]);
      } else if c < n - 1 {
        VAddAssoc(before, files[i], rack);
        VAddComm(files[i], rack);
        VAddAssoc(before, rack, files[i]);
      }
    }
  }

  lemma EmptyRack(files: Matrix, len: nat)
    requires IsMatrix(files, |files|, len)
    ensures RackSum(files, [], len) == Zeros(len)
  {
  }

  // ---- Helpers of a data block ----

  /** Which blocks help to rebuild block f: the other data of its local group and that group's parity. */
  predicate Helper(t: Tables, sid: nat, f: nat, i: nat)
    requires sid in t.stripes && f < |t.stripes[sid].blocks| && i < |t.stripes[sid].blocks|
  {
    var block, failed := At(t, sid, i), At(t, sid, f);
    block.id != f && (block.kind == Data || block.kind == Local) && block.localGroup == failed.localGroup
  }

  /** The XOR of the helpers among the first n blocks. */
  ghost function HelperSum(t: Tables, sid: nat, f: nat, files: Matrix, len: nat, n: nat): (v: Vec)
    requires sid in t.stripes && f < |t.stripes[sid].blocks| && n <= |t.stripes[sid].blocks| == |files|
    requires IsMatrix(files, |files|, len)
    ensures |v| == len
  {
    if n == 0 then Zeros(len)
    else
      var before := HelperSum(t, sid, f, files, len, n - 1);
      if Helper(t, sid, f, n - 1) then VAdd(before, files[n - 1]) else before
  }

  /** The right file contents of a stripe's blocks. */
  ghost predicate FilesOf(baseK: nat, t: Tables, written: map<nat, Bytes>, len: nat, sid: nat, files: Matrix) {
    AllStripesOk(baseK, t) && sid in t.stripes && |files| == |t.stripes[sid].blocks| && IsMatrix(files, |files|, len) &&
    t.stripes[sid].k <= |t.stripes[sid].blocks| && IsMatrix(DataOf(t, written, sid), t.stripes[sid].k, len) &&
    forall i :: 0 <= i < |files| ==> files[i] == Expected(t.stripes[sid], DataOf(t, written, sid), GroupsOf(t, sid), len, i)
  }

  /** The data helpers so far, together with the lost block once passed, are the local parity so far. */
  lemma {:induction false} DataHelpers(baseK: nat, t: Tables, written: map<nat, Bytes>, len: nat, sid: nat,
                                       files: Matrix, f: nat, n: nat)
    requires FilesOf(baseK, t, written, len, sid, files) && f < t.stripes[sid].k && n <= t.stripes[sid].k
    ensures var groups := GroupsOf(t, sid);
      Combine(Indicator(groups[..n], groups[f]), files[..n], len)
      == if f < n then VAdd(HelperSum(t, sid, f, files, len, n), files[f]) else HelperSum(t, sid, f, files, len, n)
    decreases n
  {
    hide Combine, VAdd, VScale, Indicator, Expected, At;
    var groups := GroupsOf(t, sid);
    var g := groups[f];
    if n == 0 {
      EmptyCombine(groups, files, g, len);
    } else {
      DataHelpers(baseK, t, written, len, sid, files, f, n - 1);
      IndicatorSnoc(groups, g, n);
      assert files[..n] == files[..n - 1] + [files[n - 1]];
      CombineSnoc(Indicator(groups[..n - 1], g), files[..n - 1], if groups[n - 1] == g then 1 else 0, files[n - 1]);
      ScaleOne(files[n - 1]);
      ScaleByZero(files[n - 1]);
      DataHelper(baseK, t, written, len, sid, files, f, n - 1);
      var before := HelperSum(t, sid, f, files, len, n - 1);
      VAddZeros(Combine(Indicator(groups[..n - 1], g), files[..n - 1], len));
      if f < n - 1 {
        VAddAssoc(before, files[f], files[n - 1]);
        VAddComm(files[f], files[n - 1]);
        VAddAssoc(before, files[n - 1], files[f]);
      }
    }
  }

  lemma EmptyCombine(groups: seq<int>, files: Matrix, g: int, len: nat)
    requires IsMatrix(files, |files|, len)
    ensures Combine(Indicator(groups[..0], g), files[..0], len) == Zeros(len)
  {
    assert groups[..0] == [] && files[..0] == [];
  }

  lemma IndicatorSnoc(groups: seq<int>, g: int, n: nat)
    requires 0 < n <= |groups|
    ensures Indicator(groups[..n], g) == Indicator(groups[..n - 1], g) + [if groups[n - 1] == g then 1 else 0]
  {
  }

  lemma DataHelper(baseK: nat, t: Tables, written: map<nat, Bytes>, len: nat, sid: nat, files: Matrix, f: nat, i: nat)
    requires FilesOf(baseK, t, written, len, sid, files) && f < t.stripes[sid].k && i < t.stripes[sid].k
    ensures Helper(t, sid, f, i) <==> i != f && GroupsOf(t, sid)[i] == GroupsOf(t, sid)[f]
  {
    hide Expected;
    assert StripeOk(baseK, t, sid);
    assert BlockOk(baseK, t.stripes[sid], sid, i, At(t, sid, i)) && BlockOk(baseK, t.stripes[sid], sid, f, At(t, sid, f));
  }

  /** Beyond the data, only the group's own local parity helps. */
  lemma ParityHelper(baseK: nat, t: Tables, written: map<nat, Bytes>, len: nat, sid: nat, files: Matrix, f: nat, i: nat)
    requires FilesOf(baseK, t, written, len, sid, files) && f < t.stripes[sid].k <= i < |files|
    ensures Helper(t, sid, f, i) <==> i == LocalIndex(t, sid, f)
    ensures t.stripes[sid].k <= LocalIndex(t, sid, f) < |files|
  {
    hide Expected;
    assert StripeOk(baseK, t, sid);
    assert BlockOk(baseK, t.stripes[sid], sid, i, At(t, sid, i)) && BlockOk(baseK, t.stripes[sid], sid, f, At(t, sid, f));
  }

  /** The position of the local parity of block f. */
  function LocalIndex(t: Tables, sid: nat, f: nat): int
    requires sid in t.stripes && f < |t.stripes[sid].blocks|
  {
    t.stripes[sid].k + t.stripes[sid].r + At(t, sid, f).localGroup
  }

  /** Beyond the data the sum changes exactly once, by the local parity. */
  lemma {:induction false} ParityHelpers(baseK: nat, t: Tables, written: map<nat, Bytes>, len: nat, sid: nat,
                                         files: Matrix, f: nat, n: nat)
    requires FilesOf(baseK, t, written, len, sid, files) && f < t.stripes[sid].k <= n <= |files|
    ensures t.stripes[sid].k <= LocalIndex(t, sid, f) < |files| || n == t.stripes[sid].k
    ensures HelperSum(t, sid, f, files, len, n)
         == if n > LocalIndex(t, sid, f) >= 0 && n > t.stripes[sid].k
            then VAdd(HelperSum(t, sid, f, files, len, t.stripes[sid].k), files[LocalIndex(t, sid, f)])
            else HelperSum(t, sid, f, files, len, t.stripes[sid].k)
    decreases n
  {
    hide VAdd, Expected, Helper, LocalIndex;
    if n > t.stripes[sid].k {
      ParityHelpers(baseK, t, written, len, sid, files, f, n - 1);
      ParityHelper(baseK, t, written, len, sid, files, f, n - 1);
    }
  }

  /** The XOR of all helpers is the lost block. */
  lemma HelpersRebuild(baseK: nat, t: Tables, written: map<nat, Bytes>, len: nat, sid: nat, files: Matrix, f: nat)
    requires FilesOf(baseK, t, written, len, sid, files) && f < t.stripes[sid].k
    ensures HelperSum(t, sid, f, files, len, |files|) == files[f]
  {
    hide VAdd, Helper, Combine, At, Indicator;
    var k := t.stripes[sid].k;
    var groups := GroupsOf(t, sid);
    var data := HelperSum(t, sid, f, files, len, k);
    DataHelpers(baseK, t, written, len, sid, files, f, k);
    ParityFollows(baseK, t, written, len, sid, files, f);
    ParityHelpers(baseK, t, written, len, sid, files, f, |files|);
    var parity := files[LocalIndex(t, sid, f)];
    assert parity == VAdd(data, files[f]);
    VAddAssoc(data, data, files[f]);
    VAddZeros(data);
    VAddZeros(files[f]);
  }

  lemma ParityFollows(baseK: nat, t: Tables, written: map<nat, Bytes>, len: nat, sid: nat, files: Matrix, f: nat)
    requires FilesOf(baseK, t, written, len, sid, files) && f < t.stripes[sid].k
    ensures var k, groups := t.stripes[sid].k, GroupsOf(t, sid);
      k <= LocalIndex(t, sid, f) < |files| &&
      files[LocalIndex(t, sid, f)] == Combine(Indicator(groups[..k], groups[f]), files[..k], len)
  {
    hide Combine, Indicator, GlobalParity;
    var s := t.stripes[sid];
    assert StripeOk(baseK, t, sid);
    assert BlockOk(baseK, s, sid, f, At(t, sid, f));
    assert files[..s.k] == DataOf(t, written, sid);
    assert GroupsOf(t, sid)[..s.k] == GroupsOf(t, sid);
  }

  // ---- The repair ----

  /** The helpers among the first n blocks, listed by rack, in the order of the blocks. */
  ghost predicate HelpersByRack(t: Tables, sid: nat, f: nat, files: Matrix, len: nat, byRack: map<nat, seq<nat>>,
                                n: nat)
    requires sid in t.stripes && f < |t.stripes[sid].blocks| && n <= |t.stripes[sid].blocks| == |files|
    requires IsMatrix(files, |files|, len)
  {
    (forall c :: c in byRack ==> AllHelpers(t, sid, f, byRack[c])) &&
    forall top: nat :: (forall c :: c in byRack ==> c < top) ==>
      SumRacks(files, byRack, top, len) == HelperSum(t, sid, f, files, len, n)
  }

  ghost predicate AllHelpers(t: Tables, sid: nat, f: nat, list: seq<nat>)
    requires sid in t.stripes && f < |t.stripes[sid].blocks|
  {
    forall x :: 0 <= x < |list| ==> list[x] < |t.stripes[sid].blocks| && Helper(t, sid, f, list[x])
  }

  lemma HelpersStep(t: Tables, sid: nat, f: nat, files: Matrix, len: nat, byRack: map<nat, seq<nat>>, n: nat)
    requires sid in t.stripes && f < |t.stripes[sid].blocks| && n < |t.stripes[sid].blocks| == |files|
    requires IsMatrix(files, |files|, len) && HelpersByRack(t, sid, f, files, len, byRack, n)
    ensures HelpersByRack(t, sid, f, files, len,
              if Helper(t, sid, f, n) then Push(byRack, At(t, sid, n).place.cluster, n) else byRack, n + 1)
  {
    hide VAdd, RackSum, SumRacks, Helper, At;
    if Helper(t, sid, f, n) {
      var c := At(t, sid, n).place.cluster;
      var after := Push(byRack, c, n);
      forall top: nat | forall d :: d in after ==> d < top
        ensures SumRacks(files, after, top, len) == HelperSum(t, sid, f, files, len, n + 1)
      {
        PushSum(files, byRack, top, len, c, n);
        assert c in after;
        assert forall d :: d in byRack ==> d in after;
      }
    }
  }

  lemma NoHelpers(t: Tables, sid: nat, f: nat, files: Matrix, len: nat)
    requires sid in t.stripes && f < |t.stripes[sid].blocks| == |files| && IsMatrix(files, |files|, len)
    ensures HelpersByRack(t, sid, f, files, len, map[], 0)
  {
    forall top: nat
      ensures SumRacks(files, map[], top, len) == Zeros(len)
    {
      SumNothing(files, top, len);
    }
  }

  lemma {:induction false} SumNothing(files: Matrix, n: nat, len: nat)
    requires IsMatrix(files, |files|, len)
    ensures SumRacks(files, map[], n, len) == Zeros(len)
  {
    hide VAdd;
    if n > 0 {
      SumNothing(files, n - 1, len);
      VAddZeros(Zeros(len));
    }
  }

  /** The listed blocks, and only they, have to be on disk. */
  ghost predicate AllReadable(t: Tables, disk: Disk, sid: nat, files: Matrix, list: seq<nat>)
    requires sid in t.stripes && |files| == |t.stripes[sid].blocks|
  {
    forall x :: 0 <= x < |list| ==> list[x] < |files| && StoredAt(disk, Location(At(t, sid, list[x])), files[list[x]])
  }

  /** Reads the files of one rack and XORs them, as the rack's proxy does. */
  method XorRack(c: Coordinator, sid: nat, list: seq<nat>, ghost files: Matrix) returns (sum: Bytes)
    requires sid in c.stripes && |files| == |c.stripes[sid].blocks| && IsMatrix(files, |files|, c.blockSize)
    requires AllReadable(c.Now(), c.disk, sid, files, list)
    ensures sum == RackSum(files, list, c.blockSize)
  {
    hide At, VAdd, Add;
    sum := Zeros(c.blockSize);
    for x := 0 to |list|
      invariant sum == RackSum(files, list[..x], c.blockSize)
    {
      var file := c.disk[Location(At(c.Now(), sid, list[x]))];
      assert list[..x + 1] == list[..x] + [list[x]];
      RackSumPush(files, list[..x], c.blockSize, list[x]);
      sum := VAdd(sum, file);
    }
    assert list[..|list|] == list;
  }

  /** The destination XORs what the racks contribute. */
  method XorRacks(c: Coordinator, sid: nat, byRack: map<nat, seq<nat>>, top: nat, ghost files: Matrix)
      returns (sum: Bytes)
    requires sid in c.stripes && |files| == |c.stripes[sid].blocks| && IsMatrix(files, |files|, c.blockSize)
    requires forall r :: r in byRack ==> AllReadable(c.Now(), c.disk, sid, files, byRack[r])
    ensures sum == SumRacks(files, byRack, top, c.blockSize)
  {
    hide At, VAdd, Add, RackSum;
    sum := Zeros(c.blockSize);
    for rack := 0 to top
      invariant sum == SumRacks(files, byRack, rack, c.blockSize)
    {
      VAddZeros(sum);
      if rack in byRack {
        var part := XorRack(c, sid, byRack[rack], files);
        sum := VAdd(sum, part);
      }
    }
  }

  ghost function FilesFor(t: Tables, written: map<nat, Bytes>, len: nat, sid: nat): (files: Matrix)
    requires sid in t.stripes
  {
    var s := t.stripes[sid];
    if s.k <= |s.blocks| && IsMatrix(DataOf(t, written, sid), s.k, len)
    then seq(|s.blocks|,
             i requires 0 <= i < |s.blocks| => Expected(s, DataOf(t, written, sid), GroupsOf(t, sid), len, i))
    else []
  }

  /** The helpers of block f are on disk with their right bytes; nothing is said about any other file. */
  ghost predicate HelpersStored(t: Tables, written: map<nat, Bytes>, len: nat, disk: Disk, sid: nat, f: nat)
    requires sid in t.stripes && f < |t.stripes[sid].blocks|
  {
    var s := t.stripes[sid];
    s.k <= |s.blocks| && IsMatrix(DataOf(t, written, sid), s.k, len) &&
    forall i :: 0 <= i < |s.blocks| && Helper(t, sid, f, i) ==>
      StoredAt(disk, Location(At(t, sid, i)), Expected(s, DataOf(t, written, sid), GroupsOf(t, sid), len, i))
  }

  /** The right contents, as far as they are on disk. */
  lemma FilesAre(baseK: nat, t: Tables, written: map<nat, Bytes>, len: nat, disk: Disk, sid: nat, f: nat)
    requires Sane(baseK, t) && sid in t.stripes && f < |t.stripes[sid].blocks|
    requires HelpersStored(t, written, len, disk, sid, f)
    ensures var files := FilesFor(t, written, len, sid);
      FilesOf(baseK, t, written, len, sid, files) && |files| == |t.stripes[sid].blocks| && IsMatrix(files, |files|, len) &&
      forall list: seq<nat> :: AllHelpers(t, sid, f, list) ==> AllReadable(t, disk, sid, files, list)
  {
    hide At, Location, DataOf, GroupsOf, GlobalParity, LocalParity, StripeOk, AllPlaced, RacksOk, DataKeysDiffer,
         Helper;
  }

  /** The disk after the file of one block has been lost, overwritten or damaged. */
  ghost predicate OneLost(disk: Disk, disk': Disk, where: (nat, Key)) {
    forall w :: w != where ==> (w in disk' <==> w in disk) && (w in disk ==> disk'[w] == disk[w])
  }

  /** Losing a block of a readable stripe leaves all of its helpers. */
  lemma LossLeavesHelpers(baseK: nat, t: Tables, written: map<nat, Bytes>, len: nat, disk: Disk, disk': Disk, sid: nat,
                          f: nat)
    requires Sane(baseK, t) && sid in t.stripes && f < |t.stripes[sid].blocks|
    requires StripeReadable(t, written, len, disk, sid) && OneLost(disk, disk', Location(At(t, sid, f)))
    ensures HelpersStored(t, written, len, disk', sid, f)
  {
    hide At, DataOf, GroupsOf, Expected, AllPlaced, RacksOk, DataKeysDiffer, ParityKey;
    assert StripeOk(baseK, t, sid);
    forall i: nat | i < |t.stripes[sid].blocks| && Helper(t, sid, f, i)
      ensures Location(At(t, sid, i)) != Location(At(t, sid, f))
    {
      OwnLocation(baseK, t, sid, f, i);
    }
  }

  lemma OwnLocation(baseK: nat, t: Tables, sid: nat, f: nat, i: nat)
    requires Sane(baseK, t) && sid in t.stripes && f < |t.stripes[sid].blocks| && i < |t.stripes[sid].blocks|
    requires Helper(t, sid, f, i)
    ensures i != f && At(t, sid, i).place.node != At(t, sid, f).place.node
  {
    hide RacksOk, DataKeysDiffer, ParityKey, OnItsRack;
    assert StripeOk(baseK, t, sid) && StripePlaced(t, sid);
    assert BlockOk(baseK, t.stripes[sid], sid, i, t.blocks[t.stripes[sid].blocks[i]]);
  }

  lemma SumIs(t: Tables, sid: nat, f: nat, files: Matrix, len: nat, byRack: map<nat, seq<nat>>, n: nat, top: nat)
    requires sid in t.stripes && f < |t.stripes[sid].blocks| && n <= |t.stripes[sid].blocks| == |files|
    requires IsMatrix(files, |files|, len) && HelpersByRack(t, sid, f, files, len, byRack, n)
    requires forall c :: c in byRack ==> c < top
    ensures forall c :: c in byRack ==> AllHelpers(t, sid, f, byRack[c])
    ensures SumRacks(files, byRack, top, len) == HelperSum(t, sid, f, files, len, n)
  {
    hide SumRacks, HelperSum, AllHelpers;
  }

  lemma FileOfData(baseK: nat, t: Tables, written: map<nat, Bytes>, len: nat, sid: nat, files: Matrix, f: nat)
    requires FilesOf(baseK, t, written, len, sid, files) && f < t.stripes[sid].k
    ensures files[f] == DataOf(t, written, sid)[f]
  {
    hide DataOf;
  }

  /**
   * The data-block branch of `recovery_one_block`: the helpers are grouped by
   * rack, each rack contributes one block, and their XOR is the lost block -
   * whatever the racks, and after any merges.  Only the helpers are read: the
   * lost block's own file may be gone or hold anything.
   */
  method RecoverDataBlock(c: Coordinator, sid: nat, failed: nat) returns (ok: bool, rebuilt: Bytes)
    requires Sane(c.baseK, c.Now())
    requires sid in c.stripes && failed < |c.stripes[sid].blocks| ==>
      failed < c.stripes[sid].k && HelpersStored(c.Now(), c.written, c.blockSize, c.disk, sid, failed)
    ensures ok <==> sid in c.stripes && failed < |c.stripes[sid].blocks|
    ensures ok ==> c.stripes[sid].k <= |c.stripes[sid].blocks| && failed < c.stripes[sid].k
    ensures ok ==> rebuilt == DataOf(c.Now(), c.written, sid)[failed]
  {
    hide Sane, At, FilesOf, HelpersByRack, Expected, HelpersStored, AllHelpers, AllReadable;
    if sid !in c.stripes || failed >= |c.stripes[sid].blocks| {
      return false, [];
    }
    ghost var files := FilesFor(c.Now(), c.written, c.blockSize, sid);
    FilesAre(c.baseK, c.Now(), c.written, c.blockSize, c.disk, sid, failed);
    var byRack: map<nat, seq<nat>> := map[];
    var top: nat := 0;
    NoHelpers(c.Now(), sid, failed, files, c.blockSize);
    for i := 0 to |c.stripes[sid].blocks|
      invariant forall r :: r in byRack ==> r < top
      invariant HelpersByRack(c.Now(), sid, failed, files, c.blockSize, byRack, i)
    {
      HelpersStep(c.Now(), sid, failed, files, c.blockSize, byRack, i);
      if Helper(c.Now(), sid, failed, i) {
        var rack := At(c.Now(), sid, i).place.cluster;
        byRack := Push(byRack, rack, i);
        top := if rack >= top then rack + 1 else top;
      }
    }
    SumIs(c.Now(), sid, failed, files, c.blockSize, byRack, |files|, top);
    rebuilt := XorRacks(c, sid, byRack, top, files);
    HelpersRebuild(c.baseK, c.Now(), c.written, c.blockSize, sid, files, failed);
    FileOfData(c.baseK, c.Now(), c.written, c.blockSize, sid, files, failed);
    ok := true;
  }

  /**
   * Loss and repair: any data block of a coordinator's valid state is lost -
   * its file deleted or replaced by anything - and rebuilt from the rest.
   */
  method LoseAndRecover(c: Coordinator, sid: nat, failed: nat, damaged: Disk) returns (rebuilt: Bytes)
    requires c.Valid() && sid in c.stripes && failed < c.stripes[sid].k
    requires failed < |c.stripes[sid].blocks| && OneLost(c.disk, damaged, Location(At(c.Now(), sid, failed)))
    modifies c`disk
    ensures c.disk == damaged && c.Now() == old(c.Now())
    ensures c.stripes[sid].k <= |c.stripes[sid].blocks| && rebuilt == DataOf(c.Now(), c.written, sid)[failed]
  {
    hide Sane, ParitiesAtHome, NumbersBelow, Allocated, At, HelpersStored, OneLost, Location, StripeReadable;
    assert StripeReadable(c.Now(), c.written, c.blockSize, c.disk, sid);
    LossLeavesHelpers(c.baseK, c.Now(), c.written, c.blockSize, c.disk, damaged, sid, failed);
    c.disk := damaged;
    var ok;
    ok, rebuilt := RecoverDataBlock(c, sid, failed);
  }
}

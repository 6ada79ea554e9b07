/**
 * The coordinator's tables for DdlRT-LRC stripes: blocks, stripes, racks and
 * nodes, what it means for them to be consistent, and what the datanodes must
 * store for every block they name.
 */
module MergeTables {
  import opened LinearAlgebra
  import opened MergeConfig
  import opened MergeParity
  import opened MergePlan

  datatype Kind = Data | Global | Local

  /** Block keys: of a freshly placed stripe, or of a parity written by a merge task. */
  datatype Key =
    | Original(sid: nat, kind: Kind, idx: nat)
    | Merged(sid: nat, task: nat, kind: Kind, idx: nat)

  datatype Block = Block(id: nat, key: Key, kind: Kind, group: int, stripe: nat, localGroup: int, place: Place)

  datatype Stripe = Stripe(k: nat, r: nat, z: nat, rounds: nat, batch: nat, pos: nat, overlaps: seq<int>, oaRow: nat,
                           blocks: seq<nat>, groups: map<int, seq<nat>>, clusters: set<nat>)

  datatype Rack = Rack(nodes: seq<nat>, stripes: set<nat>, blocks: seq<nat>)

  /** A node knows which block of which stripe it holds. */
  datatype Node = Node(cluster: nat, stripes: map<nat, nat>)

  /** The four tables; blocks are found by number, which stands for their address. */
  datatype Tables = Tables(blocks: map<nat, Block>, stripes: map<nat, Stripe>, racks: map<nat, Rack>, nodes: map<nat, Node>)

  /** The files of all datanodes. */
  type Disk = map<(nat, Key), Bytes>

  // ---- Merge task numbers ----

  const BITS_16: nat := 0x1_0000
  const BITS_20: nat := 0x10_0000
  const BITS_40: nat := 0x100_0000_0000

  /** The 64-bit task number: batch, round and the low bits of both stripe numbers. */
  function TaskId(batch: nat, round: nat, a: nat, b: nat): nat {
    (((batch + 1) % BITS_16) * 256 + round) * BITS_40 + (a % BITS_20) * BITS_20 + b % BITS_20
  }

  function TaskRound(task: nat): nat {
    task / BITS_40 % 256
  }

  /** The number of a merge has 64 bits: 16 for the batch, 8 for the round, and 20 for each stripe. */
  lemma TaskRoundIs(batch: nat, round: nat, a: nat, b: nat)
    requires round < 256
    ensures TaskRound(TaskId(batch, round, a, b)) == round
    ensures TaskId(batch, round, a, b) % 0x10_0000 == b % 0x10_0000
    ensures TaskId(batch, round, a, b) / 0x10_0000 % 0x10_0000 == a % 0x10_0000
    ensures TaskId(batch, round, a, b) / 0x100_0000_0000 % 0x100 == round
    ensures TaskId(batch, round, a, b) / 0x1_0000_0000_0000 == (batch + 1) % 0x1_0000
  {
    var high := ((batch + 1) % BITS_16) * 256 + round;
    var low := (a % BITS_20) * BITS_20 + b % BITS_20;
    assert TaskId(batch, round, a, b) / BITS_40 == high;
  }

  // ---- Consistent tables ----

  /** The key of a parity block; a merged one shows the merge rounds behind it. */
  predicate ParityKey(baseK: nat, s: Stripe, sid: nat, key: Key, kind: Kind, idx: nat) {
    key.sid == sid && key.kind == kind && key.idx == idx &&
    (key.Merged? ==> s.k == baseK * Pow2(TaskRound(key.task)))
  }

  /** Block i of a stripe: data first, then global parities, then local parities. */
  predicate BlockOk(baseK: nat, s: Stripe, sid: nat, i: nat, b: Block) {
    b.id == i && b.stripe == sid &&
    if i < s.k then
      b.kind == Data && 0 <= b.localGroup < s.z && b.key.Original? && b.key.kind == Data
    else if i < s.k + s.r then
      b.kind == Global && b.localGroup == -1 && ParityKey(baseK, s, sid, b.key, Global, i - s.k)
    else
      b.kind == Local && b.localGroup == i - s.k - s.r && ParityKey(baseK, s, sid, b.key, Local, i - s.k - s.r)
  }

  const NO_BLOCK := Block(0, Original(0, Data, 0), Data, 0, 0, 0, Place(0, 0, 0, 0))

  function BlockAt(t: Tables, p: nat): Block {
    if p in t.blocks then t.blocks[p] else NO_BLOCK
  }

  /** The block at a position of a stripe. */
  function At(t: Tables, sid: nat, i: nat): Block
    requires sid in t.stripes && i < |t.stripes[sid].blocks|
  {
    BlockAt(t, t.stripes[sid].blocks[i])
  }

  ghost predicate StripeOk(baseK: nat, t: Tables, sid: nat)
    requires sid in t.stripes
  {
    var s := t.stripes[sid];
    s.k > 0 && s.r > 0 && s.rounds <= MAX_LEVEL && |s.blocks| == s.k + s.r + s.z &&
    forall i :: 0 <= i < |s.blocks| ==> s.blocks[i] in t.blocks && BlockOk(baseK, s, sid, i, t.blocks[s.blocks[i]])
  }

  /** Every block is on a node of its rack; data stays off the parity rack; no two blocks of a stripe share a node. */
  ghost predicate StripePlaced(t: Tables, sid: nat)
    requires sid in t.stripes && |t.stripes[sid].blocks| > t.stripes[sid].k
  {
    var s := t.stripes[sid];
    var parity := At(t, sid, s.k).place.cluster;
    (forall i :: 0 <= i < |s.blocks| ==> OnItsRack(t, At(t, sid, i).place)) &&
    (forall i :: 0 <= i < |s.blocks| ==> (At(t, sid, i).place.cluster == parity <==> i >= s.k)) &&
    (forall i, j :: 0 <= i < j < |s.blocks| ==> At(t, sid, i).place.node != At(t, sid, j).place.node)
  }

  predicate OnItsRack(t: Tables, place: Place) {
    place.cluster in t.racks && place.node in t.racks[place.cluster].nodes
  }

  /** Nodes are listed by their own rack only. */
  ghost predicate RacksOk(t: Tables) {
    forall c, n :: c in t.racks && n in t.racks[c].nodes ==> n in t.nodes && t.nodes[n].cluster == c
  }

  ghost predicate AllStripesOk(baseK: nat, t: Tables) {
    forall sid :: sid in t.stripes ==> StripeOk(baseK, t, sid)
  }

  ghost predicate AllPlaced(t: Tables) {
    forall sid :: sid in t.stripes ==> |t.stripes[sid].blocks| > t.stripes[sid].k && StripePlaced(t, sid)
  }

  /** No two data blocks have the same key. */
  ghost predicate DataKeysDiffer(t: Tables) {
    forall a, i, b, j :: (DataAt(t, a, i) && DataAt(t, b, j) && At(t, a, i).key == At(t, b, j).key) ==> a == b && i == j
  }

  predicate DataAt(t: Tables, sid: nat, i: int) {
    sid in t.stripes && 0 <= i < t.stripes[sid].k && i < |t.stripes[sid].blocks|
  }

  /** The part of consistency that names, places and keys depend on. */
  ghost predicate Sane(baseK: nat, t: Tables) {
    baseK > 0 && AllStripesOk(baseK, t) && AllPlaced(t) && RacksOk(t) && DataKeysDiffer(t)
  }

  /** All live keys are different. */
  lemma KeysDiffer(baseK: nat, t: Tables, a: nat, i: nat, b: nat, j: nat)
    requires Sane(baseK, t) && a in t.stripes && b in t.stripes
    requires i < |t.stripes[a].blocks| && j < |t.stripes[b].blocks|
    requires At(t, a, i).key == At(t, b, j).key
    ensures a == b && i == j
  {
    hide ParityKey, AllPlaced, RacksOk;
    assert StripeOk(baseK, t, a) && StripeOk(baseK, t, b);
    assert BlockOk(baseK, t.stripes[a], a, i, At(t, a, i)) && BlockOk(baseK, t.stripes[b], b, j, At(t, b, j));
    KeyKind(baseK, t.stripes[a], a, i, At(t, a, i));
    KeyKind(baseK, t.stripes[b], b, j, At(t, b, j));
  }

  lemma KeyKind(baseK: nat, s: Stripe, sid: nat, i: nat, b: Block)
    requires BlockOk(baseK, s, sid, i, b) && |s.blocks| == s.k + s.r + s.z && i < |s.blocks|
    ensures b.key.kind == b.kind
    ensures i >= s.k ==> b.key.sid == sid && i == s.k + b.key.idx + if b.kind == Local then s.r else 0
  {
  }

  // ---- What must be stored ----

  function WrittenInto(written: map<nat, Bytes>, p: nat): Bytes {
    if p in written then written[p] else []
  }

  /** The data of a stripe, given what was written into every data block. */
  function DataOf(t: Tables, written: map<nat, Bytes>, sid: nat): (data: Matrix)
    requires sid in t.stripes && t.stripes[sid].k <= |t.stripes[sid].blocks|
    ensures |data| == t.stripes[sid].k
  {
    var s := t.stripes[sid];
    seq(s.k, i requires 0 <= i < s.k => WrittenInto(written, s.blocks[i]))
  }

  function GroupsOf(t: Tables, sid: nat): (groups: seq<int>)
    requires sid in t.stripes && t.stripes[sid].k <= |t.stripes[sid].blocks|
    ensures |groups| == t.stripes[sid].k
  {
    var s := t.stripes[sid];
    seq(s.k, i requires 0 <= i < s.k => BlockAt(t, s.blocks[i]).localGroup)
  }

  /** The bytes of block i of a stripe: its data, or the parity of the data in its current order and groups. */
  ghost function Expected(s: Stripe, data: Matrix, groups: seq<int>, len: nat, i: nat): Bytes
    requires IsMatrix(data, s.k, len) && |groups| == s.k
  {
    if i < s.k then data[i]
    else if i < s.k + s.r then GlobalParity(i - s.k, data, len)
    else LocalParity(i - s.k - s.r, groups, data, len)
  }

  function Location(b: Block): (nat, Key) {
    (b.place.node, b.key)
  }

  /** Every block of the stripe has a copy with the right bytes at its node under its key. */
  ghost predicate StripeReadable(t: Tables, written: map<nat, Bytes>, len: nat, disk: Disk, sid: nat)
    requires sid in t.stripes
  {
    var s := t.stripes[sid];
    s.k <= |s.blocks| && IsMatrix(DataOf(t, written, sid), s.k, len) &&
    forall i :: 0 <= i < |s.blocks| ==>
      StoredAt(disk, Location(At(t, sid, i)), Expected(s, DataOf(t, written, sid), GroupsOf(t, sid), len, i))
  }

  ghost predicate Readable(t: Tables, written: map<nat, Bytes>, len: nat, disk: Disk) {
    forall sid :: sid in t.stripes ==> StripeReadable(t, written, len, disk, sid)
  }

  predicate StoredAt(disk: Disk, where: (nat, Key), bytes: Bytes) {
    where in disk && disk[where] == bytes
  }

  /** A place in use: the copy of some block the tables name. */
  ghost predicate InUse(t: Tables, where: (nat, Key)) {
    exists sid, i :: sid in t.stripes && 0 <= i < |t.stripes[sid].blocks| && Location(At(t, sid, i)) == where
  }

  /** The position of the parity block that a parity key is about. */
  function HomeOf(s: Stripe, key: Key): nat {
    s.k + key.idx + if key.kind == Local then s.r else 0
  }

  /** A parity file of a stripe lies on the node of that parity. */
  ghost predicate AtHome(t: Tables, where: (nat, Key)) {
    var key := where.1;
    key.kind != Data && key.sid in t.stripes && HomeOf(t.stripes[key.sid], key) < |t.stripes[key.sid].blocks| ==>
      where.0 == At(t, key.sid, HomeOf(t.stripes[key.sid], key)).place.node
  }

  ghost predicate ParitiesAtHome(t: Tables, disk: Disk) {
    forall where :: where in disk ==> AtHome(t, where)
  }

  /** The stripe numbers of stripes, data blocks and files are below n. */
  ghost predicate NumbersBelow(t: Tables, disk: Disk, n: nat) {
    (forall s :: s in t.stripes ==> s < n) && (forall s, i :: DataAt(t, s, i) ==> At(t, s, i).key.sid < n) &&
    forall where :: where in disk ==> where.1.sid < n
  }

  /** All blocks have been allocated. */
  ghost predicate Allocated(t: Tables, n: nat) {
    forall p :: p in t.blocks ==> p < n
  }

  /** Nothing in use has been changed or deleted. */
  ghost predicate InUseKept(t: Tables, disk: Disk, disk': Disk) {
    forall w :: InUse(t, w) && w in disk ==> w in disk' && disk'[w] == disk[w]
  }

  /** Writing or deleting what is not in use leaves everything readable. */
  lemma StillReadable(t: Tables, written: map<nat, Bytes>, len: nat, disk: Disk, disk': Disk)
    requires Readable(t, written, len, disk) && InUseKept(t, disk, disk')
    ensures Readable(t, written, len, disk')
  {
    hide Expected, Location, At, GroupsOf, DataOf;
    forall sid | sid in t.stripes
      ensures StripeReadable(t, written, len, disk', sid)
    {
      assert StripeReadable(t, written, len, disk, sid);
      forall i: nat | i < |t.stripes[sid].blocks|
        ensures InUse(t, Location(At(t, sid, i)))
      {
      }
    }
  }
}

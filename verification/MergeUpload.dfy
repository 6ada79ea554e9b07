/**
 * A client stores a stripe: the coordinator places it, the client encodes the
 * parities, and the blocks are written to their nodes.
 */
module MergeUpload {
  import opened Gf256Tables
  import opened LinearAlgebra
  import opened MatrixBuffer
  import opened Generators
  import opened Encoding
  import opened MergeConfig
  import opened MergeParity
  import opened MergePlan
  import opened MergeTables
  import opened MergeIndex
  import opened MergeCommit
  import opened MergeIndexed
  import opened MergeProtocol
  import opened MergePlacement

  // ---- The tables ----

  function EntriesFor(base: nat, spots: seq<Spot>): (entries: seq<Entry>)
    ensures |entries| == |spots|
  {
    seq(|spots|, i requires 0 <= i < |spots| => Entry(base + i, spots[i].place, spots[i].group))
  }

  /** The first n blocks are in the block table. */
  ghost predicate BlocksSoFar(before: map<nat, Block>, after: map<nat, Block>, sid: nat, base: nat, s: Stripe,
                              spots: seq<Spot>, n: nat) {
    n <= |spots| && (forall p :: p in after <==> p in before || base <= p < base + n) &&
    (forall p :: p in before && p < base ==> after[p] == before[p]) &&
    forall p :: base <= p < base + n ==> after[p] == NewBlockAt(s, sid, p - base, spots[p - base])
  }

  lemma MoreBlocks(before: map<nat, Block>, after: map<nat, Block>, sid: nat, base: nat, s: Stripe, spots: seq<Spot>,
                   i: nat)
    requires i < |spots| && BlocksSoFar(before, after, sid, base, s, spots, i)
    ensures BlocksSoFar(before, after[base + i := NewBlockAt(s, sid, i, spots[i])], sid, base, s, spots, i + 1)
  {
    hide NewBlockAt;
  }

  /** The tables once all blocks and indexes are there. */
  lemma Registered(t: Tables, t': Tables, sid: nat, base: nat, s: Stripe, spots: seq<Spot>, groups: map<int, seq<nat>>,
                   clusters: set<nat>)
    requires Allocated(t, base) && sid !in t.stripes && BlocksSoFar(t.blocks, t'.blocks, sid, base, s, spots, |spots|)
    requires t'.stripes == t.stripes[sid := s.(blocks := BlockNumbers(base, |spots|), groups := groups, clusters := clusters)]
    requires Index(t'.racks, t'.nodes, groups, clusters) == IndexAll(Index(t.racks, t.nodes, map[], {}), sid, EntriesFor(base, spots))
    ensures Added(t, t', sid, base, s, spots)
  {
    hide NewBlockAt, IndexAll, EntriesFor, EntriesOf;
    EntriesAre(t', sid, base, s, spots);
  }

  lemma OneMoreSpot(start: Index, sid: nat, base: nat, spots: seq<Spot>, i: nat)
    requires i < |spots|
    ensures IndexAll(start, sid, EntriesFor(base, spots[..i + 1]))
         == IndexOne(IndexAll(start, sid, EntriesFor(base, spots[..i])), sid, i, Entry(base + i, spots[i].place, spots[i].group))
  {
    hide IndexOne;
    assert EntriesFor(base, spots[..i + 1])[..i] == EntriesFor(base, spots[..i]);
  }

  lemma NoSpots(start: Index, sid: nat, base: nat)
    ensures IndexAll(start, sid, EntriesFor(base, [])) == start
  {
  }

  lemma EntriesAre(t: Tables, sid: nat, base: nat, s: Stripe, spots: seq<Spot>)
    requires sid in t.stripes && t.stripes[sid].blocks == BlockNumbers(base, |spots|)
    requires forall p :: base <= p < base + |spots| ==>
      p in t.blocks && t.blocks[p] == NewBlockAt(s, sid, p - base, spots[p - base])
    ensures EntriesOf(t, sid) == EntriesFor(base, spots)
  {
  }

  /** Enters all blocks of a stripe into the tables of blocks, racks and nodes, and puts the stripe together. */
  method RegisterBlocks(c: Coordinator, sid: nat, s: Stripe, spots: seq<Spot>) returns (stripe: Stripe)
    requires Allocated(c.Now(), c.nextBlock) && sid !in c.stripes
    modifies c`blocks, c`racks, c`nodes, c`nextBlock
    ensures Added(old(c.Now()), WithStripe(c.Now(), sid, stripe), sid, old(c.nextBlock), s, spots)
    ensures c.nextBlock == old(c.nextBlock) + |spots|
  {
    hide NewBlockAt, IndexAll, AddToRack, AddToNode, AddToGroup, EntriesFor, EntriesOf, BlocksSoFar, Added, Allocated;
    ghost var t := c.Now();
    ghost var base := c.nextBlock;
    ghost var start := Index(c.racks, c.nodes, map[], {});
    var list: seq<nat>, groups: map<int, seq<nat>>, clusters: set<nat> := [], map[], {};
    NoSpots(start, sid, base);
    assert BlocksSoFar(t.blocks, c.blocks, sid, base, s, spots, 0) by { NoBlocksYet(t.blocks, sid, base, s, spots); }
    for i := 0 to |spots|
      invariant c.nextBlock == base + i && list == BlockNumbers(base, i)
      invariant BlocksSoFar(t.blocks, c.blocks, sid, base, s, spots, i)
      invariant Index(c.racks, c.nodes, groups, clusters) == IndexAll(start, sid, EntriesFor(base, spots[..i]))
    {
      var p := c.nextBlock;
      var place := spots[i].place;
      MoreBlocks(t.blocks, c.blocks, sid, base, s, spots, i);
      c.blocks := c.blocks[p := NewBlockAt(s, sid, i, spots[i])];
      c.nodes := AddToNode(c.nodes, place.node, sid, i);
      c.racks := AddToRack(c.racks, place.cluster, sid, p);
      groups := AddToGroup(groups, spots[i].group, i);
      clusters := clusters + {place.cluster};
      list := list + [p];
      c.nextBlock := p + 1;
      OneMoreSpot(start, sid, base, spots, i);
    }
    assert spots[..|spots|] == spots;
    stripe := s.(blocks := list, groups := groups, clusters := clusters);
    Registered(t, WithStripe(c.Now(), sid, stripe), sid, base, s, spots, groups, clusters);
  }

  /** The tables with one more entry in the stripe table. */
  function WithStripe(t: Tables, sid: nat, stripe: Stripe): Tables {
    t.(stripes := t.stripes[sid := stripe])
  }

  /** Enters a stripe with all its blocks into the tables. */
  method Register(c: Coordinator, sid: nat, s: Stripe, spots: seq<Spot>)
    requires Allocated(c.Now(), c.nextBlock) && sid !in c.stripes
    modifies c`blocks, c`stripes, c`racks, c`nodes, c`nextBlock
    ensures Added(old(c.Now()), c.Now(), sid, old(c.nextBlock), s, spots)
    ensures c.nextBlock == old(c.nextBlock) + |spots|
  {
    hide Added, Allocated;
    var stripe := RegisterBlocks(c, sid, s, spots);
    c.stripes := c.stripes[sid := stripe];
  }

  lemma NoBlocksYet(blocks: map<nat, Block>, sid: nat, base: nat, s: Stripe, spots: seq<Spot>)
    ensures BlocksSoFar(blocks, blocks, sid, base, s, spots, 0)
  {
  }

  // ---- The files ----

  /** Data blocks, then parities. */
  function Contents(data: Matrix, parity: Matrix, i: nat): Bytes {
    if i < |data| then data[i] else if i - |data| < |parity| then parity[i - |data|] else []
  }

  ghost predicate FilesSoFar(t: Tables, disk: Disk, disk': Disk, sid: nat, data: Matrix, parity: Matrix, n: nat)
    requires sid in t.stripes && n <= |t.stripes[sid].blocks|
  {
    (forall w: (nat, Key) :: w.1.sid != sid ==> (w in disk' <==> w in disk) && (w in disk ==> disk'[w] == disk[w])) &&
    (forall w :: w in disk' && w.1.sid == sid ==> FileOf(t, sid, w)) &&
    forall i :: 0 <= i < n ==> StoredAt(disk', Location(At(t, sid, i)), Contents(data, parity, i))
  }

  lemma WriteOne(t: Tables, disk: Disk, disk': Disk, sid: nat, data: Matrix, parity: Matrix, i: nat)
    requires sid in t.stripes && i < |t.stripes[sid].blocks| && FilesSoFar(t, disk, disk', sid, data, parity, i)
    requires At(t, sid, i).key.sid == sid
    requires forall x :: 0 <= x < i ==> Location(At(t, sid, x)) != Location(At(t, sid, i))
    ensures FilesSoFar(t, disk, disk'[Location(At(t, sid, i)) := Contents(data, parity, i)], sid, data, parity, i + 1)
  {
    hide At, Contents;
    assert FileOf(t, sid, Location(At(t, sid, i)));
  }

  /** Nothing is stored under the new number. */
  lemma NothingStored(t: Tables, t': Tables, disk: Disk, sid: nat, data: Matrix, parity: Matrix)
    requires NumbersBelow(t, disk, sid) && sid in t'.stripes
    ensures FilesSoFar(t', disk, disk, sid, data, parity, 0)
  {
  }

  lemma Locations(baseK: nat, t: Tables, sid: nat, i: nat)
    requires Sane(baseK, t) && sid in t.stripes && i < |t.stripes[sid].blocks|
    ensures forall x :: 0 <= x < i ==> Location(At(t, sid, x)) != Location(At(t, sid, i))
  {
    hide At, AllStripesOk, RacksOk, DataKeysDiffer;
    assert StripePlaced(t, sid);
  }

  /** Writes every block of the stripe to its node. */
  method Store(c: Coordinator, ghost t: Tables, sid: nat, data: Matrix, parity: Matrix)
    requires Sane(c.baseK, c.Now()) && NumbersBelow(t, c.disk, sid) && sid in c.stripes
    requires forall i :: 0 <= i < |c.stripes[sid].blocks| ==> At(c.Now(), sid, i).key.sid == sid
    modifies c`disk
    ensures FilesSoFar(c.Now(), old(c.disk), c.disk, sid, data, parity, |c.stripes[sid].blocks|)
  {
    hide Sane, At, FilesSoFar;
    NothingStored(t, c.Now(), c.disk, sid, data, parity);
    for i := 0 to |c.stripes[sid].blocks|
      invariant FilesSoFar(c.Now(), old(c.disk), c.disk, sid, data, parity, i)
    {
      Locations(c.baseK, c.Now(), sid, i);
      WriteOne(c.Now(), old(c.disk), c.disk, sid, data, parity, i);
      c.disk := c.disk[Location(At(c.Now(), sid, i)) := Contents(data, parity, i)];
    }
  }

  // ---- The parities ----

  /** Local groups are runs of k / z blocks. */
  ghost predicate InRuns(s: Stripe, spots: seq<Spot>) {
    s.z > 0 && s.k % s.z == 0 && s.k / s.z > 0 && s.k <= |spots| &&
    forall i: nat :: i < s.k ==> spots[i].localGroup == GroupOf(s.k / s.z, i)
  }

  lemma ShapeOk(k: nat, r: nat, z: nat)
    requires z > 0 && k % z == 0 && k / z > 0
    ensures ValidShape(AzureLRC, k, r, z)
  {
    assert k == z * (k / z);
  }

  /** What encoding gives is what the tables expect. */
  lemma EncodedIsExpected(s: Stripe, data: Matrix, groups: seq<int>, len: nat, parity: Matrix, i: nat)
    requires s.z > 0 && s.k % s.z == 0 && s.k / s.z > 0 && IsMatrix(data, s.k, len) && |groups| == s.k
    requires forall x: nat :: x < s.k ==> groups[x] == GroupOf(s.k / s.z, x)
    requires ValidShape(AzureLRC, s.k, s.r, s.z)
    requires parity == Encode(Generator(AzureLRC, s.k, s.r, s.z), data, len)[s.k..]
    requires i < s.k + s.r + s.z
    ensures Contents(data, parity, i) == Expected(s, data, groups, len, i)
  {
    hide Combine, GlobalParity, LocalParity, Generator;
    var g := Generator(AzureLRC, s.k, s.r, s.z);
    if i < s.k {
    } else {
      assert parity[i - s.k] == Combine(g[i], data, len);
      if i < s.k + s.r {
        EncodedGlobal(s.k, s.r, s.z, i - s.k, data, len);
      } else {
        EncodedLocal(s.k, s.r, s.z, i - s.k - s.r, data, len);
        assert groups == seq(s.k, x requires 0 <= x => GroupOf(s.k / s.z, x) as int);
        SameIndicator(s.k, s.k / s.z, i - s.k - s.r, groups, data, len);
      }
    }
  }

  lemma SameIndicator(k: nat, size: nat, g: nat, groups: seq<int>, data: Matrix, len: nat)
    requires size > 0 && |groups| == k && IsMatrix(data, k, len) && forall x: nat :: x < k ==>
      groups[x] == GroupOf(size, x)
    ensures LocalParity(g, seq(k, i requires 0 <= i => GroupOf(size, i)), data, len) == LocalParity(g, groups, data, len)
  {
    hide Combine;
    assert groups == seq(k, i requires 0 <= i => GroupOf(size, i));
  }

  // ---- The whole upload ----

  function DataWritten(written: map<nat, Bytes>, base: nat, data: Matrix): map<nat, Bytes> {
    written + map p: nat | p < base + |data| && NotBefore(p, base) :: data[p - base]
  }

  predicate NotBefore(p: nat, base: nat) {
    base <= p
  }

  /** The stripe's contents as the tables see them. */
  lemma NewContents(t: Tables, t': Tables, sid: nat, base: nat, s: Stripe, spots: seq<Spot>, written: map<nat, Bytes>,
                    data: Matrix)
    requires Added(t, t', sid, base, s, spots) && InRuns(s, spots) && |data| == s.k
    ensures sid in t'.stripes && s.k <= |t'.stripes[sid].blocks| && t'.stripes[sid].k == s.k
    ensures DataOf(t', DataWritten(written, base, data), sid) == data
    ensures forall x: nat :: x < s.k ==> GroupsOf(t', sid)[x] == GroupOf(s.k / s.z, x)
  {
    hide Added, GroupOf, NewBlockAt;
    AddedShape(t, t', sid, base, s, spots);
    forall i: nat | i < s.k
      ensures t'.stripes[sid].blocks[i] == base + i && BlockAt(t', base + i).localGroup == spots[i].localGroup
    {
      AddedBlock(t, t', sid, base, s, spots, i);
      NewGroup(s, sid, i, spots[i]);
    }
  }

  lemma NewGroup(s: Stripe, sid: nat, i: nat, spot: Spot)
    requires i < s.k
    ensures NewBlockAt(s, sid, i, spot).localGroup == spot.localGroup
  {
  }

  lemma NewReadable(t: Tables, t': Tables, sid: nat, base: nat, s: Stripe, spots: seq<Spot>, written: map<nat, Bytes>,
                    data: Matrix,
                    parity: Matrix, len: nat, disk: Disk, disk': Disk)
    requires Added(t, t', sid, base, s, spots) && InRuns(s, spots) && IsMatrix(data, s.k, len)
    requires |spots| == s.k + s.r + s.z
    requires ValidShape(AzureLRC, s.k, s.r, s.z)
    requires parity == Encode(Generator(AzureLRC, s.k, s.r, s.z), data, len)[s.k..]
    requires sid in t'.stripes && FilesSoFar(t', disk, disk', sid, data, parity, |t'.stripes[sid].blocks|)
    ensures FilesAdded(t', DataWritten(written, base, data), len, disk, disk', sid)
  {
    hide Added, GroupOf, At, Expected, Contents, Generator, Encode, Location, ValidShape, DataOf, GroupsOf;
    AddedShape(t, t', sid, base, s, spots);
    NewContents(t, t', sid, base, s, spots, written, data);
    var written' := DataWritten(written, base, data);
    forall i: nat | i < |spots|
      ensures Contents(data, parity, i) == Expected(t'.stripes[sid], DataOf(t', written', sid), GroupsOf(t', sid), len, i)
    {
      EncodedIsExpected(t'.stripes[sid], data, GroupsOf(t', sid), len, parity, i);
    }
  }

  lemma DataExtends(written: map<nat, Bytes>, base: nat, data: Matrix)
    ensures Extends(written, DataWritten(written, base, data), base)
  {
  }

  /**
   * `uploadSetValue` for one stripe, with everything written successfully: the
   * tables gain the stripe, and it is readable like all others.
   */
  method SetStripe(c: Coordinator, s: Stripe, spots: seq<Spot>, data: Matrix) returns (sid: nat)
    requires c.Valid() && Unmerged(c.baseK, s) && SpotsOk(c.Now(), s, spots) && InRuns(s, spots)
    requires IsMatrix(data, s.k, c.blockSize)
    modifies c`blocks, c`stripes, c`racks, c`nodes, c`disk, c`written, c`nextStripe, c`nextBlock
    ensures c.Valid() && sid == old(c.nextStripe) && c.nextStripe == sid + 1
    ensures c.nextBlock == old(c.nextBlock) + |spots|
    ensures Added(old(c.Now()), c.Now(), sid, old(c.nextBlock), s, spots) && SameMachines(old(c.Now()), c.Now())
    ensures c.written == DataWritten(old(c.written), old(c.nextBlock), data)
  {
    hide Added, Sane, Indexed, Readable, ParitiesAtHome, NumbersBelow, Allocated, SpotsOk, InRuns, Unmerged, Generator,
         Encode, At,
         FilesAdded, FilesSoFar, DataWritten, Extends, SameMachines, NodesIndexed;
    ghost var t, written, disk, base := c.Now(), c.written, c.disk, c.nextBlock;
    sid := c.nextStripe;
    c.nextStripe := sid + 1;
    NewNumber(t, disk, sid);
    Register(c, sid, s, spots);
    NodesOk(t);
    AddedSane(c.baseK, t, c.Now(), sid, base, s, spots, disk);
    AddedIndexed(c.baseK, t, c.Now(), sid, base, s, spots);
    AddedAllocated(t, c.Now(), sid, base, s, spots);
    SpotsCount(c.Now(), t, s, spots);
    ShapeOk(s.k, s.r, s.z);
    var parity := EncodeParities(s, data, c.blockSize);
    AddedShape(t, c.Now(), sid, base, s, spots);
    NewKeys(t, c.Now(), sid, base, s, spots);
    Store(c, t, sid, data, parity);
    c.written := DataWritten(c.written, base, data);
    DataExtends(written, base, data);
    NewReadable(t, c.Now(), sid, base, s, spots, written, data, parity, c.blockSize, disk, c.disk);
    SaneStripes(c.baseK, t);
    AddedReadable(c.baseK, t, c.Now(), sid, base, s, spots, c.blockSize, written, c.written, disk, c.disk);
    AddedAtHome(c.baseK, t, c.Now(), sid, base, s, spots, c.blockSize, c.written, disk, c.disk);
  }

  // ---- An upload that a proxy refuses ----

  /** A stripe whose blocks are the same is as before. */
  lemma StripeStays(baseK: nat, t': Tables, full: Tables, o: nat)
    requires o in t'.stripes && o in full.stripes && t'.stripes[o] == full.stripes[o]
    requires t'.blocks == full.blocks && t'.racks == full.racks
    requires StripeOk(baseK, full, o) && |full.stripes[o].blocks| > full.stripes[o].k && StripePlaced(full, o)
    ensures StripeOk(baseK, t', o) && StripePlaced(t', o)
  {
    hide BlockOk;
    assert forall i :: 0 <= i < |t'.stripes[o].blocks| ==> At(t', o, i) == At(full, o, i);
  }

  /** Without its entry in the stripe table the stripe's blocks harm none of the others. */
  lemma WithoutEntry(baseK: nat, t: Tables, t': Tables, sid: nat, base: nat, s: Stripe, spots: seq<Spot>,
                     stripe: Stripe)
    requires sid !in t.stripes && t'.stripes == t.stripes && Added(t, WithStripe(t', sid, stripe), sid, base, s, spots)
    requires Sane(baseK, WithStripe(t', sid, stripe))
    ensures Sane(baseK, t')
  {
    hide Added, StripeOk, StripePlaced;
    var full := WithStripe(t', sid, stripe);
    forall o | o in t'.stripes
      ensures StripeOk(baseK, t', o) && |t'.stripes[o].blocks| > t'.stripes[o].k && StripePlaced(t', o)
    {
      StripeStays(baseK, t', full, o);
    }
    assert forall o, i :: DataAt(t', o, i) ==> DataAt(full, o, i) && At(t', o, i) == At(full, o, i);
  }

  /** The blocks of the other stripes are the same ones. */
  lemma OthersReadable(baseK: nat, t: Tables, t': Tables, sid: nat, base: nat, s: Stripe, spots: seq<Spot>,
                       stripe: Stripe, written: map<nat, Bytes>, len: nat, disk: Disk)
    requires AllStripesOk(baseK, t) && Allocated(t, base) && Readable(t, written, len, disk)
    requires t'.stripes == t.stripes && Added(t, WithStripe(t', sid, stripe), sid, base, s, spots)
    ensures Readable(t', written, len, disk)
  {
    hide Expected, Location, BlockOk, NewBlockAt;
    forall o | o in t'.stripes
      ensures StripeReadable(t', written, len, disk, o)
    {
      assert StripeOk(baseK, t, o) && StripeReadable(t, written, len, disk, o);
      assert forall i :: 0 <= i < |t.stripes[o].blocks| ==> At(t', o, i) == At(t, o, i);
      assert DataOf(t', written, o) == DataOf(t, written, o) && GroupsOf(t', o) == GroupsOf(t, o);
    }
  }

  /** A node goes on listing the stripe that is not there. */
  lemma StillListed(t': Tables, sid: nat, stripe: Stripe)
    requires sid !in t'.stripes && NodesIndexed(WithStripe(t', sid, stripe)) && stripe.blocks != []
    ensures !NodesIndexed(t')
  {
    var full := WithStripe(t', sid, stripe);
    var n := At(full, sid, 0).place.node;
    assert Listed(full, n, sid, 0);
    assert !ListedAt(t', n, sid, t'.nodes[n].stripes[sid]);
  }

  /**
   * `uploadSetValue` when a proxy refuses its part of the placement.  The stripe
   * gets its number but no entry, and all other stripes stay readable.  Its
   * blocks remain in the tables of racks and nodes, which are wrong from now on.
   */
  method RefuseStripe(c: Coordinator, s: Stripe, spots: seq<Spot>) returns (sid: nat)
    requires c.Valid() && Unmerged(c.baseK, s) && SpotsOk(c.Now(), s, spots)
    modifies c`blocks, c`racks, c`nodes, c`nextStripe, c`nextBlock
    ensures sid == old(c.nextStripe) && c.nextStripe == sid + 1 && sid !in c.stripes
    ensures Sane(c.baseK, c.Now()) && Readable(c.Now(), c.written, c.blockSize, c.disk)
    ensures !Indexed(c.Now())
  {
    hide Added, Sane, Indexed, Readable, ParitiesAtHome, NumbersBelow, Allocated, SpotsOk, Unmerged, SameMachines,
         NodesIndexed, At;
    ghost var t, base := c.Now(), c.nextBlock;
    sid := c.nextStripe;
    c.nextStripe := sid + 1;
    NewNumber(t, c.disk, sid);
    var stripe := RegisterBlocks(c, sid, s, spots);
    ghost var full := WithStripe(c.Now(), sid, stripe);
    NodesOk(t);
    AddedSane(c.baseK, t, full, sid, base, s, spots, c.disk);
    AddedIndexed(c.baseK, t, full, sid, base, s, spots);
    NodesOk(full);
    AddedShape(t, full, sid, base, s, spots);
    HasSpots(c.baseK, t, s, spots);
    WithoutEntry(c.baseK, t, c.Now(), sid, base, s, spots, stripe);
    SaneStripes(c.baseK, t);
    OthersReadable(c.baseK, t, c.Now(), sid, base, s, spots, stripe, c.written, c.blockSize, c.disk);
    StillListed(c.Now(), sid, stripe);
    if Indexed(c.Now()) {
      NodesOk(c.Now());
    }
  }

  lemma HasSpots(baseK: nat, t: Tables, s: Stripe, spots: seq<Spot>)
    requires Unmerged(baseK, s) && SpotsOk(t, s, spots)
    ensures |spots| > 0
  {
  }

  /** The parities of a stripe, as the client encodes them. */
  method EncodeParities(s: Stripe, data: Matrix, len: nat) returns (parity: Matrix)
    requires ValidShape(AzureLRC, s.k, s.r, s.z) && IsMatrix(data, s.k, len)
    ensures parity == Encode(Generator(AzureLRC, s.k, s.r, s.z), data, len)[s.k..]
  {
    hide Generator, Encode;
    var buffer := new byte[s.r + s.z, len];
    EncodeStripe(AzureLRC, s.k, s.r, s.z, data, len, buffer);
    parity := ReadRows(buffer);
  }

  method ReadRows(a: array2<byte>) returns (rows: Matrix)
    ensures rows == Rows(a)
  {
    rows := [];
    for i := 0 to a.Length0
      invariant rows == Rows(a)[..i]
    {
      var row: Vec := [];
      for k := 0 to a.Length1
        invariant row == Rows(a)[i][..k]
      {
        row := row + [a[i, k]];
      }
      assert row == Rows(a)[i];
      rows := rows + [row];
    }
  }

  lemma NewNumber(t: Tables, disk: Disk, sid: nat)
    requires NumbersBelow(t, disk, sid)
    ensures sid !in t.stripes
  {
  }

  lemma NodesOk(t: Tables)
    requires Indexed(t)
    ensures NodesIndexed(t)
  {
  }

  lemma SaneStripes(baseK: nat, t: Tables)
    requires Sane(baseK, t)
    ensures AllStripesOk(baseK, t)
  {
  }

  lemma SpotsCount(t': Tables, t: Tables, s: Stripe, spots: seq<Spot>)
    requires SpotsOk(t, s, spots) && InRuns(s, spots)
    ensures |spots| == s.k + s.r + s.z && s.z > 0 && s.k % s.z == 0 && s.k / s.z > 0
  {
  }

  lemma NewKeys(t: Tables, t': Tables, sid: nat, base: nat, s: Stripe, spots: seq<Spot>)
    requires Added(t, t', sid, base, s, spots)
    ensures sid in t'.stripes && |t'.stripes[sid].blocks| == |spots|
    ensures forall i :: 0 <= i < |spots| ==> At(t', sid, i).key.sid == sid
  {
    hide Added, At, NewBlockAt;
    AddedShape(t, t', sid, base, s, spots);
    forall i: nat | i < |spots|
      ensures At(t', sid, i).key.sid == sid
    {
      AddedBlock(t, t', sid, base, s, spots, i);
      NewPlace(s, sid, i, spots[i]);
    }
  }
}

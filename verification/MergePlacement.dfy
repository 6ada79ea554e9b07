/**
 * Placing a new stripe: its blocks enter all tables, its data and parities are
 * stored, and everything else stays as it is.
 */
module MergePlacement {
  import opened LinearAlgebra
  import opened Generators
  import opened MergeConfig
  import opened MergeParity
  import opened MergePlan
  import opened MergeTables
  import opened MergeIndex
  import opened MergeCommit
  import opened MergeIndexed

  /** Where a block of a new stripe goes: its place, its local group if it is data, and its placement group. */
  datatype Spot = Spot(place: Place, localGroup: nat, group: int)

  function KindAt(s: Stripe, i: nat): Kind {
    if i < s.k then Data else KindOf(s, i - s.k)
  }

  function IndexAt(s: Stripe, i: nat): nat {
    if i < s.k then i else IndexOf(s, i - s.k)
  }

  function LocalGroupAt(s: Stripe, i: nat, spot: Spot): int {
    if i < s.k then spot.localGroup else if i < s.k + s.r then -1 else i - s.k - s.r
  }

  function NewBlockAt(s: Stripe, sid: nat, i: nat, spot: Spot): Block {
    Block(i, Original(sid, KindAt(s, i), IndexAt(s, i)), KindAt(s, i), spot.group, sid, LocalGroupAt(s, i, spot),
          spot.place)
  }

  /** Blocks are allocated one after the other. */
  function BlockNumbers(base: nat, n: nat): (s: seq<nat>)
    ensures |s| == n
  {
    seq(n, i requires 0 <= i => base + i)
  }

  /** A stripe that has not been merged. */
  predicate Unmerged(baseK: nat, s: Stripe) {
    s.k == baseK && s.k > 0 && s.r > 0 && s.rounds <= MAX_LEVEL
  }

  /** Every block on a node of its rack, all nodes different, and exactly the parities on the parity rack. */
  ghost predicate SpotsOk(t: Tables, s: Stripe, spots: seq<Spot>) {
    s.r > 0 && |spots| == s.k + s.r + s.z &&
    (forall i :: 0 <= i < |spots| ==> OnItsRack(t, spots[i].place)) &&
    (forall i :: 0 <= i < |spots| ==> (spots[i].place.cluster == spots[s.k].place.cluster <==> i >= s.k)) &&
    (forall i, j :: 0 <= i < j < |spots| ==> spots[i].place.node != spots[j].place.node) &&
    forall i :: 0 <= i < s.k ==> spots[i].localGroup < s.z
  }

  ghost predicate BlocksAdded(t: Tables, t': Tables, sid: nat, base: nat, s: Stripe, spots: seq<Spot>) {
    (forall p :: p in t'.blocks <==> p in t.blocks || base <= p < base + |spots|) &&
    (forall p :: p in t.blocks && p < base ==> t'.blocks[p] == t.blocks[p]) &&
    forall p :: base <= p < base + |spots| ==> t'.blocks[p] == NewBlockAt(s, sid, p - base, spots[p - base])
  }

  /** The tables with the new stripe. */
  ghost predicate Added(t: Tables, t': Tables, sid: nat, base: nat, s: Stripe, spots: seq<Spot>) {
    sid !in t.stripes && t'.stripes.Keys == t.stripes.Keys + {sid} &&
    (forall o :: o in t.stripes ==> t'.stripes[o] == t.stripes[o]) &&
    t'.stripes[sid] == s.(blocks := BlockNumbers(base, |spots|), groups := t'.stripes[sid].groups, clusters := t'.stripes[sid].clusters) &&
    BlocksAdded(t, t', sid, base, s, spots) &&
    Index(t'.racks, t'.nodes, t'.stripes[sid].groups, t'.stripes[sid].clusters)
      == IndexAll(Index(t.racks, t.nodes, map[], {}), sid, EntriesOf(t', sid))
  }

  // ---- Reading off the new tables ----

  lemma AddedBlock(t: Tables, t': Tables, sid: nat, base: nat, s: Stripe, spots: seq<Spot>, i: nat)
    requires Added(t, t', sid, base, s, spots) && i < |spots|
    ensures sid in t'.stripes && |t'.stripes[sid].blocks| == |spots|
    ensures t'.stripes[sid].blocks[i] == base + i && base + i in t'.blocks
    ensures At(t', sid, i) == NewBlockAt(s, sid, i, spots[i])
  {
    hide IndexAll, NewBlockAt;
  }

  lemma EarlierBlock(baseK: nat, t: Tables, t': Tables, sid: nat, base: nat, s: Stripe, spots: seq<Spot>, o: nat,
                     i: nat)
    requires AllStripesOk(baseK, t) && Allocated(t, base) && Added(t, t', sid, base, s, spots)
    requires o in t.stripes && i < |t.stripes[o].blocks|
    ensures o in t'.stripes && t'.stripes[o] == t.stripes[o] && o != sid
    ensures t.stripes[o].blocks[i] in t.blocks && t.stripes[o].blocks[i] in t'.blocks && t.stripes[o].blocks[i] < base
    ensures At(t', o, i) == At(t, o, i)
  {
    hide IndexAll, NewBlockAt, BlockOk;
    assert StripeOk(baseK, t, o);
  }

  lemma AddedShape(t: Tables, t': Tables, sid: nat, base: nat, s: Stripe, spots: seq<Spot>)
    requires Added(t, t', sid, base, s, spots)
    ensures sid !in t.stripes && sid in t'.stripes && |t'.stripes[sid].blocks| == |spots|
    ensures t'.stripes[sid].k == s.k && t'.stripes[sid].r == s.r && t'.stripes[sid].z == s.z
    ensures t'.stripes[sid].rounds == s.rounds
    ensures forall o :: o in t'.stripes <==> o in t.stripes || o == sid
  {
    hide IndexAll, NewBlockAt;
  }

  lemma AddedMachines(t: Tables, t': Tables, sid: nat, base: nat, s: Stripe, spots: seq<Spot>)
    requires Added(t, t', sid, base, s, spots) && NodesIndexed(t)
    ensures SameMachines(t, t')
  {
    hide EntriesOf, OnRack, BlockOnRack, BlocksAdded;
    var ix, entries := Index(t.racks, t.nodes, map[], {}), EntriesOf(t', sid);
    NotListed(t, sid);
    IndexNodes(ix, sid, entries);
    forall c
      ensures c in t'.racks <==> c in t.racks
      ensures c in t.racks ==> t'.racks[c].nodes == t.racks[c].nodes
    {
      IndexRacks(ix, sid, entries, c);
    }
  }

  lemma NotListed(t: Tables, sid: nat)
    requires NodesIndexed(t) && sid !in t.stripes
    ensures forall n :: n in t.nodes ==> sid !in t.nodes[n].stripes
  {
    hide At, Listed;
  }

  // ---- Consistency ----

  lemma AddedStripesOk(baseK: nat, t: Tables, t': Tables, sid: nat, base: nat, s: Stripe, spots: seq<Spot>)
    requires AllStripesOk(baseK, t) && Allocated(t, base) && Added(t, t', sid, base, s, spots)
    requires Unmerged(baseK, s) && SpotsOk(t, s, spots)
    ensures AllStripesOk(baseK, t')
  {
    hide Added, Unmerged, At;
    AddedShape(t, t', sid, base, s, spots);
    forall o | o in t'.stripes
      ensures StripeOk(baseK, t', o)
    {
      if o == sid {
        NewStripeOk(baseK, t, t', sid, base, s, spots);
      } else {
        assert StripeOk(baseK, t, o);
        EarlierStripe(t, t', sid, base, s, spots, o);
        forall i: nat | i < |t.stripes[o].blocks|
          ensures t.stripes[o].blocks[i] in t'.blocks && t.stripes[o].blocks[i] in t.blocks
          ensures t'.blocks[t.stripes[o].blocks[i]] == t.blocks[t.stripes[o].blocks[i]]
        {
          EarlierBlock(baseK, t, t', sid, base, s, spots, o, i);
          AtThere(t, o, i);
          AtThere(t', o, i);
        }
      }
    }
  }

  lemma AtThere(t: Tables, o: nat, i: nat)
    requires o in t.stripes && i < |t.stripes[o].blocks| && t.stripes[o].blocks[i] in t.blocks
    ensures At(t, o, i) == t.blocks[t.stripes[o].blocks[i]]
  {
  }

  lemma NewStripeOk(baseK: nat, t: Tables, t': Tables, sid: nat, base: nat, s: Stripe, spots: seq<Spot>)
    requires Added(t, t', sid, base, s, spots) && Unmerged(baseK, s) && SpotsOk(t, s, spots)
    ensures sid in t'.stripes && StripeOk(baseK, t', sid)
  {
    hide Added, At, OnItsRack;
    AddedShape(t, t', sid, base, s, spots);
    forall i: nat | i < |spots|
      ensures t'.stripes[sid].blocks[i] in t'.blocks
      ensures BlockOk(baseK, t'.stripes[sid], sid, i, t'.blocks[t'.stripes[sid].blocks[i]])
    {
      AddedBlock(t, t', sid, base, s, spots, i);
      AtThere(t', sid, i);
    }
  }

  lemma AddedPlaced(baseK: nat, t: Tables, t': Tables, sid: nat, base: nat, s: Stripe, spots: seq<Spot>)
    requires AllStripesOk(baseK, t) && AllPlaced(t) && Allocated(t, base) && Added(t, t', sid, base, s, spots)
    requires SpotsOk(t, s, spots) && SameMachines(t, t')
    ensures AllPlaced(t')
  {
    hide Added, At, OnItsRack, AllStripesOk, SameMachines, NewBlockAt;
    AddedShape(t, t', sid, base, s, spots);
    forall o | o in t'.stripes
      ensures |t'.stripes[o].blocks| > t'.stripes[o].k && StripePlaced(t', o)
    {
      if o == sid {
        forall i: nat | i < |spots|
          ensures At(t', sid, i).place == spots[i].place && OnItsRack(t', spots[i].place)
        {
          AddedBlock(t, t', sid, base, s, spots, i);
          NewPlace(s, sid, i, spots[i]);
          MachinesPlace(t, t', spots[i].place);
        }
      } else {
        assert StripePlaced(t, o);
        forall i: nat | i < |t.stripes[o].blocks|
          ensures t'.stripes[o] == t.stripes[o] && At(t', o, i) == At(t, o, i) && OnItsRack(t', At(t, o, i).place)
        {
          EarlierBlock(baseK, t, t', sid, base, s, spots, o, i);
          MachinesPlace(t, t', At(t, o, i).place);
        }
        EarlierBlock(baseK, t, t', sid, base, s, spots, o, t.stripes[o].k);
      }
    }
  }

  lemma NewPlace(s: Stripe, sid: nat, i: nat, spot: Spot)
    ensures NewBlockAt(s, sid, i, spot).place == spot.place && NewBlockAt(s, sid, i, spot).group == spot.group
    ensures NewBlockAt(s, sid, i, spot).stripe == sid && NewBlockAt(s, sid, i, spot).key.sid == sid
    ensures i < s.k ==> NewBlockAt(s, sid, i, spot).key == Original(sid, Data, i)
  {
  }

  lemma AddedKeys(baseK: nat, t: Tables, t': Tables, sid: nat, base: nat, s: Stripe, spots: seq<Spot>, disk: Disk)
    requires AllStripesOk(baseK, t) && DataKeysDiffer(t) && Allocated(t, base) && Added(t, t', sid, base, s, spots)
    requires NumbersBelow(t, disk, sid) && |spots| >= s.k
    ensures DataKeysDiffer(t')
    ensures forall o, i :: DataAt(t', o, i) ==> At(t', o, i).key.sid <= sid
  {
    hide Added, At, AllStripesOk, NewBlockAt;
    AddedShape(t, t', sid, base, s, spots);
    forall o, i | DataAt(t', o, i)
      ensures o == sid ==> At(t', o, i).key == Original(sid, Data, i)
      ensures o != sid ==> DataAt(t, o, i) && At(t', o, i) == At(t, o, i) && At(t', o, i).key.sid < sid
    {
      if o == sid {
        AddedBlock(t, t', sid, base, s, spots, i);
        NewPlace(s, sid, i, spots[i]);
      } else {
        EarlierStripe(t, t', sid, base, s, spots, o);
        EarlierBlock(baseK, t, t', sid, base, s, spots, o, i);
      }
    }
  }

  lemma EarlierStripe(t: Tables, t': Tables, sid: nat, base: nat, s: Stripe, spots: seq<Spot>, o: nat)
    requires Added(t, t', sid, base, s, spots) && o in t'.stripes && o != sid
    ensures o in t.stripes && t'.stripes[o] == t.stripes[o]
  {
    hide BlocksAdded, IndexAll;
  }

  lemma MachinesOk(t: Tables, t': Tables)
    requires RacksOk(t) && SameMachines(t, t')
    ensures RacksOk(t')
  {
  }

  lemma AddedSane(baseK: nat, t: Tables, t': Tables, sid: nat, base: nat, s: Stripe, spots: seq<Spot>, disk: Disk)
    requires Sane(baseK, t) && NodesIndexed(t) && Allocated(t, base) && NumbersBelow(t, disk, sid)
    requires Added(t, t', sid, base, s, spots) && Unmerged(baseK, s) && SpotsOk(t, s, spots)
    ensures Sane(baseK, t') && SameMachines(t, t')
  {
    hide Added, AllPlaced, AllStripesOk, RacksOk, DataKeysDiffer, Unmerged, NodesIndexed, NumbersBelow;
    AddedMachines(t, t', sid, base, s, spots);
    AddedStripesOk(baseK, t, t', sid, base, s, spots);
    AddedPlaced(baseK, t, t', sid, base, s, spots);
    MachinesOk(t, t');
    AddedKeys(baseK, t, t', sid, base, s, spots, disk);
  }

  // ---- Indexes ----

  lemma OldEntries(baseK: nat, t: Tables, t': Tables, sid: nat, base: nat, s: Stripe, spots: seq<Spot>, o: nat)
    requires AllStripesOk(baseK, t) && Allocated(t, base) && Added(t, t', sid, base, s, spots) && o in t.stripes
    ensures o in t'.stripes && t'.stripes[o] == t.stripes[o] && EntriesOf(t', o) == EntriesOf(t, o)
  {
    hide AllStripesOk, IndexAll, BlocksAdded;
    forall i: nat | i < |t.stripes[o].blocks|
      ensures BlockAt(t', t.stripes[o].blocks[i]) == BlockAt(t, t.stripes[o].blocks[i])
    {
      EarlierBlock(baseK, t, t', sid, base, s, spots, o, i);
    }
  }

  lemma AddedRack(baseK: nat, t: Tables, t': Tables, sid: nat, base: nat, s: Stripe, spots: seq<Spot>, c: nat)
    requires AllStripesOk(baseK, t) && Allocated(t, base) && Added(t, t', sid, base, s, spots)
    requires AllStripesOk(baseK, t')
    requires c in t.racks && RackIndexed(t, c)
    ensures c in t'.racks && RackIndexed(t', c)
  {
    hide AllStripesOk, OnRack, BlockOnRack, EntriesOf, BlocksAdded, IndexAll, NoDup;
    var ix, entries := Index(t.racks, t.nodes, map[], {}), EntriesOf(t', sid);
    IndexRacks(ix, sid, entries, c);
    forall o
      ensures o in t'.racks[c].stripes <==> o in t'.stripes && OnRack(EntriesOf(t', o), c)
    {
      if o in t.stripes {
        OldEntries(baseK, t, t', sid, base, s, spots, o);
      }
    }
    forall p
      ensures p in t'.racks[c].blocks <==> Live(t', p) && t'.blocks[p].place.cluster == c
    {
      AddedLive(baseK, t, t', sid, base, s, spots, p);
      OnRackIs(t', sid, c, p);
    }
    AddedNoDup(baseK, t, t', sid, base, s, spots, c);
  }

  /** Live blocks are those from before and the new ones. */
  lemma AddedLive(baseK: nat, t: Tables, t': Tables, sid: nat, base: nat, s: Stripe, spots: seq<Spot>, p: nat)
    requires AllStripesOk(baseK, t) && Allocated(t, base) && Added(t, t', sid, base, s, spots)
    requires AllStripesOk(baseK, t')
    ensures sid in t'.stripes && (Live(t', p) <==> Live(t, p) || p in t'.stripes[sid].blocks)
    ensures Live(t, p) ==> p !in t'.stripes[sid].blocks && p in t'.blocks && t'.blocks[p] == t.blocks[p]
    ensures Live(t', p) ==> BlockAt(t', p) == t'.blocks[p]
  {
    hide AllStripesOk, IndexAll, NewBlockAt;
    MergedOwn(baseK, t', sid);
    InNumbers(base, |spots|, p);
  }

  lemma InNumbers(base: nat, n: nat, p: nat)
    ensures p in BlockNumbers(base, n) <==> base <= p < base + n
  {
    if base <= p < base + n {
      assert BlockNumbers(base, n)[p - base] == p;
    }
  }

  lemma AddedNoDup(baseK: nat, t: Tables, t': Tables, sid: nat, base: nat, s: Stripe, spots: seq<Spot>, c: nat)
    requires AllStripesOk(baseK, t) && Allocated(t, base) && Added(t, t', sid, base, s, spots)
    requires AllStripesOk(baseK, t')
    requires c in t.racks && RackIndexed(t, c)
    ensures c in t'.racks && NoDup(t'.racks[c].blocks)
  {
    hide AllStripesOk, OnRack, IndexAll, NewBlockAt, BlocksAdded;
    var ix, entries := Index(t.racks, t.nodes, map[], {}), EntriesOf(t', sid);
    MergedOwn(baseK, t', sid);
    EntriesDiffer(t', sid);
    forall i: nat | i < |entries|
      ensures entries[i].block !in t.racks[c].blocks
    {
      assert entries[i].block == base + i;
    }
    IndexNoDup(ix, sid, entries, c);
  }

  lemma AddedNodes(baseK: nat, t: Tables, t': Tables, sid: nat, base: nat, s: Stripe, spots: seq<Spot>)
    requires AllStripesOk(baseK, t) && Allocated(t, base) && Added(t, t', sid, base, s, spots) && Sane(baseK, t')
    requires NodesIndexed(t) && SameMachines(t, t')
    ensures NodesIndexed(t')
  {
    hide AllStripesOk, IndexAll, BlocksAdded, EntriesOf, At, Sane;
    var ix, entries := Index(t.racks, t.nodes, map[], {}), EntriesOf(t', sid);
    NotListed(t, sid);
    IndexNodes(ix, sid, entries);
    forall n, o | n in t'.nodes && o in t'.nodes[n].stripes
      ensures ListedAt(t', n, o, t'.nodes[n].stripes[o])
    {
      if o == sid {
        EntryPlace(t', sid, t'.nodes[n].stripes[sid]);
      } else {
        assert ListedAt(t, n, o, t.nodes[n].stripes[o]);
        EarlierBlock(baseK, t, t', sid, base, s, spots, o, t.nodes[n].stripes[o]);
      }
    }
    forall o, i | o in t'.stripes && 0 <= i < |t'.stripes[o].blocks|
      ensures Listed(t', At(t', o, i).place.node, o, i)
    {
      if o == sid {
        AddedListed(baseK, t, t', sid, base, s, spots, i);
      } else {
        EarlierBlock(baseK, t, t', sid, base, s, spots, o, i);
        assert Listed(t, At(t, o, i).place.node, o, i);
      }
    }
  }

  lemma AddedListed(baseK: nat, t: Tables, t': Tables, sid: nat, base: nat, s: Stripe, spots: seq<Spot>, i: nat)
    requires Added(t, t', sid, base, s, spots) && Sane(baseK, t') && SameMachines(t, t') && sid in t'.stripes
    requires i < |t'.stripes[sid].blocks|
    ensures Listed(t', At(t', sid, i).place.node, sid, i)
  {
    hide IndexAll, BlocksAdded, EntriesOf, At, AllStripesOk, DataKeysDiffer, OnItsRack;
    var ix, entries := Index(t.racks, t.nodes, map[], {}), EntriesOf(t', sid);
    assert StripePlaced(t', sid);
    NodeThere(t', At(t', sid, i).place);
    forall x: nat | x < |entries|
      ensures entries[x].place == At(t', sid, x).place
    {
      EntryPlace(t', sid, x);
    }
    IndexNodeOf(ix, sid, entries, i);
  }

  lemma NodeThere(t: Tables, place: Place)
    requires RacksOk(t) && OnItsRack(t, place)
    ensures place.node in t.nodes
  {
  }

  /** All indexes are exact again. */
  lemma AddedIndexed(baseK: nat, t: Tables, t': Tables, sid: nat, base: nat, s: Stripe, spots: seq<Spot>)
    requires Sane(baseK, t) && Sane(baseK, t') && Indexed(t) && Allocated(t, base) && SameMachines(t, t')
    requires Added(t, t', sid, base, s, spots)
    ensures Indexed(t')
  {
    hide Added, AllPlaced, AllStripesOk, RacksOk, DataKeysDiffer, NodesIndexed, RackIndexed, StripeIndexed;
    AddedShape(t, t', sid, base, s, spots);
    forall c | c in t'.racks
      ensures RackIndexed(t', c)
    {
      AddedRack(baseK, t, t', sid, base, s, spots, c);
    }
    AddedNodes(baseK, t, t', sid, base, s, spots);
    forall o | o in t'.stripes
      ensures StripeIndexed(t', o)
    {
      if o == sid {
        NewIndexed(t, t', sid, base, s, spots);
      } else {
        OldEntries(baseK, t, t', sid, base, s, spots, o);
        StillIndexed(t, t', o);
      }
    }
  }

  lemma NewIndexed(t: Tables, t': Tables, sid: nat, base: nat, s: Stripe, spots: seq<Spot>)
    requires Added(t, t', sid, base, s, spots)
    ensures sid in t'.stripes && StripeIndexed(t', sid)
  {
    hide IndexAll, BlocksAdded, Partition, EntriesOf, OnRack;
    var ix, entries := Index(t.racks, t.nodes, map[], {}), EntriesOf(t', sid);
    IndexGroups(ix, sid, entries);
    IndexClusters(ix, sid, entries);
  }

  lemma StillIndexed(t: Tables, t': Tables, o: nat)
    requires o in t.stripes && o in t'.stripes && t'.stripes[o] == t.stripes[o] && EntriesOf(t', o) == EntriesOf(t, o)
    requires StripeIndexed(t, o)
    ensures StripeIndexed(t', o)
  {
    hide Partition, EntriesOf, OnRack;
  }

  // ---- What is stored ----

  /** The files of other stripes are the same, and those of the new one are the right ones, on their nodes. */
  ghost predicate FilesAdded(t': Tables, written: map<nat, Bytes>, len: nat, disk: Disk, disk': Disk, sid: nat) {
    sid in t'.stripes && StripeReadable(t', written, len, disk', sid) &&
    (forall w: (nat, Key) :: w.1.sid != sid ==> (w in disk' <==> w in disk) && (w in disk ==> disk'[w] == disk[w])) &&
    forall w :: w in disk' && w.1.sid == sid ==> FileOf(t', sid, w)
  }

  ghost predicate FileOf(t: Tables, sid: nat, w: (nat, Key))
    requires sid in t.stripes
  {
    exists i :: 0 <= i < |t.stripes[sid].blocks| && w == Location(At(t, sid, i))
  }

  ghost predicate Extends(written: map<nat, Bytes>, written': map<nat, Bytes>, base: nat) {
    forall p: nat :: p < base ==> WrittenInto(written', p) == WrittenInto(written, p)
  }

  lemma AddedReadable(baseK: nat, t: Tables, t': Tables, sid: nat, base: nat, s: Stripe, spots: seq<Spot>, len: nat,
                      written: map<nat, Bytes>, written': map<nat, Bytes>, disk: Disk, disk': Disk)
    requires AllStripesOk(baseK, t) && Allocated(t, base) && NumbersBelow(t, disk, sid)
    requires Readable(t, written, len, disk)
    requires Added(t, t', sid, base, s, spots) && Extends(written, written', base)
    requires FilesAdded(t', written', len, disk, disk', sid)
    ensures Readable(t', written', len, disk')
  {
    hide AllStripesOk, Added, At, StripeReadable, NumbersBelow, Allocated;
    AddedShape(t, t', sid, base, s, spots);
    forall o | o in t'.stripes
      ensures StripeReadable(t', written', len, disk', o)
    {
      if o != sid {
        OldReadable(baseK, t, t', sid, base, s, spots, len, written, written', disk, disk', o);
      }
    }
  }

  lemma OldReadable(baseK: nat, t: Tables, t': Tables, sid: nat, base: nat, s: Stripe, spots: seq<Spot>, len: nat,
                    written: map<nat, Bytes>, written': map<nat, Bytes>, disk: Disk, disk': Disk, o: nat)
    requires AllStripesOk(baseK, t) && Allocated(t, base) && NumbersBelow(t, disk, sid)
    requires Added(t, t', sid, base, s, spots) && Extends(written, written', base)
    requires FilesAdded(t', written', len, disk, disk', sid)
    requires o in t.stripes && StripeReadable(t, written, len, disk, o)
    ensures o in t'.stripes && StripeReadable(t', written', len, disk', o)
  {
    hide AllStripesOk, Added, At, Expected, NumbersBelow, Allocated, BlockAt, WrittenInto;
    OldEntries(baseK, t, t', sid, base, s, spots, o);
    assert DataOf(t', written', o) == DataOf(t, written, o) && GroupsOf(t', o) == GroupsOf(t, o) by {
      OldContents(baseK, t, t', sid, base, s, spots, written, written', o);
    }
    forall i: nat | i < |t.stripes[o].blocks|
      ensures At(t', o, i) == At(t, o, i) && Location(At(t, o, i)).1.sid != sid
    {
      EarlierBlock(baseK, t, t', sid, base, s, spots, o, i);
      OldKey(baseK, t, disk, sid, o, i);
    }
  }

  lemma OldContents(baseK: nat, t: Tables, t': Tables, sid: nat, base: nat, s: Stripe, spots: seq<Spot>,
                    written: map<nat, Bytes>, written': map<nat, Bytes>, o: nat)
    requires AllStripesOk(baseK, t) && Allocated(t, base) && Added(t, t', sid, base, s, spots)
    requires Extends(written, written', base)
    requires o in t.stripes && t.stripes[o].k <= |t.stripes[o].blocks|
    ensures o in t'.stripes && t'.stripes[o] == t.stripes[o]
    ensures DataOf(t', written', o) == DataOf(t, written, o) && GroupsOf(t', o) == GroupsOf(t, o)
  {
    hide AllStripesOk, Added, Allocated, WrittenInto;
    OldEntries(baseK, t, t', sid, base, s, spots, o);
    forall i: nat | i < |t.stripes[o].blocks|
      ensures WrittenInto(written', t.stripes[o].blocks[i]) == WrittenInto(written, t.stripes[o].blocks[i])
      ensures BlockAt(t', t.stripes[o].blocks[i]) == BlockAt(t, t.stripes[o].blocks[i])
    {
      EarlierBlock(baseK, t, t', sid, base, s, spots, o, i);
    }
  }

  /** Files of existing stripes have older numbers. */
  lemma OldKey(baseK: nat, t: Tables, disk: Disk, sid: nat, o: nat, i: nat)
    requires AllStripesOk(baseK, t) && NumbersBelow(t, disk, sid) && o in t.stripes && i < |t.stripes[o].blocks|
    ensures At(t, o, i).key.sid < sid
  {
    hide At;
    assert StripeOk(baseK, t, o);
    SourceOk(baseK, t, o, i);
    if i < t.stripes[o].k {
      assert DataAt(t, o, i);
    }
  }

  lemma AddedAtHome(baseK: nat, t: Tables, t': Tables, sid: nat, base: nat, s: Stripe, spots: seq<Spot>, len: nat,
                    written: map<nat, Bytes>, disk: Disk, disk': Disk)
    requires Sane(baseK, t) && Allocated(t, base) && Sane(baseK, t') && ParitiesAtHome(t, disk)
    requires NumbersBelow(t, disk, sid)
    requires Added(t, t', sid, base, s, spots) && FilesAdded(t', written, len, disk, disk', sid)
    ensures ParitiesAtHome(t', disk') && NumbersBelow(t', disk', sid + 1)
  {
    hide Sane, Added, At, StripeReadable, AtHome;
    AddedShape(t, t', sid, base, s, spots);
    forall w | w in disk'
      ensures AtHome(t', w)
    {
      if w.1.sid == sid {
        NewAtHome(baseK, t', sid, w);
      } else {
        OldAtHome(baseK, t, t', sid, base, s, spots, w);
      }
    }
    NumbersStay(baseK, t, t', sid, base, s, spots, disk);
  }

  lemma NumbersStay(baseK: nat, t: Tables, t': Tables, sid: nat, base: nat, s: Stripe, spots: seq<Spot>, disk: Disk)
    requires Sane(baseK, t) && Allocated(t, base) && Sane(baseK, t') && NumbersBelow(t, disk, sid)
    requires Added(t, t', sid, base, s, spots)
    ensures forall o, i :: DataAt(t', o, i) ==> At(t', o, i).key.sid < sid + 1
  {
    hide Added, At, AllPlaced, RacksOk, AllStripesOk, BlockOk;
    AddedShape(t, t', sid, base, s, spots);
    assert StripeOk(baseK, t', sid) by { OneStripe(baseK, t', sid); }
    AddedKeys(baseK, t, t', sid, base, s, spots, disk);
  }

  lemma OneStripe(baseK: nat, t: Tables, o: nat)
    requires AllStripesOk(baseK, t) && o in t.stripes
    ensures StripeOk(baseK, t, o)
  {
  }

  lemma NewAtHome(baseK: nat, t: Tables, sid: nat, w: (nat, Key))
    requires Sane(baseK, t) && sid in t.stripes && FileOf(t, sid, w) && w.1.sid == sid
    ensures AtHome(t, w)
  {
    hide At, AllPlaced, RacksOk, DataKeysDiffer, ParityKey;
    var i :| 0 <= i < |t.stripes[sid].blocks| && w == Location(At(t, sid, i));
    assert StripeOk(baseK, t, sid);
    SourceOk(baseK, t, sid, i);
    KeyHome(baseK, t.stripes[sid], sid, i, At(t, sid, i));
  }

  lemma KeyHome(baseK: nat, s: Stripe, sid: nat, i: nat, b: Block)
    requires BlockOk(baseK, s, sid, i, b) && |s.blocks| == s.k + s.r + s.z && i < |s.blocks|
    ensures b.key.kind != Data ==> HomeOf(s, b.key) == i
  {
  }

  lemma OldAtHome(baseK: nat, t: Tables, t': Tables, sid: nat, base: nat, s: Stripe, spots: seq<Spot>, w: (nat, Key))
    requires Sane(baseK, t) && Allocated(t, base) && Added(t, t', sid, base, s, spots) && AtHome(t, w) && w.1.sid != sid
    ensures AtHome(t', w)
  {
    hide At, Added, AllPlaced, RacksOk, DataKeysDiffer, AllStripesOk;
    AddedShape(t, t', sid, base, s, spots);
    if w.1.sid in t'.stripes {
      EarlierStripe(t, t', sid, base, s, spots, w.1.sid);
      if HomeOf(t.stripes[w.1.sid], w.1) < |t.stripes[w.1.sid].blocks| {
        EarlierBlock(baseK, t, t', sid, base, s, spots, w.1.sid, HomeOf(t.stripes[w.1.sid], w.1));
      }
    }
  }

  lemma AddedAllocated(t: Tables, t': Tables, sid: nat, base: nat, s: Stripe, spots: seq<Spot>)
    requires Added(t, t', sid, base, s, spots) && Allocated(t, base)
    ensures Allocated(t', base + |spots|)
  {
    hide NewBlockAt, IndexAll;
  }
}

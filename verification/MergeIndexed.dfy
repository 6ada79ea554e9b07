/**
 * After a commit every index is exact: racks and nodes list the blocks of the
 * live stripes and nothing else, and the merged stripe's groups partition it.
 */
module MergeIndexed {
  import opened MergeConfig
  import opened MergeParity
  import opened MergePlan
  import opened MergeTables
  import opened MergeIndex
  import opened MergeCommit

  /** A block that belongs to a stripe of the table. */
  ghost predicate Live(t: Tables, p: nat) {
    p in t.blocks && t.blocks[p].stripe in t.stripes && p in t.stripes[t.blocks[p].stripe].blocks
  }

  ghost predicate RackIndexed(t: Tables, c: nat)
    requires c in t.racks
  {
    NoDup(t.racks[c].blocks) &&
    (forall s :: s in t.racks[c].stripes <==> s in t.stripes && OnRack(EntriesOf(t, s), c)) &&
    (forall p :: p in t.racks[c].blocks <==> Live(t, p) && t.blocks[p].place.cluster == c)
  }

  /** A node lists, for every stripe with a block on it, exactly that block. */
  ghost predicate NodesIndexed(t: Tables) {
    (forall n, s :: n in t.nodes && s in t.nodes[n].stripes ==> ListedAt(t, n, s, t.nodes[n].stripes[s])) &&
    (forall s, i :: s in t.stripes && 0 <= i < |t.stripes[s].blocks| ==> Listed(t, At(t, s, i).place.node, s, i))
  }

  predicate ListedAt(t: Tables, n: nat, s: nat, i: nat) {
    s in t.stripes && i < |t.stripes[s].blocks| && At(t, s, i).place.node == n
  }

  predicate Listed(t: Tables, n: nat, s: nat, i: nat) {
    n in t.nodes && s in t.nodes[n].stripes && t.nodes[n].stripes[s] == i
  }

  /** The groups partition the stripe, and it knows its racks. */
  ghost predicate StripeIndexed(t: Tables, s: nat)
    requires s in t.stripes
  {
    Partition(t.stripes[s].groups, GroupsIn(EntriesOf(t, s))) &&
    forall c :: c in t.stripes[s].clusters <==> OnRack(EntriesOf(t, s), c)
  }

  ghost predicate Indexed(t: Tables) {
    (forall c :: c in t.racks ==> RackIndexed(t, c)) && NodesIndexed(t) &&
    (forall s :: s in t.stripes ==> StripeIndexed(t, s))
  }

  /** The other stripes' entries are as before. */
  lemma OtherEntries(baseK: nat, t: Tables, t': Tables, a: nat, b: nat, round: nat, places: map<nat, Place>, task: nat,
                     sid: nat)
    requires Mergeable(baseK, t, a, b, round) && Committed(baseK, t, t', a, b, places, task)
    requires sid in t.stripes && sid != a && sid != b
    ensures sid in t'.stripes && EntriesOf(t', sid) == EntriesOf(t, sid)
  {
    hide Mergeable, Committed;
    OtherStays(baseK, t, t', a, b, round, places, task, sid);
    forall i: nat | i < |t.stripes[sid].blocks|
      ensures BlockAt(t', t.stripes[sid].blocks[i]) == BlockAt(t, t.stripes[sid].blocks[i])
    {
      OtherBlock(baseK, t, t', a, b, round, places, task, sid, i);
    }
  }

  // ---- Racks ----

  lemma CommitRackStripes(baseK: nat, t: Tables, t': Tables, a: nat, b: nat, round: nat, places: map<nat, Place>,
                          task: nat, c: nat, s: nat)
    requires Mergeable(baseK, t, a, b, round) && Committed(baseK, t, t', a, b, places, task)
    requires c in t.racks && RackIndexed(t, c) && c in t'.racks && a in t'.stripes
    requires RackGains(ForgetRack(t.racks[c], a, b, OldBlocks(t, a, b)), t'.racks[c], a, EntriesOf(t', a), c)
    ensures s in t'.racks[c].stripes <==> s in t'.stripes && OnRack(EntriesOf(t', s), c)
  {
    hide IndexesCommitted, BlocksCommitted, OnRack, BlockOnRack, Without, OldBlocks, EntriesOf, Pow2, BlockOk,
         MergedBlocks;
    if s in t.stripes && s != a && s != b {
      OtherEntries(baseK, t, t', a, b, round, places, task, s);
    }
  }

  /** A block of neither stripe, before and after. */
  lemma OtherLive(baseK: nat, t: Tables, t': Tables, a: nat, b: nat, round: nat, places: map<nat, Place>, task: nat,
                  p: nat)
    requires Mergeable(baseK, t, a, b, round) && Committed(baseK, t, t', a, b, places, task)
    requires p !in OldBlocks(t, a, b)
    ensures Live(t', p) <==> Live(t, p)
    ensures Live(t, p) ==> t'.blocks[p] == t.blocks[p]
  {
    hide IndexesCommitted, Pow2, BlockOk, NewBlock;
    MergedAreOld(baseK, t, a, b);
    assert p !in MergedBlocks(t.stripes[a], t.stripes[b]);
  }

  lemma MergedAreOld(baseK: nat, t: Tables, a: nat, b: nat)
    requires AllStripesOk(baseK, t) && a in t.stripes && b in t.stripes && t.stripes[a].k == t.stripes[b].k
    ensures t.stripes[a].k <= |t.stripes[a].blocks| && t.stripes[b].k <= |t.stripes[b].blocks|
    ensures forall p :: p in MergedBlocks(t.stripes[a], t.stripes[b]) ==> p in OldBlocks(t, a, b)
  {
    hide BlockOk;
    assert StripeOk(baseK, t, a) && StripeOk(baseK, t, b);
    var left, right := t.stripes[a], t.stripes[b];
    forall i: nat | i < |MergedBlocks(left, right)|
      ensures MergedBlocks(left, right)[i] in OldBlocks(t, a, b)
    {
      MergedAt(left, right, i);
    }
  }

  /** Live blocks of the two stripes afterwards are exactly those of the merged stripe. */
  lemma OldLive(baseK: nat, t: Tables, t': Tables, a: nat, b: nat, round: nat, places: map<nat, Place>, task: nat,
                p: nat)
    requires Mergeable(baseK, t, a, b, round) && Committed(baseK, t, t', a, b, places, task) && AllStripesOk(baseK, t')
    requires p in OldBlocks(t, a, b)
    ensures a in t'.stripes && (Live(t', p) <==> p in t'.stripes[a].blocks)
    ensures Live(t', p) ==> t'.blocks[p].stripe == a
  {
    hide IndexesCommitted, Pow2, BlockOk, NewBlock, MergedBlocks;
    Survives(baseK, t, t', a, b, round, places, task);
    OldStripe(baseK, t, a, b, p);
    MergedOwn(baseK, t', a);
    assert t'.stripes[a].blocks == MergedBlocks(t.stripes[a], t.stripes[b]);
  }

  lemma OldStripe(baseK: nat, t: Tables, a: nat, b: nat, p: nat)
    requires AllStripesOk(baseK, t) && a in t.stripes && b in t.stripes && p in OldBlocks(t, a, b)
    ensures p in t.blocks && (t.blocks[p].stripe == a || t.blocks[p].stripe == b)
  {
    hide ParityKey;
    assert StripeOk(baseK, t, a) && StripeOk(baseK, t, b);
  }

  lemma MergedOwn(baseK: nat, t: Tables, a: nat)
    requires AllStripesOk(baseK, t) && a in t.stripes
    ensures forall p :: p in t.stripes[a].blocks ==> p in t.blocks && t.blocks[p].stripe == a
    ensures NoDup(t.stripes[a].blocks)
  {
    hide ParityKey;
    assert StripeOk(baseK, t, a);
  }

  lemma OnRackIs(t: Tables, a: nat, c: nat, p: nat)
    requires a in t.stripes
    ensures BlockOnRack(EntriesOf(t, a), c, p) <==> p in t.stripes[a].blocks && BlockAt(t, p).place.cluster == c
  {
    var entries := EntriesOf(t, a);
    if p in t.stripes[a].blocks {
      var i :| 0 <= i < |t.stripes[a].blocks| && t.stripes[a].blocks[i] == p;
      assert entries[i].block == p;
    }
  }

  lemma CommitRackBlocks(baseK: nat, t: Tables, t': Tables, a: nat, b: nat, round: nat, places: map<nat, Place>,
                         task: nat, c: nat, p: nat)
    requires Mergeable(baseK, t, a, b, round) && Committed(baseK, t, t', a, b, places, task) && AllStripesOk(baseK, t')
    requires c in t.racks && RackIndexed(t, c) && c in t'.racks && a in t'.stripes
    requires RackGains(ForgetRack(t.racks[c], a, b, OldBlocks(t, a, b)), t'.racks[c], a, EntriesOf(t', a), c)
    ensures p in t'.racks[c].blocks <==> Live(t', p) && t'.blocks[p].place.cluster == c
  {
    hide Mergeable, Committed, OnRack, BlockOnRack, Without, OldBlocks, EntriesOf, AllStripesOk;
    SameK(baseK, t, a, b, round);
    WithoutIs(t.racks[c].blocks, OldBlocks(t, a, b));
    OnRackIs(t', a, c, p);
    MergedOwn(baseK, t', a);
    if p in OldBlocks(t, a, b) {
      OldLive(baseK, t, t', a, b, round, places, task, p);
    } else {
      OtherLive(baseK, t, t', a, b, round, places, task, p);
      NotInMerged(baseK, t, t', a, b, round, places, task, p);
    }
  }

  lemma NotInMerged(baseK: nat, t: Tables, t': Tables, a: nat, b: nat, round: nat, places: map<nat, Place>, task: nat,
                    p: nat)
    requires Mergeable(baseK, t, a, b, round) && Committed(baseK, t, t', a, b, places, task)
    requires p !in OldBlocks(t, a, b)
    ensures a in t'.stripes && p !in t'.stripes[a].blocks
  {
    hide IndexesCommitted, BlocksCommitted, Pow2, BlockOk, MergedBlocks;
    MergedAreOld(baseK, t, a, b);
  }

  lemma CommitRack(baseK: nat, t: Tables, t': Tables, a: nat, b: nat, round: nat, places: map<nat, Place>, task: nat,
                   c: nat)
    requires Mergeable(baseK, t, a, b, round) && Committed(baseK, t, t', a, b, places, task) && AllStripesOk(baseK, t')
    requires c in t.racks && RackIndexed(t, c)
    ensures c in t'.racks && RackIndexed(t', c)
  {
    hide Mergeable, Committed, OnRack, BlockOnRack, Without, OldBlocks, EntriesOf, AllStripesOk, RackGains;
    Survives(baseK, t, t', a, b, round, places, task);
    CommittedIndexes(baseK, t, t', a, b, places, task);
    var ix, entries := Forget(t, a, b), EntriesOf(t', a);
    IndexRacks(ix, a, entries, c);
    forall s
      ensures s in t'.racks[c].stripes <==> s in t'.stripes && OnRack(EntriesOf(t', s), c)
    {
      CommitRackStripes(baseK, t, t', a, b, round, places, task, c, s);
    }
    forall p
      ensures p in t'.racks[c].blocks <==> Live(t', p) && t'.blocks[p].place.cluster == c
    {
      CommitRackBlocks(baseK, t, t', a, b, round, places, task, c, p);
    }
    CommitNoDup(baseK, t, t', a, b, round, places, task, c);
  }

  lemma CommitNoDup(baseK: nat, t: Tables, t': Tables, a: nat, b: nat, round: nat, places: map<nat, Place>, task: nat,
                    c: nat)
    requires Mergeable(baseK, t, a, b, round) && Committed(baseK, t, t', a, b, places, task) && AllStripesOk(baseK, t')
    requires c in t.racks && NoDup(t.racks[c].blocks)
    ensures c in t'.racks && NoDup(t'.racks[c].blocks)
  {
    hide Mergeable, Committed, OnRack, BlockOnRack, Without, OldBlocks, AllStripesOk, NoDup, IndexAll;
    Survives(baseK, t, t', a, b, round, places, task);
    CommittedIndexes(baseK, t, t', a, b, places, task);
    var ix, entries := Forget(t, a, b), EntriesOf(t', a);
    WithoutIs(t.racks[c].blocks, OldBlocks(t, a, b));
    MergedOwn(baseK, t', a);
    forall i: nat | i < |entries|
      ensures entries[i].block !in ix.racks[c].blocks
    {
      if entries[i].block !in OldBlocks(t, a, b) {
        NotInMerged(baseK, t, t', a, b, round, places, task, entries[i].block);
      }
    }
    assert forall i, j :: 0 <= i < j < |entries| ==> entries[i].block != entries[j].block by {
      EntriesDiffer(t', a);
    }
    IndexNoDup(ix, a, entries, c);
  }

  lemma EntriesDiffer(t: Tables, a: nat)
    requires a in t.stripes && NoDup(t.stripes[a].blocks)
    ensures forall i, j :: 0 <= i < j < |EntriesOf(t, a)| ==> EntriesOf(t, a)[i].block != EntriesOf(t, a)[j].block
  {
  }

  // ---- Nodes ----

  lemma ForgottenNodes(t: Tables, a: nat, b: nat)
    requires a in t.stripes && b in t.stripes
    ensures forall n :: n in Forget(t, a, b).nodes <==> n in t.nodes
    ensures forall n, s :: n in t.nodes ==>
      (s in Forget(t, a, b).nodes[n].stripes <==> s in t.nodes[n].stripes && s != a && s != b)
    ensures forall n, s :: n in t.nodes && s in t.nodes[n].stripes && s != a && s != b ==>
      Forget(t, a, b).nodes[n].stripes[s] == t.nodes[n].stripes[s]
  {
    hide Without, OldBlocks;
  }

  /** What a node lists after the commit is there. */
  lemma CommitNodeLists(baseK: nat, t: Tables, t': Tables, a: nat, b: nat, round: nat, places: map<nat, Place>,
                        task: nat, n: nat, s: nat)
    requires Mergeable(baseK, t, a, b, round) && Committed(baseK, t, t', a, b, places, task)
    requires NodesIndexed(t) && n in t'.nodes && s in t'.nodes[n].stripes
    ensures ListedAt(t', n, s, t'.nodes[n].stripes[s])
  {
    hide Mergeable, Committed, IndexAll, At;
    SameK(baseK, t, a, b, round);
    Survives(baseK, t, t', a, b, round, places, task);
    CommittedIndexes(baseK, t, t', a, b, places, task);
    ForgottenNodes(t, a, b);
    IndexNodes(Forget(t, a, b), a, EntriesOf(t', a));
    if s == a {
      EntryPlace(t', a, t'.nodes[n].stripes[a]);
    } else {
      assert ListedAt(t, n, s, t.nodes[n].stripes[s]);
      OtherBlock(baseK, t, t', a, b, round, places, task, s, t.nodes[n].stripes[s]);
    }
  }

  lemma EntryPlace(t: Tables, s: nat, i: nat)
    requires s in t.stripes && i < |t.stripes[s].blocks|
    ensures EntriesOf(t, s)[i].place == At(t, s, i).place && EntriesOf(t, s)[i].group == At(t, s, i).group
    ensures EntriesOf(t, s)[i].block == t.stripes[s].blocks[i]
  {
  }

  /** And what is there is listed. */
  lemma CommitNodeListed(baseK: nat, t: Tables, t': Tables, a: nat, b: nat, round: nat, places: map<nat, Place>,
                         task: nat, s: nat, i: nat)
    requires Mergeable(baseK, t, a, b, round) && Committed(baseK, t, t', a, b, places, task)
    requires Sane(baseK, t') && NodesIndexed(t) && s in t'.stripes && i < |t'.stripes[s].blocks|
    ensures Listed(t', At(t', s, i).place.node, s, i)
  {
    hide Mergeable, Committed, IndexAll, At, AllStripesOk, DataKeysDiffer, EntriesOf;
    SameK(baseK, t, a, b, round);
    CommittedStripe(baseK, t, t', a, b, round, places, task, s);
    Survives(baseK, t, t', a, b, round, places, task);
    CommittedIndexes(baseK, t, t', a, b, places, task);
    ForgottenNodes(t, a, b);
    if s == a {
      MergedListed(baseK, t, t', a, b, round, places, task, i);
    } else {
      OtherBlock(baseK, t, t', a, b, round, places, task, s, i);
      assert Listed(t, At(t, s, i).place.node, s, i);
      IndexNodes(Forget(t, a, b), a, EntriesOf(t', a));
    }
  }

  lemma MergedListed(baseK: nat, t: Tables, t': Tables, a: nat, b: nat, round: nat, places: map<nat, Place>, task: nat,
                     i: nat)
    requires Mergeable(baseK, t, a, b, round) && Committed(baseK, t, t', a, b, places, task)
    requires Sane(baseK, t') && a in t'.stripes && i < |t'.stripes[a].blocks|
    ensures Listed(t', At(t', a, i).place.node, a, i)
  {
    hide Mergeable, Committed, IndexAll, At, AllStripesOk, DataKeysDiffer, EntriesOf;
    SameK(baseK, t, a, b, round);
    CommittedIndexes(baseK, t, t', a, b, places, task);
    CommitMachines(t, t', a, b);
    ForgottenNodes(t, a, b);
    var entries := EntriesOf(t', a);
    assert StripePlaced(t', a);
    assert OnItsRack(t', At(t', a, i).place);
    forall x: nat | x < |entries|
      ensures entries[x].place == At(t', a, x).place
    {
      EntryPlace(t', a, x);
    }
    IndexNodeOf(Forget(t, a, b), a, entries, i);
  }

  // ---- Stripes ----

  /** The merged stripe's groups partition it: local groups for data, group z for the parities. */
  lemma CommitStripeIndex(baseK: nat, t: Tables, t': Tables, a: nat, b: nat, round: nat, places: map<nat, Place>,
                          task: nat)
    requires Mergeable(baseK, t, a, b, round) && Committed(baseK, t, t', a, b, places, task)
    ensures a in t'.stripes && StripeIndexed(t', a)
    ensures forall i: nat :: i < |t'.stripes[a].blocks| ==>
      At(t', a, i).group == if i < t'.stripes[a].k then At(t', a, i).localGroup else t'.stripes[a].z
  {
    hide Mergeable, Committed, IndexAll, Partition, OnRack, EntriesOf, At;
    SameK(baseK, t, a, b, round);
    Survives(baseK, t, t', a, b, round, places, task);
    CommittedIndexes(baseK, t, t', a, b, places, task);
    IndexGroups(Forget(t, a, b), a, EntriesOf(t', a));
    IndexClusters(Forget(t, a, b), a, EntriesOf(t', a));
    forall i: nat | i < |t'.stripes[a].blocks|
      ensures At(t', a, i).group == if i < t'.stripes[a].k then At(t', a, i).localGroup else t'.stripes[a].z
    {
      MergedBlock(baseK, t, t', a, b, round, places, task, i);
      MergedShape(baseK, t, t', a, b, round, places, task);
    }
  }

  lemma MergedShape(baseK: nat, t: Tables, t': Tables, a: nat, b: nat, round: nat, places: map<nat, Place>, task: nat)
    requires Mergeable(baseK, t, a, b, round) && Committed(baseK, t, t', a, b, places, task)
    ensures a in t'.stripes && t'.stripes[a].k == 2 * t.stripes[a].k && t'.stripes[a].z == t.stripes[a].z
  {
  }

  /** All indexes are exact again. */
  lemma CommitIndexed(baseK: nat, t: Tables, t': Tables, a: nat, b: nat, round: nat, places: map<nat, Place>, task: nat)
    requires Mergeable(baseK, t, a, b, round) && Committed(baseK, t, t', a, b, places, task)
    requires Sane(baseK, t') && Indexed(t)
    ensures Indexed(t')
  {
    hide Mergeable, Committed, At, RackIndexed, StripeIndexed, AllPlaced, RacksOk, DataKeysDiffer, AllStripesOk,
         ListedAt, Listed;
    CommitMachines(t, t', a, b) by { CommittedIndexes(baseK, t, t', a, b, places, task); }
    forall c | c in t'.racks
      ensures RackIndexed(t', c)
    {
      CommitRack(baseK, t, t', a, b, round, places, task, c);
    }
    forall n, s | n in t'.nodes && s in t'.nodes[n].stripes
      ensures ListedAt(t', n, s, t'.nodes[n].stripes[s])
    {
      CommitNodeLists(baseK, t, t', a, b, round, places, task, n, s);
    }
    forall s, i | s in t'.stripes && 0 <= i < |t'.stripes[s].blocks|
      ensures Listed(t', At(t', s, i).place.node, s, i)
    {
      CommitNodeListed(baseK, t, t', a, b, round, places, task, s, i);
    }
    forall s | s in t'.stripes
      ensures StripeIndexed(t', s)
    {
      CommittedStripe(baseK, t, t', a, b, round, places, task, s);
      CommitStripeIndex(baseK, t, t', a, b, round, places, task);
      if s != a {
        OtherStripeIndexed(baseK, t, t', a, b, round, places, task, s);
      }
    }
  }

  lemma OtherStripeIndexed(baseK: nat, t: Tables, t': Tables, a: nat, b: nat, round: nat, places: map<nat, Place>,
                           task: nat, s: nat)
    requires Mergeable(baseK, t, a, b, round) && Committed(baseK, t, t', a, b, places, task)
    requires s in t.stripes && s != a && s != b && StripeIndexed(t, s)
    ensures s in t'.stripes && StripeIndexed(t', s)
  {
    hide Mergeable, Committed, Partition, OnRack, EntriesOf;
    OtherEntries(baseK, t, t', a, b, round, places, task, s);
    OtherStays(baseK, t, t', a, b, round, places, task, s);
  }

  // ---- Parity files ----

  /** Parity files stay on their parity's node. */
  lemma CommitAtHome(baseK: nat, t: Tables, t': Tables, a: nat, b: nat, round: nat, places: map<nat, Place>, task: nat,
                     disk: Disk)
    requires Mergeable(baseK, t, a, b, round) && Committed(baseK, t, t', a, b, places, task) && ParitiesAtHome(t, disk)
    ensures ParitiesAtHome(t', disk)
  {
    hide Mergeable, Committed, AtHome;
    forall where | where in disk
      ensures AtHome(t', where)
    {
      assert AtHome(t, where);
      CommitFileAtHome(baseK, t, t', a, b, round, places, task, where);
    }
  }

  lemma CommitFileAtHome(baseK: nat, t: Tables, t': Tables, a: nat, b: nat, round: nat, places: map<nat, Place>,
                         task: nat, where: (nat, Key))
    requires Mergeable(baseK, t, a, b, round) && Committed(baseK, t, t', a, b, places, task) && AtHome(t, where)
    ensures AtHome(t', where)
  {
    hide Mergeable, Committed, At;
    var key := where.1;
    if key.kind != Data && key.sid in t'.stripes && HomeOf(t'.stripes[key.sid], key) < |t'.stripes[key.sid].blocks| {
      CommittedStripe(baseK, t, t', a, b, round, places, task, key.sid);
      if key.sid == a {
        HomeMoves(baseK, t, t', a, b, round, places, task, key);
        MergedBlock(baseK, t, t', a, b, round, places, task, HomeOf(t'.stripes[a], key));
      } else {
        OtherBlock(baseK, t, t', a, b, round, places, task, key.sid, HomeOf(t.stripes[key.sid], key));
      }
    }
  }

  lemma HomeMoves(baseK: nat, t: Tables, t': Tables, a: nat, b: nat, round: nat, places: map<nat, Place>, task: nat,
                  key: Key)
    requires Mergeable(baseK, t, a, b, round) && Committed(baseK, t, t', a, b, places, task)
    ensures a in t'.stripes && HomeOf(t'.stripes[a], key) == HomeOf(t.stripes[a], key) + t.stripes[a].k
    ensures HomeOf(t.stripes[a], key) >= t.stripes[a].k
  {
  }

  // ---- Numbers ----

  lemma CommitNumbers(baseK: nat, t: Tables, t': Tables, a: nat, b: nat, round: nat, places: map<nat, Place>, task: nat,
                      disk: Disk, n: nat)
    requires Mergeable(baseK, t, a, b, round) && Committed(baseK, t, t', a, b, places, task) && NumbersBelow(t, disk, n)
    ensures NumbersBelow(t', disk, n)
  {
    hide Mergeable, Committed, At;
    SameK(baseK, t, a, b, round);
    forall s | s in t'.stripes
      ensures s < n
    {
      CommittedStripe(baseK, t, t', a, b, round, places, task, s);
    }
    forall s, i | DataAt(t', s, i)
      ensures At(t', s, i).key.sid < n
    {
      DataOrigin(baseK, t, t', a, b, round, places, task, s, i);
    }
  }
}

/**
 * The secondary indexes - which rack and which node holds which blocks of
 * which stripe - as they are rebuilt when a merge commits.
 */
module MergeIndex {
  import opened MergePlan
  import opened MergeTables

  /** What the commit loop updates for every block of the merged stripe. */
  datatype Index = Index(racks: map<nat, Rack>, nodes: map<nat, Node>, groups: map<int, seq<nat>>, clusters: set<nat>)

  /** A listed stripe position: block number, place and placement group. */
  datatype Entry = Entry(block: nat, place: Place, group: int)

  function AddToRack(racks: map<nat, Rack>, c: nat, sid: nat, p: nat): map<nat, Rack> {
    if c in racks then racks[c := Rack(racks[c].nodes, racks[c].stripes + {sid}, racks[c].blocks + [p])] else racks
  }

  function AddToNode(nodes: map<nat, Node>, n: nat, sid: nat, i: nat): map<nat, Node> {
    if n in nodes then nodes[n := Node(nodes[n].cluster, nodes[n].stripes[sid := i])] else nodes
  }

  function AddToGroup(groups: map<int, seq<nat>>, g: int, i: nat): map<int, seq<nat>> {
    groups[g := (if g in groups then groups[g] else []) + [i]]
  }

  function IndexOne(ix: Index, sid: nat, i: nat, e: Entry): Index {
    Index(AddToRack(ix.racks, e.place.cluster, sid, e.block), AddToNode(ix.nodes, e.place.node, sid, i),
          AddToGroup(ix.groups, e.group, i), ix.clusters + {e.place.cluster})
  }

  /** Indexes the entries one after the other, by position. */
  function IndexAll(ix: Index, sid: nat, entries: seq<Entry>): Index {
    if entries == [] then ix
    else
      var i := |entries| - 1;
      IndexOne(IndexAll(ix, sid, entries[..i]), sid, i, entries[i])
  }

  ghost predicate OnRack(entries: seq<Entry>, c: nat) {
    exists i :: 0 <= i < |entries| && entries[i].place.cluster == c
  }

  ghost predicate BlockOnRack(entries: seq<Entry>, c: nat, p: nat) {
    exists i :: 0 <= i < |entries| && entries[i].place.cluster == c && entries[i].block == p
  }

  /** Racks gain the stripe and exactly its blocks that lie there. */
  ghost predicate RackGains(before: Rack, after: Rack, sid: nat, entries: seq<Entry>, c: nat) {
    after.nodes == before.nodes &&
    (forall s :: s in after.stripes <==> s in before.stripes || (s == sid && OnRack(entries, c))) &&
    (forall p :: p in after.blocks <==> p in before.blocks || BlockOnRack(entries, c, p))
  }

  lemma {:induction false} IndexRacks(ix: Index, sid: nat, entries: seq<Entry>, c: nat)
    ensures c in IndexAll(ix, sid, entries).racks <==> c in ix.racks
    ensures c in ix.racks ==> RackGains(ix.racks[c], IndexAll(ix, sid, entries).racks[c], sid, entries, c)
  {
    hide RackGains;
    if entries == [] {
      if c in ix.racks {
        NothingGained(ix.racks[c], sid, c);
      }
    } else {
      var init := entries[..|entries| - 1];
      IndexRacks(ix, sid, init, c);
      if c in ix.racks {
        RackStep(ix.racks[c], IndexAll(ix, sid, init).racks[c], sid, entries, c);
      }
    }
  }

  lemma NothingGained(rack: Rack, sid: nat, c: nat)
    ensures RackGains(rack, rack, sid, [], c)
  {
  }

  lemma RackStep(before: Rack, middle: Rack, sid: nat, entries: seq<Entry>, c: nat)
    requires entries != [] && RackGains(before, middle, sid, entries[..|entries| - 1], c)
    ensures var e := entries[|entries| - 1];
      RackGains(before, if e.place.cluster == c then Rack(middle.nodes, middle.stripes + {sid}, middle.blocks + [e.block]) else middle,
                sid, entries, c)
  {
    hide OnRack, BlockOnRack;
    OnRackStep(entries, c);
    forall p {
      BlockOnRackStep(entries, c, p);
    }
  }

  lemma OnRackStep(entries: seq<Entry>, c: nat)
    requires entries != []
    ensures OnRack(entries, c) <==> OnRack(entries[..|entries| - 1], c) || entries[|entries| - 1].place.cluster == c
  {
  }

  lemma BlockOnRackStep(entries: seq<Entry>, c: nat, p: nat)
    requires entries != []
    ensures BlockOnRack(entries, c, p) <==>
      BlockOnRack(entries[..|entries| - 1], c, p) || (entries[|entries| - 1].place.cluster == c && entries[|entries| - 1].block == p)
  {
  }

  /** A rack lists no block twice. */
  lemma {:induction false} IndexNoDup(ix: Index, sid: nat, entries: seq<Entry>, c: nat)
    requires c in ix.racks && NoDup(ix.racks[c].blocks)
    requires forall i, j :: 0 <= i < j < |entries| ==> entries[i].block != entries[j].block
    requires forall i :: 0 <= i < |entries| ==> entries[i].block !in ix.racks[c].blocks
    ensures c in IndexAll(ix, sid, entries).racks && NoDup(IndexAll(ix, sid, entries).racks[c].blocks)
  {
    if entries != [] {
      var init := entries[..|entries| - 1];
      IndexNoDup(ix, sid, init, c);
      IndexRacks(ix, sid, init, c);
    }
  }

  /** Nodes: other stripes keep their entries, and what is listed for this one is at that position. */
  lemma {:induction false} IndexNodes(ix: Index, sid: nat, entries: seq<Entry>)
    requires forall n :: n in ix.nodes ==> sid !in ix.nodes[n].stripes
    ensures var after := IndexAll(ix, sid, entries).nodes;
      after.Keys == ix.nodes.Keys &&
      forall n :: n in after ==>
        after[n].cluster == ix.nodes[n].cluster &&
        (forall s :: s != sid ==> (s in after[n].stripes <==> s in ix.nodes[n].stripes) &&
                                  (s in after[n].stripes ==> after[n].stripes[s] == ix.nodes[n].stripes[s])) &&
        (sid in after[n].stripes ==> after[n].stripes[sid] < |entries| && entries[after[n].stripes[sid]].place.node == n)
  {
    if entries != [] {
      IndexNodes(ix, sid, entries[..|entries| - 1]);
    }
  }

  /** If all entries are on different nodes, every node lists its entry. */
  lemma {:induction false} IndexNodeOf(ix: Index, sid: nat, entries: seq<Entry>, i: nat)
    requires i < |entries| && entries[i].place.node in ix.nodes
    requires forall x, y :: 0 <= x < y < |entries| ==> entries[x].place.node != entries[y].place.node
    ensures var after := IndexAll(ix, sid, entries).nodes;
      var n := entries[i].place.node;
      n in after && sid in after[n].stripes && after[n].stripes[sid] == i
  {
    var init := entries[..|entries| - 1];
    NodeKeys(ix, sid, init);
    if i < |entries| - 1 {
      IndexNodeOf(ix, sid, init, i);
    }
  }

  lemma {:induction false} NodeKeys(ix: Index, sid: nat, entries: seq<Entry>)
    ensures IndexAll(ix, sid, entries).nodes.Keys == ix.nodes.Keys
  {
    if entries != [] {
      NodeKeys(ix, sid, entries[..|entries| - 1]);
    }
  }

  /** A list of different positions, all of this group. */
  predicate GroupList(list: seq<nat>, groupOf: seq<int>, g: int) {
    NoDup(list) && list != [] && forall x :: 0 <= x < |list| ==> list[x] < |groupOf| && groupOf[list[x]] == g
  }

  /** Every position is in the list of its group, once, and in no other. */
  ghost predicate Partition(groups: map<int, seq<nat>>, groupOf: seq<int>) {
    (forall g :: g in groups ==> GroupList(groups[g], groupOf, g)) &&
    (forall i :: 0 <= i < |groupOf| ==> groupOf[i] in groups && i in groups[groupOf[i]])
  }

  function GroupsIn(entries: seq<Entry>): seq<int> {
    seq(|entries|, i requires 0 <= i < |entries| => entries[i].group)
  }

  lemma {:induction false} IndexGroups(ix: Index, sid: nat, entries: seq<Entry>)
    requires ix.groups == map[]
    ensures Partition(IndexAll(ix, sid, entries).groups, GroupsIn(entries))
  {
    if entries != [] {
      var i := |entries| - 1;
      IndexGroups(ix, sid, entries[..i]);
      PartitionStep(IndexAll(ix, sid, entries[..i]).groups, GroupsIn(entries[..i]), entries[i].group);
      assert GroupsIn(entries) == GroupsIn(entries[..i]) + [entries[i].group];
    }
  }

  lemma PartitionStep(groups: map<int, seq<nat>>, groupOf: seq<int>, g: int)
    requires Partition(groups, groupOf)
    ensures Partition(AddToGroup(groups, g, |groupOf|), groupOf + [g])
  {
    var after := AddToGroup(groups, g, |groupOf|);
    forall h | h in after
      ensures GroupList(after[h], groupOf + [g], h)
    {
      if h in groups {
        assert GroupList(groups[h], groupOf, h);
        assert |groupOf| !in groups[h];
        NoDupSnoc(groups[h], |groupOf|);
      }
    }
  }

  lemma {:induction false} IndexClusters(ix: Index, sid: nat, entries: seq<Entry>)
    ensures forall c :: c in IndexAll(ix, sid, entries).clusters <==> c in ix.clusters || OnRack(entries, c)
  {
    if entries != [] {
      IndexClusters(ix, sid, entries[..|entries| - 1]);
    }
  }

  // ---- Forgetting the two stripes ----

  /** The list without the blocks that go, in order. */
  function Without(s: seq<nat>, gone: set<nat>): seq<nat> {
    if s == [] then []
    else Without(s[..|s| - 1], gone) + if s[|s| - 1] in gone then [] else [s[|s| - 1]]
  }

  lemma {:induction false} WithoutIs(s: seq<nat>, gone: set<nat>)
    ensures forall p :: p in Without(s, gone) <==> p in s && p !in gone
    ensures NoDup(s) ==> NoDup(Without(s, gone))
  {
    if s != [] {
      WithoutIs(s[..|s| - 1], gone);
      if NoDup(s) {
        Init(s, |s| - 1);
      }
    }
  }
}

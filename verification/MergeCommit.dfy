/**
 * Committing a merge: what the tables are afterwards, and that they are again
 * consistent, name only files that are there, and keep every index exact.
 */
module MergeCommit {
  import opened LinearAlgebra
  import LocalRepair
  import opened MergeConfig
  import opened MergeParity
  import opened MergePlan
  import opened MergeTables
  import opened MergeIndex

  // ---- The merged stripe ----

  /** Left data, right data, then the left stripe's parity blocks. */
  function MergedBlocks(left: Stripe, right: Stripe): (merged: seq<nat>)
    requires left.k <= |left.blocks| && right.k <= |right.blocks|
    ensures |merged| == |left.blocks| + right.k
  {
    left.blocks[..left.k] + right.blocks[..right.k] + left.blocks[left.k..]
  }

  function KindOf(s: Stripe, j: nat): Kind {
    if j < s.r then Global else Local
  }

  function IndexOf(s: Stripe, j: nat): nat {
    if j < s.r then j else j - s.r
  }

  /** The key under which parity j of the merged stripe is written. */
  function NewKey(s: Stripe, sid: nat, task: nat, j: nat): Key {
    Merged(sid, task, KindOf(s, j), IndexOf(s, j))
  }

  /** A data block of the merged stripe. */
  function NewData(sid: nat, i: nat, place: Place, was: Block): Block {
    was.(id := i, stripe := sid, place := place, group := was.localGroup)
  }

  /** Parity j of the merged stripe, in the left stripe's parity block. */
  function NewParity(s: Stripe, sid: nat, j: nat, task: nat, was: Block): Block {
    was.(id := 2 * s.k + j, stripe := sid, key := NewKey(s, sid, task, j), kind := KindOf(s, j),
         localGroup := if j < s.r then -1 else j - s.r, group := s.z)
  }

  function NewBlock(s: Stripe, sid: nat, i: nat, task: nat, place: Place, was: Block): Block {
    if i < 2 * s.k then NewData(sid, i, place, was) else NewParity(s, sid, i - 2 * s.k, task, was)
  }

  function PlaceIn(places: map<nat, Place>, p: nat): Place {
    if p in places then places[p] else NO_BLOCK.place
  }

  /** What guards the merge: two stripes of the same shape, each merged round - 1 times. */
  ghost predicate Mergeable(baseK: nat, t: Tables, a: nat, b: nat, round: nat) {
    a in t.stripes && b in t.stripes && a != b && 1 <= round <= MAX_LEVEL &&
    t.stripes[a].k == t.stripes[b].k == baseK * Pow2(round - 1) &&
    t.stripes[a].r == t.stripes[b].r && t.stripes[a].z == t.stripes[b].z
  }

  /** A planned layout of both stripes' data: on nodes of their racks, all different, none on the parity rack. */
  ghost predicate WellPlaced(t: Tables, a: nat, b: nat, places: map<nat, Place>)
    requires a in t.stripes && b in t.stripes && t.stripes[a].k < |t.stripes[a].blocks|
  {
    var left, right := t.stripes[a], t.stripes[b];
    var parity := At(t, a, left.k).place.cluster;
    (forall p :: p in places ==> OnItsRack(t, places[p]) && places[p].cluster != parity) &&
    (forall p, q :: p in places && q in places && p != q ==> places[p].node != places[q].node) &&
    (forall s, i :: (s == a || s == b) && DataAt(t, s, i) ==> t.stripes[s].blocks[i] in places)
  }

  /** The tables after the commit. */
  ghost predicate Committed(baseK: nat, t: Tables, t': Tables, a: nat, b: nat, places: map<nat, Place>, task: nat) {
    AllStripesOk(baseK, t) && a in t.stripes && b in t.stripes &&
    StripesCommitted(t, t', a, b) && BlocksCommitted(t, t', a, b, places, task) && IndexesCommitted(t, t', a, b)
  }

  ghost predicate StripesCommitted(t: Tables, t': Tables, a: nat, b: nat)
    requires a in t.stripes && b in t.stripes
    requires t.stripes[a].k <= |t.stripes[a].blocks| && t.stripes[b].k <= |t.stripes[b].blocks|
  {
    var left, right := t.stripes[a], t.stripes[b];
    t'.stripes.Keys == t.stripes.Keys - {b} && a in t'.stripes &&
    (forall s :: s in t'.stripes && s != a ==> t'.stripes[s] == t.stripes[s]) &&
    t'.stripes[a] == left.(k := 2 * left.k, blocks := MergedBlocks(left, right),
                           groups := t'.stripes[a].groups, clusters := t'.stripes[a].clusters)
  }

  ghost predicate BlocksCommitted(t: Tables, t': Tables, a: nat, b: nat, places: map<nat, Place>, task: nat)
    requires a in t.stripes && b in t.stripes
    requires t.stripes[a].k <= |t.stripes[a].blocks| && t.stripes[b].k <= |t.stripes[b].blocks|
  {
    var left, right := t.stripes[a], t.stripes[b];
    var merged := MergedBlocks(left, right);
    t'.blocks.Keys == t.blocks.Keys &&
    (forall p :: p in t.blocks && p !in merged ==> t'.blocks[p] == t.blocks[p]) &&
    (forall i :: 0 <= i < |merged| ==>
       BlockAt(t', merged[i]) == NewBlock(left, a, i, task, PlaceIn(places, merged[i]), BlockAt(t, merged[i])))
  }

  function EntriesOf(t: Tables, sid: nat): (entries: seq<Entry>)
    requires sid in t.stripes
    ensures |entries| == |t.stripes[sid].blocks|
  {
    var s := t.stripes[sid];
    seq(|s.blocks|, i requires 0 <= i < |s.blocks| =>
      Entry(s.blocks[i], BlockAt(t, s.blocks[i]).place, BlockAt(t, s.blocks[i]).group))
  }

  /** All blocks of both stripes. */
  function OldBlocks(t: Tables, a: nat, b: nat): set<nat>
    requires a in t.stripes && b in t.stripes
  {
    Elements(t.stripes[a].blocks) + Elements(t.stripes[b].blocks)
  }

  function ForgetRack(rack: Rack, a: nat, b: nat, gone: set<nat>): Rack {
    Rack(rack.nodes, rack.stripes - {a, b}, Without(rack.blocks, gone))
  }

  function ForgetNode(node: Node, a: nat, b: nat): Node {
    Node(node.cluster, node.stripes - {a, b})
  }

  function Forget(t: Tables, a: nat, b: nat): Index
    requires a in t.stripes && b in t.stripes
  {
    Index(map c | c in t.racks :: ForgetRack(t.racks[c], a, b, OldBlocks(t, a, b)),
          map n | n in t.nodes :: ForgetNode(t.nodes[n], a, b), map[], {})
  }

  ghost predicate IndexesCommitted(t: Tables, t': Tables, a: nat, b: nat)
    requires a in t.stripes && b in t.stripes
  {
    a in t'.stripes &&
    Index(t'.racks, t'.nodes, t'.stripes[a].groups, t'.stripes[a].clusters)
      == IndexAll(Forget(t, a, b), a, EntriesOf(t', a))
  }

  // ---- Reading off the merged stripe ----

  lemma MergedAt(left: Stripe, right: Stripe, i: nat)
    requires left.k <= |left.blocks| && right.k <= |right.blocks| && i < |MergedBlocks(left, right)|
    ensures MergedBlocks(left, right)[i] ==
      if i < left.k then left.blocks[i]
      else if i < left.k + right.k then right.blocks[i - left.k]
      else left.blocks[i - right.k]
  {
  }

  /** Which block of which stripe becomes block i of the merged one. */
  function SourceStripe(k: nat, a: nat, b: nat, i: nat): nat {
    if k <= i < 2 * k then b else a
  }

  function SourceIndex(k: nat, i: nat): nat {
    if i < k then i else i - k
  }

  /** Block i of the merged stripe, from the block it was. */
  lemma MergedBlock(baseK: nat, t: Tables, t': Tables, a: nat, b: nat, round: nat, places: map<nat, Place>, task: nat,
                    i: nat)
    requires Mergeable(baseK, t, a, b, round) && Committed(baseK, t, t', a, b, places, task)
    requires i < |t'.stripes[a].blocks|
    ensures var left := t.stripes[a];
      var s, j := SourceStripe(left.k, a, b, i), SourceIndex(left.k, i);
      |t'.stripes[a].blocks| == 2 * left.k + left.r + left.z && j < |t.stripes[s].blocks| &&
      t'.stripes[a].blocks[i] == t.stripes[s].blocks[j] && t.stripes[s].blocks[j] in t.blocks &&
      t'.stripes[a].blocks[i] in t'.blocks &&
      At(t', a, i) == NewBlock(left, a, i, task, PlaceIn(places, t.stripes[s].blocks[j]), At(t, s, j))
  {
    hide NewBlock, IndexesCommitted, BlockOk, Pow2, MergedBlocks, PlaceIn;
    var left, right := t.stripes[a], t.stripes[b];
    assert StripeOk(baseK, t, a) && StripeOk(baseK, t, b);
    MergedAt(left, right, i);
  }

  /** The blocks of the other stripes are untouched. */
  lemma OtherBlock(baseK: nat, t: Tables, t': Tables, a: nat, b: nat, round: nat, places: map<nat, Place>, task: nat,
                   sid: nat, i: nat)
    requires Mergeable(baseK, t, a, b, round) && Committed(baseK, t, t', a, b, places, task)
    requires sid in t.stripes && sid != a && sid != b && i < |t.stripes[sid].blocks|
    ensures sid in t'.stripes && t'.stripes[sid] == t.stripes[sid]
    ensures t.stripes[sid].blocks[i] in t'.blocks && At(t', sid, i) == At(t, sid, i)
  {
    hide NewBlock, IndexesCommitted, Pow2, MergedBlocks, PlaceIn, ParityKey;
    assert StripeOk(baseK, t, sid);
    var p := t.stripes[sid].blocks[i];
    assert BlockOk(baseK, t.stripes[sid], sid, i, t.blocks[p]);
    NotMerged(baseK, t, a, b, p);
  }

  lemma NotMerged(baseK: nat, t: Tables, a: nat, b: nat, p: nat)
    requires AllStripesOk(baseK, t) && a in t.stripes && b in t.stripes && p in t.blocks
    requires t.stripes[a].k <= |t.stripes[a].blocks| && t.stripes[b].k <= |t.stripes[b].blocks|
    requires t.blocks[p].stripe != a && t.blocks[p].stripe != b
    ensures p !in MergedBlocks(t.stripes[a], t.stripes[b])
  {
    hide ParityKey;
    assert StripeOk(baseK, t, a) && StripeOk(baseK, t, b);
    var left, right := t.stripes[a], t.stripes[b];
    forall i | 0 <= i < |MergedBlocks(left, right)|
      ensures MergedBlocks(left, right)[i] != p
    {
      MergedAt(left, right, i);
      var s, j := SourceStripe(left.k, a, b, i), SourceIndex(left.k, i);
    }
  }

  // ---- Consistency ----

  lemma DoubledK(baseK: nat, round: nat)
    requires round > 0
    ensures baseK * Pow2(round) == 2 * (baseK * Pow2(round - 1))
  {
    assert Pow2(round) == 2 * Pow2(round - 1);
  }

  lemma CommitStripeOk(baseK: nat, t: Tables, t': Tables, a: nat, b: nat, round: nat, places: map<nat, Place>,
                       task: nat)
    requires Mergeable(baseK, t, a, b, round) && Committed(baseK, t, t', a, b, places, task) && TaskRound(task) == round
    ensures AllStripesOk(baseK, t')
  {
    hide Committed, Mergeable;
    forall sid | sid in t'.stripes
      ensures StripeOk(baseK, t', sid)
    {
      CommittedStripe(baseK, t, t', a, b, round, places, task, sid);
      if sid == a {
        MergedStripeOk(baseK, t, t', a, b, round, places, task);
      } else {
        assert StripeOk(baseK, t, sid);
        forall i: nat | i < |t.stripes[sid].blocks|
          ensures t.stripes[sid].blocks[i] in t'.blocks
          ensures BlockAt(t', t.stripes[sid].blocks[i]) == t.blocks[t.stripes[sid].blocks[i]]
        {
          OtherBlock(baseK, t, t', a, b, round, places, task, sid, i);
        }
      }
    }
  }

  /** Which stripes there are after the commit. */
  lemma CommittedStripe(baseK: nat, t: Tables, t': Tables, a: nat, b: nat, round: nat, places: map<nat, Place>,
                        task: nat, sid: nat)
    requires Mergeable(baseK, t, a, b, round) && Committed(baseK, t, t', a, b, places, task) && sid in t'.stripes
    ensures AllStripesOk(baseK, t) && sid in t.stripes && sid != b && a in t.stripes && b in t.stripes && a != b
    ensures sid != a ==> t'.stripes[sid] == t.stripes[sid]
    ensures |t'.stripes[sid].blocks| > t'.stripes[sid].k
  {
    assert StripeOk(baseK, t, sid) && StripeOk(baseK, t, a) && StripeOk(baseK, t, b);
  }

  lemma MergedStripeOk(baseK: nat, t: Tables, t': Tables, a: nat, b: nat, round: nat, places: map<nat, Place>,
                       task: nat)
    requires Mergeable(baseK, t, a, b, round) && Committed(baseK, t, t', a, b, places, task) && TaskRound(task) == round
    ensures a in t'.stripes && StripeOk(baseK, t', a)
  {
    hide IndexesCommitted, BlocksCommitted, Pow2, BlockOk, MergedBlocks, TaskRound, NewBlock;
    assert StripeOk(baseK, t, a) && StripeOk(baseK, t, b);
    forall i: nat | i < |t'.stripes[a].blocks|
      ensures t'.stripes[a].blocks[i] in t'.blocks
      ensures BlockOk(baseK, t'.stripes[a], a, i, t'.blocks[t'.stripes[a].blocks[i]])
    {
      MergedBlock(baseK, t, t', a, b, round, places, task, i);
      MergedBlockOk(baseK, t, t', a, b, round, places, task, i);
    }
  }

  lemma MergedBlockOk(baseK: nat, t: Tables, t': Tables, a: nat, b: nat, round: nat, places: map<nat, Place>, task: nat,
                      i: nat)
    requires Mergeable(baseK, t, a, b, round) && Committed(baseK, t, t', a, b, places, task) && TaskRound(task) == round
    requires i < |t'.stripes[a].blocks|
    ensures BlockOk(baseK, t'.stripes[a], a, i, At(t', a, i))
  {
    hide At, IndexesCommitted, BlocksCommitted, Pow2, MergedBlocks, TaskRound;
    assert StripeOk(baseK, t, a) && StripeOk(baseK, t, b);
    MergedBlock(baseK, t, t', a, b, round, places, task, i);
    DoubledK(baseK, round);
    var k := t.stripes[a].k;
    var s, j := SourceStripe(k, a, b, i), SourceIndex(k, i);
    assert StripeOk(baseK, t, s);
    SourceOk(baseK, t, s, j);
  }

  lemma SourceOk(baseK: nat, t: Tables, s: nat, j: nat)
    requires s in t.stripes && StripeOk(baseK, t, s) && j < |t.stripes[s].blocks|
    ensures t.stripes[s].blocks[j] in t.blocks && BlockOk(baseK, t.stripes[s], s, j, At(t, s, j))
  {
  }

  /** Racks and nodes are the same machines as before. */
  ghost predicate SameMachines(t: Tables, t': Tables) {
    t'.racks.Keys == t.racks.Keys && t'.nodes.Keys == t.nodes.Keys &&
    (forall c :: c in t.racks ==> t'.racks[c].nodes == t.racks[c].nodes) &&
    (forall n :: n in t.nodes ==> t'.nodes[n].cluster == t.nodes[n].cluster)
  }

  lemma CommitMachines(t: Tables, t': Tables, a: nat, b: nat)
    requires a in t.stripes && b in t.stripes && IndexesCommitted(t, t', a, b)
    ensures SameMachines(t, t')
  {
    var ix, entries := Forget(t, a, b), EntriesOf(t', a);
    hide EntriesOf, OnRack, BlockOnRack, Without, OldBlocks;
    IndexNodes(ix, a, entries);
    forall c
      ensures c in t'.racks <==> c in t.racks
      ensures c in t.racks ==> t'.racks[c].nodes == t.racks[c].nodes
    {
      IndexRacks(ix, a, entries, c);
    }
  }

  lemma MachinesPlace(t: Tables, t': Tables, place: Place)
    requires SameMachines(t, t') && OnItsRack(t, place)
    ensures OnItsRack(t', place)
  {
  }

  /** Places on different racks are on different nodes. */
  lemma RacksApart(t: Tables, x: Place, y: Place)
    requires RacksOk(t) && OnItsRack(t, x) && OnItsRack(t, y) && x.cluster != y.cluster
    ensures x.node != y.node
  {
    assert t.nodes[x.node].cluster == x.cluster && t.nodes[y.node].cluster == y.cluster;
  }

  /** Different positions of the merged stripe come from different blocks. */
  lemma SourcesDiffer(baseK: nat, t: Tables, a: nat, b: nat, round: nat, i: nat, i': nat)
    requires AllStripesOk(baseK, t) && Mergeable(baseK, t, a, b, round)
    requires i != i' && i < 2 * t.stripes[a].k && i' < 2 * t.stripes[a].k
    ensures var k := t.stripes[a].k;
      var s, s' := SourceStripe(k, a, b, i), SourceStripe(k, a, b, i');
      var j, j' := SourceIndex(k, i), SourceIndex(k, i');
      DataAt(t, s, j) && DataAt(t, s', j') && (s != s' || j != j') && t.stripes[s].blocks[j] != t.stripes[s'].blocks[j']
  {
    hide Pow2, ParityKey;
    var k := t.stripes[a].k;
    assert StripeOk(baseK, t, a) && StripeOk(baseK, t, b);
    var s, s' := SourceStripe(k, a, b, i), SourceStripe(k, a, b, i');
    SourceOk(baseK, t, s, SourceIndex(k, i));
    SourceOk(baseK, t, s', SourceIndex(k, i'));
  }

  /** The places of the merged stripe. */
  lemma MergedPlace(baseK: nat, t: Tables, t': Tables, a: nat, b: nat, round: nat, places: map<nat, Place>, task: nat,
                    i: nat)
    requires Sane(baseK, t) && Mergeable(baseK, t, a, b, round) && Committed(baseK, t, t', a, b, places, task)
    requires WellPlaced(t, a, b, places) && i < |t'.stripes[a].blocks|
    ensures var left := t.stripes[a];
      var s, j := SourceStripe(left.k, a, b, i), SourceIndex(left.k, i);
      |t'.stripes[a].blocks| == 2 * left.k + left.r + left.z && j < |t.stripes[s].blocks| &&
      (i < 2 * left.k ==> t.stripes[s].blocks[j] in places && At(t', a, i).place == places[t.stripes[s].blocks[j]]) &&
      (i >= 2 * left.k ==> s == a && At(t', a, i).place == At(t, a, j).place) &&
      OnItsRack(t, At(t', a, i).place) &&
      (At(t', a, i).place.cluster == At(t, a, left.k).place.cluster <==> i >= 2 * left.k)
  {
    hide IndexesCommitted, BlocksCommitted, Pow2, MergedBlocks, BlockOk, At;
    MergedBlock(baseK, t, t', a, b, round, places, task, i);
    assert StripeOk(baseK, t, a) && StripeOk(baseK, t, b) && StripePlaced(t, a);
    var s, j := SourceStripe(t.stripes[a].k, a, b, i), SourceIndex(t.stripes[a].k, i);
    if i < 2 * t.stripes[a].k {
      assert DataAt(t, s, j);
    }
  }

  lemma MergedPlaced(baseK: nat, t: Tables, t': Tables, a: nat, b: nat, round: nat, places: map<nat, Place>, task: nat)
    requires Sane(baseK, t) && Mergeable(baseK, t, a, b, round) && Committed(baseK, t, t', a, b, places, task)
    requires WellPlaced(t, a, b, places)
    ensures a in t'.stripes && |t'.stripes[a].blocks| > t'.stripes[a].k && StripePlaced(t', a)
  {
    hide BlocksCommitted, IndexesCommitted, Pow2, MergedBlocks, BlockOk, At, Sane, WellPlaced;
    CommittedStripe(baseK, t, t', a, b, round, places, task, a);
    CommitMachines(t, t', a, b);
    MergedPlace(baseK, t, t', a, b, round, places, task, t'.stripes[a].k);
    forall i: nat | i < |t'.stripes[a].blocks|
      ensures OnItsRack(t', At(t', a, i).place)
      ensures At(t', a, i).place.cluster == At(t', a, t'.stripes[a].k).place.cluster <==> i >= t'.stripes[a].k
    {
      MergedPlace(baseK, t, t', a, b, round, places, task, i);
      MachinesPlace(t, t', At(t', a, i).place);
    }
    forall i: nat, j: nat | i < j < |t'.stripes[a].blocks|
      ensures At(t', a, i).place.node != At(t', a, j).place.node
    {
      MergedNodes(baseK, t, t', a, b, round, places, task, i, j);
    }
  }

  lemma MergedNodes(baseK: nat, t: Tables, t': Tables, a: nat, b: nat, round: nat, places: map<nat, Place>, task: nat,
                    i: nat, j: nat)
    requires Sane(baseK, t) && Mergeable(baseK, t, a, b, round) && Committed(baseK, t, t', a, b, places, task)
    requires WellPlaced(t, a, b, places) && i < j < |t'.stripes[a].blocks|
    ensures At(t', a, i).place.node != At(t', a, j).place.node
  {
    hide BlocksCommitted, IndexesCommitted, Pow2, MergedBlocks, BlockOk, At, StripeOk;
    MergedPlace(baseK, t, t', a, b, round, places, task, i);
    MergedPlace(baseK, t, t', a, b, round, places, task, j);
    var k := t.stripes[a].k;
    if j < 2 * k {
      SourcesDiffer(baseK, t, a, b, round, i, j);
    } else if i < 2 * k {
      RacksApart(t, At(t', a, i).place, At(t', a, j).place);
    } else {
      assert StripePlaced(t, a);
    }
  }

  lemma CommitPlaced(baseK: nat, t: Tables, t': Tables, a: nat, b: nat, round: nat, places: map<nat, Place>, task: nat)
    requires Sane(baseK, t) && Mergeable(baseK, t, a, b, round) && Committed(baseK, t, t', a, b, places, task)
    requires WellPlaced(t, a, b, places)
    ensures AllPlaced(t') && RacksOk(t')
  {
    hide Mergeable, Committed, At, WellPlaced;
    CommittedStripe(baseK, t, t', a, b, round, places, task, a) by { Survives(baseK, t, t', a, b, round, places, task); }
    assert SameMachines(t, t') by { CommittedIndexes(baseK, t, t', a, b, places, task); CommitMachines(t, t', a, b); }
    forall sid | sid in t'.stripes
      ensures |t'.stripes[sid].blocks| > t'.stripes[sid].k && StripePlaced(t', sid)
    {
      CommittedStripe(baseK, t, t', a, b, round, places, task, sid);
      if sid == a {
        MergedPlaced(baseK, t, t', a, b, round, places, task);
      } else {
        assert StripePlaced(t, sid);
        forall i: nat | i < |t.stripes[sid].blocks|
          ensures At(t', sid, i) == At(t, sid, i) && OnItsRack(t', At(t, sid, i).place)
        {
          OtherBlock(baseK, t, t', a, b, round, places, task, sid, i);
          MachinesPlace(t, t', At(t, sid, i).place);
        }
      }
    }
  }

  lemma Survives(baseK: nat, t: Tables, t': Tables, a: nat, b: nat, round: nat, places: map<nat, Place>, task: nat)
    requires Mergeable(baseK, t, a, b, round) && Committed(baseK, t, t', a, b, places, task)
    ensures a in t'.stripes
  {
  }

  lemma CommittedIndexes(baseK: nat, t: Tables, t': Tables, a: nat, b: nat, places: map<nat, Place>, task: nat)
    requires Committed(baseK, t, t', a, b, places, task)
    ensures a in t.stripes && b in t.stripes && IndexesCommitted(t, t', a, b)
  {
  }

  // ---- Keys ----

  function OriginStripe(k: nat, a: nat, b: nat, sid: nat, i: nat): nat {
    if sid == a then SourceStripe(k, a, b, i) else sid
  }

  function OriginIndex(k: nat, a: nat, sid: nat, i: nat): nat {
    if sid == a then SourceIndex(k, i) else i
  }

  /** Data blocks keep their keys. */
  lemma DataOrigin(baseK: nat, t: Tables, t': Tables, a: nat, b: nat, round: nat, places: map<nat, Place>, task: nat,
                   sid: nat, i: nat)
    requires Mergeable(baseK, t, a, b, round) && Committed(baseK, t, t', a, b, places, task) && DataAt(t', sid, i)
    ensures var k := t.stripes[a].k;
      var s, j := OriginStripe(k, a, b, sid, i), OriginIndex(k, a, sid, i);
      DataAt(t, s, j) && At(t', sid, i).key == At(t, s, j).key
  {
    hide IndexesCommitted, BlocksCommitted, Pow2, MergedBlocks, BlockOk, At;
    CommittedStripe(baseK, t, t', a, b, round, places, task, sid);
    assert StripeOk(baseK, t, a) && StripeOk(baseK, t, b) && StripeOk(baseK, t, sid);
    if sid == a {
      MergedBlock(baseK, t, t', a, b, round, places, task, i);
    } else {
      OtherBlock(baseK, t, t', a, b, round, places, task, sid, i);
    }
  }

  lemma CommitKeysDiffer(baseK: nat, t: Tables, t': Tables, a: nat, b: nat, round: nat, places: map<nat, Place>,
                         task: nat)
    requires Sane(baseK, t) && Mergeable(baseK, t, a, b, round) && Committed(baseK, t, t', a, b, places, task)
    ensures DataKeysDiffer(t')
  {
    hide Mergeable, Committed, At, AllStripesOk, AllPlaced, RacksOk;
    forall x, i, y, j | DataAt(t', x, i) && DataAt(t', y, j) && At(t', x, i).key == At(t', y, j).key
      ensures x == y && i == j
    {
      SameOrigin(baseK, t, t', a, b, round, places, task, x, i, y, j);
    }
  }

  lemma SameOrigin(baseK: nat, t: Tables, t': Tables, a: nat, b: nat, round: nat, places: map<nat, Place>, task: nat,
                   x: nat, i: nat, y: nat, j: nat)
    requires Sane(baseK, t) && Mergeable(baseK, t, a, b, round) && Committed(baseK, t, t', a, b, places, task)
    requires DataAt(t', x, i) && DataAt(t', y, j) && At(t', x, i).key == At(t', y, j).key
    ensures x == y && i == j
  {
    hide Committed, At, AllStripesOk, AllPlaced, RacksOk;
    DataOrigin(baseK, t, t', a, b, round, places, task, x, i);
    DataOrigin(baseK, t, t', a, b, round, places, task, y, j);
    CommittedStripe(baseK, t, t', a, b, round, places, task, x);
    CommittedStripe(baseK, t, t', a, b, round, places, task, y);
  }

  /** The committed tables are consistent again. */
  lemma CommitSane(baseK: nat, t: Tables, t': Tables, a: nat, b: nat, round: nat, places: map<nat, Place>, task: nat)
    requires Sane(baseK, t) && Mergeable(baseK, t, a, b, round) && Committed(baseK, t, t', a, b, places, task)
    requires WellPlaced(t, a, b, places) && TaskRound(task) == round
    ensures Sane(baseK, t')
  {
    hide Mergeable, Committed, WellPlaced, AllStripesOk, AllPlaced, RacksOk, DataKeysDiffer, TaskRound;
    CommitStripeOk(baseK, t, t', a, b, round, places, task);
    CommitPlaced(baseK, t, t', a, b, round, places, task);
    CommitKeysDiffer(baseK, t, t', a, b, round, places, task);
  }

  // ---- Contents ----

  /** The merged stripe's data is the left data followed by the right data; so are its groups. */
  lemma MergedData(baseK: nat, t: Tables, t': Tables, written: map<nat, Bytes>, a: nat, b: nat, round: nat,
                   places: map<nat, Place>, task: nat)
    requires Mergeable(baseK, t, a, b, round) && Committed(baseK, t, t', a, b, places, task)
    ensures a in t'.stripes && t'.stripes[a].k == 2 * t.stripes[a].k <= |t'.stripes[a].blocks|
    ensures t.stripes[a].k <= |t.stripes[a].blocks| && t.stripes[b].k <= |t.stripes[b].blocks|
    ensures DataOf(t', written, a) == DataOf(t, written, a) + DataOf(t, written, b)
    ensures GroupsOf(t', a) == GroupsOf(t, a) + GroupsOf(t, b)
  {
    hide IndexesCommitted, BlocksCommitted, Pow2, MergedBlocks, BlockOk, WrittenInto;
    CommittedStripe(baseK, t, t', a, b, round, places, task, a) by { Survives(baseK, t, t', a, b, round, places, task); }
    assert StripeOk(baseK, t, a) && StripeOk(baseK, t, b);
    forall i: nat | i < 2 * t.stripes[a].k
      ensures DataOf(t', written, a)[i] == (DataOf(t, written, a) + DataOf(t, written, b))[i]
      ensures GroupsOf(t', a)[i] == (GroupsOf(t, a) + GroupsOf(t, b))[i]
    {
      MergedBlock(baseK, t, t', a, b, round, places, task, i);
    }
  }

  /** The bytes that parity j of the merge has to write. */
  ghost function FoldedParity(t: Tables, written: map<nat, Bytes>, len: nat, a: nat, b: nat, j: nat): Bytes
    requires a in t.stripes && b in t.stripes && t.stripes[a].k == t.stripes[b].k
    requires t.stripes[a].k <= |t.stripes[a].blocks| && t.stripes[b].k <= |t.stripes[b].blocks|
    requires IsMatrix(DataOf(t, written, a), t.stripes[a].k, len)
    requires IsMatrix(DataOf(t, written, b), t.stripes[b].k, len)
  {
    var k := t.stripes[a].k;
    var left := Expected(t.stripes[a], DataOf(t, written, a), GroupsOf(t, a), len, k + j);
    var right := Expected(t.stripes[b], DataOf(t, written, b), GroupsOf(t, b), len, k + j);
    if |left| == |right| then VAdd(left, VScale(Coefficient(j, t.stripes[a].r, k), right)) else []
  }

  /** Folding the parities gives the parities of the merged stripe. */
  lemma FoldedIsExpected(baseK: nat, t: Tables, t': Tables, written: map<nat, Bytes>, len: nat, a: nat, b: nat,
                         round: nat,
                         places: map<nat, Place>, task: nat, j: nat)
    requires Mergeable(baseK, t, a, b, round) && Committed(baseK, t, t', a, b, places, task)
    requires IsMatrix(DataOf(t, written, a), t.stripes[a].k, len)
    requires IsMatrix(DataOf(t, written, b), t.stripes[b].k, len)
    ensures IsMatrix(DataOf(t', written, a), t'.stripes[a].k, len)
    ensures Expected(t'.stripes[a], DataOf(t', written, a), GroupsOf(t', a), len, 2 * t.stripes[a].k + j)
         == FoldedParity(t, written, len, a, b, j)
  {
    hide DataOf, GroupsOf, BlocksCommitted, IndexesCommitted, GlobalParity, LocalParity, Coefficient, VAdd, VScale,
         Pow2;
    MergedData(baseK, t, t', written, a, b, round, places, task);
    var left, right := DataOf(t, written, a), DataOf(t, written, b);
    var k, r := t.stripes[a].k, t.stripes[a].r;
    if j < r {
      GlobalParityMerges(j, r, left, right, len);
    } else {
      LocalParityMerges(j - r, GroupsOf(t, a), GroupsOf(t, b), left, right, len);
      UnitCoefficient(j, r, k, LocalParity(j - r, GroupsOf(t, b), right, len));
    }
  }

  lemma UnitCoefficient(j: nat, r: nat, k: nat, v: Vec)
    requires j >= r
    ensures VScale(Coefficient(j, r, k), v) == v
  {
    hide VScale;
    LocalRepair.ScaleOne(v);
  }

  /** What the I/O phase must have stored: every data block at its planned place and every folded parity. */
  ghost predicate MergeStored(t: Tables, written: map<nat, Bytes>, len: nat, disk: Disk, a: nat, b: nat,
                              places: map<nat, Place>, task: nat)
    requires a in t.stripes && b in t.stripes && t.stripes[a].k == t.stripes[b].k
  {
    t.stripes[a].k <= |t.stripes[a].blocks| && t.stripes[b].k <= |t.stripes[b].blocks| &&
    IsMatrix(DataOf(t, written, a), t.stripes[a].k, len) && IsMatrix(DataOf(t, written, b), t.stripes[b].k, len) &&
    (forall s, i :: (s == a || s == b) && DataAt(t, s, i) ==>
       StoredAt(disk, (PlaceIn(places, t.stripes[s].blocks[i]).node, At(t, s, i).key), DataOf(t, written, s)[i])) &&
    (forall j, x :: 0 <= j && x == t.stripes[a].k + j < |t.stripes[a].blocks| ==>
       StoredAt(disk, (At(t, a, x).place.node, NewKey(t.stripes[a], a, task, j)),
                FoldedParity(t, written, len, a, b, j)))
  }

  lemma MergedReadable(baseK: nat, t: Tables, t': Tables, written: map<nat, Bytes>, len: nat, disk: Disk, a: nat,
                       b: nat,
                       round: nat, places: map<nat, Place>, task: nat)
    requires Mergeable(baseK, t, a, b, round) && Committed(baseK, t, t', a, b, places, task)
    requires MergeStored(t, written, len, disk, a, b, places, task)
    ensures a in t'.stripes && StripeReadable(t', written, len, disk, a)
  {
    hide DataOf, GroupsOf, BlocksCommitted, IndexesCommitted, FoldedParity, Pow2, BlockOk, Expected, MergeStored, At,
         NewKey, PlaceIn;
    MergedData(baseK, t, t', written, a, b, round, places, task);
    FoldedIsExpected(baseK, t, t', written, len, a, b, round, places, task, 0) by { StoredData(t, written, len, disk, a, b, places, task); }
    forall i: nat | i < |t'.stripes[a].blocks|
      ensures StoredAt(disk, Location(At(t', a, i)), Expected(t'.stripes[a], DataOf(t', written, a), GroupsOf(t', a), len, i))
    {
      MergedBlockStored(baseK, t, t', written, len, disk, a, b, round, places, task, i);
    }
  }

  lemma StoredData(t: Tables, written: map<nat, Bytes>, len: nat, disk: Disk, a: nat, b: nat, places: map<nat, Place>,
                   task: nat)
    requires a in t.stripes && b in t.stripes && t.stripes[a].k == t.stripes[b].k
    requires MergeStored(t, written, len, disk, a, b, places, task)
    ensures t.stripes[a].k <= |t.stripes[a].blocks| && t.stripes[b].k <= |t.stripes[b].blocks|
    ensures IsMatrix(DataOf(t, written, a), t.stripes[a].k, len) && IsMatrix(DataOf(t, written, b), t.stripes[b].k, len)
  {
  }

  lemma MergedBlockStored(baseK: nat, t: Tables, t': Tables, written: map<nat, Bytes>, len: nat, disk: Disk, a: nat,
                          b: nat,
                          round: nat, places: map<nat, Place>, task: nat, i: nat)
    requires Mergeable(baseK, t, a, b, round) && Committed(baseK, t, t', a, b, places, task)
    requires MergeStored(t, written, len, disk, a, b, places, task)
    requires i < |t'.stripes[a].blocks| && t'.stripes[a].k <= |t'.stripes[a].blocks|
    requires IsMatrix(DataOf(t', written, a), t'.stripes[a].k, len)
    ensures StoredAt(disk, Location(At(t', a, i)), Expected(t'.stripes[a], DataOf(t', written, a), GroupsOf(t', a), len, i))
  {
    hide DataOf, GroupsOf, BlocksCommitted, IndexesCommitted, FoldedParity, Pow2, BlockOk, At, NewKey, PlaceIn,
         GlobalParity, LocalParity, MergedBlocks;
    MergedBlock(baseK, t, t', a, b, round, places, task, i);
    MergedData(baseK, t, t', written, a, b, round, places, task);
    var k := t.stripes[a].k;
    var s, x := SourceStripe(k, a, b, i), SourceIndex(k, i);
    if i < 2 * k {
      assert DataAt(t, s, x);
      assert StoredAt(disk, (PlaceIn(places, t.stripes[s].blocks[x]).node, At(t, s, x).key), DataOf(t, written, s)[x]);
    } else {
      var j: nat := i - 2 * k;
      FoldedIsExpected(baseK, t, t', written, len, a, b, round, places, task, j);
      assert x == k + j;
    }
  }

  /** After the commit everything is readable. */
  lemma CommitReadable(baseK: nat, t: Tables, t': Tables, written: map<nat, Bytes>, len: nat, disk: Disk, a: nat,
                       b: nat,
                       round: nat, places: map<nat, Place>, task: nat)
    requires Mergeable(baseK, t, a, b, round) && Committed(baseK, t, t', a, b, places, task)
    requires Readable(t, written, len, disk) && MergeStored(t, written, len, disk, a, b, places, task)
    ensures Readable(t', written, len, disk)
  {
    hide Mergeable, Committed, MergeStored, Expected, At, Location;
    forall sid | sid in t'.stripes
      ensures StripeReadable(t', written, len, disk, sid)
    {
      CommittedStripe(baseK, t, t', a, b, round, places, task, sid);
      if sid == a {
        MergedReadable(baseK, t, t', written, len, disk, a, b, round, places, task) by { SameK(baseK, t, a, b, round); }
      } else {
        assert StripeReadable(t, written, len, disk, sid);
        OtherReadable(baseK, t, t', written, len, disk, a, b, round, places, task, sid);
      }
    }
  }

  lemma SameK(baseK: nat, t: Tables, a: nat, b: nat, round: nat)
    requires Mergeable(baseK, t, a, b, round)
    ensures a in t.stripes && b in t.stripes && t.stripes[a].k == t.stripes[b].k
  {
  }

  lemma OtherReadable(baseK: nat, t: Tables, t': Tables, written: map<nat, Bytes>, len: nat, disk: Disk, a: nat, b: nat,
                      round: nat, places: map<nat, Place>, task: nat, sid: nat)
    requires Mergeable(baseK, t, a, b, round) && Committed(baseK, t, t', a, b, places, task)
    requires sid in t.stripes && sid != a && sid != b && StripeReadable(t, written, len, disk, sid)
    ensures sid in t'.stripes && StripeReadable(t', written, len, disk, sid)
  {
    hide Mergeable, Committed, Expected, Location, WrittenInto;
    var s := t.stripes[sid];
    forall i: nat | i < |s.blocks|
      ensures sid in t'.stripes && t'.stripes[sid] == s && At(t', sid, i) == At(t, sid, i)
      ensures BlockAt(t', s.blocks[i]) == BlockAt(t, s.blocks[i])
    {
      OtherBlock(baseK, t, t', a, b, round, places, task, sid, i);
    }
    OtherStays(baseK, t, t', a, b, round, places, task, sid);
    assert DataOf(t', written, sid) == DataOf(t, written, sid);
    assert GroupsOf(t', sid) == GroupsOf(t, sid);
  }

  lemma OtherStays(baseK: nat, t: Tables, t': Tables, a: nat, b: nat, round: nat, places: map<nat, Place>, task: nat,
                   sid: nat)
    requires Mergeable(baseK, t, a, b, round) && Committed(baseK, t, t', a, b, places, task)
    requires sid in t.stripes && sid != a && sid != b
    ensures sid in t'.stripes && t'.stripes[sid] == t.stripes[sid]
  {
  }

  // ---- Files that are not in use ----

  /** The key of a merge task is nobody's key before the merge. */
  lemma NewKeyFresh(baseK: nat, t: Tables, a: nat, b: nat, round: nat, task: nat, j: nat, sid: nat, i: nat)
    requires Sane(baseK, t) && Mergeable(baseK, t, a, b, round) && TaskRound(task) == round
    requires sid in t.stripes && i < |t.stripes[sid].blocks|
    ensures At(t, sid, i).key != NewKey(t.stripes[a], a, task, j)
  {
    hide TaskRound, Pow2, AllPlaced, RacksOk, DataKeysDiffer;
    assert StripeOk(baseK, t, sid);
    SourceOk(baseK, t, sid, i);
    DoubledK(baseK, round);
  }

  /** Copies of a block anywhere but at its own node are not in use. */
  lemma StrayCopy(baseK: nat, t: Tables, sid: nat, i: nat, node: nat)
    requires Sane(baseK, t) && sid in t.stripes && i < |t.stripes[sid].blocks| && node != At(t, sid, i).place.node
    ensures !InUse(t, (node, At(t, sid, i).key))
  {
    hide Sane, At;
    if InUse(t, (node, At(t, sid, i).key)) {
      var s, x :| s in t.stripes && 0 <= x < |t.stripes[s].blocks| && Location(At(t, s, x)) == (node, At(t, sid, i).key);
      KeysDiffer(baseK, t, s, x, sid, i);
    }
  }

  lemma NewKeyUnused(baseK: nat, t: Tables, a: nat, b: nat, round: nat, task: nat, j: nat, node: nat)
    requires Sane(baseK, t) && Mergeable(baseK, t, a, b, round) && TaskRound(task) == round
    ensures !InUse(t, (node, NewKey(t.stripes[a], a, task, j)))
  {
    hide Sane, At, Mergeable, TaskRound, NewKey;
    SameK(baseK, t, a, b, round);
    var key := NewKey(t.stripes[a], a, task, j);
    if InUse(t, (node, key)) {
      var s, x :| s in t.stripes && 0 <= x < |t.stripes[s].blocks| && Location(At(t, s, x)) == (node, key);
      NewKeyFresh(baseK, t, a, b, round, task, j, s, x);
    }
  }

  /** After the commit the old parity files are not in use ... */
  lemma OldParityUnused(baseK: nat, t: Tables, t': Tables, a: nat, b: nat, round: nat, places: map<nat, Place>,
                        task: nat,
                        s: nat, x: nat, node: nat)
    requires Sane(baseK, t) && Mergeable(baseK, t, a, b, round) && Committed(baseK, t, t', a, b, places, task)
    requires TaskRound(task) == round && (s == a || s == b) && t.stripes[s].k <= x < |t.stripes[s].blocks|
    ensures !InUse(t', (node, At(t, s, x).key))
  {
    hide Sane, At, Mergeable, Committed, TaskRound;
    SameK(baseK, t, a, b, round);
    var key := At(t, s, x).key;
    if InUse(t', (node, key)) {
      var sid, i :| sid in t'.stripes && 0 <= i < |t'.stripes[sid].blocks| && Location(At(t', sid, i)) == (node, key);
      OldParityKeyGone(baseK, t, t', a, b, round, places, task, s, x, sid, i);
    }
  }

  lemma OldParityKeyGone(baseK: nat, t: Tables, t': Tables, a: nat, b: nat, round: nat, places: map<nat, Place>,
                         task: nat,
                         s: nat, x: nat, sid: nat, i: nat)
    requires Sane(baseK, t) && Mergeable(baseK, t, a, b, round) && Committed(baseK, t, t', a, b, places, task)
    requires TaskRound(task) == round && (s == a || s == b) && t.stripes[s].k <= x < |t.stripes[s].blocks|
    requires sid in t'.stripes && i < |t'.stripes[sid].blocks|
    ensures At(t', sid, i).key != At(t, s, x).key
  {
    hide At, Committed, TaskRound, Pow2, AllPlaced, RacksOk, DataKeysDiffer, NewKey;
    CommittedStripe(baseK, t, t', a, b, round, places, task, sid);
    assert StripeOk(baseK, t, s);
    SourceOk(baseK, t, s, x);
    if sid == a {
      MergedBlock(baseK, t, t', a, b, round, places, task, i);
      var k := t.stripes[a].k;
      var y, j := SourceStripe(k, a, b, i), SourceIndex(k, i);
      SourceOk(baseK, t, y, j) by { assert StripeOk(baseK, t, y); }
      if i >= 2 * k {
        NewKeyFresh(baseK, t, a, b, round, task, i - 2 * k, s, x);
      }
    } else {
      OtherBlock(baseK, t, t', a, b, round, places, task, sid, i);
      if At(t, sid, i).key == At(t, s, x).key {
        KeysDiffer(baseK, t, sid, i, s, x);
      }
    }
  }
}

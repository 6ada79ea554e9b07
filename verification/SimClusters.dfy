/**
 * Blocks and clusters of the stripe merging simulation, and the list
 * operations of a cluster.
 */
module SimClusters {

  datatype Kind = Data | Local | Global

  /** A block knows its group, the stripe it currently belongs to and its cluster. */
  datatype Block = Block(kind: Kind, id: nat, group: nat, stripe: nat, cluster: nat)

  /** A cluster with its type - the most important kind of parity in it, else data - and its counters. */
  datatype Cluster = Cluster(kind: Kind, blocks: seq<Block>, numBlocks: int, numData: int)

  function NewCluster(): Cluster {
    Cluster(Data, [], 0, 0)
  }

  // ---- Counting ----

  predicate Is(b: Block, kind: Kind, stripe: nat) {
    b.kind == kind && b.stripe == stripe
  }

  /** The blocks of a kind that belong to a stripe. */
  function Count(s: seq<Block>, kind: Kind, stripe: nat): nat {
    if s == [] then 0
    else Count(s[..|s| - 1], kind, stripe) + if Is(s[|s| - 1], kind, stripe) then 1 else 0
  }

  /** The blocks of a kind that belong to a stripe and a group. */
  function CountIn(s: seq<Block>, kind: Kind, stripe: nat, group: nat): nat {
    if s == [] then 0
    else CountIn(s[..|s| - 1], kind, stripe, group) + if Is(s[|s| - 1], kind, stripe) && s[|s| - 1].group == group then 1 else 0
  }

  function CountData(s: seq<Block>): nat {
    if s == [] then 0
    else CountData(s[..|s| - 1]) + if s[|s| - 1].kind == Data then 1 else 0
  }

  /** The ids of the data blocks. */
  function DataIds(s: seq<Block>): multiset<nat> {
    if s == [] then multiset{}
    else DataIds(s[..|s| - 1]) + if s[|s| - 1].kind == Data then multiset{s[|s| - 1].id} else multiset{}
  }

  // ---- The counts of lists put together ----

  lemma Snoc(s: seq<Block>, b: Block, kind: Kind, stripe: nat, group: nat)
    ensures Count(s + [b], kind, stripe) == Count(s, kind, stripe) + if Is(b, kind, stripe) then 1 else 0
    ensures CountIn(s + [b], kind, stripe, group)
         == CountIn(s, kind, stripe, group) + if Is(b, kind, stripe) && b.group == group then 1 else 0
  {
    assert (s + [b])[..|s|] == s;
  }

  lemma SnocData(s: seq<Block>, b: Block)
    ensures CountData(s + [b]) == CountData(s) + if b.kind == Data then 1 else 0
    ensures DataIds(s + [b]) == DataIds(s) + if b.kind == Data then multiset{b.id} else multiset{}
  {
    assert (s + [b])[..|s|] == s;
  }

  lemma {:induction false} Append(s: seq<Block>, u: seq<Block>, kind: Kind, stripe: nat, group: nat)
    ensures Count(s + u, kind, stripe) == Count(s, kind, stripe) + Count(u, kind, stripe)
    ensures CountIn(s + u, kind, stripe, group) == CountIn(s, kind, stripe, group) + CountIn(u, kind, stripe, group)
  {
    if u == [] {
      assert s + u == s;
    } else {
      var n := |u| - 1;
      assert s + u == (s + u[..n]) + [u[n]];
      Append(s, u[..n], kind, stripe, group);
      Snoc(s + u[..n], u[n], kind, stripe, group);
    }
  }

  lemma {:induction false} AppendData(s: seq<Block>, u: seq<Block>)
    ensures CountData(s + u) == CountData(s) + CountData(u)
    ensures DataIds(s + u) == DataIds(s) + DataIds(u)
  {
    if u == [] {
      assert s + u == s;
    } else {
      var n := |u| - 1;
      assert s + u == (s + u[..n]) + [u[n]];
      AppendData(s, u[..n]);
      SnocData(s + u[..n], u[n]);
    }
  }

  function Pop(s: seq<Block>, i: nat): (t: seq<Block>)
    requires i < |s|
    ensures |t| == |s| - 1
  {
    s[..i] + s[i + 1..]
  }

  /** What taking out one block changes. */
  lemma Popped(s: seq<Block>, i: nat, kind: Kind, stripe: nat, group: nat)
    requires i < |s|
    ensures Count(Pop(s, i), kind, stripe) == Count(s, kind, stripe) - if Is(s[i], kind, stripe) then 1 else 0
    ensures CountIn(Pop(s, i), kind, stripe, group)
         == CountIn(s, kind, stripe, group) - if Is(s[i], kind, stripe) && s[i].group == group then 1 else 0
  {
    hide Count, CountIn;
    assert s == (s[..i] + [s[i]]) + s[i + 1..];
    Append(s[..i] + [s[i]], s[i + 1..], kind, stripe, group);
    Snoc(s[..i], s[i], kind, stripe, group);
    Append(s[..i], s[i + 1..], kind, stripe, group);
  }

  lemma PoppedData(s: seq<Block>, i: nat)
    requires i < |s|
    ensures CountData(Pop(s, i)) == CountData(s) - if s[i].kind == Data then 1 else 0
    ensures DataIds(s) == DataIds(Pop(s, i)) + if s[i].kind == Data then multiset{s[i].id} else multiset{}
  {
    hide CountData, DataIds;
    assert s == (s[..i] + [s[i]]) + s[i + 1..];
    AppendData(s[..i] + [s[i]], s[i + 1..]);
    SnocData(s[..i], s[i]);
    AppendData(s[..i], s[i + 1..]);
  }

  // ---- Consistent clusters ----

  /** The counters match the list, and every block knows where it is. */
  predicate Counted(c: nat, cl: Cluster) {
    cl.numBlocks == |cl.blocks| && cl.numData == CountData(cl.blocks) &&
    forall i :: 0 <= i < |cl.blocks| ==> cl.blocks[i].cluster == c
  }

  /** `add_new_block`: local parities decide the type, then global ones. */
  function AddNewBlock(cl: Cluster, b: Block): Cluster {
    Cluster(if b.kind == Local then Local else if cl.kind == Data && b.kind == Global then Global else cl.kind,
            cl.blocks + [b],
            cl.numBlocks + 1,
            if b.kind == Data then cl.numData + 1 else cl.numData)
  }

  lemma AddedCounted(c: nat, cl: Cluster, b: Block)
    requires Counted(c, cl) && b.cluster == c
    ensures Counted(c, AddNewBlock(cl, b))
  {
    SnocData(cl.blocks, b);
  }

  /** A block that `remove_block` takes out. */
  predicate Goes(b: Block, stripe: nat, kind: Kind) {
    b.stripe == stripe && b.kind == kind
  }

  /** What is left of a list. */
  function Remaining(s: seq<Block>, stripe: nat, kind: Kind): seq<Block> {
    if s == [] then []
    else if Goes(s[|s| - 1], stripe, kind) then Remaining(s[..|s| - 1], stripe, kind)
    else Remaining(s[..|s| - 1], stripe, kind) + [s[|s| - 1]]
  }

  /** Taking out the parities of a kind and stripe leaves all other counts and the data. */
  lemma {:induction false} RemainingCounts(s: seq<Block>, stripe: nat, kind: Kind, kind': Kind, stripe': nat,
                                           group: nat)
    ensures Count(Remaining(s, stripe, kind), kind', stripe')
         == if kind == kind' && stripe == stripe' then 0 else Count(s, kind', stripe')
    ensures CountIn(Remaining(s, stripe, kind), kind', stripe', group)
         == if kind == kind' && stripe == stripe' then 0 else CountIn(s, kind', stripe', group)
  {
    if s != [] {
      var n := |s| - 1;
      RemainingCounts(s[..n], stripe, kind, kind', stripe', group);
      Snoc(Remaining(s[..n], stripe, kind), s[n], kind', stripe', group);
    }
  }

  lemma {:induction false} RemainingData(s: seq<Block>, stripe: nat, kind: Kind)
    requires kind != Data
    ensures CountData(Remaining(s, stripe, kind)) == CountData(s) && DataIds(Remaining(s, stripe, kind)) == DataIds(s)
  {
    if s != [] {
      var n := |s| - 1;
      RemainingData(s[..n], stripe, kind);
      SnocData(Remaining(s[..n], stripe, kind), s[n]);
    }
  }

  lemma {:induction false} RemainingIs(s: seq<Block>, stripe: nat, kind: Kind)
    ensures forall b :: b in Remaining(s, stripe, kind) <==> b in s && !Goes(b, stripe, kind)
  {
    if s != [] {
      RemainingIs(s[..|s| - 1], stripe, kind);
      assert s == s[..|s| - 1] + [s[|s| - 1]];
    }
  }

  lemma RemainingSnoc(s: seq<Block>, b: Block, stripe: nat, kind: Kind)
    ensures Remaining(s + [b], stripe, kind)
         == if Goes(b, stripe, kind) then Remaining(s, stripe, kind) else Remaining(s, stripe, kind) + [b]
  {
    assert (s + [b])[..|s|] == s;
  }

  ghost predicate GroupsGone(s: seq<Block>, stripe: nat, kind: Kind, groups: set<nat>) {
    forall g :: g in groups <==> GoesFrom(s, stripe, kind, g)
  }

  ghost predicate GoesFrom(s: seq<Block>, stripe: nat, kind: Kind, g: nat) {
    exists i :: 0 <= i < |s| && Goes(s[i], stripe, kind) && s[i].group == g
  }

  lemma GroupsSnoc(s: seq<Block>, b: Block, stripe: nat, kind: Kind, groups: set<nat>)
    requires GroupsGone(s, stripe, kind, groups)
    ensures GroupsGone(s + [b], stripe, kind, if Goes(b, stripe, kind) then groups + {b.group} else groups)
  {
    forall g
      ensures GoesFrom(s + [b], stripe, kind, g) <==>
        GoesFrom(s, stripe, kind, g) || (Goes(b, stripe, kind) && b.group == g)
    {
      if GoesFrom(s, stripe, kind, g) {
        var i :| 0 <= i < |s| && Goes(s[i], stripe, kind) && s[i].group == g;
        assert (s + [b])[i] == s[i];
      }
      if Goes(b, stripe, kind) && b.group == g {
        assert (s + [b])[|s|] == b;
      }
    }
  }

  /** `remove_block`: walks the list, takes the blocks out in place and collects their groups. */
  method RemoveBlock(c: nat, cl: Cluster, stripe: nat, kind: Kind) returns (left: Cluster, groups: set<nat>)
    requires Counted(c, cl) && kind != Data
    ensures left.kind == cl.kind && left.blocks == Remaining(cl.blocks, stripe, kind) && Counted(c, left)
    ensures GroupsGone(cl.blocks, stripe, kind, groups)
  {
    hide Remaining, GroupsGone, CountData, Goes, Counted, Pop;
    var blocks, numBlocks := cl.blocks, cl.numBlocks;
    SizeIs(c, cl);
    groups := {};
    var i := 0;
    ghost var done := 0;
    ghost var front: seq<Block> := [];
    NothingGone(stripe, kind);
    while i < numBlocks
      invariant 0 <= done <= |cl.blocks| && i == |front| && blocks == front + cl.blocks[done..] && |blocks| == numBlocks
      invariant front == Remaining(cl.blocks[..done], stripe, kind)
      invariant GroupsGone(cl.blocks[..done], stripe, kind, groups)
      decreases |cl.blocks| - done
    {
      var block := blocks[i];
      WalkStep(front, cl.blocks, done);
      RemainingSnoc(cl.blocks[..done], block, stripe, kind);
      GroupsSnoc(cl.blocks[..done], block, stripe, kind, groups);
      GoesIs(block, stripe, kind);
      if block.stripe == stripe && block.kind == kind {
        groups := groups + {block.group};
        blocks := Pop(blocks, i);
        numBlocks := numBlocks - 1;
        i := i - 1;
      } else {
        front := front + [block];
      }
      i := i + 1;
      done := done + 1;
    }
    assert cl.blocks[..|cl.blocks|] == cl.blocks;
    left := Cluster(cl.kind, blocks, numBlocks, cl.numData);
    RemainingCounted(c, cl, left, stripe, kind);
  }

  lemma SizeIs(c: nat, cl: Cluster)
    requires Counted(c, cl)
    ensures cl.numBlocks == |cl.blocks|
  {
  }

  /** One step of the walk: the next block is kept in front, or popped. */
  lemma WalkStep(front: seq<Block>, s: seq<Block>, done: nat)
    requires done < |s|
    ensures (front + s[done..])[|front|] == s[done] && s[..done + 1] == s[..done] + [s[done]]
    ensures Pop(front + s[done..], |front|) == front + s[done + 1..]
    ensures (front + [s[done]]) + s[done + 1..] == front + s[done..]
  {
  }

  lemma RemainingCounted(c: nat, cl: Cluster, left: Cluster, stripe: nat, kind: Kind)
    requires Counted(c, cl) && kind != Data
    requires left == Cluster(cl.kind, Remaining(cl.blocks, stripe, kind), |Remaining(cl.blocks, stripe, kind)|, cl.numData)
    ensures Counted(c, left)
  {
    RemainingIs(cl.blocks, stripe, kind);
    RemainingData(cl.blocks, stripe, kind);
    assert forall i :: 0 <= i < |left.blocks| ==> left.blocks[i] in left.blocks;
  }

  lemma NothingGone(stripe: nat, kind: Kind)
    ensures Remaining([], stripe, kind) == [] && GroupsGone([], stripe, kind, {})
  {
  }

  lemma GoesIs(b: Block, stripe: nat, kind: Kind)
    ensures Goes(b, stripe, kind) <==> b.stripe == stripe && b.kind == kind
  {
  }
}

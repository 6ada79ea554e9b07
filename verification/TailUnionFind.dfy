/**
 * The union-find that computes the tail classes: elements are (position,
 * local group) pairs, and a parent is never larger than its child, so the root
 * of a class is its first element.
 */
module TailUnionFind {
  import opened MergeConfig
  import opened TailClasses

  ghost predicate Forest(p: seq<nat>) {
    forall x :: 0 <= x < |p| ==> p[x] <= x
  }

  ghost function Root(p: seq<nat>, x: nat): (root: nat)
    requires Forest(p) && x < |p|
    ensures root <= x && p[root] == root
  {
    if p[x] == x then x else Root(p, p[x])
  }

  ghost predicate SameRoots(p: seq<nat>, q: seq<nat>) {
    |p| == |q| && Forest(p) && Forest(q) && forall x :: 0 <= x < |p| ==> Root(p, x) == Root(q, x)
  }

  /** Pointing an element straight at its root changes no root. */
  lemma {:induction false} CompressKeepsRoot(p: seq<nat>, v: nat, x: nat)
    requires Forest(p) && v < |p| && x < |p|
    ensures Forest(p[v := Root(p, v)]) && Root(p[v := Root(p, v)], x) == Root(p, x)
    decreases x
  {
    var q := p[v := Root(p, v)];
    if x == v {
      assert q[Root(p, v)] == Root(p, v);
    } else if p[x] != x {
      CompressKeepsRoot(p, v, p[x]);
    }
  }

  /** Hanging root b under a smaller root a moves exactly the class of b. */
  lemma {:induction false} LinkMovesClass(p: seq<nat>, a: nat, b: nat, x: nat)
    requires Forest(p) && a < b < |p| && x < |p| && p[a] == a && p[b] == b
    ensures Forest(p[b := a])
    ensures Root(p[b := a], x) == if Root(p, x) == b then a else Root(p, x)
    decreases x
  {
    var q := p[b := a];
    assert q[a] == a;
    if x != b && p[x] != x {
      LinkMovesClass(p, a, b, p[x]);
    }
  }

  method FindRoot(parent: array<nat>, value: nat) returns (root: nat)
    requires Forest(parent[..]) && value < parent.Length
    modifies parent
    ensures root == Root(old(parent[..]), value)
    ensures SameRoots(parent[..], old(parent[..]))
  {
    root := value;
    while parent[root] != root
      invariant root <= value && Root(parent[..], root) == Root(parent[..], value)
      decreases root
    {
      root := parent[root];
    }
    var v := value;
    while parent[v] != v
      invariant 0 <= v < parent.Length
      invariant SameRoots(parent[..], old(parent[..]))
      invariant Root(parent[..], v) == root
      decreases v
    {
      var next := parent[v];
      ghost var before := parent[..];
      parent[v] := root;
      assert parent[..] == before[v := root];
      forall x | 0 <= x < |before|
        ensures Forest(parent[..]) && Root(parent[..], x) == Root(before, x)
      {
        CompressKeepsRoot(before, v, x);
      }
      v := next;
    }
  }

  method Unite(parent: array<nat>, left: nat, right: nat)
    requires Forest(parent[..]) && left < parent.Length && right < parent.Length
    requires Root(parent[..], left) <= Root(parent[..], right)
    modifies parent
    ensures Forest(parent[..])
    ensures forall x :: 0 <= x < parent.Length ==>
      Root(parent[..], x) == if Root(old(parent[..]), x) == Root(old(parent[..]), right)
                             then Root(old(parent[..]), left) else Root(old(parent[..]), x)
  {
    var l: nat := FindRoot(parent, left);
    var r: nat := FindRoot(parent, right);
    if l != r {
      ghost var before := parent[..];
      parent[r] := l;
      assert parent[..] == before[r := l];
      forall x | 0 <= x < |before|
        ensures Forest(parent[..])
        ensures Root(parent[..], x) == if Root(before, x) == r then l else Root(before, x)
      {
        LinkMovesClass(before, l, r, x);
      }
    }
  }

  // ---- Elements ----

  /** Where the q-th of consecutive runs of `size` starts. */
  function Offset(size: nat, q: nat): nat {
    if q == 0 then 0 else Offset(size, q - 1) + size
  }

  lemma {:induction false} OffsetIs(size: nat, q: nat)
    ensures Offset(size, q) == q * size
  {
    if q > 0 {
      OffsetIs(size, q - 1);
      assert q * size == (q - 1) * size + size;
    }
  }

  /** The element pos * z + group of a position and a local group. */
  function Elem(z: nat, pos: nat, group: nat): nat {
    Offset(z, pos) + group
  }

  /** The element of position i within super-stripe q, when super-stripes have `size` positions. */
  function At(z: nat, size: nat, q: nat, i: nat, group: nat): nat {
    Elem(z, Offset(size, q) + i, group)
  }

  /** A pair of a quotient and a remainder is unique. */
  lemma SplitUnique(size: nat, q: nat, i: nat, q': nat, i': nat)
    requires i < size && i' < size
    ensures q * size + i == q' * size + i' <==> q == q' && i == i'
    ensures q < q' ==> q * size + i < q' * size + i'
  {
    if q < q' {
      MulPositive(q' - q, size);
      assert q' * size == q * size + (q' - q) * size;
    } else if q > q' {
      MulPositive(q - q', size);
      assert q * size == q' * size + (q - q') * size;
    }
  }

  lemma ElemUnique(z: nat, pos: nat, group: nat, pos': nat, group': nat)
    requires group < z && group' < z
    ensures Elem(z, pos, group) == Elem(z, pos', group') <==> pos == pos' && group == group'
    ensures pos < pos' ==> Elem(z, pos, group) < Elem(z, pos', group')
  {
    OffsetIs(z, pos); OffsetIs(z, pos');
    SplitUnique(z, pos, group, pos', group');
  }

  lemma ElemBound(z: nat, pos: nat, group: nat, count: nat)
    requires group < z && pos < count
    ensures Elem(z, pos, group) < count * z
  {
    OffsetIs(z, pos);
    SplitUnique(z, pos, group, count, 0);
  }

  lemma AtUnique(z: nat, size: nat, q: nat, i: nat, g: nat, q': nat, i': nat, g': nat)
    requires g < z && g' < z && i < size && i' < size
    ensures At(z, size, q, i, g) == At(z, size, q', i', g') <==> q == q' && i == i' && g == g'
    ensures q == q' && i < i' ==> At(z, size, q, i, g) < At(z, size, q', i', g')
  {
    hide Elem;
    OffsetIs(size, q); OffsetIs(size, q');
    SplitUnique(size, q, i, q', i');
    ElemUnique(z, Offset(size, q) + i, g, Offset(size, q') + i', g');
  }

  /** A super-stripe is the two neighbouring ones of half its size. */
  lemma AtHalves(z: nat, half: nat, q: nat, i: nat, g: nat)
    ensures At(z, 2 * half, q, i, g) == At(z, half, 2 * q, i, g)
    ensures At(z, 2 * half, q, half + i, g) == At(z, half, 2 * q + 1, i, g)
  {
    hide Elem;
    OffsetIs(2 * half, q); OffsetIs(half, 2 * q);
    assert q * (2 * half) == (2 * q) * half;
    assert Offset(half, 2 * q + 1) == Offset(half, 2 * q) + half;
  }

  // ---- The state between and during levels ----

  /** The root of an element of super-stripe q is the element of position `rep`. */
  ghost predicate RootIs(p: seq<nat>, z: nat, size: nat, q: nat, i: nat, rep: nat, g: nat)
    requires Forest(p)
  {
    At(z, size, q, i, g) < |p| && Root(p, At(z, size, q, i, g)) == At(z, size, q, rep, g)
  }

  /** After `level` levels the roots are the representatives within super-stripes of 2^level positions. */
  ghost predicate LevelDone(p: seq<nat>, share: seq<bool>, level: nat, count: nat, z: nat)
    requires level <= |share|
  {
    Forest(p) &&
    forall q: nat, i: nat, g: nat ::
      q < count && i < Pow2(level) && g < z ==> RootIs(p, z, Pow2(level), q, i, Rep(share, level, i), g)
  }

  /** The representative of position i of a super-stripe before its two halves are joined. */
  function Halves(share: seq<bool>, level: nat, i: nat): (rep: nat)
    requires 0 < level <= |share| && i < Pow2(level)
    ensures rep <= i
  {
    var half := Pow2(level - 1);
    if i < half then Rep(share, level - 1, i) else half + Rep(share, level - 1, i - half)
  }

  /** The representative once the pairs before `pair` are joined, and in that pair the groups before `group`. */
  function Midway(share: seq<bool>, level: nat, pair: nat, group: nat, q: nat, i: nat, g: nat): (rep: nat)
    requires 0 < level <= |share| && i < Pow2(level)
    ensures rep <= i
  {
    if q < pair || (q == pair && g < group) then Rep(share, level, i) else Halves(share, level, i)
  }

  ghost predicate LevelUnderway(p: seq<nat>, share: seq<bool>, level: nat, pairs: nat, z: nat, pair: nat, group: nat)
    requires 0 < level <= |share|
  {
    Forest(p) &&
    forall q: nat, i: nat, g: nat ::
      q < pairs && i < Pow2(level) && g < z ==> RootIs(p, z, Pow2(level), q, i, Midway(share, level, pair, group, q, i, g), g)
  }

  lemma LevelBegins(p: seq<nat>, share: seq<bool>, level: nat, pairs: nat, z: nat)
    requires 0 < level <= |share| && LevelDone(p, share, level - 1, 2 * pairs, z)
    ensures LevelUnderway(p, share, level, pairs, z, 0, 0)
  {
    hide Root, At, Rep;
    var half := Pow2(level - 1);
    forall q: nat, i: nat, g: nat | q < pairs && i < Pow2(level) && g < z
      ensures RootIs(p, z, Pow2(level), q, i, Halves(share, level, i), g)
    {
      if i < half {
        AtHalves(z, half, q, i, g);
        AtHalves(z, half, q, Rep(share, level - 1, i), g);
        assert RootIs(p, z, half, 2 * q, i, Rep(share, level - 1, i), g);
      } else {
        AtHalves(z, half, q, i - half, g);
        AtHalves(z, half, q, Rep(share, level - 1, i - half), g);
        assert RootIs(p, z, half, 2 * q + 1, i - half, Rep(share, level - 1, i - half), g);
      }
    }
  }

  lemma LevelEnds(p: seq<nat>, share: seq<bool>, level: nat, pairs: nat, z: nat)
    requires 0 < level <= |share| && LevelUnderway(p, share, level, pairs, z, pairs, 0)
    ensures LevelDone(p, share, level, pairs, z)
  {
    hide RootIs, Rep;
    forall q: nat, i: nat, g: nat | q < pairs && i < Pow2(level) && g < z
      ensures RootIs(p, z, Pow2(level), q, i, Rep(share, level, i), g)
    {
      assert RootIs(p, z, Pow2(level), q, i, Midway(share, level, pairs, 0, q, i, g), g);
    }
  }

  lemma NextPair(p: seq<nat>, share: seq<bool>, level: nat, pairs: nat, z: nat, pair: nat)
    requires 0 < level <= |share| && LevelUnderway(p, share, level, pairs, z, pair, z)
    ensures LevelUnderway(p, share, level, pairs, z, pair + 1, 0)
  {
    hide RootIs, Rep;
    var next := pair + 1;
    forall q: nat, i: nat, g: nat | q < pairs && i < Pow2(level) && g < z
      ensures RootIs(p, z, Pow2(level), q, i, Midway(share, level, next, 0, q, i, g), g)
    {
      assert RootIs(p, z, Pow2(level), q, i, Midway(share, level, pair, z, q, i, g), g);
    }
  }

  lemma NotShared(p: seq<nat>, share: seq<bool>, level: nat, pairs: nat, z: nat, pair: nat, group: nat)
    requires 0 < level <= |share| && !share[level - 1]
    requires LevelUnderway(p, share, level, pairs, z, pair, group)
    ensures LevelUnderway(p, share, level, pairs, z, pair, group + 1)
  {
    hide RootIs;
    assert forall i: nat :: i < Pow2(level) ==> Rep(share, level, i) == Halves(share, level, i);
    var next := group + 1;
    forall q: nat, i: nat, g: nat | q < pairs && i < Pow2(level) && g < z
      ensures RootIs(p, z, Pow2(level), q, i, Midway(share, level, pair, next, q, i, g), g)
    {
      assert RootIs(p, z, Pow2(level), q, i, Midway(share, level, pair, group, q, i, g), g);
    }
  }

  /** Where the roots of the two tails of a pair are; the left one comes first. */
  ghost predicate TailRoots(p: seq<nat>, share: seq<bool>, level: nat, z: nat, pair: nat, group: nat)
    requires 0 < level <= |share|
  {
    var half, size := Pow2(level - 1), Pow2(level);
    var tail := Rep(share, level - 1, half - 1);
    var left, right := At(z, size, pair, half - 1, group), At(z, size, pair, size - 1, group);
    Forest(p) && left < |p| && right < |p| &&
    Root(p, left) == At(z, size, pair, tail, group) &&
    Root(p, right) == At(z, size, pair, half + tail, group) &&
    Root(p, left) < Root(p, right)
  }

  lemma PairTails(p: seq<nat>, share: seq<bool>, level: nat, pairs: nat, z: nat, pair: nat, group: nat)
    requires 0 < level <= |share| && pair < pairs && group < z
    requires LevelUnderway(p, share, level, pairs, z, pair, group)
    ensures TailRoots(p, share, level, z, pair, group)
  {
    hide Root, At, Rep;
    var half := Pow2(level - 1);
    var tail := Rep(share, level - 1, half - 1);
    AtUnique(z, Pow2(level), pair, tail, group, pair, half + tail, group);
    assert Midway(share, level, pair, group, pair, half - 1, group) == tail;
    assert Midway(share, level, pair, group, pair, Pow2(level) - 1, group) == half + tail;
  }

  /** Uniting the two tails of a pair is one step of the level. */
  lemma Shared(p: seq<nat>, after: seq<nat>, share: seq<bool>, level: nat, pairs: nat, z: nat, pair: nat, group: nat)
    requires 0 < level <= |share| && share[level - 1] && pair < pairs && group < z
    requires LevelUnderway(p, share, level, pairs, z, pair, group)
    requires Forest(after) && |after| == |p|
    requires var left, right := At(z, Pow2(level), pair, Pow2(level - 1) - 1, group), At(z, Pow2(level), pair, Pow2(level) - 1, group);
      left < |p| && right < |p| &&
      forall x :: 0 <= x < |p| ==> Root(after, x) == if Root(p, x) == Root(p, right) then Root(p, left) else Root(p, x)
    ensures LevelUnderway(after, share, level, pairs, z, pair, group + 1)
  {
    hide Root, At;
    var half := Pow2(level - 1);
    var tail := Rep(share, level - 1, half - 1);
    var next := group + 1;
    PairTails(p, share, level, pairs, z, pair, group);
    forall q: nat, i: nat, g: nat | q < pairs && i < Pow2(level) && g < z
      ensures RootIs(after, z, Pow2(level), q, i, Midway(share, level, pair, next, q, i, g), g)
    {
      var rep := Midway(share, level, pair, group, q, i, g);
      assert RootIs(p, z, Pow2(level), q, i, rep, g);
      AtUnique(z, Pow2(level), q, rep, g, pair, half + tail, group);
    }
  }

  lemma LevelZero(p: seq<nat>, share: seq<bool>, count: nat, z: nat)
    requires |p| == count * z && forall x :: 0 <= x < |p| ==> p[x] == x
    ensures LevelDone(p, share, 0, count, z)
  {
    forall q: nat, i: nat, g: nat | q < count && i < Pow2(0) && g < z
      ensures RootIs(p, z, Pow2(0), q, i, Rep(share, 0, i), g)
    {
      AtOne(z, q, g);
      ElemBound(z, q, g, count);
    }
  }

  lemma AtOne(z: nat, q: nat, g: nat)
    ensures At(z, 1, q, 0, g) == Elem(z, q, g)
  {
    OffsetIs(1, q);
  }

  // ---- The computation ----

  /** The tail elements of the current super-stripes. */
  ghost predicate Tails(superTail: seq<seq<nat>>, size: nat, count: nat, z: nat)
    requires size > 0
  {
    |superTail| == count &&
    forall q: nat :: q < count ==>
      |superTail[q]| == z && forall g: nat :: g < z ==> superTail[q][g] == At(z, size, q, size - 1, g)
  }

  /** One level: unite the tails of neighbouring super-stripes if the level shares, and keep the right tails. */
  method JoinLevel(parent: array<nat>, share: seq<bool>, level: nat, superTail: seq<seq<nat>>, pairs: nat, z: nat)
      returns (next: seq<seq<nat>>)
    requires 0 < level <= |share|
    requires Tails(superTail, Pow2(level - 1), 2 * pairs, z)
    requires LevelDone(parent[..], share, level - 1, 2 * pairs, z)
    modifies parent
    ensures Tails(next, Pow2(level), pairs, z)
    ensures LevelDone(parent[..], share, level, pairs, z)
  {
    hide Root, At, LevelDone, LevelUnderway, Rep;
    next := [];
    LevelBegins(parent[..], share, level, pairs, z);
    for pair := 0 to pairs
      invariant Tails(next, Pow2(level), pair, z)
      invariant LevelUnderway(parent[..], share, level, pairs, z, pair, 0)
    {
      var row := JoinPair(parent, share, level, superTail, pairs, z, pair);
      NextPair(parent[..], share, level, pairs, z, pair);
      next := next + [row];
    }
    LevelEnds(parent[..], share, level, pairs, z);
  }

  /** One pair of super-stripes, group by group. */
  method JoinPair(parent: array<nat>, share: seq<bool>, level: nat, superTail: seq<seq<nat>>, pairs: nat, z: nat,
                  pair: nat)
      returns (row: seq<nat>)
    requires 0 < level <= |share| && pair < pairs
    requires Tails(superTail, Pow2(level - 1), 2 * pairs, z)
    requires LevelUnderway(parent[..], share, level, pairs, z, pair, 0)
    modifies parent
    ensures |row| == z && forall g: nat :: g < z ==> row[g] == At(z, Pow2(level), pair, Pow2(level) - 1, g)
    ensures LevelUnderway(parent[..], share, level, pairs, z, pair, z)
  {
    hide Root, At, LevelUnderway, Forest, Rep;
    row := [];
    for group := 0 to z
      invariant |row| == group
      invariant forall g: nat :: g < group ==> row[g] == At(z, Pow2(level), pair, Pow2(level) - 1, g)
      invariant LevelUnderway(parent[..], share, level, pairs, z, pair, group)
    {
      var left := superTail[2 * pair][group];
      var right := superTail[2 * pair + 1][group];
      AtHalves(z, Pow2(level - 1), pair, Pow2(level - 1) - 1, group);
      ghost var before := parent[..];
      PairTails(before, share, level, pairs, z, pair, group);
      if share[level - 1] {
        Unite(parent, left, right);
        Shared(before, parent[..], share, level, pairs, z, pair, group);
      } else {
        NotShared(before, share, level, pairs, z, pair, group);
      }
      row := row + [right];
    }
  }

  /** All levels: the roots become the tail classes of the whole batch. */
  method JoinTails(share: seq<bool>, z: nat) returns (parent: array<nat>)
    requires z > 0
    ensures fresh(parent) && parent.Length == Pow2(|share|) * z && Forest(parent[..])
    ensures forall pos: nat, g: nat :: pos < Pow2(|share|) && g < z ==>
      Elem(z, pos, g) < parent.Length &&
      Root(parent[..], Elem(z, pos, g)) == Elem(z, Rep(share, |share|, pos), g)
  {
    hide Root, Elem, LevelDone, Rep;
    var batchSize := Pow2(|share|);
    parent := new nat[batchSize * z](x => x);
    var superTail: seq<seq<nat>> := [];
    for pos := 0 to batchSize
      invariant Tails(superTail, 1, pos, z)
    {
      var row: seq<nat> := seq(z, g requires 0 <= g => Elem(z, pos, g));
      forall g: nat | g < z
        ensures row[g] == At(z, 1, pos, 0, g)
      {
        AtOne(z, pos, g);
      }
      superTail := superTail + [row];
    }
    var superCount := batchSize;
    LevelZero(parent[..], share, batchSize, z);
    var level := 1;
    while level <= |share|
      invariant 1 <= level <= |share| + 1
      invariant fresh(parent) && parent.Length == batchSize * z
      invariant superCount == Pow2(|share| + 1 - level)
      invariant Tails(superTail, Pow2(level - 1), superCount, z)
      invariant LevelDone(parent[..], share, level - 1, superCount, z)
    {
      superTail := JoinLevel(parent, share, level, superTail, superCount / 2, z);
      superCount := superCount / 2;
      level := level + 1;
    }
    WholeBatch(parent[..], share, z);
  }

  lemma WholeBatch(p: seq<nat>, share: seq<bool>, z: nat)
    requires LevelDone(p, share, |share|, 1, z)
    ensures Forest(p)
    ensures forall pos: nat, g: nat :: pos < Pow2(|share|) && g < z ==>
      Elem(z, pos, g) < |p| && Root(p, Elem(z, pos, g)) == Elem(z, Rep(share, |share|, pos), g)
  {
    hide Root, Elem, Rep;
    forall pos: nat, g: nat | pos < Pow2(|share|) && g < z
      ensures Elem(z, pos, g) < |p| && Root(p, Elem(z, pos, g)) == Elem(z, Rep(share, |share|, pos), g)
    {
      assert RootIs(p, z, Pow2(|share|), 0, pos, Rep(share, |share|, pos), g);
      assert At(z, Pow2(|share|), 0, pos, g) == Elem(z, pos, g);
      assert At(z, Pow2(|share|), 0, Rep(share, |share|, pos), g) == Elem(z, Rep(share, |share|, pos), g);
    }
  }
}

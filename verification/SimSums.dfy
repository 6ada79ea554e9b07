/** Sums over finite sets, and clusters that are filled as tightly as possible. */
module SimSums {
  import opened SimClusters
  import opened Arithmetic

  ghost function Sum(s: set<nat>, f: nat -> int): int {
    if s == {} then 0
    else
      var x :| x in s;
      f(x) + Sum(s - {x}, f)
  }

  /** Any element may be taken out first. */
  lemma {:induction false} SumRemove(s: set<nat>, f: nat -> int, x: nat)
    requires x in s
    ensures Sum(s, f) == f(x) + Sum(s - {x}, f)
    decreases |s|
  {
    var y :| y in s && Sum(s, f) == f(y) + Sum(s - {y}, f);
    if x != y {
      SumRemove(s - {y}, f, x);
      SumRemove(s - {x}, f, y);
      assert s - {y} - {x} == s - {x} - {y};
    }
  }

  lemma SumAdd(s: set<nat>, f: nat -> int, x: nat)
    requires x !in s
    ensures Sum(s + {x}, f) == f(x) + Sum(s, f)
  {
    SumRemove(s + {x}, f, x);
    assert s + {x} - {x} == s;
  }

  lemma {:induction false} SumUnion(s: set<nat>, t: set<nat>, f: nat -> int)
    requires s !! t
    ensures Sum(s + t, f) == Sum(s, f) + Sum(t, f)
    decreases |t|
  {
    if t == {} {
      assert s + t == s;
    } else {
      var x :| x in t;
      SumUnion(s, t - {x}, f);
      SumAdd(s + (t - {x}), f, x);
      SumRemove(t, f, x);
      assert s + t == s + (t - {x}) + {x};
    }
  }

  lemma {:induction false} SumSame(s: set<nat>, f: nat -> int, h: nat -> int)
    requires forall x :: x in s ==> f(x) == h(x)
    ensures Sum(s, f) == Sum(s, h)
    decreases |s|
  {
    if s != {} {
      var x :| x in s;
      SumRemove(s, f, x);
      SumRemove(s, h, x);
      SumSame(s - {x}, f, h);
    }
  }

  /** Changing the summand of one element. */
  lemma SumChange(s: set<nat>, f: nat -> int, h: nat -> int, x: nat)
    requires x in s && forall y :: y in s && y != x ==> f(y) == h(y)
    ensures Sum(s, h) == Sum(s, f) - f(x) + h(x)
  {
    SumRemove(s, f, x);
    SumRemove(s, h, x);
    SumSame(s - {x}, f, h);
  }

  lemma {:induction false} SumConst(s: set<nat>, f: nat -> int, v: int)
    requires forall x :: x in s ==> f(x) == v
    ensures Sum(s, f) == |s| * v
    decreases |s|
  {
    if s != {} {
      var x :| x in s;
      SumRemove(s, f, x);
      SumConst(s - {x}, f, v);
    }
  }

  // ---- Sizes of clusters ----

  function Size(cl: seq<Cluster>, c: nat): nat {
    if c < |cl| then |cl[c].blocks| else 0
  }

  ghost function Sizes(cl: seq<Cluster>): nat -> int {
    (c: nat) => Size(cl, c)
  }

  /** How many data blocks of each cluster contribute to the new global parities: all, but no more than g. */
  ghost function Costs(cl: seq<Cluster>, g: nat): nat -> int {
    (c: nat) => if Size(cl, c) <= g then Size(cl, c) else g
  }

  ghost function Rooms(cl: seq<Cluster>, cap: nat): nat -> int {
    (c: nat) => cap - Size(cl, c)
  }

  /** At most one of the clusters is not full. */
  ghost predicate Tight(cl: seq<Cluster>, ids: set<nat>, cap: nat) {
    forall c, d :: c in ids && d in ids && c != d ==> Size(cl, c) == cap || Size(cl, d) == cap
  }

  ghost predicate Filled(cl: seq<Cluster>, ids: set<nat>, cap: nat) {
    forall c :: c in ids ==> 1 <= Size(cl, c) <= cap
  }

  /** Full clusters. */
  lemma FullSums(cl: seq<Cluster>, ids: set<nat>, g: nat)
    requires forall c :: c in ids ==> Size(cl, c) == g + 1
    ensures Sum(ids, Sizes(cl)) == |ids| * (g + 1) && Sum(ids, Costs(cl, g)) == |ids| * g
    ensures Sum(ids, Rooms(cl, g + 1)) == 0
  {
    hide Size, Sum;
    SumConst(ids, Sizes(cl), g + 1);
    SumConst(ids, Costs(cl, g), g);
    SumConst(ids, Rooms(cl, g + 1), 0);
  }

  /** Tightly filled clusters: what they cost, and how much room is left. */
  lemma TightCost(cl: seq<Cluster>, ids: set<nat>, g: nat, total: int)
    requires Tight(cl, ids, g + 1) && Filled(cl, ids, g + 1) && Sum(ids, Sizes(cl)) == total
    ensures total >= 0 && Sum(ids, Costs(cl, g)) == (total / (g + 1)) * g + total % (g + 1)
    ensures Sum(ids, Rooms(cl, g + 1)) == if total % (g + 1) == 0 then 0 else g + 1 - total % (g + 1)
  {
    hide Size, Sum;
    if c :| c in ids && Size(cl, c) != g + 1 {
      var rest := ids - {c};
      SumRemove(ids, Sizes(cl), c);
      SumRemove(ids, Costs(cl, g), c);
      SumRemove(ids, Rooms(cl, g + 1), c);
      FullSums(cl, rest, g);
      Split(|rest|, g + 1, Size(cl, c), total);
    } else {
      FullSums(cl, ids, g);
      Split(|ids|, g + 1, 0, total);
    }
  }

  lemma Split(n: nat, cap: nat, p: nat, total: int)
    requires p < cap && total == n * cap + p
    ensures total >= 0 && total / cap == n && total % cap == p
  {
    var q, r := total / cap, total % cap;
    assert total == q * cap + r;
    if q > n {
      assert q * cap == n * cap + (q - n) * cap;
      AtLeast(q - n, cap);
    } else if q < n {
      assert n * cap == q * cap + (n - q) * cap;
      AtLeast(n - q, cap);
    }
  }
}

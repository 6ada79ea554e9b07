/** The ids of data blocks: every block of every group of every stripe has its own. */
module SimIds {
  import opened SimSums
  import opened Arithmetic

  /** The id of data block t of group i of stripe j. */
  function DataId(l: nat, b: nat, j: nat, i: nat, t: nat): nat {
    j * (l * b) + i * b + t
  }

  /** n consecutive ids. */
  function Ids(first: nat, n: nat): multiset<nat> {
    if n == 0 then multiset{} else Ids(first, n - 1) + multiset{first + n - 1}
  }

  lemma NoIds(first: nat)
    ensures Ids(first, 0) == multiset{}
  {
  }

  lemma Reassociate(a: multiset<nat>, c: multiset<nat>, d: multiset<nat>)
    ensures (a + c) + d == a + (c + d)
  {
  }

  lemma {:induction false} IdsAppend(first: nat, n: nat, m: nat)
    ensures Ids(first, n + m) == Ids(first, n) + Ids(first + n, m)
    decreases m
  {
    hide Ids;
    if m == 0 {
      NoIds(first + n);
    } else {
      IdsAppend(first, n, m - 1);
      IdsMore(first, n + (m - 1));
      IdsMore(first + n, m - 1);
      Reassociate(Ids(first, n), Ids(first + n, m - 1), multiset{first + n + (m - 1)});
    }
  }

  lemma IdsMore(first: nat, n: nat)
    ensures Ids(first, n + 1) == Ids(first, n) + multiset{first + n}
  {
  }

  /** The first n data blocks of all groups before i, and of group i of the stripes before j. */
  function SumIds(l: nat, b: nat, x: nat, first: nat, n: nat, i: nat, j: nat): multiset<nat>
    decreases i, j
  {
    if j > 0 then SumIds(l, b, x, first, n, i, j - 1) + Ids(DataId(l, b, j - 1, i, 0) + first, n)
    else if i > 0 then SumIds(l, b, x, first, n, i - 1, x)
    else multiset{}
  }

  lemma SumStep(l: nat, b: nat, x: nat, first: nat, n: nat, i: nat, j: nat)
    ensures SumIds(l, b, x, first, n, i, j + 1) == SumIds(l, b, x, first, n, i, j) + Ids(DataId(l, b, j, i, 0) + first, n)
    ensures SumIds(l, b, x, first, n, i + 1, 0) == SumIds(l, b, x, first, n, i, x)
    ensures SumIds(l, b, x, first, n, 0, 0) == multiset{}
  {
  }

  // ---- Every id once ----

  lemma {:induction false} IdsCount(first: nat, n: nat, id: nat)
    ensures Ids(first, n)[id] == if first <= id < first + n then 1 else 0
    decreases n
  {
    if n > 0 {
      IdsCount(first, n - 1, id);
    }
  }

  /** Group and stripe can be read off an id. */
  lemma IdParts(l: nat, b: nat, j: nat, i: nat, id: nat)
    requires b > 0 && i < l
    ensures DataId(l, b, j, i, 0) <= id < DataId(l, b, j, i, 0) + b <==> (id / b) / l == j && (id / b) % l == i
  {
    Spread(j, l, i, b);
    WhichMultiple(id, b, j * l + i);
    if id / b == j * l + i {
      Split(j, l, i, id / b);
    }
  }

  lemma WhichMultiple(a: nat, d: nat, n: nat)
    requires d > 0
    ensures n * d <= a < n * d + d <==> a / d == n
  {
    if n * d <= a < n * d + d {
      Split(n, d, a - n * d, a);
    }
  }

  lemma Spread(j: nat, l: nat, i: nat, b: nat)
    ensures j * (l * b) + i * b == (j * l + i) * b
  {
    assert (j * l + i) * b == j * l * b + i * b;
  }

  /** Which ids the first groups and stripes have: those of the whole blocks, once each. */
  lemma {:induction false} SumIdsCount(l: nat, b: nat, x: nat, i: nat, j: nat, id: nat)
    requires b > 0 && l > 0 && j <= x && (i < l || (i == l && j == 0))
    ensures SumIds(l, b, x, 0, b, i, j)[id] == if Before(l, b, x, i, j, id) then 1 else 0
    decreases i, j
  {
    hide Ids, DataId;
    if j > 0 {
      SumIdsCount(l, b, x, i, j - 1, id);
      IdsCount(DataId(l, b, j - 1, i, 0), b, id);
      IdParts(l, b, j - 1, i, id);
    } else if i > 0 {
      SumIdsCount(l, b, x, i - 1, x, id);
    }
  }

  predicate Before(l: nat, b: nat, x: nat, i: nat, j: nat, id: nat)
    requires b > 0 && l > 0
  {
    (id / b) / l < x && ((id / b) % l < i || ((id / b) % l == i && (id / b) / l < j))
  }

  /** Whole blocks are what is in front and the remainder. */
  lemma {:induction false} SumIdsSplit(l: nat, b: nat, x: nat, first: nat, i: nat, j: nat)
    requires first <= b
    ensures SumIds(l, b, x, 0, first, i, j) + SumIds(l, b, x, first, b - first, i, j) == SumIds(l, b, x, 0, b, i, j)
    decreases i, j
  {
    hide Ids, DataId;
    if j > 0 {
      SumIdsSplit(l, b, x, first, i, j - 1);
      IdsAppend(DataId(l, b, j - 1, i, 0), first, b - first);
      Regroup(SumIds(l, b, x, 0, first, i, j - 1), Ids(DataId(l, b, j - 1, i, 0), first),
              SumIds(l, b, x, first, b - first, i, j - 1), Ids(DataId(l, b, j - 1, i, 0) + first, b - first));
    } else if i > 0 {
      SumIdsSplit(l, b, x, first, i - 1, x);
    }
  }

  lemma Regroup(a: multiset<nat>, c: multiset<nat>, d: multiset<nat>, e: multiset<nat>)
    ensures (a + c) + (d + e) == (a + d) + (c + e)
  {
  }

  /** Full clusters and remainders together hold every id below x * l * b exactly once. */
  lemma EveryIdOnce(l: nat, b: nat, x: nat, first: nat, id: nat)
    requires first <= b && l > 0
    ensures (SumIds(l, b, x, 0, first, l, 0) + SumIds(l, b, x, first, b - first, l, 0))[id] == if id < x * (l * b) then 1 else 0
  {
    SumIdsSplit(l, b, x, first, l, 0);
    if b == 0 {
      NoSumIds(l, x, l, 0);
      assert l * b == 0 && x * (l * b) == 0;
    } else {
      SumIdsCount(l, b, x, l, 0, id);
      InTotal(l, b, x, id);
    }
  }

  lemma {:induction false} NoSumIds(l: nat, x: nat, i: nat, j: nat)
    ensures SumIds(l, 0, x, 0, 0, i, j) == multiset{}
    decreases i, j
  {
    if j > 0 {
      NoSumIds(l, x, i, j - 1);
    } else if i > 0 {
      NoSumIds(l, x, i - 1, x);
    }
  }

  lemma InTotal(l: nat, b: nat, x: nat, id: nat)
    requires b > 0 && l > 0
    ensures id < x * (l * b) <==> (id / b) / l < x
  {
    InMultiple(id, b, x * l);
    InMultiple(id / b, l, x);
    SameProduct(x, l, b);
  }

  lemma SameProduct(x: nat, l: nat, b: nat)
    ensures x * (l * b) == (x * l) * b
  {
  }

  lemma InMultiple(a: nat, d: nat, n: nat)
    requires d > 0
    ensures a < n * d <==> a / d < n
  {
    var q := a / d;
    assert a == q * d + a % d;
    if q < n {
      assert n * d == q * d + (n - q) * d;
      AtLeast(n - q, d);
    } else {
      assert q * d == n * d + (q - n) * d;
      NonNegativeProduct(q - n, d);
    }
  }
}

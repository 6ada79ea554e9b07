/** The data of all stripes, in the order of the stripe numbers: merging neighbours does not change it. */
module BatchData {
  import opened LinearAlgebra
  import opened MergeParity
  import opened MergePlan
  import opened MergeTables
  import opened MergeCommit
  import opened TailLayout
  import opened TailUnionFind
  import opened BatchLayout

  /** The data under a stripe number; nothing if there is no such stripe. */
  function DataHeld(t: Tables, written: map<nat, Bytes>, s: nat): Matrix {
    if s in t.stripes && t.stripes[s].k <= |t.stripes[s].blocks| then DataOf(t, written, s) else []
  }

  /** The data of the stripes below n, one stripe after the other. */
  ghost function DataInOrder(t: Tables, written: map<nat, Bytes>, n: nat): Matrix {
    if n == 0 then [] else DataInOrder(t, written, n - 1) + DataHeld(t, written, n - 1)
  }

  /** A list of stripes, one after the other. */
  ghost function Joined(datas: seq<Matrix>): Matrix {
    if datas == [] then [] else Joined(datas[..|datas| - 1]) + datas[|datas| - 1]
  }

  /** Stripe x has the x-th data. */
  ghost predicate Holding(t: Tables, written: map<nat, Bytes>, datas: seq<Matrix>) {
    forall x: nat :: x < |datas| ==> DataHeld(t, written, x) == datas[x]
  }

  lemma NothingHeld(t: Tables, written: map<nat, Bytes>)
    ensures Holding(t, written, [])
  {
  }

  lemma {:induction false} HoldingInOrder(t: Tables, written: map<nat, Bytes>, datas: seq<Matrix>)
    requires Holding(t, written, datas)
    ensures DataInOrder(t, written, |datas|) == Joined(datas)
  {
    hide DataHeld;
    if datas != [] {
      var front := datas[..|datas| - 1];
      assert Holding(t, written, front);
      HoldingInOrder(t, written, front);
    }
  }

  /** What merging does to the data under a number. */
  lemma HeldAfterMerge(baseK: nat, t: Tables, t': Tables, written: map<nat, Bytes>, a: nat, b: nat, round: nat,
                       places: map<nat, Place>, task: nat, s: nat)
    requires Mergeable(baseK, t, a, b, round) && Committed(baseK, t, t', a, b, places, task)
    ensures DataHeld(t', written, s) ==
      if s == a then DataHeld(t, written, a) + DataHeld(t, written, b)
      else if s == b then [] else DataHeld(t, written, s)
  {
    hide Mergeable, Committed, DataOf;
    MergedData(baseK, t, t', written, a, b, round, places, task);
    Survives(baseK, t, t', a, b, round, places, task);
    NumbersLeft(baseK, t, t', a, b, round, places, task);
    if s != a && s != b && s in t.stripes {
      OtherStays(baseK, t, t', a, b, round, places, task, s);
      if t.stripes[s].k <= |t.stripes[s].blocks| {
        OtherData(baseK, t, t', written, a, b, round, places, task, s);
      }
    }
  }

  lemma NumbersLeft(baseK: nat, t: Tables, t': Tables, a: nat, b: nat, round: nat, places: map<nat, Place>, task: nat)
    requires Mergeable(baseK, t, a, b, round) && Committed(baseK, t, t', a, b, places, task)
    ensures t'.stripes.Keys == t.stripes.Keys - {b} && a in t.stripes && b in t.stripes && a != b
  {
  }

  lemma OtherData(baseK: nat, t: Tables, t': Tables, written: map<nat, Bytes>, a: nat, b: nat, round: nat,
                  places: map<nat, Place>, task: nat, s: nat)
    requires Mergeable(baseK, t, a, b, round) && Committed(baseK, t, t', a, b, places, task)
    requires s in t.stripes && s != a && s != b && t.stripes[s].k <= |t.stripes[s].blocks|
    requires s in t'.stripes && t'.stripes[s] == t.stripes[s]
    ensures DataOf(t', written, s) == DataOf(t, written, s)
  {
    hide Mergeable, Committed, WrittenInto;
  }

  /** Between a and b there is no stripe, so the right data just moves up to the left one. */
  lemma {:induction false} MergedInOrder(baseK: nat, t: Tables, t': Tables, written: map<nat, Bytes>, a: nat, b: nat,
                                         round: nat, places: map<nat, Place>, task: nat, n: nat)
    requires Mergeable(baseK, t, a, b, round) && Committed(baseK, t, t', a, b, places, task)
    requires a < b && forall x: nat :: a < x < b ==> x !in t.stripes
    ensures DataInOrder(t', written, n) ==
      if a < n <= b then DataInOrder(t, written, n) + DataHeld(t, written, b) else DataInOrder(t, written, n)
  {
    hide Mergeable, Committed, DataOf;
    if n > 0 {
      MergedInOrder(baseK, t, t', written, a, b, round, places, task, n - 1);
      HeldAfterMerge(baseK, t, t', written, a, b, round, places, task, n - 1);
    }
  }
}

/**
 * Which stripes of a batch share their tail racks, as mathematics.  At each
 * merge level two neighbouring super-stripes either put their tails into one
 * rack or keep them apart; the tail of the right one becomes the tail of both.
 */
module TailClasses {
  import opened MergeConfig

  /**
   * The representative of position i among the 2^level positions of a
   * super-stripe: the first position whose tail shares its rack.
   */
  function Rep(share: seq<bool>, level: nat, i: nat): (rep: nat)
    requires level <= |share| && i < Pow2(level)
    ensures rep <= i
    decreases level
  {
    if level == 0 then 0
    else
      var half := Pow2(level - 1);
      if i < half then Rep(share, level - 1, i)
      else
        var right := Rep(share, level - 1, i - half);
        var tail := Rep(share, level - 1, half - 1);
        if share[level - 1] && right == tail then tail else half + right
  }

  /** Representatives represent themselves. */
  lemma {:induction false} RepIdempotent(share: seq<bool>, level: nat, i: nat)
    requires level <= |share| && i < Pow2(level)
    ensures Rep(share, level, Rep(share, level, i)) == Rep(share, level, i)
    decreases level
  {
    if level > 0 {
      var half := Pow2(level - 1);
      RepIdempotent(share, level - 1, half - 1);
      if i < half {
        RepIdempotent(share, level - 1, i);
      } else {
        RepIdempotent(share, level - 1, i - half);
      }
    }
  }

  /** A larger batch does not change the representatives of its first positions. */
  lemma {:induction false} RepPrefix(share: seq<bool>, low: nat, level: nat, i: nat)
    requires low <= level <= |share| && i < Pow2(low)
    ensures i < Pow2(level) && Rep(share, level, i) == Rep(share, low, i)
    decreases level
  {
    if low < level {
      RepPrefix(share, low, level - 1, i);
    }
  }

  // ---- Counting classes ----

  /** How many of the positions before `upto` are representatives. */
  function CountReps(share: seq<bool>, level: nat, upto: nat): nat
    requires level <= |share| && upto <= Pow2(level)
  {
    if upto == 0 then 0
    else CountReps(share, level, upto - 1) + (if Rep(share, level, upto - 1) == upto - 1 then 1 else 0)
  }

  lemma {:induction false} CountLeft(share: seq<bool>, level: nat, upto: nat)
    requires 0 < level <= |share| && upto <= Pow2(level - 1)
    ensures CountReps(share, level, upto) == CountReps(share, level - 1, upto)
    decreases upto
  {
    if upto > 0 {
      CountLeft(share, level, upto - 1);
    }
  }

  /** In the right half, sharing loses exactly the representative of the right tail. */
  lemma {:induction false} CountRight(share: seq<bool>, level: nat, upto: nat)
    requires 0 < level <= |share| && upto <= Pow2(level - 1)
    ensures var half := Pow2(level - 1);
      CountReps(share, level, half + upto)
      == CountReps(share, level - 1, half) + CountReps(share, level - 1, upto)
         - (if share[level - 1] && Rep(share, level - 1, half - 1) < upto then 1 else 0)
    decreases upto
  {
    var half := Pow2(level - 1);
    if upto == 0 {
      CountLeft(share, level, half);
    } else {
      CountRight(share, level, upto - 1);
      RepIdempotent(share, level - 1, half - 1);
    }
  }

  /** Each level doubles the classes, less one if it shares. */
  lemma CountDoubles(share: seq<bool>, level: nat)
    requires 0 < level <= |share|
    ensures CountReps(share, level, Pow2(level))
         == 2 * CountReps(share, level - 1, Pow2(level - 1)) - (if share[level - 1] then 1 else 0)
  {
    CountRight(share, level, Pow2(level - 1));
  }

  lemma DoubleProduct(p: int, f: int)
    ensures 2 * p * f == 2 * (p * f)
  {
  }

  /** The sharing pattern that the configuration's arithmetic dictates. */
  ghost predicate Dictated(share: seq<bool>, b: nat, cap: nat)
    requires cap > 0
  {
    forall level :: 0 <= level < |share| ==> share[level] == TailsShare(b, cap, level)
  }

  /** Tail classes and full racks together are the racks of one group of the fully merged stripe. */
  lemma {:induction false} ClassesAreRacks(share: seq<bool>, b: nat, cap: nat, level: nat)
    requires b > 0 && cap > 0 && level <= |share| && Dictated(share, b, cap)
    ensures GroupRacks(b, cap, level)
         == CountReps(share, level, Pow2(level)) + Pow2(level) * (GroupRacks(b, cap, 0) - 1)
    decreases level
  {
    hide GroupRacks, TailsShare;
    if level == 0 {
      assert CountReps(share, 0, 1) == 1;
    } else {
      ClassesAreRacks(share, b, cap, level - 1);
      CountDoubles(share, level);
      GroupRacksDouble(b, cap, level - 1);
      DoubleProduct(Pow2(level - 1), GroupRacks(b, cap, 0) - 1);
    }
  }

  // ---- How many stripes before a position share its tail rack ----

  function Rank(share: seq<bool>, level: nat, i: nat, upto: nat): nat
    requires level <= |share| && i < Pow2(level) && upto <= Pow2(level)
  {
    if upto == 0 then 0
    else Rank(share, level, i, upto - 1) + (if Rep(share, level, upto - 1) == Rep(share, level, i) then 1 else 0)
  }

  /** The stripes placed before position i in its tail rack. */
  function Before(share: seq<bool>, level: nat, i: nat): nat
    requires level <= |share| && i < Pow2(level)
  {
    Rank(share, level, i, i)
  }

  /** All earlier levels share: every position is in the class of position 0. */
  lemma {:induction false} AllShared(share: seq<bool>, level: nat, i: nat)
    requires level <= |share| && i < Pow2(level)
    requires forall l :: 0 <= l < level ==> share[l]
    ensures Rep(share, level, i) == 0
    decreases level
  {
    if level > 0 {
      var half := Pow2(level - 1);
      AllShared(share, level - 1, half - 1);
      AllShared(share, level - 1, if i < half then i else i - half);
    }
  }

  lemma {:induction false} AllSharedRank(share: seq<bool>, level: nat, i: nat, upto: nat)
    requires level <= |share| && i < Pow2(level) && upto <= Pow2(level)
    requires forall l :: 0 <= l < level ==> share[l]
    ensures Rank(share, level, i, upto) == upto
    decreases upto
  {
    if upto > 0 {
      AllSharedRank(share, level, i, upto - 1);
      AllShared(share, level, i);
      AllShared(share, level, upto - 1);
    }
  }

  lemma {:induction false} RankLeft(share: seq<bool>, level: nat, i: nat, upto: nat)
    requires 0 < level <= |share| && i < Pow2(level - 1) && upto <= Pow2(level - 1)
    ensures Rank(share, level, i, upto) == Rank(share, level - 1, i, upto)
    decreases upto
  {
    if upto > 0 {
      RankLeft(share, level, i, upto - 1);
    }
  }

  /** Seen from the right half, the left half contributes its tail class if the halves share, and nothing otherwise. */
  lemma {:induction false} RankLeftHalf(share: seq<bool>, level: nat, i: nat, upto: nat)
    requires 0 < level <= |share| && Pow2(level - 1) <= i < Pow2(level) && upto <= Pow2(level - 1)
    ensures var half := Pow2(level - 1);
      Rank(share, level, i, upto)
      == if share[level - 1] && Rep(share, level - 1, i - half) == Rep(share, level - 1, half - 1)
         then Rank(share, level - 1, half - 1, upto) else 0
    decreases upto
  {
    if upto > 0 {
      RankLeftHalf(share, level, i, upto - 1);
    }
  }

  lemma {:induction false} RankRight(share: seq<bool>, level: nat, i: nat, upto: nat)
    requires 0 < level <= |share| && Pow2(level - 1) <= i < Pow2(level) && upto <= Pow2(level - 1)
    ensures var half := Pow2(level - 1);
      Rank(share, level, i, half + upto)
      == Rank(share, level, i, half) + Rank(share, level - 1, i - half, upto)
    decreases upto
  {
    if upto > 0 {
      RankRight(share, level, i, upto - 1);
    }
  }

  // ---- When every position can be placed ----

  /** No sharing level comes after a non-sharing one. */
  ghost predicate SharingFirst(share: seq<bool>) {
    forall i, j :: 0 <= i < j < |share| && share[j] ==> share[i]
  }

  /** The tail blocks of position i fit behind those already in its rack. */
  predicate Placeable(share: seq<bool>, b: nat, cap: nat, i: nat)
    requires cap > 0 && i < Pow2(|share|)
  {
    var load := TailLoad(b, cap, 0);
    Before(share, |share|, i) * load + load <= cap
  }

  /** While every level shares, the tail load doubles. */
  lemma {:induction false} LoadDoubles(share: seq<bool>, b: nat, cap: nat, level: nat)
    requires b > 0 && cap > 0 && level <= |share| && Dictated(share, b, cap)
    requires forall l :: 0 <= l < level ==> share[l]
    ensures TailLoad(b, cap, level) == Pow2(level) * TailLoad(b, cap, 0)
    decreases level
  {
    hide TailLoad;
    if level > 0 {
      LoadDoubles(share, b, cap, level - 1);
      GroupRacksDouble(b, cap, level - 1);
      assert share[level - 1];
      DoubleProduct(Pow2(level - 1), TailLoad(b, cap, 0));
    }
  }

  /** After the first `a` levels share and the others up to `level` do not, classes have at most 2^a members. */
  lemma {:induction false} RankBound(share: seq<bool>, a: nat, level: nat, i: nat)
    requires a <= level <= |share| && i < Pow2(level)
    requires forall l :: 0 <= l < a ==> share[l]
    requires forall l :: a <= l < level ==> !share[l]
    ensures Before(share, level, i) < Pow2(a)
    decreases level
  {
    if level == a {
      AllSharedRank(share, level, i, i);
    } else {
      var half := Pow2(level - 1);
      if i < half {
        RankBound(share, a, level - 1, i);
        RankLeft(share, level, i, i);
      } else {
        RankBound(share, a, level - 1, i - half);
        RankLeftHalf(share, level, i, half);
        RankRight(share, level, i, i - half);
      }
    }
  }

  /** Between the first non-sharing level and the next sharing one, the last position has 2^a - 1 predecessors. */
  lemma {:induction false} TailRank(share: seq<bool>, a: nat, level: nat)
    requires a <= level <= |share|
    requires forall l :: 0 <= l < a ==> share[l]
    requires forall l :: a <= l < level ==> !share[l]
    ensures Before(share, level, Pow2(level) - 1) == Pow2(a) - 1
    decreases level
  {
    var i := Pow2(level) - 1;
    if level == a {
      AllSharedRank(share, level, i, i);
    } else {
      var half := Pow2(level - 1);
      TailRank(share, a, level - 1);
      RankLeftHalf(share, level, i, half);
      RankRight(share, level, i, half - 1);
    }
  }

  /** A sharing level after non-sharing ones puts twice as many stripes into the tail rack. */
  lemma OverfullRank(share: seq<bool>, a: nat, j: nat)
    requires a < j < |share| && share[j]
    requires forall l :: 0 <= l < a ==> share[l]
    requires forall l :: a <= l < j ==> !share[l]
    ensures Before(share, j + 1, Pow2(j + 1) - 1) == 2 * Pow2(a) - 1
  {
    var half := Pow2(j);
    var i := Pow2(j + 1) - 1;
    TailRank(share, a, j);
    RankLeftHalf(share, j + 1, i, half);
    RankRight(share, j + 1, i, half - 1);
    assert Rank(share, j, half - 1, half) == Rank(share, j, half - 1, half - 1) + 1;
  }

  lemma {:induction false} BeforePrefix(share: seq<bool>, low: nat, level: nat, i: nat)
    requires low <= level <= |share| && i < Pow2(low)
    ensures i < Pow2(level) && Before(share, level, i) == Before(share, low, i)
    decreases level
  {
    RepPrefix(share, low, level, i);
    if low < level {
      RepPrefix(share, low, level - 1, i);
      BeforePrefix(share, low, level - 1, i);
      RankLeft(share, level, i, i);
    }
  }

  /** The first level that does not share, if there is one. */
  lemma FirstNonSharing(share: seq<bool>) returns (a: nat)
    ensures a <= |share| && (forall l :: 0 <= l < a ==> share[l]) && (a < |share| ==> !share[a])
  {
    a := 0;
    while a < |share| && share[a]
      invariant a <= |share| && forall l :: 0 <= l < a ==> share[l]
    {
      a := a + 1;
    }
  }

  lemma SharingFirstPlaceable(share: seq<bool>, b: nat, cap: nat, i: nat)
    requires b > 0 && cap > 0 && Dictated(share, b, cap) && SharingFirst(share)
    requires i < Pow2(|share|)
    ensures Placeable(share, b, cap, i)
  {
    hide TailLoad, Dictated;
    var a := FirstNonSharing(share);
    var load := TailLoad(b, cap, 0);
    RankBound(share, a, |share|, i);
    LoadDoubles(share, b, cap, a);
    TailLoadRange(b, cap, a);
    TailLoadRange(b, cap, 0);
    Fits(Before(share, |share|, i), Pow2(a), load, cap);
  }

  lemma Fits(before: nat, size: nat, load: nat, cap: nat)
    requires before < size && size * load <= cap && load > 0
    ensures before * load + load <= cap
  {
    MulPositive(size - before - 1, load);
    assert size * load == before * load + load + (size - before - 1) * load;
  }

  lemma Overfull(size: nat, load: nat, cap: nat)
    requires 2 * (size * load) > cap
    ensures (2 * size - 1) * load + load > cap
  {
    assert (2 * size - 1) * load == 2 * (size * load) - load;
  }

  /** A violation of the pattern leaves a position that cannot be placed. */
  lemma Unplaceable(share: seq<bool>, b: nat, cap: nat) returns (i: nat)
    requires b > 0 && cap > 0 && Dictated(share, b, cap) && !SharingFirst(share)
    ensures i < Pow2(|share|) && !Placeable(share, b, cap, i)
  {
    hide TailLoad;
    var a := FirstNonSharing(share);
    var late :| exists early :: 0 <= early < late < |share| && share[late] && !share[early];
    var j := a + 1;
    while !share[j]
      invariant a < j <= late
      invariant forall l :: a <= l < j ==> !share[l]
      decreases late - j
    {
      j := j + 1;
    }
    i := Pow2(j + 1) - 1;
    OverfullRank(share, a, j);
    BeforePrefix(share, j + 1, |share|, i);
    LoadDoubles(share, b, cap, a);
    assert !TailsShare(b, cap, a);
    TailLoadRange(b, cap, 0);
    Overfull(Pow2(a), TailLoad(b, cap, 0), cap);
  }

  /** Every position of a batch can be placed if and only if no sharing level follows a non-sharing one. */
  lemma AllPlaceable(share: seq<bool>, b: nat, cap: nat)
    requires b > 0 && cap > 0 && Dictated(share, b, cap)
    ensures (forall i :: 0 <= i < Pow2(|share|) ==> Placeable(share, b, cap, i)) <==> SharingFirst(share)
  {
    hide Placeable, SharingFirst, Dictated;
    if SharingFirst(share) {
      forall i | 0 <= i < Pow2(|share|)
        ensures Placeable(share, b, cap, i)
      {
        SharingFirstPlaceable(share, b, cap, i);
      }
    } else {
      var i := Unplaceable(share, b, cap);
    }
  }
}

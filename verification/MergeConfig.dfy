/**
 * Rack arithmetic of DdlRT-LRC: how many racks a stripe of a given merge level
 * spans, and how many merge rounds the configured racks allow.
 */
module MergeConfig {

  const INT_MAX: int := 0x7fff_ffff

  /** The number of merge rounds is searched up to this level. */
  const MAX_LEVEL: nat := 30

  function Pow2(n: nat): (p: nat)
    ensures p > 0
  {
    if n == 0 then 1 else 2 * Pow2(n - 1)
  }

  function CeilDiv(n: nat, d: nat): nat
    requires d > 0
  {
    (n + d - 1) / d
  }

  lemma MulPositive(x: int, y: int)
    requires x >= 0 && y > 0
    ensures x * y >= 0 && (x > 0 ==> x * y >= y)
  {
    if x > 0 {
      MulPositive(x - 1, y);
      assert x * y == (x - 1) * y + y;
    }
  }

  /** The quotient rounded up is the least multiple that reaches n. */
  lemma CeilDivIs(n: nat, d: nat, q: int)
    requires d > 0
    ensures CeilDiv(n, d) == q <==> (q - 1) * d < n <= q * d
  {
    var c := (n + d - 1) / d;
    var rest := (n + d - 1) % d;
    assert n + d - 1 == c * d + rest && 0 <= rest < d;
    assert (c - 1) * d == c * d - d && (q - 1) * d == q * d - d;
    assert q * d == c * d + (q - c) * d && c * d == q * d + (c - q) * d;
    if q > c {
      MulPositive(q - c, d);
    } else if q < c {
      MulPositive(c - q, d);
    }
  }

  /** Data racks of one local group at a merge level, b data blocks per group and stripe. */
  function GroupRacks(b: nat, cap: nat, level: nat): nat
    requires cap > 0
  {
    CeilDiv(Pow2(level) * b, cap)
  }

  /** All racks of a stripe at a merge level: z groups and the parity rack. */
  function Racks(b: nat, cap: nat, z: nat, level: nat): nat
    requires cap > 0
  {
    z * GroupRacks(b, cap, level) + 1
  }

  /** How full the last rack of a group is. */
  function TailLoad(b: nat, cap: nat, level: nat): int
    requires cap > 0
  {
    Pow2(level) * b - (GroupRacks(b, cap, level) - 1) * cap
  }

  /** Whether the two tail racks of a group fit into one when two stripes of this level merge. */
  predicate TailsShare(b: nat, cap: nat, level: nat)
    requires cap > 0
  {
    2 * TailLoad(b, cap, level) <= cap
  }

  lemma TailLoadRange(b: nat, cap: nat, level: nat)
    requires b > 0 && cap > 0
    ensures 1 <= TailLoad(b, cap, level) <= cap
  {
    var n := Pow2(level) * b;
    MulPositive(Pow2(level), b);
    CeilDivIs(n, cap, GroupRacks(b, cap, level));
    var c := GroupRacks(b, cap, level);
    assert (c - 1) * cap == c * cap - cap;
  }

  /** Doubling the data doubles the racks of a group, less one exactly if the tails share. */
  lemma GroupRacksDouble(b: nat, cap: nat, level: nat)
    requires b > 0 && cap > 0
    ensures GroupRacks(b, cap, level + 1)
         == 2 * GroupRacks(b, cap, level) - (if TailsShare(b, cap, level) then 1 else 0)
    ensures TailLoad(b, cap, level + 1)
         == 2 * TailLoad(b, cap, level) - (if TailsShare(b, cap, level) then 0 else cap)
  {
    var n, c := Pow2(level) * b, GroupRacks(b, cap, level);
    var q := 2 * c - (if TailsShare(b, cap, level) then 1 else 0);
    TailLoadRange(b, cap, level);
    assert Pow2(level + 1) * b == 2 * n;
    assert (q - 1) * cap == q * cap - cap && (c - 1) * cap == c * cap - cap;
    assert q * cap == 2 * (c * cap) - (if TailsShare(b, cap, level) then cap else 0) by {
      assert (2 * c) * cap == 2 * (c * cap);
      assert (2 * c - 1) * cap == 2 * (c * cap) - cap;
    }
    CeilDivIs(2 * n, cap, q);
  }

  /** The number of racks two merging stripes have in common. */
  function Overlap(b: nat, cap: nat, z: nat, level: nat): int
    requires cap > 0
  {
    2 * Racks(b, cap, z, level) - Racks(b, cap, z, level + 1)
  }

  /** The overlap is the parity rack alone, or the parity rack and every tail rack. */
  lemma OverlapIs(b: nat, cap: nat, z: nat, level: nat)
    requires b > 0 && cap > 0
    ensures Overlap(b, cap, z, level) == if TailsShare(b, cap, level) then 1 + z else 1
  {
    hide TailsShare;
    GroupRacksDouble(b, cap, level);
    var c, d := GroupRacks(b, cap, level), GroupRacks(b, cap, level + 1);
    assert z * (2 * c - d) == 2 * (z * c) - z * d;
  }

  lemma RacksGrow(b: nat, cap: nat, z: nat, level: nat)
    requires b > 0 && cap > 0
    ensures Racks(b, cap, z, level) <= Racks(b, cap, z, level + 1)
  {
    hide TailsShare;
    GroupRacksDouble(b, cap, level);
    TailLoadRange(b, cap, level);
    var c, d := GroupRacks(b, cap, level), GroupRacks(b, cap, level + 1);
    CeilDivIs(Pow2(level) * b, cap, c);
    MulPositive(Pow2(level), b);
    assert c >= 1;
    assert z * d == z * c + z * (d - c);
  }

  /** The rack count as a 32-bit integer. */
  function Saturated(b: nat, cap: nat, z: nat, level: nat): int
    requires cap > 0
  {
    var racks := (Pow2(level) * b + cap - 1) / cap * z + 1;
    if racks > INT_MAX then INT_MAX else racks
  }

  lemma SaturatedIs(b: nat, cap: nat, z: nat, level: nat)
    requires cap > 0
    ensures Saturated(b, cap, z, level) == if Racks(b, cap, z, level) > INT_MAX then INT_MAX else Racks(b, cap, z, level)
  {
  }

  /** The number of rounds and the overlaps that the search for them yields. */
  ghost predicate SearchResult(b: nat, cap: nat, z: nat, clusterNum: int, n: nat, s: seq<int>)
    requires cap > 0
  {
    n <= MAX_LEVEL && |s| == n &&
    (Racks(b, cap, z, 0) > clusterNum ==> n == 0) &&
    (Racks(b, cap, z, 0) <= clusterNum ==>
       Racks(b, cap, z, n) <= clusterNum && (n == MAX_LEVEL || Racks(b, cap, z, n + 1) > clusterNum)) &&
    (forall level :: 0 <= level < n ==> s[level] == Overlap(b, cap, z, level)) &&
    (forall level :: 0 <= level < n ==> s[level] == if TailsShare(b, cap, level) then 1 + z else 1)
  }

  /** The search loop: the two admissible overlaps are the only possible ones, so only capacity stops it. */
  method SearchLevels(b: nat, cap: nat, z: nat, clusterNum: int) returns (n: nat, s: seq<int>)
    requires b > 0 && cap > 0 && clusterNum < INT_MAX
    ensures SearchResult(b, cap, z, clusterNum, n, s)
  {
    hide Racks, TailsShare, Saturated;
    n, s := 0, [];
    var previousRacks := Saturated(b, cap, z, 0);
    var level := 1;
    while level < 31
      invariant 1 <= level <= 31 && n == level - 1 && |s| == n
      invariant n > 0 ==> Racks(b, cap, z, 0) <= clusterNum && Racks(b, cap, z, n) <= clusterNum
      invariant previousRacks == Saturated(b, cap, z, n)
      invariant forall l :: 0 <= l < n ==> s[l] == Overlap(b, cap, z, l)
      invariant forall l :: 0 <= l < n ==> s[l] == if TailsShare(b, cap, l) then 1 + z else 1
    {
      var currentRacks := Saturated(b, cap, z, level);
      var sharedRacks := 2 * previousRacks - currentRacks;
      SaturatedIs(b, cap, z, n);
      SaturatedIs(b, cap, z, level);
      RacksGrow(b, cap, z, n);
      OverlapIs(b, cap, z, n);
      if currentRacks > clusterNum || (sharedRacks != 1 && sharedRacks != 1 + z) {
        break;
      }
      s := s + [sharedRacks];
      n := level;
      previousRacks := currentRacks;
      level := level + 1;
    }
  }

  /** The configuration fields merging depends on. */
  class Config {
    const k: int
    const r: int
    const z: int
    const clusterNum: int
    var N: nat
    var ddlrtLrcS: seq<int>

    constructor (k: int, r: int, z: int, clusterNum: int)
      ensures this.k == k && this.r == r && this.z == z && this.clusterNum == clusterNum
      ensures N == 0 && ddlrtLrcS == []
    {
      this.k, this.r, this.z, this.clusterNum := k, r, z, clusterNum;
      N, ddlrtLrcS := 0, [];
    }

    /** What the DdlRT clauses of the configuration demand. */
    predicate Accepted() {
      k > 0 && r >= 1 && z >= 1 && k % z == 0 && clusterNum > 0
    }

    /** `get_ddlrt_lrc_racks`, with its guard. */
    function GetRacks(level: int): (racks: int)
    {
      if level < 0 || k <= 0 || r < 0 || z <= 0 || k % z != 0 then clusterNum + 1
      else Saturated(k / z, r + 1, z, level)
    }

    /**
     * `init_ddlrt_lrc_merge_parameters`: N becomes the largest level, up to 30,
     * whose racks fit, and the list records the overlap of every round.
     */
    method InitMergeParameters()
      requires clusterNum < INT_MAX
      modifies this
      ensures !Accepted() ==> N == 0 && ddlrtLrcS == []
      ensures Accepted() ==> SearchResult(k / z, r + 1, z, clusterNum, N, ddlrtLrcS)
    {
      N, ddlrtLrcS := 0, [];
      if k <= 0 || r < 1 || z < 1 || k % z != 0 || clusterNum <= 0 {
        return;
      }
      PositiveQuotient(k, z);
      N, ddlrtLrcS := SearchLevels(k / z, r + 1, z, clusterNum);
    }
  }

  lemma PositiveQuotient(k: nat, z: nat)
    requires k > 0 && z > 0 && k % z == 0
    ensures k / z > 0
  {
    assert k == z * (k / z);
  }
}

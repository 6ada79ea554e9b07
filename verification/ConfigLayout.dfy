/**
 * From the configuration to the layout: the rounds and overlaps that the
 * configuration computes are exactly what the layout needs, so the layout never
 * asks for more racks than there are.
 */
module ConfigLayout {
  import opened MergeConfig
  import opened TailClasses
  import opened TailUnionFind
  import opened TailLayout
  import opened BatchLayout
  import opened BatchPlacement

  /** Tails are shared in the rounds whose overlap is 1 + z. */
  function SharesOf(s: seq<int>, z: nat): (share: seq<bool>)
    ensures |share| == |s|
  {
    seq(|s|, i requires 0 <= i < |s| => s[i] == 1 + z)
  }

  /** What the search for merge rounds finds is a sharing pattern that fits into the racks. */
  lemma SearchDictates(b: nat, cap: nat, z: nat, n: nat, s: seq<int>)
    requires b > 0 && cap > 0 && z > 0 && SearchResult(b, cap, z, RACKS, n, s) && Racks(b, cap, z, 0) <= RACKS
    ensures |SharesOf(s, z)| == n <= MAX_LEVEL && Dictated(SharesOf(s, z), b, cap) && Racks(b, cap, z, n) <= RACKS
  {
    hide TailsShare, Racks, Overlap;
  }

  /** The layout of a configuration, whether or not every position can be placed. */
  ghost predicate Laid(bt: Batch, parent: seq<nat>) {
    bt.z > 0 && bt.b > 0 && bt.cap > 0 && Dictated(bt.share, bt.b, bt.cap) && LayoutFor(bt.layout, bt.share, bt.z, bt.b, bt.cap) &&
    Racks(bt.b, bt.cap, bt.z, |bt.share|) <= RACKS && RootsKnown(bt, parent)
  }

  /** With no sharing level after a non-sharing one it is all that storing and merging batches needs. */
  lemma LaidIsKnown(bt: Batch, parent: seq<nat>)
    requires Laid(bt, parent)
    ensures LayoutKnown(bt, parent) <==> SharingFirst(bt.share)
  {
    hide RootsKnown, LayoutFor, Dictated, SharingFirst;
  }

  /** From an accepted configuration with 17 clusters to the layout of its batches. */
  method LayoutOf(c: Config) returns (bt: Batch, parent: array<nat>)
    requires c.Accepted() && c.clusterNum == RACKS && c.GetRacks(0) <= c.clusterNum
    modifies c
    ensures c.z > 0 && |bt.share| == c.N && bt.share == SharesOf(c.ddlrtLrcS, c.z)
    ensures bt.z == c.z && bt.b == c.k / c.z && bt.cap == c.r + 1
    ensures SearchResult(bt.b, bt.cap, bt.z, RACKS, c.N, c.ddlrtLrcS)
    ensures fresh(parent) && Laid(bt, parent[..])
  {
    hide SearchResult, Dictated, LayoutFor, Racks, Root, Elem, Rep;
    c.InitMergeParameters();
    PositiveQuotient(c.k, c.z);
    var z: nat, b: nat, cap: nat := c.z, c.k / c.z, c.r + 1;
    LevelZeroFits(c);
    SearchDictates(b, cap, z, c.N, c.ddlrtLrcS);
    var share := SharesOf(c.ddlrtLrcS, z);
    var layout;
    layout, parent := BuildLayout(share, z, b, cap);
    bt := Batch(layout, share, z, b, cap);
    forall p: nat, g: nat | p < Pow2(|share|) && g < z
      ensures RootKnown(bt, parent[..], p, g)
    {
    }
  }

  /** The configuration's check of level 0. */
  lemma LevelZeroFits(c: Config)
    requires c.Accepted() && c.clusterNum == RACKS && c.GetRacks(0) <= c.clusterNum
    ensures Racks(c.k / c.z, c.r + 1, c.z, 0) <= RACKS
  {
    hide Racks;
    PositiveQuotient(c.k, c.z);
    SaturatedIs(c.k / c.z, c.r + 1, c.z, 0);
  }

  /**
   * Placing a stripe with that layout: there are always enough racks, and the
   * only refusal is that of a position whose tail rack is full already.
   */
  method PlaceFrom(bt: Batch, parent: array<nat>, pos: nat) returns (result: Placement)
    requires Laid(bt, parent[..]) && pos < Pow2(|bt.share|)
    modifies parent
    ensures Laid(bt, parent[..]) && !result.TooManyRacks?
    ensures result.TailOverflow? <==> !Placeable(bt.share, bt.b, bt.cap, pos)
    ensures result.Placed? ==> SlotsAre(result.slots, bt.layout, bt.share, bt.z, bt.b, bt.cap, pos, Offset(bt.b, bt.z))
  {
    hide Dictated, LayoutFor, Racks, Root, Elem, Rep, Placeable, SlotsAre, Offset;
    forall p: nat, g: nat | p < Pow2(|bt.share|) && g < bt.z
      ensures Elem(bt.z, p, g) < parent.Length
      ensures Root(parent[..], Elem(bt.z, p, g)) == Elem(bt.z, Rep(bt.share, |bt.share|, p), g)
    {
      assert RootKnown(bt, parent[..], p, g);
    }
    ghost var before := parent[..];
    result := PlaceStripe(bt.layout, parent, bt.share, bt.z, bt.b, bt.cap, pos, RACKS);
    StillKnown(bt, before, parent[..]);
  }

  // ---- An accepted configuration that cannot place a batch ----

  lemma ThreeOfFour(n: nat, s: seq<int>)
    requires SearchResult(3, 4, 1, RACKS, n, s)
    ensures Racks(3, 4, 1, 0) <= RACKS && n >= 2
    ensures !TailsShare(3, 4, 0) && TailsShare(3, 4, 1)
  {
    assert Pow2(0) == 1 && Pow2(1) == 2 && Pow2(2) == 4;
    assert GroupRacks(3, 4, 0) == 1 && GroupRacks(3, 4, 1) == 2 && GroupRacks(3, 4, 2) == 3;
  }

  /** With 3 data blocks per group and racks of 4 blocks, position 3 of every batch of two rounds or more is refused. */
  lemma PositionThree(share: seq<bool>)
    requires |share| >= 2 && Dictated(share, 3, 4) && !TailsShare(3, 4, 0) && TailsShare(3, 4, 1)
    ensures 3 < Pow2(|share|) && !SharingFirst(share) && !Placeable(share, 3, 4, 3)
  {
    hide TailsShare;
    assert !share[0] && share[1];
    OverfullRank(share, 0, 1);
    BeforePrefix(share, 2, |share|, 3);
    assert TailLoad(3, 4, 0) == 3;
  }

  /** k = 3, r = 3, z = 1 with 17 clusters is accepted, and its fourth stripe cannot be placed. */
  method FourthStripeRefused() returns (result: Placement)
    ensures result.TailOverflow?
  {
    hide Laid, SearchResult, SharingFirst, Placeable, Dictated;
    var c := new Config(3, 3, 1, RACKS);
    assert c.GetRacks(0) <= c.clusterNum by { OneRack(); }
    var bt, parent := LayoutOf(c);
    ThreeOfFour(c.N, c.ddlrtLrcS);
    LaidDictated(bt, parent[..]);
    PositionThree(bt.share);
    result := PlaceFrom(bt, parent, 3);
  }

  lemma OneRack()
    ensures Saturated(3, 4, 1, 0) == 2
  {
    assert Pow2(0) == 1;
  }

  lemma LaidDictated(bt: Batch, parent: seq<nat>)
    requires Laid(bt, parent)
    ensures bt.cap > 0 && Dictated(bt.share, bt.b, bt.cap)
  {
  }
}

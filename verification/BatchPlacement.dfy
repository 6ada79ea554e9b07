/**
 * Full batches are stored from scratch, stripe after stripe, as the layout
 * demands; then the client's merge rounds turn every batch into one stripe.
 */
module BatchPlacement {
  import opened LinearAlgebra
  import opened Generators
  import opened MergeConfig
  import opened TailClasses
  import opened TailUnionFind
  import opened TailLayout
  import opened BatchLayout
  import opened BatchPlan
  import opened BatchRows
  import opened BatchData
  import opened MergeParity
  import opened MergePlan
  import T = MergeTables
  import opened MergeTables
  import opened MergeCommit
  import opened MergeProtocol
  import opened MergePlacement
  import opened MergeUpload
  import opened MergeRuns
  import opened BatchRounds

  // ---- The places of a stripe's blocks ----

  ghost predicate DataSpot(bt: Batch, o: Arrays, t: Tables, batch: nat, pos: nat, i: nat, spot: Spot)
    requires Setting(bt, o, t) && pos < Pow2(|bt.share|)
  {
    i < DataBlocks(bt) && spot.place == DataPlace(bt, o, NodesOf(t), batch, pos, i) &&
    spot.localGroup == SlotIn(bt, pos, i).localGroup && spot.group == RackNumber(bt, i)
  }

  /** Parities take the first nodes of the first column. */
  ghost predicate ParitySpot(bt: Batch, o: Arrays, t: Tables, batch: nat, j: nat, spot: Spot)
    requires Setting(bt, o, t)
  {
    j < o.width && spot.place == PlaceOf(o, NodesOf(t), batch, 1, j + 1) && spot.group == ParityNumber(bt)
  }

  ghost predicate SpotsFor(bt: Batch, o: Arrays, t: Tables, batch: nat, pos: nat, s: Stripe, spots: seq<Spot>)
    requires Setting(bt, o, t) && pos < Pow2(|bt.share|)
  {
    |spots| == s.k + s.r + s.z && s.k == DataBlocks(bt) && s.r + 1 == bt.cap && s.z == bt.z && s.r + s.z <= o.width &&
    (forall i :: 0 <= i < s.k ==> DataSpot(bt, o, t, batch, pos, i, spots[i])) &&
    forall i :: s.k <= i < |spots| ==> ParitySpot(bt, o, t, batch, i - s.k, spots[i])
  }

  lemma PlaceOnRack(o: Arrays, t: Tables, batch: nat, x: nat, i: nat)
    requires ArraysOk(o) && Equipped(o, NodesOf(t)) && 1 <= x <= RACKS && 1 <= i <= o.width
    ensures OnItsRack(t, PlaceOf(o, NodesOf(t), batch, x, i))
    ensures PlaceOf(o, NodesOf(t), batch, x, i).cluster == ClusterOf(o, batch, x)
  {
    hide ArraysOk, Equipped, ClusterOf;
  }

  /** One spot: on its rack, and on the parity rack exactly if it is a parity. */
  lemma SpotPlace(bt: Batch, o: Arrays, t: Tables, batch: nat, pos: nat, s: Stripe, spots: seq<Spot>, i: nat)
    requires Setting(bt, o, t) && pos < Pow2(|bt.share|) && SpotsFor(bt, o, t, batch, pos, s, spots) && i < |spots|
    ensures OnItsRack(t, spots[i].place) && (spots[i].place.cluster == ClusterOf(o, batch, 1) <==> i >= s.k)
    ensures i < s.k ==> spots[i].localGroup < s.z
  {
    hide Setting, DataPlace, SlotIn, ClusterOf, PlaceOf, DataBlocks, RackNumber, ParityNumber;
    SettingParts(bt, o, t);
    if i < s.k {
      assert DataSpot(bt, o, t, batch, pos, i, spots[i]);
      DataOffParity(bt, o, NodesOf(t), batch, pos, i);
      SlotRange(bt, pos, i);
    } else {
      assert ParitySpot(bt, o, t, batch, i - s.k, spots[i]);
      PlaceOnRack(o, t, batch, 1, i - s.k + 1);
    }
  }

  /** All blocks of the stripe are on different nodes. */
  lemma SpotsApart(bt: Batch, o: Arrays, t: Tables, batch: nat, pos: nat, s: Stripe, spots: seq<Spot>, i: nat, j: nat)
    requires Setting(bt, o, t) && pos < Pow2(|bt.share|) && SpotsFor(bt, o, t, batch, pos, s, spots)
    requires i < j < |spots| && RacksOk(t)
    ensures spots[i].place.node != spots[j].place.node
  {
    hide Setting, DataPlace, SlotIn, ClusterOf, PlaceOf, DataBlocks, RacksOk, OnItsRack, RackNumber, ParityNumber;
    SettingParts(bt, o, t);
    SpotPlace(bt, o, t, batch, pos, s, spots, i);
    SpotPlace(bt, o, t, batch, pos, s, spots, j);
    if spots[i].place.node == spots[j].place.node {
      OneRack(t, spots[i].place, spots[j].place);
      if j < s.k {
        assert DataSpot(bt, o, t, batch, pos, i, spots[i]) && DataSpot(bt, o, t, batch, pos, j, spots[j]);
        DataApart(bt, o, NodesOf(t), batch, pos, i, pos, j);
      } else {
        assert i >= s.k;
        assert ParitySpot(bt, o, t, batch, i - s.k, spots[i]) && ParitySpot(bt, o, t, batch, j - s.k, spots[j]);
        PlacesDiffer(o, NodesOf(t), batch, 1, i - s.k + 1, 1, j - s.k + 1);
      }
    }
  }

  lemma SpotsForOk(bt: Batch, o: Arrays, t: Tables, batch: nat, pos: nat, s: Stripe, spots: seq<Spot>)
    requires Setting(bt, o, t) && pos < Pow2(|bt.share|) && SpotsFor(bt, o, t, batch, pos, s, spots) && RacksOk(t)
    requires s.r > 0
    ensures SpotsOk(t, s, spots)
  {
    hide Setting, DataSpot, ParitySpot, ClusterOf, DataBlocks, RacksOk, OnItsRack;
    SettingParts(bt, o, t);
    forall i: nat | i < |spots|
      ensures OnItsRack(t, spots[i].place) && (spots[i].place.cluster == ClusterOf(o, batch, 1) <==> i >= s.k)
      ensures i < s.k ==> spots[i].localGroup < s.z
    {
      SpotPlace(bt, o, t, batch, pos, s, spots, i);
    }
    forall i: nat, j: nat | i < j < |spots|
      ensures spots[i].place.node != spots[j].place.node
    {
      SpotsApart(bt, o, t, batch, pos, s, spots, i, j);
    }
  }

  /** The local groups are runs of k / z blocks. */
  lemma SpotsInRuns(bt: Batch, o: Arrays, t: Tables, batch: nat, pos: nat, s: Stripe, spots: seq<Spot>)
    requires Setting(bt, o, t) && pos < Pow2(|bt.share|) && SpotsFor(bt, o, t, batch, pos, s, spots)
    ensures InRuns(s, spots) && s.k > 0
  {
    hide Setting, DataPlace, SlotIn, ClusterOf, PlaceOf, RackNumber;
    SettingParts(bt, o, t);
    BatchBasics(bt);
    OffsetIs(bt.b, bt.z);
    WholeRuns(bt.z, bt.b);
    forall i: nat | i < s.k
      ensures spots[i].localGroup == GroupOf(s.k / s.z, i)
    {
      assert DataSpot(bt, o, t, batch, pos, i, spots[i]);
      SlotGroup(bt, pos, i);
    }
  }

  lemma WholeRuns(z: nat, b: nat)
    requires z > 0 && b > 0
    ensures z * b > 0 && (z * b) % z == 0 && (z * b) / z == b
  {
    MulPositive(z, b);
    OffsetIs(z, b);
    RunUnique(z, b, 0);
  }

  lemma SlotGroup(bt: Batch, pos: nat, i: nat)
    requires BatchOk(bt) && pos < Pow2(|bt.share|) && i < DataBlocks(bt)
    ensures SlotIn(bt, pos, i).localGroup == GroupOf(bt.b, i)
  {
    hide LayoutFor, Offset, FullRacks, Dictated, SharingFirst, Racks, FullColumn, TailColumn;
    GroupBound(bt.z, bt.b, i);
  }

  /** The coordinator's computation of all places of a stripe. */
  method MakeSpots(ghost bt: Batch, o: Arrays, ghost t: Tables, nodes: map<nat, seq<nat>>, batch: nat, ghost pos: nat,
                   s: Stripe, slots: seq<Slot>)
      returns (spots: seq<Spot>)
    requires Setting(bt, o, t) && pos < Pow2(|bt.share|) && nodes == NodesOf(t)
    requires s.k == DataBlocks(bt) && s.r + 1 == bt.cap && s.z == bt.z && s.r + s.z <= o.width
    requires |slots| == s.k && forall i: nat :: i < s.k ==> slots[i] == SlotIn(bt, pos, i)
    ensures SpotsFor(bt, o, t, batch, pos, s, spots)
  {
    hide Setting, SlotIn, DataBlocks, PlaceOf, ArraysOk, Equipped, BatchOk, RackNumber, ParityNumber;
    SettingParts(bt, o, t);
    BatchBasics(bt);
    SizePositive(bt);
    NumberEnds(bt);
    spots := [];
    var group := 0;
    for i := 0 to s.k
      invariant |spots| == i && forall x :: 0 <= x < i ==> DataSpot(bt, o, t, batch, pos, x, spots[x])
      invariant group == RackNumber(bt, if i == 0 then 0 else i - 1)
    {
      SlotRange(bt, pos, i);
      if i > 0 {
        NextNumber(bt, i - 1);
        SameNumber(bt, pos, i - 1, i);
      }
      var slot := slots[i];
      if i > 0 && slot.rackCol != slots[i - 1].rackCol {
        group := group + 1;
      }
      spots := spots + [Spot(PlaceOf(o, nodes, batch, slot.rackCol, slot.nodeCol), slot.localGroup, group)];
    }
    for j := 0 to s.r + s.z
      invariant |spots| == s.k + j && forall x :: 0 <= x < s.k ==> DataSpot(bt, o, t, batch, pos, x, spots[x])
      invariant forall x :: s.k <= x < |spots| ==> ParitySpot(bt, o, t, batch, x - s.k, spots[x])
    {
      spots := spots + [Spot(PlaceOf(o, nodes, batch, 1, j + 1), 0, group + 1)];
    }
  }

  // ---- A stored stripe is where the layout wants it ----

  lemma NodesStay(t: Tables, t': Tables)
    requires SameMachines(t, t')
    ensures NodesOf(t') == NodesOf(t)
  {
  }

  lemma SettingStays(bt: Batch, o: Arrays, t: Tables, t': Tables)
    requires Setting(bt, o, t) && SameMachines(t, t')
    ensures Setting(bt, o, t')
  {
    hide BatchOk, ArraysOk, SameMachines;
    NodesStay(t, t');
  }

  lemma PlacedLaidOut(bt: Batch, o: Arrays, t: Tables, t': Tables, sid: nat, base: nat, s: Stripe, spots: seq<Spot>)
    requires Setting(bt, o, t) && Setting(bt, o, t') && s.pos < Pow2(|bt.share|) && SameMachines(t, t')
    requires SpotsFor(bt, o, t, s.batch, s.pos, s, spots) && Added(t, t', sid, base, s, spots)
    ensures StripeLaidOut(bt, o, t', sid, 0)
    ensures t'.stripes[sid].batch == s.batch && t'.stripes[sid].pos == s.pos
    ensures t'.stripes[sid].rounds == s.rounds && t'.stripes[sid].overlaps == s.overlaps
  {
    hide Setting, BlocksAdded, SlotIn, DataPlace, PlaceOf, ClusterOf, Run, Within, T.At;
    SettingParts(bt, o, t);
    NodesStay(t, t');
    AddedShape(t, t', sid, base, s, spots);
    SizePositive(bt);
    OneOffset(DataBlocks(bt));
    forall i: nat | i < |spots|
      ensures T.At(t', sid, i).place == spots[i].place
      ensures i < s.k ==> BlockLaidOut(bt, o, t', s.batch, s.pos, i, T.At(t', sid, i))
      ensures i >= s.k ==> spots[i].place.cluster == ClusterOf(o, s.batch, 1)
    {
      AddedBlock(t, t', sid, base, s, spots, i);
      NewPlace(s, sid, i, spots[i]);
      if i < s.k {
        NewGroup(s, sid, i, spots[i]);
        FirstRun(DataBlocks(bt), i);
        assert DataSpot(bt, o, t, s.batch, s.pos, i, spots[i]);
      } else {
        assert ParitySpot(bt, o, t, s.batch, i - s.k, spots[i]);
        PlaceOnRack(o, t, s.batch, 1, i - s.k + 1);
      }
    }
  }

  /** A spot is on the rows of its batch. */
  lemma SpotOnRows(bt: Batch, o: Arrays, t: Tables, batch: nat, pos: nat, s: Stripe, spots: seq<Spot>, i: nat)
    requires Setting(bt, o, t) && pos < Pow2(|bt.share|) && SpotsFor(bt, o, t, batch, pos, s, spots) && i < |spots|
    ensures OnRows(o, NodesOf(t), batch, spots[i].place)
    ensures i >= s.k ==> spots[i].place.rackCol == 1 && spots[i].place.nodeCol == i - s.k + 1
  {
    hide Setting, SlotIn, PlaceOf, DataBlocks, OnRows, RackNumber, ParityNumber, BatchOk, ArraysOk, Equipped;
    SettingParts(bt, o, t);
    if i < s.k {
      assert DataSpot(bt, o, t, batch, pos, i, spots[i]);
      SlotRange(bt, pos, i);
      PlaceOnRows(o, NodesOf(t), batch, SlotIn(bt, pos, i).rackCol, SlotIn(bt, pos, i).nodeCol);
    } else {
      assert ParitySpot(bt, o, t, batch, i - s.k, spots[i]);
      PlaceOnRows(o, NodesOf(t), batch, 1, i - s.k + 1);
    }
  }

  /** Two spots are of one group exactly if they are on one rack. */
  lemma SpotGroups(bt: Batch, o: Arrays, t: Tables, batch: nat, pos: nat, s: Stripe, spots: seq<Spot>, i: nat, j: nat)
    requires Setting(bt, o, t) && pos < Pow2(|bt.share|) && SpotsFor(bt, o, t, batch, pos, s, spots)
    requires i <= j < |spots|
    ensures spots[i].group == spots[j].group <==> spots[i].place.cluster == spots[j].place.cluster
  {
    hide Setting, SlotIn, PlaceOf, ClusterOf, DataBlocks, RackNumber, ParityNumber, BatchOk, ArraysOk, Equipped;
    SettingParts(bt, o, t);
    SpotPlace(bt, o, t, batch, pos, s, spots, i);
    SpotPlace(bt, o, t, batch, pos, s, spots, j);
    if j < s.k {
      SameRackData(bt, o, t, batch, pos, s, spots, i, j);
    } else {
      assert ParitySpot(bt, o, t, batch, j - s.k, spots[j]);
      if i < s.k {
        assert DataSpot(bt, o, t, batch, pos, i, spots[i]);
        NumberParts(bt, i);
      } else {
        assert ParitySpot(bt, o, t, batch, i - s.k, spots[i]);
      }
    }
  }

  lemma SameRackData(bt: Batch, o: Arrays, t: Tables, batch: nat, pos: nat, s: Stripe, spots: seq<Spot>, i: nat,
                     j: nat)
    requires Setting(bt, o, t) && pos < Pow2(|bt.share|) && SpotsFor(bt, o, t, batch, pos, s, spots)
    requires i <= j < s.k
    ensures spots[i].group == spots[j].group <==> spots[i].place.cluster == spots[j].place.cluster
  {
    hide Setting, SlotIn, PlaceOf, ClusterOf, DataBlocks, RackNumber, ParityNumber, BatchOk, ArraysOk, Equipped;
    SettingParts(bt, o, t);
    assert DataSpot(bt, o, t, batch, pos, i, spots[i]) && DataSpot(bt, o, t, batch, pos, j, spots[j]);
    SameNumber(bt, pos, i, j);
    SlotRange(bt, pos, i);
    SlotRange(bt, pos, j);
    var si, sj := SlotIn(bt, pos, i), SlotIn(bt, pos, j);
    PlaceOnRack(o, t, batch, si.rackCol, si.nodeCol);
    PlaceOnRack(o, t, batch, sj.rackCol, sj.nodeCol);
    if ClusterOf(o, batch, si.rackCol) == ClusterOf(o, batch, sj.rackCol) {
      ClustersDiffer(o, batch, si.rackCol, sj.rackCol);
    }
  }

  /** The groups start with 0 and grow by at most one from block to block. */
  lemma SpotsCount(bt: Batch, o: Arrays, t: Tables, batch: nat, pos: nat, s: Stripe, spots: seq<Spot>, i: nat)
    requires Setting(bt, o, t) && pos < Pow2(|bt.share|) && SpotsFor(bt, o, t, batch, pos, s, spots) && i < |spots|
    ensures i == 0 ==> spots[i].group == 0
    ensures i > 0 ==> spots[i - 1].group <= spots[i].group <= spots[i - 1].group + 1
  {
    hide Setting, SlotIn, PlaceOf, DataPlace, DataBlocks, RackNumber, ParityNumber, BatchOk, ArraysOk, Equipped;
    SettingParts(bt, o, t);
    SizePositive(bt);
    NumberEnds(bt);
    if i < s.k {
      assert DataSpot(bt, o, t, batch, pos, i, spots[i]);
      if i > 0 {
        assert DataSpot(bt, o, t, batch, pos, i - 1, spots[i - 1]);
        NextNumber(bt, i - 1);
      }
    } else {
      assert ParitySpot(bt, o, t, batch, i - s.k, spots[i]);
      if i == s.k {
        assert DataSpot(bt, o, t, batch, pos, i - 1, spots[i - 1]);
      } else {
        assert ParitySpot(bt, o, t, batch, i - 1 - s.k, spots[i - 1]);
      }
    }
  }

  /** The stored stripe is on the rows of its batch, and its groups are its racks. */
  lemma PlacedOnRows(bt: Batch, o: Arrays, t: Tables, t': Tables, sid: nat, base: nat, s: Stripe, spots: seq<Spot>)
    requires Setting(bt, o, t) && s.pos < Pow2(|bt.share|) && SameMachines(t, t')
    requires SpotsFor(bt, o, t, s.batch, s.pos, s, spots) && Added(t, t', sid, base, s, spots)
    requires s.batch == Run(Pow2(|bt.share|), sid) && s.pos == Within(Pow2(|bt.share|), sid)
    requires s.oaRow == RowsOf(o, s.batch).1
    ensures sid in t'.stripes && StripeOnRows(bt, o, t', sid) && GroupsAreRacks(t', sid)
  {
    hide Setting, BlocksAdded, OnRows, T.At, DataSpot, ParitySpot, Equipped, Permutes, SameMachines;
    SettingParts(bt, o, t);
    NodesStay(t, t');
    NodesAre(t');
    AddedShape(t, t', sid, base, s, spots);
    forall i: nat | i < |spots|
      ensures T.At(t', sid, i).place == spots[i].place && T.At(t', sid, i).group == spots[i].group
    {
      AddedBlock(t, t', sid, base, s, spots, i);
      NewPlace(s, sid, i, spots[i]);
    }
    forall i: nat | i < |spots|
      ensures OnRows(o, NodesOf(t), s.batch, spots[i].place)
      ensures i >= s.k ==> spots[i].place.rackCol == 1 && spots[i].place.nodeCol == i - s.k + 1
      ensures i == 0 ==> spots[i].group == 0
      ensures i > 0 ==> spots[i - 1].group <= spots[i].group <= spots[i - 1].group + 1
    {
      SpotOnRows(bt, o, t, s.batch, s.pos, s, spots, i);
      SpotsCount(bt, o, t, s.batch, s.pos, s, spots, i);
    }
    forall i: nat, j: nat | i < |spots| && j < |spots|
      ensures spots[i].group == spots[j].group <==> spots[i].place.cluster == spots[j].place.cluster
    {
      if i <= j {
        SpotGroups(bt, o, t, s.batch, s.pos, s, spots, i, j);
      } else {
        SpotGroups(bt, o, t, s.batch, s.pos, s, spots, j, i);
      }
    }
  }

  /** The earlier stripes stay on their rows. */
  lemma OthersOnRows(baseK: nat, bt: Batch, o: Arrays, t: Tables, t': Tables, sid: nat, base: nat, s: Stripe,
                     spots: seq<Spot>, x: nat)
    requires ArraysOk(o) && SameMachines(t, t') && AllStripesOk(baseK, t) && Allocated(t, base)
    requires Added(t, t', sid, base, s, spots) && x in t.stripes && x in t'.stripes && x != sid
    requires StripeOnRows(bt, o, t, x) && GroupsAreRacks(t, x)
    ensures StripeOnRows(bt, o, t', x) && GroupsAreRacks(t', x)
  {
    hide Added, AllStripesOk, T.At, OnRows, ArraysOk;
    NodesStay(t, t');
    NodesAre(t);
    NodesAre(t');
    forall i: nat | i < |t.stripes[x].blocks|
      ensures x in t'.stripes && t'.stripes[x] == t.stripes[x] && T.At(t', x, i) == T.At(t, x, i)
    {
      EarlierBlock(baseK, t, t', sid, base, s, spots, x, i);
    }
    SameStripe(baseK, t, t', sid, base, s, spots, x);
  }

  lemma SameStripe(baseK: nat, t: Tables, t': Tables, sid: nat, base: nat, s: Stripe, spots: seq<Spot>, x: nat)
    requires Added(t, t', sid, base, s, spots) && x in t.stripes
    ensures x in t'.stripes && t'.stripes[x] == t.stripes[x]
  {
    hide BlocksAdded;
  }

  lemma OneOffset(size: nat)
    ensures Offset(size, Pow2(0)) == size
  {
    OffsetIs(size, 1);
  }

  lemma FirstRun(size: nat, i: nat)
    requires i < size
    ensures Run(size, i) == 0 && Within(size, i) == i
  {
  }

  /** The other stripes stay where they are. */
  lemma OthersInPlace(baseK: nat, pl: Plan, t: Tables, t': Tables, sid: nat, base: nat, s: Stripe, spots: seq<Spot>,
                      x: nat)
    requires Setting(pl.bt, pl.o, t) && Setting(pl.bt, pl.o, t') && SameMachines(t, t') && AllStripesOk(baseK, t)
    requires Allocated(t, base)
    requires Added(t, t', sid, base, s, spots) && InPlace(pl, t, x, 0)
    ensures InPlace(pl, t', x, 0)
  {
    hide Setting, Added, BlockLaidOut, AllStripesOk, ClusterOf, T.At, Run, Within;
    NodesStay(t, t');
    forall i: nat | i < |t.stripes[x].blocks|
      ensures x in t'.stripes && t'.stripes[x] == t.stripes[x] && T.At(t', x, i) == T.At(t, x, i)
    {
      EarlierBlock(baseK, t, t', sid, base, s, spots, x, i);
    }
    EarlierBlock(baseK, t, t', sid, base, s, spots, x, t.stripes[x].k);
    var st := t.stripes[x];
    forall i: nat | i < st.k
      ensures BlockLaidOut(pl.bt, pl.o, t', st.batch, st.pos, i, T.At(t', x, i))
    {
      SameLayout(pl.bt, pl.o, t, t', st.batch, st.pos, i, T.At(t, x, i));
    }
  }

  lemma SameLayout(bt: Batch, o: Arrays, t: Tables, t': Tables, batch: nat, pos: nat, i: nat, block: Block)
    requires Setting(bt, o, t) && Setting(bt, o, t') && NodesOf(t') == NodesOf(t)
    requires BlockLaidOut(bt, o, t, batch, pos, i, block)
    ensures BlockLaidOut(bt, o, t', batch, pos, i, block)
  {
    hide Setting, SlotIn, DataPlace, Run, Within, DataBlocks;
  }

  // ---- Batches ----

  /** The first `count` stripes are stored. */
  ghost predicate StoredSoFar(pl: Plan, t: Tables, count: nat) {
    Setting(pl.bt, pl.o, t) && (forall x: nat :: x in t.stripes <==> x < count) &&
    (forall x :: x in t.stripes ==> InPlace(pl, t, x, 0)) && AllOnRows(pl, t)
  }

  /** Every stripe is on the rows of its batch, and its placement groups are its racks. */
  ghost predicate AllOnRows(pl: Plan, t: Tables)
    requires ArraysOk(pl.o)
  {
    forall x :: x in t.stripes ==> StripeOnRows(pl.bt, pl.o, t, x) && GroupsAreRacks(t, x)
  }

  lemma OneMoreStored(baseK: nat, pl: Plan, t: Tables, t': Tables, count: nat, base: nat, s: Stripe, spots: seq<Spot>)
    requires StoredSoFar(pl, t, count) && SameMachines(t, t') && AllStripesOk(baseK, t) && Allocated(t, base)
    requires Added(t, t', count, base, s, spots) && s.pos < Pow2(|pl.bt.share|)
    requires SpotsFor(pl.bt, pl.o, t, s.batch, s.pos, s, spots)
    requires s.batch == Run(Pow2(|pl.bt.share|), count) && s.pos == Within(Pow2(|pl.bt.share|), count)
    requires s.rounds == |pl.bt.share| && s.overlaps == pl.overlaps && ArraysOk(pl.o)
    requires s.oaRow == RowsOf(pl.o, s.batch).1
    ensures StoredSoFar(pl, t', count + 1)
  {
    hide Setting, Added, StripeLaidOut, AllStripesOk, SpotsFor, SameMachines, Run, Within, StripeOnRows, GroupsAreRacks,
         RowsOf, ArraysOk;
    SettingStays(pl.bt, pl.o, t, t');
    AddedShape(t, t', count, base, s, spots);
    forall x | x in t'.stripes
      ensures InPlace(pl, t', x, 0) && StripeOnRows(pl.bt, pl.o, t', x) && GroupsAreRacks(t', x)
    {
      if x == count {
        PlacedLaidOut(pl.bt, pl.o, t, t', count, base, s, spots);
        PlacedOnRows(pl.bt, pl.o, t, t', count, base, s, spots);
      } else {
        OthersInPlace(baseK, pl, t, t', count, base, s, spots, x);
        OthersOnRows(baseK, pl.bt, pl.o, t, t', count, base, s, spots, x);
      }
    }
  }

  /** The new stripe holds its data, and the others hold theirs. */
  lemma OneMoreHolding(baseK: nat, t: Tables, t': Tables, base: nat, s: Stripe, spots: seq<Spot>,
                       written: map<nat, Bytes>, datas: seq<Matrix>, data: Matrix, len: nat)
    requires AllStripesOk(baseK, t) && Allocated(t, base) && Added(t, t', |datas|, base, s, spots)
    requires InRuns(s, spots) && IsMatrix(data, s.k, len) && Holding(t, written, datas)
    requires forall x: nat :: x < |datas| ==> x in t.stripes
    ensures Holding(t', DataWritten(written, base, data), datas + [data])
  {
    hide AllStripesOk, Allocated, Added, InRuns, DataWritten, DataOf, Extends;
    var written' := DataWritten(written, base, data);
    NewContents(t, t', |datas|, base, s, spots, written, data);
    DataExtends(written, base, data);
    forall x: nat | x < |datas|
      ensures DataHeld(t', written', x) == datas[x]
    {
      assert DataHeld(t, written, x) == datas[x];
      HasBlocks(baseK, t, x);
      OldContents(baseK, t, t', |datas|, base, s, spots, written, written', x);
    }
  }

  lemma HasBlocks(baseK: nat, t: Tables, x: nat)
    requires AllStripesOk(baseK, t) && x in t.stripes
    ensures t.stripes[x].k <= |t.stripes[x].blocks|
  {
    hide BlockOk;
    assert StripeOk(baseK, t, x);
  }

  lemma NoneStored(pl: Plan, t: Tables)
    requires Setting(pl.bt, pl.o, t) && t.stripes == map[]
    ensures StoredSoFar(pl, t, 0)
  {
    hide Setting, InPlace;
  }

  lemma AllStored(pl: Plan, t: Tables, batches: nat)
    requires StoredSoFar(pl, t, Offset(Pow2(|pl.bt.share|), batches))
    ensures AtLevel(pl, t, batches, 0)
  {
    hide Setting, InPlace, Offset;
    var count := Offset(Pow2(|pl.bt.share|), batches);
    forall j: nat | j < count
      ensures Offset(1, j) in t.stripes
    {
      OffsetIs(1, j);
    }
    forall x | x in t.stripes
      ensures MultipleIn(x, 1, 0, count)
    {
      OffsetIs(1, x);
    }
  }

  /** Data for every stripe. */
  ghost predicate Blocks(datas: seq<Matrix>, k: nat, len: nat) {
    forall i :: 0 <= i < |datas| ==> IsMatrix(datas[i], k, len)
  }

  /** The union-find forest knows the tail classes. */
  ghost predicate RootsKnown(bt: Batch, parent: seq<nat>) {
    |parent| == Pow2(|bt.share|) * bt.z && Forest(parent) &&
    forall p: nat, g: nat :: p < Pow2(|bt.share|) && g < bt.z ==> RootKnown(bt, parent, p, g)
  }

  /** What the coordinator needs: a layout in which every position can be placed, and its union-find forest. */
  ghost predicate LayoutKnown(bt: Batch, parent: seq<nat>) {
    BatchOk(bt) && RootsKnown(bt, parent)
  }

  ghost predicate RootKnown(bt: Batch, parent: seq<nat>, p: nat, g: nat)
    requires Forest(parent)
  {
    p < Pow2(|bt.share|) && Elem(bt.z, p, g) < |parent| && Root(parent, Elem(bt.z, p, g)) == Elem(bt.z, Rep(bt.share, |bt.share|, p), g)
  }

  lemma StillKnown(bt: Batch, parent: seq<nat>, parent': seq<nat>)
    requires RootsKnown(bt, parent) && SameRoots(parent', parent)
    ensures RootsKnown(bt, parent')
  {
    hide BatchOk, Root, Elem, Rep;
    forall p: nat, g: nat | p < Pow2(|bt.share|) && g < bt.z
      ensures RootKnown(bt, parent', p, g)
    {
      assert RootKnown(bt, parent, p, g);
    }
  }

  /** The slots of a stripe: with sharing levels first and enough racks there always are some. */
  method SlotsFor(l: Layout, parent: array<nat>, share: seq<bool>, z: nat, b: nat, cap: nat, pos: nat,
                  ghost bt: Batch) returns (slots: seq<Slot>)
    requires LayoutKnown(bt, parent[..]) && bt == Batch(l, share, z, b, cap) && pos < Pow2(|share|)
    modifies parent
    ensures LayoutKnown(bt, parent[..])
    ensures |slots| == DataBlocks(bt) && forall i: nat :: i < |slots| ==> slots[i] == SlotIn(bt, pos, i)
  {
    hide LayoutFor, SlotOf, Root, Elem, Rep, Racks, Offset, SharingFirst, Dictated;
    forall p: nat, g: nat | p < Pow2(|share|) && g < z
      ensures Elem(z, p, g) < parent.Length && Root(parent[..], Elem(z, p, g)) == Elem(z, Rep(share, |share|, p), g)
    {
      assert RootKnown(bt, parent[..], p, g);
    }
    SharingFirstPlaceable(share, b, cap, pos);
    ghost var before := parent[..];
    var result := PlaceStripe(l, parent, share, z, b, cap, pos, RACKS);
    StillKnown(bt, before, parent[..]);
    slots := result.slots;
  }

  /** What the placement needs of the plan. */
  ghost predicate Storable(c: Coordinator, pl: Plan)
    reads c
  {
    c.baseK == DataBlocks(pl.bt) && pl.bt.cap >= 2 && pl.bt.cap - 1 + pl.bt.z <= pl.o.width && |pl.bt.share| <= MAX_LEVEL
  }

  /** Exactly the given stripes are stored. */
  ghost predicate Stored(c: Coordinator, pl: Plan, datas: seq<Matrix>)
    reads c
  {
    c.Valid() && c.nextStripe == |datas| && StoredSoFar(pl, c.Now(), |datas|) && Holding(c.Now(), c.written, datas)
  }

  lemma StoredSetting(c: Coordinator, pl: Plan, datas: seq<Matrix>)
    requires Stored(c, pl, datas)
    ensures Setting(pl.bt, pl.o, c.Now()) && c.Valid() && c.nextStripe == |datas|
  {
    hide Setting, c.Valid;
  }

  /** The stripe at a position of a batch, before it has blocks. */
  ghost predicate FreshStripe(c: Coordinator, pl: Plan, s: Stripe, sid: nat)
    requires ArraysOk(pl.o)
  {
    s.batch == Run(Pow2(|pl.bt.share|), sid) && s.pos == Within(Pow2(|pl.bt.share|), sid) < Pow2(|pl.bt.share|) &&
    s.k == c.baseK && s.rounds == |pl.bt.share| && s.overlaps == pl.overlaps && s.oaRow == RowsOf(pl.o, s.batch).1
  }

  /** The next stripe: its batch and position follow from its number. */
  method NextStripe(c: Coordinator, pl: Plan, parent: array<nat>, sid: nat) returns (s: Stripe, spots: seq<Spot>)
    requires c.Valid() && Setting(pl.bt, pl.o, c.Now()) && ArraysOk(pl.o)
    requires Storable(c, pl) && LayoutKnown(pl.bt, parent[..])
    modifies parent
    ensures LayoutKnown(pl.bt, parent[..])
    ensures FreshStripe(c, pl, s, sid) && Unmerged(c.baseK, s) && SpotsOk(c.Now(), s, spots) && InRuns(s, spots)
    ensures s.pos < Pow2(|pl.bt.share|) && SpotsFor(pl.bt, pl.o, c.Now(), s.batch, s.pos, s, spots)
  {
    hide Setting, LayoutKnown, SpotsFor, SpotsOk, InRuns, SlotIn, DataBlocks, c.Valid, ArraysOk, RowsOf;
    var size := Pow2(|pl.bt.share|);
    SettingParts(pl.bt, pl.o, c.Now());
    ValidSane(c);
    RunIs(size, sid);
    var batch, pos := Run(size, sid), Within(size, sid);
    BatchBasics(pl.bt);
    SizePositive(pl.bt);
    var slots := SlotsFor(pl.bt.layout, parent, pl.bt.share, pl.bt.z, pl.bt.b, pl.bt.cap, pos, pl.bt);
    s := Stripe(c.baseK, pl.bt.cap - 1, pl.bt.z, |pl.bt.share|, batch, pos, pl.overlaps, RowsOf(pl.o, batch).1,
                [], map[], {});
    spots := MakeSpots(pl.bt, pl.o, c.Now(), NodesOf(c.Now()), batch, pos, s, slots);
    SaneRacks(c.baseK, c.Now());
    SpotsForOk(pl.bt, pl.o, c.Now(), batch, pos, s, spots);
    SpotsInRuns(pl.bt, pl.o, c.Now(), batch, pos, s, spots);
  }

  /** Stores the next stripe. */
  method StoreOne(c: Coordinator, pl: Plan, parent: array<nat>, data: Matrix, ghost datas: seq<Matrix>)
    requires Stored(c, pl, datas) && Storable(c, pl) && LayoutKnown(pl.bt, parent[..])
    requires IsMatrix(data, c.baseK, c.blockSize)
    modifies c, parent
    ensures Stored(c, pl, datas + [data]) && Storable(c, pl) && LayoutKnown(pl.bt, parent[..])
  {
    hide Setting, LayoutKnown, SpotsFor, SpotsOk, InRuns, Added, DataBlocks, c.Valid, SameMachines, AllStripesOk,
         Allocated, DataWritten, InPlace, IsMatrix, ArraysOk, AllOnRows, RowsOf, Holding, Run, Within, Pow2, Unmerged;
    ghost var t, base, written := c.Now(), c.nextBlock, c.written;
    StoredSetting(c, pl, datas);
    SettingParts(pl.bt, pl.o, t);
    ValidParts(c);
    var sid := c.nextStripe;
    var s, spots := NextStripe(c, pl, parent, sid);
    var number := SetStripe(c, s, spots, data);
    OneMoreStored(c.baseK, pl, t, c.Now(), sid, base, s, spots);
    OneMoreHolding(c.baseK, t, c.Now(), base, s, spots, written, datas, data, c.blockSize);
  }

  /**
   * Stores full batches one stripe after the other, from an empty system: every
   * stripe holds its data, where the layout and the rows of its batch put it.
   */
  method StoreBatches(c: Coordinator, pl: Plan, parent: array<nat>, batches: nat, datas: seq<Matrix>)
    requires c.Valid() && c.stripes == map[] && c.nextStripe == 0 && Setting(pl.bt, pl.o, c.Now())
    requires LayoutKnown(pl.bt, parent[..])
    requires c.baseK == DataBlocks(pl.bt) && pl.bt.cap >= 2 && pl.bt.cap - 1 + pl.bt.z <= pl.o.width
    requires |pl.bt.share| <= MAX_LEVEL
    requires |datas| == Offset(Pow2(|pl.bt.share|), batches) && Blocks(datas, c.baseK, c.blockSize)
    modifies c, parent
    ensures c.Valid() && AtLevel(pl, c.Now(), batches, 0) && c.baseK == DataBlocks(pl.bt)
    ensures ArraysOk(pl.o) && AllOnRows(pl, c.Now()) && Holding(c.Now(), c.written, datas)
  {
    hide Setting, LayoutKnown, AtLevel, DataBlocks, c.Valid, Offset, InPlace, IsMatrix, ArraysOk, AllOnRows, Holding;
    SettingParts(pl.bt, pl.o, c.Now());
    NoneStored(pl, c.Now());
    NothingHeld(c.Now(), c.written);
    assert datas[..0] == [];
    for sid := 0 to |datas|
      invariant Stored(c, pl, datas[..sid]) && Storable(c, pl) && LayoutKnown(pl.bt, parent[..])
    {
      StoreOne(c, pl, parent, datas[sid], datas[..sid]);
      assert datas[..sid] + [datas[sid]] == datas[..sid + 1];
    }
    assert datas[..|datas|] == datas;
    AllStored(pl, c.Now(), batches);
  }

  lemma SaneRacks(baseK: nat, t: Tables)
    requires Sane(baseK, t)
    ensures RacksOk(t)
  {
  }

  /**
   * A whole life: full batches are stored and then merged round by round, until
   * a step fails.  Without failures every batch becomes one stripe; in any case
   * all blocks stay readable, no data block ever moves, and the data of all
   * stripes in order is what was stored.
   */
  method StoreAndMerge(c: Coordinator, pl: Plan, parent: array<nat>, batches: nat, datas: seq<Matrix>,
                       envs: (nat, nat) -> Environment)
      returns (done: bool, ghost placed: Tables, ghost last: nat, ghost merged: nat)
    requires c.Valid() && c.stripes == map[] && c.nextStripe == 0 && Setting(pl.bt, pl.o, c.Now())
    requires LayoutKnown(pl.bt, parent[..])
    requires c.baseK == DataBlocks(pl.bt) && pl.bt.cap >= 2 && pl.bt.cap - 1 + pl.bt.z <= pl.o.width
    requires |pl.bt.share| <= MAX_LEVEL
    requires |datas| == Offset(Pow2(|pl.bt.share|), batches) && Blocks(datas, c.baseK, c.blockSize) && batches > 0
    requires forall q, p :: Possible(envs(q, p))
    modifies c, parent
    ensures c.Valid() && AtLevel(pl, placed, batches, 0) && SamePlaces(placed, c.Now())
    ensures DataInOrder(c.Now(), c.written, |datas|) == Joined(datas)
    ensures done ==> AtLevel(pl, c.Now(), batches, |pl.bt.share|)
    ensures !done ==>
      0 < last <= |pl.bt.share| && PartlyMerged(pl, c.Now(), batches, last, merged) && !FailureFree(envs(last, merged))
  {
    hide Setting, LayoutKnown, AtLevel, SamePlaces, DataBlocks, c.Valid, Offset, PartlyMerged, AllOnRows, ArraysOk,
         DataInOrder, Holding, Joined;
    StoreBatches(c, pl, parent, batches, datas);
    placed := c.Now();
    HoldingInOrder(placed, c.written, datas);
    done, last, merged := RunRounds(c, envs, pl, batches, |pl.bt.share|);
  }
}

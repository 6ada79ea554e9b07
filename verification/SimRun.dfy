/**
 * Whole stages and whole runs of the simulation: the phases a run goes
 * through, and what every stage costs.
 */
module SimRun {
  import opened SimClusters
  import opened SimSums
  import opened SimState
  import opened SimRelabel
  import opened SimMove
  import opened SimNames
  import opened SimBatch
  import opened SimProgress
  import opened SimStages
  import opened Arithmetic

  /**
   * A phase of the run: x stripes with `sum` blocks per group in data clusters
   * and `lam` loose ones.  Either nothing is ever loose; or the original
   * remainders are still loose; or g blocks per group and stripe are.
   */
  datatype Phase = Phase(x: nat, sum: nat, lam: nat)

  ghost predicate PhaseOk(su: Setup, ph: Phase) {
    if su.loose == 0 then ph.lam == 0 && ph.sum % (su.g + 1) == 0
    else ph.lam == su.g || (ph.lam == su.loose && ph.sum % (su.g + 1) == 0)
  }

  /** Merging xi stripes at a time is possible: all loose data of a batch makes g blocks, or g are loose per stripe. */
  ghost predicate StageFits(su: Setup, ph: Phase, xi: nat) {
    xi >= 1 && ph.x % xi == 0 && (xi == 1 || su.loose == 0 || ph.lam == su.g || xi * ph.lam == su.g)
  }

  /** Loose blocks per group that a batch has to move. */
  function Quota(su: Setup, ph: Phase, xi: nat): nat
    requires xi >= 1
  {
    if su.loose > 0 && ph.lam == su.g then (xi - 1) * su.g else 0
  }

  function NextPhase(su: Setup, ph: Phase, xi: nat): Phase
    requires xi >= 1 && Quota(su, ph, xi) <= xi * ph.lam
  {
    if xi == 1 then ph
    else Phase(ph.x / xi, xi * ph.sum + Quota(su, ph, xi), xi * ph.lam - Quota(su, ph, xi))
  }

  lemma QuotaBound(su: Setup, ph: Phase, xi: nat)
    requires xi >= 1
    ensures Quota(su, ph, xi) <= xi * ph.lam
  {
    if su.loose > 0 && ph.lam == su.g {
      OneMoreTime(xi, su.g);
    }
  }

  lemma NextOk(su: Setup, ph: Phase, xi: nat)
    requires PhaseOk(su, ph) && StageFits(su, ph, xi) && Quota(su, ph, xi) <= xi * ph.lam
    ensures PhaseOk(su, NextPhase(su, ph, xi))
    ensures xi > 1 && su.loose > 0 ==> NextPhase(su, ph, xi).lam == su.g
    ensures NextPhase(su, ph, xi).sum + NextPhase(su, ph, xi).lam == xi * (ph.sum + ph.lam)
  {
    OneMoreTime(xi, su.g);
    assert xi * (ph.sum + ph.lam) == xi * ph.sum + xi * ph.lam;
    if su.loose == 0 {
      Multiples(xi, ph.sum, su.g + 1);
    }
  }

  lemma Multiples(n: nat, a: nat, d: nat)
    requires d > 0 && a % d == 0
    ensures (n * a) % d == 0
  {
    var q := a / d;
    assert a == d * q;
    assert n * a == d * (n * q);
    ExactMultiple(d, n * q);
  }

  lemma ExactMultiple(d: nat, q: nat)
    requires d > 0
    ensures (d * q) % d == 0
  {
    Commute(d, q);
    Split(q, d, 0, d * q);
  }

  // ---- The state between batches ----

  /** x stripes, numbered from 0, all alike. */
  ghost predicate AllAlike(su: Setup, cl: seq<Cluster>, rows: Rows, places: seq<set<nat>>, ph: Phase) {
    World(su, cl, rows) && |places| == ph.x && (forall o: nat :: o in rows <==> o < ph.x) &&
    (forall o: nat :: o < ph.x ==> StripeIs(su, cl, rows, o, ph.sum, ph.lam, places[o])) &&
    Shared(su, cl, ph.x * ph.lam)
  }

  ghost predicate StripeIs(su: Setup, cl: seq<Cluster>, rows: Rows, o: nat, sum: nat, lam: nat, place: set<nat>) {
    o in rows && Uniform(su, rows[o], sum, lam) && rows[o].place == place && RowTight(su, cl, rows[o])
  }

  /** Every group's parity cluster holds that much data. */
  ghost predicate Shared(su: Setup, cl: seq<Cluster>, numData: int) {
    |su.lids| == su.l && forall i :: 0 <= i < su.l ==> su.lids[i] < |cl| && cl[su.lids[i]].numData == numData
  }

  /** After t batches: t merged stripes, and the old ones from t * xi on. */
  ghost predicate Partway(su: Setup, cl: seq<Cluster>, rows: Rows, places: seq<set<nat>>, merged: seq<set<nat>>,
                          ph: Phase, xi: nat, t: nat) {
    World(su, cl, rows) && |places| == ph.x && |merged| == t && xi > 1 && t * xi <= ph.x &&
    (forall o: nat :: o in rows <==> o < t || t * xi <= o < ph.x) &&
    (forall o: nat :: t * xi <= o < ph.x ==> StripeIs(su, cl, rows, o, ph.sum, ph.lam, places[o])) &&
    (forall o: nat :: o < t ==> MergedIs(su, cl, rows, o, ph, xi, merged[o])) &&
    Shared(su, cl, ph.x * ph.lam - t * Quota(su, ph, xi))
  }

  ghost predicate MergedIs(su: Setup, cl: seq<Cluster>, rows: Rows, o: nat, ph: Phase, xi: nat, place: set<nat>) {
    xi >= 1 && Quota(su, ph, xi) <= xi * ph.lam &&
    StripeIs(su, cl, rows, o, xi * ph.sum + Quota(su, ph, xi), xi * ph.lam - Quota(su, ph, xi), place)
  }

  function BatchFigures(su: Setup, ph: Phase, xi: nat, t: nat): Figures
    requires xi >= 1
  {
    Figures(xi, ph.sum, ph.lam, Quota(su, ph, xi), ph.x * ph.lam - t * Quota(su, ph, xi))
  }

  /** The shared clusters are overfull in every batch if g blocks are loose per stripe, and in none otherwise. */
  lemma SharedAmount(su: Setup, ph: Phase, xi: nat, t: nat, batches: nat)
    requires PhaseOk(su, ph) && StageFits(su, ph, xi) && xi > 1 && ph.x == batches * xi && t < batches
    requires su.loose <= su.g
    ensures FiguresOk(su, BatchFigures(su, ph, xi, t)) && Moderate(su, BatchFigures(su, ph, xi, t), batches)
    ensures SharedCost(su, BatchFigures(su, ph, xi, t).numData, batches) == if su.loose > 0 then su.g else 0
  {
    QuotaBound(su, ph, xi);
    var q := Quota(su, ph, xi);
    if su.loose == 0 {
    } else if ph.lam == su.g {
      StillOverfull(batches, xi, t, su.g);
    } else {
      assert batches * xi * ph.lam == batches * (xi * ph.lam);
      ExactQuotient(batches, su.g);
    }
  }

  lemma ExactQuotient(b: nat, g: nat)
    requires b > 0
    ensures (b * g) / b == g
  {
    Commute(b, g);
    Split(g, b, 0, b * g);
  }

  /** Before the last batch is done there are more than g loose blocks per batch. */
  lemma StillOverfull(b: nat, xi: nat, t: nat, g: nat)
    requires xi > 1 && t < b && g > 0
    ensures b * xi * g - t * ((xi - 1) * g) > g * b
  {
    assert b * xi == b + b * (xi - 1);
    assert b * (xi - 1) == t * (xi - 1) + (b - t) * (xi - 1);
    var rest := (b - t) * (xi - 1);
    PositiveProduct(b - t, xi - 1);
    assert b * xi * g == b * g + t * (xi - 1) * g + rest * g;
    PositiveProduct(rest, g);
  }

  // ---- One stage ----

  lemma StageBegins(su: Setup, cl: seq<Cluster>, rows: Rows, places: seq<set<nat>>, ph: Phase, xi: nat)
    requires AllAlike(su, cl, rows, places, ph) && xi > 1
    ensures Partway(su, cl, rows, places, [], ph, xi, 0)
  {
    hide World, StripeIs, Shared;
  }

  /** The next batch is ready. */
  lemma BatchBegins(su: Setup, cl: seq<Cluster>, rows: Rows, places: seq<set<nat>>, merged: seq<set<nat>>, ph: Phase,
                    xi: nat, t: nat, batches: nat)
    requires Partway(su, cl, rows, places, merged, ph, xi, t) && ph.x == batches * xi && t < batches
    ensures BatchReady(su, cl, rows, t * xi, (t + 1) * xi, t, BatchFigures(su, ph, xi, t))
    ensures t * xi < (t + 1) * xi <= |places| && forall o: nat :: t * xi <= o < (t + 1) * xi ==>
      o in rows && places[o] == rows[o].place
  {
    hide World, Uniform, RowTight;
    BatchRange(t, xi, batches);
    forall o: nat | t * xi <= o < (t + 1) * xi
      ensures o in rows && Uniform(su, rows[o], ph.sum, ph.lam) && RowTight(su, cl, rows[o])
      ensures places[o] == rows[o].place
    {
      assert StripeIs(su, cl, rows, o, ph.sum, ph.lam, places[o]);
    }
  }

  lemma BatchRange(t: nat, xi: nat, batches: nat)
    requires xi > 1 && t < batches
    ensures t * xi < (t + 1) * xi <= batches * xi && t <= t * xi && (t + 1) * xi == t * xi + xi
    ensures (t == 0 || t < t * xi)
  {
    assert (t + 1) * xi == t * xi + xi;
    assert batches * xi == (t + 1) * xi + (batches - t - 1) * xi;
    NonNegativeProduct(batches - t - 1, xi);
    assert t * xi == t + t * (xi - 1);
    if t > 0 {
      PositiveProduct(t, xi - 1);
    }
  }

  /** After the batch one more stripe is merged. */
  lemma BatchEnds(su: Setup, cl: seq<Cluster>, cl': seq<Cluster>, rows: Rows, rows': Rows, places: seq<set<nat>>,
                  merged: seq<set<nat>>,
                  ph: Phase, xi: nat, t: nat, batches: nat)
    requires Partway(su, cl, rows, places, merged, ph, xi, t) && ph.x == batches * xi && t < batches
    requires World(su, cl', rows') && t in rows' && rows' == MergedRows(rows, t * xi, (t + 1) * xi, t, rows'[t])
    requires Quota(su, ph, xi) <= xi * ph.lam
    requires Uniform(su, rows'[t], xi * ph.sum + Quota(su, ph, xi), xi * ph.lam - Quota(su, ph, xi))
    requires RowTight(su, cl', rows'[t])
    requires forall o :: o in rows && !(t * xi <= o < (t + 1) * xi) && RowTight(su, cl, rows[o]) ==>
      RowTight(su, cl', rows[o])
    requires Shared(su, cl', ph.x * ph.lam - t * Quota(su, ph, xi) - Quota(su, ph, xi))
    ensures Partway(su, cl', rows', places, merged + [rows'[t].place], ph, xi, t + 1)
  {
    hide World, Uniform, RowTight, Shared, Quota;
    BatchRange(t, xi, batches);
    OneMoreTime(t + 1, Quota(su, ph, xi));
    forall o: nat | (t + 1) * xi <= o < ph.x
      ensures StripeIs(su, cl', rows', o, ph.sum, ph.lam, places[o])
    {
      assert StripeIs(su, cl, rows, o, ph.sum, ph.lam, places[o]);
    }
    forall o: nat | o < t + 1
      ensures MergedIs(su, cl', rows', o, ph, xi, (merged + [rows'[t].place])[o])
    {
      if o < t {
        assert MergedIs(su, cl, rows, o, ph, xi, merged[o]);
      }
    }
  }

  /** After the last batch all stripes are alike again. */
  lemma StageEnds(su: Setup, cl: seq<Cluster>, rows: Rows, places: seq<set<nat>>, merged: seq<set<nat>>, ph: Phase,
                  xi: nat, batches: nat)
    requires Partway(su, cl, rows, places, merged, ph, xi, batches) && ph.x == batches * xi && PhaseOk(su, ph)
    requires StageFits(su, ph, xi)
    requires su.loose <= su.g
    ensures Quota(su, ph, xi) <= xi * ph.lam && AllAlike(su, cl, rows, merged, NextPhase(su, ph, xi))
  {
    hide World, StripeIs, Shared, PhaseOk;
    QuotaBound(su, ph, xi);
    assert ph.x / xi == batches by { Split(batches, xi, 0, ph.x); }
    SharedAfter(su, ph, xi, batches);
    forall o: nat | o < batches
      ensures StripeIs(su, cl, rows, o, NextPhase(su, ph, xi).sum, NextPhase(su, ph, xi).lam, merged[o])
    {
      assert MergedIs(su, cl, rows, o, ph, xi, merged[o]);
    }
  }

  lemma SharedAfter(su: Setup, ph: Phase, xi: nat, batches: nat)
    requires ph.x == batches * xi && xi >= 1 && Quota(su, ph, xi) <= xi * ph.lam
    ensures ph.x * ph.lam - batches * Quota(su, ph, xi) == batches * (xi * ph.lam - Quota(su, ph, xi))
  {
    var a, b := xi * ph.lam, Quota(su, ph, xi);
    assert batches * xi * ph.lam == batches * a;
    assert batches * (a - b) == batches * a - batches * b;
  }

  /** What a stage costs. */
  function StageCost(su: Setup, cauchy: bool, ph: Phase, xi: nat): Cost
    requires xi >= 1
  {
    if xi == 1 then Cost(0, 0, 0)
    else
      var batches := ph.x / xi;
      Cost(batches * (if cauchy && su.loose > 0 then su.l else 0),
           batches * (su.l * Quota(su, ph, xi)),
           batches * (su.l * (xi * GroupCost(su, ph.sum)) + su.l * (if su.loose > 0 then su.g else 0)))
  }

  // ---- A whole run ----

  /** The phase after n stages. */
  function PhaseAt(su: Setup, ph: Phase, stages: seq<nat>, n: nat): Phase
    requires n <= |stages| && forall i :: 0 <= i < |stages| ==> stages[i] >= 1
  {
    if n == 0 then ph
    else
      var before := PhaseAt(su, ph, stages, n - 1);
      QuotaBound(su, before, stages[n - 1]);
      NextPhase(su, before, stages[n - 1])
  }

  /** Every stage is possible in its phase. */
  ghost predicate RunFits(su: Setup, ph: Phase, stages: seq<nat>) {
    (forall i :: 0 <= i < |stages| ==> stages[i] >= 1) &&
    forall n: nat :: n < |stages| ==> StageFitsAt(su, ph, stages, n)
  }

  ghost predicate StageFitsAt(su: Setup, ph: Phase, stages: seq<nat>, n: nat)
    requires n < |stages| && forall i :: 0 <= i < |stages| ==> stages[i] >= 1
  {
    StageFits(su, PhaseAt(su, ph, stages, n), stages[n])
  }

  /** The costs of the first n stages. */
  ghost predicate CostsAre(su: Setup, cauchy: bool, ph: Phase, stages: seq<nat>, n: nat, lc: seq<int>, dc: seq<int>,
                           gc: seq<int>)
    requires n <= |stages| && forall i :: 0 <= i < |stages| ==> stages[i] >= 1
  {
    |lc| == |dc| == |gc| == n &&
    forall i :: 0 <= i < n ==> Cost(lc[i], dc[i], gc[i]) == StageCost(su, cauchy, PhaseAt(su, ph, stages, i), stages[i])
  }

  // ---- Names ----

  /** The product of the first n stages: how many original stripes make one. */
  function Times(stages: seq<nat>, n: nat): nat
    requires n <= |stages|
  {
    if n == 0 then 1 else Times(stages, n - 1) * stages[n - 1]
  }

  lemma AlikeApart(su: Setup, cl: seq<Cluster>, rows: Rows, places: seq<set<nat>>, ph: Phase, width: nat, b: nat)
    requires AllAlike(su, cl, rows, places, ph) && AllNamed(su, cl, ph.x, width, b)
    ensures ParitiesApart(cl)
  {
    hide World, StripeIs, Shared, AllNamed, ParitiesApart;
    NamesApart(su, cl, rows, ph.x, width, b);
  }

  lemma NamesBegin(su: Setup, cl: seq<Cluster>, x: nat, width: nat, b: nat, xi: nat)
    requires AllNamed(su, cl, x, width, b)
    ensures PartlyNamed(su, cl, x, width, b, xi, 0)
  {
    hide StripeNamed;
  }

  lemma NamesEnd(su: Setup, cl: seq<Cluster>, x: nat, width: nat, b: nat, xi: nat, batches: nat)
    requires PartlyNamed(su, cl, x, width, b, xi, batches)
    ensures AllNamed(su, cl, batches, width * xi, b)
  {
    hide StripeNamed;
  }

  class Simulation {
    const merging: Merging
    /** The number of stripes left. */
    var x: nat
    /** Local parity, data relocation and global parity costs of the stages so far. */
    var lc: seq<int>
    var dc: seq<int>
    var gc: seq<int>

    constructor (merging: Merging, x: nat)
      ensures this.merging == merging && this.x == x && lc == [] && dc == [] && gc == []
    {
      this.merging, this.x := merging, x;
      lc, dc, gc := [], [], [];
    }

    /**
     * One stage of `stripe_merging`: every xi stripes become one.  With the blocks named after
     * their stripes before, they are named after the merged stripes, of `width` original ones.
     */
    method Stage(xi: nat, ghost rows0: Rows, ghost ph: Phase, ghost width: nat, ghost b: nat)
        returns (ghost rows: Rows)
      requires AllAlike(merging.su, merging.clusters, rows0, merging.places, ph) && ph.x == x
      requires PhaseOk(merging.su, ph) && StageFits(merging.su, ph, xi) && merging.su.loose <= merging.su.g
      modifies this, merging
      ensures Quota(merging.su, ph, xi) <= xi * ph.lam && x == NextPhase(merging.su, ph, xi).x
      ensures AllAlike(merging.su, merging.clusters, rows, merging.places, NextPhase(merging.su, ph, xi))
      ensures AllData(merging.clusters) == AllData(old(merging.clusters))
      ensures old(AllNamed(merging.su, merging.clusters, x, width, b)) ==>
        AllNamed(merging.su, merging.clusters, x, width * xi, b) && ParitiesApart(merging.clusters)
      ensures lc == old(lc) + [StageCost(merging.su, merging.cauchy, ph, xi).lc]
      ensures dc == old(dc) + [StageCost(merging.su, merging.cauchy, ph, xi).dc]
      ensures gc == old(gc) + [StageCost(merging.su, merging.cauchy, ph, xi).gc]
    {
      hide AllAlike, Partway, PhaseOk, AllData, Quota, World, Uniform, RowTight, GroupCost, Shared, AllNamed,
           ParitiesApart;
      var su := merging.su;
      QuotaBound(su, ph, xi);
      rows := rows0;
      ghost var named := AllNamed(su, merging.clusters, x, width, b);
      var stageLc, stageDc, stageGc := 0, 0, 0;
      if xi != 1 {
        var newPlaces;
        stageLc, stageDc, stageGc, newPlaces, rows := Batches(xi, rows0, ph, width, b);
        merging.places := newPlaces;
        x := x / xi;
      }
      if named {
        AlikeApart(su, merging.clusters, rows, merging.places, NextPhase(su, ph, xi), width * xi, b);
      }
      lc, dc, gc := lc + [stageLc], dc + [stageDc], gc + [stageGc];
    }

    /** `stripe_merging`: all stages. */
    method StripeMerging(stages: seq<nat>, ghost rows0: Rows, ghost ph: Phase, ghost b: nat)
        returns (ghost rows: Rows)
      requires AllAlike(merging.su, merging.clusters, rows0, merging.places, ph) && ph.x == x && lc == [] && dc == []
      requires gc == []
      requires PhaseOk(merging.su, ph) && RunFits(merging.su, ph, stages) && merging.su.loose <= merging.su.g
      modifies this, merging
      ensures AllAlike(merging.su, merging.clusters, rows, merging.places, PhaseAt(merging.su, ph, stages, |stages|))
      ensures x == PhaseAt(merging.su, ph, stages, |stages|).x
      ensures AllData(merging.clusters) == AllData(old(merging.clusters))
      ensures CostsAre(merging.su, merging.cauchy, ph, stages, |stages|, lc, dc, gc)
      ensures old(AllNamed(merging.su, merging.clusters, x, 1, b)) ==>
        AllNamed(merging.su, merging.clusters, x, Times(stages, |stages|), b) && ParitiesApart(merging.clusters)
    {
      hide AllAlike, PhaseOk, AllData, Quota, StageCost, NextPhase, StageFits, AllNamed, ParitiesApart;
      ghost var named := AllNamed(merging.su, merging.clusters, x, 1, b);
      rows := rows0;
      ghost var phase := ph;
      for n := 0 to |stages|
        invariant phase == PhaseAt(merging.su, ph, stages, n) && PhaseOk(merging.su, phase) && phase.x == x
        invariant AllAlike(merging.su, merging.clusters, rows, merging.places, phase)
        invariant AllData(merging.clusters) == AllData(old(merging.clusters))
        invariant CostsAre(merging.su, merging.cauchy, ph, stages, n, lc, dc, gc)
        invariant named ==> AllNamed(merging.su, merging.clusters, x, Times(stages, n), b)
      {
        assert StageFitsAt(merging.su, ph, stages, n);
        QuotaBound(merging.su, phase, stages[n]);
        NextOk(merging.su, phase, stages[n]);
        rows := Stage(stages[n], rows, phase, Times(stages, n), b);
        phase := NextPhase(merging.su, phase, stages[n]);
      }
      if named {
        AlikeApart(merging.su, merging.clusters, rows, merging.places, phase, Times(stages, |stages|), b);
      }
    }

    /** All batches of a stage. */
    method Batches(xi: nat, ghost rows0: Rows, ghost ph: Phase, ghost width: nat, ghost b: nat)
        returns (stageLc: int, stageDc: int, stageGc: int, newPlaces: seq<set<nat>>, ghost rows: Rows)
      requires AllAlike(merging.su, merging.clusters, rows0, merging.places, ph) && ph.x == x && xi > 1
      requires PhaseOk(merging.su, ph) && StageFits(merging.su, ph, xi) && merging.su.loose <= merging.su.g
      modifies merging`clusters
      ensures old(AllNamed(merging.su, merging.clusters, x, width, b)) ==>
        AllNamed(merging.su, merging.clusters, x / xi, width * xi, b)
      ensures Quota(merging.su, ph, xi) <= xi * ph.lam
      ensures AllAlike(merging.su, merging.clusters, rows, newPlaces, NextPhase(merging.su, ph, xi))
      ensures AllData(merging.clusters) == AllData(old(merging.clusters))
      ensures stageLc == StageCost(merging.su, merging.cauchy, ph, xi).lc
      ensures stageDc == StageCost(merging.su, merging.cauchy, ph, xi).dc
      ensures stageGc == StageCost(merging.su, merging.cauchy, ph, xi).gc
    {
      hide AllAlike, Partway, PhaseOk, AllData, Quota, World, Uniform, RowTight, GroupCost, Shared, FiguresOk, Moderate,
           BatchReady, SharedCost, AllNamed, PartlyNamed, BatchNamed;
      ghost var su := merging.su;
      ghost var named := AllNamed(su, merging.clusters, x, width, b);
      if named {
        NamesBegin(su, merging.clusters, x, width, b, xi);
      }
      QuotaBound(su, ph, xi);
      StageBegins(su, merging.clusters, rows0, merging.places, ph, xi);
      var batches := x / xi;
      assert x == batches * xi;
      ghost var each := Cost(if merging.cauchy && su.loose > 0 then su.l else 0, su.l * Quota(su, ph, xi),
                             su.l * (xi * GroupCost(su, ph.sum)) + su.l * (if su.loose > 0 then su.g else 0));
      stageLc, stageDc, stageGc, newPlaces, rows := 0, 0, 0, [], rows0;
      for t := 0 to batches
        invariant Partway(su, merging.clusters, rows, merging.places, newPlaces, ph, xi, t)
        invariant AllData(merging.clusters) == AllData(old(merging.clusters))
        invariant named ==> PartlyNamed(su, merging.clusters, x, width, b, xi, t)
        invariant stageLc == t * each.lc && stageDc == t * each.dc && stageGc == t * each.gc
      {
        BatchRange(t, xi, batches);
        BatchBegins(su, merging.clusters, rows, merging.places, newPlaces, ph, xi, t, batches);
        SharedAmount(su, ph, xi, t, batches);
        ghost var before, rowsBefore := merging.clusters, rows;
        var cost, place;
        cost, place, rows := merging.MergeBatch(rows, t * xi, (t + 1) * xi, t, batches, BatchFigures(su, ph, xi, t));
        SharedIs(su, merging.clusters, ph, xi, t);
        if named {
          BatchNames(su, before, merging.clusters, x, width, b, xi, t);
        }
        BatchEnds(su, before, merging.clusters, rowsBefore, rows, merging.places, newPlaces, ph, xi, t, batches);
        OneMoreTime(t + 1, each.lc);
        OneMoreTime(t + 1, each.dc);
        OneMoreTime(t + 1, each.gc);
        stageLc, stageDc, stageGc := stageLc + cost.lc, stageDc + cost.dc, stageGc + cost.gc;
        newPlaces := newPlaces + [place];
      }
      StageEnds(su, merging.clusters, rows, merging.places, newPlaces, ph, xi, batches);
      if named {
        NamesEnd(su, merging.clusters, x, width, b, xi, batches);
      }
    }
  }

  lemma SharedIs(su: Setup, cl: seq<Cluster>, ph: Phase, xi: nat, t: nat)
    requires xi >= 1 && |su.lids| == su.l
    requires forall i :: 0 <= i < su.l ==>
      su.lids[i] < |cl| && cl[su.lids[i]].numData == BatchFigures(su, ph, xi, t).numData - BatchFigures(su, ph, xi, t).quota
    ensures Shared(su, cl, ph.x * ph.lam - t * Quota(su, ph, xi) - Quota(su, ph, xi))
  {
  }
}

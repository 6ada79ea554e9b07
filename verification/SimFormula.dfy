/**
 * The closed form of the merging costs, and when it agrees with the simulation.
 */
module SimFormula {
  import opened SimClusters
  import opened SimSums
  import opened SimState
  import opened SimRelabel
  import opened SimMove
  import opened SimNames
  import opened SimBatch
  import opened SimStages
  import opened SimRun
  import opened SimIds
  import opened SimPlacement
  import opened Arithmetic

  // ---- The closed form ----

  function Product(s: seq<nat>): nat {
    if s == [] then 1 else s[0] * Product(s[1..])
  }

  /** Data blocks per group after n stages. */
  function Width(b: nat, stages: seq<nat>, n: nat): nat
    requires n <= |stages|
  {
    if n == 0 then b else stages[n - 1] * Width(b, stages, n - 1)
  }

  /** What one batch of stage n costs, by formula; bi is the number of data blocks per group, m that of b modulo g+1. */
  function BatchFormula(cauchy: bool, l: nat, g: nat, m: nat, bi: nat, xi: nat, n: nat): Cost {
    Cost(if cauchy && m > 0 then l else 0,
         if m == 0 || n == 0 then 0 else (xi - 1) * g * l,
         if m == 0 then (bi / (g + 1)) * g * l * xi
         else if (g > m && n == 0) || (m == g && n == 1) then (bi / (g + 1)) * g * l * xi + g * l
         else (((bi + 1) / (g + 1) - 1) * g + (bi + 1) % (g + 1)) * l * xi + g * l)
  }

  function FormulaCost(cauchy: bool, l: nat, g: nat, b: nat, stages: seq<nat>, n: nat): Cost
    requires n < |stages| && stages[n] >= 1
  {
    if stages[n] == 1 then Cost(0, 0, 0)
    else
      var each := BatchFormula(cauchy, l, g, b % (g + 1), Width(b, stages, n), stages[n], n);
      var batches := Product(stages[n..]) / stages[n];
      Cost(batches * each.lc, batches * each.dc, batches * each.gc)
  }

  ghost predicate FormulasAre(cauchy: bool, l: nat, g: nat, b: nat, stages: seq<nat>, n: nat, lc: seq<int>,
                              dc: seq<int>, gc: seq<int>)
    requires n <= |stages| && forall i :: 0 <= i < |stages| ==> stages[i] >= 1
  {
    |lc| == |dc| == |gc| == n &&
    forall i :: 0 <= i < n ==> Cost(lc[i], dc[i], gc[i]) == FormulaCost(cauchy, l, g, b, stages, i)
  }

  /** `cal_cost_for_opt`: adds up the formula batch by batch and stage by stage. */
  method CalCostForOpt(cauchy: bool, k: nat, l: nat, g: nat, stages: seq<nat>)
      returns (lc: seq<int>, dc: seq<int>, gc: seq<int>)
    requires l > 0 && k % l == 0 && forall i :: 0 <= i < |stages| ==> stages[i] >= 1
    ensures FormulasAre(cauchy, l, g, k / l, stages, |stages|, lc, dc, gc)
  {
    hide BatchFormula, Product, Width, FormulaCost;
    WidthStart(k, l, stages);
    var m := (k / l) % (g + 1);
    var k', x' := k, Product(stages);
    lc, dc, gc := [], [], [];
    assert stages[0..] == stages;
    for n := 0 to |stages|
      invariant x' == Product(stages[n..]) && k' == l * Width(k / l, stages, n)
      invariant FormulasAre(cauchy, l, g, k / l, stages, n, lc, dc, gc)
    {
      var xi := stages[n];
      NextProduct(stages, n);
      WidthNext(k, l, stages, n, k');
      var cost := StageFormula(cauchy, l, g, m, k' / l, x', xi, n);
      FormulaCostIs(cauchy, l, g, k / l, stages, n, cost);
      x' := x' / xi;
      k' := k' * xi;
      lc, dc, gc := lc + [cost.lc], dc + [cost.dc], gc + [cost.gc];
    }
  }

  lemma WidthStart(k: nat, l: nat, stages: seq<nat>)
    requires l > 0 && k % l == 0
    ensures k == l * Width(k / l, stages, 0)
  {
  }

  /** The blocks of a stripe grow by the factor of the stage. */
  lemma WidthNext(k: nat, l: nat, stages: seq<nat>, n: nat, k': nat)
    requires l > 0 && n < |stages| && k' == l * Width(k / l, stages, n)
    ensures k' / l == Width(k / l, stages, n) && k' * stages[n] == l * Width(k / l, stages, n + 1)
  {
    var w := Width(k / l, stages, n);
    Commute(l, w);
    Split(w, l, 0, k');
    assert (l * w) * stages[n] == l * (stages[n] * w);
  }

  lemma FormulaCostIs(cauchy: bool, l: nat, g: nat, b: nat, stages: seq<nat>, n: nat, cost: Cost)
    requires n < |stages| && stages[n] >= 1
    requires stages[n] == 1 ==> cost == Cost(0, 0, 0)
    requires var each := BatchFormula(cauchy, l, g, b % (g + 1), Width(b, stages, n), stages[n], n);
      stages[n] > 1 ==> cost == Cost((Product(stages[n..]) / stages[n]) * each.lc,
                                     (Product(stages[n..]) / stages[n]) * each.dc,
                                     (Product(stages[n..]) / stages[n]) * each.gc)
    ensures cost == FormulaCost(cauchy, l, g, b, stages, n)
  {
    hide BatchFormula, Width, Product;
  }

  /** One stage of the formula. */
  method StageFormula(cauchy: bool, l: nat, g: nat, m: nat, bi: nat, x: nat, xi: nat, n: nat) returns (cost: Cost)
    requires xi >= 1 && x % xi == 0
    ensures xi == 1 ==> cost == Cost(0, 0, 0)
    ensures var each := BatchFormula(cauchy, l, g, m, bi, xi, n);
      xi > 1 ==> cost == Cost((x / xi) * each.lc, (x / xi) * each.dc, (x / xi) * each.gc)
  {
    var lc, dc, gc := 0, 0, 0;
    var s := 0;
    ghost var t := 0;
    ghost var each := BatchFormula(cauchy, l, g, m, bi, xi, n);
    while s < x && xi != 1
      invariant s == t * xi && s <= x
      invariant xi == 1 ==> t == 0
      invariant lc == t * each.lc && dc == t * each.dc && gc == t * each.gc
      decreases x - s
    {
      if m != 0 && n != 0 {
        dc := dc + (xi - 1) * g * l;
      }
      if m == 0 {
        gc := gc + (bi / (g + 1)) * g * l * xi;
      } else if (g > m && n == 0) || (m == g && n == 1) {
        gc := gc + (bi / (g + 1)) * g * l * xi + g * l;
      } else {
        gc := gc + (((bi + 1) / (g + 1) - 1) * g + (bi + 1) % (g + 1)) * l * xi + g * l;
      }
      if cauchy && m > 0 {
        lc := lc + l;
      }
      StepWithin(t, xi, x);
      OneMoreTime(t + 1, each.lc);
      OneMoreTime(t + 1, each.dc);
      OneMoreTime(t + 1, each.gc);
      s := s + xi;
      t := t + 1;
    }
    if xi > 1 {
      Split(t, xi, 0, x);
    }
    cost := Cost(lc, dc, gc);
  }

  /** Multiples of xi reach a multiple of xi. */
  lemma StepWithin(t: nat, xi: nat, x: nat)
    requires xi > 0 && x % xi == 0 && t * xi < x
    ensures (t + 1) * xi == t * xi + xi <= x
  {
    var q := x / xi;
    assert x == q * xi;
    Split(t, xi, 0, t * xi);
    InMultiple(t * xi, xi, q);
    assert q * xi == (t + 1) * xi + (q - t - 1) * xi;
    NonNegativeProduct(q - t - 1, xi);
  }

  lemma NextProduct(stages: seq<nat>, n: nat)
    requires n < |stages| && stages[n] >= 1
    ensures Product(stages[n..]) == stages[n] * Product(stages[n + 1..])
    ensures Product(stages[n..]) % stages[n] == 0 && Product(stages[n..]) / stages[n] == Product(stages[n + 1..])
  {
    assert stages[n..][0] == stages[n] && stages[n..][1..] == stages[n + 1..];
    Commute(stages[n], Product(stages[n + 1..]));
    Split(Product(stages[n + 1..]), stages[n], 0, Product(stages[n..]));
  }

  // ---- The phases of a run ----

  /** The parameter check before a run. */
  predicate CheckParameter(b: nat, g: nat, stages: seq<nat>) {
    var m := b % (g + 1);
    m == 0 || m == g || (g % m == 0 && |stages| > 0 && stages[0] == g / m)
  }

  /** What the formula needs: nothing loose, or the first stage makes exactly g loose blocks of the remainders. */
  predicate FormulaApplies(b: nat, g: nat, stages: seq<nat>) {
    var m := b % (g + 1);
    m == 0 || (|stages| > 0 && stages[0] * m == g)
  }

  /** The phase in which a run begins. */
  function StartPhase(b: nat, g: nat, stages: seq<nat>): Phase {
    Phase(Product(stages), (b / (g + 1)) * (g + 1), b % (g + 1))
  }

  ghost predicate RunFrom(su: Setup, b: nat, stages: seq<nat>) {
    su.loose == b % (su.g + 1) && CheckParameter(b, su.g, stages) && forall i :: 0 <= i < |stages| ==> stages[i] >= 1
  }

  /** Every phase of an accepted run: how many stripes and blocks, and g loose ones after the first stage. */
  lemma {:induction false} Phases(su: Setup, b: nat, stages: seq<nat>, n: nat)
    requires RunFrom(su, b, stages) && n <= |stages|
    ensures var ph := PhaseAt(su, StartPhase(b, su.g, stages), stages, n);
      PhaseOk(su, ph) && ph.x == Product(stages[n..]) && ph.sum + ph.lam == Width(b, stages, n) &&
      (n == 0 ==> ph.lam == su.loose && ph.sum % (su.g + 1) == 0) && (n > 0 && su.loose > 0 ==> ph.lam == su.g) &&
      (n < |stages| ==> StageFits(su, ph, stages[n]))
  {
    hide Product, Quota;
    var start := StartPhase(b, su.g, stages);
    if n == 0 {
      assert stages[0..] == stages;
      Split(b / (su.g + 1), su.g + 1, 0, start.sum);
      assert b == start.sum + b % (su.g + 1);
    } else {
      var before := PhaseAt(su, start, stages, n - 1);
      Phases(su, b, stages, n - 1);
      QuotaBound(su, before, stages[n - 1]);
      NextOk(su, before, stages[n - 1]);
      NextProduct(stages, n - 1);
      OneTime(Width(b, stages, n - 1), Product(stages[n..]));
      FirstStage(su, b, stages);
    }
    if n < |stages| {
      NextProduct(stages, n);
      FirstStage(su, b, stages);
    }
  }

  lemma OneTime(a: nat, p: nat)
    ensures 1 * a == a && 1 * p == p
  {
  }

  /** The first stage of an accepted run. */
  lemma FirstStage(su: Setup, b: nat, stages: seq<nat>)
    requires RunFrom(su, b, stages) && |stages| > 0
    ensures su.loose == 0 || su.loose == su.g || (stages[0] * su.loose == su.g && stages[0] > 1)
  {
    if su.loose > 0 && su.loose != su.g {
      var q := su.g / su.loose;
      assert su.g == q * su.loose;
    }
  }

  lemma AllFit(su: Setup, b: nat, stages: seq<nat>)
    requires RunFrom(su, b, stages)
    ensures RunFits(su, StartPhase(b, su.g, stages), stages) && PhaseOk(su, StartPhase(b, su.g, stages))
  {
    hide PhaseOk, StageFits, PhaseAt;
    var ph := StartPhase(b, su.g, stages);
    forall n: nat | n < |stages|
      ensures StageFitsAt(su, ph, stages, n)
    {
      Phases(su, b, stages, n);
    }
    Phases(su, b, stages, 0);
    assert PhaseAt(su, ph, stages, 0) == ph by { AtStart(su, ph, stages); }
  }

  lemma AtStart(su: Setup, ph: Phase, stages: seq<nat>)
    requires forall i :: 0 <= i < |stages| ==> stages[i] >= 1
    ensures PhaseAt(su, ph, stages, 0) == ph
  {
  }

  // ---- Formula and simulation ----

  /** The formulas for one group give what its tightly filled clusters cost. */
  lemma GroupFormula(su: Setup, ph: Phase, bi: nat)
    requires bi == ph.sum + ph.lam
    ensures ph.lam <= su.g && ph.sum % (su.g + 1) == 0 ==> (bi / (su.g + 1)) * su.g == GroupCost(su, ph.sum)
    ensures ph.lam == su.g ==> ((bi + 1) / (su.g + 1) - 1) * su.g + (bi + 1) % (su.g + 1) == GroupCost(su, ph.sum)
  {
    var q, r := ph.sum / (su.g + 1), ph.sum % (su.g + 1);
    assert ph.sum == q * (su.g + 1) + r;
    if ph.lam <= su.g && r == 0 {
      Split(q, su.g + 1, ph.lam, bi);
    }
    if ph.lam == su.g {
      OneMoreTime(q + 1, su.g + 1);
      Split(q + 1, su.g + 1, r, bi + 1);
    }
  }

  lemma Rearrange(a: int, l: int, xi: int, g: int)
    ensures a * l * xi == l * (xi * a) && g * l == l * g && (xi - 1) * g * l == l * ((xi - 1) * g)
  {
  }

  /** Where the formula applies, it gives the costs of every stage of the simulation. */
  lemma StageAgrees(su: Setup, cauchy: bool, b: nat, stages: seq<nat>, n: nat)
    requires RunFrom(su, b, stages) && n < |stages| && FormulaApplies(b, su.g, stages)
    ensures StageCost(su, cauchy, PhaseAt(su, StartPhase(b, su.g, stages), stages, n), stages[n])
         == FormulaCost(cauchy, su.l, su.g, b, stages, n)
  {
    hide Product, GroupCost, PhaseAt, Width, StartPhase;
    var ph, xi, bi := PhaseAt(su, StartPhase(b, su.g, stages), stages, n), stages[n], Width(b, stages, n);
    Phases(su, b, stages, n);
    if xi > 1 {
      GroupFormula(su, ph, bi);
      Rearrange(GroupCost(su, ph.sum), su.l, xi, su.g);
      assert n == 0 && su.loose > 0 ==> ph.lam != su.g by { NotAlreadyLoose(su, b, stages, n); }
      SecondStage(su, b, stages, n);
      BatchAgrees(su, cauchy, ph, bi, xi, n);
    }
  }

  lemma NotAlreadyLoose(su: Setup, b: nat, stages: seq<nat>, n: nat)
    requires RunFrom(su, b, stages) && n < |stages| && FormulaApplies(b, su.g, stages) && stages[n] > 1
    ensures n == 0 && su.loose > 0 ==> su.loose != su.g
  {
    if n == 0 && su.loose == su.g && su.loose > 0 {
      FactorOne(stages[0], su.g);
    }
  }

  /** If the original remainders are g blocks, the first stage does nothing. */
  lemma SecondStage(su: Setup, b: nat, stages: seq<nat>, n: nat)
    requires RunFrom(su, b, stages) && n < |stages| && FormulaApplies(b, su.g, stages)
    ensures n == 1 && su.loose == su.g ==> PhaseAt(su, StartPhase(b, su.g, stages), stages, n).sum % (su.g + 1) == 0
  {
    if n == 1 && su.loose == su.g {
      var start := StartPhase(b, su.g, stages);
      AtStart(su, start, stages);
      Phases(su, b, stages, 0);
      if su.g > 0 {
        FactorOne(stages[0], su.g);
      }
    }
  }

  lemma FactorOne(a: nat, g: nat)
    requires a * g == g && g > 0
    ensures a == 1
  {
    if a > 1 {
      OneMoreTime(a, g);
      PositiveProduct(a - 1, g);
    }
  }

  lemma BatchAgrees(su: Setup, cauchy: bool, ph: Phase, bi: nat, xi: nat, n: nat)
    requires PhaseOk(su, ph) && bi == ph.sum + ph.lam && su.loose <= su.g && xi > 1
    requires n == 0 ==> ph.lam == su.loose && ph.sum % (su.g + 1) == 0
    requires su.loose > 0 ==> (ph.lam == su.g <==> n > 0)
    requires n == 1 && su.loose == su.g ==> ph.sum % (su.g + 1) == 0
    ensures BatchFormula(cauchy, su.l, su.g, su.loose, bi, xi, n)
         == Cost(if cauchy && su.loose > 0 then su.l else 0, su.l * Quota(su, ph, xi),
                 su.l * (xi * GroupCost(su, ph.sum)) + su.l * (if su.loose > 0 then su.g else 0))
  {
    hide GroupCost;
    GroupFormula(su, ph, bi);
    Rearrange(GroupCost(su, ph.sum), su.l, xi, su.g);
  }

  /** Where it does not, it misses the relocations of the first stage. */
  lemma FirstStageDiffers(su: Setup, cauchy: bool, b: nat, stages: seq<nat>)
    requires RunFrom(su, b, stages) && |stages| > 0 && !FormulaApplies(b, su.g, stages)
    ensures StageCost(su, cauchy, PhaseAt(su, StartPhase(b, su.g, stages), stages, 0), stages[0]).dc
          > FormulaCost(cauchy, su.l, su.g, b, stages, 0).dc || su.l == 0
  {
    hide Product, GroupCost;
    var start := StartPhase(b, su.g, stages);
    AtStart(su, start, stages);
    FirstStage(su, b, stages);
    NextProduct(stages, 0);
    assert stages[0..] == stages;
    var batches := Product(stages[1..]);
    ProductPositive(stages[1..]);
    if su.l > 0 {
      NotOne(stages[0], su.g);
      PositiveProduct(stages[0] - 1, su.g);
      PositiveProduct(su.l, (stages[0] - 1) * su.g);
      PositiveProduct(batches, su.l * ((stages[0] - 1) * su.g));
    }
  }

  lemma NotOne(a: nat, g: nat)
    requires a >= 1 && a * g != g
    ensures a > 1
  {
  }

  lemma {:induction false} ProductPositive(s: seq<nat>)
    requires forall i :: 0 <= i < |s| ==> s[i] >= 1
    ensures Product(s) >= 1
  {
    if s != [] {
      ProductPositive(s[1..]);
      PositiveProduct(s[0], Product(s[1..]));
    }
  }

  /**
   * For an accepted run the formula predicts the costs of every stage exactly
   * if nothing is loose, or the first stage makes g blocks of the remainders.
   * The parameter check alone does not ensure that.
   */
  lemma FormulaExact(su: Setup, cauchy: bool, b: nat, stages: seq<nat>)
    requires RunFrom(su, b, stages) && |stages| > 0 && su.l > 0
    ensures FormulaApplies(b, su.g, stages) <==>
      (forall n: nat :: n < |stages| ==> AgreesAt(su, cauchy, b, stages, n))
  {
    hide StageCost, FormulaCost, FormulaApplies;
    if FormulaApplies(b, su.g, stages) {
      forall n: nat | n < |stages|
        ensures AgreesAt(su, cauchy, b, stages, n)
      {
        StageAgrees(su, cauchy, b, stages, n);
      }
    } else {
      FirstStageDiffers(su, cauchy, b, stages);
      assert !AgreesAt(su, cauchy, b, stages, 0);
    }
  }

  /**
   * The parameter check accepts two stripes of one data block each with g = 1,
   * merged at once: one block is loose, it is relocated, and the formula says that none is.
   */
  lemma CheckIsNotEnough(cauchy: bool, lids: seq<nat>, gid: nat)
    ensures var su := Setup(1, 1, 1, lids, gid);
      CheckParameter(1, 1, [2]) && RunFrom(su, 1, [2]) && !AgreesAt(su, cauchy, 1, [2], 0)
  {
    var su := Setup(1, 1, 1, lids, gid);
    assert Product([2]) == 2 by { assert [2][1..] == []; }
    assert [2][0..] == [2];
    FirstStageDiffers(su, cauchy, 1, [2]);
  }

  ghost predicate AgreesAt(su: Setup, cauchy: bool, b: nat, stages: seq<nat>, n: nat)
    requires n < |stages| && forall i :: 0 <= i < |stages| ==> stages[i] >= 1
  {
    StageCost(su, cauchy, PhaseAt(su, StartPhase(b, su.g, stages), stages, n), stages[n]) == FormulaCost(cauchy, su.l,
              su.g, b, stages, n)
  }

  lemma SameLists(su: Setup, cauchy: bool, b: nat, stages: seq<nat>, lc: seq<int>, dc: seq<int>, gc: seq<int>,
                  lc': seq<int>, dc': seq<int>, gc': seq<int>)
    requires forall i :: 0 <= i < |stages| ==> stages[i] >= 1
    requires CostsAre(su, cauchy, StartPhase(b, su.g, stages), stages, |stages|, lc, dc, gc)
    requires FormulasAre(cauchy, su.l, su.g, b, stages, |stages|, lc', dc', gc')
    ensures lc == lc' && dc == dc' && gc == gc' <==>
      forall n: nat :: n < |stages| ==> AgreesAt(su, cauchy, b, stages, n)
  {
    hide StageCost, FormulaCost, StartPhase;
    if forall n: nat :: n < |stages| ==> AgreesAt(su, cauchy, b, stages, n) {
      forall n: nat | n < |stages|
        ensures lc[n] == lc'[n] && dc[n] == dc'[n] && gc[n] == gc'[n]
      {
        assert AgreesAt(su, cauchy, b, stages, n);
      }
    }
  }

  /**
   * Places the stripes, merges them stage by stage, and computes the closed form:
   * the cost lists are equal exactly where the formula applies, no data block is
   * lost or doubled, and one wide stripe with all its data and its own parities is left.
   */
  method Compare(cauchy: bool, k: nat, l: nat, g: nat, stages: seq<nat>)
      returns (sim: Simulation, lc: seq<int>, dc: seq<int>, gc: seq<int>, ghost rows: Rows)
    requires l > 0 && k % l == 0 && |stages| > 0 && (forall i :: 0 <= i < |stages| ==> stages[i] >= 1)
    requires CheckParameter(k / l, g, stages)
    ensures fresh(sim) && fresh(sim.merging)
    ensures FormulaApplies(k / l, g, stages) <==> sim.lc == lc && sim.dc == dc && sim.gc == gc
    ensures forall id: nat :: AllData(sim.merging.clusters)[id] == if id < Product(stages) * k then 1 else 0
    ensures sim.x == 1
    ensures exists ph: Phase ::
      ph.x == 1 && ph.sum + ph.lam == Product(stages) * (k / l) &&
      AllAlike(sim.merging.su, sim.merging.clusters, rows, sim.merging.places, ph)
    ensures AllNamed(sim.merging.su, sim.merging.clusters, 1, Product(stages), k / l)
    ensures ParitiesApart(sim.merging.clusters)
  {
    hide AllNamed, ParitiesApart, AllAlike, AllData, PhaseOk, RunFits, FormulaApplies, CheckParameter, CostsAre,
         FormulasAre, SetupOk, PhaseAt,
         Product, Width;
    var b := k / l;
    ProductPositive(stages);
    var su, cl, places;
    su, cl, places, rows := Place(g, l, b, Product(stages));
    AllFit(su, b, stages);
    var merging := new Merging(su, cauchy, cl, places);
    sim := new Simulation(merging, Product(stages));
    rows := sim.StripeMerging(stages, rows, StartPhase(b, g, stages), b);
    Phases(su, b, stages, |stages|);
    lc, dc, gc := CalCostForOpt(cauchy, k, l, g, stages);
    FormulaExact(su, cauchy, b, stages);
    SameLists(su, cauchy, b, stages, sim.lc, sim.dc, sim.gc, lc, dc, gc);
    WholeWidth(b, stages);
    TimesIs(stages, |stages|);
    assert stages[..|stages|] == stages;
    assert k == l * b;
  }

  lemma WholeWidth(b: nat, stages: seq<nat>)
    ensures Width(b, stages, |stages|) == Product(stages) * b && Product(stages[|stages|..]) == 1
  {
    WidthIs(b, stages, |stages|);
    assert stages[..|stages|] == stages && stages[|stages|..] == [];
  }

  lemma {:induction false} WidthIs(b: nat, stages: seq<nat>, n: nat)
    requires n <= |stages|
    ensures Width(b, stages, n) == Product(stages[..n]) * b
  {
    if n == 0 {
      assert stages[..0] == [];
    } else {
      WidthIs(b, stages, n - 1);
      assert stages[..n] == stages[..n - 1] + [stages[n - 1]];
      ProductSnoc(stages[..n - 1], stages[n - 1]);
      assert stages[n - 1] * (Product(stages[..n - 1]) * b) == (Product(stages[..n - 1]) * stages[n - 1]) * b;
    }
  }

  lemma {:induction false} TimesIs(stages: seq<nat>, n: nat)
    requires n <= |stages|
    ensures Times(stages, n) == Product(stages[..n])
  {
    if n == 0 {
      assert stages[..0] == [];
    } else {
      TimesIs(stages, n - 1);
      assert stages[..n] == stages[..n - 1] + [stages[n - 1]];
      ProductSnoc(stages[..n - 1], stages[n - 1]);
    }
  }

  lemma {:induction false} ProductSnoc(s: seq<nat>, a: nat)
    ensures Product(s + [a]) == Product(s) * a
  {
    if s == [] {
      assert s + [a] == [a] && [a][1..] == [];
    } else {
      ProductSnoc(s[1..], a);
      assert (s + [a])[1..] == s[1..] + [a];
      assert s[0] * (Product(s[1..]) * a) == (s[0] * Product(s[1..])) * a;
    }
  }
}

/**
 * What the global parity rows determine on their own.  A stripe that is zero
 * except at a few positions, and has as many vanishing global parities, is zero:
 * for consecutive powers because they form a Vandermonde system, for the other
 * codes because they form a Cauchy system.
 */
module GlobalRows {
  import opened Gf256Tables
  import opened Gf256
  import opened LinearAlgebra
  import opened Generators
  import opened LocalRepair

  /** v is zero outside the given positions. */
  ghost predicate ZeroOutside(v: Vec, positions: set<nat>) {
    forall c: nat :: c < |v| && c !in positions ==> v[c] == 0
  }

  /** Some position of the set is one of v, or v is zero. */
  lemma ZeroOutsideNone(v: Vec)
    requires ZeroOutside(v, {})
    ensures v == Zeros(|v|)
  {
  }

  /** At a single position a dot product is a single product. */
  lemma DotSingle(row: Vec, v: Vec, q: nat)
    requires |row| == |v| && q < |v| && ZeroOutside(v, {q})
    ensures Dot(row, v) == Mul(row[q], v[q])
  {
    hide Dot, Mul;
    var n := |v|;
    MulOne(v[q]);
    MulZeroRight(v[q]);
    assert v == VScale(v[q], Unit(n, q));
    DotComm(row, v);
    DotScaleLeft(v[q], Unit(n, q), row);
    DotUnit(n, q, row);
    MulComm(v[q], row[q]);
  }

  /** If a row is zero on v, nonzero at q, and v vanishes elsewhere, v vanishes. */
  lemma LastPosition(row: Vec, v: Vec, q: nat)
    requires |row| == |v| && q < |v| && ZeroOutside(v, {q}) && row[q] != 0 && Dot(row, v) == 0
    ensures v == Zeros(|v|)
  {
    hide Dot, Mul;
    DotSingle(row, v, q);
    MulNonZero(row[q], v[q]);
  }

  // ---- Vandermonde rows ----

  /** The n-th powers of the points 2^p.  Global parity i has n = i + 1; n = 0 gives the sum of all blocks. */
  function MomentRow(k: nat, n: nat): (v: Vec)
    ensures |v| == k
  {
    seq(k, p requires 0 <= p => Power(Power(2, n), p))
  }

  lemma GlobalRowIs(k: nat, i: nat)
    ensures GlobalRow(k, i) == MomentRow(k, i + 1)
  {
    hide Power;
    assert GlobalPoint(i) == Power(2, i + 1);
  }

  lemma SumRowIs(k: nat)
    ensures MomentRow(k, 0) == Ones(k)
  {
    forall p: nat | p < k
      ensures Power(1, p) == 1
    {
      PowerOfOne(p);
    }
  }

  lemma {:induction false} PowerOfOne(p: nat)
    ensures Power(1, p) == 1
  {
    hide Mul;
    MulOne(1);
    if p > 0 {
      PowerOfOne(p - 1);
    }
  }

  lemma {:induction false} PowerMul(a: byte, b: byte, n: nat)
    ensures Power(Mul(a, b), n) == Mul(Power(a, n), Power(b, n))
  {
    hide Mul;
    MulOne(1);
    if n > 0 {
      PowerMul(a, b, n - 1);
      var x, y := Power(a, n - 1), Power(b, n - 1);
      MulAssoc(a, b, Mul(x, y));
      MulAssoc(b, x, y);
      MulComm(b, x);
      MulAssoc(x, b, y);
      MulAssoc(a, x, Mul(b, y));
    }
  }

  lemma {:induction false} PowerNonZero(a: byte, n: nat)
    requires a != 0
    ensures Power(a, n) != 0
  {
    hide Mul;
    if n > 0 {
      PowerNonZero(a, n - 1);
      MulNonZero(a, Power(a, n - 1));
    }
  }

  /** Moving from one row to the next multiplies by the points. */
  lemma NextMoment(k: nat, n: nat, p: nat)
    requires p < k
    ensures MomentRow(k, n + 1)[p] == Mul(Power(2, p), MomentRow(k, n)[p])
  {
    hide Mul;
    PowerMul(2, Power(2, n), p);
  }

  // ---- The points ----

  lemma {:induction false} PowerIsAlpha(n: nat)
    ensures Power(2, n) == Alpha(n)
  {
    hide Mul, Times2;
    if n > 0 {
      PowerIsAlpha(n - 1);
      MulTimes2Left(1, Alpha(n - 1));
      MulOne(Alpha(n - 1));
      MulComm(1, Alpha(n - 1));
      TwoIsTimes2();
    }
  }

  lemma TwoIsTimes2()
    ensures Times2(1) == 2
  {
  }

  /** The logarithm table undoes the antilog table, except at 0. */
  lemma LogOfAntilog(i: byte)
    requires i != 0
    ensures GflogBase(GffBase(i)) == i
  {
    hide GffBase, GflogBase;
    if i < 0x80 {
      LowAntilogs(i);
    } else {
      HighAntilogs(i);
    }
  }

  lemma LowAntilogs(i: byte)
    requires 0 < i < 0x80
    ensures GflogBase(GffBase(i)) == i
  {
  }

  lemma HighAntilogs(i: byte)
    requires 0x80 <= i
    ensures GflogBase(GffBase(i)) == i
  {
  }

  lemma {:induction false} AlphaReduced(n: nat)
    ensures Alpha(n) == Alpha(n % 255)
    decreases n
  {
    hide Times2, Alpha;
    if n >= 255 {
      AlphaPeriod(n - 255);
      AlphaReduced(n - 255);
    }
  }

  /** 2 has the order 255. */
  lemma AlphaIsOne(n: nat)
    ensures Alpha(n) == 1 <==> n % 255 == 0
  {
    hide Alpha;
    AlphaReduced(n);
    AlphaAtZero();
    if n % 255 > 0 {
      LogOfAlpha(n % 255);
    }
  }

  lemma AlphaAtZero()
    ensures Alpha(0) == 1
  {
  }

  /** The logarithm of 1 is stored as 255, so no power below is 1. */
  lemma LogOfAlpha(m: nat)
    requires 0 < m < 255
    ensures Alpha(m) != 1
  {
    hide GffBase, GflogBase, Alpha;
    ByteOfNat(m);
    AntilogIsPower(m as byte);
    AntilogAtZero();
    LogOfAntilog(m as byte);
    LogOfAntilog(255);
  }

  /** Two points are equal exactly if 255 divides their distance. */
  lemma PointsEqual(p: nat, q: nat)
    requires p <= q
    ensures Power(2, p) == Power(2, q) <==> (q - p) % 255 == 0
    ensures Power(2, p) != 0
  {
    hide Mul, Alpha, Power;
    var x, y := Power(2, p), Power(2, q - p);
    PowerAdd(2, p, q - p);
    PowerNonZero(2, p);
    PowerIsAlpha(q - p);
    AlphaIsOne(q - p);
    MulOne(x);
    if Mul(x, y) == x {
      CancelLeft(x, y, 1);
    }
  }

  lemma CancelLeft(a: byte, b: byte, c: byte)
    requires a != 0 && Mul(a, b) == Mul(a, c)
    ensures b == c
  {
    hide Mul, Add;
    MulAddRight(a, b, c);
    AddCancel(Mul(a, b), Mul(a, c));
    MulNonZero(a, Add(b, c));
    AddCancel(b, c);
  }

  /** No two of the positions have the same point. */
  ghost predicate PointsDiffer(positions: set<nat>) {
    forall p, q :: p in positions && q in positions && p < q ==> (q - p) % 255 != 0
  }

  lemma PointsApart(positions: set<nat>, p: nat, q: nat)
    requires PointsDiffer(positions) && p in positions && q in positions && p != q
    ensures Add(Power(2, p), Power(2, q)) != 0
  {
    hide Add, Power;
    if p < q {
      PointsEqual(p, q);
    } else {
      PointsEqual(q, p);
    }
    AddCancel(Power(2, p), Power(2, q));
  }

  /** Takes position q out: entry p is multiplied by 2^p + 2^q. */
  function Step(v: Vec, q: nat): (w: Vec)
    ensures |w| == |v|
  {
    seq(|v|, p requires 0 <= p < |v| => Mul(Add(Power(2, p), Power(2, q)), v[p]))
  }

  lemma StepVanishes(v: Vec, q: nat, positions: set<nat>)
    requires ZeroOutside(v, positions)
    ensures ZeroOutside(Step(v, q), positions - {q})
  {
    hide Mul, Add, Power;
    forall c: nat | c < |v| && c !in positions - {q}
      ensures Step(v, q)[c] == 0
    {
      AddZero(Power(2, q));
      MulNonZero(Add(Power(2, c), Power(2, q)), v[c]);
    }
  }

  /** Two consecutive rows that vanish on v make one that vanishes on the step. */
  lemma StepKilled(v: Vec, q: nat, n: nat)
    requires Dot(MomentRow(|v|, n), v) == 0 && Dot(MomentRow(|v|, n + 1), v) == 0
    ensures Dot(MomentRow(|v|, n), Step(v, q)) == 0
  {
    hide Dot, Mul, Add, MomentRow, Power;
    var k := |v|;
    var row, next := MomentRow(k, n), MomentRow(k, n + 1);
    var x := Power(2, q);
    var mixed := VAdd(next, VScale(x, row));
    DotMoves(row, Step(v, q), mixed, v, q, n);
    DotAddLeft(next, VScale(x, row), v);
    DotScaleLeft(x, row, v);
    MulZeroRight(x);
    AddZero(0);
  }

  lemma DotMoves(row: Vec, w: Vec, mixed: Vec, v: Vec, q: nat, n: nat)
    requires row == MomentRow(|v|, n) && w == Step(v, q)
    requires mixed == VAdd(MomentRow(|v|, n + 1), VScale(Power(2, q), row))
    ensures Dot(row, w) == Dot(mixed, v)
  {
    hide Dot, Mul, Add, MomentRow, Power;
    forall p: nat | p < |v|
      ensures Mul(row[p], w[p]) == Mul(mixed[p], v[p])
    {
      var x, y, m := Power(2, p), Power(2, q), row[p];
      NextMoment(|v|, n, p);
      MulAddLeft(x, y, m);
      MulComm(Add(x, y), m);
      MulAssoc(m, Add(x, y), v[p]);
    }
    SameProducts(row, w, mixed, v);
  }

  /** A dot product is determined by the products. */
  lemma {:induction false} SameProducts(a: Vec, b: Vec, c: Vec, d: Vec)
    requires |a| == |b| == |c| == |d| && forall p: nat :: p < |a| ==> Mul(a[p], b[p]) == Mul(c[p], d[p])
    ensures Dot(a, b) == Dot(c, d)
  {
    hide Mul, Add;
    if |a| > 0 {
      forall p: nat | p < |a| - 1
        ensures Mul(a[1..][p], b[1..][p]) == Mul(c[1..][p], d[1..][p])
      {
        assert Mul(a[p + 1], b[p + 1]) == Mul(c[p + 1], d[p + 1]);
      }
      SameProducts(a[1..], b[1..], c[1..], d[1..]);
    }
  }

  /** If the step vanishes, v vanished everywhere but at q. */
  lemma StepZero(v: Vec, q: nat, positions: set<nat>)
    requires ZeroOutside(v, positions) && PointsDiffer(positions) && q in positions && Step(v, q) == Zeros(|v|)
    ensures ZeroOutside(v, {q})
  {
    hide Mul, Add, Power, PointsDiffer;
    forall c: nat | c < |v| && c != q
      ensures v[c] == 0
    {
      if c in positions {
        PointsApart(positions, c, q);
        assert Step(v, q)[c] == 0;
        MulNonZero(Add(Power(2, c), Power(2, q)), v[c]);
      }
    }
  }

  /** As many consecutive moments as positions determine them, if their points differ. */
  lemma {:induction false} Vandermonde(v: Vec, positions: set<nat>, n: nat)
    requires ZeroOutside(v, positions) && PointsDiffer(positions)
    requires forall t: nat :: n <= t < n + |positions| ==> Dot(MomentRow(|v|, t), v) == 0
    ensures v == Zeros(|v|)
    decreases |positions|
  {
    hide Dot, MomentRow, Step, ZeroOutside, PointsDiffer;
    if positions == {} {
      ZeroOutsideNone(v);
    } else {
      var q :| q in positions;
      var rest := positions - {q};
      var w := Step(v, q);
      FewerDiffer(positions, q);
      StepVanishes(v, q, positions);
      forall t: nat | n <= t < n + |rest|
        ensures Dot(MomentRow(|v|, t), w) == 0
      {
        StepKilled(v, q, t);
      }
      Vandermonde(w, rest, n);
      StepZero(v, q, positions);
      OnePosition(v, q, n);
    }
  }

  lemma FewerDiffer(positions: set<nat>, q: nat)
    requires PointsDiffer(positions)
    ensures PointsDiffer(positions - {q})
  {
  }

  lemma OnePosition(v: Vec, q: nat, n: nat)
    requires ZeroOutside(v, {q}) && Dot(MomentRow(|v|, n), v) == 0
    ensures v == Zeros(|v|)
  {
    hide Dot, Mul, Power;
    if q < |v| {
      PowerNonZero(2, n);
      PowerNonZero(Power(2, n), q);
      LastPosition(MomentRow(|v|, n), v, q);
    } else {
      assert ZeroOutside(v, {});
    }
  }

  // ---- Cauchy rows ----

  /** Data block p and row i have different points, and so have any two of either. */
  lemma PointsOfBytes(i: nat, j: nat)
    requires i < 256 && j < 256
    ensures PointXor(i, j) == 0 <==> i == j
    ensures PointXor(i, j) == PointXor(j, i)
  {
    hide Add, Point;
    AddComm(Point(i), Point(j));
    AddZero(Point(i));
    if i < j {
      DistinctPoints(i, j);
    } else if j < i {
      DistinctPoints(j, i);
    }
  }

  /** Differences of points add up. */
  lemma PointsAdd(i: nat, j: nat, l: nat)
    ensures Add(PointXor(i, j), PointXor(j, l)) == PointXor(i, l)
  {
    hide Add, Point;
    var x, y, z := Point(i), Point(j), Point(l);
    AddAssoc(Add(x, y), y, z);
    AddCancel(y, x);
  }

  /** Takes position q and row i out. */
  function CauchyStep(v: Vec, q: nat, i: nat): (w: Vec)
    ensures |w| == |v|
  {
    seq(|v|, p requires 0 <= p < |v| => Mul(Mul(PointXor(p, q), GfInv(PointXor(i, p))), v[p]))
  }

  lemma CauchyStepVanishes(v: Vec, q: nat, i: nat, positions: set<nat>)
    requires ZeroOutside(v, positions) && q < 256
    ensures ZeroOutside(CauchyStep(v, q, i), positions - {q})
  {
    hide Mul, GfInv, PointXor;
    forall c: nat | c < |v| && c !in positions - {q}
      ensures CauchyStep(v, q, i)[c] == 0
    {
      var f := GfInv(PointXor(i, c));
      if c == q {
        PointsOfBytes(q, q);
        MulZeroLeft(f);
      }
      MulNonZero(Mul(PointXor(c, q), f), v[c]);
    }
  }

  /** If the step vanishes, v vanished everywhere but at q. */
  lemma CauchyStepZero(v: Vec, q: nat, i: nat, positions: set<nat>)
    requires |v| <= i < 256 && q < |v| && CauchyStep(v, q, i) == Zeros(|v|)
    ensures ZeroOutside(v, {q})
  {
    hide Mul, GfInv, PointXor;
    forall c: nat | c < |v| && c != q
      ensures v[c] == 0
    {
      PointsOfBytes(c, q);
      PointsOfBytes(i, c);
      assert CauchyStep(v, q, i)[c] == 0;
      var d, f := PointXor(c, q), GfInv(PointXor(i, c));
      MulNonZero(d, f);
      MulNonZero(Mul(d, f), v[c]);
    }
  }

  /** With 1/A and 1/B: (A + c)/A + (B + c)/B is (A + B) times c/(AB). */
  lemma PartialFractions(a: byte, b: byte, c: byte)
    requires a != 0 && b != 0
    ensures Add(Mul(Add(a, c), GfInv(a)), Mul(Add(b, c), GfInv(b))) == Mul(Add(a, b), Mul(GfInv(a), Mul(c, GfInv(b))))
  {
    hide Add, Mul, GfInv;
    var x, y := GfInv(a), GfInv(b);
    var cx, cy := Mul(c, x), Mul(c, y);
    MulAddLeft(a, c, x);
    MulAddLeft(b, c, y);
    AddSwap(1, cx, 1, cy);
    AddZero(1);
    AddZero(Add(cx, cy));
    MulAddLeft(a, b, Mul(x, cy));
    Cancels(a, x, cy);
    MulAssoc(x, c, y);
    MulComm(x, c);
    MulComm(cx, y);
    Cancels(b, y, cx);
    AddComm(cy, cx);
  }

  lemma Cancels(a: byte, x: byte, c: byte)
    requires Mul(a, x) == 1
    ensures Mul(a, Mul(x, c)) == c
  {
    hide Mul;
    MulAssoc(a, x, c);
    MulComm(1, c);
    MulOne(c);
  }

  /** Two rows that vanish on v make one that vanishes on the step. */
  lemma CauchyStepKilled(v: Vec, q: nat, i: nat, j: nat)
    requires q < |v| && |v| <= i < 256 && |v| <= j < 256 && i != j
    requires Dot(CauchyRow(|v|, i), v) == 0 && Dot(CauchyRow(|v|, j), v) == 0
    ensures Dot(CauchyRow(|v|, j), CauchyStep(v, q, i)) == 0
  {
    hide Dot, Mul, Add, CauchyRow, PointXor, CauchyStep;
    var k := |v|;
    var first, row := CauchyRow(k, i), CauchyRow(k, j);
    var x, y, d := PointXor(j, q), PointXor(i, q), PointXor(j, i);
    var mixed := VAdd(VScale(x, row), VScale(y, first));
    DotAddLeft(VScale(x, row), VScale(y, first), v);
    DotScaleLeft(x, row, v);
    DotScaleLeft(y, first, v);
    MulZeroRight(x);
    MulZeroRight(y);
    AddZero(0);
    CauchyDotMoves(v, q, i, j, VScale(d, row), mixed);
    DotScaleLeft(d, row, CauchyStep(v, q, i));
    PointsOfBytes(j, i);
    MulNonZero(d, Dot(row, CauchyStep(v, q, i)));
  }

  lemma CauchyDotMoves(v: Vec, q: nat, i: nat, j: nat, scaled: Vec, mixed: Vec)
    requires q < |v| && |v| <= i < 256 && |v| <= j < 256
    requires scaled == VScale(PointXor(j, i), CauchyRow(|v|, j))
    requires mixed == VAdd(VScale(PointXor(j, q), CauchyRow(|v|, j)), VScale(PointXor(i, q), CauchyRow(|v|, i)))
    ensures Dot(scaled, CauchyStep(v, q, i)) == Dot(mixed, v)
  {
    hide Dot, Mul, Add, PointXor, GfInv;
    forall p: nat | p < |v|
      ensures Mul(scaled[p], CauchyStep(v, q, i)[p]) == Mul(mixed[p], v[p])
    {
      CauchyEntry(v[p], q, i, j, p);
    }
    SameProducts(scaled, CauchyStep(v, q, i), mixed, v);
  }

  lemma CauchyEntry(e: byte, q: nat, i: nat, j: nat, p: nat)
    requires p < i < 256 && p < j < 256
    ensures Mul(Mul(PointXor(j, i), GfInv(PointXor(j, p))), Mul(Mul(PointXor(p, q), GfInv(PointXor(i, p))), e))
         == Mul(Add(Mul(PointXor(j, q), GfInv(PointXor(j, p))), Mul(PointXor(i, q), GfInv(PointXor(i, p)))), e)
  {
    hide Mul, Add, PointXor, GfInv;
    var a, b, c := PointXor(j, p), PointXor(i, p), PointXor(p, q);
    PointsOfBytes(j, p);
    PointsOfBytes(i, p);
    PointsAdd(j, p, q);
    PointsAdd(i, p, q);
    PointsAdd(j, p, i);
    PartialFractions(a, b, c);
    var s, m := Add(a, b), Mul(c, GfInv(b));
    MulAssoc(Mul(s, GfInv(a)), m, e);
    MulAssoc(s, GfInv(a), m);
  }

  /** As many rows as positions determine them. */
  lemma {:induction false} Cauchy(v: Vec, positions: set<nat>, rows: set<nat>)
    requires ZeroOutside(v, positions) && |rows| >= |positions|
    requires forall i :: i in rows ==> |v| <= i < 256 && Dot(CauchyRow(|v|, i), v) == 0
    requires forall p :: p in positions ==> p < |v|
    ensures v == Zeros(|v|)
    decreases |positions|
  {
    hide Dot, CauchyRow, CauchyStep, ZeroOutside;
    if positions == {} {
      ZeroOutsideNone(v);
    } else {
      var q :| q in positions;
      assert rows != {};
      var i :| i in rows;
      var w := CauchyStep(v, q, i);
      CauchyStepVanishes(v, q, i, positions);
      forall j | j in rows - {i}
        ensures Dot(CauchyRow(|v|, j), w) == 0
      {
        CauchyStepKilled(v, q, i, j);
      }
      Cauchy(w, positions - {q}, rows - {i});
      CauchyStepZero(v, q, i, positions);
      OneCauchy(v, q, i);
    }
  }

  lemma OneCauchy(v: Vec, q: nat, i: nat)
    requires q < |v| <= i < 256 && ZeroOutside(v, {q}) && Dot(CauchyRow(|v|, i), v) == 0
    ensures v == Zeros(|v|)
  {
    hide Dot, Mul, GfInv, PointXor;
    PointsOfBytes(i, q);
    LastPosition(CauchyRow(|v|, i), v, q);
  }
}

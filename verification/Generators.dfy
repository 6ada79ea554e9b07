/**
 * The generator matrices of the erasure codes: k rows of the identity, r rows
 * of global parities, z rows of local parities.  The functions say what each
 * row is; the methods fill a buffer the way the coder does.
 */
module Generators {
  import opened Gf256Tables
  import opened Gf256
  import opened LinearAlgebra
  import opened MatrixBuffer

  datatype CodeType = UniLRC | AzureLRC | OptimalLRC | UniformLRC

  // ---- What the rows are ----

  /** The evaluation point of global parity i. */
  function GlobalPoint(i: nat): byte {
    Power(2, i + 1)
  }

  /** Global parity i weighs data block p by the p-th power of its point. */
  function GlobalRow(k: nat, i: nat): (v: Vec)
    ensures |v| == k
  {
    seq(k, p requires 0 <= p => Power(GlobalPoint(i), p))
  }

  function RsRow(k: nat, i: nat): (v: Vec)
    ensures |v| == k
  {
    if i < k then Unit(k, i) else GlobalRow(k, i - k)
  }

  /** An integer truncated to a byte. */
  function Point(i: nat): byte {
    (i % 256) as byte
  }

  /** XOR of two integers, truncated to a byte. */
  function PointXor(i: nat, j: nat): byte {
    Add(Point(i), Point(j))
  }

  function CauchyRow(k: nat, i: nat): (v: Vec)
    ensures |v| == k
  {
    if i < k then Unit(k, i) else seq(k, j requires 0 <= j => GfInv(PointXor(i, j)))
  }

  /** `gf_gen_local_vector`. */
  function LocalVector(k: nat, p: nat): (v: Vec)
    ensures |v| == k
  {
    seq(k, i requires 0 <= i => GfInv(PointXor(i, k + p)))
  }

  function Ones(k: nat): (v: Vec)
    ensures |v| == k
  {
    seq(k, _ => 1)
  }

  /** The group of data block i when blocks are grouped `size` at a time. */
  function GroupOf(size: nat, i: nat): nat
    requires size > 0
  {
    i / size
  }

  /** The weights that fall into group g when data blocks are grouped `size` at a time. */
  function GroupRow(k: nat, size: nat, g: nat, weights: Vec): (v: Vec)
    requires size > 0 && |weights| == k
    ensures |v| == k
  {
    seq(k, i requires 0 <= i < k => if GroupOf(size, i) == g then weights[i] else 0)
  }

  /** Row i of the part of the matrix that does not depend on locality. */
  function BaseRow(code: CodeType, k: nat, i: nat): (v: Vec)
    ensures |v| == k
  {
    if code.UniLRC? || code.AzureLRC? then RsRow(k, i) else CauchyRow(k, i)
  }

  function BaseRows(code: CodeType, k: nat, first: nat, count: nat): (m: Matrix)
    ensures IsMatrix(m, count, k)
  {
    var rows := seq(count, l requires 0 <= l => BaseRow(code, k, first + l));
    assert forall l :: 0 <= l < count ==> rows[l] == BaseRow(code, k, first + l);
    rows
  }

  function GroupSize(code: CodeType, k: nat, r: nat, z: nat): nat
    requires z > 0
  {
    if code.UniformLRC? then (k + r) / z else k / z
  }

  /** The shapes for which every local weight falls into one of the z local rows. */
  predicate ValidShape(code: CodeType, k: nat, r: nat, z: nat) {
    z > 0 && GroupSize(code, k, r, z) > 0 && k <= z * GroupSize(code, k, r, z)
  }

  /** The global rows folded into local parity g: the first one and how many. */
  function FoldedRows(code: CodeType, k: nat, r: nat, z: nat, g: nat): (f: (nat, nat))
    requires z > 0 && g < z
    ensures k <= f.0 && f.0 + f.1 <= k + r
  {
    hide SharesBefore;
    match code
    case UniLRC => FoldedFits(r, z, g); (k + SharesBefore(r, z, g), r / z)
    case AzureLRC => (k, 0)
    case OptimalLRC => (k, r)
    case UniformLRC => if g == z - 1 then (k, r) else (k, 0)
  }

  /** Global rows that UniLRC folds into the local parities before g. */
  function SharesBefore(r: nat, z: nat, g: nat): nat
    requires z > 0
  {
    g * r / z
  }

  lemma FoldedFits(r: nat, z: nat, g: nat)
    requires z > 0 && g < z
    ensures SharesBefore(r, z, g) + r / z <= r
  {
    var p, q := g * r / z, r / z;
    assert z * p <= g * r;
    assert z * q <= r;
    assert (g + 1) * r <= z * r;
    assert z * (p + q) <= z * r;
    MulCancel(z, p + q, r);
  }

  lemma MulCancel(z: nat, a: int, b: int)
    requires z > 0 && z * a <= z * b
    ensures a <= b
  {
    assert z * (a - b) == z * a - z * b;
    MulSign(z, a - b);
  }

  lemma MulSign(z: nat, d: int)
    requires z > 0
    ensures d > 0 ==> z * d > 0
  {
  }

  function Weights(code: CodeType, k: nat, r: nat): (v: Vec)
    ensures |v| == k
  {
    if code.UniLRC? || code.AzureLRC? then Ones(k) else LocalVector(k, r)
  }

  function LocalRow(code: CodeType, k: nat, r: nat, z: nat, g: nat): (v: Vec)
    requires ValidShape(code, k, r, z) && g < z
    ensures |v| == k
  {
    var f := FoldedRows(code, k, r, z, g);
    VAdd(GroupRow(k, GroupSize(code, k, r, z), g, Weights(code, k, r)),
         XorRows(BaseRows(code, k, f.0, f.1), k))
  }

  function GeneratorRow(code: CodeType, k: nat, r: nat, z: nat, i: nat): (v: Vec)
    requires ValidShape(code, k, r, z) && i < k + r + z
    ensures |v| == k
  {
    if i < k + r then BaseRow(code, k, i) else LocalRow(code, k, r, z, i - k - r)
  }

  /** The whole generator matrix. */
  function Generator(code: CodeType, k: nat, r: nat, z: nat): (m: Matrix)
    requires ValidShape(code, k, r, z)
    ensures IsMatrix(m, k + r + z, k)
  {
    seq(k + r + z, i requires 0 <= i < k + r + z => GeneratorRow(code, k, r, z, i))
  }

  // ---- How the coder fills them in ----

  /** `gf_gen_rs_matrix1` on the first m rows. */
  method GfGenRsMatrix1(a: array2<byte>, m: nat)
    requires a.Length1 <= m <= a.Length0
    modifies a
    ensures forall i :: 0 <= i < m ==> Rows(a)[i] == RsRow(a.Length1, i)
    ensures forall i :: m <= i < a.Length0 ==> Rows(a)[i] == old(Rows(a))[i]
  {
    hide Mul, GfMul;
    var k := a.Length1;
    SetUnits(a);
    var i := k;
    var gen: byte := 2;
    MulOne(2);
    while i < m
      invariant k <= i <= m
      invariant gen == GlobalPoint(i - k)
      invariant forall r, c :: 0 <= r < i && 0 <= c < k ==> a[r, c] == RsRow(k, r)[c]
      invariant forall r, c :: m <= r < a.Length0 && 0 <= c < k ==> a[r, c] == old(a[r, c])
    {
      FillPowers(a, i, gen);
      MulComm(gen, 2);
      gen := GfMul(gen, 2);
      i := i + 1;
    }
    forall r | 0 <= r < m
      ensures Rows(a)[r] == RsRow(k, r)
    {
    }
    forall r | m <= r < a.Length0
      ensures Rows(a)[r] == old(Rows(a))[r]
    {
    }
  }

  /** Row i becomes 1, gen, gen^2, ... */
  method FillPowers(a: array2<byte>, i: nat, gen: byte)
    requires i < a.Length0
    modifies a
    ensures forall c :: 0 <= c < a.Length1 ==> a[i, c] == Power(gen, c)
    ensures forall r, c :: 0 <= r < a.Length0 && 0 <= c < a.Length1 && r != i ==> a[r, c] == old(a[r, c])
  {
    hide Mul, GfMul;
    var p: byte := 1;
    var j := 0;
    while j < a.Length1
      invariant j <= a.Length1
      invariant p == Power(gen, j)
      invariant forall c :: 0 <= c < j ==> a[i, c] == Power(gen, c)
      invariant forall r, c :: 0 <= r < a.Length0 && 0 <= c < a.Length1 && r != i ==> a[r, c] == old(a[r, c])
    {
      a[i, j] := p;
      MulComm(p, gen);
      p := GfMul(p, gen);
      j := j + 1;
    }
  }

  /** The identity in the first rows. */
  method SetUnits(a: array2<byte>)
    requires a.Length1 <= a.Length0
    modifies a
    ensures forall r, c :: 0 <= r < a.Length1 && 0 <= c < a.Length1 ==> a[r, c] == Unit(a.Length1, r)[c]
    ensures forall r, c :: a.Length1 <= r < a.Length0 && 0 <= c < a.Length1 ==> a[r, c] == old(a[r, c])
  {
    var k := a.Length1;
    var i := 0;
    while i < k
      invariant i <= k
      invariant forall r, c :: 0 <= r < i && 0 <= c < k ==> a[r, c] == Unit(k, r)[c]
      invariant forall r, c :: k <= r < a.Length0 && 0 <= c < k ==> a[r, c] == old(a[r, c])
    {
      var j := 0;
      while j < k
        invariant j <= k
        invariant forall c :: 0 <= c < j ==> a[i, c] == Unit(k, i)[c]
        invariant forall r, c :: 0 <= r < i && 0 <= c < k ==> a[r, c] == Unit(k, r)[c]
        invariant forall r, c :: k <= r < a.Length0 && 0 <= c < k ==> a[r, c] == old(a[r, c])
      {
        a[i, j] := if i == j then 1 else 0;
        j := j + 1;
      }
      i := i + 1;
    }
  }

  /** `gf_gen_cauchy_matrix1` on the first m rows. */
  method GfGenCauchyMatrix1(a: array2<byte>, m: nat)
    requires a.Length1 <= m <= a.Length0
    modifies a
    ensures forall i :: 0 <= i < m ==> Rows(a)[i] == CauchyRow(a.Length1, i)
    ensures forall i :: m <= i < a.Length0 ==> Rows(a)[i] == old(Rows(a))[i]
  {
    hide GfInv, PointXor;
    var k := a.Length1;
    SetUnits(a);
    var i := k;
    while i < m
      invariant k <= i <= m
      invariant forall r, c :: 0 <= r < i && 0 <= c < k ==> a[r, c] == CauchyRow(k, r)[c]
      invariant forall r, c :: m <= r < a.Length0 && 0 <= c < k ==> a[r, c] == old(a[r, c])
    {
      var j := 0;
      while j < k
        invariant j <= k
        invariant forall c :: 0 <= c < j ==> a[i, c] == CauchyRow(k, i)[c]
        invariant forall r, c :: 0 <= r < i && 0 <= c < k ==> a[r, c] == CauchyRow(k, r)[c]
        invariant forall r, c :: m <= r < a.Length0 && 0 <= c < k ==> a[r, c] == old(a[r, c])
      {
        a[i, j] := GfInv(PointXor(i, j));
        j := j + 1;
      }
      i := i + 1;
    }
    forall r | 0 <= r < m
      ensures Rows(a)[r] == CauchyRow(k, r)
    {
    }
    forall r | m <= r < a.Length0
      ensures Rows(a)[r] == old(Rows(a))[r]
    {
    }
  }

  /** Writes each data block's weight into the local row of its group. */
  method PlaceWeights(a: array2<byte>, m: nat, size: nat, weights: Vec)
    requires |weights| == a.Length1 && size > 0 && m <= a.Length0
    requires a.Length1 <= (a.Length0 - m) * size
    requires forall r, c :: m <= r < a.Length0 && 0 <= c < a.Length1 ==> a[r, c] == 0
    modifies a
    ensures forall i :: 0 <= i < m ==> Rows(a)[i] == old(Rows(a))[i]
    ensures forall i :: m <= i < a.Length0 ==> Rows(a)[i] == GroupRow(a.Length1, size, i - m, weights)
  {
    hide GroupOf;
    var k := a.Length1;
    var i := 0;
    while i < k
      invariant i <= k
      invariant forall r, c :: 0 <= r < m && 0 <= c < k ==> a[r, c] == old(a[r, c])
      invariant forall r, c :: m <= r < a.Length0 && 0 <= c < k ==>
        a[r, c] == if c < i then GroupRow(k, size, r - m, weights)[c] else 0
    {
      var group := GroupOf(size, i);
      GroupExists(i, size, a.Length0 - m);
      a[m + group, i] := weights[i];
      i := i + 1;
    }
    forall r | 0 <= r < m
      ensures Rows(a)[r] == old(Rows(a))[r]
    {
    }
    forall r | m <= r < a.Length0
      ensures Rows(a)[r] == GroupRow(k, size, r - m, weights)
    {
    }
  }

  lemma GroupExists(i: nat, size: nat, groups: nat)
    requires size > 0 && i < groups * size
    ensures GroupOf(size, i) < groups
  {
    var q := i / size;
    assert size * q <= i;
    assert size * (groups - q) == size * groups - size * q;
    MulSign(size, q - groups);
    assert size * (q - groups) == -(size * (groups - q));
    assert q != groups;
  }

  /** XORs `count` rows, from `first` on, into row `target`. */
  method FoldRows(a: array2<byte>, target: nat, first: nat, count: nat)
    requires first + count <= target < a.Length0
    modifies a
    ensures Rows(a) == old(Rows(a))[target := VAdd(old(Rows(a))[target],
                                                 XorRows(old(Rows(a))[first..first + count], a.Length1))]
  {
    hide Add;
    var k := a.Length1;
    ghost var before := Rows(a);
    ghost var folded := before[first..first + count];
    ghost var sum := XorRows(folded, k);
    var j := 0;
    while j < k
      invariant j <= k
      invariant forall r, c :: 0 <= r < a.Length0 && 0 <= c < k && r != target ==> a[r, c] == before[r][c]
      invariant forall c :: 0 <= c < j ==> a[target, c] == Add(before[target][c], sum[c])
      invariant forall c :: j <= c < k ==> a[target, c] == before[target][c]
    {
      FoldCell(a, target, first, count, j, before);
      j := j + 1;
    }
    RowsAre(a, before[target := VAdd(before[target], sum)]);
  }

  method FoldCell(a: array2<byte>, target: nat, first: nat, count: nat, j: nat, ghost before: Matrix)
    requires first + count <= target < a.Length0 && j < a.Length1
    requires IsMatrix(before, a.Length0, a.Length1)
    requires forall r, c :: 0 <= r < a.Length0 && 0 <= c < a.Length1 && r != target ==> a[r, c] == before[r][c]
    requires a[target, j] == before[target][j]
    modifies a
    ensures forall r, c :: 0 <= r < a.Length0 && 0 <= c < a.Length1 && r != target ==> a[r, c] == before[r][c]
    ensures forall c :: 0 <= c < a.Length1 && c != j ==> a[target, c] == old(a[target, c])
    ensures a[target, j] == Add(before[target][j], XorRows(before[first..first + count], a.Length1)[j])
  {
    hide Add;
    var k := a.Length1;
    ghost var folded := before[first..first + count];
    assert IsMatrix(folded, count, k);
    var l := 0;
    AddZero(a[target, j]);
    while l < count
      invariant l <= count && IsMatrix(folded[..l], l, k)
      invariant a[target, j] == Add(before[target][j], XorRows(folded[..l], k)[j])
      invariant forall r, c :: 0 <= r < a.Length0 && 0 <= c < k && r != target ==> a[r, c] == before[r][c]
      invariant forall c :: 0 <= c < k && c != j ==> a[target, c] == old(a[target, c])
    {
      assert folded[..l + 1][..l] == folded[..l] && folded[..l + 1] == folded[..l] + [folded[l]];
      AddAssoc(before[target][j], XorRows(folded[..l], k)[j], before[first + l][j]);
      a[target, j] := Add(a[target, j], a[first + l, j]);
      l := l + 1;
    }
    assert folded[..count] == folded;
  }

  method GenBase(code: CodeType, a: array2<byte>, m: nat)
    requires a.Length1 <= m <= a.Length0
    modifies a
    ensures forall i :: 0 <= i < m ==> Rows(a)[i] == BaseRow(code, a.Length1, i)
    ensures forall i :: m <= i < a.Length0 ==> Rows(a)[i] == old(Rows(a))[i]
  {
    hide RsRow, CauchyRow;
    if code.UniLRC? || code.AzureLRC? {
      GfGenRsMatrix1(a, m);
    } else {
      GfGenCauchyMatrix1(a, m);
    }
  }

  /** Folds every local parity's share of the global rows into it. */
  method FoldLocals(code: CodeType, a: array2<byte>, k: nat, r: nat, z: nat)
    requires ValidShape(code, k, r, z) && a.Length0 == k + r + z && a.Length1 == k
    requires forall i :: 0 <= i < k + r ==> Rows(a)[i] == GeneratorRow(code, k, r, z, i)
    requires forall g :: 0 <= g < z ==>
      Rows(a)[k + r + g] == GroupRow(k, GroupSize(code, k, r, z), g, Weights(code, k, r))
    modifies a
    ensures forall i :: 0 <= i < k + r + z ==> Rows(a)[i] == GeneratorRow(code, k, r, z, i)
  {
    hide GeneratorRow, BaseRows, GroupRow, XorRows, VAdd, Weights, GroupSize, FoldedRows, Rows;
    var m := k + r;
    for g := 0 to z
      invariant forall i :: 0 <= i < m + g ==> Rows(a)[i] == GeneratorRow(code, k, r, z, i)
      invariant forall h :: g <= h < z ==>
        Rows(a)[m + h] == GroupRow(k, GroupSize(code, k, r, z), h, Weights(code, k, r))
    {
      var f := FoldedRows(code, k, r, z, g);
      FoldedAre(Rows(a), code, k, r, z, g);
      LocalRowIs(code, k, r, z, g);
      FoldRows(a, m + g, f.0, f.1);
    }
  }

  /** `gen_unilrc_matrix`, `gen_azure_lrc_matrix`, `gen_optimal_lrc_matrix` and `gen_uniform_lrc_matrix`. */
  method GenMatrix(code: CodeType, a: array2<byte>, k: nat, r: nat, z: nat)
    requires ValidShape(code, k, r, z)
    requires a.Length0 == k + r + z && a.Length1 == k
    modifies a
    ensures Rows(a) == Generator(code, k, r, z)
  {
    hide BaseRow, GroupRow, Weights, GroupSize, LocalRow;
    Clear(a);
    GenBase(code, a, k + r);
    forall i, c | k + r <= i < a.Length0 && 0 <= c < k
      ensures a[i, c] == 0
    {
      assert a[i, c] == Rows(a)[i][c];
    }
    PlaceWeights(a, k + r, GroupSize(code, k, r, z), Weights(code, k, r));
    FoldLocals(code, a, k, r, z);
  }

  /** The rows to be folded are there. */
  lemma FoldedAre(m: Matrix, code: CodeType, k: nat, r: nat, z: nat, g: nat)
    requires ValidShape(code, k, r, z) && g < z && k + r <= |m|
    requires forall i :: 0 <= i < k + r ==> m[i] == GeneratorRow(code, k, r, z, i)
    ensures var f := FoldedRows(code, k, r, z, g); m[f.0..f.0 + f.1] == BaseRows(code, k, f.0, f.1)
  {
    hide BaseRow, FoldedRows;
  }

  lemma LocalRowIs(code: CodeType, k: nat, r: nat, z: nat, g: nat)
    requires ValidShape(code, k, r, z) && g < z
    ensures var f := FoldedRows(code, k, r, z, g);
      GeneratorRow(code, k, r, z, k + r + g)
      == VAdd(GroupRow(k, GroupSize(code, k, r, z), g, Weights(code, k, r)),
              XorRows(BaseRows(code, k, f.0, f.1), k))
  {
  }
}

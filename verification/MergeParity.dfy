/**
 * Parities of a DdlRT-LRC stripe and how two stripes' parities merge.  A
 * global parity weighs the data by powers of its point; a local parity is the
 * XOR of the data blocks that carry its group number, wherever they stand.
 */
module MergeParity {
  import opened Gf256Tables
  import opened Gf256
  import opened LinearAlgebra
  import opened Generators
  import opened LocalRepair

  type Bytes = seq<byte>

  function GlobalParity(j: nat, data: Matrix, len: nat): (p: Bytes)
    requires IsMatrix(data, |data|, len)
    ensures |p| == len
  {
    Combine(GlobalRow(|data|, j), data, len)
  }

  /** 1 at the positions whose group is g. */
  function Indicator(groups: seq<int>, g: int): (v: Vec)
    ensures |v| == |groups|
  {
    seq(|groups|, i requires 0 <= i < |groups| => if groups[i] == g then 1 else 0)
  }

  function LocalParity(g: int, groups: seq<int>, data: Matrix, len: nat): (p: Bytes)
    requires IsMatrix(data, |groups|, len)
    ensures |p| == len
  {
    Combine(Indicator(groups, g), data, len)
  }

  /** The coefficient of the right stripe's parity j when both stripes have k data blocks. */
  function Coefficient(j: nat, r: nat, k: nat): byte {
    if j < r then Power(Power(2, j + 1), k) else 1
  }

  // ---- The byte-level merge ----

  /** `multiply_block_gf`. */
  method MultiplyBlockGf(input: Bytes, coeff: byte) returns (output: Bytes)
    ensures output == VScale(coeff, input)
  {
    hide Mul, GfMul;
    if coeff == 0 {
      forall i | 0 <= i < |input|
        ensures Mul(0, input[i]) == 0
      {
        MulZeroLeft(input[i]);
      }
      return Zeros(|input|);
    }
    if coeff == 1 {
      ScaleOne(input);
      return input;
    }
    output := [];
    var i := 0;
    while i < |input|
      invariant i <= |input| && output == VScale(coeff, input)[..i]
    {
      output := output + [GfMul(coeff, input[i])];
      i := i + 1;
    }
  }

  /** `merge_stripe_parity_gf_xor`: a plus coeff times b. */
  method MergeStripeParityGfXor(a: Bytes, b: Bytes, coeff: byte) returns (output: Bytes)
    requires |a| == |b|
    ensures output == VAdd(a, VScale(coeff, b))
  {
    hide Add, Mul, XorRows;
    if coeff == 0 {
      ScaleByZero(b);
      VAddZeros(a);
      return a;
    }
    if coeff == 1 {
      ScaleOne(b);
      output := XorBlocks([a, b], |a|);
      XorTwo(a, b);
      return;
    }
    var scaled := MultiplyBlockGf(b, coeff);
    VAddComm(scaled, a);
    output := [];
    var i := 0;
    while i < |a|
      invariant i <= |a| && output == VAdd(scaled, a)[..i]
    {
      output := output + [Add(scaled[i], a[i])];
      i := i + 1;
    }
  }

  lemma ScaleByZero(v: Vec)
    ensures VScale(0, v) == Zeros(|v|)
  {
    hide Mul;
    forall i | 0 <= i < |v|
      ensures Mul(0, v[i]) == 0
    {
      MulZeroLeft(v[i]);
    }
  }

  lemma XorTwo(a: Vec, b: Vec)
    requires |a| == |b|
    ensures XorRows([a, b], |a|) == VAdd(a, b)
  {
    hide Add;
    assert [a, b] == [a] + [b];
    XorRowsAppend([a], [b], |a|);
    XorRowsOne(a);
    XorRowsOne(b);
  }

  // ---- Merging equals re-encoding ----

  /** The weights of a stripe of 2k blocks: the left half as before, the right half shifted by the k-th power. */
  lemma GlobalRowDoubles(k: nat, j: nat)
    ensures GlobalRow(2 * k, j) == GlobalRow(k, j) + VScale(Power(GlobalPoint(j), k), GlobalRow(k, j))
  {
    hide Mul;
    var x := GlobalPoint(j);
    forall p | k <= p < 2 * k
      ensures Power(x, p) == Mul(Power(x, k), Power(x, p - k))
    {
      PowerAdd(x, k, p - k);
    }
  }

  /** Left parity plus coefficient times right parity is the parity of the merged data. */
  lemma GlobalParityMerges(j: nat, r: nat, left: Matrix, right: Matrix, len: nat)
    requires |left| == |right| && j < r
    requires IsMatrix(left, |left|, len) && IsMatrix(right, |right|, len)
    ensures GlobalParity(j, left + right, len)
         == VAdd(GlobalParity(j, left, len), VScale(Coefficient(j, r, |left|), GlobalParity(j, right, len)))
  {
    hide Add, Mul, Combine, Power;
    var k := |left|;
    var row := GlobalRow(k, j);
    var c := Power(GlobalPoint(j), k);
    GlobalRowDoubles(k, j);
    CombineAppend(row, VScale(c, row), left, right, len);
    CombineScale(c, row, right, len);
  }

  lemma LocalParityMerges(g: int, leftGroups: seq<int>, rightGroups: seq<int>, left: Matrix, right: Matrix, len: nat)
    requires IsMatrix(left, |leftGroups|, len) && IsMatrix(right, |rightGroups|, len)
    ensures LocalParity(g, leftGroups + rightGroups, left + right, len)
         == VAdd(LocalParity(g, leftGroups, left, len), LocalParity(g, rightGroups, right, len))
  {
    hide Combine;
    assert Indicator(leftGroups + rightGroups, g) == Indicator(leftGroups, g) + Indicator(rightGroups, g);
    CombineAppend(Indicator(leftGroups, g), Indicator(rightGroups, g), left, right, len);
  }

  // ---- The parities of a freshly encoded stripe ----

  /** Row k + j of the generator is global parity j. */
  lemma EncodedGlobal(k: nat, r: nat, z: nat, j: nat, data: Matrix, len: nat)
    requires ValidShape(AzureLRC, k, r, z) && j < r && IsMatrix(data, k, len)
    ensures Combine(Generator(AzureLRC, k, r, z)[k + j], data, len) == GlobalParity(j, data, len)
  {
    assert Generator(AzureLRC, k, r, z)[k + j] == GlobalRow(k, j);
  }

  /** Row k + r + g of the generator is the local parity of the contiguous group g. */
  lemma EncodedLocal(k: nat, r: nat, z: nat, g: nat, data: Matrix, len: nat)
    requires ValidShape(AzureLRC, k, r, z) && g < z && IsMatrix(data, k, len)
    ensures Combine(Generator(AzureLRC, k, r, z)[k + r + g], data, len)
         == LocalParity(g, seq(k, i requires 0 <= i => GroupOf(k / z, i)), data, len)
  {
    hide Combine;
    var groups := seq(k, i requires 0 <= i => GroupOf(k / z, i));
    var row := GroupRow(k, k / z, g, Ones(k));
    assert BaseRows(AzureLRC, k, k, 0) == [];
    VAddZeros(row);
    assert row == Indicator(groups, g);
  }
}

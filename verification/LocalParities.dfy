/**
 * What every block of a stripe is, in terms of block numbers and of products
 * in the field: which data a local parity weighs, with which weights, and which
 * global parities it takes in.
 */
module LocalParities {
  import opened Gf256Tables
  import opened Gf256
  import opened LinearAlgebra
  import opened Generators
  import opened Encoding
  import opened LocalRepair

  /** w is the inverse of i xor j, both truncated to a byte, and 0 if that is 0. */
  predicate InverseOfXor(w: byte, i: nat, j: nat) {
    var x := ((i % 256) as byte) ^ ((j % 256) as byte);
    if x == 0 then w == 0 else Mul(w, x) == 1
  }

  /**
   * The sum of w times data over the blocks first, first + 1, ... that are in group g when grouped `size` at
   * a time.
   */
  function GroupSum(w: Vec, data: Matrix, size: nat, g: nat, first: nat, len: nat): (sum: Vec)
    requires IsMatrix(data, |w|, len) && size > 0
    ensures |sum| == len
  {
    if w == [] then Zeros(len)
    else VAdd(if first / size == g then VScale(w[0], data[0]) else Zeros(len),
              GroupSum(w[1..], data[1..], size, g, first + 1, len))
  }

  // ---- Rows and sums ----

  function Masked(w: Vec, size: nat, g: nat, first: nat): (row: Vec)
    requires size > 0
    ensures |row| == |w|
  {
    seq(|w|, i requires 0 <= i < |w| => if (first + i) / size == g then w[i] else 0)
  }

  lemma {:induction false} MaskedSum(w: Vec, data: Matrix, size: nat, g: nat, first: nat, len: nat)
    requires IsMatrix(data, |w|, len) && size > 0
    ensures Combine(Masked(w, size, g, first), data, len) == GroupSum(w, data, size, g, first, len)
  {
    hide Mul, VAdd;
    if w != [] {
      var row := Masked(w, size, g, first);
      assert row[1..] == Masked(w[1..], size, g, first + 1);
      MaskedSum(w[1..], data[1..], size, g, first + 1, len);
      ScaleZero(data[0]);
    }
  }

  lemma ScaleZero(v: Vec)
    ensures VScale(0, v) == Zeros(|v|)
  {
    hide Mul;
    forall i | 0 <= i < |v|
      ensures Mul(0, v[i]) == 0
    {
      MulZeroLeft(v[i]);
    }
  }

  lemma MaskedIs(k: nat, size: nat, g: nat, w: Vec)
    requires size > 0 && |w| == k
    ensures GroupRow(k, size, g, w) == Masked(w, size, g, 0)
  {
  }

  /** Combining the sum of rows is adding up the combinations. */
  lemma {:induction false} CombineXor(rows: Matrix, data: Matrix, len: nat)
    requires IsMatrix(rows, |rows|, |data|) && IsMatrix(data, |data|, len)
    ensures Combine(XorRows(rows, |data|), data, len) == XorRows(MatMul(rows, data, len), len)
  {
    hide Combine, Mul, Add;
    if rows == [] {
      CombineZeros(data, len);
    } else {
      var n := |rows| - 1;
      var init := rows[..n];
      CombineXor(init, data, len);
      CombineAdd(XorRows(init, |data|), rows[n], data, len);
      assert MatMul(rows, data, len)[..n] == MatMul(init, data, len);
    }
  }

  /** A local row and a range of base rows, applied to the data. */
  lemma LocalBlock(code: CodeType, k: nat, r: nat, z: nat, g: nat, data: Matrix, len: nat)
    requires ValidShape(code, k, r, z) && g < z && IsMatrix(data, k, len)
    ensures var f := FoldedRows(code, k, r, z, g);
      var blocks := Encode(Generator(code, k, r, z), data, len);
      blocks[k + r + g] == VAdd(GroupSum(Weights(code, k, r), data, GroupSize(code, k, r, z), g, 0, len),
                                XorRows(blocks[f.0..f.0 + f.1], len))
  {
    hide Combine, Mul, Add, VAdd, GroupRow, Weights, GroupSize, FoldedRows, XorRows, BaseRows, Generator, GroupSum;
    var f := FoldedRows(code, k, r, z, g);
    var size, w, rows := GroupSize(code, k, r, z), Weights(code, k, r), BaseRows(code, k, f.0, f.1);
    LocalRowIs(code, k, r, z, g);
    RowOfBlock(code, k, r, z, k + r + g, data, len);
    CombineAdd(GroupRow(k, size, g, w), XorRows(rows, k), data, len);
    MaskedIs(k, size, g, w);
    MaskedSum(w, data, size, g, 0, len);
    CombineXor(rows, data, len);
    FoldedBlocks(code, k, r, z, g, data, len);
  }

  lemma RowOfBlock(code: CodeType, k: nat, r: nat, z: nat, i: nat, data: Matrix, len: nat)
    requires ValidShape(code, k, r, z) && i < k + r + z && IsMatrix(data, k, len)
    ensures Encode(Generator(code, k, r, z), data, len)[i] == Combine(GeneratorRow(code, k, r, z, i), data, len)
  {
    hide Combine, GeneratorRow;
  }

  lemma FoldedBlocks(code: CodeType, k: nat, r: nat, z: nat, g: nat, data: Matrix, len: nat)
    requires ValidShape(code, k, r, z) && g < z && IsMatrix(data, k, len)
    ensures var f := FoldedRows(code, k, r, z, g);
      MatMul(BaseRows(code, k, f.0, f.1), data, len) == Encode(Generator(code, k, r, z), data, len)[f.0..f.0 + f.1]
  {
    hide Combine, BaseRow, LocalRow, FoldedRows;
  }

  // ---- Weights ----

  lemma InverseIs(i: nat, j: nat)
    ensures InverseOfXor(GfInv(PointXor(i, j)), i, j)
  {
    hide Mul, GfInv;
    var x := PointXor(i, j);
    if x != 0 {
      MulComm(x, GfInv(x));
    }
  }

  lemma LocalWeights(k: nat, r: nat)
    ensures forall i: nat :: i < k ==> InverseOfXor(LocalVector(k, r)[i], i, k + r)
  {
    hide InverseOfXor, GfInv, PointXor;
    forall i: nat | i < k
      ensures InverseOfXor(LocalVector(k, r)[i], i, k + r)
    {
      InverseIs(i, k + r);
    }
  }

  // ---- The blocks of every code ----

  /** The first k blocks are the data. */
  lemma DataBlock(code: CodeType, k: nat, r: nat, z: nat, i: nat, data: Matrix, len: nat)
    requires ValidShape(code, k, r, z) && i < k && IsMatrix(data, k, len)
    ensures Encode(Generator(code, k, r, z), data, len)[i] == data[i]
  {
    hide Combine;
    CombineUnit(i, data, len);
  }

  /** Global parity j of UniLRC and AzureLRC: data block p weighs 2 to the power (j + 1) * p. */
  lemma PowerBlock(code: CodeType, k: nat, r: nat, z: nat, j: nat, data: Matrix, len: nat) returns (w: Vec)
    requires ValidShape(code, k, r, z) && (code.UniLRC? || code.AzureLRC?) && j < r && IsMatrix(data, k, len)
    ensures |w| == k && forall p: nat :: p < k ==> w[p] == Power(2, (j + 1) * p)
    ensures Encode(Generator(code, k, r, z), data, len)[k + j] == Combine(w, data, len)
  {
    hide Combine, Power;
    w := GlobalRow(k, j);
    assert GlobalPoint(j) == Power(2, j + 1);
    forall p: nat | p < k
      ensures w[p] == Power(2, (j + 1) * p)
    {
      PowerOfPower(2, j + 1, p);
      assert p * (j + 1) == (j + 1) * p;
    }
  }

  lemma {:induction false} PowerOfPower(a: byte, m: nat, n: nat)
    ensures Power(Power(a, m), n) == Power(a, n * m)
    decreases n
  {
    hide Mul;
    if n > 0 {
      PowerOfPower(a, m, n - 1);
      PowerAdd(a, m, (n - 1) * m);
      assert m + (n - 1) * m == n * m;
    }
  }

  /** Global parity block i of OptimalLRC and UniformLRC: data block j weighs the inverse of i xor j. */
  lemma CauchyBlock(code: CodeType, k: nat, r: nat, z: nat, i: nat, data: Matrix, len: nat) returns (w: Vec)
    requires ValidShape(code, k, r, z) && (code.OptimalLRC? || code.UniformLRC?) && k <= i < k + r
    requires IsMatrix(data, k, len)
    ensures |w| == k && forall j: nat :: j < k ==> InverseOfXor(w[j], i, j)
    ensures Encode(Generator(code, k, r, z), data, len)[i] == Combine(w, data, len)
  {
    hide Combine, InverseOfXor, GfInv, PointXor;
    w := CauchyRow(k, i);
    forall j: nat | j < k
      ensures InverseOfXor(w[j], i, j)
    {
      InverseIs(i, j);
    }
  }

  /** Local parity g of UniLRC: its data blocks, and the global parities from number g * r / z on, r / z of them. */
  lemma UnilrcLocal(k: nat, r: nat, z: nat, g: nat, data: Matrix, len: nat)
    requires ValidShape(UniLRC, k, r, z) && g < z && IsMatrix(data, k, len)
    ensures k + g * r / z + r / z <= k + r
    ensures var blocks := Encode(Generator(UniLRC, k, r, z), data, len);
      blocks[k + r + g] == VAdd(GroupSum(Ones(k), data, k / z, g, 0, len),
                                XorRows(blocks[k + g * r / z..k + g * r / z + r / z], len))
  {
    hide GroupSum, XorRows, VAdd, Generator;
    LocalBlock(UniLRC, k, r, z, g, data, len);
    FoldedFits(r, z, g);
  }

  /** Local parity g of AzureLRC: its data blocks only. */
  lemma AzureLocal(k: nat, r: nat, z: nat, g: nat, data: Matrix, len: nat)
    requires ValidShape(AzureLRC, k, r, z) && g < z && IsMatrix(data, k, len)
    ensures Encode(Generator(AzureLRC, k, r, z), data, len)[k + r + g] == GroupSum(Ones(k), data, k / z, g, 0, len)
  {
    hide GroupSum, VAdd, Generator;
    LocalBlock(AzureLRC, k, r, z, g, data, len);
    VAddZeros(GroupSum(Ones(k), data, k / z, g, 0, len));
  }

  /** Local parity g of OptimalLRC: its data blocks, weighed, and all global parities. */
  lemma OptimalLocal(k: nat, r: nat, z: nat, g: nat, data: Matrix, len: nat) returns (w: Vec)
    requires ValidShape(OptimalLRC, k, r, z) && g < z && IsMatrix(data, k, len)
    ensures |w| == k && forall i: nat :: i < k ==> InverseOfXor(w[i], i, k + r)
    ensures var blocks := Encode(Generator(OptimalLRC, k, r, z), data, len);
      blocks[k + r + g] == VAdd(GroupSum(w, data, k / z, g, 0, len), XorRows(blocks[k..k + r], len))
  {
    hide GroupSum, XorRows, VAdd, Generator, LocalVector, InverseOfXor;
    LocalBlock(OptimalLRC, k, r, z, g, data, len);
    LocalWeights(k, r);
    w := LocalVector(k, r);
  }

  /** Local parity g of UniformLRC: its data blocks, weighed, and in the last group all global parities. */
  lemma UniformLocal(k: nat, r: nat, z: nat, g: nat, data: Matrix, len: nat) returns (w: Vec)
    requires ValidShape(UniformLRC, k, r, z) && g < z && IsMatrix(data, k, len)
    ensures |w| == k && forall i: nat :: i < k ==> InverseOfXor(w[i], i, k + r)
    ensures var blocks := Encode(Generator(UniformLRC, k, r, z), data, len);
      blocks[k + r + g] == VAdd(GroupSum(w, data, (k + r) / z, g, 0, len),
                                if g == z - 1 then XorRows(blocks[k..k + r], len) else Zeros(len))
  {
    hide GroupSum, VAdd, Generator, LocalVector, InverseOfXor;
    LocalBlock(UniformLRC, k, r, z, g, data, len);
    LocalWeights(k, r);
    w := LocalVector(k, r);
  }

  /** While the numbers are different bytes, the weight is an inverse. */
  lemma WeightInverts(w: byte, i: nat, j: nat)
    requires i < 256 && j < 256 && i != j && InverseOfXor(w, i, j)
    ensures Mul(w, ((i % 256) as byte) ^ ((j % 256) as byte)) == 1
  {
    hide Mul;
    if i < j {
      DistinctPoints(i, j);
    } else {
      DistinctPoints(j, i);
    }
    assert PointXor(i, j) == ((i % 256) as byte) ^ ((j % 256) as byte);
    PointsCommute(i, j);
  }

  lemma PointsCommute(i: nat, j: nat)
    ensures PointXor(i, j) == PointXor(j, i)
  {
    hide Add, Point;
    AddComm(Point(i), Point(j));
  }

  // ---- Recovery groups ----

  lemma MembersAre(code: CodeType, k: nat, r: nat, z: nat, g: nat, id: nat)
    requires z > 0 && g < z
    ensures var f := FoldedRows(code, k, r, z, g);
      id in Members(code, k, r, z, g) <==>
      DataFrom(code, k, r, z, g) <= id < DataTo(code, k, r, z, g) || f.0 <= id < f.0 + f.1 || id == k + r + g
  {
    hide DataFrom, DataTo, FoldedRows;
    var f := FoldedRows(code, k, r, z, g);
    if DataFrom(code, k, r, z, g) <= id < DataTo(code, k, r, z, g) || f.0 <= id < f.0 + f.1 || id == k + r + g {
      InMembers(code, k, r, z, g, id);
    }
  }

  /** The members of recovery group g are exactly the blocks with that group number. */
  lemma UnilrcMembers(k: nat, r: nat, z: nat, g: nat, id: nat)
    requires z > 0 && k > 0 && k % z == 0 && r % z == 0 && g < z && id < k + r + z
    ensures k / z > 0 && (k <= id < k + r ==> r / z > 0)
    ensures id in Members(UniLRC, k, r, z, g) <==> UnilrcGroup(k, r, z, id) == g
  {
    hide Members, DataFrom, DataTo, FoldedRows;
    Quotient(k, z);
    if k <= id < k + r {
      Quotient(r, z);
    }
    MembersAre(UniLRC, k, r, z, g, id);
    FoldedUnilrc(k, r, z, g);
    if id < k {
      DataMembers(k, r, z, g, id);
    } else if id < k + r {
      GlobalMembers(k, r, z, g, id);
    }
  }

  lemma DataMembers(k: nat, r: nat, z: nat, g: nat, id: nat)
    requires z > 0 && g < z && id < k && k / z > 0 && k == z * (k / z)
    ensures DataFrom(UniLRC, k, r, z, g) <= id < DataTo(UniLRC, k, r, z, g) <==> id / (k / z) == g
  {
    GroupRange(k / z, g, id);
  }

  lemma GlobalMembers(k: nat, r: nat, z: nat, g: nat, id: nat)
    requires z > 0 && g < z && k <= id < k + r && r / z > 0 && r == z * (r / z)
    ensures k + g * r / z <= id < k + g * r / z + r / z <==> (id - k) / (r / z) == g
  {
    var q := r / z;
    GroupRange(q, g, id - k);
    Regroup(g, z, q);
    DivExact(z, g * q);
  }
}

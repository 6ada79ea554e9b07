/**
 * Repair inside one local group.  In every locally repairable code the
 * members of a group, weighted as the decoder weights them, add up to zero, so
 * any one of them is determined by the others.
 */
module LocalRepair {
  import opened Gf256Tables
  import opened Gf256
  import opened LinearAlgebra
  import opened MatrixBuffer
  import opened Generators
  import opened Encoding
  import opened DecodePlan
  import opened Arithmetic

  function Range(lo: nat, hi: nat): (ids: seq<nat>)
    requires lo <= hi
    ensures |ids| == hi - lo
  {
    seq(hi - lo, i requires 0 <= i => lo + i)
  }

  function Min(a: nat, b: nat): nat {
    if a <= b then a else b
  }

  /** The data blocks of group g are those from DataFrom to DataTo. */
  function DataFrom(code: CodeType, k: nat, r: nat, z: nat, g: nat): nat
    requires z > 0
  {
    Min(g * GroupSize(code, k, r, z), k)
  }

  function DataTo(code: CodeType, k: nat, r: nat, z: nat, g: nat): (hi: nat)
    requires z > 0
    ensures DataFrom(code, k, r, z, g) <= hi <= k
  {
    Min((g + 1) * GroupSize(code, k, r, z), k)
  }

  /** The blocks of local group g in ascending order: data, the global parities folded in, the local parity. */
  function Members(code: CodeType, k: nat, r: nat, z: nat, g: nat): (ids: seq<nat>)
    requires z > 0 && g < z
    ensures forall i :: 0 <= i < |ids| ==> ids[i] < k + r + z
  {
    var f := FoldedRows(code, k, r, z, g);
    Range(DataFrom(code, k, r, z, g), DataTo(code, k, r, z, g)) + Range(f.0, f.0 + f.1) + [k + r + g]
  }

  /** The decoder's weight of a block. */
  function WeightOf(code: CodeType, k: nat, r: nat, id: nat): byte {
    if id < k then Weights(code, k, r)[id] else 1
  }

  function WeightsOf(code: CodeType, k: nat, r: nat, ids: seq<nat>): (v: Vec)
    ensures |v| == |ids|
  {
    seq(|ids|, i requires 0 <= i < |ids| => WeightOf(code, k, r, ids[i]))
  }

  // ---- Combining concatenations ----

  lemma {:induction false} CombineAppend(x: Vec, y: Vec, a: Matrix, b: Matrix, cols: nat)
    requires IsMatrix(a, |x|, cols) && IsMatrix(b, |y|, cols)
    ensures Combine(x + y, a + b, cols) == VAdd(Combine(x, a, cols), Combine(y, b, cols))
  {
    hide Add, Mul;
    if |x| == 0 {
      assert x + y == y && a + b == b;
      VAddZeros(Combine(y, b, cols));
    } else {
      assert (x + y)[1..] == x[1..] + y && (a + b)[1..] == a[1..] + b;
      CombineAppend(x[1..], y, a[1..], b, cols);
      VAddAssoc(VScale(x[0], a[0]), Combine(x[1..], a[1..], cols), Combine(y, b, cols));
    }
  }

  lemma ScaleOne(v: Vec)
    ensures VScale(1, v) == v
  {
    hide Mul;
    forall i | 0 <= i < |v|
      ensures Mul(1, v[i]) == v[i]
    {
      MulOne(v[i]);
      MulComm(1, v[i]);
    }
  }

  /** Weighting every row by 1 is summing. */
  lemma {:induction false} CombineOnes(m: Matrix, cols: nat)
    requires IsMatrix(m, |m|, cols)
    ensures Combine(Ones(|m|), m, cols) == XorRows(m, cols)
  {
    hide Add, Mul;
    if |m| > 0 {
      var n := |m| - 1;
      CombineOnes(m[..n], cols);
      assert Ones(|m|) == Ones(n) + [1] && m == m[..n] + [m[n]];
      CombineSnoc(Ones(n), m[..n], 1, m[n]);
      ScaleOne(m[n]);
    }
  }

  /** If a weighted sum vanishes, each term equals the sum of the others. */
  lemma OneTermIsTheRest(x: Vec, m: Matrix, cols: nat, i: nat)
    requires IsMatrix(m, |x|, cols) && i < |x|
    requires Combine(x, m, cols) == Zeros(cols)
    ensures VScale(x[i], m[i]) == Combine(x[..i] + x[i + 1..], m[..i] + m[i + 1..], cols)
  {
    hide Add, Mul, Combine;
    var p, q := Combine(x[..i], m[..i], cols), Combine(x[i + 1..], m[i + 1..], cols);
    var t := VScale(x[i], m[i]);
    assert x == x[..i] + ([x[i]] + x[i + 1..]) && m == m[..i] + ([m[i]] + m[i + 1..]);
    CombineAppend(x[..i], [x[i]] + x[i + 1..], m[..i], [m[i]] + m[i + 1..], cols);
    CombineAppend([x[i]], x[i + 1..], [m[i]], m[i + 1..], cols);
    CombineAppend(x[..i], x[i + 1..], m[..i], m[i + 1..], cols);
    CombineOne(x[i], m[i]);
    VAddComm(t, q);
    VAddAssoc(p, q, t);
    SumZero(VAdd(p, q), t);
  }

  lemma CombineOne(a: byte, row: Vec)
    ensures Combine([a], [row], |row|) == VScale(a, row)
  {
    hide Add, Mul;
    VAddZeros(VScale(a, row));
  }

  lemma SumZero(x: Vec, y: Vec)
    requires |x| == |y| && VAdd(x, y) == Zeros(|x|)
    ensures x == y
  {
    hide Add;
    forall i | 0 <= i < |x|
      ensures x[i] == y[i]
    {
      assert VAdd(x, y)[i] == 0;
      AddCancel(x[i], y[i]);
    }
  }

  // ---- A group vanishes ----

  function Units(k: nat, ids: seq<nat>): (m: Matrix)
    ensures IsMatrix(m, |ids|, k)
  {
    seq(|ids|, i requires 0 <= i < |ids| => Unit(k, ids[i]))
  }

  /** w between lo and hi, zero elsewhere. */
  function Window(w: Vec, lo: nat, hi: nat): (v: Vec)
    ensures |v| == |w|
  {
    seq(|w|, c requires 0 <= c < |w| => if lo <= c < hi then w[c] else 0)
  }

  lemma {:induction false} UnitsSum(w: Vec, lo: nat, hi: nat)
    requires lo <= hi <= |w|
    ensures Combine(w[lo..hi], Units(|w|, Range(lo, hi)), |w|) == Window(w, lo, hi)
  {
    hide Add, Mul;
    var k := |w|;
    if lo == hi {
      assert Window(w, lo, hi) == Zeros(k);
    } else {
      var n := hi - 1;
      UnitsSum(w, lo, n);
      assert w[lo..hi] == w[lo..n] + [w[n]];
      assert Units(k, Range(lo, hi)) == Units(k, Range(lo, n)) + [Unit(k, n)];
      CombineSnoc(w[lo..n], Units(k, Range(lo, n)), w[n], Unit(k, n));
      MulZeroRight(w[n]);
      MulOne(w[n]);
      forall c | 0 <= c < k
        ensures VAdd(Window(w, lo, n), VScale(w[n], Unit(k, n)))[c] == Window(w, lo, hi)[c]
      {
        AddZero(w[c]);
        AddZero(0);
      }
    }
  }

  /** Block i belongs to group g exactly if it lies in the group's range. */
  lemma GroupRange(size: nat, g: nat, i: nat)
    requires size > 0
    ensures GroupOf(size, i) == g <==> g * size <= i < (g + 1) * size
  {
    var q := GroupOf(size, i);
    assert i == q * size + i % size;
    assert (g + 1) * size == g * size + size;
    if q < g {
      assert g * size == q * size + (g - q) * size;
      AtLeast(g - q, size);
    } else if q > g {
      assert q * size == g * size + (q - g) * size;
      AtLeast(q - g, size);
    }
  }

  lemma GroupRowIsRange(code: CodeType, k: nat, r: nat, z: nat, g: nat)
    requires ValidShape(code, k, r, z) && g < z
    ensures GroupRow(k, GroupSize(code, k, r, z), g, Weights(code, k, r))
         == Window(Weights(code, k, r), DataFrom(code, k, r, z, g), DataTo(code, k, r, z, g))
  {
    hide Weights, GroupOf;
    var size := GroupSize(code, k, r, z);
    forall c | 0 <= c < k
      ensures GroupOf(size, c) == g <==> DataFrom(code, k, r, z, g) <= c < DataTo(code, k, r, z, g)
    {
      GroupRange(size, g, c);
    }
  }

  lemma CombineThree(x: Vec, y: Vec, a: Matrix, b: Matrix, last: Vec)
    requires IsMatrix(a, |x|, |last|) && IsMatrix(b, |y|, |last|)
    ensures Combine(x + y + [1], a + b + [last], |last|)
         == VAdd(VAdd(Combine(x, a, |last|), Combine(y, b, |last|)), last)
  {
    hide Combine, VAdd, VScale;
    CombineAppend(x + y, [1], a + b, [last], |last|);
    CombineAppend(x, y, a, b, |last|);
    CombineOne(1, last);
    ScaleOne(last);
  }

  /** The generator rows of a group, weighted, add up to zero. */
  lemma GroupRowsVanish(code: CodeType, k: nat, r: nat, z: nat, g: nat)
    requires ValidShape(code, k, r, z) && g < z
    ensures var ids := Members(code, k, r, z, g);
      Combine(WeightsOf(code, k, r, ids), Pick(Generator(code, k, r, z), ids), k) == Zeros(k)
  {
    hide Combine, Weights, GroupSize, FoldedRows, XorRows, GroupRow, VAdd, Window, DataFrom, DataTo, Units,
         WeightsOf, Members, Generator;
    var w := Weights(code, k, r);
    var lo, hi := DataFrom(code, k, r, z, g), DataTo(code, k, r, z, g);
    var f := FoldedRows(code, k, r, z, g);
    var local := LocalRow(code, k, r, z, g);
    MembersWeights(code, k, r, z, g);
    MembersRows(code, k, r, z, g);
    CombineThree(w[lo..hi], Ones(f.1), Units(k, Range(lo, hi)), BaseRows(code, k, f.0, f.1), local);
    UnitsSum(w, lo, hi);
    GroupRowIsRange(code, k, r, z, g);
    CombineOnes(BaseRows(code, k, f.0, f.1), k);
    VAddZeros(local);
  }

  lemma MembersRows(code: CodeType, k: nat, r: nat, z: nat, g: nat)
    requires ValidShape(code, k, r, z) && g < z
    ensures var f := FoldedRows(code, k, r, z, g);
      Pick(Generator(code, k, r, z), Members(code, k, r, z, g))
      == Units(k, Range(DataFrom(code, k, r, z, g), DataTo(code, k, r, z, g)))
         + BaseRows(code, k, f.0, f.1) + [LocalRow(code, k, r, z, g)]
  {
    hide GroupSize, FoldedRows, LocalRow, BaseRow;
    var gen := Generator(code, k, r, z);
    var lo, hi := DataFrom(code, k, r, z, g), DataTo(code, k, r, z, g);
    var f := FoldedRows(code, k, r, z, g);
    DataRows(code, k, r, z, Range(lo, hi));
    assert Pick(gen, Range(f.0, f.0 + f.1)) == BaseRows(code, k, f.0, f.1);
    assert Pick(gen, [k + r + g]) == [LocalRow(code, k, r, z, g)];
    PickAppend(gen, Range(lo, hi) + Range(f.0, f.0 + f.1), [k + r + g]);
    PickAppend(gen, Range(lo, hi), Range(f.0, f.0 + f.1));
  }

  lemma PickAppend(g: Matrix, a: seq<nat>, b: seq<nat>)
    requires forall i :: 0 <= i < |a| ==> a[i] < |g|
    requires forall i :: 0 <= i < |b| ==> b[i] < |g|
    ensures Pick(g, a + b) == Pick(g, a) + Pick(g, b)
  {
  }

  lemma DataRows(code: CodeType, k: nat, r: nat, z: nat, ids: seq<nat>)
    requires ValidShape(code, k, r, z) && forall i :: 0 <= i < |ids| ==> ids[i] < k
    ensures Pick(Generator(code, k, r, z), ids) == Units(k, ids)
  {
    forall i | 0 <= i < |ids|
      ensures Pick(Generator(code, k, r, z), ids)[i] == Units(k, ids)[i]
    {
    }
  }

  lemma MembersWeights(code: CodeType, k: nat, r: nat, z: nat, g: nat)
    requires ValidShape(code, k, r, z) && g < z
    ensures var f := FoldedRows(code, k, r, z, g);
      WeightsOf(code, k, r, Members(code, k, r, z, g))
      == Weights(code, k, r)[DataFrom(code, k, r, z, g)..DataTo(code, k, r, z, g)] + Ones(f.1) + [1]
  {
    hide Weights, GroupSize, FoldedRows;
  }

  /** The blocks of a group, weighted, add up to zero. */
  lemma GroupVanishes(code: CodeType, k: nat, r: nat, z: nat, g: nat, data: Matrix, len: nat)
    requires ValidShape(code, k, r, z) && g < z && IsMatrix(data, k, len)
    ensures var ids := Members(code, k, r, z, g);
      Combine(WeightsOf(code, k, r, ids), Pick(Encode(Generator(code, k, r, z), data, len), ids), len) == Zeros(len)
  {
    hide Add, Mul, Combine, Members, GeneratorRow;
    var ids := Members(code, k, r, z, g);
    var gen := Generator(code, k, r, z);
    GroupRowsVanish(code, k, r, z, g);
    assert Pick(Encode(gen, data, len), ids) == MatMul(Pick(gen, ids), data, len);
    CombineAssoc(WeightsOf(code, k, r, ids), Pick(gen, ids), data, len);
    CombineZeros(data, len);
  }

  // ---- Decoders ----

  /** `xor_avx` without the assembly: byte by byte, block by block. */
  method XorBlocks(blocks: Matrix, len: nat) returns (dest: Vec)
    requires IsMatrix(blocks, |blocks|, len)
    ensures dest == XorRows(blocks, len)
  {
    hide Add;
    dest := [];
    var i := 0;
    while i < len
      invariant i <= len && dest == XorRows(blocks, len)[..i]
    {
      var acc: byte := 0;
      var v := 0;
      assert blocks[..0] == [];
      while v < |blocks|
        invariant v <= |blocks| && acc == XorRows(blocks[..v], len)[i]
      {
        assert blocks[..v + 1][..v] == blocks[..v];
        acc := Add(acc, blocks[v][i]);
        v := v + 1;
      }
      assert blocks[..v] == blocks;
      dest := dest + [acc];
      i := i + 1;
    }
  }

  /** The members of a group without the i-th. */
  function Without<T>(s: seq<T>, i: nat): (t: seq<T>)
    requires i < |s|
    ensures |t| == |s| - 1
  {
    s[..i] + s[i + 1..]
  }

  /** Any member of a group, weighted, is the weighted sum of the other members. */
  lemma MemberIsTheRest(code: CodeType, k: nat, r: nat, z: nat, g: nat, i: nat, data: Matrix, len: nat)
    requires ValidShape(code, k, r, z) && g < z && IsMatrix(data, k, len)
    requires i < |Members(code, k, r, z, g)|
    ensures var ids := Members(code, k, r, z, g);
      var blocks := Encode(Generator(code, k, r, z), data, len);
      VScale(WeightOf(code, k, r, ids[i]), blocks[ids[i]])
      == Combine(WeightsOf(code, k, r, Without(ids, i)), Pick(blocks, Without(ids, i)), len)
  {
    hide Combine, Members, Weights, Generator, Encode;
    var ids := Members(code, k, r, z, g);
    var blocks := Encode(Generator(code, k, r, z), data, len);
    GroupVanishes(code, k, r, z, g, data, len);
    OneTermIsTheRest(WeightsOf(code, k, r, ids), Pick(blocks, ids), len, i);
    assert Without(WeightsOf(code, k, r, ids), i) == WeightsOf(code, k, r, Without(ids, i));
    assert Without(Pick(blocks, ids), i) == Pick(blocks, Without(ids, i));
  }

  /** Where every weight is 1, a member is the XOR of the others: UniLRC, and the local groups of AzureLRC. */
  lemma MemberIsXorOfTheRest(code: CodeType, k: nat, r: nat, z: nat, g: nat, i: nat, data: Matrix, len: nat)
    requires code.UniLRC? || code.AzureLRC?
    requires ValidShape(code, k, r, z) && g < z && IsMatrix(data, k, len)
    requires i < |Members(code, k, r, z, g)|
    ensures var ids := Members(code, k, r, z, g);
      var blocks := Encode(Generator(code, k, r, z), data, len);
      XorRows(Pick(blocks, Without(ids, i)), len) == blocks[ids[i]]
  {
    hide Combine, Members, XorRows, Generator, Encode;
    var ids := Members(code, k, r, z, g);
    var blocks := Encode(Generator(code, k, r, z), data, len);
    MemberIsTheRest(code, k, r, z, g, i, data, len);
    assert WeightsOf(code, k, r, Without(ids, i)) == Ones(|ids| - 1);
    CombineOnes(Pick(blocks, Without(ids, i)), len);
    ScaleOne(blocks[ids[i]]);
  }

  /** `get_recovery_group_ids` for UniLRC. */
  function UnilrcGroup(k: nat, r: nat, z: nat, failed: nat): nat
    requires z > 0 && k / z > 0 && (k <= failed < k + r ==> r / z > 0)
  {
    if failed < k then GroupOf(k / z, failed)
    else if failed < k + r then GroupOf(r / z, failed - k)
    else failed - k - r
  }

  /** With z dividing k and r, the recovery group of every block is one of the z groups and contains it. */
  lemma UnilrcGroupContains(k: nat, r: nat, z: nat, failed: nat)
    requires z > 0 && k > 0 && k % z == 0 && r % z == 0 && failed < k + r + z
    ensures k / z > 0 && (k <= failed < k + r ==> r / z > 0) && ValidShape(UniLRC, k, r, z)
    ensures UnilrcGroup(k, r, z, failed) < z
    ensures failed in Members(UniLRC, k, r, z, UnilrcGroup(k, r, z, failed))
  {
    hide Members, DataFrom, DataTo, GroupOf;
    Quotient(k, z);
    if failed < k {
      DataGroup(k, r, z, failed);
    } else if failed < k + r {
      Quotient(r, z);
      GlobalGroup(k, r, z, failed);
    } else {
      InMembers(UniLRC, k, r, z, failed - k - r, failed);
    }
  }

  lemma Quotient(n: nat, z: nat)
    requires z > 0 && n > 0 && n % z == 0
    ensures n / z > 0 && n == z * (n / z) && n == n / z * z
  {
    assert n == z * (n / z);
  }

  lemma DataGroup(k: nat, r: nat, z: nat, failed: nat)
    requires z > 0 && k / z > 0 && k == z * (k / z) && failed < k
    ensures GroupOf(k / z, failed) < z
    ensures failed in Members(UniLRC, k, r, z, GroupOf(k / z, failed))
  {
    hide FoldedRows, Members, GroupOf;
    var g := GroupOf(k / z, failed);
    GroupRange(k / z, g, failed);
    GroupExists(failed, k / z, z);
    InMembers(UniLRC, k, r, z, g, failed);
  }

  lemma GlobalGroup(k: nat, r: nat, z: nat, failed: nat)
    requires z > 0 && r / z > 0 && r == z * (r / z) && k <= failed < k + r
    ensures GroupOf(r / z, failed - k) < z
    ensures failed in Members(UniLRC, k, r, z, GroupOf(r / z, failed - k))
  {
    hide FoldedRows, Members, GroupOf, DataFrom, DataTo;
    var q := r / z;
    var g := GroupOf(q, failed - k);
    GroupRange(q, g, failed - k);
    GroupExists(failed - k, q, z);
    Regroup(g, z, q);
    DivExact(z, g * q);
    FoldedUnilrc(k, r, z, g);
    InMembers(UniLRC, k, r, z, g, failed);
  }

  lemma Regroup(g: nat, z: nat, q: nat)
    ensures g * (z * q) == z * (g * q)
    ensures (g + 1) * q == g * q + q
  {
  }

  lemma DivExact(z: nat, n: nat)
    requires z > 0
    ensures z * n / z == n
  {
    var q := z * n / z;
    assert z * q + z * n % z == z * n;
    assert (n - q) * z == z * n - z * q == -((q - n) * z);
    if n > q {
      AtLeast(n - q, z);
    } else if n < q {
      AtLeast(q - n, z);
    }
  }

  lemma FoldedUnilrc(k: nat, r: nat, z: nat, g: nat)
    requires z > 0 && g < z
    ensures FoldedRows(UniLRC, k, r, z, g) == (k + g * r / z, r / z)
  {
  }

  lemma InMembers(code: CodeType, k: nat, r: nat, z: nat, g: nat, id: nat)
    requires z > 0 && g < z
    requires var f := FoldedRows(code, k, r, z, g);
      DataFrom(code, k, r, z, g) <= id < DataTo(code, k, r, z, g) || f.0 <= id < f.0 + f.1 || id == k + r + g
    ensures id in Members(code, k, r, z, g)
  {
    hide DataFrom, DataTo, FoldedRows;
    var lo, hi := DataFrom(code, k, r, z, g), DataTo(code, k, r, z, g);
    var f := FoldedRows(code, k, r, z, g);
    var ids := Members(code, k, r, z, g);
    if lo <= id < hi {
      assert ids[id - lo] == id;
    } else if f.0 <= id < f.0 + f.1 {
      assert ids[hi - lo + (id - f.0)] == id;
    } else {
      assert ids[|ids| - 1] == id;
    }
  }

  /**
   * `decode_unilrc` XORs the blocks it is given (`XorBlocks`).  For every block
   * of a UniLRC stripe, the rest of its recovery group rebuilds it that way.
   */
  lemma UnilrcDecodes(k: nat, r: nat, z: nat, failed: nat, data: Matrix, len: nat) returns (i: nat)
    requires z > 0 && k > 0 && k % z == 0 && r % z == 0 && failed < k + r + z && IsMatrix(data, k, len)
    ensures k / z > 0 && (k <= failed < k + r ==> r / z > 0) && ValidShape(UniLRC, k, r, z)
    ensures UnilrcGroup(k, r, z, failed) < z
    ensures var ids := Members(UniLRC, k, r, z, UnilrcGroup(k, r, z, failed));
      var blocks := Encode(Generator(UniLRC, k, r, z), data, len);
      i < |ids| && ids[i] == failed && XorRows(Pick(blocks, Without(ids, i)), len) == blocks[failed]
  {
    hide Members, Generator, Encode, UnilrcGroup;
    UnilrcGroupContains(k, r, z, failed);
    var ids := Members(UniLRC, k, r, z, UnilrcGroup(k, r, z, failed));
    i :| 0 <= i < |ids| && ids[i] == failed;
    MemberIsXorOfTheRest(UniLRC, k, r, z, UnilrcGroup(k, r, z, failed), i, data, len);
  }

  /** The coefficients `decode_uniform_lrc` applies to the surviving blocks. */
  function DecodeVector(k: nat, r: nat, ids: seq<nat>, failed: nat): (v: Vec)
    ensures |v| == |ids|
  {
    if failed < k then VScale(GfInv(LocalVector(k, r)[failed]), WeightsOf(UniformLRC, k, r, ids))
    else WeightsOf(UniformLRC, k, r, ids)
  }

  /** No local weight is zero while the evaluation points are distinct bytes. */
  lemma LocalWeightNonZero(k: nat, r: nat, i: nat)
    requires i < k && k + r < 256
    ensures LocalVector(k, r)[i] != 0
  {
    hide GfInv;
    DistinctPoints(i, k + r);
  }

  lemma DistinctPoints(i: nat, j: nat)
    requires i < j < 256
    ensures PointXor(i, j) != 0
  {
    hide Add;
    ByteOfNat(i);
    ByteOfNat(j);
    AddCancel(Point(i), Point(j));
  }

  lemma ScaleTwice(a: byte, b: byte, v: Vec)
    requires Mul(a, b) == 1
    ensures VScale(a, VScale(b, v)) == v
  {
    hide Mul;
    forall i | 0 <= i < |v|
      ensures Mul(a, Mul(b, v[i])) == v[i]
    {
      MulAssoc(a, b, v[i]);
      MulOne(v[i]);
      MulComm(1, v[i]);
    }
  }

  /** The decoding vector rebuilds any member of a UniformLRC group from the others. */
  lemma UniformDecodes(k: nat, r: nat, z: nat, g: nat, i: nat, data: Matrix, len: nat)
    requires ValidShape(UniformLRC, k, r, z) && k + r < 256 && g < z && IsMatrix(data, k, len)
    requires i < |Members(UniformLRC, k, r, z, g)|
    ensures var ids := Members(UniformLRC, k, r, z, g);
      var blocks := Encode(Generator(UniformLRC, k, r, z), data, len);
      Combine(DecodeVector(k, r, Without(ids, i), ids[i]), Pick(blocks, Without(ids, i)), len) == blocks[ids[i]]
  {
    hide Combine, Members, Generator, Encode, LocalVector, GfInv, Mul;
    var ids := Members(UniformLRC, k, r, z, g);
    var rest := Without(ids, i);
    var blocks := Encode(Generator(UniformLRC, k, r, z), data, len);
    var failed := ids[i];
    MemberIsTheRest(UniformLRC, k, r, z, g, i, data, len);
    if failed < k {
      var w := LocalVector(k, r)[failed];
      LocalWeightNonZero(k, r, failed);
      MulComm(w, GfInv(w));
      CombineScale(GfInv(w), WeightsOf(UniformLRC, k, r, rest), Pick(blocks, rest), len);
      ScaleTwice(GfInv(w), w, blocks[failed]);
    } else {
      ScaleOne(blocks[failed]);
    }
  }

  /** What the helpers `ids` decode to. */
  function Decoded(k: nat, r: nat, ids: seq<nat>, failed: nat, blocks: Matrix, len: nat): (v: Vec)
    requires IsMatrix(blocks, |blocks|, len) && Below(ids, |blocks|)
    ensures |v| == len
  {
    Combine(DecodeVector(k, r, ids, failed), Pick(blocks, ids), len)
  }

  predicate Below(ids: seq<nat>, n: nat) {
    forall i :: 0 <= i < |ids| ==> ids[i] < n
  }

  /** Decoding in two parts and adding the partial results is decoding all at once. */
  lemma DecodedAppend(k: nat, r: nat, a: seq<nat>, b: seq<nat>, failed: nat, blocks: Matrix, len: nat)
    requires IsMatrix(blocks, |blocks|, len) && Below(a, |blocks|) && Below(b, |blocks|)
    ensures Below(a + b, |blocks|)
    ensures Decoded(k, r, a + b, failed, blocks, len) == VAdd(Decoded(k, r, a, failed, blocks, len), Decoded(k, r, b, failed, blocks, len))
  {
    hide Combine, Mul, GfInv, LocalVector, WeightOf;
    assert WeightsOf(UniformLRC, k, r, a + b) == WeightsOf(UniformLRC, k, r, a) + WeightsOf(UniformLRC, k, r, b);
    assert DecodeVector(k, r, a + b, failed) == DecodeVector(k, r, a, failed) + DecodeVector(k, r, b, failed);
    PickAppend(blocks, a, b);
    CombineAppend(DecodeVector(k, r, a, failed), DecodeVector(k, r, b, failed), Pick(blocks, a), Pick(blocks, b), len);
  }

  /** The helpers of all parts, one part after the other. */
  function Joined(parts: seq<seq<nat>>): seq<nat> {
    if parts == [] then [] else parts[0] + Joined(parts[1..])
  }

  /** The sum of what the parts decode to. */
  function SumOfParts(k: nat, r: nat, parts: seq<seq<nat>>, failed: nat, blocks: Matrix, len: nat): (sum: Vec)
    requires IsMatrix(blocks, |blocks|, len) && HelpersIn(parts, |blocks|)
    ensures |sum| == len
  {
    if parts == [] then Zeros(len)
    else VAdd(Decoded(k, r, parts[0], failed, blocks, len), SumOfParts(k, r, parts[1..], failed, blocks, len))
  }

  predicate HelpersIn(parts: seq<seq<nat>>, n: nat) {
    forall x :: 0 <= x < |parts| ==> Below(parts[x], n)
  }

  lemma NothingDecoded(k: nat, r: nat, failed: nat, blocks: Matrix, len: nat)
    requires IsMatrix(blocks, |blocks|, len)
    ensures Decoded(k, r, [], failed, blocks, len) == Zeros(len)
  {
    hide Mul, GfInv, LocalVector, DecodeVector;
  }

  /** Decoding rack by rack and adding the partial results is decoding all at once. */
  lemma {:induction false} DecodeInParts(k: nat, r: nat, parts: seq<seq<nat>>, failed: nat, blocks: Matrix, len: nat)
    requires IsMatrix(blocks, |blocks|, len) && HelpersIn(parts, |blocks|)
    ensures Below(Joined(parts), |blocks|)
    ensures SumOfParts(k, r, parts, failed, blocks, len) == Decoded(k, r, Joined(parts), failed, blocks, len)
  {
    hide Decoded;
    if parts == [] {
      NothingDecoded(k, r, failed, blocks, len);
    } else {
      DecodeInParts(k, r, parts[1..], failed, blocks, len);
      DecodedAppend(k, r, parts[0], Joined(parts[1..]), failed, blocks, len);
    }
  }

  /** A helper may come first. */
  lemma FirstInstead(k: nat, r: nat, before: seq<nat>, first: seq<nat>, after: seq<nat>, failed: nat, blocks: Matrix,
                     len: nat)
    requires IsMatrix(blocks, |blocks|, len) && Below(before, |blocks|) && Below(first, |blocks|)
    requires Below(after, |blocks|)
    ensures Below(first + (before + after), |blocks|) && Below(before + (first + after), |blocks|)
    ensures Decoded(k, r, first + (before + after), failed, blocks, len) == Decoded(k, r, before + (first + after), failed, blocks, len)
  {
    hide Decoded, Below;
    DecodedAppend(k, r, before, after, failed, blocks, len);
    DecodedAppend(k, r, first, before + after, failed, blocks, len);
    DecodedAppend(k, r, first, after, failed, blocks, len);
    DecodedAppend(k, r, before, first + after, failed, blocks, len);
    Exchange(Decoded(k, r, before, failed, blocks, len), Decoded(k, r, first, failed, blocks, len),
             Decoded(k, r, after, failed, blocks, len));
  }

  /** The order of the helpers does not matter. */
  lemma {:induction false} DecodeInAnyOrder(k: nat, r: nat, a: seq<nat>, b: seq<nat>, failed: nat, blocks: Matrix,
                                            len: nat)
    requires IsMatrix(blocks, |blocks|, len) && multiset(a) == multiset(b) && Below(a, |blocks|)
    ensures Below(b, |blocks|)
    ensures Decoded(k, r, a, failed, blocks, len) == Decoded(k, r, b, failed, blocks, len)
  {
    hide Decoded;
    SameRange(a, b, |blocks|);
    if a == [] {
      assert |b| == |multiset(b)| == 0;
    } else {
      assert a[0] in multiset(b);
      var j :| 0 <= j < |b| && b[j] == a[0];
      var rest := b[..j] + b[j + 1..];
      SameWithoutFirst(a, b, j);
      DecodeInAnyOrder(k, r, a[1..], rest, failed, blocks, len);
      assert a == [a[0]] + a[1..] && b == b[..j] + ([a[0]] + b[j + 1..]);
      DecodedAppend(k, r, [a[0]], a[1..], failed, blocks, len);
      DecodedAppend(k, r, [a[0]], rest, failed, blocks, len);
      FirstInstead(k, r, b[..j], [a[0]], b[j + 1..], failed, blocks, len);
    }
  }

  lemma SameRange(a: seq<nat>, b: seq<nat>, n: nat)
    requires multiset(a) == multiset(b) && Below(a, n)
    ensures Below(b, n)
  {
    forall i | 0 <= i < |b|
      ensures b[i] < n
    {
      assert b[i] in multiset(a);
    }
  }

  lemma SameWithoutFirst(a: seq<nat>, b: seq<nat>, j: nat)
    requires a != [] && j < |b| && b[j] == a[0] && multiset(a) == multiset(b)
    ensures multiset(a[1..]) == multiset(b[..j] + b[j + 1..])
  {
    assert a == [a[0]] + a[1..] && b == b[..j] + ([a[0]] + b[j + 1..]);
    assert multiset(a[1..]) == multiset(a) - multiset{a[0]};
    assert multiset(b[..j] + b[j + 1..]) == multiset(b) - multiset{a[0]};
  }

  lemma Exchange(x: Vec, y: Vec, z: Vec)
    requires |x| == |y| == |z|
    ensures VAdd(x, VAdd(y, z)) == VAdd(y, VAdd(x, z))
  {
    hide Add;
    forall i | 0 <= i < |x|
      ensures Add(x[i], Add(y[i], z[i])) == Add(y[i], Add(x[i], z[i]))
    {
      AddAssoc(x[i], y[i], z[i]);
      AddComm(x[i], y[i]);
      AddAssoc(y[i], x[i], z[i]);
    }
  }

  /** Split among racks in any way, the surviving members of a UniformLRC group rebuild the failed one. */
  lemma RacksDecode(k: nat, r: nat, z: nat, g: nat, i: nat, data: Matrix, len: nat, parts: seq<seq<nat>>)
    requires ValidShape(UniformLRC, k, r, z) && k + r < 256 && g < z && IsMatrix(data, k, len)
    requires i < |Members(UniformLRC, k, r, z, g)|
    requires multiset(Joined(parts)) == multiset(Without(Members(UniformLRC, k, r, z, g), i))
    ensures var ids := Members(UniformLRC, k, r, z, g);
      var blocks := Encode(Generator(UniformLRC, k, r, z), data, len);
      HelpersIn(parts, |blocks|) && SumOfParts(k, r, parts, ids[i], blocks, len) == blocks[ids[i]]
  {
    hide Combine, Generator, Encode, DecodeVector, Members, SumOfParts;
    var ids := Members(UniformLRC, k, r, z, g);
    var blocks := Encode(Generator(UniformLRC, k, r, z), data, len);
    UniformDecodes(k, r, z, g, i, data, len);
    DecodeInAnyOrder(k, r, Without(ids, i), Joined(parts), ids[i], blocks, len);
    JoinedIn(parts, |blocks|);
    DecodeInParts(k, r, parts, ids[i], blocks, len);
  }

  lemma {:induction false} JoinedIn(parts: seq<seq<nat>>, n: nat)
    requires Below(Joined(parts), n)
    ensures HelpersIn(parts, n)
  {
    if parts != [] {
      var rest := Joined(parts[1..]);
      assert Joined(parts) == parts[0] + rest;
      forall i | 0 <= i < |parts[0]|
        ensures parts[0][i] < n
      {
        assert Joined(parts)[i] == parts[0][i];
      }
      forall i | 0 <= i < |rest|
        ensures rest[i] < n
      {
        assert Joined(parts)[|parts[0]| + i] == rest[i];
      }
      JoinedIn(parts[1..], n);
      assert forall x :: 1 <= x < |parts| ==> parts[x] == parts[1..][x - 1];
    }
  }

  /** `decode_uniform_lrc`: the decoding vector, then one row of the encoding loop. */
  method DecodeUniformLrc(k: nat, r: nat, ids: seq<nat>, survivors: Matrix, len: nat, failed: nat) returns (res: Vec)
    requires IsMatrix(survivors, |ids|, len)
    ensures res == Combine(DecodeVector(k, r, ids, failed), survivors, len)
  {
    hide Combine, Mul, GfInv, LocalVector, Encode;
    var decodeVector := BuildDecodeVector(k, r, ids, failed);
    var out := new byte[1, len];
    EncodeData(len, [decodeVector], survivors, out);
    EncodeRow(decodeVector, survivors, len);
    res := CopyRow(out, 0);
  }

  /** The decoding vector: the local weights, scaled in place if a data block failed. */
  method BuildDecodeVector(k: nat, r: nat, ids: seq<nat>, failed: nat) returns (decodeVector: Vec)
    ensures decodeVector == DecodeVector(k, r, ids, failed)
  {
    hide Mul, GfInv, GfMul, LocalVector;
    var localVector := LocalVector(k, r);
    decodeVector := [];
    var i := 0;
    while i < |ids|
      invariant i <= |ids| && decodeVector == WeightsOf(UniformLRC, k, r, ids)[..i]
    {
      decodeVector := decodeVector + [if ids[i] < k then localVector[ids[i]] else 1];
      i := i + 1;
    }
    if failed < k {
      decodeVector := ScaleInPlace(decodeVector, GfInv(localVector[failed]));
    }
  }

  /** Multiplies one entry after the other. */
  method ScaleInPlace(plain: Vec, factor: byte) returns (scaled: Vec)
    ensures scaled == VScale(factor, plain)
  {
    hide Mul, GfMul;
    scaled := plain;
    var i := 0;
    while i < |plain|
      invariant i <= |plain| == |scaled|
      invariant scaled == VScale(factor, plain)[..i] + plain[i..]
    {
      MulComm(scaled[i], factor);
      scaled := scaled[i := GfMul(scaled[i], factor)];
      i := i + 1;
    }
  }

  lemma EncodeRow(row: Vec, src: Matrix, len: nat)
    requires IsMatrix(src, |row|, len)
    ensures Encode([row], src, len)[0] == Combine(row, src, len)
  {
  }
}

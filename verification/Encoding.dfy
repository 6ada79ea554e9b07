/**
 * Encoding data blocks: the multiplication tables, the portable encoding loop
 * that reads them, and what it computes.  Block i of a stripe is the
 * combination of the data blocks with row i of the generator matrix.
 */
module Encoding {
  import opened Gf256Tables
  import opened Gf256
  import opened LinearAlgebra
  import opened MatrixBuffer
  import opened Generators

  /** All blocks of a stripe. */
  function Encode(g: Matrix, data: Matrix, len: nat): (blocks: Matrix)
    requires IsMatrix(g, |g|, |data|) && IsMatrix(data, |data|, len)
    ensures IsMatrix(blocks, |g|, len)
  {
    MatMul(g, data, len)
  }

  // ---- Multiplication tables ----

  /** The sixteen sums of c, 2c, 4c and 8c, in the order of the table. */
  function NibbleTable(c: byte): (t: seq<byte>)
    ensures |t| == 16 && t[1] == c
  {
    hide Times2, Add;
    var c2 := Times2(c);
    var c4 := Times2(c2);
    var c8 := Times2(c4);
    var c3 := Add(c2, c);
    [0, c, c2, c3, c4, Add(c4, c), Add(c4, c2), Add(c4, c3),
     c8, Add(c8, c), Add(c8, c2), Add(c8, c3), Add(c8, c4), Add(c8, Add(c4, c)), Add(c8, Add(c4, c2)), Add(c8, Add(c4, c3))]
  }

  /** Entry n is c times n. */
  lemma NibbleEntry(c: byte, n: byte)
    requires n < 16
    ensures n as nat < 16 && NibbleTable(c)[n as nat] == Mul(c, n)
  {
    hide Times2, Mul, Add, Masked;
    if n < 8 {
      LowEntry(c, n);
    } else {
      HighEntry(c, n);
    }
  }

  lemma LowEntry(c: byte, n: byte)
    requires n < 8
    ensures n as nat < 16 && NibbleTable(c)[n as nat] == Mul(c, n)
  {
    hide Times2, Mul, Add, Masked;
    MulBits(c, n);
    assert n == 0 || n == 1 || n == 2 || n == 3 || n == 4 || n == 5 || n == 6 || n == 7;
    var c2 := Times2(c);
    var c4 := Times2(c2);
    AddZero(c4); AddZero(c2); AddZero(c); AddZero(0);
    AddZero(Add(c4, c)); AddZero(Add(c4, c2)); AddZero(Add(c2, c)); AddZero(Add(c4, Add(c2, c)));
  }

  /** The upper half of the table adds 8c to the lower half. */
  lemma HighEntry(c: byte, n: byte)
    requires 8 <= n < 16
    ensures n as nat < 16 && NibbleTable(c)[n as nat] == Mul(c, n)
  {
    hide Times2, Mul, Add, Masked;
    LowEntry(c, n - 8);
    MulAddRight(c, 8, n - 8);
    MulBits(c, 8);
    var c8 := Times2(Times2(Times2(c)));
    AddZero(c8); AddZero(0);
    Eight(n);
  }

  lemma Eight(n: byte)
    requires 8 <= n < 16
    ensures Add(8, n - 8) == n && (n - 8) as nat == n as nat - 8
    ensures n == 8 || n == 9 || n == 10 || n == 11 || n == 12 || n == 13 || n == 14 || n == 15
  {
  }

  lemma MulBits(c: byte, n: byte)
    requires n < 16
    ensures var c2 := Times2(c); var c4 := Times2(c2); var c8 := Times2(c4);
      Mul(c, n) == Add(if n & 8 == 8 then c8 else 0, Add(if n & 4 == 4 then c4 else 0,
                   Add(if n & 2 == 2 then c2 else 0, if n & 1 == 1 then c else 0)))
  {
    hide Times2, Mul, Add, Masked;
    var c2 := Times2(c);
    var c4 := Times2(c2);
    var c8 := Times2(c4);
    MulStep(c, n); MulStep(c2, n >> 1); MulStep(c4, (n >> 1) >> 1); MulStep(c8, ((n >> 1) >> 1) >> 1);
    MaskedValue(n, c); MaskedValue(n >> 1, c2); MaskedValue((n >> 1) >> 1, c4); MaskedValue(((n >> 1) >> 1) >> 1, c8);
    Bits(n);
    MulZeroRight(Times2(c8));
    var b0, b1 := Masked(n, c), Masked(n >> 1, c2);
    var b2, b3 := Masked((n >> 1) >> 1, c4), Masked(((n >> 1) >> 1) >> 1, c8);
    AddZero(b3);
    AddReversed(b0, b1, b2, b3);
  }

  lemma Bits(n: byte)
    requires n < 16
    ensures n & 2 == 2 <==> (n >> 1) & 1 == 1
    ensures n & 4 == 4 <==> ((n >> 1) >> 1) & 1 == 1
    ensures n & 8 == 8 <==> (((n >> 1) >> 1) >> 1) & 1 == 1
    ensures (((n >> 1) >> 1) >> 1) >> 1 == 0
  {
  }

  lemma AddReversed(a: byte, b: byte, c: byte, d: byte)
    ensures Add(a, Add(b, Add(c, d))) == Add(d, Add(c, Add(b, a)))
  {
    hide Add;
    AddComm(a, b); AddComm(c, d);
    AddAssoc(a, b, Add(c, d));
    AddComm(Add(a, b), Add(c, d));
    AddAssoc(d, c, Add(b, a));
  }

  /** The product of c with any byte is two lookups, one for each nibble. */
  lemma TwoLookups(c: byte, x: byte)
    ensures (x & 0xf) as nat < 16 && (x >> 4) as nat < 16
    ensures Add(NibbleTable(c)[(x & 0xf) as nat], NibbleTable(Mul(c, 16))[(x >> 4) as nat]) == Mul(c, x)
  {
    hide Times2, Mul, Add, NibbleTable;
    var low, high := x & 0xf, x >> 4;
    Split(x);
    NibbleEntry(c, low);
    NibbleEntry(Mul(c, 16), high);
    MulAddRight(c, low, high << 4);
    MulAssoc(c, 16, high);
    ShiftFour(high);
  }

  lemma Split(x: byte)
    ensures x == Add(x & 0xf, (x >> 4) << 4) && x & 0xf < 16 && x >> 4 < 16
  {
  }

  /** Multiplying a nibble by 16 moves it up. */
  lemma ShiftFour(n: byte)
    requires n < 16
    ensures Mul(16, n) == n << 4
  {
    hide Mul, Masked;
    MulBits(16, n);
    AddZero(0);
  }

  /** A byte's product read from a table of 32 products: one lookup for each nibble. */
  function LookUp(table: seq<byte>, x: byte): byte
    requires |table| == 32
  {
    Split(x);
    Add(table[(x & 0xf) as nat], table[16 + (x >> 4) as nat])
  }

  /** The table multiplies by c. */
  ghost predicate Multiplies(table: seq<byte>, c: byte) {
    |table| == 32 && forall x: byte :: LookUp(table, x) == Mul(c, x)
  }

  lemma TableMultiplies(table: seq<byte>, c: byte)
    requires |table| == 32 && table[..16] == NibbleTable(c) && table[16..] == NibbleTable(Mul(c, 16))
    ensures Multiplies(table, c)
  {
    hide Mul, Add, NibbleTable;
    forall x: byte
      ensures LookUp(table, x) == Mul(c, x)
    {
      TwoLookups(c, x);
      Split(x);
      assert table[..16][(x & 0xf) as nat] == table[(x & 0xf) as nat];
      assert table[16..][(x >> 4) as nat] == table[16 + (x >> 4) as nat];
    }
  }

  /** `gf_vect_mul_init`: the low-nibble and the high-nibble products of c, side by side. */
  method GfVectMulInit(c: byte, tables: array<byte>, at: nat)
    requires at + 32 <= tables.Length
    modifies tables
    ensures tables[at..at + 16] == NibbleTable(c)
    ensures tables[at + 16..at + 32] == NibbleTable(Mul(c, 16))
    ensures Multiplies(tables[at..at + 32], c)
    ensures tables[..at] == old(tables[..at])
  {
    hide NibbleTable, Mul;
    var c16 := Times2(Times2(Times2(Times2(c))));
    FourDoublings(c);
    var t := NibbleTable(c) + NibbleTable(c16);
    var n := 0;
    while n < 32
      invariant n <= 32
      invariant tables[at..at + n] == t[..n]
      invariant tables[..at] == old(tables[..at])
    {
      tables[at + n] := t[n];
      assert tables[at..at + n + 1] == tables[at..at + n] + [t[n]];
      n := n + 1;
    }
    assert tables[at..at + 16] == tables[at..at + 32][..16];
    assert tables[at + 16..at + 32] == tables[at..at + 32][16..];
    TableMultiplies(tables[at..at + 32], c);
  }

  lemma FourDoublings(c: byte)
    ensures Times2(Times2(Times2(Times2(c)))) == Mul(c, 16)
  {
    hide Mul, Times2;
    MulTimes2Right(c, 8); MulTimes2Right(c, 4); MulTimes2Right(c, 2); MulTimes2Right(c, 1);
    MulOne(c);
    PowersOfTwo();
  }

  lemma PowersOfTwo()
    ensures Times2(1) == 2 && Times2(2) == 4 && Times2(4) == 8 && Times2(8) == 16
  {
  }

  /** The tables hold one 32-byte entry per coefficient, in order. */
  ghost predicate TablesFor(tables: seq<byte>, coeffs: seq<byte>) {
    |tables| >= 32 * |coeffs| &&
    forall t :: 0 <= t < |coeffs| ==> tables[32 * t + 1] == coeffs[t]
  }

  /** The entries of the first `count` coefficients multiply by them. */
  ghost predicate TablesMultiply(tables: seq<byte>, coeffs: seq<byte>, count: nat) {
    |tables| >= 32 * |coeffs| && count <= |coeffs| &&
    forall t :: 0 <= t < count ==> Multiplies(tables[32 * t..32 * t + 32], coeffs[t])
  }

  lemma MoreTables(before: seq<byte>, after: seq<byte>, coeffs: seq<byte>, t: nat)
    requires t < |coeffs| && |after| == |before| && TablesMultiply(before, coeffs, t)
    requires after[..32 * t] == before[..32 * t] && Multiplies(after[32 * t..32 * t + 32], coeffs[t])
    ensures TablesMultiply(after, coeffs, t + 1)
  {
    hide Multiplies;
    forall u | 0 <= u < t
      ensures after[32 * u..32 * u + 32] == before[32 * u..32 * u + 32]
    {
      assert after[32 * u..32 * u + 32] == after[..32 * t][32 * u..32 * u + 32];
      assert before[32 * u..32 * u + 32] == before[..32 * t][32 * u..32 * u + 32];
    }
  }

  /** `ec_init_tables` for `coeffs`, the rows of a matrix one after the other. */
  method EcInitTables(coeffs: seq<byte>, tables: array<byte>)
    requires tables.Length == 32 * |coeffs|
    modifies tables
    ensures TablesFor(tables[..], coeffs) && TablesMultiply(tables[..], coeffs, |coeffs|)
  {
    hide NibbleTable, Mul, Multiplies;
    var t := 0;
    while t < |coeffs|
      invariant t <= |coeffs|
      invariant forall u :: 0 <= u < t ==> tables[32 * u + 1] == coeffs[u]
      invariant TablesMultiply(tables[..], coeffs, t)
    {
      ghost var before := tables[..32 * t];
      ghost var all := tables[..];
      GfVectMulInit(coeffs[t], tables, 32 * t);
      assert tables[32 * t + 1] == tables[32 * t..32 * t + 16][1];
      forall u | 0 <= u < t
        ensures tables[32 * u + 1] == coeffs[u]
      {
        assert tables[..32 * t][32 * u + 1] == before[32 * u + 1];
      }
      assert tables[..][32 * t..32 * t + 32] == tables[32 * t..32 * t + 32];
      MoreTables(all, tables[..], coeffs, t);
      t := t + 1;
    }
  }

  /** A matrix written out row after row. */
  function Flat(m: Matrix, cols: nat): (f: seq<byte>)
    requires IsMatrix(m, |m|, cols)
    ensures |f| == |m| * cols
  {
    if |m| == 0 then [] else Flat(m[..|m| - 1], cols) + m[|m| - 1]
  }

  lemma {:induction false} FlatAt(m: Matrix, cols: nat, l: nat, j: nat)
    requires IsMatrix(m, |m|, cols) && l < |m| && j < cols
    ensures l * cols + j < |Flat(m, cols)| && Flat(m, cols)[l * cols + j] == m[l][j]
  {
    var n := |m| - 1;
    if l < n {
      FlatAt(m[..n], cols, l, j);
    }
  }

  /** The inner product the encoding loop forms for byte i of output l. */
  ghost function Prefix(row: Vec, data: Matrix, len: nat, n: nat): (v: Vec)
    requires n <= |row| == |data| && IsMatrix(data, |data|, len)
    ensures |v| == len
  {
    Combine(row[..n], data[..n], len)
  }

  lemma {:induction false} CombineSnoc(x: Vec, m: Matrix, a: byte, row: Vec)
    requires IsMatrix(m, |x|, |row|)
    ensures Combine(x + [a], m + [row], |row|) == VAdd(Combine(x, m, |row|), VScale(a, row))
  {
    hide Add, Mul;
    if |x| == 0 {
      assert x + [a] == [a] && m + [row] == [row];
      VAddComm(Zeros(|row|), VScale(a, row));
    } else {
      assert (x + [a])[1..] == x[1..] + [a] && (m + [row])[1..] == m[1..] + [row];
      CombineSnoc(x[1..], m[1..], a, row);
      VAddAssoc(VScale(x[0], m[0]), Combine(x[1..], m[1..], |row|), VScale(a, row));
    }
  }

  /** `ec_encode_data_base`: every output is the combination of the sources with its row of coefficients. */
  method EcEncodeDataBase(len: nat, matrix: Matrix, tables: seq<byte>, src: Matrix, dest: array2<byte>)
    requires IsMatrix(src, |src|, len) && IsMatrix(matrix, |matrix|, |src|)
    requires TablesFor(tables, Flat(matrix, |src|))
    requires dest.Length0 == |matrix| && dest.Length1 == len
    modifies dest
    ensures Rows(dest) == Encode(matrix, src, len)
  {
    hide Add, Mul, Combine;
    var l := 0;
    while l < |matrix|
      invariant l <= |matrix|
      invariant forall r, c :: 0 <= r < l && 0 <= c < len ==> dest[r, c] == Combine(matrix[r], src, len)[c]
    {
      var i := 0;
      while i < len
        invariant i <= len
        invariant forall r, c :: 0 <= r < l && 0 <= c < len ==> dest[r, c] == Combine(matrix[r], src, len)[c]
        invariant forall c :: 0 <= c < i ==> dest[l, c] == Combine(matrix[l], src, len)[c]
      {
        var s := EncodeByte(len, matrix, tables, src, l, i);
        dest[l, i] := s;
        i := i + 1;
      }
      l := l + 1;
    }
    RowsAre(dest, Encode(matrix, src, len));
  }

  /** Byte i of output l: the innermost loop. */
  method EncodeByte(len: nat, matrix: Matrix, tables: seq<byte>, src: Matrix, l: nat, i: nat) returns (s: byte)
    requires IsMatrix(src, |src|, len) && IsMatrix(matrix, |matrix|, |src|)
    requires TablesFor(tables, Flat(matrix, |src|))
    requires l < |matrix| && i < len
    ensures s == Combine(matrix[l], src, len)[i]
  {
    hide Add, Mul, GfMul, Combine, Flat;
    s := 0;
    var j := 0;
    EmptyPrefix(matrix[l], src, len);
    while j < |src|
      invariant j <= |src|
      invariant s == Prefix(matrix[l], src, len, j)[i]
    {
      FlatAt(matrix, |src|, l, j);
      var coeff := tables[32 * (l * |src| + j) + 1];
      assert matrix[l][..j + 1] == matrix[l][..j] + [coeff] && src[..j + 1] == src[..j] + [src[j]];
      CombineSnoc(matrix[l][..j], src[..j], coeff, src[j]);
      MulComm(src[j][i], coeff);
      s := Add(s, GfMul(src[j][i], coeff));
      j := j + 1;
    }
    assert matrix[l][..j] == matrix[l] && src[..j] == src;
  }

  lemma EmptyPrefix(row: Vec, data: Matrix, len: nat)
    requires |row| == |data| && IsMatrix(data, |data|, len)
    ensures Prefix(row, data, len, 0) == Zeros(len)
  {
  }

  /** `encode_data`: tables first, then the loop. */
  method EncodeData(len: nat, matrix: Matrix, src: Matrix, dest: array2<byte>)
    requires IsMatrix(src, |src|, len) && IsMatrix(matrix, |matrix|, |src|)
    requires dest.Length0 == |matrix| && dest.Length1 == len
    modifies dest
    ensures Rows(dest) == Encode(matrix, src, len)
  {
    hide Encode;
    var coeffs := Flat(matrix, |src|);
    var tables := new byte[32 * |coeffs|];
    EcInitTables(coeffs, tables);
    EcEncodeDataBase(len, matrix, tables[..], src, dest);
  }

  // ---- Encoding a prefix of the data ----

  function Truncated(m: Matrix, d: nat): (t: Matrix)
    requires forall l :: 0 <= l < |m| ==> d <= |m[l]|
    ensures IsMatrix(t, |m|, d)
  {
    seq(|m|, l requires 0 <= l < |m| => m[l][..d])
  }

  lemma TruncatedWhole(m: Matrix, cols: nat)
    requires IsMatrix(m, |m|, cols)
    ensures Truncated(m, cols) == m
  {
    forall l | 0 <= l < |m|
      ensures Truncated(m, cols)[l] == m[l]
    {
    }
  }

  function ZeroBlocks(count: nat, len: nat): (m: Matrix)
    ensures IsMatrix(m, count, len)
  {
    seq(count, _ => Zeros(len))
  }

  /** Blocks of zeros contribute nothing. */
  lemma {:induction false} CombinePadded(x: Vec, data: Matrix, len: nat)
    requires |data| <= |x| && IsMatrix(data, |data|, len)
    ensures Combine(x, data + ZeroBlocks(|x| - |data|, len), len) == Combine(x[..|data|], data, len)
  {
    hide Add, Mul;
    var padded := data + ZeroBlocks(|x| - |data|, len);
    if |x| == 0 {
      assert padded == data && x[..0] == x;
    } else if |data| == 0 {
      assert padded[1..] == [] + ZeroBlocks(|x| - 1, len);
      CombinePadded(x[1..], [], len);
      ScaleZeros(x[0], len);
      VAddZeros(Zeros(len));
    } else {
      assert padded[1..] == data[1..] + ZeroBlocks(|x[1..]| - |data[1..]|, len);
      CombinePadded(x[1..], data[1..], len);
      assert x[1..][..|data| - 1] == x[..|data|][1..];
    }
  }

  lemma ScaleZeros(c: byte, len: nat)
    ensures VScale(c, Zeros(len)) == Zeros(len)
  {
    hide Mul;
    MulZeroRight(c);
  }

  /** Encoding with truncated rows is encoding the data padded with zero blocks. */
  lemma PartialIsPadded(parity: Matrix, data: Matrix, k: nat, len: nat)
    requires |data| <= k && IsMatrix(parity, |parity|, k) && IsMatrix(data, |data|, len)
    ensures Encode(Truncated(parity, |data|), data, len)
         == Encode(parity, data + ZeroBlocks(k - |data|, len), len)
  {
    hide Combine;
    forall l | 0 <= l < |parity|
      ensures Encode(Truncated(parity, |data|), data, len)[l]
           == Encode(parity, data + ZeroBlocks(k - |data|, len), len)[l]
    {
      CombinePadded(parity[l], data, len);
    }
  }

  /** The rows of the generator below the identity. */
  function ParityRows(code: CodeType, k: nat, r: nat, z: nat): (m: Matrix)
    requires ValidShape(code, k, r, z)
    ensures IsMatrix(m, r + z, k)
  {
    Generator(code, k, r, z)[k..]
  }

  /** `encode_unilrc` and its siblings. */
  method EncodeStripe(code: CodeType, k: nat, r: nat, z: nat, data: Matrix, len: nat, parity: array2<byte>)
    requires ValidShape(code, k, r, z) && IsMatrix(data, k, len)
    requires parity.Length0 == r + z && parity.Length1 == len
    modifies parity
    ensures Rows(parity) == Encode(Generator(code, k, r, z), data, len)[k..]
  {
    hide GeneratorRow, Combine;
    var matrix := new byte[k + r + z, k];
    GenMatrix(code, matrix, k, r, z);
    var rows := CopyRows(matrix, k, k);
    TruncatedWhole(ParityRows(code, k, r, z), k);
    assert rows == ParityRows(code, k, r, z);
    EncodeData(len, rows, data, parity);
  }

  /** `partial_encode_unilrc` and its siblings: only the first blocks of the data are given. */
  method PartialEncodeStripe(code: CodeType, k: nat, r: nat, z: nat, data: Matrix, len: nat, parity: array2<byte>)
    requires ValidShape(code, k, r, z) && |data| <= k && IsMatrix(data, |data|, len)
    requires parity.Length0 == r + z && parity.Length1 == len
    modifies parity
    ensures Rows(parity) == Encode(Generator(code, k, r, z), data + ZeroBlocks(k - |data|, len), len)[k..]
  {
    hide GeneratorRow, Combine;
    var matrix := new byte[k + r + z, k];
    GenMatrix(code, matrix, k, r, z);
    var rows := CopyRows(matrix, k, |data|);
    assert rows == Truncated(ParityRows(code, k, r, z), |data|);
    PartialIsPadded(ParityRows(code, k, r, z), data, k, len);
    EncodeData(len, rows, data, parity);
  }

  /** The first `cols` entries of the rows from `first` on. */
  method CopyRows(a: array2<byte>, first: nat, cols: nat) returns (m: Matrix)
    requires first <= a.Length0 && cols <= a.Length1
    ensures IsMatrix(m, a.Length0 - first, cols)
    ensures m == Truncated(Rows(a)[first..], cols)
  {
    m := [];
    var i := first;
    while i < a.Length0
      invariant first <= i <= a.Length0
      invariant IsMatrix(m, i - first, cols)
      invariant forall l :: 0 <= l < i - first ==> m[l] == Rows(a)[first + l][..cols]
    {
      var row := [];
      var j := 0;
      while j < cols
        invariant j <= cols && row == Rows(a)[i][..j]
      {
        row := row + [a[i, j]];
        j := j + 1;
      }
      m := m + [row];
      i := i + 1;
    }
  }
}

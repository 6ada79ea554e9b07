/**
 * Vectors and matrices over GF(2^8), as values.  A matrix is the sequence of
 * its rows.
 */
module LinearAlgebra {
  import opened Gf256Tables
  import opened Gf256

  type Vec = seq<byte>
  type Matrix = seq<Vec>

  ghost predicate IsMatrix(m: Matrix, rows: nat, cols: nat) {
    |m| == rows && forall r :: 0 <= r < rows ==> |m[r]| == cols
  }

  function Zeros(n: nat): (v: Vec)
    ensures |v| == n
  {
    seq(n, _ => 0)
  }

  function Unit(n: nat, i: nat): (v: Vec)
    ensures |v| == n
  {
    seq(n, c => if c == i then 1 else 0)
  }

  function Identity(n: nat): (m: Matrix)
    ensures IsMatrix(m, n, n)
  {
    seq(n, r requires 0 <= r => Unit(n, r))
  }

  function VAdd(x: Vec, y: Vec): (v: Vec)
    requires |x| == |y|
    ensures |v| == |x|
  {
    seq(|x|, i requires 0 <= i < |x| => Add(x[i], y[i]))
  }

  function VScale(c: byte, x: Vec): (v: Vec)
    ensures |v| == |x|
  {
    seq(|x|, i requires 0 <= i < |x| => Mul(c, x[i]))
  }

  function Dot(x: Vec, y: Vec): byte
    requires |x| == |y|
  {
    if |x| == 0 then 0 else Add(Mul(x[0], y[0]), Dot(x[1..], y[1..]))
  }

  /** The matrix times a column vector. */
  function Apply(m: Matrix, v: Vec): (w: Vec)
    requires IsMatrix(m, |m|, |v|)
    ensures |w| == |m|
  {
    seq(|m|, r requires 0 <= r < |m| => Dot(m[r], v))
  }

  /** A row vector times the matrix: the combination of its rows with the given coefficients. */
  function Combine(x: Vec, m: Matrix, cols: nat): (w: Vec)
    requires IsMatrix(m, |x|, cols)
    ensures |w| == cols
  {
    if |x| == 0 then Zeros(cols)
    else VAdd(VScale(x[0], m[0]), Combine(x[1..], m[1..], cols))
  }

  function MatMul(a: Matrix, b: Matrix, cols: nat): (p: Matrix)
    requires IsMatrix(a, |a|, |b|) && IsMatrix(b, |b|, cols)
    ensures IsMatrix(p, |a|, cols)
  {
    seq(|a|, r requires 0 <= r < |a| => Combine(a[r], b, cols))
  }

  function Column(m: Matrix, cols: nat, c: nat): (v: Vec)
    requires IsMatrix(m, |m|, cols) && c < cols
    ensures |v| == |m|
  {
    seq(|m|, r requires 0 <= r < |m| => m[r][c])
  }

  // ---- The dot product is symmetric and bilinear ----

  lemma {:induction false} DotComm(x: Vec, y: Vec)
    requires |x| == |y|
    ensures Dot(x, y) == Dot(y, x)
  {
    hide Add, Mul;
    if |x| > 0 {
      DotComm(x[1..], y[1..]);
      MulComm(x[0], y[0]);
    }
  }

  lemma {:induction false} DotAddLeft(x: Vec, y: Vec, z: Vec)
    requires |x| == |y| == |z|
    ensures Dot(VAdd(x, y), z) == Add(Dot(x, z), Dot(y, z))
  {
    hide Add, Mul;
    if |x| == 0 {
      AddZero(0);
    } else {
      assert VAdd(x, y)[1..] == VAdd(x[1..], y[1..]);
      DotAddLeft(x[1..], y[1..], z[1..]);
      MulAddLeft(x[0], y[0], z[0]);
      AddSwap(Mul(x[0], z[0]), Mul(y[0], z[0]), Dot(x[1..], z[1..]), Dot(y[1..], z[1..]));
    }
  }

  lemma {:induction false} DotScaleLeft(c: byte, x: Vec, z: Vec)
    requires |x| == |z|
    ensures Dot(VScale(c, x), z) == Mul(c, Dot(x, z))
  {
    hide Add, Mul;
    if |x| == 0 {
      MulZeroRight(c);
    } else {
      assert VScale(c, x)[1..] == VScale(c, x[1..]);
      DotScaleLeft(c, x[1..], z[1..]);
      MulAssoc(c, x[0], z[0]);
      MulAddRight(c, Mul(x[0], z[0]), Dot(x[1..], z[1..]));
    }
  }

  lemma DotAddRight(z: Vec, x: Vec, y: Vec)
    requires |x| == |y| == |z|
    ensures Dot(z, VAdd(x, y)) == Add(Dot(z, x), Dot(z, y))
  {
    hide Add;
    DotComm(z, VAdd(x, y)); DotComm(z, x); DotComm(z, y);
    DotAddLeft(x, y, z);
  }

  /** Only the positions where p is nonzero matter. */
  lemma {:induction false} DotSupport(x: Vec, y: Vec, p: Vec)
    requires |x| == |y| == |p|
    requires forall c :: 0 <= c < |p| && p[c] != 0 ==> x[c] == y[c]
    ensures Dot(x, p) == Dot(y, p)
  {
    hide Add, Mul;
    if |x| > 0 {
      DotSupport(x[1..], y[1..], p[1..]);
      MulZeroRight(x[0]); MulZeroRight(y[0]);
    }
  }

  lemma {:induction false} DotZeros(x: Vec)
    ensures Dot(Zeros(|x|), x) == 0 && Dot(x, Zeros(|x|)) == 0
  {
    hide Add, Mul;
    if |x| == 0 {
    } else {
      assert Zeros(|x|)[1..] == Zeros(|x| - 1);
      DotZeros(x[1..]);
      MulZeroLeft(x[0]); MulZeroRight(x[0]);
      AddZero(0);
    }
  }

  lemma {:induction false} DotUnit(n: nat, i: nat, x: Vec)
    requires i < n == |x|
    ensures Dot(Unit(n, i), x) == x[i] && Dot(x, Unit(n, i)) == x[i]
  {
    hide Add, Mul;
    MulOne(x[0]); MulComm(x[0], 1);
    MulZeroLeft(x[0]); MulZeroRight(x[0]);
    AddZero(x[i]);
    if i == 0 {
      assert Unit(n, 0)[1..] == Zeros(n - 1);
      DotZeros(x[1..]);
    } else {
      assert Unit(n, i)[1..] == Unit(n - 1, i - 1);
      DotUnit(n - 1, i - 1, x[1..]);
    }
  }

  // ---- Combinations of rows ----

  /** Combining rows and then taking dot products is the same as the other way round. */
  lemma {:induction false} CombineDot(x: Vec, m: Matrix, v: Vec)
    requires IsMatrix(m, |x|, |v|)
    ensures Dot(Combine(x, m, |v|), v) == Dot(x, Apply(m, v))
  {
    hide Add, Mul;
    if |x| == 0 {
      DotZeros(v);
    } else {
      assert Apply(m, v)[1..] == Apply(m[1..], v);
      CombineDot(x[1..], m[1..], v);
      DotAddLeft(VScale(x[0], m[0]), Combine(x[1..], m[1..], |v|), v);
      DotScaleLeft(x[0], m[0], v);
    }
  }

  /** Entry c of a combination is the dot product with column c. */
  lemma {:induction false} CombineAt(x: Vec, m: Matrix, cols: nat, c: nat)
    requires IsMatrix(m, |x|, cols) && c < cols
    ensures Combine(x, m, cols)[c] == Dot(x, Column(m, cols, c))
  {
    hide Add, Mul;
    if |x| > 0 {
      assert Column(m, cols, c)[1..] == Column(m[1..], cols, c);
      CombineAt(x[1..], m[1..], cols, c);
    }
  }

  lemma CombineAdd(x: Vec, y: Vec, m: Matrix, cols: nat)
    requires |x| == |y| && IsMatrix(m, |x|, cols)
    ensures Combine(VAdd(x, y), m, cols) == VAdd(Combine(x, m, cols), Combine(y, m, cols))
  {
    hide Add, Mul;
    forall c | 0 <= c < cols
      ensures Combine(VAdd(x, y), m, cols)[c] == VAdd(Combine(x, m, cols), Combine(y, m, cols))[c]
    {
      CombineAt(VAdd(x, y), m, cols, c); CombineAt(x, m, cols, c); CombineAt(y, m, cols, c);
      DotAddLeft(x, y, Column(m, cols, c));
    }
  }

  lemma CombineScale(a: byte, x: Vec, m: Matrix, cols: nat)
    requires IsMatrix(m, |x|, cols)
    ensures Combine(VScale(a, x), m, cols) == VScale(a, Combine(x, m, cols))
  {
    hide Add, Mul;
    forall c | 0 <= c < cols
      ensures Combine(VScale(a, x), m, cols)[c] == VScale(a, Combine(x, m, cols))[c]
    {
      CombineAt(VScale(a, x), m, cols, c); CombineAt(x, m, cols, c);
      DotScaleLeft(a, x, Column(m, cols, c));
    }
  }

  lemma CombineUnit(i: nat, m: Matrix, cols: nat)
    requires IsMatrix(m, |m|, cols) && i < |m|
    ensures Combine(Unit(|m|, i), m, cols) == m[i]
  {
    forall c | 0 <= c < cols
      ensures Combine(Unit(|m|, i), m, cols)[c] == m[i][c]
    {
      CombineAt(Unit(|m|, i), m, cols, c);
      DotUnit(|m|, i, Column(m, cols, c));
    }
  }

  /** Combining rows that are themselves combinations. */
  lemma {:induction false} CombineAssoc(x: Vec, a: Matrix, b: Matrix, cols: nat)
    requires IsMatrix(a, |x|, |b|) && IsMatrix(b, |b|, cols)
    ensures Combine(Combine(x, a, |b|), b, cols) == Combine(x, MatMul(a, b, cols), cols)
  {
    hide Add, Mul;
    if |x| == 0 {
      CombineZeros(b, cols);
    } else {
      var rest := Combine(x[1..], a[1..], |b|);
      assert MatMul(a, b, cols)[1..] == MatMul(a[1..], b, cols);
      CombineAssoc(x[1..], a[1..], b, cols);
      CombineAdd(VScale(x[0], a[0]), rest, b, cols);
      CombineScale(x[0], a[0], b, cols);
    }
  }

  lemma CombineZeros(m: Matrix, cols: nat)
    requires IsMatrix(m, |m|, cols)
    ensures Combine(Zeros(|m|), m, cols) == Zeros(cols)
  {
    forall c | 0 <= c < cols
      ensures Combine(Zeros(|m|), m, cols)[c] == 0
    {
      CombineAt(Zeros(|m|), m, cols, c);
      DotZeros(Column(m, cols, c));
    }
  }

  lemma IdentityColumn(n: nat, c: nat)
    requires c < n
    ensures Column(Identity(n), n, c) == Unit(n, c)
  {
  }

  lemma CombineIdentity(x: Vec)
    ensures Combine(x, Identity(|x|), |x|) == x
  {
    hide Combine, Dot, Unit, Column;
    var n := |x|;
    forall c | 0 <= c < n
      ensures Combine(x, Identity(n), n)[c] == x[c]
    {
      CombineAt(x, Identity(n), n, c);
      IdentityColumn(n, c);
      DotUnit(n, c, x);
    }
  }

  // ---- Sums of rows ----

  /** The XOR of all rows. */
  function XorRows(m: Matrix, cols: nat): (v: Vec)
    requires IsMatrix(m, |m|, cols)
    ensures |v| == cols
  {
    if |m| == 0 then Zeros(cols) else VAdd(XorRows(m[..|m| - 1], cols), m[|m| - 1])
  }

  lemma VAddZeros(x: Vec)
    ensures VAdd(x, Zeros(|x|)) == x && VAdd(Zeros(|x|), x) == x && VAdd(x, x) == Zeros(|x|)
  {
    hide Add;
    forall i | 0 <= i < |x|
      ensures Add(x[i], 0) == x[i] && Add(0, x[i]) == x[i] && Add(x[i], x[i]) == 0
    {
      AddZero(x[i]);
    }
  }

  lemma VAddAssoc(x: Vec, y: Vec, z: Vec)
    requires |x| == |y| == |z|
    ensures VAdd(VAdd(x, y), z) == VAdd(x, VAdd(y, z))
  {
    hide Add;
    forall i | 0 <= i < |x|
      ensures Add(Add(x[i], y[i]), z[i]) == Add(x[i], Add(y[i], z[i]))
    {
      AddAssoc(x[i], y[i], z[i]);
    }
  }

  lemma VAddComm(x: Vec, y: Vec)
    requires |x| == |y|
    ensures VAdd(x, y) == VAdd(y, x)
  {
    hide Add;
    forall i | 0 <= i < |x|
      ensures Add(x[i], y[i]) == Add(y[i], x[i])
    {
      AddComm(x[i], y[i]);
    }
  }

  lemma {:induction false} XorRowsAppend(a: Matrix, b: Matrix, cols: nat)
    requires IsMatrix(a, |a|, cols) && IsMatrix(b, |b|, cols)
    ensures XorRows(a + b, cols) == VAdd(XorRows(a, cols), XorRows(b, cols))
  {
    hide Add;
    if |b| == 0 {
      assert a + b == a;
      VAddZeros(XorRows(a, cols));
    } else {
      var n := |b| - 1;
      assert (a + b)[..|a + b| - 1] == a + b[..n];
      XorRowsAppend(a, b[..n], cols);
      VAddAssoc(XorRows(a, cols), XorRows(b[..n], cols), b[n]);
    }
  }

  lemma XorRowsOne(v: Vec)
    ensures XorRows([v], |v|) == v
  {
    hide Add;
    assert [v][..0] == [];
    VAddZeros(v);
  }

  // ---- Singular matrices ----

  /** Every row sends v to zero. */
  ghost predicate Kills(m: Matrix, v: Vec)
    requires IsMatrix(m, |m|, |v|)
  {
    forall r :: 0 <= r < |m| ==> Dot(m[r], v) == 0
  }

  ghost predicate Singular(m: Matrix, cols: nat)
    requires IsMatrix(m, |m|, cols)
  {
    exists v: Vec :: |v| == cols && v != Zeros(cols) && Kills(m, v)
  }

  ghost predicate HasLeftInverse(m: Matrix, cols: nat)
    requires IsMatrix(m, |m|, cols)
  {
    exists l: Matrix :: IsMatrix(l, cols, |m|) && MatMul(l, m, cols) == Identity(cols)
  }

  lemma KilledIsZero(l: Matrix, m: Matrix, v: Vec)
    requires IsMatrix(m, |m|, |v|) && IsMatrix(l, |v|, |m|)
    requires MatMul(l, m, |v|) == Identity(|v|)
    requires Kills(m, v)
    ensures v == Zeros(|v|)
  {
    assert Apply(m, v) == Zeros(|m|);
    forall i | 0 <= i < |v|
      ensures v[i] == 0
    {
      assert MatMul(l, m, |v|)[i] == Combine(l[i], m, |v|);
      assert Combine(l[i], m, |v|) == Unit(|v|, i);
      DotUnit(|v|, i, v);
      CombineDot(l[i], m, v);
      DotZeros(l[i]);
    }
  }

  /** A left inverse rules out a kernel. */
  lemma LeftInverseNotSingular(m: Matrix, cols: nat)
    requires IsMatrix(m, |m|, cols)
    ensures HasLeftInverse(m, cols) ==> !Singular(m, cols)
  {
    if HasLeftInverse(m, cols) && Singular(m, cols) {
      var l :| IsMatrix(l, cols, |m|) && MatMul(l, m, cols) == Identity(cols);
      var v: Vec :| |v| == cols && v != Zeros(cols) && Kills(m, v);
      KilledIsZero(l, m, v);
    }
  }
}

/**
 * Appending to a stripe: units of u bytes go round the k data blocks.  The
 * slices of an append, as coordinator and client compute them, and the slice
 * of the parity blocks that goes with them.
 */
module AppendSlices {
  import S = SimSums
  import I = SimIds
  import A = Arithmetic

  // ---- Where the bytes of a stripe go ----

  /** The block that byte p of the stripe belongs to. */
  function Owner(u: nat, k: nat, p: nat): (j: nat)
    requires u > 0 && k > 0
    ensures j < k
  {
    (p / u) % k
  }

  /** How many of the first n bytes belong to block j. */
  function BytesIn(u: nat, k: nat, j: nat, n: nat): nat
    requires u > 0 && k > 0
  {
    if n == 0 then 0 else BytesIn(u, k, j, n - 1) + if Owner(u, k, n - 1) == j then 1 else 0
  }

  lemma {:induction false} BytesGrow(u: nat, k: nat, j: nat, n: nat, m: nat)
    requires u > 0 && k > 0 && n <= m
    ensures BytesIn(u, k, j, n) <= BytesIn(u, k, j, m)
    decreases m
  {
    if n < m {
      BytesGrow(u, k, j, n, m - 1);
    }
  }

  lemma SameUnit(u: nat, a: nat, t: nat)
    requires u > 0 && a % u + t < u
    ensures (a + t) / u == a / u && (a + t) % u == a % u + t
  {
    assert a == (a / u) * u + a % u;
    S.Split(a / u, u, a % u + t, a + t);
  }

  lemma NextUnit(u: nat, a: nat, t: nat)
    requires u > 0 && a % u + t == u
    ensures (a + t) / u == a / u + 1 && (a + t) % u == 0
  {
    assert a == (a / u) * u + a % u;
    assert (a / u + 1) * u == (a / u) * u + u;
    S.Split(a / u + 1, u, 0, a + t);
  }

  /** Bytes within one unit all belong to one block. */
  lemma {:induction false} OneUnit(u: nat, k: nat, j: nat, a: nat, s: nat)
    requires u > 0 && k > 0 && a % u + s <= u
    ensures BytesIn(u, k, j, a + s) == BytesIn(u, k, j, a) + if Owner(u, k, a) == j then s else 0
    decreases s
  {
    if s > 0 {
      OneUnit(u, k, j, a, s - 1);
      SameUnit(u, a, s - 1);
    }
  }

  /** How many of the first m units belong to block j. */
  function UnitsIn(k: nat, j: nat, m: nat): nat
    requires k > 0
  {
    m / k + if m % k > j then 1 else 0
  }

  lemma UnitStep(k: nat, j: nat, m: nat)
    requires j < k
    ensures UnitsIn(k, j, m + 1) == UnitsIn(k, j, m) + if m % k == j then 1 else 0
  {
    if m % k + 1 < k {
      SameUnit(k, m, 1);
    } else {
      NextUnit(k, m, 1);
    }
  }

  /** Whole units and the part of a unit. */
  lemma {:induction false} Position(u: nat, k: nat, j: nat, a: nat)
    requires u > 0 && j < k
    ensures BytesIn(u, k, j, a) == UnitsIn(k, j, a / u) * u + if (a / u) % k == j then a % u else 0
    decreases a
  {
    hide UnitsIn;
    if a == 0 {
      S.Split(0, u, 0, 0);
      NoUnits(k, j);
    } else {
      var b := a - 1;
      Position(u, k, j, b);
      if b % u + 1 < u {
        SameUnit(u, b, 1);
      } else {
        NextUnit(u, b, 1);
        UnitStep(k, j, b / u);
        Distribute(UnitsIn(k, j, b / u), u);
      }
    }
  }

  lemma NoUnits(k: nat, j: nat)
    requires k > 0
    ensures UnitsIn(k, j, 0) == 0
  {
  }

  lemma Distribute(n: nat, u: nat)
    ensures (n + 1) * u == n * u + u
  {
  }

  lemma RowOf(u: nat, k: nat, a: nat)
    requires u > 0 && k > 0
    ensures k * u > 0 && a / (k * u) == (a / u) / k && a % (k * u) == ((a / u) % k) * u + a % u
  {
    var m, t := a / u, a % u;
    var q, s := m / k, m % k;
    assert a == m * u + t && m == q * k + s;
    assert (q * k + s) * u == q * (k * u) + s * u;
    assert k * u == s * u + (k - s) * u;
    A.AtLeast(k - s, u);
    S.Split(q, k * u, s * u + t, a);
  }

  /** The physical offset that the coordinator computes for byte a. */
  function Physical(u: nat, k: nat, a: nat): nat
    requires u > 0 && k > 0
  {
    RowBytes(k, u);
    var rowBytes := k * u;
    a % u + Times(u, a / rowBytes)
  }

  /** It is the number of bytes the block already has. */
  lemma PhysicalOffset(u: nat, k: nat, a: nat)
    requires u > 0 && k > 0
    ensures BytesIn(u, k, Owner(u, k, a), a) == Physical(u, k, a)
  {
    hide BytesIn;
    Position(u, k, Owner(u, k, a), a);
    RowOf(u, k, a);
    UnitsAre(u, k, Owner(u, k, a), a);
    Swap(u, a / u / k);
  }

  lemma Swap(u: nat, row: nat)
    ensures Times(u, row) == row * u
  {
  }

  /** A full stripe fills every block exactly. */
  lemma FullBlock(u: nat, k: nat, j: nat, blockSize: nat)
    requires u > 0 && j < k && blockSize % u == 0
    ensures BytesIn(u, k, j, k * blockSize) == blockSize
  {
    var q := blockSize / u;
    assert blockSize == q * u;
    assert k * blockSize == (q * k) * u;
    S.Split(q * k, u, 0, k * blockSize);
    S.Split(q, k, 0, q * k);
    Position(u, k, j, k * blockSize);
  }

  /** All bytes below n, over the blocks below j. */
  function BytesBelow(u: nat, k: nat, j: nat, n: nat): nat
    requires u > 0 && k > 0
  {
    if j == 0 then 0 else BytesBelow(u, k, j - 1, n) + BytesIn(u, k, j - 1, n)
  }

  /** The blocks share the bytes without overlap. */
  lemma {:induction false} AllBytes(u: nat, k: nat, n: nat)
    requires u > 0 && k > 0
    ensures BytesBelow(u, k, k, n) == n
  {
    if n == 0 {
      NoBytes(u, k, k);
    } else {
      AllBytes(u, k, n - 1);
      OneMoreByte(u, k, k, n);
    }
  }

  lemma {:induction false} NoBytes(u: nat, k: nat, j: nat)
    requires u > 0 && k > 0
    ensures BytesBelow(u, k, j, 0) == 0
  {
    if j > 0 {
      NoBytes(u, k, j - 1);
    }
  }

  lemma {:induction false} OneMoreByte(u: nat, k: nat, j: nat, n: nat)
    requires u > 0 && k > 0 && n > 0
    ensures BytesBelow(u, k, j, n) == BytesBelow(u, k, j, n - 1) + if Owner(u, k, n - 1) < j then 1 else 0
  {
    hide Owner;
    if j > 0 {
      OneMoreByte(u, k, j - 1, n);
    }
  }

  // ---- The data slices ----

  datatype Slice = Slice(size: nat, offset: nat)

  ghost predicate Touched(u: nat, k: nat, from: nat, to: nat, j: nat)
    requires u > 0 && k > 0
  {
    BytesIn(u, k, j, from) < BytesIn(u, k, j, to)
  }

  /** Exactly the touched blocks have a slice: the new bytes, right behind the old ones. */
  ghost predicate SlicesFor(m: map<nat, Slice>, u: nat, k: nat, from: nat, to: nat)
    requires u > 0 && k > 0
  {
    forall j: nat :: (j in m <==> Touched(u, k, from, to, j)) &&
      (j in m ==> m[j].size + BytesIn(u, k, j, from) == BytesIn(u, k, j, to) && m[j].offset == BytesIn(u, k, j, from))
  }

  ghost predicate SizesFor(m: map<nat, nat>, u: nat, k: nat, from: nat, to: nat)
    requires u > 0 && k > 0
  {
    forall j: nat :: (j in m <==> Touched(u, k, from, to, j)) &&
      (j in m ==> m[j] + BytesIn(u, k, j, from) == BytesIn(u, k, j, to))
  }

  function Min(a: nat, b: nat): nat {
    if a < b then a else b
  }

  /** The length of the next slice: to the end of the unit at first, whole units then, and what is left at the end. */
  function NextSize(u: nat, from: nat, size: nat, left: nat): (s: nat)
    requires u > 0
  {
    if left == size && from % u != 0 then Min(u - from % u, size) else Min(u, left)
  }

  predicate Aligned(u: nat, at: nat)
    requires u > 0
  {
    at % u == 0
  }

  /** All bytes at..at+s-1 belong to one unit. */
  predicate Within(u: nat, at: nat, s: nat)
    requires u > 0
  {
    at % u + s <= u
  }

  function NextBlock(k: nat, j: nat): nat
    requires k > 0
  {
    (j + 1) % k
  }

  /** A slice stays within its unit, and the next one starts with the next unit. */
  lemma NextSlice(u: nat, k: nat, from: nat, size: nat, left: nat, at: nat)
    requires u > 0 && k > 0 && 0 < left <= size && at + left == from + size && (at == from || Aligned(u, at))
    ensures var s := NextSize(u, from, size, left);
      0 < s <= left && Within(u, at, s) &&
      (s < left ==> Aligned(u, at + s) && Owner(u, k, at + s) == NextBlock(k, Owner(u, k, at)))
  {
    hide Owner, NextBlock;
    var s := NextSize(u, from, size, left);
    if s < left {
      NextOwner(u, k, at, s);
    }
  }

  lemma NextOwner(u: nat, k: nat, at: nat, s: nat)
    requires u > 0 && k > 0 && at % u + s == u
    ensures Aligned(u, at + s) && Owner(u, k, at + s) == NextBlock(k, Owner(u, k, at))
  {
    NextUnit(u, at, s);
    var m := at / u;
    if m % k + 1 < k {
      SameUnit(k, m, 1);
      S.Split(0, k, m % k + 1, m % k + 1);
    } else {
      NextUnit(k, m, 1);
      S.Split(1, k, 0, k);
    }
  }

  lemma FirstSlice(u: nat, k: nat, from: nat)
    requires u > 0 && k > 0
    ensures Owner(u, k, from) == (from / u) % k
  {
  }

  lemma NoSlices(u: nat, k: nat, from: nat)
    requires u > 0 && k > 0
    ensures SlicesFor(map[], u, k, from, from) && SizesFor(map[], u, k, from, from)
  {
  }

  lemma MoreSlices(m: map<nat, Slice>, u: nat, k: nat, from: nat, at: nat, s: nat)
    requires u > 0 && k > 0 && s > 0 && Within(u, at, s) && from <= at && SlicesFor(m, u, k, from, at)
    ensures var j := Owner(u, k, at);
      SlicesFor(m[j := if j in m then m[j].(size := m[j].size + s) else Slice(s, Physical(u, k, at))], u, k, from,
                at + s)
  {
    hide BytesIn, Owner, Physical;
    PhysicalOffset(u, k, at);
    forall j: nat
      ensures BytesIn(u, k, j, at + s) == BytesIn(u, k, j, at) + if Owner(u, k, at) == j then s else 0
      ensures BytesIn(u, k, j, from) <= BytesIn(u, k, j, at)
    {
      OneUnit(u, k, j, at, s);
      BytesGrow(u, k, j, from, at);
    }
  }

  lemma MoreSizes(m: map<nat, nat>, u: nat, k: nat, from: nat, at: nat, s: nat)
    requires u > 0 && k > 0 && s > 0 && Within(u, at, s) && from <= at && SizesFor(m, u, k, from, at)
    ensures var j := Owner(u, k, at);
      SizesFor(m[j := if j in m then m[j] + s else s], u, k, from, at + s)
  {
    hide BytesIn, Owner;
    forall j: nat
      ensures BytesIn(u, k, j, at + s) == BytesIn(u, k, j, at) + if Owner(u, k, at) == j then s else 0
      ensures BytesIn(u, k, j, from) <= BytesIn(u, k, j, at)
    {
      OneUnit(u, k, j, at, s);
      BytesGrow(u, k, j, from, at);
    }
  }

  /** The coordinator's data slices. */
  method DataSlices(u: nat, k: nat, from: nat, size: nat) returns (m: map<nat, Slice>)
    requires u > 0 && k > 0
    ensures SlicesFor(m, u, k, from, from + size)
  {
    hide SlicesFor, NextSize, Owner, Physical, NextBlock, Aligned, Within;
    FirstSlice(u, k, from);
    NoSlices(u, k, from);
    m := map[];
    var block: nat := (from / u) % k;
    var left, at := size, from;
    while left > 0
      invariant at + left == from + size && SlicesFor(m, u, k, from, at)
      invariant left > 0 ==> block == Owner(u, k, at) && (at == from || Aligned(u, at))
    {
      NextSlice(u, k, from, size, left, at);
      var s := NextSize(u, from, size, left);
      MoreSlices(m, u, k, from, at, s);
      if block !in m {
        m := m[block := Slice(s, Physical(u, k, at))];
      } else {
        m := m[block := m[block].(size := m[block].size + s)];
      }
      block := NextBlock(k, block);
      left, at := left - s, at + s;
    }
  }

  /** The client's slice sizes. */
  method ClientSizes(u: nat, k: nat, from: nat, size: nat) returns (m: map<nat, nat>, start: nat)
    requires u > 0 && k > 0
    ensures SizesFor(m, u, k, from, from + size) && start == Owner(u, k, from)
  {
    hide SizesFor, NextSize, Owner, NextBlock, Aligned, Within;
    FirstSlice(u, k, from);
    NoSlices(u, k, from);
    m := map[];
    start := (from / u) % k;
    var block: nat := start;
    var left, at := size, from;
    while left > 0
      invariant at + left == from + size && SizesFor(m, u, k, from, at)
      invariant left > 0 ==> block == Owner(u, k, at) && (at == from || Aligned(u, at))
    {
      NextSlice(u, k, from, size, left, at);
      var s := NextSize(u, from, size, left);
      MoreSizes(m, u, k, from, at, s);
      if block !in m {
        m := m[block := s];
      } else {
        m := m[block := m[block] + s];
      }
      block := NextBlock(k, block);
      left, at := left - s, at + s;
    }
  }

  // ---- The parity slice ----

  datatype Mode = Rep | UniLrc | Cached

  /** Division and remainder that truncate towards zero. */
  function TruncDiv(a: int, d: int): int
    requires d > 0
  {
    if a >= 0 then a / d else -((-a) / d)
  }

  function TruncMod(a: int, d: int): int
    requires d > 0
  {
    a - d * TruncDiv(a, d)
  }

  // A byte's row of units, its unit, and its place in the unit.

  function Row(u: nat, k: nat, a: nat): nat
    requires u > 0 && k > 0
  {
    (a / u) / k
  }

  function UnitOf(u: nat, a: nat): nat
    requires u > 0
  {
    a / u
  }

  function Part(u: nat, a: nat): (t: nat)
    requires u > 0
    ensures t < u
  {
    a % u
  }

  function Times(row: nat, u: nat): nat {
    row * u
  }

  /**
   * Where the parity slice starts and ends: the touched bytes of one unit, whole rows, or all but the end of
   * the last unit.
   */
  predicate ParityIs(mode: Mode, u: nat, k: nat, from: nat, last: nat, start: int, end: int)
    requires u > 0 && k > 0
  {
    if mode.UniLrc? && UnitOf(u, last) == UnitOf(u, from) then
      start == Times(Row(u, k, from), u) + Part(u, from) && end == Times(Row(u, k, last), u) + Part(u, last) + 1
    else if mode.UniLrc? && Row(u, k, last) > Row(u, k, from) && Owner(u, k, last) == 0 && Part(u, last) < u - 1 then
      start == Times(Row(u, k, from), u) && end == Times(Row(u, k, last), u) + Part(u, last) + 1
    else
      start == Times(Row(u, k, from), u) && end == Times(Row(u, k, last), u) + u
  }

  /** Size and offset of the slice of every parity block. */
  method ParitySlice(mode: Mode, u: nat, k: nat, from: nat, size: nat) returns (psize: int, poffset: int)
    requires u > 0 && k > 0
    ensures mode.Rep? ==> psize == size && poffset == -1
    ensures !mode.Rep? && size > 0 ==> ParityFits(u, k, from, from + size, psize, poffset)
    ensures mode.Cached? && size > 0 ==> WholeRows(u, k, from, from + size - 1, psize, poffset)
    ensures mode.Cached? && size > 0 ==> WholeUnits(u, k, from, from + size, poffset, poffset + psize)
    ensures mode.UniLrc? && size > 0 ==> ParityTight(u, k, from, from + size, psize, poffset)
    ensures mode.UniLrc? && size > 0 ==> UniLrcStart(u, k, from, from + size, poffset)
  {
    hide ParityFits, ParityTight, ParityIs, WholeRows, WholeUnits, UniLrcStart, TruncDiv, TruncMod;
    RowBytes(u, k);
    var rowBytes := u * k;
    var last := from + size - 1;
    var units := TruncDiv(last, u) - TruncDiv(from, u) + 1;
    var rows := TruncDiv(last, rowBytes) - TruncDiv(from, rowBytes) + 1;
    if mode.Rep? {
      return size, -1;
    }
    psize, poffset := rows * u, TruncDiv(from, rowBytes) * u;
    if mode.UniLrc? {
      if units == 1 {
        psize, poffset := size, poffset + TruncMod(from, u);
      }
      if rows > 1 && TruncMod(last, rowBytes) < u - 1 {
        psize := (rows - 1) * u + TruncMod(last, rowBytes) + 1;
      }
    }
    if size > 0 {
      ParityComputed(mode, u, k, from, size, rowBytes, units, rows, psize, poffset);
      ParityCovers(mode, u, k, from, from + size - 1, poffset, poffset + psize);
      if mode.Cached? {
        CachedRows(u, k, from, from + size - 1, poffset, poffset + psize);
        CachedUnits(u, k, from, from + size - 1, poffset, poffset + psize);
      } else {
        UniLrcStarts(u, k, from, from + size - 1, poffset, poffset + psize);
      }
    }
  }

  lemma RowBytes(u: nat, k: nat)
    requires u > 0 && k > 0
    ensures u * k > 0
  {
    A.PositiveProduct(u, k);
  }

  /** What the arithmetic comes to. */
  lemma ParityComputed(mode: Mode, u: nat, k: nat, from: nat, size: nat, rowBytes: nat, units: int, rows: int,
                       psize: int, poffset: int)
    requires u > 0 && k > 0 && size > 0 && !mode.Rep? && rowBytes == u * k && rowBytes > 0
    requires units == TruncDiv(from + size - 1, u) - TruncDiv(from, u) + 1
    requires rows == TruncDiv(from + size - 1, rowBytes) - TruncDiv(from, rowBytes) + 1
    requires psize == if mode.UniLrc? && rows > 1 && TruncMod(from + size - 1, rowBytes) < u - 1
      then (rows - 1) * u + TruncMod(from + size - 1, rowBytes) + 1
      else if mode.UniLrc? && units == 1 then size else rows * u
    requires poffset == TruncDiv(from, rowBytes) * u + if mode.UniLrc? && units == 1 then TruncMod(from, u) else 0
    ensures ParityIs(mode, u, k, from, from + size - 1, poffset, poffset + psize)
  {
    hide TruncDiv, TruncMod, Row, UnitOf, Owner, Part;
    var last := from + size - 1;
    Truncated(from, u);
    Truncated(last, u);
    Truncated(from, rowBytes);
    Truncated(last, rowBytes);
    Parts(u, k, from, rowBytes);
    Parts(u, k, last, rowBytes);
    var row, rowL := Row(u, k, from), Row(u, k, last);
    RowsInOrder(u, k, from, last);
    Rows(u, row, rowL);
    FirstBlock(u, Owner(u, k, last), Part(u, last));
    if mode.UniLrc? && units == 1 {
      OneUnitEnds(u, k, from, last);
    }
  }

  lemma Truncated(a: nat, d: nat)
    requires d > 0
    ensures TruncDiv(a, d) == a / d && TruncMod(a, d) == a % d
  {
  }

  lemma Parts(u: nat, k: nat, a: nat, rowBytes: nat)
    requires u > 0 && k > 0 && rowBytes == u * k && rowBytes > 0
    ensures a / rowBytes == Row(u, k, a) && a % rowBytes == Times(Owner(u, k, a), u) + Part(u, a)
    ensures a / u == UnitOf(u, a) && a % u == Part(u, a)
  {
    RowOf(u, k, a);
    assert u * k == k * u;
  }

  lemma OneUnitEnds(u: nat, k: nat, from: nat, last: nat)
    requires u > 0 && k > 0 && from <= last && UnitOf(u, last) == UnitOf(u, from)
    ensures Row(u, k, last) == Row(u, k, from) && Part(u, last) - Part(u, from) == last - from
    ensures Owner(u, k, last) == Owner(u, k, from)
  {
    assert from == (from / u) * u + from % u && last == (last / u) * u + last % u;
  }

  /** The parity slice covers what the append touches in any block, and fits into a block whenever the data does. */
  ghost predicate ParityFits(u: nat, k: nat, from: nat, to: nat, psize: int, poffset: int)
    requires u > 0 && k > 0
  {
    psize > 0 && poffset >= 0 &&
    (forall j: nat :: j < k && Touched(u, k, from, to, j) ==>
      poffset <= BytesIn(u, k, j, from) && BytesIn(u, k, j, to) <= poffset + psize) &&
    forall blockSize: nat :: FitsBlocks(u, k, to, blockSize) ==> poffset + psize <= blockSize
  }

  predicate FitsBlocks(u: nat, k: nat, to: nat, blockSize: nat)
    requires u > 0
  {
    blockSize % u == 0 && to <= k * blockSize
  }

  /** It ends where the furthest touched byte is. */
  ghost predicate ParityTight(u: nat, k: nat, from: nat, to: nat, psize: int, poffset: int)
    requires u > 0 && k > 0
  {
    exists j: nat :: j < k && Touched(u, k, from, to, j) && BytesIn(u, k, j, to) == poffset + psize
  }

  /** The slice has a unit for every row of u * k bytes from that of the first byte to that of the last. */
  ghost predicate WholeRows(u: nat, k: nat, from: nat, last: nat, psize: int, poffset: int) {
    exists first: nat, final: nat :: IsRow(u, k, from, first) && IsRow(u, k, last, final) &&
      poffset == first * u && poffset + psize == (final + 1) * u
  }

  /** Byte p is in the given row. */
  predicate IsRow(u: nat, k: nat, p: int, row: int) {
    row * (u * k) <= p < (row + 1) * (u * k)
  }

  /** The range lo..hi-1 contains what the append touches in any block. */
  ghost predicate Covers(u: nat, k: nat, from: nat, to: nat, lo: int, hi: int)
    requires u > 0 && k > 0
  {
    forall j: nat :: j < k && Touched(u, k, from, to, j) ==> lo <= BytesIn(u, k, j, from) && BytesIn(u, k, j, to) <= hi
  }

  /** The range starts and ends with units, and no shorter one that does so covers what is touched. */
  ghost predicate WholeUnits(u: nat, k: nat, from: nat, to: nat, start: int, end: int)
    requires u > 0 && k > 0
  {
    start % u == 0 && end % u == 0 && Covers(u, k, from, to, start, end) &&
    forall lo: nat, hi: nat :: lo % u == 0 && hi % u == 0 && Covers(u, k, from, to, lo, hi) ==> lo <= start && end <= hi
  }

  /** Some touched block begins at `start`. */
  ghost predicate StartReached(u: nat, k: nat, from: nat, to: nat, start: int)
    requires u > 0 && k > 0
  {
    exists j: nat :: j < k && Touched(u, k, from, to, j) && BytesIn(u, k, j, from) == start
  }

  /**
   * Where the slice starts in the mode UNILRC: with the touched bytes if they are in one unit, and with the last
   * unit before them otherwise.  It starts with touched bytes exactly if they are in one unit, start with a unit
   * or go on in the same row.
   */
  ghost predicate UniLrcStart(u: nat, k: nat, from: nat, to: nat, start: int)
    requires u > 0 && k > 0 && to > 0
  {
    (if (to - 1) / u == from / u then StartReached(u, k, from, to, start)
     else start % u == 0 && forall lo: nat :: lo % u == 0 && StartsAfter(u, k, from, to, lo) ==> lo <= start) &&
    (StartReached(u, k, from, to, start) <==> (to - 1) / u == from / u || from % u == 0 || (from / u + 1) % k != 0)
  }

  ghost predicate StartsAfter(u: nat, k: nat, from: nat, to: nat, lo: int)
    requires u > 0 && k > 0
  {
    forall j: nat :: j < k && Touched(u, k, from, to, j) ==> lo <= BytesIn(u, k, j, from)
  }

  lemma RowIs(u: nat, k: nat, a: nat)
    requires u > 0 && k > 0
    ensures IsRow(u, k, a, Row(u, k, a)) && Times(Row(u, k, a), u) == Row(u, k, a) * u
  {
    var n, rowBytes := Row(u, k, a), u * k;
    RowBytes(u, k);
    Parts(u, k, a, rowBytes);
    assert a == n * rowBytes + a % rowBytes;
    assert (n + 1) * rowBytes == n * rowBytes + rowBytes;
  }

  lemma CachedRows(u: nat, k: nat, from: nat, last: nat, start: int, end: int)
    requires u > 0 && k > 0 && from <= last && ParityIs(Cached, u, k, from, last, start, end)
    ensures WholeRows(u, k, from, last, end - start, start)
  {
    hide Row, Times, IsRow;
    RowIs(u, k, from);
    RowIs(u, k, last);
    RowsInOrder(u, k, from, last);
    TimesIs(Row(u, k, last), u);
  }

  lemma Multiple(q: nat, u: nat)
    requires u > 0
    ensures Times(q, u) % u == 0 && (Times(q, u) + u) % u == 0
  {
    S.Split(q, u, 0, q * u);
    S.Split(q + 1, u, 0, (q + 1) * u);
    TimesIs(q, u);
  }

  /** A multiple of u below the middle of a unit is not above its start, and one behind its start not below its end. */
  lemma MultiplesAround(q: nat, u: nat, t: nat, a: nat)
    requires u > 0 && t < u && a % u == 0
    ensures a <= Times(q, u) + t ==> a <= Times(q, u)
    ensures a > Times(q, u) ==> a >= Times(q, u) + u
  {
    var m := a / u;
    assert a == m * u;
    if m < q {
      EarlierRow(u, m, q);
    } else if m > q {
      EarlierRow(u, q, m);
    }
  }

  lemma CachedUnits(u: nat, k: nat, from: nat, last: nat, start: int, end: int)
    requires u > 0 && k > 0 && from <= last && ParityIs(Cached, u, k, from, last, start, end)
    ensures WholeUnits(u, k, from, last + 1, start, end)
  {
    hide BytesIn, Row, UnitOf, Owner, Part, Times, FitsBlocks;
    ParityCovers(Cached, u, k, from, last, start, end);
    Multiple(Row(u, k, from), u);
    Multiple(Row(u, k, last), u);
    forall lo: nat, hi: nat | lo % u == 0 && hi % u == 0 && Covers(u, k, from, last + 1, lo, hi)
      ensures lo <= start && end <= hi
    {
      FirstTouched(u, k, from, last);
      LastTouched(u, k, from, last);
      MultiplesAround(Row(u, k, from), u, Part(u, from), lo);
      MultiplesAround(Row(u, k, last), u, Part(u, last), hi);
    }
  }

  /** The block of the first byte is touched from its place in its unit on. */
  lemma FirstTouched(u: nat, k: nat, from: nat, last: nat)
    requires u > 0 && k > 0 && from <= last
    ensures Touched(u, k, from, last + 1, Owner(u, k, from))
    ensures BytesIn(u, k, Owner(u, k, from), from) == Times(Row(u, k, from), u) + Part(u, from)
  {
    hide Row, Part, Times, Owner;
    var j := Owner(u, k, from);
    StartOf(u, k, j, from);
    BytesGrow(u, k, j, from + 1, last + 1);
  }

  /** The block of the last byte is touched up to it. */
  lemma LastTouched(u: nat, k: nat, from: nat, last: nat)
    requires u > 0 && k > 0 && from <= last
    ensures Touched(u, k, from, last + 1, Owner(u, k, last))
    ensures BytesIn(u, k, Owner(u, k, last), last + 1) == Times(Row(u, k, last), u) + Part(u, last) + 1
  {
    hide Row, Part, Times, Owner;
    var j := Owner(u, k, last);
    UpTo(u, k, j, last);
    BytesGrow(u, k, j, from, last);
  }

  lemma UniLrcStarts(u: nat, k: nat, from: nat, last: nat, start: int, end: int)
    requires u > 0 && k > 0 && from <= last && ParityIs(UniLrc, u, k, from, last, start, end)
    ensures UniLrcStart(u, k, from, last + 1, start)
  {
    hide BytesIn, Row, Owner, Part, Times, Touched;
    FirstTouched(u, k, from, last);
    if UnitOf(u, last) == UnitOf(u, from) {
      assert StartReached(u, k, from, last + 1, start);
    } else {
      Multiple(Row(u, k, from), u);
      forall lo: nat | lo % u == 0 && StartsAfter(u, k, from, last + 1, lo)
        ensures lo <= start
      {
        MultiplesAround(Row(u, k, from), u, Part(u, from), lo);
      }
      WhichStart(u, k, from, last);
    }
  }

  /** Over several units some block is touched from the start of the first row's unit on, or none is. */
  lemma WhichStart(u: nat, k: nat, from: nat, last: nat)
    requires u > 0 && k > 0 && from <= last && last / u != from / u
    ensures StartReached(u, k, from, last + 1, Times(Row(u, k, from), u)) <==> from % u == 0 || (from / u + 1) % k != 0
  {
    hide BytesIn, Row, Part, Times, Touched, Owner;
    var row, j := Row(u, k, from), Owner(u, k, from);
    FirstTouched(u, k, from, last);
    NextInRow(u, k, from);
    PartIs(u, from);
    if from % u != 0 {
      if (from / u + 1) % k != 0 {
        NextTouched(u, k, from, last);
      } else {
        forall i: nat | i < k
          ensures BytesIn(u, k, i, from) != Times(row, u)
        {
          StartOf(u, k, i, from);
        }
      }
    }
  }

  lemma PartIs(u: nat, from: nat)
    requires u > 0
    ensures Part(u, from) == from % u
  {
  }

  lemma NextInRow(u: nat, k: nat, from: nat)
    requires u > 0 && k > 0
    ensures (from / u + 1) % k == 0 <==> Owner(u, k, from) == k - 1
  {
    var m := from / u;
    if m % k + 1 < k {
      SameUnit(k, m, 1);
    } else {
      NextUnit(k, m, 1);
    }
  }

  /** The block behind that of the first byte is touched from the start of its unit on. */
  lemma NextTouched(u: nat, k: nat, from: nat, last: nat)
    requires u > 0 && k > 0 && from <= last && last / u != from / u && Owner(u, k, from) != k - 1
    ensures StartReached(u, k, from, last + 1, Times(Row(u, k, from), u))
  {
    hide BytesIn, Row, Part, Times, Owner;
    var i := Owner(u, k, from) + 1;
    StartOf(u, k, i, from);
    UpTo(u, k, i, last);
    RowsInOrder(u, k, from, last);
    Rows(u, Row(u, k, from), Row(u, k, last));
    UnitsDiffer(u, from, last);
    assert Touched(u, k, from, last + 1, i);
  }

  lemma UnitsDiffer(u: nat, from: nat, last: nat)
    requires u > 0 && from <= last && last / u != from / u
    ensures UnitOf(u, from) < UnitOf(u, last)
  {
    DivMonotone(u, from, last);
  }

  /** The bytes of a block before byte `from` ... */
  lemma StartOf(u: nat, k: nat, j: nat, from: nat)
    requires u > 0 && j < k
    ensures BytesIn(u, k, j, from) == Times(Row(u, k, from), u) +
      if Owner(u, k, from) > j then u else if Owner(u, k, from) == j then Part(u, from) else 0
  {
    hide BytesIn, UnitsIn, Row, Owner, Part, Times;
    Position(u, k, j, from);
    UnitsAre(u, k, j, from);
    TimesIs(Row(u, k, from), u);
  }

  lemma UnitsAre(u: nat, k: nat, j: nat, a: nat)
    requires u > 0 && k > 0
    ensures UnitsIn(k, j, a / u) == Row(u, k, a) + if Owner(u, k, a) > j then 1 else 0
    ensures (a / u) % k == Owner(u, k, a) && a % u == Part(u, a)
  {
  }

  lemma TimesIs(row: nat, u: nat)
    ensures row * u == Times(row, u) && (row + 1) * u == Times(row, u) + u
  {
    Distribute(row, u);
  }

  /** ... and up to byte `last`. */
  lemma UpTo(u: nat, k: nat, j: nat, last: nat)
    requires u > 0 && j < k
    ensures BytesIn(u, k, j, last + 1) == Times(Row(u, k, last), u) +
      if Owner(u, k, last) > j then u else if Owner(u, k, last) == j then Part(u, last) + 1 else 0
  {
    hide Times, Row, Owner, Part;
    StartOf(u, k, j, last);
  }

  /** The last row of an append that fits into the blocks. */
  lemma LastRowFits(u: nat, k: nat, last: nat, blockSize: nat)
    requires u > 0 && k > 0 && FitsBlocks(u, k, last + 1, blockSize)
    ensures Times(Row(u, k, last), u) + u <= blockSize
  {
    var q := blockSize / u;
    assert blockSize == q * u;
    assert k * blockSize == (q * k) * u;
    I.InMultiple(last, u, q * k);
    I.InMultiple(last / u, k, q);
    EarlierRow(u, Row(u, k, last), q);
  }

  /** Rows and units come in order. */
  lemma RowsInOrder(u: nat, k: nat, a: nat, b: nat)
    requires u > 0 && k > 0 && a <= b
    ensures UnitOf(u, a) <= UnitOf(u, b) && Row(u, k, a) <= Row(u, k, b)
    ensures Row(u, k, a) == Row(u, k, b) ==> (Owner(u, k, a) < Owner(u, k, b) <==> UnitOf(u, a) < UnitOf(u, b))
  {
    DivMonotone(u, a, b);
    DivMonotone(k, a / u, b / u);
    assert a / u == (a / u / k) * k + (a / u) % k && b / u == (b / u / k) * k + (b / u) % k;
  }

  lemma DivMonotone(d: nat, a: nat, b: nat)
    requires d > 0 && a <= b
    ensures a / d <= b / d
  {
    assert a == (a / d) * d + a % d;
    I.InMultiple(b, d, a / d);
  }

  lemma Rows(u: nat, row: nat, rowL: nat)
    requires row <= rowL
    ensures row * u == Times(row, u) && Times(row, u) <= Times(rowL, u)
    ensures Times(row, u) + (rowL - row) * u == Times(rowL, u)
    ensures Times(row, u) + (rowL - row + 1) * u == Times(rowL, u) + u
    ensures row < rowL ==> Times(row, u) + u <= Times(rowL, u)
  {
    A.NonNegativeProduct(rowL - row, u);
    assert (rowL - row + 1) * u == (rowL - row) * u + u;
    if row < rowL {
      EarlierRow(u, row, rowL);
    }
  }

  lemma EarlierRow(u: nat, row: nat, rowL: nat)
    requires row < rowL
    ensures Times(row, u) + u <= Times(rowL, u)
  {
    Distribute(row, u);
    assert rowL * u == (row + 1) * u + (rowL - row - 1) * u;
    A.NonNegativeProduct(rowL - row - 1, u);
  }

  /** An offset below a unit within a row is in the first block. */
  lemma FirstBlock(u: nat, s: nat, t: nat)
    requires t < u
    ensures Times(s, u) + t < u - 1 <==> s == 0 && t < u - 1
  {
    if s > 0 {
      A.AtLeast(s, u);
    }
  }

  /** The slice covers all touched bytes, fits, and is tight. */
  lemma ParityCovers(mode: Mode, u: nat, k: nat, from: nat, last: nat, start: int, end: int)
    requires u > 0 && k > 0 && from <= last && !mode.Rep? && ParityIs(mode, u, k, from, last, start, end)
    ensures ParityFits(u, k, from, last + 1, end - start, start)
    ensures mode.UniLrc? ==> ParityTight(u, k, from, last + 1, end - start, start)
  {
    hide BytesIn, Row, UnitOf, Owner, Part, Times, FitsBlocks;
    RowsInOrder(u, k, from, last);
    Rows(u, Row(u, k, from), Row(u, k, last));
    if UnitOf(u, last) == UnitOf(u, from) {
      OneUnitEnds(u, k, from, last);
    }
    var to := last + 1;
    forall j: nat | j < k && Touched(u, k, from, to, j)
      ensures start <= BytesIn(u, k, j, from) && BytesIn(u, k, j, to) <= end
    {
      StartOf(u, k, j, from);
      UpTo(u, k, j, last);
    }
    forall blockSize: nat | FitsBlocks(u, k, to, blockSize)
      ensures end <= blockSize
    {
      LastRowFits(u, k, last, blockSize);
    }
    if mode.UniLrc? {
      EndReached(u, k, from, last, start, end);
    }
  }

  /** Some touched block ends where the slice does. */
  lemma EndReached(u: nat, k: nat, from: nat, last: nat, start: int, end: int)
    requires u > 0 && k > 0 && from <= last && ParityIs(UniLrc, u, k, from, last, start, end)
    ensures ParityTight(u, k, from, last + 1, end - start, start)
  {
    hide BytesIn, Row, UnitOf, Part, Times;
    RowsInOrder(u, k, from, last);
    Rows(u, Row(u, k, from), Row(u, k, last));
    if UnitOf(u, last) == UnitOf(u, from) {
      OneUnitEnds(u, k, from, last);
    }
    var j := if Row(u, k, last) > Row(u, k, from) then 0 else Owner(u, k, from);
    hide Owner;
    StartOf(u, k, j, from);
    UpTo(u, k, j, last);
    assert Touched(u, k, from, last + 1, j);
  }

  // ---- What each cluster receives ----

  /** The bytes of the data blocks lo..hi-1. */
  function DataSum(m: map<nat, nat>, lo: nat, hi: nat): nat
    decreases hi
  {
    if hi <= lo then 0 else DataSum(m, lo, hi - 1) + if hi - 1 in m then m[hi - 1] else 0
  }

  function Sizes(m: map<nat, Slice>): map<nat, nat> {
    map j | j in m :: m[j].size
  }

  /** Cluster i has the blocks Share(i) up to Share(i + 1) of n. */
  function Share(i: nat, n: nat, z: nat): nat
    requires z > 0
  {
    i * n / z
  }

  lemma RangeOf(i: nat, n: nat, z: nat)
    requires z > 0
    ensures Share(i, n, z) <= Share(i + 1, n, z)
  {
    assert (i + 1) * n == i * n + n;
    DivMonotone(z, i * n, (i + 1) * n);
  }

  /** Parity bytes of a cluster as the coordinator reckons them. */
  function ParityBytes(r: nat, z: nat, psize: nat): nat
    requires z > 0
  {
    psize * (r + z) / z
  }

  /** All bytes of cluster i as the coordinator reckons them. */
  function CoordinatorBytes(m: map<nat, nat>, k: nat, r: nat, z: nat, i: nat, psize: nat): nat
    requires z > 0
  {
    DataSum(m, Share(i, k, z), Share(i + 1, k, z)) + ParityBytes(r, z, psize)
  }

  /** `getClusterAppendSize`. */
  method ClusterAppendSize(m: map<nat, Slice>, k: nat, r: nat, z: nat, i: nat, psize: nat) returns (bytes: nat)
    requires z > 0
    ensures bytes == CoordinatorBytes(Sizes(m), k, r, z, i, psize)
  {
    hide Share, ParityBytes;
    RangeOf(i, k, z);
    ShareIs(i, k, z);
    BytesAre(r, z, psize);
    bytes := 0;
    for j := i * k / z to (i + 1) * k / z
      invariant bytes == DataSum(Sizes(m), Share(i, k, z), j)
    {
      if j in m {
        bytes := bytes + m[j].size;
      }
    }
    bytes := bytes + psize * (r + z) / z;
  }

  lemma ShareIs(i: nat, n: nat, z: nat)
    requires z > 0
    ensures Share(i, n, z) == i * n / z && Share(i + 1, n, z) == (i + 1) * n / z
  {
  }

  lemma BytesAre(r: nat, z: nat, psize: nat)
    requires z > 0
    ensures ParityBytes(r, z, psize) == psize * (r + z) / z
  {
  }

  /** Both programs compute the same sizes of the data slices. */
  lemma SameSizes(m: map<nat, Slice>, m': map<nat, nat>, u: nat, k: nat, from: nat, to: nat)
    requires u > 0 && k > 0 && SlicesFor(m, u, k, from, to) && SizesFor(m', u, k, from, to)
    ensures Sizes(m) == m'
  {
    hide BytesIn, Touched;
  }

  function SumOf(s: seq<nat>): nat {
    if s == [] then 0 else SumOf(s[..|s| - 1]) + s[|s| - 1]
  }

  lemma SumSnoc(s: seq<nat>, x: nat)
    ensures SumOf(s + [x]) == SumOf(s) + x
  {
    assert (s + [x])[..|s|] == s;
  }

  /** All bytes that the client sends to cluster i: its data slices, its global parities and its local parity. */
  function ClientBytes(m: map<nat, nat>, k: nat, r: nat, z: nat, i: nat, psize: nat): nat
    requires z > 0
  {
    hide Share;
    RangeOf(i, r, z);
    A.NonNegativeProduct(Share(i + 1, r, z) - Share(i, r, z), psize);
    DataSum(m, Share(i, k, z), Share(i + 1, k, z)) + (Share(i + 1, r, z) - Share(i, r, z)) * psize + psize
  }

  /** The slices of the blocks lo..hi-1, in order. */
  function SizesIn(m: map<nat, nat>, lo: nat, hi: nat): seq<nat>
    decreases hi
  {
    if hi <= lo then [] else SizesIn(m, lo, hi - 1) + if hi - 1 in m then [m[hi - 1]] else []
  }

  function Repeat(n: nat, size: nat): (s: seq<nat>)
    ensures |s| == n
  {
    seq(n, _ => size)
  }

  /** The client's slices for one cluster: its data blocks, its global parities and its local parity. */
  method ClientCluster(m: map<nat, nat>, k: nat, r: nat, z: nat, i: nat, psize: nat) returns (sizes: seq<nat>)
    requires z > 0
    ensures Share(i, r, z) <= Share(i + 1, r, z)
    ensures sizes == SizesIn(m, Share(i, k, z), Share(i + 1, k, z)) + Repeat(Share(i + 1, r, z) - Share(i, r, z), psize) + [psize]
    ensures SumOf(sizes) == ClientBytes(m, k, r, z, i, psize)
  {
    hide SumOf, Share;
    RangeOf(i, k, z);
    RangeOf(i, r, z);
    ShareIs(i, k, z);
    ShareIs(i, r, z);
    sizes := [];
    assert SumOf(sizes) == 0 by { EmptySum(); }
    for j := i * k / z to (i + 1) * k / z
      invariant SumOf(sizes) == DataSum(m, Share(i, k, z), j)
      invariant sizes == SizesIn(m, Share(i, k, z), j)
    {
      if j in m {
        SumSnoc(sizes, m[j]);
        sizes := sizes + [m[j]];
      }
    }
    ghost var data := sizes;
    for j := i * r / z to (i + 1) * r / z
      invariant SumOf(sizes) == SumOf(data) + (j - Share(i, r, z)) * psize
      invariant sizes == data + Repeat(j - Share(i, r, z), psize)
    {
      SumSnoc(sizes, psize);
      Distribute(j - Share(i, r, z), psize);
      sizes := sizes + [psize];
    }
    OneLocal(i, z);
    SumSnoc(sizes, psize);
    sizes := sizes + [psize];
  }

  lemma EmptySum()
    ensures SumOf([]) == 0
  {
  }

  /** There is one local parity. */
  lemma OneLocal(i: nat, z: nat)
    requires z > 0
    ensures Share(i + 1, z, z) == Share(i, z, z) + 1
  {
    S.Split(i, z, 0, i * z);
    S.Split(i + 1, z, 0, (i + 1) * z);
  }

  /** Both programs expect the same number of parity bytes in cluster i. */
  predicate ParityAgrees(r: nat, z: nat, psize: nat, i: nat)
    requires z > 0
  {
    ParityBytes(r, z, psize) == (Share(i + 1, r, z) - Share(i, r, z)) * psize + psize
  }

  /** Coordinator and client agree about all clusters exactly if z divides r. */
  lemma ClustersAgree(r: nat, z: nat, psize: nat)
    requires z > 0 && psize > 0
    ensures (forall i: nat :: i < z ==> ParityAgrees(r, z, psize, i)) <==> r % z == 0
  {
    hide ParityAgrees;
    if r % z == 0 {
      forall i: nat | i < z
        ensures ParityAgrees(r, z, psize, i)
      {
        EvenShares(r, z, psize, i);
      }
    } else {
      UnevenShares(r, z, psize);
    }
  }

  /** Cluster i is sent as many bytes as the coordinator reckons with. */
  predicate BytesAgree(m: map<nat, Slice>, m': map<nat, nat>, k: nat, r: nat, z: nat, i: nat, psize: nat)
    requires z > 0
  {
    CoordinatorBytes(Sizes(m), k, r, z, i, psize) == ClientBytes(m', k, r, z, i, psize)
  }

  /** Whatever is appended, the two programs agree about the bytes of every cluster exactly if z divides r. */
  lemma SizesAgree(m: map<nat, Slice>, m': map<nat, nat>, u: nat, k: nat, r: nat, z: nat, from: nat, to: nat,
                   psize: nat)
    requires u > 0 && k > 0 && z > 0 && psize > 0 && SlicesFor(m, u, k, from, to) && SizesFor(m', u, k, from, to)
    ensures (forall i: nat :: i < z ==> BytesAgree(m, m', k, r, z, i, psize)) <==> r % z == 0
  {
    hide SlicesFor, SizesFor, ParityBytes, Share, DataSum;
    SameSizes(m, m', u, k, from, to);
    ClustersAgree(r, z, psize);
    forall i: nat
      ensures BytesAgree(m, m', k, r, z, i, psize) <==> ParityAgrees(r, z, psize, i)
    {
    }
  }

  lemma EvenShares(r: nat, z: nat, psize: nat, i: nat)
    requires z > 0 && r % z == 0
    ensures ParityAgrees(r, z, psize, i)
  {
    var q := r / z;
    assert r == q * z;
    assert psize * (r + z) == (psize * q + psize) * z;
    S.Split(psize * q + psize, z, 0, psize * (r + z));
    assert i * r == (i * q) * z && (i + 1) * r == ((i + 1) * q) * z;
    S.Split(i * q, z, 0, i * r);
    S.Split((i + 1) * q, z, 0, (i + 1) * r);
    assert (i + 1) * q - i * q == q;
    assert psize * q == q * psize;
  }

  /** The last cluster gets one global parity more than the coordinator's average. */
  lemma UnevenShares(r: nat, z: nat, psize: nat)
    requires z > 0 && psize > 0 && r % z != 0
    ensures !ParityAgrees(r, z, psize, z - 1)
  {
    hide Share, ParityBytes;
    LastShare(r, z);
    AverageShare(r, z, psize);
    Distribute(r / z, psize);
  }

  lemma LastShare(r: nat, z: nat)
    requires z > 0 && r % z != 0
    ensures Share(z, r, z) - Share(z - 1, r, z) == r / z + 1
  {
    var q, s := r / z, r % z;
    LastProduct(r, z, q, s);
    S.Split(r, z, 0, z * r);
    S.Split(r - q - 1, z, z - s, (z - 1) * r);
  }

  lemma LastProduct(r: nat, z: nat, q: nat, s: nat)
    requires z > 0 && r == q * z + s && 0 < s < z
    ensures z * r == r * z && q + 1 <= r && (z - 1) * r == (r - q - 1) * z + (z - s)
  {
    assert q * z == q + q * (z - 1);
    A.NonNegativeProduct(q, z - 1);
    assert (z - 1) * r == z * r - r;
    assert (r - q - 1) * z == r * z - q * z - z;
  }

  lemma AverageShare(r: nat, z: nat, psize: nat)
    requires z > 0 && psize > 0 && r % z != 0
    ensures ParityBytes(r, z, psize) < (r / z) * psize + psize + psize
  {
    var q, s := r / z, r % z;
    assert r == q * z + s;
    assert psize * (r + z) == (q * psize + psize) * z + psize * s by { Expand(psize, q, z, s); }
    LessProduct(psize, s, z);
    assert (q * psize + psize + psize) * z == (q * psize + psize) * z + psize * z;
    I.InMultiple(psize * (r + z), z, q * psize + psize + psize);
  }

  lemma Expand(p: nat, q: nat, z: nat, s: nat)
    ensures p * (q * z + s + z) == (q * p + p) * z + p * s
  {
    assert p * (q * z + s + z) == p * (q * z) + p * s + p * z;
    assert p * (q * z) == (q * p) * z;
  }

  lemma LessProduct(p: nat, s: nat, z: nat)
    requires p > 0 && s < z
    ensures p * s < p * z
  {
    assert p * z == p * s + p * (z - s);
    A.AtLeast(z - s, p);
  }
}

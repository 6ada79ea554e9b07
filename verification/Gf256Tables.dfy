/**
 * The log and antilog tables of the erasure coder, and the proof that they
 * tabulate the powers of 2 in GF(2)[x] / (x^8 + x^4 + x^3 + x^2 + 1).
 */
module Gf256Tables {

  type byte = bv8

  /** Multiplication by x: shift left, and reduce by 0x11d if the top bit was set. */
  function Times2(c: byte): byte {
    (c << 1) ^ ((c >> 7) * 0x1d)
  }

  /** The n-th power of 2. */
  function Alpha(n: nat): byte {
    if n == 0 then 1 else Times2(Alpha(n - 1))
  }

  /** The n-th of sixteen table cells, for a nibble n. */
  function Select(n: byte, v0: byte, v1: byte, v2: byte, v3: byte, v4: byte, v5: byte, v6: byte, v7: byte,
                  v8: byte, v9: byte, v10: byte, v11: byte, v12: byte, v13: byte, v14: byte, v15: byte): byte
  {
    if n < 8 then
      if n < 4 then
        if n < 2 then (if n < 1 then v0 else v1) else (if n < 3 then v2 else v3)
      else
        if n < 6 then (if n < 5 then v4 else v5) else (if n < 7 then v6 else v7)
    else
      if n < 12 then
        if n < 10 then (if n < 9 then v8 else v9) else (if n < 11 then v10 else v11)
      else
        if n < 14 then (if n < 13 then v12 else v13) else (if n < 15 then v14 else v15)
  }

  /** The antilog table `gff_base`, sixteen cells a row. */
  function GffBase(i: byte): byte {
    var n := i & 0xf;
    Select(i >> 4,
      Select(n, 0x01, 0x02, 0x04, 0x08, 0x10, 0x20, 0x40, 0x80, 0x1d, 0x3a, 0x74, 0xe8, 0xcd, 0x87, 0x13, 0x26),
      Select(n, 0x4c, 0x98, 0x2d, 0x5a, 0xb4, 0x75, 0xea, 0xc9, 0x8f, 0x03, 0x06, 0x0c, 0x18, 0x30, 0x60, 0xc0),
      Select(n, 0x9d, 0x27, 0x4e, 0x9c, 0x25, 0x4a, 0x94, 0x35, 0x6a, 0xd4, 0xb5, 0x77, 0xee, 0xc1, 0x9f, 0x23),
      Select(n, 0x46, 0x8c, 0x05, 0x0a, 0x14, 0x28, 0x50, 0xa0, 0x5d, 0xba, 0x69, 0xd2, 0xb9, 0x6f, 0xde, 0xa1),
      Select(n, 0x5f, 0xbe, 0x61, 0xc2, 0x99, 0x2f, 0x5e, 0xbc, 0x65, 0xca, 0x89, 0x0f, 0x1e, 0x3c, 0x78, 0xf0),
      Select(n, 0xfd, 0xe7, 0xd3, 0xbb, 0x6b, 0xd6, 0xb1, 0x7f, 0xfe, 0xe1, 0xdf, 0xa3, 0x5b, 0xb6, 0x71, 0xe2),
      Select(n, 0xd9, 0xaf, 0x43, 0x86, 0x11, 0x22, 0x44, 0x88, 0x0d, 0x1a, 0x34, 0x68, 0xd0, 0xbd, 0x67, 0xce),
      Select(n, 0x81, 0x1f, 0x3e, 0x7c, 0xf8, 0xed, 0xc7, 0x93, 0x3b, 0x76, 0xec, 0xc5, 0x97, 0x33, 0x66, 0xcc),
      Select(n, 0x85, 0x17, 0x2e, 0x5c, 0xb8, 0x6d, 0xda, 0xa9, 0x4f, 0x9e, 0x21, 0x42, 0x84, 0x15, 0x2a, 0x54),
      Select(n, 0xa8, 0x4d, 0x9a, 0x29, 0x52, 0xa4, 0x55, 0xaa, 0x49, 0x92, 0x39, 0x72, 0xe4, 0xd5, 0xb7, 0x73),
      Select(n, 0xe6, 0xd1, 0xbf, 0x63, 0xc6, 0x91, 0x3f, 0x7e, 0xfc, 0xe5, 0xd7, 0xb3, 0x7b, 0xf6, 0xf1, 0xff),
      Select(n, 0xe3, 0xdb, 0xab, 0x4b, 0x96, 0x31, 0x62, 0xc4, 0x95, 0x37, 0x6e, 0xdc, 0xa5, 0x57, 0xae, 0x41),
      Select(n, 0x82, 0x19, 0x32, 0x64, 0xc8, 0x8d, 0x07, 0x0e, 0x1c, 0x38, 0x70, 0xe0, 0xdd, 0xa7, 0x53, 0xa6),
      Select(n, 0x51, 0xa2, 0x59, 0xb2, 0x79, 0xf2, 0xf9, 0xef, 0xc3, 0x9b, 0x2b, 0x56, 0xac, 0x45, 0x8a, 0x09),
      Select(n, 0x12, 0x24, 0x48, 0x90, 0x3d, 0x7a, 0xf4, 0xf5, 0xf7, 0xf3, 0xfb, 0xeb, 0xcb, 0x8b, 0x0b, 0x16),
      Select(n, 0x2c, 0x58, 0xb0, 0x7d, 0xfa, 0xe9, 0xcf, 0x83, 0x1b, 0x36, 0x6c, 0xd8, 0xad, 0x47, 0x8e, 0x01))
  }

  /** The log table `gflog_base`; the logarithm of 1 is stored as 255 and the cell of 0 is unused. */
  function GflogBase(i: byte): byte {
    var n := i & 0xf;
    Select(i >> 4,
      Select(n, 0x00, 0xff, 0x01, 0x19, 0x02, 0x32, 0x1a, 0xc6, 0x03, 0xdf, 0x33, 0xee, 0x1b, 0x68, 0xc7, 0x4b),
      Select(n, 0x04, 0x64, 0xe0, 0x0e, 0x34, 0x8d, 0xef, 0x81, 0x1c, 0xc1, 0x69, 0xf8, 0xc8, 0x08, 0x4c, 0x71),
      Select(n, 0x05, 0x8a, 0x65, 0x2f, 0xe1, 0x24, 0x0f, 0x21, 0x35, 0x93, 0x8e, 0xda, 0xf0, 0x12, 0x82, 0x45),
      Select(n, 0x1d, 0xb5, 0xc2, 0x7d, 0x6a, 0x27, 0xf9, 0xb9, 0xc9, 0x9a, 0x09, 0x78, 0x4d, 0xe4, 0x72, 0xa6),
      Select(n, 0x06, 0xbf, 0x8b, 0x62, 0x66, 0xdd, 0x30, 0xfd, 0xe2, 0x98, 0x25, 0xb3, 0x10, 0x91, 0x22, 0x88),
      Select(n, 0x36, 0xd0, 0x94, 0xce, 0x8f, 0x96, 0xdb, 0xbd, 0xf1, 0xd2, 0x13, 0x5c, 0x83, 0x38, 0x46, 0x40),
      Select(n, 0x1e, 0x42, 0xb6, 0xa3, 0xc3, 0x48, 0x7e, 0x6e, 0x6b, 0x3a, 0x28, 0x54, 0xfa, 0x85, 0xba, 0x3d),
      Select(n, 0xca, 0x5e, 0x9b, 0x9f, 0x0a, 0x15, 0x79, 0x2b, 0x4e, 0xd4, 0xe5, 0xac, 0x73, 0xf3, 0xa7, 0x57),
      Select(n, 0x07, 0x70, 0xc0, 0xf7, 0x8c, 0x80, 0x63, 0x0d, 0x67, 0x4a, 0xde, 0xed, 0x31, 0xc5, 0xfe, 0x18),
      Select(n, 0xe3, 0xa5, 0x99, 0x77, 0x26, 0xb8, 0xb4, 0x7c, 0x11, 0x44, 0x92, 0xd9, 0x23, 0x20, 0x89, 0x2e),
      Select(n, 0x37, 0x3f, 0xd1, 0x5b, 0x95, 0xbc, 0xcf, 0xcd, 0x90, 0x87, 0x97, 0xb2, 0xdc, 0xfc, 0xbe, 0x61),
      Select(n, 0xf2, 0x56, 0xd3, 0xab, 0x14, 0x2a, 0x5d, 0x9e, 0x84, 0x3c, 0x39, 0x53, 0x47, 0x6d, 0x41, 0xa2),
      Select(n, 0x1f, 0x2d, 0x43, 0xd8, 0xb7, 0x7b, 0xa4, 0x76, 0xc4, 0x17, 0x49, 0xec, 0x7f, 0x0c, 0x6f, 0xf6),
      Select(n, 0x6c, 0xa1, 0x3b, 0x52, 0x29, 0x9d, 0x55, 0xaa, 0xfb, 0x60, 0x86, 0xb1, 0xbb, 0xcc, 0x3e, 0x5a),
      Select(n, 0xcb, 0x59, 0x5f, 0xb0, 0x9c, 0xa9, 0xa0, 0x51, 0x0b, 0xf5, 0x16, 0xeb, 0x7a, 0x75, 0x2c, 0xd7),
      Select(n, 0x4f, 0xae, 0xd5, 0xe9, 0xe6, 0xe7, 0xad, 0xe8, 0x74, 0xd6, 0xf4, 0xea, 0xa8, 0x50, 0x58, 0xaf))
  }

  /** Cell by cell, the antilog table doubles: 2 generates it. */
  lemma AntilogDoubles(i: byte)
    requires i != 0
    ensures GffBase(i) == Times2(GffBase(i - 1))
  {
  }

  /** The antilog table undoes the log table on every nonzero byte. */
  lemma AntilogOfLog(a: byte)
    requires a != 0
    ensures GffBase(GflogBase(a)) == a
    ensures GflogBase(a) != 0
  {
    hide GffBase, GflogBase;
    if a < 0x80 {
      LowLogs(a);
    } else {
      HighLogs(a);
    }
  }

  lemma LowLogs(a: byte)
    requires 0 < a < 0x80
    ensures GffBase(GflogBase(a)) == a && GflogBase(a) != 0
  {
  }

  lemma HighLogs(a: byte)
    requires 0x80 <= a
    ensures GffBase(GflogBase(a)) == a && GflogBase(a) != 0
  {
  }

  /** The antilog table lists the powers of 2, up to and including index 255. */
  lemma {:induction false} AntilogIsPower(i: byte)
    ensures GffBase(i) == Alpha(i as nat)
    decreases i as nat
  {
    hide GffBase;
    if i == 0 {
      AntilogAtZero();
    } else {
      AntilogDoubles(i);
      AntilogIsPower(i - 1);
      assert (i - 1) as nat == i as nat - 1;
    }
  }

  lemma Successor(x: byte)
    requires x != 255
    ensures (x + 1) as nat == x as nat + 1
  {
  }

  lemma {:induction false} ByteWithValue(n: nat) returns (x: byte)
    requires n < 256
    ensures x as nat == n
  {
    if n == 0 {
      x := 0;
    } else {
      var y := ByteWithValue(n - 1);
      assert y != 255;
      Successor(y);
      x := y + 1;
    }
  }

  lemma ByteOfNat(n: nat)
    requires n < 256
    ensures (n as byte) as nat == n
  {
    var x := ByteWithValue(n);
    assert (x as nat) as byte == x;
  }

  lemma AntilogAtZero()
    ensures GffBase(0) == 1 && GffBase(255) == 1
  {
  }

  /** Indexing the antilog table, as the coder does, by an integer. */
  function Antilog(i: nat): byte
    requires i < 256
  {
    GffBase(i as byte)
  }

  function Log(a: byte): nat {
    GflogBase(a) as nat
  }

  lemma AntilogAt(i: nat)
    requires i < 256
    ensures Antilog(i) == Alpha(i)
  {
    hide GffBase;
    ByteOfNat(i);
    AntilogIsPower(i as byte);
  }

  /** Every nonzero byte is a power of 2, namely the one its table logarithm names. */
  lemma PowerOfLog(a: byte)
    requires a != 0
    ensures Alpha(Log(a)) == a
    ensures 1 <= Log(a) <= 255
  {
    hide GffBase, GflogBase;
    AntilogOfLog(a);
    AntilogIsPower(GflogBase(a));
  }

  lemma AlphaAt255()
    ensures Alpha(255) == 1
  {
    hide GffBase;
    AntilogIsPower(255);
    AntilogAtZero();
  }

  /** The powers of 2 repeat after 255 steps. */
  lemma {:induction false} AlphaPeriod(n: nat)
    ensures Alpha(n + 255) == Alpha(n)
  {
    if n == 0 {
      AlphaAt255();
    } else {
      AlphaPeriod(n - 1);
      assert Alpha(n + 255) == Times2(Alpha(n + 254));
    }
  }
}

/**
 * Runs of appends: the datanodes append what the coordinator plans until the
 * stripe is full, and the parity slices of all appends are folded into the
 * parity of the whole stripe.
 */
module AppendRuns {
  import opened Gf256Tables
  import opened Gf256
  import opened LinearAlgebra
  import opened AppendSlices

  // ---- The data files ----

  /** The data files of a stripe on the datanodes. */
  type Files = map<nat, Vec>

  function File(files: Files, j: nat): Vec {
    if j in files then files[j] else []
  }

  /** `handleAppend`: a file is created by an append at offset 0 only, and data always goes to the end. */
  method HandleAppend(files: Files, j: nat, offset: nat, bytes: Vec) returns (ok: bool, files': Files)
    ensures ok <==> (offset == 0 ==> j !in files)
    ensures files' == if ok then files[j := File(files, j) + bytes] else files
  {
    if offset == 0 && j in files {
      return false, files;
    }
    return true, files[j := File(files, j) + bytes];
  }

  /** What a client appends to a stripe: k blocks of data, of which every append sends the next units. */
  ghost predicate Setting(u: nat, k: nat, blockSize: nat, content: Matrix) {
    u > 0 && k > 0 && blockSize % u == 0 && IsMatrix(content, k, blockSize)
  }

  lemma BytesFit(u: nat, k: nat, blockSize: nat, content: Matrix, j: nat, n: nat)
    requires Setting(u, k, blockSize, content) && j < k && n <= k * blockSize
    ensures BytesIn(u, k, j, n) <= |content[j]| == blockSize
  {
    hide BytesIn;
    BytesGrow(u, k, j, n, k * blockSize);
    FullBlock(u, k, j, blockSize);
  }

  /** Block j's file holds the beginning of its data, and exists if that is not empty. */
  ghost predicate FileIs(files: Files, u: nat, k: nat, content: Matrix, n: nat, j: nat)
    requires u > 0 && k > 0 && j < |content|
  {
    var here := BytesIn(u, k, j, n);
    here <= |content[j]| && File(files, j) == content[j][..here] && (j in files <==> here > 0)
  }

  ghost predicate FilesAre(files: Files, u: nat, k: nat, content: Matrix, n: nat)
    requires u > 0 && k > 0
  {
    forall j: nat :: j < |content| ==> FileIs(files, u, k, content, n, j)
  }

  /** The slices planned for the bytes from..to-1, and the blocks whose slices have been sent. */
  ghost predicate Sending(files: Files, u: nat, k: nat, content: Matrix, from: nat, to: nat, sent: seq<nat>)
    requires u > 0 && k > 0
  {
    forall j: nat :: j < |content| ==> FileIs(files, u, k, content, if j in sent then to else from, j)
  }

  /** The file of block j with its slice behind what it holds. */
  function WithSlice(files: Files, content: Matrix, slices: map<nat, Slice>, j: nat): Files
    requires j in slices && j < |content| && slices[j].offset + slices[j].size <= |content[j]|
  {
    files[j := File(files, j) + content[j][slices[j].offset..slices[j].offset + slices[j].size]]
  }

  /** The next slice lands right behind what its block holds. */
  lemma SliceFits(files: Files, u: nat, k: nat, content: Matrix, from: nat, to: nat, slices: map<nat, Slice>, j: nat)
    requires u > 0 && k > 0 && SlicesFor(slices, u, k, from, to) && j < |content|
    requires FileIs(files, u, k, content, from, j)
    requires j in slices && BytesIn(u, k, j, to) <= |content[j]|
    ensures slices[j].offset == |File(files, j)| && (slices[j].offset == 0 <==> j !in files)
    ensures slices[j].offset + slices[j].size <= |content[j]|
    ensures FileIs(WithSlice(files, content, slices, j), u, k, content, to, j)
  {
    hide BytesIn;
  }

  lemma SliceLands(files: Files, u: nat, k: nat, content: Matrix, from: nat, to: nat, sent: seq<nat>,
                   slices: map<nat, Slice>, j: nat)
    requires u > 0 && k > 0 && SlicesFor(slices, u, k, from, to) && Sending(files, u, k, content, from, to, sent)
    requires j in slices && j !in sent && j < |content| && BytesIn(u, k, j, to) <= |content[j]|
    ensures slices[j].offset == |File(files, j)| && (slices[j].offset == 0 <==> j !in files)
    ensures slices[j].offset + slices[j].size <= |content[j]|
    ensures Sending(WithSlice(files, content, slices, j), u, k, content, from, to, sent + [j])
  {
    hide BytesIn, FileIs, SlicesFor, File;
    assert FileIs(files, u, k, content, from, j);
    SliceFits(files, u, k, content, from, to, slices, j);
    forall i: nat | i < |content|
      ensures FileIs(WithSlice(files, content, slices, j), u, k, content, if i in sent + [j] then to else from, i)
    {
      if i != j {
        assert FileIs(files, u, k, content, if i in sent then to else from, i);
        OtherFile(files, u, k, content, slices, j, if i in sent then to else from, i);
      }
    }
  }

  lemma OtherFile(files: Files, u: nat, k: nat, content: Matrix, slices: map<nat, Slice>, j: nat, n: nat, i: nat)
    requires u > 0 && k > 0 && j in slices && j < |content| && slices[j].offset + slices[j].size <= |content[j]|
    requires i < |content| && i != j && FileIs(files, u, k, content, n, i)
    ensures FileIs(WithSlice(files, content, slices, j), u, k, content, n, i)
  {
    hide BytesIn;
  }

  /** Only blocks of the stripe are touched. */
  lemma SlicesInRange(slices: map<nat, Slice>, u: nat, k: nat, from: nat, to: nat, j: nat)
    requires u > 0 && k > 0 && SlicesFor(slices, u, k, from, to) && j in slices
    ensures j < k
  {
    if j >= k {
      NoSuchBlock(u, k, j, to);
    }
  }

  lemma {:induction false} NoSuchBlock(u: nat, k: nat, j: nat, n: nat)
    requires u > 0 && 0 < k <= j
    ensures BytesIn(u, k, j, n) == 0
  {
    if n > 0 {
      NoSuchBlock(u, k, j, n - 1);
    }
  }

  /** Once all slices are sent, every file is up to date. */
  lemma AllSent(files: Files, u: nat, k: nat, content: Matrix, from: nat, to: nat, sent: seq<nat>,
                slices: map<nat, Slice>)
    requires u > 0 && k > 0 && from <= to && SlicesFor(slices, u, k, from, to)
    requires Sending(files, u, k, content, from, to, sent)
    requires forall j :: j in sent <==> j in slices
    ensures FilesAre(files, u, k, content, to)
  {
    hide BytesIn;
    forall j: nat | j < |content|
      ensures FileIs(files, u, k, content, to, j)
    {
      BytesGrow(u, k, j, from, to);
      assert FileIs(files, u, k, content, if j in sent then to else from, j);
    }
  }

  /** The touched blocks in some order. */
  method KeysOf(slices: map<nat, Slice>) returns (order: seq<nat>)
    ensures (forall j :: j in order <==> j in slices) && forall x, y :: 0 <= x < y < |order| ==> order[x] != order[y]
  {
    order := [];
    var rest := slices.Keys;
    while rest != {}
      invariant rest <= slices.Keys && (forall j :: j in slices <==> j in order || j in rest)
      invariant forall j :: j in order ==> j !in rest
      invariant forall x, y :: 0 <= x < y < |order| ==> order[x] != order[y]
      decreases rest
    {
      var j :| j in rest;
      rest := rest - {j};
      order := order + [j];
    }
  }

  class StripeAppends {
    const unit: nat
    const k: nat
    const blockSize: nat
    /** The data that the client has for the stripe. */
    const content: Matrix
    /** The bytes appended so far. */
    var offset: nat
    var files: Files

    ghost predicate Valid()
      reads this
    {
      Setting(unit, k, blockSize, content) && offset <= k * blockSize && FilesAre(files, unit, k, content, offset)
    }

    constructor (unit: nat, k: nat, blockSize: nat, content: Matrix)
      requires Setting(unit, k, blockSize, content)
      ensures Valid() && offset == 0 && this.unit == unit && this.k == k && this.blockSize == blockSize
      ensures this.content == content
    {
      this.unit, this.k, this.blockSize, this.content := unit, k, blockSize, content;
      offset, files := 0, map[];
    }

    /** Hands every slice to its datanode; none of them is refused. */
    method SendSlices(slices: map<nat, Slice>, to: nat)
      requires Valid() && offset <= to <= k * blockSize && SlicesFor(slices, unit, k, offset, to)
      modifies this`files
      ensures FilesAre(files, unit, k, content, to)
    {
      hide SlicesFor, BytesIn, FileIs, Sending;
      var order := KeysOf(slices);
      assert Sending(files, unit, k, content, offset, to, []) by { NothingSent(files, unit, k, content, offset, to); }
      for x := 0 to |order|
        invariant Sending(files, unit, k, content, offset, to, order[..x])
      {
        var j := order[x];
        assert j !in order[..x] && order[..x + 1] == order[..x] + [j];
        SlicesInRange(slices, unit, k, offset, to, j);
        BytesFit(unit, k, blockSize, content, j, to);
        SliceLands(files, unit, k, content, offset, to, order[..x], slices, j);
        var ok;
        ok, files := HandleAppend(files, j, slices[j].offset,
                                  content[j][slices[j].offset..slices[j].offset + slices[j].size]);
      }
      assert order[..|order|] == order;
      AllSent(files, unit, k, content, offset, to, order, slices);
    }

    /**
     * One append.  It is refused if it does not fit into the stripe; otherwise
     * every slice lands at its planned offset, right behind what its block holds.
     */
    method Append(size: nat) returns (ok: bool)
      requires Valid()
      modifies this
      ensures Valid()
      ensures ok <==> old(offset) + size <= k * blockSize
      ensures offset == if ok then old(offset) + size else old(offset)
      ensures !ok ==> files == old(files)
    {
      hide SlicesFor, FilesAre;
      if k * blockSize - offset < size {
        return false;
      }
      var slices := DataSlices(unit, k, offset, size);
      SendSlices(slices, offset + size);
      offset := offset + size;
      ok := true;
    }
  }

  lemma NothingSent(files: Files, u: nat, k: nat, content: Matrix, from: nat, to: nat)
    requires u > 0 && k > 0 && FilesAre(files, u, k, content, from)
    ensures Sending(files, u, k, content, from, to, [])
  {
    hide FileIs;
  }

  /** A full stripe: every file is its block. */
  lemma FullFiles(a: StripeAppends)
    requires a.Valid() && a.offset == a.k * a.blockSize
    ensures forall j: nat :: j < a.k ==> File(a.files, j) == a.content[j]
  {
    hide BytesIn;
    forall j: nat | j < a.k
      ensures File(a.files, j) == a.content[j]
    {
      FullBlock(a.unit, a.k, j, a.blockSize);
      assert FileIs(a.files, a.unit, a.k, a.content, a.offset, j);
    }
  }

  // ---- Folding parity slices ----

  datatype Patch = Patch(offset: nat, bytes: Vec)

  /** What a slice contributes to byte p of the parity block. */
  function PatchAt(s: Patch, p: nat): byte {
    if s.offset <= p < s.offset + |s.bytes| then s.bytes[p - s.offset] else 0
  }

  /** The sum of all slices at byte p. */
  function FoldedAt(slices: seq<Patch>, p: nat): byte {
    if slices == [] then 0 else Add(FoldedAt(slices[..|slices| - 1], p), PatchAt(slices[|slices| - 1], p))
  }

  lemma FoldedSnoc(slices: seq<Patch>, s: Patch, p: nat)
    ensures FoldedAt(slices + [s], p) == Add(FoldedAt(slices, p), PatchAt(s, p))
  {
    hide Add;
    assert (slices + [s])[..|slices|] == slices;
  }

  predicate Inside(s: Patch, blockSize: nat) {
    s.bytes == [] || s.offset + |s.bytes| <= blockSize
  }

  /** `handleMergeParity`: folds all slices into a block of zeros; a slice beyond the block stops the program. */
  method HandleMergeParity(slices: seq<Patch>, blockSize: nat) returns (ok: bool, block: Vec)
    ensures ok <==> forall i :: 0 <= i < |slices| ==> Inside(slices[i], blockSize)
    ensures ok ==> |block| == blockSize && forall p :: 0 <= p < blockSize ==> block[p] == FoldedAt(slices, p)
  {
    hide FoldedAt, PatchAt, Inside;
    block := Zeros(blockSize);
    assert slices[..0] == [] && forall p :: FoldedAt([], p) == 0 by { NothingFolded(); }
    for i := 0 to |slices|
      invariant forall x :: 0 <= x < i ==> Inside(slices[x], blockSize)
      invariant |block| == blockSize && forall p :: 0 <= p < blockSize ==> block[p] == FoldedAt(slices[..i], p)
    {
      if !Inside(slices[i], blockSize) {
        return false, block;
      }
      assert slices[..i + 1] == slices[..i] + [slices[i]];
      ghost var before := block;
      block := FoldOne(block, slices[i]);
      forall p: nat | p < blockSize
        ensures block[p] == FoldedAt(slices[..i + 1], p)
      {
        FoldedSnoc(slices[..i], slices[i], p);
      }
    }
    assert slices[..|slices|] == slices;
    ok := true;
  }

  lemma NothingFolded()
    ensures forall p :: FoldedAt([], p) == 0
  {
  }

  method FoldOne(block: Vec, s: Patch) returns (folded: Vec)
    requires Inside(s, |block|)
    ensures |folded| == |block| && forall p :: 0 <= p < |block| ==> folded[p] == Add(block[p], PatchAt(s, p))
  {
    hide Add;
    folded := block;
    for x := 0 to |s.bytes|
      invariant |folded| == |block|
      invariant forall p :: 0 <= p < |block| ==>
        folded[p] == if s.offset <= p < s.offset + x then Add(block[p], PatchAt(s, p)) else block[p]
    {
      folded := folded[s.offset + x := Add(folded[s.offset + x], s.bytes[x])];
    }
    forall p | 0 <= p < |block|
      ensures folded[p] == Add(block[p], PatchAt(s, p))
    {
      AddZero(block[p]);
    }
  }

  // ---- Parity slices add up to the parity of the stripe ----
  //
  // Client code that fills a parity slice is not part of the program: the function
  // `append` is commented out.  A slice is assumed to hold what the appended
  // bytes add to the parity, as folding by exclusive or needs it.

  /** Byte p of every block, where it is one of the stripe's bytes from..to-1, and 0 elsewhere. */
  function Slab(u: nat, k: nat, content: Matrix, from: nat, to: nat, p: nat): (v: Vec)
    requires u > 0 && k > 0
    ensures |v| == |content|
  {
    seq(|content|, j requires 0 <= j < |content| =>
      if BytesIn(u, k, j, from) <= p < BytesIn(u, k, j, to) && p < |content[j]| then content[j][p] else 0)
  }

  lemma SlabsAdd(u: nat, k: nat, content: Matrix, a: nat, b: nat, c: nat, p: nat)
    requires u > 0 && k > 0 && a <= b <= c
    ensures VAdd(Slab(u, k, content, a, b, p), Slab(u, k, content, b, c, p)) == Slab(u, k, content, a, c, p)
  {
    hide BytesIn, Add;
    forall j: nat | j < |content|
      ensures VAdd(Slab(u, k, content, a, b, p), Slab(u, k, content, b, c, p))[j] == Slab(u, k, content, a, c, p)[j]
    {
      BytesGrow(u, k, j, a, b);
      BytesGrow(u, k, j, b, c);
      AddZero(if p < |content[j]| then content[j][p] else 0);
      AddZero(0);
    }
  }

  /** The slice of a parity block that belongs to an append: the weighted sum of the appended bytes. */
  function PatchFor(row: Vec, u: nat, k: nat, content: Matrix, from: nat, to: nat, offset: nat, size: nat): Patch
    requires u > 0 && k > 0 && |row| == |content|
  {
    Patch(offset, seq(size, x requires 0 <= x => Dot(row, Slab(u, k, content, from, to, offset + x))))
  }

  /** Outside the planned slice there is nothing to add. */
  lemma PatchIs(row: Vec, u: nat, k: nat, content: Matrix, from: nat, to: nat, offset: nat, size: nat, p: nat)
    requires u > 0 && k > 0 && |row| == |content| == k && ParityFits(u, k, from, to, size, offset)
    ensures PatchAt(PatchFor(row, u, k, content, from, to, offset, size), p) == Dot(row, Slab(u, k, content, from, to, p))
  {
    hide BytesIn, Dot;
    if !(offset <= p < offset + size) {
      forall j: nat | j < k
        ensures Slab(u, k, content, from, to, p)[j] == 0
      {
        assert Touched(u, k, from, to, j) <==> BytesIn(u, k, j, from) < BytesIn(u, k, j, to);
      }
      assert Slab(u, k, content, from, to, p) == Zeros(k);
      DotZeros(row);
    }
  }

  /** The slices so far are the weighted sums of the bytes so far. */
  ghost predicate PatchesAre(patches: seq<Patch>, row: Vec, u: nat, k: nat, content: Matrix, n: nat)
    requires u > 0 && k > 0 && |row| == |content|
  {
    forall p: nat :: FoldedAt(patches, p) == Dot(row, Slab(u, k, content, 0, n, p))
  }

  lemma NoPatches(row: Vec, u: nat, k: nat, content: Matrix)
    requires u > 0 && k > 0 && |row| == |content|
    ensures PatchesAre([], row, u, k, content, 0)
  {
    hide Dot;
    forall p: nat
      ensures Dot(row, Slab(u, k, content, 0, 0, p)) == 0
    {
      assert Slab(u, k, content, 0, 0, p) == Zeros(|row|);
      DotZeros(row);
    }
  }

  lemma MorePatches(patches: seq<Patch>, row: Vec, u: nat, k: nat, content: Matrix, from: nat, to: nat, offset: nat,
                    size: nat)
    requires u > 0 && k > 0 && |row| == |content| == k && from <= to && ParityFits(u, k, from, to, size, offset)
    requires PatchesAre(patches, row, u, k, content, from)
    ensures PatchesAre(patches + [PatchFor(row, u, k, content, from, to, offset, size)], row, u, k, content, to)
  {
    hide FoldedAt, PatchFor, PatchAt, Dot, Slab, ParityFits, Add;
    var patch := PatchFor(row, u, k, content, from, to, offset, size);
    forall p: nat
      ensures FoldedAt(patches + [patch], p) == Dot(row, Slab(u, k, content, 0, to, p))
    {
      FoldedSnoc(patches, patch, p);
      PatchIs(row, u, k, content, from, to, offset, size, p);
      SlabsAdd(u, k, content, 0, from, to, p);
      DotAddRight(row, Slab(u, k, content, 0, from, p), Slab(u, k, content, from, to, p));
    }
  }

  /** The slab of the full stripe is the whole column. */
  lemma FullSlab(u: nat, k: nat, blockSize: nat, content: Matrix, p: nat)
    requires Setting(u, k, blockSize, content) && p < blockSize
    ensures Slab(u, k, content, 0, k * blockSize, p) == Column(content, blockSize, p)
  {
    hide BytesIn;
    forall j: nat | j < k
      ensures BytesIn(u, k, j, 0) == 0 && BytesIn(u, k, j, k * blockSize) == blockSize
    {
      Nothing(u, k, j);
      FullBlock(u, k, j, blockSize);
    }
  }

  lemma Nothing(u: nat, k: nat, j: nat)
    requires u > 0 && k > 0
    ensures BytesIn(u, k, j, 0) == 0
  {
  }

  /** Slices planned for a stripe that they fit into never stop the program. */
  lemma PlannedSliceFits(u: nat, k: nat, blockSize: nat, from: nat, to: nat, psize: int, poffset: int)
    requires u > 0 && k > 0 && blockSize % u == 0 && to <= k * blockSize && ParityFits(u, k, from, to, psize, poffset)
    ensures 0 <= poffset && 0 < psize && poffset + psize <= blockSize
  {
    hide BytesIn;
    assert FitsBlocks(u, k, to, blockSize);
  }

  lemma FoldIsParity(row: Vec, u: nat, k: nat, blockSize: nat, content: Matrix, patches: seq<Patch>, parity: Vec)
    requires Setting(u, k, blockSize, content) && |row| == k && PatchesAre(patches, row, u, k, content, k * blockSize)
    requires |parity| == blockSize && forall p :: 0 <= p < blockSize ==> parity[p] == FoldedAt(patches, p)
    ensures parity == Combine(row, content, blockSize)
  {
    hide FoldedAt, Dot, Slab, Combine, Column;
    forall p: nat | p < blockSize
      ensures parity[p] == Combine(row, content, blockSize)[p]
    {
      FullSlab(u, k, blockSize, content, p);
      CombineAt(row, content, blockSize, p);
    }
  }

  /**
   * A run of appends of any sizes, up to the first that does not fit.  When it
   * fills the stripe, every file is its block, and the parity slices of all
   * appends, placed as in the mode UNILRC, fold into the parity of the whole
   * stripe, for any coefficients.
   */
  method AppendAll(a: StripeAppends, sizes: seq<nat>, row: Vec) returns (done: nat, parity: Vec)
    requires a.Valid() && a.offset == 0 && |row| == a.k && forall i :: 0 <= i < |sizes| ==> sizes[i] > 0
    modifies a
    ensures a.Valid() && done <= |sizes|
    ensures done < |sizes| ==> a.offset + sizes[done] > a.k * a.blockSize
    ensures a.offset == a.k * a.blockSize ==>
      (forall j: nat :: j < a.k ==> File(a.files, j) == a.content[j]) && parity == Combine(row, a.content, a.blockSize)
  {
    hide FilesAre, FoldedAt, ParityFits, ParityTight, PatchesAre, PatchFor, Combine;
    var patches: seq<Patch> := [];
    var ok := true;
    done := 0;
    NoPatches(row, a.unit, a.k, a.content);
    while done < |sizes| && ok
      invariant a.Valid() && done <= |sizes| && PatchesAre(patches, row, a.unit, a.k, a.content, a.offset)
      invariant !ok ==> done < |sizes| && a.offset + sizes[done] > a.k * a.blockSize
      invariant forall i :: 0 <= i < |patches| ==> Inside(patches[i], a.blockSize)
      decreases |sizes| - done, ok
    {
      var from := a.offset;
      ok := a.Append(sizes[done]);
      if ok {
        var psize, poffset := ParitySlice(UniLrc, a.unit, a.k, from, sizes[done]);
        PlannedSliceFits(a.unit, a.k, a.blockSize, from, a.offset, psize, poffset);
        MorePatches(patches, row, a.unit, a.k, a.content, from, a.offset, poffset, psize);
        assert Inside(PatchFor(row, a.unit, a.k, a.content, from, a.offset, poffset, psize), a.blockSize)
          by { PatchInside(row, a.unit, a.k, a.content, from, a.offset, poffset, psize, a.blockSize); }
        patches := patches + [PatchFor(row, a.unit, a.k, a.content, from, a.offset, poffset, psize)];
        done := done + 1;
      }
    }
    var fits;
    fits, parity := HandleMergeParity(patches, a.blockSize);
    if a.offset == a.k * a.blockSize {
      FullFiles(a);
      FoldIsParity(row, a.unit, a.k, a.blockSize, a.content, patches, parity);
    }
  }

  lemma PatchInside(row: Vec, u: nat, k: nat, content: Matrix, from: nat, to: nat, offset: nat, size: nat,
                    blockSize: nat)
    requires u > 0 && k > 0 && |row| == |content| && offset + size <= blockSize
    ensures Inside(PatchFor(row, u, k, content, from, to, offset, size), blockSize)
  {
  }
}

/**
 * Buffer-to-texture copies (pixelBufferPick, WebGLCmdFuncCopyBuffersToTexture): each region's
 * destination rectangle is aligned to the format's block size, and a source whose row or image
 * stride differs from that rectangle is repacked, row after row, into the device's staging
 * buffer, which grows on demand and never shrinks.
 */
module CopyCommands {
  import opened Wrappers
  import opened GL
  import opened JsInt
  import opened Formats
  import opened Objects
  import TextureCommands

  // ---------------------------------------------------------------- the repack

  /**
   * Where pixelBufferPick reads: `depth` images of rows `blockHeight` texels apart up to
   * `height`, each row `chunk` bytes, rows `rowStride` and images `sliceStride` bytes apart,
   * the first at byte `offset`.
   */
  datatype PickLayout = PickLayout(
    offset: nat, rowStride: nat, sliceStride: nat, chunk: nat, height: int, blockHeight: pos, depth: int)

  /** How many rows the loop `for (j = 0; j < height; j += blockHeight)` visits. */
  function RowsOf(height: int, blockHeight: pos): nat
    decreases if height <= 0 then 0 else height
  {
    if height <= 0 then 0 else 1 + RowsOf(height - blockHeight, blockHeight)
  }

  /** Row `r` is visited exactly when its start `r * blockHeight` lies below the height. */
  lemma {:induction false} RowsOfVisited(height: int, blockHeight: pos, r: nat)
    ensures r < RowsOf(height, blockHeight) <==> Times(r, blockHeight) < height
    decreases r
  {
    if height > 0 && r > 0 {
      RowsOfVisited(height - blockHeight, blockHeight, r - 1);
    }
  }

  function Rows(l: PickLayout): nat {
    RowsOf(l.height, l.blockHeight)
  }

  function Depth(l: PickLayout): nat {
    if l.depth < 0 then 0 else l.depth
  }

  /** Where row `r` of image `i` starts in the source. */
  function Src(l: PickLayout, i: nat, r: nat): nat {
    l.offset + Times(i, l.sliceStride) + Times(r, l.rowStride)
  }

  /** `n` copies of `c` laid end to end. */
  function Times(n: nat, c: nat): nat {
    if n == 0 then 0 else Times(n - 1, c) + c
  }

  lemma {:induction false} TimesIsProduct(n: nat, c: nat)
    ensures Times(n, c) == n * c
  {
    if n > 0 {
      TimesIsProduct(n - 1, c);
    }
  }

  lemma {:induction false} TimesMono(n: nat, n': nat, c: nat)
    requires n <= n'
    ensures Times(n, c) <= Times(n', c)
    decreases n' - n
  {
    if n < n' {
      TimesMono(n, n' - 1, c);
    }
  }

  /** The bytes of one repacked image. */
  function SliceLen(l: PickLayout): nat {
    Times(Rows(l), l.chunk)
  }

  /** The bytes the repack writes. */
  function Total(l: PickLayout): nat {
    Times(Depth(l), SliceLen(l))
  }

  /** Every row the repack reads lies inside the source memory. */
  predicate SourceCovers(len: nat, l: PickLayout) {
    Depth(l) == 0 || Rows(l) == 0 || Src(l, Depth(l) - 1, Rows(l) - 1) + l.chunk <= len
  }

  lemma {:induction false} RowInside(len: nat, l: PickLayout, i: nat, r: nat)
    requires SourceCovers(len, l) && i < Depth(l) && r < Rows(l)
    ensures Src(l, i, r) + l.chunk <= len
  {
    TimesMono(i, Depth(l) - 1, l.sliceStride);
    TimesMono(r, Rows(l) - 1, l.rowStride);
  }

  /** The first `r` rows of image `i`, back to back. */
  function SliceBytes(buffer: seq<bv8>, l: PickLayout, i: nat, r: nat): (b: seq<bv8>)
    requires SourceCovers(|buffer|, l) && i < Depth(l) && r <= Rows(l)
    ensures |b| == Times(r, l.chunk)
  {
    if r == 0 then []
    else
      RowInside(|buffer|, l, i, r - 1);
      var s := Src(l, i, r - 1);
      SliceBytes(buffer, l, i, r - 1) + buffer[s..s + l.chunk]
  }

  /** The first `i` images, back to back. */
  function PickedBytes(buffer: seq<bv8>, l: PickLayout, i: nat): (b: seq<bv8>)
    requires SourceCovers(|buffer|, l) && i <= Depth(l)
    ensures |b| == Times(i, SliceLen(l))
  {
    if i == 0 then []
    else PickedBytes(buffer, l, i - 1) + SliceBytes(buffer, l, i - 1, Rows(l))
  }

  /** Row `r` of image `i` sits after `r` whole rows in every longer run of that image's rows. */
  lemma {:induction false} RowInSlice(buffer: seq<bv8>, l: PickLayout, i: nat, r: nat, r': nat, k: nat)
    requires SourceCovers(|buffer|, l) && i < Depth(l) && r < r' <= Rows(l) && k < l.chunk
    ensures Src(l, i, r) + l.chunk <= |buffer| && Times(r, l.chunk) + k < Times(r', l.chunk)
    ensures SliceBytes(buffer, l, i, r')[Times(r, l.chunk) + k] == buffer[Src(l, i, r) + k]
    decreases r'
  {
    RowInside(|buffer|, l, i, r);
    RowInside(|buffer|, l, i, r' - 1);
    var prev := SliceBytes(buffer, l, i, r' - 1);
    var last := buffer[Src(l, i, r' - 1)..Src(l, i, r' - 1) + l.chunk];
    assert SliceBytes(buffer, l, i, r') == prev + last;
    if r' > r + 1 {
      RowInSlice(buffer, l, i, r, r' - 1, k);
      assert (prev + last)[Times(r, l.chunk) + k] == prev[Times(r, l.chunk) + k];
    } else {
      assert (prev + last)[Times(r, l.chunk) + k] == last[k];
    }
  }

  /** Byte `j` of image `i` sits after `i` whole images in every longer run of images. */
  lemma {:induction false} SliceInPicked(buffer: seq<bv8>, l: PickLayout, i: nat, i': nat, j: nat)
    requires SourceCovers(|buffer|, l) && i < i' <= Depth(l) && j < SliceLen(l)
    ensures Times(i, SliceLen(l)) + j < Times(i', SliceLen(l))
    ensures PickedBytes(buffer, l, i')[Times(i, SliceLen(l)) + j] == SliceBytes(buffer, l, i, Rows(l))[j]
    decreases i'
  {
    if i' > i + 1 {
      SliceInPicked(buffer, l, i, i' - 1, j);
    }
  }

  /**
   * Every row lands where its number says: byte `k` of row `r` of image `i` is copied to the
   * position after `i` whole images and `r` whole rows, that is to byte `(i * rows + r) * chunk + k`.
   */
  lemma {:induction false} RowPlaced(buffer: seq<bv8>, l: PickLayout, i: nat, r: nat, k: nat)
    requires SourceCovers(|buffer|, l) && i < Depth(l) && r < Rows(l) && k < l.chunk
    ensures var p := Times(i, SliceLen(l)) + Times(r, l.chunk) + k;
      && Src(l, i, r) + k < |buffer| && p < Total(l)
      && PickedBytes(buffer, l, Depth(l))[p] == buffer[Src(l, i, r) + k]
  {
    RowInSlice(buffer, l, i, r, Rows(l), k);
    SliceInPicked(buffer, l, i, Depth(l), Times(r, l.chunk) + k);
  }

  /** The repack fits: every row read exists and every byte written has a place in the staging buffer. */
  predicate PickFits(len: nat, l: PickLayout, stagingLength: nat, bufferSize: nat) {
    SourceCovers(len, l) && Total(l) <= Max(stagingLength, bufferSize)
  }

  /** The staging buffer the repack writes into: the old one, or a zeroed one of `bufferSize` bytes when that is too small. */
  function StagingBase(staging: seq<bv8>, bufferSize: nat): seq<bv8> {
    if |staging| < bufferSize then seq(bufferSize, _ => 0 as bv8) else staging
  }

  /** The staging buffer after the repack. */
  function StagingAfter(staging: seq<bv8>, buffer: seq<bv8>, l: PickLayout, bufferSize: nat): (r: seq<bv8>)
    requires PickFits(|buffer|, l, |staging|, bufferSize)
    ensures |r| == Max(|staging|, bufferSize) && |r| >= |staging|
    ensures r[..Total(l)] == PickedBytes(buffer, l, Depth(l))
  {
    var p := PickedBytes(buffer, l, Depth(l));
    p + StagingBase(staging, bufferSize)[|p|..]
  }

  /** Past the bytes written, the staging buffer keeps its old bytes, or holds zeros when it was replaced. */
  lemma StagingTail(staging: seq<bv8>, buffer: seq<bv8>, l: PickLayout, bufferSize: nat)
    requires PickFits(|buffer|, l, |staging|, bufferSize)
    ensures var r := StagingAfter(staging, buffer, l, bufferSize);
      forall k :: Total(l) <= k < |r| ==> r[k] == if |staging| < bufferSize then 0 else staging[k]
  {
  }

  /** `subarray(dest, dest + chunk).set(...)`: one row copied into the staging buffer. */
  method CopyRow(st: array<bv8>, dest: nat, buffer: seq<bv8>, src: nat, chunk: nat)
    requires dest + chunk <= st.Length && src + chunk <= |buffer|
    modifies st
    ensures st[..] == old(st[..])[..dest] + buffer[src..src + chunk] + old(st[..])[dest + chunk..]
  {
    var k := 0;
    while k < chunk
      invariant k <= chunk
      invariant st[..] == old(st[..])[..dest] + buffer[src..src + k] + old(st[..])[dest + k..]
    {
      st[dest + k] := buffer[src + k];
      k := k + 1;
    }
  }

  /** Writing `more` right after `done` extends what has been written from `dest` on. */
  lemma WriteAfter<T>(o: seq<T>, dest: nat, done: seq<T>, more: seq<T>, a: seq<T>, b: seq<T>)
    requires dest + |done| + |more| <= |o|
    requires a == o[..dest] + done + o[dest + |done|..]
    requires b == a[..dest + |done|] + more + a[dest + |done| + |more|..]
    ensures b == o[..dest] + (done + more) + o[dest + |done| + |more|..]
  {
    assert a[..dest + |done|] == o[..dest] + done;
    assert a[dest + |done| + |more|..] == o[dest + |done| + |more|..];
  }

  /** One step of the row loop: row `r` of image `i` copied right after the rows before it. */
  method PickRow(st: array<bv8>, dest: nat, buffer: seq<bv8>, l: PickLayout, i: nat, ghost r: nat,
                 destOffset: nat, bufferOffset: nat, ghost o: seq<bv8>)
    requires SourceCovers(|buffer|, l) && i < Depth(l) && r < Rows(l)
    requires destOffset == dest + Times(r, l.chunk) && bufferOffset == Src(l, i, r)
    requires dest + Times(r + 1, l.chunk) <= st.Length == |o|
    requires st[..] == o[..dest] + SliceBytes(buffer, l, i, r) + o[destOffset..]
    modifies st
    ensures st[..] == o[..dest] + SliceBytes(buffer, l, i, r + 1) + o[dest + Times(r + 1, l.chunk)..]
  {
    RowInside(|buffer|, l, i, r);
    ghost var before := st[..];
    ghost var row := buffer[bufferOffset..bufferOffset + l.chunk];
    CopyRow(st, destOffset, buffer, bufferOffset, l.chunk);
    WriteAfter(o, dest, SliceBytes(buffer, l, i, r), row, before, st[..]);
    assert SliceBytes(buffer, l, i, r + 1) == SliceBytes(buffer, l, i, r) + row;
  }

  /** The rows of image `i`, written from byte `dest` on. */
  method PickSlice(st: array<bv8>, dest: nat, buffer: seq<bv8>, l: PickLayout, i: nat)
    requires SourceCovers(|buffer|, l) && i < Depth(l) && dest + SliceLen(l) <= st.Length
    modifies st
    ensures st[..] == old(st[..])[..dest] + SliceBytes(buffer, l, i, Rows(l)) + old(st[..])[dest + SliceLen(l)..]
  {
    TimesIsProduct(i, l.sliceStride);
    var bufferOffset := l.offset + l.sliceStride * i;
    var destOffset := dest;
    var j := 0;
    ghost var r: nat := 0;
    ghost var o := st[..];
    while j < l.height
      invariant r <= Rows(l) && j == Times(r, l.blockHeight) && destOffset == dest + Times(r, l.chunk)
      invariant Times(r, l.chunk) <= SliceLen(l)
      invariant bufferOffset == Src(l, i, r)
      invariant st[..] == o[..dest] + SliceBytes(buffer, l, i, r) + o[destOffset..]
      decreases l.height - j
    {
      RowsOfVisited(l.height, l.blockHeight, r);
      TimesMono(r + 1, Rows(l), l.chunk);
      PickRow(st, dest, buffer, l, i, r, destOffset, bufferOffset, o);
      r := r + 1;
      destOffset := destOffset + l.chunk;
      bufferOffset := bufferOffset + l.rowStride;
      assert bufferOffset == Src(l, i, r);
      j := j + l.blockHeight;
    }
    RowsOfVisited(l.height, l.blockHeight, r);
    assert r == Rows(l);
  }

  /** The loop over images: every row, back to back from byte 0, the rest of `st` untouched. */
  method PickAll(st: array<bv8>, buffer: seq<bv8>, l: PickLayout)
    requires SourceCovers(|buffer|, l) && Total(l) <= st.Length
    modifies st
    ensures st[..] == PickedBytes(buffer, l, Depth(l)) + old(st[..])[Total(l)..]
  {
    ghost var base := st[..];
    var destOffset := 0;
    var i := 0;
    while i < l.depth
      invariant 0 <= i <= Depth(l) && destOffset == Times(i, SliceLen(l)) && destOffset <= Total(l)
      invariant st[..] == PickedBytes(buffer, l, i) + base[destOffset..]
    {
      TimesMono(i + 1, Depth(l), SliceLen(l));
      ghost var before := st[..];
      PickSlice(st, destOffset, buffer, l, i);
      PickedStep(base, buffer, l, i, before, st[..]);
      destOffset := destOffset + SliceLen(l);
      i := i + 1;
    }
  }

  /** One step of the image loop: image `i` written right after the images before it. */
  lemma PickedStep(base: seq<bv8>, buffer: seq<bv8>, l: PickLayout, i: nat, before: seq<bv8>, after: seq<bv8>)
    requires SourceCovers(|buffer|, l) && i < Depth(l) && Times(i + 1, SliceLen(l)) <= |base|
    requires before == PickedBytes(buffer, l, i) + base[Times(i, SliceLen(l))..]
    requires after == before[..Times(i, SliceLen(l))] + SliceBytes(buffer, l, i, Rows(l))
                      + before[Times(i, SliceLen(l)) + SliceLen(l)..]
    ensures after == PickedBytes(buffer, l, i + 1) + base[Times(i + 1, SliceLen(l))..]
  {
    var done, more := PickedBytes(buffer, l, i), SliceBytes(buffer, l, i, Rows(l));
    assert base[..0] == [];
    WriteAfter(base, 0, done, more, before, after);
  }

  /**
   * pixelBufferPick: grows the staging buffer to `bufferSize` bytes when it is smaller, copies
   * the rows into it back to back, and hands back its first `bufferSize` bytes.
   */
  method PixelBufferPick(dev: WebGLDevice, buffer: seq<bv8>, l: PickLayout, bufferSize: nat) returns (pixels: seq<bv8>)
    requires PickFits(|buffer|, l, dev.staging.Length, bufferSize)
    modifies dev, dev.staging
    ensures dev.staging[..] == StagingAfter(old(dev.staging[..]), buffer, l, bufferSize)
    ensures old(dev.staging.Length) >= bufferSize ==> dev.staging == old(dev.staging)
    ensures old(dev.staging.Length) < bufferSize ==> fresh(dev.staging)
    ensures pixels == dev.staging[..bufferSize]
    ensures dev.cache == old(dev.cache) && dev.gfx == old(dev.gfx) && dev.trace == old(dev.trace)
    ensures dev.log == old(dev.log) && dev.realRenderArea == old(dev.realRenderArea)
  {
    if dev.staging.Length < bufferSize {
      dev.staging := new bv8[bufferSize](_ => 0);
    }
    var st := dev.staging;
    assert st[..] == StagingBase(old(dev.staging[..]), bufferSize);
    PickAll(st, buffer, l);
    pixels := st[..bufferSize];
  }

  // ---------------------------------------------------------------- region alignment

  /**
   * alignTo: `size` rounded up to a multiple of `alignment` (ceil(size / alignment) * alignment);
   * the remainder of `-size` is exactly how far that multiple lies above `size`.
   */
  function AlignTo(size: int, alignment: pos): int {
    size + (-size) % alignment
  }

  lemma AlignToLeast(size: int, alignment: pos)
    ensures (AlignTo(size, alignment) / alignment) * alignment == AlignTo(size, alignment)
    ensures size <= AlignTo(size, alignment) < size + alignment
  {
    var q := (-size) / alignment;
    var m := (-size) % alignment;
    assert -size == alignment * q + m;
    assert AlignTo(size, alignment) == alignment * (-q) + 0;
    DivUnique(AlignTo(size, alignment), alignment, -q, 0);
  }

  datatype Offset3 = Offset3(x: int, y: int, z: int)
  datatype Extent3 = Extent3(width: int, height: int, depth: int)
  datatype Subresource = Subresource(mipLevel: int, baseArrayLayer: int, layerCount: int)

  /** One region of a buffer-to-texture copy, in bytes (buffer side) and texels (texture side). */
  datatype BufferTextureCopy = BufferTextureCopy(
    buffOffset: int, buffStride: int, buffTexHeight: int,
    texOffset: Offset3, texExtent: Extent3, texSubres: Subresource)

  /**
   * What a region becomes: the aligned destination offset, the aligned extent the source is read
   * with, the source row length and image height in texels, and the rectangle that is uploaded.
   */
  datatype RegionLayout = RegionLayout(
    x: int, y: int, width: int, height: int, strideWidth: int, strideHeight: int, destWidth: int, destHeight: int)

  /** The extent height as written: below one block it takes the region's WIDTH. */
  function ExtentHeightAsWritten(width: int, height: int, blockHeight: pos): int {
    if height < blockHeight then width else AlignTo(height, blockHeight)
  }

  /** The extent height as evidently intended, the same rule the width follows. */
  function ExtentHeight(height: int, blockHeight: pos): int {
    if height < blockHeight then height else AlignTo(height, blockHeight)
  }

  /** The region's layout once its extent height `eh` is chosen. */
  function LayoutWith(region: BufferTextureCopy, bw: pos, bh: pos, texWidth: int, texHeight: int, eh: int): RegionLayout {
    var w := region.texExtent.width;
    var h := region.texExtent.height;
    var mip := region.texSubres.mipLevel;
    var x := if region.texOffset.x == 0 then 0 else AlignTo(region.texOffset.x, bw);
    var y := if region.texOffset.y == 0 then 0 else AlignTo(region.texOffset.y, bh);
    var ew := if w < bw then w else AlignTo(w, bw);
    RegionLayout(
      x, y, ew, eh,
      if region.buffStride > 0 then region.buffStride else ew,
      if region.buffTexHeight > 0 then region.buffTexHeight else eh,
      if w + x == Shr(texWidth, mip) then w else ew,
      if h + y == Shr(texHeight, mip) then h else eh)
  }

  /**
   * The layout the copy computes (its 2D and cube loops compute the same one), with the region's
   * width standing in for a height below one block, as the source writes it.
   */
  function RegionLayoutAsWritten(region: BufferTextureCopy, bw: pos, bh: pos, texWidth: int, texHeight: int): RegionLayout {
    LayoutWith(region, bw, bh, texWidth, texHeight,
               ExtentHeightAsWritten(region.texExtent.width, region.texExtent.height, bh))
  }

  /** The layout with the intended extent height: the corrected half of the extent-height defect. */
  function RegionLayoutOf(region: BufferTextureCopy, bw: pos, bh: pos, texWidth: int, texHeight: int): RegionLayout {
    LayoutWith(region, bw, bh, texWidth, texHeight, ExtentHeight(region.texExtent.height, bh))
  }

  /**
   * The layout's alignment: a non-zero offset moves up to the next block boundary, a width of
   * at least one block rounds up to whole blocks and a smaller one is kept, a height of at least
   * one block rounds up likewise while a smaller one is replaced by the region's width, a row
   * length or image height of 0 or less means "as wide / as high as the extent", and the
   * uploaded rectangle is the region itself exactly where it reaches the edge of the mip level
   * and the aligned extent elsewhere.
   */
  lemma RegionAligned(region: BufferTextureCopy, bw: pos, bh: pos, texWidth: int, texHeight: int)
    ensures var l := RegionLayoutAsWritten(region, bw, bh, texWidth, texHeight);
      var w := region.texExtent.width;
      var h := region.texExtent.height;
      var mip := region.texSubres.mipLevel;
      && (region.texOffset.x == 0 ==> l.x == 0)
      && (region.texOffset.x != 0 ==> (l.x / bw) * bw == l.x && region.texOffset.x <= l.x < region.texOffset.x + bw)
      && (region.texOffset.y == 0 ==> l.y == 0)
      && (region.texOffset.y != 0 ==> (l.y / bh) * bh == l.y && region.texOffset.y <= l.y < region.texOffset.y + bh)
      && (w < bw ==> l.width == w)
      && (w >= bw ==> (l.width / bw) * bw == l.width && w <= l.width < w + bw)
      && (h >= bh ==> (l.height / bh) * bh == l.height && h <= l.height < h + bh)
      && (h < bh ==> l.height == w)
      && l.strideWidth == (if region.buffStride > 0 then region.buffStride else l.width)
      && l.strideHeight == (if region.buffTexHeight > 0 then region.buffTexHeight else l.height)
      && (l.destWidth == w <== w + l.x == Shr(texWidth, mip))
      && (w + l.x != Shr(texWidth, mip) ==> l.destWidth == l.width)
      && (l.destHeight == h <== h + l.y == Shr(texHeight, mip))
      && (h + l.y != Shr(texHeight, mip) ==> l.destHeight == l.height)
  {
    AlignToLeast(region.texOffset.x, bw);
    AlignToLeast(region.texOffset.y, bh);
    AlignToLeast(region.texExtent.width, bw);
    AlignToLeast(region.texExtent.height, bh);
  }

  /**
   * The source's layout is the corrected one for a region at least one block high; below that,
   * it takes the region's width as its extent height.
   */
  lemma LayoutAsWrittenDiffers(region: BufferTextureCopy, bw: pos, bh: pos, texWidth: int, texHeight: int)
    ensures region.texExtent.height >= bh ==>
      RegionLayoutAsWritten(region, bw, bh, texWidth, texHeight) == RegionLayoutOf(region, bw, bh, texWidth, texHeight)
    ensures region.texExtent.height < bh ==>
      RegionLayoutAsWritten(region, bw, bh, texWidth, texHeight).height == region.texExtent.width
  {
  }

  /**
   * As written, a region less than one block high is read and uploaded with its width as its
   * height: an 8 x 2 region of a 4 x 4 block format is read as 8 texels (two block rows) high.
   */
  lemma ExtentHeightFromWidth()
    ensures var region := BufferTextureCopy(0, 0, 0, Offset3(0, 0, 0), Extent3(8, 2, 1), Subresource(0, 0, 1));
      && RegionLayoutAsWritten(region, 4, 4, 64, 64).height == 8
      && RowsOf(RegionLayoutAsWritten(region, 4, 4, 64, 64).height, 4) == 2
      && RegionLayoutOf(region, 4, 4, 64, 64).height == 2
      && RowsOf(RegionLayoutOf(region, 4, 4, 64, 64).height, 4) == 1
  {
    assert RowsOf(8, 4) == 1 + RowsOf(4, 4) == 2 + RowsOf(0, 4);
    assert RowsOf(2, 4) == 1 + RowsOf(-2, 4);
  }

  /**
   * The intended extent height is the region's own height below one block and its height
   * rounded up to whole blocks otherwise, so a source of `h` rows is read in exactly the block
   * rows that hold them; unlike the width, the region's height alone decides it.
   */
  lemma IntendedExtentHeightCovers(h: int, bh: pos)
    ensures h < bh ==> ExtentHeight(h, bh) == h
    ensures h >= bh ==> (ExtentHeight(h, bh) / bh) * bh == ExtentHeight(h, bh) && h <= ExtentHeight(h, bh) < h + bh
    ensures RowsOf(ExtentHeight(h, bh), bh) == RowsOf(h, bh)
  {
    AlignToLeast(h, bh);
    if h >= bh {
      var e := AlignTo(h, bh);
      var q := e / bh;
      assert q >= 1;
      TimesIsProduct(q, bh);
      assert Times(q, bh) == e;
      RowsOfBetween(e, bh, q);
      RowsOfBetween(h, bh, q);
    }
  }

  /** A height above `q - 1` whole blocks and at most `q` of them covers `q` block rows. */
  lemma {:induction false} RowsOfBetween(h: int, bh: pos, q: nat)
    requires q >= 1 && Times(q - 1, bh) < h <= Times(q, bh)
    ensures RowsOf(h, bh) == q
    decreases q
  {
    if q > 1 {
      RowsOfBetween(h - bh, bh, q - 1);
    }
  }

  // ---------------------------------------------------------------- the copy

  /** What a copy reads from the device and the texture. */
  datatype CopyEnv = CopyEnv(
    size: (Format, int, int, int) -> nat, format: Format, compressed: bool, bw: pos, bh: pos,
    texWidth: int, texHeight: int, native: TextureNative, noCompressedSubImage: bool)

  /** One image of the copy: a region and the target (2D, or one cube face) it goes to. */
  datatype Image = Image(region: BufferTextureCopy, target: GLenum)

  /** The images of a 2D copy: one per region. */
  function Images2D(regions: seq<BufferTextureCopy>): (r: seq<Image>)
    ensures |r| == |regions|
    ensures forall k :: 0 <= k < |r| ==> r[k] == Image(regions[k], TEXTURE_2D)
  {
    seq(|regions|, k requires 0 <= k < |regions| => Image(regions[k], TEXTURE_2D))
  }

  /** The faces of a cube region: layers `baseArrayLayer` up to `baseArrayLayer + layerCount`. */
  function Faces(region: BufferTextureCopy): (r: seq<Image>)
    ensures |r| == if region.texSubres.layerCount < 0 then 0 else region.texSubres.layerCount
    ensures forall k :: 0 <= k < |r| ==>
      r[k] == Image(region, TEXTURE_CUBE_MAP_POSITIVE_X + region.texSubres.baseArrayLayer + k)
  {
    var n := if region.texSubres.layerCount < 0 then 0 else region.texSubres.layerCount;
    seq(n, k => Image(region, TEXTURE_CUBE_MAP_POSITIVE_X + region.texSubres.baseArrayLayer + k))
  }

  /** The images of a cube map copy: each region's faces, region after region. */
  function ImagesCube(regions: seq<BufferTextureCopy>): seq<Image>
    decreases |regions|
  {
    if |regions| == 0 then [] else ImagesCube(regions[..|regions| - 1]) + Faces(regions[|regions| - 1])
  }

  /** The images a copy uploads, in order; none for a target that is neither. */
  function Images(glTarget: GLenum, regions: seq<BufferTextureCopy>): seq<Image> {
    if glTarget == TEXTURE_2D then Images2D(regions)
    else if glTarget == TEXTURE_CUBE_MAP then ImagesCube(regions)
    else []
  }

  /** The pixels of one image: either a view of the source or the repacked staging bytes. */
  datatype Pixels = Pixels(ok: bool, staging: seq<bv8>, pixels: seq<bv8>)

  /** The repack an image needs when its source layout differs from the extent. */
  function PickLayoutOf(env: CopyEnv, region: BufferTextureCopy, lay: RegionLayout): PickLayout
    requires region.buffOffset >= 0
  {
    PickLayout(region.buffOffset, env.size(env.format, lay.strideWidth, 1, 1),
               env.size(env.format, lay.strideWidth, lay.strideHeight, 1),
               env.size(env.format, lay.width, 1, 1), lay.height, env.bh, 1)
  }

  /**
   * The pixels for one image. A contiguous source (its row length and image height are the
   * extent's) is viewed in place; any other is repacked into the staging buffer. A view or a
   * repack that would reach outside the memory it works on fails, as the typed-array
   * constructors and `set` throw there.
   */
  function ImagePixels(env: CopyEnv, staging: seq<bv8>, buffer: seq<bv8>, region: BufferTextureCopy, lay: RegionLayout): Pixels {
    if region.buffOffset < 0 then Pixels(false, staging, [])
    else if lay.strideWidth == lay.width && lay.strideHeight == lay.height then
      var len := env.size(env.format, lay.destWidth, lay.destHeight, 1);
      if region.buffOffset + len <= |buffer| then Pixels(true, staging, buffer[region.buffOffset..region.buffOffset + len])
      else Pixels(false, staging, [])
    else
      var pl := PickLayoutOf(env, region, lay);
      var bufferSize := env.size(env.format, lay.width, lay.height, 1);
      if PickFits(|buffer|, pl, |staging|, bufferSize) then
        var after := StagingAfter(staging, buffer, pl, bufferSize);
        Pixels(true, after, after[..bufferSize])
      else Pixels(false, staging, [])
  }

  /** The upload of one image: a sub-image update, or a full compressed image where sub-image updates are unavailable. */
  function UploadCall(env: CopyEnv, target: GLenum, level: int, lay: RegionLayout, pixels: seq<bv8>): GLCall {
    if !env.compressed then
      TexSubImage2D(target, level, lay.x, lay.y, lay.destWidth, lay.destHeight, env.native.glFormat, env.native.glType, pixels)
    else if env.native.glInternalFmt != COMPRESSED_RGB_ETC1_WEBGL && !env.noCompressedSubImage then
      CompressedTexSubImage2D(target, level, lay.x, lay.y, lay.destWidth, lay.destHeight, env.native.glFormat, pixels)
    else
      CompressedTexImage2D(target, level, env.native.glInternalFmt, lay.destWidth, lay.destHeight, pixels)
  }

  /** How one image goes: whether it went through, the staging buffer after it, and its calls. */
  datatype Outcome = Outcome(ok: bool, staging: seq<bv8>, calls: seq<GLCall>)

  /** One image, reading buffer `n`; a missing buffer fails as reading its memory throws. */
  function ImageStep(env: CopyEnv, buffers: seq<seq<bv8>>, staging: seq<bv8>, n: nat, img: Image): Outcome {
    if n >= |buffers| then Outcome(false, staging, [])
    else
      var lay := RegionLayoutAsWritten(img.region, env.bw, env.bh, env.texWidth, env.texHeight);
      var p := ImagePixels(env, staging, buffers[n], img.region, lay);
      if !p.ok then Outcome(false, staging, [])
      else Outcome(true, p.staging, [UploadCall(env, img.target, img.region.texSubres.mipLevel, lay, p.pixels)])
  }

  /** The copy's progress: no failure yet, the staging buffer, the calls so far, the next buffer. */
  datatype CopyState = CopyState(ok: bool, staging: seq<bv8>, calls: seq<GLCall>, n: nat)

  function Step(env: CopyEnv, buffers: seq<seq<bv8>>, s: CopyState, img: Image): CopyState {
    if !s.ok then s
    else
      var o := ImageStep(env, buffers, s.staging, s.n, img);
      CopyState(o.ok, o.staging, s.calls + o.calls, s.n + 1)
  }

  /** The images uploaded one after the other; after a failure nothing more happens. */
  function Uploads(env: CopyEnv, buffers: seq<seq<bv8>>, s: CopyState, imgs: seq<Image>): CopyState
    decreases |imgs|
  {
    if |imgs| == 0 then s else Step(env, buffers, Uploads(env, buffers, s, imgs[..|imgs| - 1]), imgs[|imgs| - 1])
  }

  lemma {:induction false} UploadsConcat(env: CopyEnv, buffers: seq<seq<bv8>>, s: CopyState, a: seq<Image>, b: seq<Image>)
    ensures Uploads(env, buffers, s, a + b) == Uploads(env, buffers, Uploads(env, buffers, s, a), b)
    decreases |b|
  {
    if |b| > 0 {
      assert (a + b)[..|a + b| - 1] == a + b[..|b| - 1];
      UploadsConcat(env, buffers, s, a, b[..|b| - 1]);
    } else {
      assert a + b == a;
    }
  }

  lemma {:induction false} UploadsFailed(env: CopyEnv, buffers: seq<seq<bv8>>, s: CopyState, imgs: seq<Image>)
    requires !s.ok
    ensures Uploads(env, buffers, s, imgs) == s
    decreases |imgs|
  {
    if |imgs| > 0 {
      UploadsFailed(env, buffers, s, imgs[..|imgs| - 1]);
    }
  }

  /** The target a texture upload call writes to. */
  function UploadTarget(c: GLCall): Option<GLenum> {
    match c
    case TexSubImage2D(target, _, _, _, _, _, _, _, _) => Some(target)
    case CompressedTexSubImage2D(target, _, _, _, _, _, _, _) => Some(target)
    case CompressedTexImage2D(target, _, _, _, _, _) => Some(target)
    case _ => None
  }

  /** One image never shrinks the staging buffer, and issues its one upload exactly when it goes through. */
  lemma ImageStepShape(env: CopyEnv, buffers: seq<seq<bv8>>, staging: seq<bv8>, n: nat, img: Image)
    ensures var o := ImageStep(env, buffers, staging, n, img);
      && |o.staging| >= |staging|
      && (o.ok ==> n < |buffers| && |o.calls| == 1 && UploadTarget(o.calls[0]) == Some(img.target))
      && (!o.ok ==> o.calls == [] && o.staging == staging)
  {
  }

  /** Uploads never shrink the staging buffer and only append calls. */
  lemma {:induction false} UploadsGrow(env: CopyEnv, buffers: seq<seq<bv8>>, s: CopyState, imgs: seq<Image>)
    ensures var r := Uploads(env, buffers, s, imgs);
      && |r.staging| >= |s.staging| && |s.calls| <= |r.calls| && r.calls[..|s.calls|] == s.calls
    decreases |imgs|
  {
    if |imgs| > 0 {
      var p := Uploads(env, buffers, s, imgs[..|imgs| - 1]);
      UploadsGrow(env, buffers, s, imgs[..|imgs| - 1]);
      if p.ok {
        ImageStepShape(env, buffers, p.staging, p.n, imgs[|imgs| - 1]);
      }
    }
  }

  /**
   * A copy that goes through reads one buffer per image, in order, and issues exactly one upload
   * per image, to that image's target.
   */
  lemma {:induction false} UploadsComplete(env: CopyEnv, buffers: seq<seq<bv8>>, s: CopyState, imgs: seq<Image>)
    requires s.n <= |buffers|
    ensures var r := Uploads(env, buffers, s, imgs);
      r.ok ==> && s.ok && r.n == s.n + |imgs| && r.n <= |buffers| && |r.calls| == |s.calls| + |imgs|
               && forall k :: 0 <= k < |imgs| ==> UploadTarget(r.calls[|s.calls| + k]) == Some(imgs[k].target)
    decreases |imgs|
  {
    var r := Uploads(env, buffers, s, imgs);
    if |imgs| > 0 && r.ok {
      var front := imgs[..|imgs| - 1];
      var p := Uploads(env, buffers, s, front);
      UploadsComplete(env, buffers, s, front);
      var o := ImageStep(env, buffers, p.staging, p.n, imgs[|imgs| - 1]);
      ImageStepShape(env, buffers, p.staging, p.n, imgs[|imgs| - 1]);
      assert r == Step(env, buffers, p, imgs[|imgs| - 1]);
      assert p.ok && o.ok;
      assert r.calls == p.calls + o.calls && r.n == p.n + 1;
      forall k | 0 <= k < |imgs|
        ensures UploadTarget(r.calls[|s.calls| + k]) == Some(imgs[k].target)
      {
        if k < |imgs| - 1 {
          assert r.calls[|s.calls| + k] == p.calls[|s.calls| + k];
          assert front[k] == imgs[k];
        }
      }
    }
  }

  /** The mipmap regeneration as written: whenever the texture asks for it. */
  function MipmapCallsAsWritten(info: TextureInfo, native: TextureNative): seq<GLCall> {
    if HasBit(info.flags, TEXTURE_FLAG_GEN_MIPMAP) then [GenerateMipmap(native.glTarget)] else []
  }

  /** The mipmap regeneration as evidently intended: only for a power-of-two texture, as image copies do. */
  function MipmapCalls(info: TextureInfo, native: TextureNative): seq<GLCall> {
    if HasBit(info.flags, TEXTURE_FLAG_GEN_MIPMAP) && info.isPowerOf2 then [GenerateMipmap(native.glTarget)] else []
  }

  /** As written, a texture that is not a power of two still has its mipmaps generated. */
  lemma MipmapWithoutPowerOfTwo(info: TextureInfo, native: TextureNative)
    requires HasBit(info.flags, TEXTURE_FLAG_GEN_MIPMAP) && !info.isPowerOf2
    ensures MipmapCallsAsWritten(info, native) == [GenerateMipmap(native.glTarget)]
    ensures MipmapCalls(info, native) == []
  {
  }

  /** With the intended guard, mipmaps are generated exactly for power-of-two textures that ask for them. */
  lemma IntendedMipmapOnlyPowerOfTwo(info: TextureInfo, native: TextureNative)
    ensures MipmapCalls(info, native) != [] <==> HasBit(info.flags, TEXTURE_FLAG_GEN_MIPMAP) && info.isPowerOf2
    ensures MipmapCalls(info, native) != [] ==> MipmapCalls(info, native) == MipmapCallsAsWritten(info, native)
  {
  }

  function EnvOf(dev: WebGLDevice, t: GPUTexture): CopyEnv
    requires dev.formatInfos(t.info.format).blockWidth >= 1 && dev.formatInfos(t.info.format).blockHeight >= 1
    reads t
  {
    var fi := dev.formatInfos(t.info.format);
    CopyEnv(dev.formatSize, t.info.format, fi.isCompressed, fi.blockWidth, fi.blockHeight,
            t.info.width, t.info.height, t.native, dev.ext.noCompressedTexSubImage2D)
  }

  /** One image on the device: its pixels (repacked into the staging buffer when needed) and its upload. */
  method CopyImage(dev: WebGLDevice, env: CopyEnv, buffers: seq<seq<bv8>>, n: nat, img: Image) returns (ok: bool)
    modifies dev, dev.staging
    ensures var o := ImageStep(env, buffers, old(dev.staging[..]), n, img);
      ok == o.ok && dev.staging[..] == o.staging && dev.trace == old(dev.trace) + o.calls
    ensures dev.cache == old(dev.cache) && dev.gfx == old(dev.gfx) && dev.log == old(dev.log)
    ensures dev.realRenderArea == old(dev.realRenderArea)
    ensures dev.staging == old(dev.staging) || fresh(dev.staging)
  {
    if n >= |buffers| {
      return false;
    }
    var region := img.region;
    var lay := RegionLayoutAsWritten(region, env.bw, env.bh, env.texWidth, env.texHeight);
    var buffer := buffers[n];
    if region.buffOffset < 0 {
      return false;
    }
    var pixels;
    if lay.strideWidth == lay.width && lay.strideHeight == lay.height {
      var len := env.size(env.format, lay.destWidth, lay.destHeight, 1);
      if region.buffOffset + len > |buffer| {
        return false;
      }
      pixels := buffer[region.buffOffset..region.buffOffset + len];
    } else {
      var pl := PickLayoutOf(env, region, lay);
      var bufferSize := env.size(env.format, lay.width, lay.height, 1);
      if !PickFits(|buffer|, pl, dev.staging.Length, bufferSize) {
        return false;
      }
      pixels := PixelBufferPick(dev, buffer, pl, bufferSize);
    }
    dev.Call(UploadCall(env, img.target, region.texSubres.mipLevel, lay, pixels));
    ok := true;
  }

  /** Uploads from a state that already holds calls append to those calls. */
  lemma {:induction false} UploadsFromCalls(env: CopyEnv, buffers: seq<seq<bv8>>, ok: bool, staging: seq<bv8>,
                                            calls: seq<GLCall>, n: nat, imgs: seq<Image>)
    ensures var r := Uploads(env, buffers, CopyState(ok, staging, [], n), imgs);
      Uploads(env, buffers, CopyState(ok, staging, calls, n), imgs) == r.(calls := calls + r.calls)
    decreases |imgs|
  {
    if |imgs| > 0 {
      UploadsFromCalls(env, buffers, ok, staging, calls, n, imgs[..|imgs| - 1]);
    }
  }

  /** A cube copy's images up to a region are those before it followed by its faces. */
  lemma ImagesCubeStep(regions: seq<BufferTextureCopy>, i: nat)
    requires i < |regions|
    ensures ImagesCube(regions[..i + 1]) == ImagesCube(regions[..i]) + Faces(regions[i])
  {
    assert regions[..i + 1][..i] == regions[..i];
  }

  /** Once a prefix of the images has failed, the whole upload ends where that prefix did. */
  lemma FailedPrefix(env: CopyEnv, buffers: seq<seq<bv8>>, s: CopyState, imgs: seq<Image>, k: nat)
    requires k <= |imgs| && !Uploads(env, buffers, s, imgs[..k]).ok
    ensures Uploads(env, buffers, s, imgs) == Uploads(env, buffers, s, imgs[..k])
  {
    UploadsConcat(env, buffers, s, imgs[..k], imgs[k..]);
    assert imgs[..k] + imgs[k..] == imgs;
    UploadsFailed(env, buffers, Uploads(env, buffers, s, imgs[..k]), imgs[k..]);
  }

  /**
   * One region of a cube copy: its faces continue the upload from the regions before it, and
   * if one of them fails the whole copy ends there.
   */
  lemma CubeStep(env: CopyEnv, buffers: seq<seq<bv8>>, s0: CopyState, regions: seq<BufferTextureCopy>, i: nat,
                 p: CopyState, q: CopyState, r: CopyState)
    requires i < |regions| && p == Uploads(env, buffers, s0, ImagesCube(regions[..i])) && p.ok
    requires q == Uploads(env, buffers, CopyState(true, p.staging, [], p.n), Faces(regions[i]))
    requires r == CopyState(q.ok, q.staging, p.calls + q.calls, q.n)
    ensures Uploads(env, buffers, s0, ImagesCube(regions[..i + 1])) == r
    ensures !q.ok ==> Uploads(env, buffers, s0, ImagesCube(regions)) == r
    ensures Uploads(env, buffers, s0, ImagesCube(if q.ok then regions[..i + 1] else regions)) == r
  {
    ImagesCubeStep(regions, i);
    UploadsConcat(env, buffers, s0, ImagesCube(regions[..i]), Faces(regions[i]));
    UploadsFromCalls(env, buffers, true, p.staging, p.calls, p.n, Faces(regions[i]));
    assert p == CopyState(true, p.staging, p.calls, p.n);
    if !q.ok {
      ImagesCubeConcat(regions[..i + 1], regions[i + 1..]);
      assert regions[..i + 1] + regions[i + 1..] == regions;
      FailedPrefix(env, buffers, s0, ImagesCube(regions), |ImagesCube(regions[..i + 1])|);
      assert ImagesCube(regions)[..|ImagesCube(regions[..i + 1])|] == ImagesCube(regions[..i + 1]);
    }
  }

  /**
   * Images uploaded one by one, reading buffers `n` onwards; the first that fails ends the
   * upload. This is the loop body both copy loops share.
   */
  method CopyImages(dev: WebGLDevice, env: CopyEnv, buffers: seq<seq<bv8>>, n: nat, imgs: seq<Image>)
    returns (ok: bool, next: nat)
    modifies dev, dev.staging
    ensures var r := Uploads(env, buffers, CopyState(true, old(dev.staging[..]), [], n), imgs);
      ok == r.ok && dev.staging[..] == r.staging && dev.trace == old(dev.trace) + r.calls && next == r.n
    ensures dev.cache == old(dev.cache) && dev.gfx == old(dev.gfx) && dev.log == old(dev.log)
    ensures dev.realRenderArea == old(dev.realRenderArea)
    ensures dev.staging == old(dev.staging) || fresh(dev.staging)
  {
    ghost var s0 := CopyState(true, dev.staging[..], [], n);
    ok := true;
    next := n;
    var k := 0;
    while k < |imgs|
      invariant 0 <= k <= |imgs|
      invariant var r := Uploads(env, buffers, s0, imgs[..k]);
        r.ok && dev.staging[..] == r.staging && dev.trace == old(dev.trace) + r.calls && next == r.n
      invariant dev.cache == old(dev.cache) && dev.gfx == old(dev.gfx) && dev.log == old(dev.log)
      invariant dev.realRenderArea == old(dev.realRenderArea)
      invariant dev.staging == old(dev.staging) || fresh(dev.staging)
    {
      ghost var p := Uploads(env, buffers, s0, imgs[..k]);
      assert imgs[..k + 1][..k] == imgs[..k];
      ok := CopyImage(dev, env, buffers, next, imgs[k]);
      next := next + 1;
      if !ok {
        FailedPrefix(env, buffers, s0, imgs, k + 1);
        return;
      }
      k := k + 1;
    }
    assert imgs[..k] == imgs;
  }

  lemma AppendAssoc(a: seq<GLCall>, b: seq<GLCall>, c: seq<GLCall>)
    ensures (a + b) + c == a + (b + c)
  {
  }

  /**
   * The faces of one region of a cube map copy, continuing from the regions before it; when a
   * face fails, the state reached is where the whole copy ends.
   */
  method CopyRegion(dev: WebGLDevice, env: CopyEnv, buffers: seq<seq<bv8>>, regions: seq<BufferTextureCopy>, i: nat,
                    n: nat, ghost s0: CopyState, ghost st: CopyState, ghost before: seq<GLCall>)
    returns (ok: bool, next: nat, ghost st': CopyState)
    requires i < |regions| && st == Uploads(env, buffers, s0, ImagesCube(regions[..i])) && st.ok
    requires dev.staging[..] == st.staging && n == st.n && dev.trace == before + st.calls
    modifies dev, dev.staging
    ensures st' == Uploads(env, buffers, s0, ImagesCube(if ok then regions[..i + 1] else regions))
    ensures ok == st'.ok && dev.staging[..] == st'.staging && next == st'.n && dev.trace == before + st'.calls
    ensures dev.cache == old(dev.cache) && dev.gfx == old(dev.gfx) && dev.log == old(dev.log)
    ensures dev.realRenderArea == old(dev.realRenderArea)
    ensures dev.staging == old(dev.staging) || fresh(dev.staging)
  {
    ghost var q := Uploads(env, buffers, CopyState(true, st.staging, [], st.n), Faces(regions[i]));
    ghost var t0 := dev.trace;
    ok, next := CopyImages(dev, env, buffers, n, Faces(regions[i]));
    assert ok == q.ok && next == q.n && dev.staging[..] == q.staging && dev.trace == t0 + q.calls;
    st' := CopyState(q.ok, q.staging, st.calls + q.calls, q.n);
    CubeStep(env, buffers, s0, regions, i, st, q, st');
    AppendAssoc(before, st.calls, q.calls);
  }

  /** A cube map copy: for each region, each of its faces in turn. */
  method CopyCube(dev: WebGLDevice, env: CopyEnv, buffers: seq<seq<bv8>>, regions: seq<BufferTextureCopy>)
    returns (ok: bool)
    modifies dev, dev.staging
    ensures var r := Uploads(env, buffers, CopyState(true, old(dev.staging[..]), [], 0), ImagesCube(regions));
      ok == r.ok && dev.staging[..] == r.staging && dev.trace == old(dev.trace) + r.calls
    ensures dev.cache == old(dev.cache) && dev.gfx == old(dev.gfx) && dev.log == old(dev.log)
    ensures dev.realRenderArea == old(dev.realRenderArea)
    ensures dev.staging == old(dev.staging) || fresh(dev.staging)
  {
    ghost var s0 := CopyState(true, dev.staging[..], [], 0);
    ghost var st := s0;
    ok := true;
    var n := 0;
    var i := 0;
    while i < |regions|
      invariant 0 <= i <= |regions|
      invariant st == Uploads(env, buffers, s0, ImagesCube(regions[..i]))
      invariant st.ok && dev.staging[..] == st.staging && dev.trace == old(dev.trace) + st.calls && n == st.n
      invariant dev.cache == old(dev.cache) && dev.gfx == old(dev.gfx) && dev.log == old(dev.log)
      invariant dev.realRenderArea == old(dev.realRenderArea)
      invariant dev.staging == old(dev.staging) || fresh(dev.staging)
    {
      ok, n, st := CopyRegion(dev, env, buffers, regions, i, n, s0, st, old(dev.trace));
      if !ok {
        return;
      }
      i := i + 1;
    }
    assert regions[..i] == regions;
  }

  /** The images of consecutive runs of cube regions are the runs' images one after the other. */
  lemma {:induction false} ImagesCubeConcat(a: seq<BufferTextureCopy>, b: seq<BufferTextureCopy>)
    ensures ImagesCube(a + b) == ImagesCube(a) + ImagesCube(b)
    decreases |b|
  {
    if |b| == 0 {
      assert a + b == a;
    } else {
      assert (a + b)[..|a + b| - 1] == a + b[..|b| - 1];
      ImagesCubeConcat(a, b[..|b| - 1]);
    }
  }

  /**
   * Copying buffers into a texture: the texture is bound on the active unit, every image (each
   * region of a 2D texture, each face of each region of a cube map) is uploaded from its own
   * buffer in order, a target that is neither is reported as 16327, and mipmaps are generated
   * when the texture asks for them. A failing image ends the copy, as its throw does.
   */
  method CopyBuffersToTexture(dev: WebGLDevice, t: GPUTexture, buffers: seq<seq<bv8>>, regions: seq<BufferTextureCopy>)
    returns (ok: bool)
    requires dev.Valid()
    requires dev.formatInfos(t.info.format).blockWidth >= 1 && dev.formatInfos(t.info.format).blockHeight >= 1
    modifies dev, dev.staging
    ensures dev.Valid()
    ensures dev.cache == TextureCommands.WithActiveUnitTexture(old(dev.cache), t.native.glTexture)
    ensures var r := Uploads(EnvOf(dev, t), buffers, CopyState(true, old(dev.staging[..]), [], 0),
                             Images(t.native.glTarget, regions));
      && ok == r.ok && dev.staging[..] == r.staging
      && dev.trace == old(dev.trace) + TextureCommands.BindOnActiveUnitCalls(old(dev.cache), t.native.glTarget, t.native.glTexture)
                      + r.calls + (if ok then MipmapCallsAsWritten(t.info, t.native) else [])
    ensures dev.log == old(dev.log) + (if t.native.glTarget in {TEXTURE_2D, TEXTURE_CUBE_MAP} then [] else [16327])
    ensures dev.gfx == old(dev.gfx) && dev.realRenderArea == old(dev.realRenderArea)
    ensures dev.staging == old(dev.staging) || fresh(dev.staging)
  {
    TextureCommands.BindOnActiveUnit(dev, t.native.glTarget, t.native.glTexture);
    var env := EnvOf(dev, t);
    if t.native.glTarget == TEXTURE_2D {
      var next;
      ok, next := CopyImages(dev, env, buffers, 0, Images2D(regions));
    } else if t.native.glTarget == TEXTURE_CUBE_MAP {
      ok := CopyCube(dev, env, buffers, regions);
    } else {
      ok := true;
      dev.log := dev.log + [16327];
    }
    if !ok {
      return;
    }
    if HasBit(t.info.flags, TEXTURE_FLAG_GEN_MIPMAP) {
      dev.Call(GenerateMipmap(t.native.glTarget));
    }
  }
}

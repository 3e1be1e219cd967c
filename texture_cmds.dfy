/**
 * Creation, destruction and resizing of textures
 * (WebGLCmdFuncCreateTexture / DestroyTexture / ResizeTexture).
 */
module TextureCommands {
  import opened Wrappers
  import opened GL
  import opened Formats
  import opened JsInt
  import opened Objects

  // ---------------------------------------------------------------- mip chains

  /** One step down a mip chain: `max(1, s >> 1)`. */
  function Halve(s: int): int {
    Max(1, Shr(s, 1))
  }

  /** The extent of mip level `level` of an image whose level 0 has extent `s`. */
  function MipExtent(s: int, level: nat): int {
    if level == 0 then s else Halve(MipExtent(s, level - 1))
  }

  /** Below level 0, a mip extent is the base extent divided by 2^level, but never below 1. */
  lemma {:induction false} MipExtentClosedForm(s: int, level: nat)
    requires 0 <= s < TWO_31 && level >= 1
    ensures MipExtent(s, level) == Max(1, s / Pow2(level))
    decreases level
  {
    if level == 1 {
      ShrOneHalves(s);
    } else {
      MipExtentClosedForm(s, level - 1);
      var q := s / Pow2(level - 1);
      var m := MipExtent(s, level - 1);
      assert m == Max(1, q);
      DivAtMost(s, Pow2(level - 1));
      ShrOneHalves(m);
      assert Halve(m) == Max(1, m / 2);
      HalvingStep(s, level);
      if q == 0 {
        assert m / 2 == 0;
      }
    }
  }

  lemma DivAtMost(x: int, d: pos)
    requires x >= 0
    ensures 0 <= x / d <= x
  {
    var q := x / d;
    assert x == d * q + x % d;
    if q > 0 {
      MulLe(q, 1, d);
      assert q * d >= q;
    }
  }

  /** Dividing by 2^level is dividing by 2^(level - 1) and then by 2. */
  lemma HalvingStep(s: int, level: nat)
    requires s >= 0 && level >= 1
    ensures s / Pow2(level) == s / Pow2(level - 1) / 2
  {
    assert Pow2(level) == Pow2(level - 1) * 2;
    DivDiv(s, Pow2(level - 1), 2);
  }

  /** What a texture's level images are made from. */
  datatype ImageSpec = ImageSpec(format: Format, internalFmt: GLenum, glFormat: GLenum, glType: GLenum, compressed: bool)

  /** The call that allocates one level: a zero-filled compressed image, or an uncompressed one without data. */
  function LevelImage(size: (Format, int, int, int) -> nat, target: GLenum, spec: ImageSpec,
                      level: nat, w: int, h: int): GLCall
  {
    if spec.compressed
    then CompressedTexImage2D(target, level, spec.internalFmt, w, h, seq(size(spec.format, w, h, 1), _ => 0 as bv8))
    else TexImage2D(target, level, spec.internalFmt, w, h, spec.glFormat, spec.glType)
  }

  /** The allocations of levels 0 .. levels - 1 of one image. */
  function LevelImages(size: (Format, int, int, int) -> nat, target: GLenum, spec: ImageSpec,
                       width: int, height: int, levels: nat): (r: seq<GLCall>)
    ensures |r| == levels
    decreases levels
  {
    if levels == 0 then []
    else LevelImages(size, target, spec, width, height, levels - 1) +
         [LevelImage(size, target, spec, levels - 1, MipExtent(width, levels - 1), MipExtent(height, levels - 1))]
  }

  /** The allocations of the first `faces` faces of a cube map, each one a full mip chain. */
  function CubeImages(size: (Format, int, int, int) -> nat, spec: ImageSpec,
                      width: int, height: int, levels: nat, faces: nat): (r: seq<GLCall>)
    ensures |r| == faces * levels
    decreases faces
  {
    if faces == 0 then []
    else CubeImages(size, spec, width, height, levels, faces - 1) +
         LevelImages(size, TEXTURE_CUBE_MAP_POSITIVE_X + faces - 1, spec, width, height, levels)
  }

  /** Call `i` of a mip chain allocates level `i` at extent `MipExtent(_, i)`. */
  lemma {:induction false} LevelImagesAt(size: (Format, int, int, int) -> nat, target: GLenum, spec: ImageSpec,
                                         width: int, height: int, levels: nat, i: nat)
    requires i < levels
    ensures LevelImages(size, target, spec, width, height, levels)[i] ==
            LevelImage(size, target, spec, i, MipExtent(width, i), MipExtent(height, i))
    decreases levels
  {
    var prev := LevelImages(size, target, spec, width, height, levels - 1);
    assert LevelImages(size, target, spec, width, height, levels)
        == prev + [LevelImage(size, target, spec, levels - 1, MipExtent(width, levels - 1), MipExtent(height, levels - 1))];
    if i < levels - 1 {
      LevelImagesAt(size, target, spec, width, height, levels - 1, i);
    }
  }

  /**
   * The mip chain a texture allocates: level 0 at full size, and level i >= 1 at
   * max(1, width / 2^i) by max(1, height / 2^i).
   */
  lemma MipChainSizes(size: (Format, int, int, int) -> nat, target: GLenum, spec: ImageSpec,
                      width: nat, height: nat, levels: nat, i: nat)
    requires width < TWO_31 && height < TWO_31 && i < levels
    ensures LevelImages(size, target, spec, width, height, levels)[i] ==
            LevelImage(size, target, spec, i,
                       if i == 0 then width else Max(1, width / Pow2(i)),
                       if i == 0 then height else Max(1, height / Pow2(i)))
  {
    LevelImagesAt(size, target, spec, width, height, levels, i);
    if i > 0 {
      MipExtentClosedForm(width, i);
      MipExtentClosedForm(height, i);
    }
  }

  /**
   * Every face of a cube map restarts its chain from the full size: call `f * levels + i`
   * allocates level `i` of face `f` exactly as a 2D chain would.
   */
  lemma {:induction false} CubeFacesRestart(size: (Format, int, int, int) -> nat, spec: ImageSpec,
                                            width: int, height: int, levels: nat, faces: nat, f: nat, i: nat)
    requires f < faces && i < levels
    ensures f * levels + i < faces * levels
    ensures CubeImages(size, spec, width, height, levels, faces)[f * levels + i] ==
            LevelImages(size, TEXTURE_CUBE_MAP_POSITIVE_X + f, spec, width, height, levels)[i]
    decreases faces
  {
    var prev := CubeImages(size, spec, width, height, levels, faces - 1);
    var last := LevelImages(size, TEXTURE_CUBE_MAP_POSITIVE_X + faces - 1, spec, width, height, levels);
    var base := (faces - 1) * levels;
    assert CubeImages(size, spec, width, height, levels, faces) == prev + last;
    assert |prev| == base;
    assert faces * levels == base + levels;
    if f < faces - 1 {
      CubeFacesRestart(size, spec, width, height, levels, faces - 1, f, i);
    } else {
      assert f * levels == base;
    }
  }

  /** Allocate the levels of one image through the source's halving loop. */
  method UploadLevels(dev: WebGLDevice, target: GLenum, spec: ImageSpec, width: int, height: int, levels: nat)
    modifies dev
    ensures dev.trace == old(dev.trace) + LevelImages(dev.formatSize, target, spec, width, height, levels)
    ensures dev.cache == old(dev.cache) && dev.gfx == old(dev.gfx) && dev.log == old(dev.log)
    ensures dev.staging == old(dev.staging) && dev.realRenderArea == old(dev.realRenderArea)
  {
    var w := width;
    var h := height;
    var i := 0;
    while i < levels
      invariant 0 <= i <= levels
      invariant w == MipExtent(width, i) && h == MipExtent(height, i)
      invariant dev.trace == old(dev.trace) + LevelImages(dev.formatSize, target, spec, width, height, i)
      invariant dev.cache == old(dev.cache) && dev.gfx == old(dev.gfx) && dev.log == old(dev.log)
      invariant dev.staging == old(dev.staging) && dev.realRenderArea == old(dev.realRenderArea)
    {
      dev.Call(LevelImage(dev.formatSize, target, spec, i, w, h));
      w := Max(1, Shr(w, 1));
      h := Max(1, Shr(h, 1));
      i := i + 1;
    }
  }

  /** Allocate the six faces of a cube map, restarting from the full size for each face. */
  method UploadCubeFaces(dev: WebGLDevice, spec: ImageSpec, width: int, height: int, levels: nat)
    modifies dev
    ensures dev.trace == old(dev.trace) + CubeImages(dev.formatSize, spec, width, height, levels, 6)
    ensures dev.cache == old(dev.cache) && dev.gfx == old(dev.gfx) && dev.log == old(dev.log)
    ensures dev.staging == old(dev.staging) && dev.realRenderArea == old(dev.realRenderArea)
  {
    var f := 0;
    while f < 6
      invariant 0 <= f <= 6
      invariant dev.trace == old(dev.trace) + CubeImages(dev.formatSize, spec, width, height, levels, f)
      invariant dev.cache == old(dev.cache) && dev.gfx == old(dev.gfx) && dev.log == old(dev.log)
      invariant dev.staging == old(dev.staging) && dev.realRenderArea == old(dev.realRenderArea)
    {
      assert CubeImages(dev.formatSize, spec, width, height, levels, f + 1) ==
        CubeImages(dev.formatSize, spec, width, height, levels, f) +
        LevelImages(dev.formatSize, TEXTURE_CUBE_MAP_POSITIVE_X + f, spec, width, height, levels);
      UploadLevels(dev, TEXTURE_CUBE_MAP_POSITIVE_X + f, spec, width, height, levels);
      f := f + 1;
    }
  }

  // ---------------------------------------------------------------- binding and sampler state

  /** The bind a texture needs on the active unit: none when the unit already holds it. */
  function BindOnActiveUnitCalls(c: StateCache, target: GLenum, tex: Handle): seq<GLCall>
    requires 0 <= c.texUnit < |c.glTexUnits|
  {
    if c.glTexUnits[c.texUnit] != tex then [BindTexture(target, tex)] else []
  }

  function WithActiveUnitTexture(c: StateCache, tex: Handle): StateCache
    requires 0 <= c.texUnit < |c.glTexUnits|
  {
    c.(glTexUnits := c.glTexUnits[c.texUnit := tex])
  }

  method BindOnActiveUnit(dev: WebGLDevice, target: GLenum, tex: Handle)
    requires dev.Valid()
    modifies dev
    ensures dev.Valid()
    ensures dev.cache == WithActiveUnitTexture(old(dev.cache), tex)
    ensures dev.cache.glTexUnits[dev.cache.texUnit] == tex
    ensures dev.trace == old(dev.trace) + BindOnActiveUnitCalls(old(dev.cache), target, tex)
    ensures dev.gfx == old(dev.gfx) && dev.log == old(dev.log)
    ensures dev.staging == old(dev.staging) && dev.realRenderArea == old(dev.realRenderArea)
  {
    if dev.cache.glTexUnits[dev.cache.texUnit] != tex {
      dev.Call(BindTexture(target, tex));
      dev.cache := WithActiveUnitTexture(dev.cache, tex);
    }
  }

  /** A new texture repeats when its size is a power of two and clamps otherwise; it filters linearly. */
  function DefaultSampling(n: TextureNative, isPowerOf2: bool): (r: TextureNative)
    ensures r.glWrapS == r.glWrapT == (if isPowerOf2 then REPEAT else CLAMP_TO_EDGE)
    ensures r.glMinFilter == r.glMagFilter == LINEAR
    ensures r.(glWrapS := n.glWrapS, glWrapT := n.glWrapT, glMinFilter := n.glMinFilter, glMagFilter := n.glMagFilter) == n
  {
    var wrap := if isPowerOf2 then REPEAT else CLAMP_TO_EDGE;
    n.(glWrapS := wrap, glWrapT := wrap, glMinFilter := LINEAR, glMagFilter := LINEAR)
  }

  /** The four parameter calls that apply a texture's sampler state to its target. */
  function SamplingCalls(n: TextureNative): seq<GLCall> {
    [TexParameteri(n.glTarget, TEXTURE_WRAP_S, n.glWrapS),
     TexParameteri(n.glTarget, TEXTURE_WRAP_T, n.glWrapT),
     TexParameteri(n.glTarget, TEXTURE_MIN_FILTER, n.glMinFilter),
     TexParameteri(n.glTarget, TEXTURE_MAG_FILTER, n.glMagFilter)]
  }

  method ApplySampling(dev: WebGLDevice, n: TextureNative)
    modifies dev
    ensures dev.trace == old(dev.trace) + SamplingCalls(n)
    ensures dev.cache == old(dev.cache) && dev.gfx == old(dev.gfx) && dev.log == old(dev.log)
    ensures dev.staging == old(dev.staging) && dev.realRenderArea == old(dev.realRenderArea)
  {
    dev.Call(TexParameteri(n.glTarget, TEXTURE_WRAP_S, n.glWrapS));
    dev.Call(TexParameteri(n.glTarget, TEXTURE_WRAP_T, n.glWrapT));
    dev.Call(TexParameteri(n.glTarget, TEXTURE_MIN_FILTER, n.glMinFilter));
    dev.Call(TexParameteri(n.glTarget, TEXTURE_MAG_FILTER, n.glMagFilter));
  }

  function Diagnostics(d: Option<nat>): seq<nat> {
    if d.Some? then [d.value] else []
  }

  /** The size check: 9100 when the larger side exceeds the limit. */
  function SizeDiagnostics(w: int, h: int, limit: int): seq<nat> {
    if Max(w, h) > limit then [9100] else []
  }

  /** Whether a depth format must live in a renderbuffer because depth textures are unavailable. */
  predicate UsesRenderbuffer(dev: WebGLDevice, format: Format)
  {
    !dev.textureExclusive(format) && !dev.ext.depthTexture && dev.formatInfos(format).hasDepth
  }

  function ImageSpecOf(dev: WebGLDevice, format: Format, n: TextureNative): ImageSpec
  {
    ImageSpec(format, n.glInternalFmt, n.glFormat, n.glType, dev.formatInfos(format).isCompressed)
  }

  // ---------------------------------------------------------------- creation

  /** The calls that give a renderbuffer storage: bind it unless bound, then allocate. */
  function RenderbufferCalls(c: StateCache, rb: Handle, internalFmt: GLenum, info: TextureInfo): seq<GLCall> {
    if info.size > 0
    then (if c.glRenderbuffer != rb then [BindRenderbuffer(rb)] else []) +
         [RenderbufferStorage(internalFmt, info.width, info.height)]
    else []
  }

  /** The calls that give a new 2D or cube texture storage, when it has a size. */
  function TextureStorageCalls(dev: WebGLDevice, c: StateCache, info: TextureInfo, n: TextureNative): seq<GLCall>
    requires 0 <= c.texUnit < |c.glTexUnits|
  {
    var spec := ImageSpecOf(dev, info.format, n);
    if info.size > 0 then
      BindOnActiveUnitCalls(c, n.glTarget, n.glTexture) + ImageCalls(dev.formatSize, n.glTarget, spec, info)
      + SamplingCalls(DefaultSampling(n, info.isPowerOf2))
    else []
  }

  /** A 2D depth texture without depth-texture support: a renderbuffer instead. */
  method CreateRenderbufferStorage(dev: WebGLDevice, t: GPUTexture, created: Handle)
    modifies dev, t
    ensures var internal := FormatToGLInternalFormat(t.info.format);
      && t.native == old(t.native).(glInternalFmt := internal.value, glRenderbuffer := created)
      && dev.log == old(dev.log) + Diagnostics(internal.diagnostic)
      && dev.cache == (if t.info.size > 0 then old(dev.cache).(glRenderbuffer := created) else old(dev.cache))
      && dev.trace == old(dev.trace) + RenderbufferCalls(old(dev.cache), created, internal.value, t.info)
    ensures t.info == old(t.info) && dev.gfx == old(dev.gfx)
    ensures dev.staging == old(dev.staging) && dev.realRenderArea == old(dev.realRenderArea)
  {
    var internal := FormatToGLInternalFormat(t.info.format);
    dev.Report(internal.diagnostic);
    t.native := t.native.(glInternalFmt := internal.value, glRenderbuffer := created);
    if t.info.size > 0 {
      if dev.cache.glRenderbuffer != created {
        dev.Call(BindRenderbuffer(created));
        dev.cache := dev.cache.(glRenderbuffer := created);
      }
      dev.Call(RenderbufferStorage(internal.value, t.info.width, t.info.height));
    }
  }

  /**
   * A 2D texture or a cube map: a new native texture, and, when the texture has storage,
   * a bind on the active unit, every level of every face allocated, and the default sampler state.
   */
  method CreateTextureStorage(dev: WebGLDevice, t: GPUTexture, created: Handle)
    requires dev.Valid()
    requires t.native.glTarget == TEXTURE_2D || t.native.glTarget == TEXTURE_CUBE_MAP
    modifies dev, t
    ensures dev.Valid()
    ensures var n := old(t.native).(glTexture := created);
      && t.native == (if t.info.size > 0 then DefaultSampling(n, t.info.isPowerOf2) else n)
      && dev.cache == (if t.info.size > 0 then WithActiveUnitTexture(old(dev.cache), created) else old(dev.cache))
      && dev.trace == old(dev.trace) + TextureStorageCalls(dev, old(dev.cache), t.info, n)
    ensures t.info == old(t.info) && dev.gfx == old(dev.gfx) && dev.log == old(dev.log)
    ensures dev.staging == old(dev.staging) && dev.realRenderArea == old(dev.realRenderArea)
  {
    t.native := t.native.(glTexture := created);
    if t.info.size > 0 {
      AllocateTexture(dev, t.info, t.native);
      t.native := DefaultSampling(t.native, t.info.isPowerOf2);
    }
  }

  /** Bind a new texture of positive size, allocate all its images and apply the default sampler state. */
  method AllocateTexture(dev: WebGLDevice, info: TextureInfo, n: TextureNative)
    requires dev.Valid() && info.size > 0
    requires n.glTarget == TEXTURE_2D || n.glTarget == TEXTURE_CUBE_MAP
    modifies dev
    ensures dev.Valid()
    ensures dev.cache == WithActiveUnitTexture(old(dev.cache), n.glTexture)
    ensures dev.trace == old(dev.trace) + TextureStorageCalls(dev, old(dev.cache), info, n)
    ensures dev.gfx == old(dev.gfx) && dev.log == old(dev.log)
    ensures dev.staging == old(dev.staging) && dev.realRenderArea == old(dev.realRenderArea)
  {
    var spec := ImageSpecOf(dev, info.format, n);
    BindOnActiveUnit(dev, n.glTarget, n.glTexture);
    ghost var afterBind := dev.trace;
    UploadImages(dev, n.glTarget, spec, info);
    ghost var afterImages := dev.trace;
    ApplySampling(dev, DefaultSampling(n, info.isPowerOf2));
    AppendThree(old(dev.trace), afterBind, afterImages, dev.trace, BindOnActiveUnitCalls(old(dev.cache), n.glTarget, n.glTexture),
                ImageCalls(dev.formatSize, n.glTarget, spec, info), SamplingCalls(DefaultSampling(n, info.isPowerOf2)));
  }

  /** The images of a new texture: every level of a 2D texture, or every level of all six cube faces. */
  function ImageCalls(formatSize: (Format, int, int, int) -> nat, target: GLenum, spec: ImageSpec, info: TextureInfo): seq<GLCall> {
    if target == TEXTURE_2D
    then LevelImages(formatSize, TEXTURE_2D, spec, info.width, info.height, info.mipLevel)
    else CubeImages(formatSize, spec, info.width, info.height, info.mipLevel, 6)
  }

  /** Allocate every image of a new texture, as `ImageCalls` lists them. */
  method UploadImages(dev: WebGLDevice, target: GLenum, spec: ImageSpec, info: TextureInfo)
    modifies dev
    ensures dev.trace == old(dev.trace) + ImageCalls(dev.formatSize, target, spec, info)
    ensures dev.cache == old(dev.cache) && dev.gfx == old(dev.gfx) && dev.log == old(dev.log)
    ensures dev.staging == old(dev.staging) && dev.realRenderArea == old(dev.realRenderArea)
  {
    if target == TEXTURE_2D {
      UploadLevels(dev, TEXTURE_2D, spec, info.width, info.height, info.mipLevel);
    } else {
      UploadCubeFaces(dev, spec, info.width, info.height, info.mipLevel);
    }
  }

  /** The enums every creation starts from: format and internal format both the plain format. */
  function CreationEnums(n: TextureNative, format: Format): TextureNative {
    var f := FormatToGLFormat(format).value;
    n.(glFormat := f, glInternalFmt := f, glType := FormatToGLType(format))
  }

  /** The 2D branch: the size check, then a renderbuffer or a texture. */
  method CreateTexture2D(dev: WebGLDevice, t: GPUTexture, createdTexture: Handle, createdRenderbuffer: Handle)
    requires dev.Valid()
    modifies dev, t
    ensures dev.Valid()
    ensures t.info == old(t.info) && dev.gfx == old(dev.gfx)
    ensures dev.staging == old(dev.staging) && dev.realRenderArea == old(dev.realRenderArea)
    ensures var n := old(t.native).(glTarget := TEXTURE_2D);
      var sized := SizeDiagnostics(t.info.width, t.info.height, dev.caps.maxTextureSize);
      if UsesRenderbuffer(dev, t.info.format) then
        var internal := FormatToGLInternalFormat(t.info.format);
        && t.native == n.(glInternalFmt := internal.value, glRenderbuffer := createdRenderbuffer)
        && dev.log == old(dev.log) + sized + Diagnostics(internal.diagnostic)
        && dev.cache == (if t.info.size > 0 then old(dev.cache).(glRenderbuffer := createdRenderbuffer) else old(dev.cache))
        && dev.trace == old(dev.trace) + RenderbufferCalls(old(dev.cache), createdRenderbuffer, internal.value, t.info)
      else
        var m := n.(glTexture := createdTexture);
        && t.native == (if t.info.size > 0 then DefaultSampling(m, t.info.isPowerOf2) else m)
        && dev.log == old(dev.log) + sized
        && dev.cache == (if t.info.size > 0 then WithActiveUnitTexture(old(dev.cache), createdTexture) else old(dev.cache))
        && dev.trace == old(dev.trace) + TextureStorageCalls(dev, old(dev.cache), t.info, m)
  {
    t.native := t.native.(glTarget := TEXTURE_2D);
    if Max(t.info.width, t.info.height) > dev.caps.maxTextureSize {
      dev.Report(Some(9100));
    }
    if UsesRenderbuffer(dev, t.info.format) {
      CreateRenderbufferStorage(dev, t, createdRenderbuffer);
    } else {
      CreateTextureStorage(dev, t, createdTexture);
    }
  }

  /** The cube branch: the size check against the cube-map limit, then a texture with six faces. */
  method CreateTextureCube(dev: WebGLDevice, t: GPUTexture, createdTexture: Handle)
    requires dev.Valid()
    modifies dev, t
    ensures dev.Valid()
    ensures t.info == old(t.info) && dev.gfx == old(dev.gfx)
    ensures dev.staging == old(dev.staging) && dev.realRenderArea == old(dev.realRenderArea)
    ensures var m := old(t.native).(glTarget := TEXTURE_CUBE_MAP, glTexture := createdTexture);
      && t.native == (if t.info.size > 0 then DefaultSampling(m, t.info.isPowerOf2) else m)
      && dev.log == old(dev.log) + SizeDiagnostics(t.info.width, t.info.height, dev.caps.maxCubeMapTextureSize)
      && dev.cache == (if t.info.size > 0 then WithActiveUnitTexture(old(dev.cache), createdTexture) else old(dev.cache))
      && dev.trace == old(dev.trace) + TextureStorageCalls(dev, old(dev.cache), t.info, m)
  {
    t.native := t.native.(glTarget := TEXTURE_CUBE_MAP);
    if Max(t.info.width, t.info.height) > dev.caps.maxCubeMapTextureSize {
      dev.Report(Some(9100));
    }
    CreateTextureStorage(dev, t, createdTexture);
  }

  /**
   * Creating a texture translates its format, then takes the branch of its type; an unknown
   * type is reported and treated as 2D from then on, without storage.
   */
  method CreateTexture(dev: WebGLDevice, t: GPUTexture, createdTexture: Handle, createdRenderbuffer: Handle)
    requires dev.Valid()
    modifies dev, t
    ensures dev.Valid()
    ensures dev.gfx == old(dev.gfx) && dev.staging == old(dev.staging) && dev.realRenderArea == old(dev.realRenderArea)
    ensures t.native.glFormat == FormatToGLFormat(t.info.format).value
    ensures t.native.glType == FormatToGLType(t.info.format)
    ensures t.info == (if old(t.info.texType).OtherTextureType? then old(t.info).(texType := TEX2D) else old(t.info))
    ensures t.native.glTarget == (if old(t.info.texType) == CUBE then TEXTURE_CUBE_MAP else TEXTURE_2D)
    ensures old(t.info.texType) == TEX2D && UsesRenderbuffer(dev, t.info.format) ==>
      && t.native.glTexture == old(t.native.glTexture) && t.native.glRenderbuffer == createdRenderbuffer
      && t.native.glInternalFmt == FormatToGLInternalFormat(t.info.format).value
      && dev.log == old(dev.log) + Diagnostics(FormatToGLFormat(t.info.format).diagnostic)
           + SizeDiagnostics(t.info.width, t.info.height, dev.caps.maxTextureSize)
           + Diagnostics(FormatToGLInternalFormat(t.info.format).diagnostic)
      && dev.trace == old(dev.trace) + RenderbufferCalls(old(dev.cache), createdRenderbuffer,
                                                           t.native.glInternalFmt, t.info)
    ensures old(t.info.texType) != TEX2D || !UsesRenderbuffer(dev, t.info.format) ==>
      t.native.glRenderbuffer == old(t.native.glRenderbuffer)
    ensures old(t.info.texType) in {TEX2D, CUBE} && !(old(t.info.texType) == TEX2D && UsesRenderbuffer(dev, t.info.format)) ==>
      && t.native.glTexture == createdTexture
      && t.native.glInternalFmt == t.native.glFormat
      && dev.log == old(dev.log) + Diagnostics(FormatToGLFormat(t.info.format).diagnostic)
           + SizeDiagnostics(t.info.width, t.info.height,
                             if old(t.info.texType) == CUBE then dev.caps.maxCubeMapTextureSize else dev.caps.maxTextureSize)
      && (t.info.size > 0 ==>
            && t.native.glWrapS == t.native.glWrapT == (if t.info.isPowerOf2 then REPEAT else CLAMP_TO_EDGE)
            && t.native.glMinFilter == t.native.glMagFilter == LINEAR
            && dev.cache == WithActiveUnitTexture(old(dev.cache), createdTexture))
      && dev.trace == old(dev.trace) + TextureStorageCalls(dev, old(dev.cache), t.info,
           CreationEnums(old(t.native), t.info.format).(glTarget := t.native.glTarget, glTexture := createdTexture))
    ensures old(t.info.texType).OtherTextureType? ==>
      && t.native == CreationEnums(old(t.native), t.info.format).(glTarget := TEXTURE_2D)
      && dev.cache == old(dev.cache) && dev.trace == old(dev.trace)
      && dev.log == old(dev.log) + Diagnostics(FormatToGLFormat(t.info.format).diagnostic) + [16317]
  {
    var glFormat := FormatToGLFormat(t.info.format);
    dev.Report(glFormat.diagnostic);
    t.native := CreationEnums(t.native, t.info.format);
    match t.info.texType {
      case TEX2D =>
        CreateTexture2D(dev, t, createdTexture, createdRenderbuffer);
      case CUBE =>
        CreateTextureCube(dev, t, createdTexture);
      case OtherTextureType(_) =>
        dev.Report(Some(16317));
        t.info := t.info.(texType := TEX2D);
        t.native := t.native.(glTarget := TEXTURE_2D);
    }
  }

  // ---------------------------------------------------------------- destruction

  /** The calls that unbind `tex` from every unit of `units[..k]` holding it, in unit order. */
  function UnbindCalls(units: seq<Handle>, tex: Handle, target: GLenum, k: nat): seq<GLCall>
    requires k <= |units|
    decreases k
  {
    if k == 0 then []
    else UnbindCalls(units, tex, target, k - 1) +
         (if units[k - 1] == tex then [ActiveTexture(TEXTURE0 + k - 1), BindTexture(target, None)] else [])
  }

  /** The unit left active: the last one of `units[..k]` that held `tex`, or `current`. */
  function LastHolder(units: seq<Handle>, tex: Handle, k: nat, current: int): (r: int)
    requires k <= |units|
    ensures r == current || (0 <= r < k && units[r] == tex)
    decreases k
  {
    if k == 0 then current
    else if units[k - 1] == tex then k - 1
    else LastHolder(units, tex, k - 1, current)
  }

  /** The unit left active holds the texture whenever some unit did, and no later unit does. */
  lemma {:induction false} LastHolderIsLast(units: seq<Handle>, tex: Handle, k: nat, current: int)
    requires k <= |units|
    ensures (exists i :: 0 <= i < k && units[i] == tex) ==>
      var r := LastHolder(units, tex, k, current);
      0 <= r < k && units[r] == tex && forall i :: r < i < k ==> units[i] != tex
    ensures (forall i :: 0 <= i < k ==> units[i] != tex) ==> LastHolder(units, tex, k, current) == current
    decreases k
  {
    if k > 0 {
      LastHolderIsLast(units, tex, k - 1, current);
    }
  }

  /** The number of units of `units[..k]` holding `tex`. */
  function Holders(units: seq<Handle>, tex: Handle, k: nat): nat
    requires k <= |units|
    decreases k
  {
    if k == 0 then 0 else Holders(units, tex, k - 1) + (if units[k - 1] == tex then 1 else 0)
  }

  /** Each unit holding the texture costs one unit switch and one unbind, and no other unit costs a call. */
  lemma {:induction false} UnbindCallsCount(units: seq<Handle>, tex: Handle, target: GLenum, k: nat)
    requires k <= |units|
    ensures |UnbindCalls(units, tex, target, k)| == 2 * Holders(units, tex, k)
    ensures Holders(units, tex, k) == 0 ==> UnbindCalls(units, tex, target, k) == []
    decreases k
  {
    if k > 0 {
      UnbindCallsCount(units, tex, target, k - 1);
    }
  }

  method UnbindUnit(dev: WebGLDevice, i: nat, target: GLenum)
    modifies dev
    ensures dev.trace == old(dev.trace) + [ActiveTexture(TEXTURE0 + i), BindTexture(target, None)]
    ensures dev.cache == old(dev.cache) && dev.gfx == old(dev.gfx) && dev.log == old(dev.log)
    ensures dev.staging == old(dev.staging) && dev.realRenderArea == old(dev.realRenderArea)
  {
    dev.Call(ActiveTexture(TEXTURE0 + i));
    dev.Call(BindTexture(target, None));
  }

  /** Unbind `tex` from every unit holding it, leaving the last such unit active. */
  method UnbindFromUnits(dev: WebGLDevice, tex: Handle, target: GLenum)
    requires dev.Valid()
    modifies dev
    ensures dev.Valid()
    ensures |dev.cache.glTexUnits| == |old(dev.cache.glTexUnits)|
    ensures forall i :: 0 <= i < |dev.cache.glTexUnits| ==>
      dev.cache.glTexUnits[i] == (if old(dev.cache.glTexUnits[i]) == tex then None else old(dev.cache.glTexUnits[i]))
    ensures dev.cache.texUnit == LastHolder(old(dev.cache.glTexUnits), tex, |old(dev.cache.glTexUnits)|, old(dev.cache.texUnit))
    ensures dev.cache == old(dev.cache).(glTexUnits := dev.cache.glTexUnits, texUnit := dev.cache.texUnit)
    ensures dev.trace == old(dev.trace) + UnbindCalls(old(dev.cache.glTexUnits), tex, target, |old(dev.cache.glTexUnits)|)
    ensures dev.gfx == old(dev.gfx) && dev.log == old(dev.log)
    ensures dev.staging == old(dev.staging) && dev.realRenderArea == old(dev.realRenderArea)
  {
    ghost var old0 := dev.cache.glTexUnits;
    var units := dev.cache.glTexUnits;
    var texUnit := dev.cache.texUnit;
    var i := 0;
    while i < |units|
      invariant 0 <= i <= |units| && |units| == |old0|
      invariant forall k :: 0 <= k < i ==> units[k] == (if old0[k] == tex then None else old0[k])
      invariant forall k :: i <= k < |units| ==> units[k] == old0[k]
      invariant texUnit == LastHolder(old0, tex, i, old(dev.cache.texUnit))
      invariant 0 <= texUnit < |units|
      invariant dev.trace == old(dev.trace) + UnbindCalls(old0, tex, target, i)
      invariant dev.cache == old(dev.cache) && dev.gfx == old(dev.gfx) && dev.log == old(dev.log)
      invariant dev.staging == old(dev.staging) && dev.realRenderArea == old(dev.realRenderArea)
    {
      if units[i] == tex {
        UnbindUnit(dev, i, target);
        texUnit := i;
        units := units[i := None];
      }
      i := i + 1;
    }
    dev.cache := dev.cache.(glTexUnits := units, texUnit := texUnit);
  }

  /**
   * Destroying a texture deletes its native objects, unbinds it from every unit that held it
   * (leaving the last such unit active) and forgets the handles; a renderbuffer binding is reset
   * only when the cache holds that renderbuffer.
   */
  method DestroyTexture(dev: WebGLDevice, t: GPUTexture)
    requires dev.Valid()
    modifies dev, t
    ensures dev.Valid()
    ensures t.native == old(t.native).(glTexture := None, glRenderbuffer := None) && t.info == old(t.info)
    ensures old(t.native.glTexture).Some? ==>
      && (forall i :: 0 <= i < |dev.cache.glTexUnits| ==>
            dev.cache.glTexUnits[i] == (if old(dev.cache.glTexUnits[i]) == old(t.native.glTexture) then None
                                        else old(dev.cache.glTexUnits[i])))
      && dev.cache.texUnit == LastHolder(old(dev.cache.glTexUnits), old(t.native.glTexture),
                                         |old(dev.cache.glTexUnits)|, old(dev.cache.texUnit))
    ensures old(t.native.glTexture).None? ==>
      dev.cache.glTexUnits == old(dev.cache.glTexUnits) && dev.cache.texUnit == old(dev.cache.texUnit)
    ensures dev.cache.glRenderbuffer ==
      (if old(t.native.glRenderbuffer).Some? && old(dev.cache.glRenderbuffer) == old(t.native.glRenderbuffer)
       then None else old(dev.cache.glRenderbuffer))
    ensures dev.cache == old(dev.cache).(glTexUnits := dev.cache.glTexUnits, texUnit := dev.cache.texUnit,
                                         glRenderbuffer := dev.cache.glRenderbuffer)
    ensures dev.trace == old(dev.trace)
      + (if old(t.native.glTexture).Some?
         then [DeleteTexture(old(t.native.glTexture).value)]
              + UnbindCalls(old(dev.cache.glTexUnits), old(t.native.glTexture), t.native.glTarget,
                            |old(dev.cache.glTexUnits)|)
         else [])
      + (if old(t.native.glRenderbuffer).Some?
         then [DeleteRenderbuffer(old(t.native.glRenderbuffer).value)]
              + (if old(dev.cache.glRenderbuffer) == old(t.native.glRenderbuffer) then [BindRenderbuffer(None)] else [])
         else [])
    ensures dev.gfx == old(dev.gfx) && dev.log == old(dev.log)
    ensures dev.staging == old(dev.staging) && dev.realRenderArea == old(dev.realRenderArea)
  {
    if t.native.glTexture.Some? {
      dev.Call(DeleteTexture(t.native.glTexture.value));
      UnbindFromUnits(dev, t.native.glTexture, t.native.glTarget);
      t.native := t.native.(glTexture := None);
    }
    ghost var mid := dev.trace;
    if t.native.glRenderbuffer.Some? {
      var rb := t.native.glRenderbuffer;
      var bound := dev.cache.glRenderbuffer;
      dev.Call(DeleteRenderbuffer(rb.value));
      if bound == rb {
        dev.Call(BindRenderbuffer(None));
        dev.cache := dev.cache.(glRenderbuffer := None);
      }
      t.native := t.native.(glRenderbuffer := None);
    }
  }

  // ---------------------------------------------------------------- resizing

  /**
   * Resizing re-specifies the storage of a texture with storage: the renderbuffer of a 2D
   * depth texture, otherwise every level (of every face) of its native texture, bound on the
   * active unit first. The sampler state is left as it was.
   */
  method ResizeTexture(dev: WebGLDevice, t: GPUTexture)
    requires dev.Valid()
    modifies dev, t
    ensures dev.Valid()
    ensures dev.gfx == old(dev.gfx) && dev.staging == old(dev.staging) && dev.realRenderArea == old(dev.realRenderArea)
    ensures old(t.info.size) == 0 ==>
      t.info == old(t.info) && t.native == old(t.native) && dev.cache == old(dev.cache)
      && dev.trace == old(dev.trace) && dev.log == old(dev.log)
    ensures old(t.info.size) > 0 ==>
      && t.info == (if old(t.info.texType).OtherTextureType? then old(t.info).(texType := TEX2D) else old(t.info))
      && t.native == old(t.native).(glTarget := if old(t.info.texType) == CUBE then TEXTURE_CUBE_MAP else TEXTURE_2D)
    ensures old(t.info.size) > 0 && old(t.info.texType) == TEX2D ==>
      var spec := ImageSpecOf(dev, t.info.format, t.native);
      && dev.log == old(dev.log) + SizeDiagnostics(t.info.width, t.info.height, dev.caps.maxTextureSize)
      && if t.native.glRenderbuffer.Some? then
           && dev.cache == old(dev.cache).(glRenderbuffer := t.native.glRenderbuffer)
           && dev.trace == old(dev.trace)
                + (if old(dev.cache.glRenderbuffer) != t.native.glRenderbuffer then [BindRenderbuffer(t.native.glRenderbuffer)] else [])
                + [RenderbufferStorage(t.native.glInternalFmt, t.info.width, t.info.height)]
         else if t.native.glTexture.Some? then
           && dev.cache == WithActiveUnitTexture(old(dev.cache), t.native.glTexture)
           && dev.trace == old(dev.trace) + BindOnActiveUnitCalls(old(dev.cache), TEXTURE_2D, t.native.glTexture)
                + LevelImages(dev.formatSize, TEXTURE_2D, spec, t.info.width, t.info.height, t.info.mipLevel)
         else
           dev.cache == old(dev.cache) && dev.trace == old(dev.trace)
    ensures old(t.info.size) > 0 && old(t.info.texType) == CUBE ==>
      && dev.log == old(dev.log) + SizeDiagnostics(t.info.width, t.info.height, dev.caps.maxCubeMapTextureSize)
      && dev.cache == WithActiveUnitTexture(old(dev.cache), t.native.glTexture)
      && dev.trace == old(dev.trace) + BindOnActiveUnitCalls(old(dev.cache), TEXTURE_CUBE_MAP, t.native.glTexture)
           + CubeImages(dev.formatSize, ImageSpecOf(dev, t.info.format, t.native), t.info.width, t.info.height,
                        t.info.mipLevel, 6)
    ensures old(t.info.size) > 0 && old(t.info.texType).OtherTextureType? ==>
      dev.cache == old(dev.cache) && dev.trace == old(dev.trace) && dev.log == old(dev.log) + [16317]
  {
    if t.info.size == 0 {
      return;
    }
    var w := t.info.width;
    var h := t.info.height;
    match t.info.texType {
      case TEX2D =>
        t.native := t.native.(glTarget := TEXTURE_2D);
        if Max(w, h) > dev.caps.maxTextureSize {
          dev.Report(Some(9100));
        }
        if t.native.glRenderbuffer.Some? {
          if dev.cache.glRenderbuffer != t.native.glRenderbuffer {
            dev.Call(BindRenderbuffer(t.native.glRenderbuffer));
            dev.cache := dev.cache.(glRenderbuffer := t.native.glRenderbuffer);
          }
          dev.Call(RenderbufferStorage(t.native.glInternalFmt, w, h));
        } else if t.native.glTexture.Some? {
          BindOnActiveUnit(dev, TEXTURE_2D, t.native.glTexture);
          UploadLevels(dev, TEXTURE_2D, ImageSpecOf(dev, t.info.format, t.native), w, h, t.info.mipLevel);
        }
      case CUBE =>
        t.native := t.native.(glTarget := TEXTURE_CUBE_MAP);
        if Max(w, h) > dev.caps.maxCubeMapTextureSize {
          dev.Report(Some(9100));
        }
        BindOnActiveUnit(dev, TEXTURE_CUBE_MAP, t.native.glTexture);
        UploadCubeFaces(dev, ImageSpecOf(dev, t.info.format, t.native), w, h, t.info.mipLevel);
      case OtherTextureType(_) =>
        dev.Report(Some(16317));
        t.info := t.info.(texType := TEX2D);
        t.native := t.native.(glTarget := TEXTURE_2D);
    }
  }
}

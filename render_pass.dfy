/** WebGLCmdFuncBeginRenderPass: bind the target, set viewport and scissor, clear, restore masks. */
module RenderPassCommands {
  import opened Wrappers
  import opened GL
  import opened Formats
  import opened JsInt
  import opened Objects

  /** The render area scaled to the framebuffer's mip level (`<< lodLevel` on each field). */
  function RealArea(area: Rect, lod: int): (r: Rect)
    ensures IsInt32(r.x) && IsInt32(r.y) && IsInt32(r.width) && IsInt32(r.height)
  {
    Rect(Shl(area.x, lod), Shl(area.y, lod), Shl(area.width, lod), Shl(area.height, lod))
  }

  /** While nothing overflows, mip level `lod` scales every field of the area by 2^lod. */
  lemma RealAreaScales(area: Rect, lod: nat)
    requires lod < 32
    requires IsInt32(area.x) && IsInt32(area.x * Pow2(lod)) && IsInt32(area.y) && IsInt32(area.y * Pow2(lod))
    requires IsInt32(area.width) && IsInt32(area.width * Pow2(lod)) && IsInt32(area.height) && IsInt32(area.height * Pow2(lod))
    ensures RealArea(area, lod) == Rect(area.x * Pow2(lod), area.y * Pow2(lod), area.width * Pow2(lod), area.height * Pow2(lod))
  {
    ShlInRange(area.x, lod);
    ShlInRange(area.y, lod);
    ShlInRange(area.width, lod);
    ShlInRange(area.height, lod);
  }

  /** How many color attachments the clear loop visits: one without WEBGL_draw_buffers. */
  function ClearCount(drawBuffers: bool, clearColors: nat): nat {
    if drawBuffers then clearColors else 1
  }

  /** The framebuffer bind, viewport and scissor calls, each skipped when the cache already agrees. */
  function TargetCalls(cache: StateCache, fb: Handle, area: Rect): (r: seq<GLCall>)
    ensures (BindFramebuffer(fb) in r) <==> cache.glFramebuffer != fb
    ensures (GLCall.Viewport(area.x, area.y, area.width, area.height) in r) <==> cache.viewport != area
    ensures (Scissor(area.x, area.y, area.width, area.height) in r) <==> cache.scissorRect != area
    ensures forall c :: c in r ==> c.BindFramebuffer? || c.Viewport? || c.Scissor?
    ensures |r| <= 3 && (r == [] <==> cache.glFramebuffer == fb && cache.viewport == area && cache.scissorRect == area)
  {
    (if cache.glFramebuffer != fb then [BindFramebuffer(fb)] else [])
    + (if cache.viewport != area then [GLCall.Viewport(area.x, area.y, area.width, area.height)] else [])
    + (if cache.scissorRect != area then [Scissor(area.x, area.y, area.width, area.height)] else [])
  }

  /** The cache once the target is bound: the same framebuffer, viewport and scissor. */
  function Bound(cache: StateCache, fb: Handle, area: Rect): StateCache {
    cache.(glFramebuffer := fb, viewport := area, scissorRect := area)
  }

  // ---------------------------------------------------------------- color clears

  predicate IsColorClear(a: ColorAttachment) {
    a.format != UNKNOWN && a.loadOp == LoadOp.Clear
  }

  /** Whether one of the first `n` color attachments is cleared. */
  predicate ColorCleared(atts: seq<ColorAttachment>, n: nat)
    requires n <= |atts|
  {
    exists j :: 0 <= j < n && IsColorClear(atts[j])
  }

  /** Every cleared attachment among the first `n` has a clear color to read. */
  predicate HasClearColor(atts: seq<ColorAttachment>, n: nat, clearColors: seq<Color>)
    requires n <= |atts|
  {
    forall j :: 0 <= j < n && IsColorClear(atts[j]) ==> |clearColors| > 0
  }

  /** What one cleared attachment issues: unmask all channels if the cache masks any, then set the color. */
  function ColorClearOf(mask: ColorMask, c: Color): seq<GLCall> {
    (if mask != COLOR_MASK_ALL then [ColorMask(true, true, true, true)] else []) + [ClearColor(c.x, c.y, c.z, c.w)]
  }

  /** The calls of the clear loop over the first `n` color attachments. */
  function ColorClearCalls(atts: seq<ColorAttachment>, n: nat, mask: ColorMask, clearColors: seq<Color>): seq<GLCall>
    requires n <= |atts| && HasClearColor(atts, n, clearColors)
  {
    if n == 0 then []
    else (ColorClearCalls(atts, n - 1, mask, clearColors)
          + (if IsColorClear(atts[n - 1]) then ColorClearOf(mask, clearColors[0]) else []))
  }

  /** The source's clear loop, returning the calls it issues and whether it set the color bit. */
  method ColorClears(atts: seq<ColorAttachment>, count: nat, mask: ColorMask, clearColors: seq<Color>)
    returns (calls: seq<GLCall>, cleared: bool)
    requires count <= |atts| && HasClearColor(atts, count, clearColors)
    ensures calls == ColorClearCalls(atts, count, mask, clearColors)
    ensures cleared == ColorCleared(atts, count)
  {
    calls := [];
    cleared := false;
    var j := 0;
    while j < count
      invariant 0 <= j <= count
      invariant calls == ColorClearCalls(atts, j, mask, clearColors)
      invariant cleared == ColorCleared(atts, j)
    {
      var a := atts[j];
      if a.format != UNKNOWN {
        if a.loadOp == LoadOp.Clear {
          if mask != COLOR_MASK_ALL {
            calls := calls + [ColorMask(true, true, true, true)];
          }
          var c := clearColors[0];
          calls := calls + [ClearColor(c.x, c.y, c.z, c.w)];
          cleared := true;
        }
      }
      j := j + 1;
    }
  }

  /**
   * The loop issues one ClearColor per cleared attachment, always with the first clear color, and
   * unmasks channels only when the cached blend mask is not ALL.
   */
  lemma {:induction false} ColorClearsUseFirstColor(atts: seq<ColorAttachment>, n: nat, mask: ColorMask, clearColors: seq<Color>)
    requires n <= |atts| && HasClearColor(atts, n, clearColors)
    ensures var calls := ColorClearCalls(atts, n, mask, clearColors);
      (forall c :: c in calls && c.ClearColor? ==> (|clearColors| > 0 &&
         c == ClearColor(clearColors[0].x, clearColors[0].y, clearColors[0].z, clearColors[0].w))) &&
      (forall c :: c in calls ==> c.ClearColor? || c == ColorMask(true, true, true, true)) &&
      (mask == COLOR_MASK_ALL ==> forall c :: c in calls ==> c.ClearColor?) &&
      (calls == [] <==> !ColorCleared(atts, n))
  {
    if n > 0 {
      ColorClearsUseFirstColor(atts, n - 1, mask, clearColors);
      var prev := ColorClearCalls(atts, n - 1, mask, clearColors);
      var step := if IsColorClear(atts[n - 1]) then ColorClearOf(mask, clearColors[0]) else [];
      assert ColorClearCalls(atts, n, mask, clearColors) == prev + step;
      assert forall c :: c in prev + step <==> c in prev || c in step;
      if IsColorClear(atts[n - 1]) {
        assert step != [] && ColorCleared(atts, n);
      } else {
        assert ColorCleared(atts, n) == ColorCleared(atts, n - 1);
      }
    }
  }

  // ---------------------------------------------------------------- depth and stencil clears

  /** What the depth-stencil attachment clears, and the calls that prepare it. */
  datatype DepthStencilClear = DepthStencilClear(calls: seq<GLCall>, depth: bool, stencil: bool)

  /** Calls preparing a depth clear: unmask depth writes when the cache has them off, then set the value. */
  function DepthClearCalls(depthWrite: bool, clearDepth: real): (r: seq<GLCall>)
    ensures ClearDepth(clearDepth) in r && (DepthMask(true) in r <==> !depthWrite)
    ensures forall c :: c in r ==> c == ClearDepth(clearDepth) || c == DepthMask(true)
  {
    (if !depthWrite then [DepthMask(true)] else []) + [ClearDepth(clearDepth)]
  }

  /** Calls preparing a stencil clear: unmask each face whose cached write mask is 0, then set the value. */
  function StencilClearCalls(dss: DepthStencilState, clearStencil: int): (r: seq<GLCall>)
    ensures ClearStencil(clearStencil) in r
    ensures StencilMaskSeparate(FRONT, 0xffff) in r <==> dss.stencilWriteMaskFront == 0
    ensures StencilMaskSeparate(BACK, 0xffff) in r <==> dss.stencilWriteMaskBack == 0
    ensures forall c :: c in r ==> c == ClearStencil(clearStencil) || c == StencilMaskSeparate(FRONT, 0xffff) ||
                                   c == StencilMaskSeparate(BACK, 0xffff)
  {
    (if dss.stencilWriteMaskFront == 0 then [StencilMaskSeparate(FRONT, 0xffff)] else [])
    + (if dss.stencilWriteMaskBack == 0 then [StencilMaskSeparate(BACK, 0xffff)] else [])
    + [ClearStencil(clearStencil)]
  }

  /** The depth-stencil half of the clear: depth on CLEAR, stencil on CLEAR when the format has stencil. */
  function DepthStencilClears(dsa: Option<DepthStencilAttachment>, infos: Format -> FormatInfo,
                              dss: DepthStencilState, clearDepth: real, clearStencil: int): (r: DepthStencilClear)
    ensures r.depth <==> dsa.Some? && dsa.value.format != UNKNOWN && dsa.value.depthLoadOp == LoadOp.Clear
    ensures r.stencil <==> dsa.Some? && dsa.value.format != UNKNOWN && infos(dsa.value.format).hasStencil
                           && dsa.value.stencilLoadOp == LoadOp.Clear
  {
    if dsa.None? || dsa.value.format == UNKNOWN then DepthStencilClear([], false, false)
    else
      var a := dsa.value;
      var depth := a.depthLoadOp == LoadOp.Clear;
      var stencil := infos(a.format).hasStencil && a.stencilLoadOp == LoadOp.Clear;
      DepthStencilClear((if depth then DepthClearCalls(dss.depthWrite, clearDepth) else [])
                        + (if stencil then StencilClearCalls(dss, clearStencil) else []), depth, stencil)
  }

  /** The `clears` bit field. */
  function ClearMask(color: bool, depth: bool, stencil: bool): (r: nat)
    ensures r == 0 <==> !color && !depth && !stencil
  {
    (if color then COLOR_BUFFER_BIT else 0) + (if depth then DEPTH_BUFFER_BIT else 0)
    + (if stencil then STENCIL_BUFFER_BIT else 0)
  }

  /** The bit field holds the color, depth and stencil bits of exactly the buffers cleared. */
  lemma ClearMaskBits(color: bool, depth: bool, stencil: bool)
    ensures var r := ClearMask(color, depth, stencil);
      (HasBit(r, COLOR_BUFFER_BIT) <==> color) && (HasBit(r, DEPTH_BUFFER_BIT) <==> depth) &&
      (HasBit(r, STENCIL_BUFFER_BIT) <==> stencil)
  {
  }

  /** Put back the write masks the clears overrode, from the cached blend and depth-stencil state. */
  function RestoreCalls(color: bool, depth: bool, stencil: bool, mask: ColorMask, dss: DepthStencilState): seq<GLCall> {
    Optional(color && mask != COLOR_MASK_ALL, MaskCall(mask))
    + Optional(depth && !dss.depthWrite, DepthMask(false))
    + Optional(stencil && dss.stencilWriteMaskFront == 0, StencilMaskSeparate(FRONT, 0))
    + Optional(stencil && dss.stencilWriteMaskBack == 0, StencilMaskSeparate(BACK, 0))
  }

  /** What a source caller must provide: a color attachment for each visited slot, a color when one is cleared. */
  predicate PassReady(rp: RenderPass, drawBuffers: bool, clearColors: seq<Color>) {
    ClearCount(drawBuffers, |clearColors|) <= |rp.colorAttachments| &&
    HasClearColor(rp.colorAttachments, ClearCount(drawBuffers, |clearColors|), clearColors)
  }

  /** The clear half of a pass, with what each step decided. */
  datatype ClearPlan = ClearPlan(colorCalls: seq<GLCall>, color: bool, ds: DepthStencilClear, clears: nat, restore: seq<GLCall>)
  {
    /** Color preparation, depth-stencil preparation, the clear itself, then the restores. */
    function Calls(): seq<GLCall> {
      colorCalls + ds.calls + (if clears != 0 then [GLCall.Clear(clears)] else []) + restore
    }
  }

  /** Plan the clears from the cached blend mask and depth-stencil state. */
  function Plan(mask: ColorMask, dss: DepthStencilState, drawBuffers: bool, infos: Format -> FormatInfo, rp: RenderPass,
                clearColors: seq<Color>, clearDepth: real, clearStencil: int): (r: ClearPlan)
    requires PassReady(rp, drawBuffers, clearColors)
    ensures r.color == ColorCleared(rp.colorAttachments, ClearCount(drawBuffers, |clearColors|))
    ensures r.clears == ClearMask(r.color, r.ds.depth, r.ds.stencil)
  {
    var n := ClearCount(drawBuffers, |clearColors|);
    var color := ColorCleared(rp.colorAttachments, n);
    var ds := DepthStencilClears(rp.depthStencilAttachment, infos, dss, clearDepth, clearStencil);
    ClearPlan(ColorClearCalls(rp.colorAttachments, n, mask, clearColors), color, ds,
              ClearMask(color, ds.depth, ds.stencil), RestoreCalls(color, ds.depth, ds.stencil, mask, dss))
  }

  /** Everything a pass with a framebuffer and a render pass issues, in order. */
  function PassCalls(cache: StateCache, drawBuffers: bool, infos: Format -> FormatInfo, rp: RenderPass,
                     fb: Handle, area: Rect, clearColors: seq<Color>, clearDepth: real, clearStencil: int): seq<GLCall>
    requires PassReady(rp, drawBuffers, clearColors)
  {
    TargetCalls(cache, fb, area)
    + Plan(cache.bs.target0.blendColorMask, cache.dss, drawBuffers, infos, rp, clearColors, clearDepth, clearStencil).Calls()
  }

  /**
   * The body of a pass over a framebuffer with a render pass, on a snapshot of the cache: the calls it
   * issues, in order.
   */
  method PassBody(cache: StateCache, drawBuffers: bool, infos: Format -> FormatInfo, rp: RenderPass,
                  target: Handle, area: Rect, clearColors: seq<Color>, clearDepth: real, clearStencil: int)
    returns (calls: seq<GLCall>)
    requires PassReady(rp, drawBuffers, clearColors)
    ensures calls == PassCalls(cache, drawBuffers, infos, rp, target, area, clearColors, clearDepth, clearStencil)
  {
    calls := TargetBody(cache, target, area);
    var clearing := ClearBody(cache, drawBuffers, infos, rp, clearColors, clearDepth, clearStencil);
    calls := calls + clearing;
  }

  /** Bind the target and set the viewport and scissor, each only when the cache says it differs. */
  method TargetBody(cache: StateCache, target: Handle, area: Rect) returns (calls: seq<GLCall>)
    ensures calls == TargetCalls(cache, target, area)
  {
    calls := [];
    if cache.glFramebuffer != target {
      calls := calls + [BindFramebuffer(target)];
    }
    if cache.viewport != area {
      calls := calls + [GLCall.Viewport(area.x, area.y, area.width, area.height)];
    }
    if cache.scissorRect != area {
      calls := calls + [Scissor(area.x, area.y, area.width, area.height)];
    }
  }

  /** The clears of a pass and the restores of the masks they overrode, as `Plan` lays them out. */
  method ClearBody(cache: StateCache, drawBuffers: bool, infos: Format -> FormatInfo, rp: RenderPass,
                   clearColors: seq<Color>, clearDepth: real, clearStencil: int) returns (clearing: seq<GLCall>)
    requires PassReady(rp, drawBuffers, clearColors)
    ensures clearing == Plan(cache.bs.target0.blendColorMask, cache.dss, drawBuffers, infos, rp, clearColors,
                             clearDepth, clearStencil).Calls()
  {
    var clearCount := |clearColors|;
    if !drawBuffers {
      clearCount := 1;
    }
    var mask := cache.bs.target0.blendColorMask;
    var colorCalls, color := ColorClears(rp.colorAttachments, clearCount, mask, clearColors);
    var ds := DepthStencilClears(rp.depthStencilAttachment, infos, cache.dss, clearDepth, clearStencil);
    var clears := ClearMask(color, ds.depth, ds.stencil);
    clearing := colorCalls + ds.calls;
    if clears != 0 {
      clearing := clearing + [GLCall.Clear(clears)];
    }
    var restore := RestoreCalls(HasBit(clears, COLOR_BUFFER_BIT), HasBit(clears, DEPTH_BUFFER_BIT),
                                HasBit(clears, STENCIL_BUFFER_BIT), mask, cache.dss);
    clearing := clearing + restore;
    ClearMaskBits(color, ds.depth, ds.stencil);
    assert Plan(mask, cache.dss, drawBuffers, infos, rp, clearColors, clearDepth, clearStencil)
      == ClearPlan(colorCalls, color, ds, clears, restore);
  }

  method BeginRenderPass(dev: WebGLDevice, renderPass: Option<RenderPass>, fb: GPUFramebuffer?, renderArea: Rect,
                         clearColors: seq<Color>, clearDepth: real, clearStencil: int)
    requires fb != null && renderPass.Some? ==> PassReady(renderPass.value, dev.ext.drawBuffers, clearColors)
    modifies dev
    ensures dev.realRenderArea == if fb != null then RealArea(renderArea, fb.lodLevel) else old(dev.realRenderArea)
    ensures fb != null && renderPass.Some? ==>
      dev.cache == Bound(old(dev.cache), fb.glFramebuffer, dev.realRenderArea) &&
      dev.trace == old(dev.trace) + PassCalls(old(dev.cache), dev.ext.drawBuffers, dev.formatInfos, renderPass.value,
                                              fb.glFramebuffer, dev.realRenderArea, clearColors, clearDepth, clearStencil)
    ensures !(fb != null && renderPass.Some?) ==> dev.cache == old(dev.cache) && dev.trace == old(dev.trace)
    ensures dev.gfx == old(dev.gfx) && dev.log == old(dev.log) && dev.staging == old(dev.staging)
  {
    if fb != null {
      dev.realRenderArea := RealArea(renderArea, fb.lodLevel);
    }
    if fb != null && renderPass.Some? {
      var area := dev.realRenderArea;
      var calls := PassBody(dev.cache, dev.ext.drawBuffers, dev.formatInfos, renderPass.value, fb.glFramebuffer,
                            area, clearColors, clearDepth, clearStencil);
      dev.trace := dev.trace + calls;
      dev.cache := Bound(dev.cache, fb.glFramebuffer, area);
    }
  }

  // ---------------------------------------------------------------- properties

  /** The four native write masks a clear may override. */
  datatype MaskKind = ColorWrites | DepthWrites | FrontStencilWrites | BackStencilWrites

  predicate SetsMask(c: GLCall, k: MaskKind) {
    match k
    case ColorWrites => c.ColorMask?
    case DepthWrites => c.DepthMask?
    case FrontStencilWrites => c.StencilMaskSeparate? && c.face == FRONT
    case BackStencilWrites => c.StencilMaskSeparate? && c.face == BACK
  }

  /** The call that sets mask `k` to what the cached blend and depth-stencil state say. */
  function CachedMask(mask: ColorMask, dss: DepthStencilState, k: MaskKind): GLCall {
    match k
    case ColorWrites => MaskCall(mask)
    case DepthWrites => DepthMask(dss.depthWrite)
    case FrontStencilWrites => StencilMaskSeparate(FRONT, dss.stencilWriteMaskFront)
    case BackStencilWrites => StencilMaskSeparate(BACK, dss.stencilWriteMaskBack)
  }

  /** The last call in `calls` that sets mask `k`, if any. */
  function LastMask(calls: seq<GLCall>, k: MaskKind): Option<GLCall> {
    if |calls| == 0 then None
    else if SetsMask(calls[|calls| - 1], k) then Some(calls[|calls| - 1])
    else LastMask(calls[..|calls| - 1], k)
  }

  lemma {:induction false} LastMaskConcat(xs: seq<GLCall>, ys: seq<GLCall>, k: MaskKind)
    ensures LastMask(xs + ys, k) == if LastMask(ys, k).Some? then LastMask(ys, k) else LastMask(xs, k)
    decreases |ys|
  {
    if |ys| > 0 {
      assert (xs + ys)[..|xs + ys| - 1] == xs + ys[..|ys| - 1];
      LastMaskConcat(xs, ys[..|ys| - 1], k);
    } else {
      assert xs + ys == xs;
    }
  }

  /** Whether the clears override mask `k`, so that it has to be put back. */
  predicate Overridden(k: MaskKind, color: bool, depth: bool, stencil: bool, mask: ColorMask, dss: DepthStencilState) {
    match k
    case ColorWrites => color && mask != COLOR_MASK_ALL
    case DepthWrites => depth && !dss.depthWrite
    case FrontStencilWrites => stencil && dss.stencilWriteMaskFront == 0
    case BackStencilWrites => stencil && dss.stencilWriteMaskBack == 0
  }

  /** The restores end with each overridden mask set back to its cached value, and touch no other mask. */
  lemma RestoreSetsCached(color: bool, depth: bool, stencil: bool, mask: ColorMask, dss: DepthStencilState, k: MaskKind)
    ensures LastMask(RestoreCalls(color, depth, stencil, mask, dss), k)
      == if Overridden(k, color, depth, stencil, mask, dss) then Some(CachedMask(mask, dss, k)) else None
  {
    var bc, xc := color && mask != COLOR_MASK_ALL, MaskCall(mask);
    var bd, xd := depth && !dss.depthWrite, DepthMask(false);
    var bf, xf := stencil && dss.stencilWriteMaskFront == 0, StencilMaskSeparate(FRONT, 0);
    var bb, xb := stencil && dss.stencilWriteMaskBack == 0, StencilMaskSeparate(BACK, 0);
    var calls := Optional(bc, xc) + Optional(bd, xd) + Optional(bf, xf) + Optional(bb, xb);
    assert RestoreCalls(color, depth, stencil, mask, dss) == calls;
    LastOfFourOptional(bc, xc, bd, xd, bf, xf, bb, xb, k);
    match k
    case ColorWrites => assert LastMask(calls, k) == if bc then Some(xc) else None;
    case DepthWrites => assert LastMask(calls, k) == if bd then Some(xd) else None;
    case FrontStencilWrites => assert LastMask(calls, k) == if bf then Some(xf) else None;
    case BackStencilWrites => assert LastMask(calls, k) == if bb then Some(xb) else None;
  }

  /** The last call setting `k` among four optional calls is the last of them that is sent and sets it. */
  lemma LastOfFourOptional(bc: bool, xc: GLCall, bd: bool, xd: GLCall, bf: bool, xf: GLCall,
                           bb: bool, xb: GLCall, k: MaskKind)
    ensures LastMask(Optional(bc, xc) + Optional(bd, xd) + Optional(bf, xf) + Optional(bb, xb), k) ==
      if bb && SetsMask(xb, k) then Some(xb)
      else if bf && SetsMask(xf, k) then Some(xf)
      else if bd && SetsMask(xd, k) then Some(xd)
      else if bc && SetsMask(xc, k) then Some(xc)
      else None
  {
    LastOfFour(Optional(bc, xc), Optional(bd, xd), Optional(bf, xf), Optional(bb, xb), k);
    LastOptional(bb, xb, k);
    LastOptional(bf, xf, k);
    LastOptional(bd, xd, k);
    LastOptional(bc, xc, k);
  }

  lemma LastOptional(b: bool, x: GLCall, k: MaskKind)
    ensures LastMask(Optional(b, x), k) == if b && SetsMask(x, k) then Some(x) else None
  {
    if b {
      assert Optional(b, x)[..0] == [];
    }
  }

  /** The last call setting `k` in four short runs is the one of the last run that sets it. */
  lemma LastOfFour(c: seq<GLCall>, d: seq<GLCall>, f: seq<GLCall>, b: seq<GLCall>, k: MaskKind)
    ensures LastMask(c + d + f + b, k) ==
      if LastMask(b, k).Some? then LastMask(b, k)
      else if LastMask(f, k).Some? then LastMask(f, k)
      else if LastMask(d, k).Some? then LastMask(d, k)
      else LastMask(c, k)
  {
    LastMaskConcat(c + d + f, b, k);
    LastMaskConcat(c + d, f, k);
    LastMaskConcat(c, d, k);
  }

  /** The call LastMask finds is one of the calls, and sets mask `k`; when it finds none, no call does. */
  lemma {:induction false} LastMaskFound(calls: seq<GLCall>, k: MaskKind)
    ensures LastMask(calls, k).Some? ==> LastMask(calls, k).value in calls && SetsMask(LastMask(calls, k).value, k)
    ensures LastMask(calls, k).None? ==> forall c :: c in calls ==> !SetsMask(c, k)
    decreases |calls|
  {
    if |calls| > 0 && !SetsMask(calls[|calls| - 1], k) {
      var init := calls[..|calls| - 1];
      LastMaskFound(init, k);
      assert calls == init + [calls[|calls| - 1]];
    }
  }

  /** The calls before the restores: color and depth-stencil preparation and the clear. */
  function Preparation(p: ClearPlan): seq<GLCall> {
    p.colorCalls + p.ds.calls + (if p.clears != 0 then [GLCall.Clear(p.clears)] else [])
  }

  /** Color preparation sets the color mask only to override a partial cached mask. */
  predicate ColorOverrides(colorCalls: seq<GLCall>, color: bool, mask: ColorMask) {
    forall c :: c in colorCalls ==> c.ClearColor? || (c.ColorMask? && mask != COLOR_MASK_ALL && color)
  }

  /** Depth-stencil preparation opens only the write masks the cached state keeps closed. */
  predicate DepthStencilOverrides(ds: DepthStencilClear, dss: DepthStencilState) {
    forall c :: c in ds.calls ==> (!c.ColorMask? &&
      (c.DepthMask? ==> ds.depth && !dss.depthWrite) &&
      (c.StencilMaskSeparate? ==> (ds.stencil &&
         ((c.face == FRONT && dss.stencilWriteMaskFront == 0) || (c.face == BACK && dss.stencilWriteMaskBack == 0)))))
  }

  /** A preparation whose only mask calls are overrides the restores undo. */
  predicate OverridesRecorded(p: ClearPlan, mask: ColorMask, dss: DepthStencilState) {
    ColorOverrides(p.colorCalls, p.color, mask) && DepthStencilOverrides(p.ds, dss)
  }

  /** Any mask a recorded preparation overrides is one the restores put back. */
  lemma PreparationOverridden(p: ClearPlan, mask: ColorMask, dss: DepthStencilState, k: MaskKind)
    requires OverridesRecorded(p, mask, dss)
    ensures LastMask(Preparation(p), k).Some? ==> Overridden(k, p.color, p.ds.depth, p.ds.stencil, mask, dss)
  {
    var before := Preparation(p);
    if LastMask(before, k).Some? {
      var c := LastMask(before, k).value;
      LastMaskFound(before, k);
      assert c in p.colorCalls || c in p.ds.calls;
    }
  }

  /** Any mask the preparation of a clear overrides is one the plan restores. */
  lemma PrepareOverridesRestored(mask: ColorMask, dss: DepthStencilState, drawBuffers: bool, infos: Format -> FormatInfo,
                                 rp: RenderPass, clearColors: seq<Color>, clearDepth: real, clearStencil: int, k: MaskKind)
    requires PassReady(rp, drawBuffers, clearColors)
    ensures var p := Plan(mask, dss, drawBuffers, infos, rp, clearColors, clearDepth, clearStencil);
      LastMask(Preparation(p), k).Some? ==> LastMask(p.restore, k).Some?
  {
    var n := ClearCount(drawBuffers, |clearColors|);
    var p := Plan(mask, dss, drawBuffers, infos, rp, clearColors, clearDepth, clearStencil);
    var cc := ColorClearCalls(rp.colorAttachments, n, mask, clearColors);
    var ds := DepthStencilClears(rp.depthStencilAttachment, infos, dss, clearDepth, clearStencil);
    assert ColorOverrides(cc, ColorCleared(rp.colorAttachments, n), mask) by {
      ColorClearsUseFirstColor(rp.colorAttachments, n, mask, clearColors);
    }
    assert DepthStencilOverrides(ds, dss) by {
      DepthStencilCallKinds(rp.depthStencilAttachment, infos, dss, clearDepth, clearStencil);
    }
    assert p.colorCalls == cc && p.ds == ds;
    PreparationOverridden(p, mask, dss, k);
    RestoreSetsCached(p.color, p.ds.depth, p.ds.stencil, mask, dss, k);
  }

  /**
   * After a pass the last color, depth and stencil write mask it sets, if any, is the one the state
   * cache records, so the cache stays truthful about the native masks.
   */
  lemma PassRestoresMasks(cache: StateCache, drawBuffers: bool, infos: Format -> FormatInfo, rp: RenderPass,
                          fb: Handle, area: Rect, clearColors: seq<Color>, clearDepth: real, clearStencil: int, k: MaskKind)
    requires PassReady(rp, drawBuffers, clearColors)
    ensures var last := LastMask(PassCalls(cache, drawBuffers, infos, rp, fb, area, clearColors, clearDepth, clearStencil), k);
      last.None? || last == Some(CachedMask(cache.bs.target0.blendColorMask, cache.dss, k))
  {
    var mask := cache.bs.target0.blendColorMask;
    var p := Plan(mask, cache.dss, drawBuffers, infos, rp, clearColors, clearDepth, clearStencil);
    var target := TargetCalls(cache, fb, area);
    var before := Preparation(p);
    assert PassCalls(cache, drawBuffers, infos, rp, fb, area, clearColors, clearDepth, clearStencil) == target + p.Calls();
    assert p.Calls() == before + p.restore;
    PrepareOverridesRestored(mask, cache.dss, drawBuffers, infos, rp, clearColors, clearDepth, clearStencil, k);
    RestoreSetsCached(p.color, p.ds.depth, p.ds.stencil, mask, cache.dss, k);
    LastMaskConcat(target, p.Calls(), k);
    LastMaskConcat(before, p.restore, k);
    assert LastMask(target, k).None? by {
      LastMaskFound(target, k);
    }
  }

  /**
   * Depth-stencil preparation only sets depth and stencil state, unmasks depth writes only for a depth
   * clear with writes cached off, and unmasks a stencil face only for a stencil clear with that face's
   * cached write mask 0.
   */
  lemma DepthStencilCallKinds(dsa: Option<DepthStencilAttachment>, infos: Format -> FormatInfo,
                              dss: DepthStencilState, clearDepth: real, clearStencil: int)
    ensures var ds := DepthStencilClears(dsa, infos, dss, clearDepth, clearStencil);
      forall c :: c in ds.calls ==>
        (c.DepthMask? || c.ClearDepth? || c.StencilMaskSeparate? || c.ClearStencil?) &&
        (c.DepthMask? ==> ds.depth && !dss.depthWrite && c.flag) &&
        (c.StencilMaskSeparate? ==> (ds.stencil && c.mask == 0xffff &&
           ((c.face == FRONT && dss.stencilWriteMaskFront == 0) || (c.face == BACK && dss.stencilWriteMaskBack == 0))))
  {
    var ds := DepthStencilClears(dsa, infos, dss, clearDepth, clearStencil);
    if ds.calls != [] {
      var depthCalls := if ds.depth then DepthClearCalls(dss.depthWrite, clearDepth) else [];
      var stencilCalls := if ds.stencil then StencilClearCalls(dss, clearStencil) else [];
      assert ds.calls == depthCalls + stencilCalls;
      forall c | c in ds.calls
        ensures (c.DepthMask? || c.ClearDepth? || c.StencilMaskSeparate? || c.ClearStencil?) &&
          (c.DepthMask? ==> ds.depth && !dss.depthWrite && c.flag) &&
          (c.StencilMaskSeparate? ==> (ds.stencil && c.mask == 0xffff &&
             ((c.face == FRONT && dss.stencilWriteMaskFront == 0) || (c.face == BACK && dss.stencilWriteMaskBack == 0))))
      {
        if c in depthCalls {
          assert ds.depth;
          assert c == ClearDepth(clearDepth) || c == DepthMask(true);
          if c.DepthMask? {
            assert DepthMask(true) in depthCalls;
          }
        } else {
          assert c in stencilCalls && ds.stencil;
          var front, back := StencilMaskSeparate(FRONT, 0xffff), StencilMaskSeparate(BACK, 0xffff);
          assert c == ClearStencil(clearStencil) || c == front || c == back;
          if c == front {
            assert front in stencilCalls;
          } else if c == back {
            assert back in stencilCalls;
          }
        }
      }
    }
  }

  /** The clear half of a pass never rebinds the target, and its only Clear is the planned one. */
  lemma PlanCallKinds(p: ClearPlan)
    requires forall c :: c in p.colorCalls ==> c.ClearColor? || c.ColorMask?
    requires forall c :: c in p.ds.calls ==> c.DepthMask? || c.ClearDepth? || c.StencilMaskSeparate? || c.ClearStencil?
    requires forall c :: c in p.restore ==> c.ColorMask? || c.DepthMask? || c.StencilMaskSeparate?
    ensures forall c :: c in p.Calls() ==> (!c.BindFramebuffer? && !c.Viewport? && !c.Scissor? &&
                                           (c.Clear? ==> p.clears != 0 && c == GLCall.Clear(p.clears)))
    ensures p.clears != 0 ==> GLCall.Clear(p.clears) in p.Calls()
  {
    var clearCall := if p.clears != 0 then [GLCall.Clear(p.clears)] else [];
    assert p.Calls() == p.colorCalls + p.ds.calls + clearCall + p.restore;
  }

  /** What the planned clear half of a pass is made of. */
  lemma PlanKinds(mask: ColorMask, dss: DepthStencilState, drawBuffers: bool, infos: Format -> FormatInfo,
                  rp: RenderPass, clearColors: seq<Color>, clearDepth: real, clearStencil: int)
    requires PassReady(rp, drawBuffers, clearColors)
    ensures var p := Plan(mask, dss, drawBuffers, infos, rp, clearColors, clearDepth, clearStencil);
      (forall c :: c in p.Calls() ==> (!c.BindFramebuffer? && !c.Viewport? && !c.Scissor? &&
                                      (c.Clear? ==> p.clears != 0 && c == GLCall.Clear(p.clears)))) &&
      (p.clears != 0 ==> GLCall.Clear(p.clears) in p.Calls())
  {
    var p := Plan(mask, dss, drawBuffers, infos, rp, clearColors, clearDepth, clearStencil);
    ColorClearsUseFirstColor(rp.colorAttachments, ClearCount(drawBuffers, |clearColors|), mask, clearColors);
    DepthStencilCallKinds(rp.depthStencilAttachment, infos, dss, clearDepth, clearStencil);
    RestoreCallKinds(p.color, p.ds.depth, p.ds.stencil, mask, dss);
    PlanCallKinds(p);
  }

  lemma RestoreCallKinds(color: bool, depth: bool, stencil: bool, mask: ColorMask, dss: DepthStencilState)
    ensures forall c :: c in RestoreCalls(color, depth, stencil, mask, dss) ==>
      c.ColorMask? || c.DepthMask? || c.StencilMaskSeparate?
  {
  }

  /**
   * A pass repeated on the same target right after the first issues no bind, viewport or
   * scissor call: only its clears and restores.
   */
  lemma RepeatedPassOnlyClears(cache: StateCache, drawBuffers: bool, infos: Format -> FormatInfo, rp: RenderPass,
                               fb: Handle, area: Rect, clearColors: seq<Color>, clearDepth: real, clearStencil: int)
    requires PassReady(rp, drawBuffers, clearColors)
    ensures var again := PassCalls(Bound(cache, fb, area), drawBuffers, infos, rp, fb, area, clearColors, clearDepth, clearStencil);
      var first := PassCalls(cache, drawBuffers, infos, rp, fb, area, clearColors, clearDepth, clearStencil);
      first == TargetCalls(cache, fb, area) + again &&
      forall c :: c in again ==> !c.BindFramebuffer? && !c.Viewport? && !c.Scissor?
  {
    var mask := cache.bs.target0.blendColorMask;
    var p := Plan(mask, cache.dss, drawBuffers, infos, rp, clearColors, clearDepth, clearStencil);
    var again := PassCalls(Bound(cache, fb, area), drawBuffers, infos, rp, fb, area, clearColors, clearDepth, clearStencil);
    assert TargetCalls(Bound(cache, fb, area), fb, area) == [];
    assert again == [] + p.Calls();
    assert again == p.Calls();
    PlanKinds(mask, cache.dss, drawBuffers, infos, rp, clearColors, clearDepth, clearStencil);
  }

  /**
   * A pass issues one Clear exactly when some attachment asks for CLEAR, and its bit field holds the
   * color, depth and stencil bits of exactly the attachments that ask (stencil only with stencil bits).
   */
  lemma PassClearsRequested(cache: StateCache, drawBuffers: bool, infos: Format -> FormatInfo, rp: RenderPass,
                            fb: Handle, area: Rect, clearColors: seq<Color>, clearDepth: real, clearStencil: int)
    requires PassReady(rp, drawBuffers, clearColors)
    ensures var calls := PassCalls(cache, drawBuffers, infos, rp, fb, area, clearColors, clearDepth, clearStencil);
      var dsa := rp.depthStencilAttachment;
      var color := ColorCleared(rp.colorAttachments, ClearCount(drawBuffers, |clearColors|));
      var depth := dsa.Some? && dsa.value.format != UNKNOWN && dsa.value.depthLoadOp == LoadOp.Clear;
      var stencil := dsa.Some? && dsa.value.format != UNKNOWN && infos(dsa.value.format).hasStencil
                     && dsa.value.stencilLoadOp == LoadOp.Clear;
      (forall c :: c in calls && c.Clear? ==> c.mask == ClearMask(color, depth, stencil)) &&
      ((exists c :: c in calls && c.Clear?) <==> color || depth || stencil)
  {
    var mask := cache.bs.target0.blendColorMask;
    var p := Plan(mask, cache.dss, drawBuffers, infos, rp, clearColors, clearDepth, clearStencil);
    var target := TargetCalls(cache, fb, area);
    PlanKinds(mask, cache.dss, drawBuffers, infos, rp, clearColors, clearDepth, clearStencil);
    ClearsOfConcat(target, p.Calls(), p.clears);
    var dsa := rp.depthStencilAttachment;
    assert p.ds == DepthStencilClears(dsa, infos, cache.dss, clearDepth, clearStencil);
  }

  /** Calls with no Clear, followed by calls whose Clears all carry `clears`, one of them when it is non-zero. */
  lemma ClearsOfConcat(target: seq<GLCall>, rest: seq<GLCall>, clears: nat)
    requires forall c :: c in target ==> !c.Clear?
    requires forall c :: c in rest ==> (c.Clear? ==> clears != 0 && c == GLCall.Clear(clears))
    requires clears != 0 ==> GLCall.Clear(clears) in rest
    ensures forall c :: c in target + rest && c.Clear? ==> c.mask == clears
    ensures (exists c :: c in target + rest && c.Clear?) <==> clears != 0
  {
    if clears != 0 {
      assert GLCall.Clear(clears) in target + rest;
    }
  }
}

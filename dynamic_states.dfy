/**
 * The last part of WebGLCmdFuncBindStates: the dynamic states a pipeline declares are taken from
 * the command buffer's recorded values, each sent only where the state cache holds another value.
 */
module DynamicStateBinding {
  import opened Wrappers
  import opened GL
  import opened Formats
  import opened Objects
  import opened NativeState
  import opened PipelineBinding

  /** One dynamic state: its calls and the cache after it. Depth bounds are not applied in WebGL. */
  function DynamicStep(c: StateCache, f: DynamicStateFlag, ds: DynamicStates): (StateCache, seq<GLCall>) {
    match f
    case LineWidthFlag =>
      (c.(rs := c.rs.(lineWidth := ds.lineWidth)),
       Optional(c.rs.lineWidth != ds.lineWidth, GLCall.LineWidth(ds.lineWidth)))
    case DepthBiasFlag =>
      (c.(rs := c.rs.(depthBias := ds.depthBiasConstant, depthBiasSlop := ds.depthBiasSlope)),
       Optional(c.rs.depthBias != ds.depthBiasConstant || c.rs.depthBiasSlop != ds.depthBiasSlope,
                PolygonOffset(ds.depthBiasConstant, ds.depthBiasSlope)))
    case BlendConstantsFlag =>
      var k := ds.blendConstant;
      (c.(bs := c.bs.(blendColor := k)),
       Optional(c.bs.blendColor != k, BlendColor(k.x, k.y, k.z, k.w)))
    case StencilWriteMaskFlag =>
      var front, back := ds.stencilStatesFront, ds.stencilStatesBack;
      (c.(dss := c.dss.(stencilWriteMaskFront := front.writeMask, stencilWriteMaskBack := back.writeMask)),
       Optional(c.dss.stencilWriteMaskFront != front.writeMask, StencilMaskSeparate(FRONT, front.writeMask))
       + Optional(c.dss.stencilWriteMaskBack != back.writeMask, StencilMaskSeparate(BACK, back.writeMask)))
    case StencilCompareMaskFlag =>
      var front, back := ds.stencilStatesFront, ds.stencilStatesBack;
      (c.(dss := c.dss.(stencilRefFront := front.reference, stencilReadMaskFront := front.compareMask,
                        stencilRefBack := back.reference, stencilReadMaskBack := back.compareMask)),
       Optional(c.dss.stencilRefFront != front.reference || c.dss.stencilReadMaskFront != front.compareMask,
                StencilFuncSeparate(FRONT, GLCmpFunc(c.dss.stencilFuncFront), front.reference, front.compareMask))
       + Optional(c.dss.stencilRefBack != back.reference || c.dss.stencilReadMaskBack != back.compareMask,
                  StencilFuncSeparate(BACK, GLCmpFunc(c.dss.stencilFuncBack), back.reference, back.compareMask)))
    case DepthBoundsFlag => (c, [])
  }

  /** The dynamic states `flags[j..]`, in order. */
  function Dynamics(c: StateCache, flags: seq<DynamicStateFlag>, ds: DynamicStates, j: nat): (StateCache, seq<GLCall>)
    decreases |flags| - j
  {
    if j >= |flags| then (c, [])
    else
      var s := DynamicStep(c, flags[j], ds);
      var rest := Dynamics(s.0, flags, ds, j + 1);
      (rest.0, s.1 + rest.1)
  }

  lemma DynamicsUnfold(c: StateCache, flags: seq<DynamicStateFlag>, ds: DynamicStates, j: nat)
    requires j < |flags|
    ensures var s := DynamicStep(c, flags[j], ds);
      && Dynamics(c, flags, ds, j).0 == Dynamics(s.0, flags, ds, j + 1).0
      && Dynamics(c, flags, ds, j).1 == s.1 + Dynamics(s.0, flags, ds, j + 1).1
  {
  }

  /**
   * The cache every declared dynamic state has been written into, in no particular order: a
   * field a declared state covers holds the recorded value, any other keeps the cached one.
   */
  function Applied(c: StateCache, flags: seq<DynamicStateFlag>, ds: DynamicStates): StateCache {
    var front, back := ds.stencilStatesFront, ds.stencilStatesBack;
    var lw, db, bc := LineWidthFlag in flags, DepthBiasFlag in flags, BlendConstantsFlag in flags;
    var wm, cm := StencilWriteMaskFlag in flags, StencilCompareMaskFlag in flags;
    c.(rs := c.rs.(lineWidth := if lw then ds.lineWidth else c.rs.lineWidth,
                   depthBias := if db then ds.depthBiasConstant else c.rs.depthBias,
                   depthBiasSlop := if db then ds.depthBiasSlope else c.rs.depthBiasSlop),
       bs := c.bs.(blendColor := if bc then ds.blendConstant else c.bs.blendColor),
       dss := c.dss.(stencilWriteMaskFront := if wm then front.writeMask else c.dss.stencilWriteMaskFront,
                     stencilWriteMaskBack := if wm then back.writeMask else c.dss.stencilWriteMaskBack,
                     stencilRefFront := if cm then front.reference else c.dss.stencilRefFront,
                     stencilReadMaskFront := if cm then front.compareMask else c.dss.stencilReadMaskFront,
                     stencilRefBack := if cm then back.reference else c.dss.stencilRefBack,
                     stencilReadMaskBack := if cm then back.compareMask else c.dss.stencilReadMaskBack))
  }

  /** Writing one more declared state into a cache is the same as declaring it too. */
  lemma AppliedStep(c: StateCache, f: DynamicStateFlag, flags: seq<DynamicStateFlag>, ds: DynamicStates)
    ensures Applied(DynamicStep(c, f, ds).0, flags, ds) == Applied(c, [f] + flags, ds)
  {
    assert f in [f] + flags;
    assert forall g :: g in [f] + flags <==> g == f || g in flags;
  }

  /**
   * After the loop the cache holds exactly the recorded values of the declared dynamic states,
   * and nothing else in it has changed.
   */
  lemma {:induction false} DynamicsCache(c: StateCache, flags: seq<DynamicStateFlag>, ds: DynamicStates, j: nat)
    requires j <= |flags|
    ensures Dynamics(c, flags, ds, j).0 == Applied(c, flags[j..], ds)
    decreases |flags| - j
  {
    if j == |flags| {
      assert flags[j..] == [];
    } else {
      var s := DynamicStep(c, flags[j], ds);
      DynamicsCache(s.0, flags, ds, j + 1);
      AppliedStep(c, flags[j], flags[j + 1..], ds);
      assert flags[j..] == [flags[j]] + flags[j + 1..];
    }
  }

  /** A state whose cached fields already hold the recorded values sends nothing. */
  lemma StepSettled(c: StateCache, f: DynamicStateFlag, flags: seq<DynamicStateFlag>, ds: DynamicStates)
    requires f in flags && Applied(c, flags, ds) == c
    ensures DynamicStep(c, f, ds) == (c, [])
  {
    var a := Applied(c, flags, ds);
    assert a.rs == c.rs && a.bs == c.bs && a.dss == c.dss;
    match f
    case LineWidthFlag =>
      assert c.rs.lineWidth == ds.lineWidth;
    case DepthBiasFlag =>
      assert c.rs.depthBias == ds.depthBiasConstant && c.rs.depthBiasSlop == ds.depthBiasSlope;
    case BlendConstantsFlag =>
      assert c.bs.blendColor == ds.blendConstant;
    case StencilWriteMaskFlag =>
      assert c.dss.stencilWriteMaskFront == ds.stencilStatesFront.writeMask;
      assert c.dss.stencilWriteMaskBack == ds.stencilStatesBack.writeMask;
      assert DynamicStep(c, f, ds).0 == c;
      assert DynamicStep(c, f, ds).1 == [];
    case StencilCompareMaskFlag =>
      assert c.dss.stencilRefFront == ds.stencilStatesFront.reference;
      assert c.dss.stencilReadMaskFront == ds.stencilStatesFront.compareMask;
      assert c.dss.stencilRefBack == ds.stencilStatesBack.reference;
      assert c.dss.stencilReadMaskBack == ds.stencilStatesBack.compareMask;
      assert DynamicStep(c, f, ds).0 == c;
      assert DynamicStep(c, f, ds).1 == [];
    case DepthBoundsFlag =>
  }

  lemma {:induction false} DynamicsSettled(c: StateCache, flags: seq<DynamicStateFlag>, ds: DynamicStates, j: nat)
    requires Applied(c, flags, ds) == c
    ensures Dynamics(c, flags, ds, j) == (c, [])
    decreases |flags| - j
  {
    if j < |flags| {
      StepSettled(c, flags[j], flags, ds);
      DynamicsSettled(c, flags, ds, j + 1);
      DynamicsUnfold(c, flags, ds, j);
      assert Dynamics(c, flags, ds, j).1 == [] + [];
    }
  }

  /** Applying the same dynamic states a second time sends nothing and changes nothing. */
  lemma DynamicsRepeat(c: StateCache, flags: seq<DynamicStateFlag>, ds: DynamicStates)
    ensures var r := Dynamics(c, flags, ds, 0);
      Dynamics(r.0, flags, ds, 0) == (r.0, [])
  {
    DynamicsCache(c, flags, ds, 0);
    assert flags[0..] == flags;
    DynamicsSettled(Applied(c, flags, ds), flags, ds, 0);
  }

  // ---------------------------------------------------------------- against the native context

  /** `m` differs from `n` at most in the state dynamic states cover. */
  predicate OnlyDynamicChanged(n: Native, m: Native) {
    m == n.(raster := n.raster.(polygonOffset := m.raster.polygonOffset, lineWidth := m.raster.lineWidth),
            blend := n.blend.(blendColor := m.blend.blendColor),
            depthStencil := n.depthStencil.(
              front := n.depthStencil.front.(func := m.depthStencil.front.func, writeMask := m.depthStencil.front.writeMask),
              back := n.depthStencil.back.(func := m.depthStencil.back.func, writeMask := m.depthStencil.back.writeMask)))
  }

  lemma RunTwo(n: Native, b1: bool, x1: GLCall, b2: bool, x2: GLCall)
    ensures var n1 := if b1 then Step(n, x1) else n;
      Run(n, Optional(b1, x1) + Optional(b2, x2)) == if b2 then Step(n1, x2) else n1
  {
    var n1 := if b1 then Step(n, x1) else n;
    RunOptional(n, b1, x1);
    RunOptional(n1, b2, x2);
    RunConcat(n, Optional(b1, x1), Optional(b2, x2));
  }

  lemma LineWidthSound(n: Native, c: StateCache, ds: DynamicStates)
    requires CacheMatches(n, c)
    ensures var s := DynamicStep(c, LineWidthFlag, ds);
      CacheMatches(Run(n, s.1), s.0) && OnlyDynamicChanged(n, Run(n, s.1))
  {
    RunOptional(n, c.rs.lineWidth != ds.lineWidth, GLCall.LineWidth(ds.lineWidth));
  }

  lemma DepthBiasSound(n: Native, c: StateCache, ds: DynamicStates)
    requires CacheMatches(n, c)
    ensures var s := DynamicStep(c, DepthBiasFlag, ds);
      CacheMatches(Run(n, s.1), s.0) && OnlyDynamicChanged(n, Run(n, s.1))
  {
    RunOptional(n, c.rs.depthBias != ds.depthBiasConstant || c.rs.depthBiasSlop != ds.depthBiasSlope,
                PolygonOffset(ds.depthBiasConstant, ds.depthBiasSlope));
  }

  lemma BlendConstantsSound(n: Native, c: StateCache, ds: DynamicStates)
    requires CacheMatches(n, c)
    ensures var s := DynamicStep(c, BlendConstantsFlag, ds);
      CacheMatches(Run(n, s.1), s.0) && OnlyDynamicChanged(n, Run(n, s.1))
  {
    var k := ds.blendConstant;
    RunOptional(n, c.bs.blendColor != k, BlendColor(k.x, k.y, k.z, k.w));
  }

  /** Setting both native write masks to the cached ones keeps the depth-stencil cache truthful. */
  lemma WriteMasksMatch(n: Native, d: DepthStencilState, fm: int, bm: int)
    requires DepthStencilMatches(n, d)
    ensures var m := WithWriteMasks(n, fm, bm);
      && DepthStencilMatches(m, d.(stencilWriteMaskFront := fm, stencilWriteMaskBack := bm))
      && OnlyDepthStencilChanged(n, m) && OnlyDynamicChanged(n, m)
  {
    var d1 := d.(stencilWriteMaskFront := fm, stencilWriteMaskBack := bm);
    assert FrontSide(d1) == FrontSide(d).(writeMask := fm);
    assert BackSide(d1) == BackSide(d).(writeMask := bm);
  }

  /** The native state after both write masks are set. */
  function WithWriteMasks(n: Native, fm: int, bm: int): Native {
    n.(depthStencil := n.depthStencil.(front := n.depthStencil.front.(writeMask := fm),
                                       back := n.depthStencil.back.(writeMask := bm)))
  }

  /** The write-mask calls, each sent only where the cached mask differs. */
  function WriteMaskCalls(c: StateCache, fm: int, bm: int): seq<GLCall> {
    Optional(c.dss.stencilWriteMaskFront != fm, StencilMaskSeparate(FRONT, fm))
    + Optional(c.dss.stencilWriteMaskBack != bm, StencilMaskSeparate(BACK, bm))
  }

  lemma WriteMaskRun(n: Native, c: StateCache, fm: int, bm: int)
    requires n.depthStencil.front.writeMask == c.dss.stencilWriteMaskFront
    requires n.depthStencil.back.writeMask == c.dss.stencilWriteMaskBack
    ensures Run(n, WriteMaskCalls(c, fm, bm)) == WithWriteMasks(n, fm, bm)
  {
    var b1, b2 := c.dss.stencilWriteMaskFront != fm, c.dss.stencilWriteMaskBack != bm;
    RunTwo(n, b1, StencilMaskSeparate(FRONT, fm), b2, StencilMaskSeparate(BACK, bm));
    var n1 := if b1 then Step(n, StencilMaskSeparate(FRONT, fm)) else n;
    StepStencilMask(n, true, fm);
    assert n1 == n.(depthStencil := n.depthStencil.(front := n.depthStencil.front.(writeMask := fm)));
    StepStencilMask(n1, false, bm);
  }

  /** The write-mask calls touch only the write masks, and only of the faces whose mask differs. */
  lemma StencilWriteMaskSound(n: Native, c: StateCache, ds: DynamicStates)
    requires CacheMatches(n, c)
    ensures var s := DynamicStep(c, StencilWriteMaskFlag, ds);
      CacheMatches(Run(n, s.1), s.0) && OnlyDynamicChanged(n, Run(n, s.1))
  {
    var fm, bm := ds.stencilStatesFront.writeMask, ds.stencilStatesBack.writeMask;
    var s := DynamicStep(c, StencilWriteMaskFlag, ds);
    assert s.1 == WriteMaskCalls(c, fm, bm);
    assert s.0 == c.(dss := c.dss.(stencilWriteMaskFront := fm, stencilWriteMaskBack := bm));
    WriteMaskRun(n, c, fm, bm);
    WriteMasksMatch(n, c.dss, fm, bm);
    AfterDepthStencil(n, WithWriteMasks(n, fm, bm), c.rs, c.bs);
  }

  /** `OnlyDynamicChanged` composes. */
  lemma OnlyDynamicTrans(n: Native, m: Native, k: Native)
    requires OnlyDynamicChanged(n, m) && OnlyDynamicChanged(m, k)
    ensures OnlyDynamicChanged(n, k)
  {
  }

  /** The front compare call sets the front reference and mask together, with the cached function. */
  lemma CompareFrontSound(n: Native, c: StateCache, ref: int, mask: int)
    requires CacheMatches(n, c)
    ensures var b := c.dss.stencilRefFront != ref || c.dss.stencilReadMaskFront != mask;
      var m := Run(n, Optional(b, StencilFuncSeparate(FRONT, GLCmpFunc(c.dss.stencilFuncFront), ref, mask)));
      CacheMatches(m, c.(dss := c.dss.(stencilRefFront := ref, stencilReadMaskFront := mask))) && OnlyDynamicChanged(n, m)
  {
    var b := c.dss.stencilRefFront != ref || c.dss.stencilReadMaskFront != mask;
    var x := StencilFuncSeparate(FRONT, GLCmpFunc(c.dss.stencilFuncFront), ref, mask);
    RunOptional(n, b, x);
    var m := if b then Step(n, x) else n;
    assert m == n.(depthStencil := n.depthStencil.(front := n.depthStencil.front.(
                   func := if b then StencilFunc(GLCmpFunc(c.dss.stencilFuncFront), ref, mask) else n.depthStencil.front.func)));
    var c1 := c.(dss := c.dss.(stencilRefFront := ref, stencilReadMaskFront := mask));
    assert FrontSide(c1.dss) == FrontSide(c.dss).(ref := ref, readMask := mask);
    assert BackSide(c1.dss) == BackSide(c.dss);
    AfterDepthStencil(n, m, c.rs, c.bs);
  }

  lemma CompareBackSound(n: Native, c: StateCache, ref: int, mask: int)
    requires CacheMatches(n, c)
    ensures var b := c.dss.stencilRefBack != ref || c.dss.stencilReadMaskBack != mask;
      var m := Run(n, Optional(b, StencilFuncSeparate(BACK, GLCmpFunc(c.dss.stencilFuncBack), ref, mask)));
      CacheMatches(m, c.(dss := c.dss.(stencilRefBack := ref, stencilReadMaskBack := mask))) && OnlyDynamicChanged(n, m)
  {
    var b := c.dss.stencilRefBack != ref || c.dss.stencilReadMaskBack != mask;
    var x := StencilFuncSeparate(BACK, GLCmpFunc(c.dss.stencilFuncBack), ref, mask);
    RunOptional(n, b, x);
    var m := if b then Step(n, x) else n;
    assert m == n.(depthStencil := n.depthStencil.(back := n.depthStencil.back.(
                   func := if b then StencilFunc(GLCmpFunc(c.dss.stencilFuncBack), ref, mask) else n.depthStencil.back.func)));
    var c1 := c.(dss := c.dss.(stencilRefBack := ref, stencilReadMaskBack := mask));
    assert BackSide(c1.dss) == BackSide(c.dss).(ref := ref, readMask := mask);
    assert FrontSide(c1.dss) == FrontSide(c.dss);
    AfterDepthStencil(n, m, c.rs, c.bs);
  }

  /** The compare-mask calls set reference and mask together, keeping each face's cached function. */
  lemma StencilCompareMaskSound(n: Native, c: StateCache, ds: DynamicStates)
    requires CacheMatches(n, c)
    ensures var s := DynamicStep(c, StencilCompareMaskFlag, ds);
      CacheMatches(Run(n, s.1), s.0) && OnlyDynamicChanged(n, Run(n, s.1))
  {
    var front, back := ds.stencilStatesFront, ds.stencilStatesBack;
    var b1 := c.dss.stencilRefFront != front.reference || c.dss.stencilReadMaskFront != front.compareMask;
    var b2 := c.dss.stencilRefBack != back.reference || c.dss.stencilReadMaskBack != back.compareMask;
    var q1 := Optional(b1, StencilFuncSeparate(FRONT, GLCmpFunc(c.dss.stencilFuncFront), front.reference, front.compareMask));
    var q2 := Optional(b2, StencilFuncSeparate(BACK, GLCmpFunc(c.dss.stencilFuncBack), back.reference, back.compareMask));
    CompareFrontSound(n, c, front.reference, front.compareMask);
    var c1 := c.(dss := c.dss.(stencilRefFront := front.reference, stencilReadMaskFront := front.compareMask));
    var n1 := Run(n, q1);
    CompareBackSound(n1, c1, back.reference, back.compareMask);
    assert c1.dss.stencilFuncBack == c.dss.stencilFuncBack && c1.dss.stencilRefBack == c.dss.stencilRefBack;
    assert c1.dss.stencilReadMaskBack == c.dss.stencilReadMaskBack;
    RunConcat(n, q1, q2);
    OnlyDynamicTrans(n, n1, Run(n1, q2));
    assert DynamicStep(c, StencilCompareMaskFlag, ds) ==
      (c1.(dss := c1.dss.(stencilRefBack := back.reference, stencilReadMaskBack := back.compareMask)), q1 + q2);
  }

  /** From a truthful cache, one dynamic state leaves the cache truthful and touches only its state. */
  lemma StepSound(n: Native, c: StateCache, f: DynamicStateFlag, ds: DynamicStates)
    requires CacheMatches(n, c)
    ensures var s := DynamicStep(c, f, ds);
      CacheMatches(Run(n, s.1), s.0) && OnlyDynamicChanged(n, Run(n, s.1))
  {
    match f
    case LineWidthFlag => LineWidthSound(n, c, ds);
    case DepthBiasFlag => DepthBiasSound(n, c, ds);
    case BlendConstantsFlag => BlendConstantsSound(n, c, ds);
    case StencilWriteMaskFlag => StencilWriteMaskSound(n, c, ds);
    case StencilCompareMaskFlag => StencilCompareMaskSound(n, c, ds);
    case DepthBoundsFlag => assert Run(n, []) == n;
  }

  /**
   * From a truthful cache, the dynamic-state calls leave the native context in the state the new
   * cache records, and change nothing the dynamic states do not cover.
   */
  lemma {:induction false} DynamicsSound(n: Native, c: StateCache, flags: seq<DynamicStateFlag>, ds: DynamicStates, j: nat)
    requires CacheMatches(n, c)
    ensures var r := Dynamics(c, flags, ds, j);
      CacheMatches(Run(n, r.1), r.0) && OnlyDynamicChanged(n, Run(n, r.1))
    decreases |flags| - j
  {
    if j < |flags| {
      var s := DynamicStep(c, flags[j], ds);
      StepSound(n, c, flags[j], ds);
      var n1 := Run(n, s.1);
      DynamicsSound(n1, s.0, flags, ds, j + 1);
      RunConcat(n, s.1, Dynamics(s.0, flags, ds, j + 1).1);
    } else {
      assert Run(n, []) == n;
    }
  }

  /** The loop over the declared dynamic states. */
  method ApplyDynamics(c: StateCache, flags: seq<DynamicStateFlag>, ds: DynamicStates) returns (cache: StateCache, calls: seq<GLCall>)
    ensures cache == Dynamics(c, flags, ds, 0).0
    ensures calls == Dynamics(c, flags, ds, 0).1
  {
    cache, calls := c, [];
    var j := 0;
    while j < |flags|
      invariant j <= |flags|
      invariant Dynamics(cache, flags, ds, j).0 == Dynamics(c, flags, ds, 0).0
      invariant calls + Dynamics(cache, flags, ds, j).1 == Dynamics(c, flags, ds, 0).1
    {
      var s := DynamicStep(cache, flags[j], ds);
      DynamicsUnfold(cache, flags, ds, j);
      ghost var rest := Dynamics(s.0, flags, ds, j + 1).1;
      assert calls + (s.1 + rest) == (calls + s.1) + rest;
      cache, calls := s.0, calls + s.1;
      j := j + 1;
    }
  }

  /**
   * The dynamic-state part of WebGLCmdFuncBindStates, for the pipeline being bound (when there
   * is one) and the command buffer's recorded values `ds`.
   */
  method UpdateDynamicStates(dev: WebGLDevice, pipeline: Option<PipelineState>, ds: DynamicStates)
    modifies dev
    ensures pipeline.None? ==> unchanged(dev)
    ensures pipeline.Some? ==>
      && dev.cache == Applied(old(dev.cache), pipeline.value.dynamicStates, ds)
      && dev.trace == old(dev.trace) + Dynamics(old(dev.cache), pipeline.value.dynamicStates, ds, 0).1
    ensures dev.gfx == old(dev.gfx) && dev.log == old(dev.log)
    ensures dev.realRenderArea == old(dev.realRenderArea) && dev.staging == old(dev.staging)
  {
    if pipeline.Some? && |pipeline.value.dynamicStates| > 0 {
      var cache, calls := ApplyDynamics(dev.cache, pipeline.value.dynamicStates, ds);
      DynamicsCache(dev.cache, pipeline.value.dynamicStates, ds, 0);
      assert pipeline.value.dynamicStates[0..] == pipeline.value.dynamicStates;
      dev.cache := cache;
      dev.trace := dev.trace + calls;
    } else if pipeline.Some? {
      assert pipeline.value.dynamicStates == [];
      assert Applied(dev.cache, [], ds) == dev.cache;
    }
  }
}

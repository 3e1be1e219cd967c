/**
 * The pipeline half of WebGLCmdFuncBindStates: for a pipeline other than the one last bound, the
 * program, rasterizer, depth-stencil and blend state are compared group by group with the state
 * cache, and only groups that differ are sent to the context.
 */
module PipelineBinding {
  import opened Wrappers
  import opened GL
  import opened Formats
  import opened Objects
  import opened NativeState

  /** `gl.enable(cap)` or `gl.disable(cap)`. */
  function Toggle(cap: GLenum, on: bool): GLCall {
    if on then Enable(cap) else Disable(cap)
  }

  // ---------------------------------------------------------------- rasterizer state

  function CullCalls(mode: CullMode): seq<GLCall> {
    match mode
    case CullNone => [Disable(CULL_FACE)]
    case CullFront => [Enable(CULL_FACE), CullFace(FRONT)]
    case CullBack => [Enable(CULL_FACE), CullFace(BACK)]
  }

  function FrontFaceMode(ccw: bool): GLenum {
    if ccw then CCW else CW
  }

  function CullDiff(c: RasterizerState, rs: RasterizerState): seq<GLCall> {
    if c.cullMode != rs.cullMode then CullCalls(rs.cullMode) else []
  }

  /** The rasterizer calls for moving from the cached state `c` to `rs`. */
  function RasterizerDiff(c: RasterizerState, rs: RasterizerState): seq<GLCall> {
    CullDiff(c, rs)
    + Optional(c.isFrontFaceCCW != rs.isFrontFaceCCW, GLCall.FrontFace(FrontFaceMode(rs.isFrontFaceCCW)))
    + Optional(c.depthBias != rs.depthBias || c.depthBiasSlop != rs.depthBiasSlop,
               PolygonOffset(rs.depthBias, rs.depthBiasSlop))
    + Optional(c.lineWidth != rs.lineWidth, GLCall.LineWidth(rs.lineWidth))
  }

  /** The native state agrees with a rasterizer state. */
  predicate RasterizerMatches(n: Native, rs: RasterizerState) {
    (CULL_FACE in n.enabled <==> rs.cullMode != CullNone) &&
    (rs.cullMode == CullFront ==> n.raster.cullFace == FRONT) &&
    (rs.cullMode == CullBack ==> n.raster.cullFace == BACK) &&
    n.raster.frontFace == FrontFaceMode(rs.isFrontFaceCCW) &&
    n.raster.polygonOffset == (rs.depthBias, rs.depthBiasSlop) &&
    n.raster.lineWidth == rs.lineWidth
  }

  /** `m` differs from `n` at most in rasterizer state. */
  predicate OnlyRasterizerChanged(n: Native, m: Native) {
    m.enabled - {CULL_FACE} == n.enabled - {CULL_FACE} &&
    m.program == n.program && m.depthStencil == n.depthStencil && m.blend == n.blend
  }

  lemma RunCull(n: Native, mode: CullMode)
    ensures var m := Run(n, CullCalls(mode));
      (CULL_FACE in m.enabled <==> mode != CullNone) &&
      (mode == CullFront ==> m.raster.cullFace == FRONT) && (mode == CullBack ==> m.raster.cullFace == BACK) &&
      OnlyRasterizerChanged(n, m) && m.raster == n.raster.(cullFace := m.raster.cullFace)
  {
    match mode
    case CullNone => RunOptional(n, true, Disable(CULL_FACE));
    case CullFront => RunPair(n, Enable(CULL_FACE), CullFace(FRONT));
    case CullBack => RunPair(n, Enable(CULL_FACE), CullFace(BACK));
  }

  /** The cull-mode group brings the CULL_FACE switch and cull face to `rs` and nothing else. */
  lemma CullDiffSound(n: Native, c: RasterizerState, rs: RasterizerState)
    requires RasterizerMatches(n, c)
    ensures var n1 := Run(n, CullDiff(c, rs));
      (CULL_FACE in n1.enabled <==> rs.cullMode != CullNone) &&
      (rs.cullMode == CullFront ==> n1.raster.cullFace == FRONT) && (rs.cullMode == CullBack ==> n1.raster.cullFace == BACK) &&
      OnlyRasterizerChanged(n, n1) && n1.raster == n.raster.(cullFace := n1.raster.cullFace)
  {
    if c.cullMode != rs.cullMode {
      RunCull(n, rs.cullMode);
    }
  }

  /** A front-face, polygon-offset or line-width call sets its one rasterizer field. */
  lemma RasterCallStep(n: Native, x: GLCall)
    requires x.FrontFace? || x.PolygonOffset? || x.LineWidth?
    ensures var m := Step(n, x);
      && m.program == n.program && m.enabled == n.enabled && m.depthStencil == n.depthStencil && m.blend == n.blend
      && m.raster.cullFace == n.raster.cullFace
      && m.raster.frontFace == (if x.FrontFace? then x.mode else n.raster.frontFace)
      && m.raster.polygonOffset == (if x.PolygonOffset? then (x.factor, x.offsetUnits) else n.raster.polygonOffset)
      && m.raster.lineWidth == (if x.LineWidth? then x.lineWidth else n.raster.lineWidth)
  {
  }

  /** The three rasterizer calls after the cull group, each touching one rasterizer field. */
  lemma RasterTailSteps(n: Native, b2: bool, ccw: bool, b3: bool, bias: real, slope: real, b4: bool, w: real)
    ensures var m := Run(n, Optional(b2, GLCall.FrontFace(FrontFaceMode(ccw))) + Optional(b3, PolygonOffset(bias, slope))
                           + Optional(b4, GLCall.LineWidth(w)));
      && m.program == n.program && m.enabled == n.enabled && m.depthStencil == n.depthStencil && m.blend == n.blend
      && m.raster.cullFace == n.raster.cullFace
      && m.raster.frontFace == (if b2 then FrontFaceMode(ccw) else n.raster.frontFace)
      && m.raster.polygonOffset == (if b3 then (bias, slope) else n.raster.polygonOffset)
      && m.raster.lineWidth == (if b4 then w else n.raster.lineWidth)
  {
    var x2 := GLCall.FrontFace(FrontFaceMode(ccw));
    var x3 := PolygonOffset(bias, slope);
    var x4 := GLCall.LineWidth(w);
    RunThree(n, b2, x2, b3, x3, b4, x4);
    var n1 := if b2 then Step(n, x2) else n;
    if b2 { RasterCallStep(n, x2); }
    var n2 := if b3 then Step(n1, x3) else n1;
    if b3 { RasterCallStep(n1, x3); }
    if b4 { RasterCallStep(n2, x4); }
  }

  /** From a truthful cache, the rasterizer calls bring the context to `rs` and touch nothing else. */
  lemma RasterizerDiffSound(n: Native, c: RasterizerState, rs: RasterizerState)
    requires RasterizerMatches(n, c)
    ensures var m := Run(n, RasterizerDiff(c, rs));
      RasterizerMatches(m, rs) && OnlyRasterizerChanged(n, m)
  {
    var b2 := c.isFrontFaceCCW != rs.isFrontFaceCCW;
    var b3 := c.depthBias != rs.depthBias || c.depthBiasSlop != rs.depthBiasSlop;
    var b4 := c.lineWidth != rs.lineWidth;
    var p1 := CullDiff(c, rs);
    var tail := Optional(b2, GLCall.FrontFace(FrontFaceMode(rs.isFrontFaceCCW))) + Optional(b3, PolygonOffset(rs.depthBias, rs.depthBiasSlop))
                + Optional(b4, GLCall.LineWidth(rs.lineWidth));
    var n1 := Run(n, p1);
    CullDiffSound(n, c, rs);
    assert RasterizerDiff(c, rs) == p1 + tail;
    RunConcat(n, p1, tail);
    RasterTailSteps(n1, b2, rs.isFrontFaceCCW, b3, rs.depthBias, rs.depthBiasSlop, b4, rs.lineWidth);
    var m := Run(n1, tail);
    assert m.enabled == n1.enabled && m.raster.cullFace == n1.raster.cullFace;
    assert m.raster.frontFace == FrontFaceMode(rs.isFrontFaceCCW);
    assert m.raster.polygonOffset == (rs.depthBias, rs.depthBiasSlop);
  }

  /** No calls iff nothing differs, and a group that agrees sends no call of its kind. */
  /** `x` belongs to a rasterizer group on which `c` and `rs` differ. */
  predicate RasterizerCallFor(x: GLCall, c: RasterizerState, rs: RasterizerState) {
    ((ToggleCall(x, CULL_FACE) || x.CullFace?) && c.cullMode != rs.cullMode) ||
    (x.FrontFace? && c.isFrontFaceCCW != rs.isFrontFaceCCW) ||
    (x.PolygonOffset? && (c.depthBias != rs.depthBias || c.depthBiasSlop != rs.depthBiasSlop)) ||
    (x.LineWidth? && c.lineWidth != rs.lineWidth)
  }

  /** The rasterizer calls are empty exactly when the state is unchanged. */
  lemma RasterizerDiffEmpty(c: RasterizerState, rs: RasterizerState)
    ensures RasterizerDiff(c, rs) == [] <==> c == rs
  {
    InOptional(c.isFrontFaceCCW != rs.isFrontFaceCCW, GLCall.FrontFace(FrontFaceMode(rs.isFrontFaceCCW)));
    InOptional(c.depthBias != rs.depthBias || c.depthBiasSlop != rs.depthBiasSlop,
               PolygonOffset(rs.depthBias, rs.depthBiasSlop));
    InOptional(c.lineWidth != rs.lineWidth, GLCall.LineWidth(rs.lineWidth));
  }

  /** Every rasterizer call belongs to a group on which the two states differ. */
  lemma RasterizerDiffOnlyChanged(c: RasterizerState, rs: RasterizerState)
    ensures forall x :: x in RasterizerDiff(c, rs) ==> RasterizerCallFor(x, c, rs)
  {
    assert forall x :: x in CullDiff(c, rs) ==> RasterizerCallFor(x, c, rs);
    InOptional(c.isFrontFaceCCW != rs.isFrontFaceCCW, GLCall.FrontFace(FrontFaceMode(rs.isFrontFaceCCW)));
    InOptional(c.depthBias != rs.depthBias || c.depthBiasSlop != rs.depthBiasSlop,
               PolygonOffset(rs.depthBias, rs.depthBiasSlop));
    InOptional(c.lineWidth != rs.lineWidth, GLCall.LineWidth(rs.lineWidth));
  }

  // ---------------------------------------------------------------- depth-stencil state

  /** The per-face half of a depth-stencil state. */
  datatype StencilSide = StencilSide(
    func: ComparisonFunc, ref: int, readMask: int,
    failOp: StencilOp, zFailOp: StencilOp, passOp: StencilOp, writeMask: int)

  function FrontSide(d: DepthStencilState): StencilSide {
    StencilSide(d.stencilFuncFront, d.stencilRefFront, d.stencilReadMaskFront,
                d.stencilFailOpFront, d.stencilZFailOpFront, d.stencilPassOpFront, d.stencilWriteMaskFront)
  }

  function BackSide(d: DepthStencilState): StencilSide {
    StencilSide(d.stencilFuncBack, d.stencilRefBack, d.stencilReadMaskBack,
                d.stencilFailOpBack, d.stencilZFailOpBack, d.stencilPassOpBack, d.stencilWriteMaskBack)
  }

  function DepthDiff(c: DepthStencilState, d: DepthStencilState): seq<GLCall> {
    Optional(c.depthTest != d.depthTest, Toggle(DEPTH_TEST, d.depthTest))
    + Optional(c.depthWrite != d.depthWrite, GLCall.DepthMask(d.depthWrite))
    + Optional(c.depthFunc != d.depthFunc, DepthFunc(GLCmpFunc(d.depthFunc)))
  }

  /** The stencil test is one switch for both faces. */
  function StencilTestDiff(c: DepthStencilState, d: DepthStencilState): seq<GLCall> {
    Optional(c.stencilTestFront != d.stencilTestFront || c.stencilTestBack != d.stencilTestBack,
             Toggle(STENCIL_TEST, d.stencilTestFront || d.stencilTestBack))
  }

  function SideDiff(face: GLenum, c: StencilSide, s: StencilSide): seq<GLCall> {
    Optional(c.func != s.func || c.ref != s.ref || c.readMask != s.readMask,
             StencilFuncSeparate(face, GLCmpFunc(s.func), s.ref, s.readMask))
    + Optional(c.failOp != s.failOp || c.zFailOp != s.zFailOp || c.passOp != s.passOp,
               StencilOpSeparate(face, GLStencilOp(s.failOp), GLStencilOp(s.zFailOp), GLStencilOp(s.passOp)))
    + Optional(c.writeMask != s.writeMask, StencilMaskSeparate(face, s.writeMask))
  }

  /** The depth-stencil calls for moving from the cached state `c` to `d`. */
  function DepthStencilDiff(c: DepthStencilState, d: DepthStencilState): seq<GLCall> {
    DepthDiff(c, d) + StencilTestDiff(c, d)
    + SideDiff(FRONT, FrontSide(c), FrontSide(d)) + SideDiff(BACK, BackSide(c), BackSide(d))
  }

  function SideOf(n: Native, front: bool): NativeSide {
    if front then n.depthStencil.front else n.depthStencil.back
  }

  predicate SideMatches(ns: NativeSide, s: StencilSide) {
    ns.func == StencilFunc(GLCmpFunc(s.func), s.ref, s.readMask) &&
    ns.ops == StencilActions(GLStencilOp(s.failOp), GLStencilOp(s.zFailOp), GLStencilOp(s.passOp)) &&
    ns.writeMask == s.writeMask
  }

  predicate DepthMatches(n: Native, d: DepthStencilState) {
    (DEPTH_TEST in n.enabled <==> d.depthTest) &&
    n.depthStencil.depthMask == d.depthWrite &&
    n.depthStencil.depthFunc == GLCmpFunc(d.depthFunc)
  }

  /** The native state agrees with a depth-stencil state. */
  predicate DepthStencilMatches(n: Native, d: DepthStencilState) {
    DepthMatches(n, d) &&
    (STENCIL_TEST in n.enabled <==> d.stencilTestFront || d.stencilTestBack) &&
    SideMatches(SideOf(n, true), FrontSide(d)) &&
    SideMatches(SideOf(n, false), BackSide(d))
  }

  /** `m` differs from `n` at most in depth-stencil state. */
  predicate OnlyDepthStencilChanged(n: Native, m: Native) {
    m.enabled - {DEPTH_TEST, STENCIL_TEST} == n.enabled - {DEPTH_TEST, STENCIL_TEST} &&
    m.program == n.program && m.raster == n.raster && m.blend == n.blend
  }

  /** `m` differs from `n` at most in the stencil state of one face. */
  predicate OnlySideChanged(n: Native, m: Native, front: bool) {
    if front then m == n.(depthStencil := n.depthStencil.(front := m.depthStencil.front))
    else m == n.(depthStencil := n.depthStencil.(back := m.depthStencil.back))
  }

  lemma StepToggle(n: Native, cap: GLenum, on: bool)
    ensures Step(n, Toggle(cap, on)) == n.(enabled := if on then n.enabled + {cap} else n.enabled - {cap})
  {
  }

  lemma StepStencilFunc(n: Native, front: bool, f: GLenum, r: int, m: int)
    ensures var n1 := Step(n, StencilFuncSeparate(if front then FRONT else BACK, f, r, m));
      SideOf(n1, front) == SideOf(n, front).(func := StencilFunc(f, r, m)) && OnlySideChanged(n, n1, front)
  {
  }

  lemma StepStencilOp(n: Native, front: bool, fail: GLenum, zfail: GLenum, zpass: GLenum)
    ensures var n1 := Step(n, StencilOpSeparate(if front then FRONT else BACK, fail, zfail, zpass));
      SideOf(n1, front) == SideOf(n, front).(ops := StencilActions(fail, zfail, zpass)) && OnlySideChanged(n, n1, front)
  {
  }

  lemma StepStencilMask(n: Native, front: bool, m: int)
    ensures var n1 := Step(n, StencilMaskSeparate(if front then FRONT else BACK, m));
      SideOf(n1, front) == SideOf(n, front).(writeMask := m) && OnlySideChanged(n, n1, front)
  {
  }

  lemma SideDiffSound(n: Native, front: bool, c: StencilSide, s: StencilSide)
    requires SideMatches(SideOf(n, front), c)
    ensures var m := Run(n, SideDiff(if front then FRONT else BACK, c, s));
      SideMatches(SideOf(m, front), s) && OnlySideChanged(n, m, front)
  {
    var face := if front then FRONT else BACK;
    var b1 := c.func != s.func || c.ref != s.ref || c.readMask != s.readMask;
    var b2 := c.failOp != s.failOp || c.zFailOp != s.zFailOp || c.passOp != s.passOp;
    var b3 := c.writeMask != s.writeMask;
    var x1 := StencilFuncSeparate(face, GLCmpFunc(s.func), s.ref, s.readMask);
    var x2 := StencilOpSeparate(face, GLStencilOp(s.failOp), GLStencilOp(s.zFailOp), GLStencilOp(s.passOp));
    var x3 := StencilMaskSeparate(face, s.writeMask);
    var side := SideOf(n, front);
    var n1 := if b1 then Step(n, x1) else n;
    assert SideOf(n1, front) == side.(func := StencilFunc(GLCmpFunc(s.func), s.ref, s.readMask)) &&
      OnlySideChanged(n, n1, front) by {
      if b1 {
        StepStencilFunc(n, front, GLCmpFunc(s.func), s.ref, s.readMask);
      }
    }
    var n2 := if b2 then Step(n1, x2) else n1;
    assert SideOf(n2, front) == SideOf(n1, front).(ops := StencilActions(GLStencilOp(s.failOp),
      GLStencilOp(s.zFailOp), GLStencilOp(s.passOp))) && OnlySideChanged(n1, n2, front) by {
      if b2 {
        StepStencilOp(n1, front, GLStencilOp(s.failOp), GLStencilOp(s.zFailOp), GLStencilOp(s.passOp));
      }
    }
    var n3 := if b3 then Step(n2, x3) else n2;
    assert SideOf(n3, front) == SideOf(n2, front).(writeMask := s.writeMask) && OnlySideChanged(n2, n3, front) by {
      if b3 {
        StepStencilMask(n2, front, s.writeMask);
      }
    }
    assert Run(n, SideDiff(face, c, s)) == n3 by {
      RunThree(n, b1, x1, b2, x2, b3, x3);
    }
  }

  lemma DepthDiffSound(n: Native, c: DepthStencilState, d: DepthStencilState)
    requires DepthMatches(n, c)
    ensures var m := Run(n, DepthDiff(c, d));
      m == n.(enabled := m.enabled, depthStencil := m.depthStencil) &&
      m.depthStencil == n.depthStencil.(depthMask := d.depthWrite, depthFunc := GLCmpFunc(d.depthFunc)) &&
      m.enabled - {DEPTH_TEST} == n.enabled - {DEPTH_TEST} &&
      (DEPTH_TEST in m.enabled <==> d.depthTest)
  {
    var b1 := c.depthTest != d.depthTest;
    var b2 := c.depthWrite != d.depthWrite;
    var b3 := c.depthFunc != d.depthFunc;
    var x1 := Toggle(DEPTH_TEST, d.depthTest);
    var x2 := GLCall.DepthMask(d.depthWrite);
    var x3 := DepthFunc(GLCmpFunc(d.depthFunc));
    var n1 := if b1 then Step(n, x1) else n;
    assert n1 == n.(enabled := n1.enabled) && n1.enabled - {DEPTH_TEST} == n.enabled - {DEPTH_TEST} &&
      (DEPTH_TEST in n1.enabled <==> d.depthTest) by {
      if b1 {
        StepToggle(n, DEPTH_TEST, d.depthTest);
      }
    }
    var n2 := if b2 then Step(n1, x2) else n1;
    assert n2 == n1.(depthStencil := n1.depthStencil.(depthMask := d.depthWrite));
    var n3 := if b3 then Step(n2, x3) else n2;
    assert n3 == n2.(depthStencil := n2.depthStencil.(depthFunc := GLCmpFunc(d.depthFunc)));
    assert Run(n, DepthDiff(c, d)) == n3 by {
      RunThree(n, b1, x1, b2, x2, b3, x3);
    }
  }

  /** The switches after a toggle call issued only when `b` holds. */
  function Toggled(e: set<GLenum>, b: bool, cap: GLenum, on: bool): set<GLenum> {
    if !b then e else if on then e + {cap} else e - {cap}
  }

  lemma TogglePair(e: set<GLenum>, b1: bool, x: GLenum, on1: bool, b2: bool, y: GLenum, on2: bool)
    requires x != y
    ensures var e2 := Toggled(Toggled(e, b1, x, on1), b2, y, on2);
      e2 - {x, y} == e - {x, y} &&
      (x in e2 <==> if b1 then on1 else x in e) && (y in e2 <==> if b2 then on2 else y in e)
  {
  }

  lemma MinusBoth<T>(a: set<T>, b: set<T>, c: set<T>, x: T, y: T)
    requires a - {x} == b - {x} && b - {y} == c - {y}
    ensures a - {x, y} == c - {x, y}
  {
    assert a - {x, y} == (a - {x}) - {y};
    assert c - {x, y} == (c - {y}) - {x};
  }

  /** From a truthful cache, the depth-stencil calls bring the context to `d` and touch nothing else. */
  lemma DepthStencilDiffSound(n: Native, c: DepthStencilState, d: DepthStencilState)
    requires DepthStencilMatches(n, c)
    ensures var m := Run(n, DepthStencilDiff(c, d));
      DepthStencilMatches(m, d) && OnlyDepthStencilChanged(n, m)
  {
    var p1 := DepthDiff(c, d);
    var p2 := StencilTestDiff(c, d);
    var p3 := SideDiff(FRONT, FrontSide(c), FrontSide(d));
    var p4 := SideDiff(BACK, BackSide(c), BackSide(d));
    var on := d.stencilTestFront || d.stencilTestBack;
    var n1 := Run(n, p1);
    assert n1 == n.(enabled := n1.enabled, depthStencil := n1.depthStencil) &&
      n1.depthStencil == n.depthStencil.(depthMask := d.depthWrite, depthFunc := GLCmpFunc(d.depthFunc)) &&
      n1.enabled - {DEPTH_TEST} == n.enabled - {DEPTH_TEST} && (DEPTH_TEST in n1.enabled <==> d.depthTest) by {
      DepthDiffSound(n, c, d);
    }
    var n2 := Run(n1, p2);
    assert n2 == n1.(enabled := n2.enabled) && n2.enabled - {STENCIL_TEST} == n1.enabled - {STENCIL_TEST} &&
      (STENCIL_TEST in n2.enabled <==> on) by {
      var b := c.stencilTestFront != d.stencilTestFront || c.stencilTestBack != d.stencilTestBack;
      RunOptional(n1, b, Toggle(STENCIL_TEST, on));
      assert STENCIL_TEST in n1.enabled - {DEPTH_TEST} <==> STENCIL_TEST in n.enabled - {DEPTH_TEST};
      if b {
        StepToggle(n1, STENCIL_TEST, on);
      }
    }
    var n3 := Run(n2, p3);
    assert SideMatches(n3.depthStencil.front, FrontSide(d)) &&
      n3 == n2.(depthStencil := n2.depthStencil.(front := n3.depthStencil.front)) by {
      SideDiffSound(n2, true, FrontSide(c), FrontSide(d));
    }
    var n4 := Run(n3, p4);
    assert SideMatches(n4.depthStencil.back, BackSide(d)) &&
      n4 == n3.(depthStencil := n3.depthStencil.(back := n4.depthStencil.back)) by {
      SideDiffSound(n3, false, BackSide(c), BackSide(d));
    }
    assert Run(n, DepthStencilDiff(c, d)) == n4 by {
      RunConcat(n, p1, p2);
      RunConcat(n, p1 + p2, p3);
      RunConcat(n, p1 + p2 + p3, p4);
    }
    assert DEPTH_TEST in n2.enabled <==> DEPTH_TEST in n1.enabled by {
      assert DEPTH_TEST in n2.enabled - {STENCIL_TEST} <==> DEPTH_TEST in n1.enabled - {STENCIL_TEST};
    }
    assert n4.enabled - {DEPTH_TEST, STENCIL_TEST} == n.enabled - {DEPTH_TEST, STENCIL_TEST} by {
      MinusBoth(n4.enabled, n1.enabled, n.enabled, STENCIL_TEST, DEPTH_TEST);
      assert {STENCIL_TEST, DEPTH_TEST} == {DEPTH_TEST, STENCIL_TEST};
    }
  }

  /** A call switching `cap` on or off. */
  predicate ToggleCall(x: GLCall, cap: GLenum) {
    (x.Enable? || x.Disable?) && x.cap == cap
  }

  /** A stencil call on `face`. */
  predicate SideCall(x: GLCall, face: GLenum) {
    (x.StencilFuncSeparate? || x.StencilOpSeparate? || x.StencilMaskSeparate?) && x.face == face
  }

  /** `x` belongs to a depth-stencil group on which `c` and `d` differ. */
  predicate DepthStencilCallFor(x: GLCall, c: DepthStencilState, d: DepthStencilState) {
    (ToggleCall(x, DEPTH_TEST) && c.depthTest != d.depthTest) ||
    (ToggleCall(x, STENCIL_TEST) &&
     (c.stencilTestFront != d.stencilTestFront || c.stencilTestBack != d.stencilTestBack)) ||
    (x.DepthMask? && c.depthWrite != d.depthWrite) ||
    (x.DepthFunc? && c.depthFunc != d.depthFunc) ||
    (SideCall(x, FRONT) && FrontSide(c) != FrontSide(d)) ||
    (SideCall(x, BACK) && BackSide(c) != BackSide(d))
  }

  lemma DepthDiffCalls(c: DepthStencilState, d: DepthStencilState)
    ensures var r := DepthDiff(c, d);
      (r == [] <==> c.depthTest == d.depthTest && c.depthWrite == d.depthWrite && c.depthFunc == d.depthFunc) &&
      forall x :: x in r ==> DepthStencilCallFor(x, c, d)
  {
    InOptional(c.depthTest != d.depthTest, Toggle(DEPTH_TEST, d.depthTest));
    InOptional(c.depthWrite != d.depthWrite, GLCall.DepthMask(d.depthWrite));
    InOptional(c.depthFunc != d.depthFunc, DepthFunc(GLCmpFunc(d.depthFunc)));
  }

  lemma SideDiffCalls(front: bool, c: DepthStencilState, d: DepthStencilState)
    ensures var cs, s := if front then FrontSide(c) else BackSide(c), if front then FrontSide(d) else BackSide(d);
      var r := SideDiff(if front then FRONT else BACK, cs, s);
      (r == [] <==> cs == s) && forall x :: x in r ==> DepthStencilCallFor(x, c, d)
  {
    var face := if front then FRONT else BACK;
    var cs, s := if front then FrontSide(c) else BackSide(c), if front then FrontSide(d) else BackSide(d);
    InOptional(cs.func != s.func || cs.ref != s.ref || cs.readMask != s.readMask,
               StencilFuncSeparate(face, GLCmpFunc(s.func), s.ref, s.readMask));
    InOptional(cs.failOp != s.failOp || cs.zFailOp != s.zFailOp || cs.passOp != s.passOp,
               StencilOpSeparate(face, GLStencilOp(s.failOp), GLStencilOp(s.zFailOp), GLStencilOp(s.passOp)));
    InOptional(cs.writeMask != s.writeMask, StencilMaskSeparate(face, s.writeMask));
  }

  /** The depth-stencil calls are empty exactly when the state is unchanged. */
  lemma DepthStencilDiffEmpty(c: DepthStencilState, d: DepthStencilState)
    ensures DepthStencilDiff(c, d) == [] <==> c == d
  {
    var p1, p2 := DepthDiff(c, d), StencilTestDiff(c, d);
    var p3, p4 := SideDiff(FRONT, FrontSide(c), FrontSide(d)), SideDiff(BACK, BackSide(c), BackSide(d));
    var b2 := c.stencilTestFront != d.stencilTestFront || c.stencilTestBack != d.stencilTestBack;
    assert |DepthStencilDiff(c, d)| == |p1| + |p2| + |p3| + |p4|;
    DepthDiffCalls(c, d);
    InOptional(b2, Toggle(STENCIL_TEST, d.stencilTestFront || d.stencilTestBack));
    SideDiffCalls(true, c, d);
    SideDiffCalls(false, c, d);
    assert c == d <==> (c.depthTest == d.depthTest && c.depthWrite == d.depthWrite && c.depthFunc == d.depthFunc &&
      !b2 && FrontSide(c) == FrontSide(d) && BackSide(c) == BackSide(d));
  }

  /** Every depth-stencil call belongs to a group on which the two states differ. */
  lemma DepthStencilDiffOnlyChanged(c: DepthStencilState, d: DepthStencilState)
    ensures forall x :: x in DepthStencilDiff(c, d) ==> DepthStencilCallFor(x, c, d)
  {
    var p1, p2 := DepthDiff(c, d), StencilTestDiff(c, d);
    var p3, p4 := SideDiff(FRONT, FrontSide(c), FrontSide(d)), SideDiff(BACK, BackSide(c), BackSide(d));
    assert DepthStencilDiff(c, d) == p1 + p2 + p3 + p4;
    DepthDiffCalls(c, d);
    InOptional(c.stencilTestFront != d.stencilTestFront || c.stencilTestBack != d.stencilTestBack,
               Toggle(STENCIL_TEST, d.stencilTestFront || d.stencilTestBack));
    SideDiffCalls(true, c, d);
    SideDiffCalls(false, c, d);
  }

  // ---------------------------------------------------------------- blend state

  /** The switches and constant color of a blend state. */
  function BlendStateDiff(c: BlendState, b: BlendState): seq<GLCall> {
    Optional(c.isA2C != b.isA2C, Toggle(SAMPLE_ALPHA_TO_COVERAGE, b.isA2C))
    + Optional(c.blendColor != b.blendColor, BlendColor(b.blendColor.x, b.blendColor.y, b.blendColor.z, b.blendColor.w))
    + Optional(c.target0.blend != b.target0.blend, Toggle(BLEND, b.target0.blend))
  }

  /** The equations, factors and color mask of target 0. */
  function TargetDiff(ct: BlendTarget, t: BlendTarget): seq<GLCall> {
    Optional(ct.blendEq != t.blendEq || ct.blendAlphaEq != t.blendAlphaEq,
             BlendEquationSeparate(GLBlendOp(t.blendEq), GLBlendOp(t.blendAlphaEq)))
    + Optional(ct.blendSrc != t.blendSrc || ct.blendDst != t.blendDst ||
               ct.blendSrcAlpha != t.blendSrcAlpha || ct.blendDstAlpha != t.blendDstAlpha,
               BlendFuncSeparate(GLBlendFactor(t.blendSrc), GLBlendFactor(t.blendDst),
                                 GLBlendFactor(t.blendSrcAlpha), GLBlendFactor(t.blendDstAlpha)))
    + Optional(ct.blendColorMask != t.blendColorMask, MaskCall(t.blendColorMask))
  }

  /** The blend calls for moving from the cached state `c` to `b`; only target 0 is applied. */
  function BlendDiff(c: BlendState, b: BlendState): seq<GLCall> {
    BlendStateDiff(c, b) + TargetDiff(c.target0, b.target0)
  }

  predicate BlendSwitchesMatch(n: Native, b: BlendState) {
    (SAMPLE_ALPHA_TO_COVERAGE in n.enabled <==> b.isA2C) &&
    n.blend.blendColor == RGBA(b.blendColor.x, b.blendColor.y, b.blendColor.z, b.blendColor.w) &&
    (BLEND in n.enabled <==> b.target0.blend)
  }

  predicate TargetMatches(nb: BlendNative, t: BlendTarget) {
    nb.blendEquation == Equations(GLBlendOp(t.blendEq), GLBlendOp(t.blendAlphaEq)) &&
    nb.blendFunc == Factors(GLBlendFactor(t.blendSrc), GLBlendFactor(t.blendDst),
                            GLBlendFactor(t.blendSrcAlpha), GLBlendFactor(t.blendDstAlpha)) &&
    nb.colorMask == Channels(t.blendColorMask)
  }

  /** The channels a color mask lets through, as `gl.colorMask` receives them. */
  function Channels(mask: ColorMask): ChannelMask {
    ChannelMask(HasBit(mask, 1), HasBit(mask, 2), HasBit(mask, 4), HasBit(mask, 8))
  }

  lemma StepBlendEquation(n: Native, rgb: GLenum, alpha: GLenum)
    ensures Step(n, BlendEquationSeparate(rgb, alpha)) == n.(blend := n.blend.(blendEquation := Equations(rgb, alpha)))
  {
  }

  lemma StepBlendFunc(n: Native, sr: GLenum, dr: GLenum, sa: GLenum, da: GLenum)
    ensures Step(n, BlendFuncSeparate(sr, dr, sa, da)) == n.(blend := n.blend.(blendFunc := Factors(sr, dr, sa, da)))
  {
  }

  lemma StepColorMask(n: Native, mask: ColorMask)
    ensures Step(n, MaskCall(mask)) == n.(blend := n.blend.(colorMask := Channels(mask)))
  {
  }

  /** The native state agrees with a blend state. */
  predicate BlendMatches(n: Native, b: BlendState) {
    BlendSwitchesMatch(n, b) && TargetMatches(n.blend, b.target0)
  }

  /** `m` differs from `n` at most in blend state. */
  predicate OnlyBlendChanged(n: Native, m: Native) {
    m.enabled - {SAMPLE_ALPHA_TO_COVERAGE, BLEND} == n.enabled - {SAMPLE_ALPHA_TO_COVERAGE, BLEND} &&
    m.program == n.program && m.raster == n.raster && m.depthStencil == n.depthStencil
  }

  lemma BlendStateDiffSound(n: Native, c: BlendState, b: BlendState)
    requires BlendSwitchesMatch(n, c)
    ensures var m := Run(n, BlendStateDiff(c, b));
      BlendSwitchesMatch(m, b) && OnlyBlendChanged(n, m) &&
      m.blend == n.blend.(blendColor := m.blend.blendColor)
  {
    var b1 := c.isA2C != b.isA2C;
    var b2 := c.blendColor != b.blendColor;
    var b3 := c.target0.blend != b.target0.blend;
    var x1 := Toggle(SAMPLE_ALPHA_TO_COVERAGE, b.isA2C);
    var x2 := BlendColor(b.blendColor.x, b.blendColor.y, b.blendColor.z, b.blendColor.w);
    var x3 := Toggle(BLEND, b.target0.blend);
    var n1 := if b1 then Step(n, x1) else n;
    assert n1 == n.(enabled := Toggled(n.enabled, b1, SAMPLE_ALPHA_TO_COVERAGE, b.isA2C)) by {
      if b1 {
        StepToggle(n, SAMPLE_ALPHA_TO_COVERAGE, b.isA2C);
      }
    }
    var n2 := if b2 then Step(n1, x2) else n1;
    assert n2 == n1.(blend := n1.blend.(blendColor := RGBA(b.blendColor.x, b.blendColor.y, b.blendColor.z, b.blendColor.w)));
    var n3 := if b3 then Step(n2, x3) else n2;
    assert n3 == n2.(enabled := Toggled(n2.enabled, b3, BLEND, b.target0.blend)) by {
      if b3 {
        StepToggle(n2, BLEND, b.target0.blend);
      }
    }
    assert Run(n, BlendStateDiff(c, b)) == n3 by {
      RunThree(n, b1, x1, b2, x2, b3, x3);
    }
    TogglePair(n.enabled, b1, SAMPLE_ALPHA_TO_COVERAGE, b.isA2C, b3, BLEND, b.target0.blend);
  }

  lemma TargetDiffSound(n: Native, ct: BlendTarget, t: BlendTarget)
    requires TargetMatches(n.blend, ct)
    ensures var m := Run(n, TargetDiff(ct, t));
      TargetMatches(m.blend, t) && m == n.(blend := n.blend.(blendEquation := m.blend.blendEquation,
        blendFunc := m.blend.blendFunc, colorMask := m.blend.colorMask))
  {
    var b1 := ct.blendEq != t.blendEq || ct.blendAlphaEq != t.blendAlphaEq;
    var b2 := ct.blendSrc != t.blendSrc || ct.blendDst != t.blendDst ||
              ct.blendSrcAlpha != t.blendSrcAlpha || ct.blendDstAlpha != t.blendDstAlpha;
    var b3 := ct.blendColorMask != t.blendColorMask;
    var eq := Equations(GLBlendOp(t.blendEq), GLBlendOp(t.blendAlphaEq));
    var fs := Factors(GLBlendFactor(t.blendSrc), GLBlendFactor(t.blendDst),
                      GLBlendFactor(t.blendSrcAlpha), GLBlendFactor(t.blendDstAlpha));
    var mask := Channels(t.blendColorMask);
    var x1 := BlendEquationSeparate(eq.rgb, eq.alpha);
    var x2 := BlendFuncSeparate(fs.srcRGB, fs.dstRGB, fs.srcAlpha, fs.dstAlpha);
    var x3 := MaskCall(t.blendColorMask);
    var n1 := if b1 then Step(n, x1) else n;
    assert n1 == n.(blend := n.blend.(blendEquation := eq)) by {
      if b1 {
        StepBlendEquation(n, eq.rgb, eq.alpha);
      } else {
        assert n.blend.blendEquation == eq;
      }
    }
    var n2 := if b2 then Step(n1, x2) else n1;
    assert n2 == n1.(blend := n1.blend.(blendFunc := fs)) by {
      if b2 {
        StepBlendFunc(n1, fs.srcRGB, fs.dstRGB, fs.srcAlpha, fs.dstAlpha);
      } else {
        assert n1.blend.blendFunc == fs;
      }
    }
    var n3 := if b3 then Step(n2, x3) else n2;
    assert n3 == n2.(blend := n2.blend.(colorMask := mask)) by {
      if b3 {
        StepColorMask(n2, t.blendColorMask);
      } else {
        assert n2.blend.colorMask == mask;
      }
    }
    assert Run(n, TargetDiff(ct, t)) == n3 by {
      assert TargetDiff(ct, t) == Optional(b1, x1) + Optional(b2, x2) + Optional(b3, x3);
      RunThree(n, b1, x1, b2, x2, b3, x3);
    }
  }

  /** From a truthful cache, the blend calls bring the context to `b` and touch nothing else. */
  lemma BlendDiffSound(n: Native, c: BlendState, b: BlendState)
    requires BlendMatches(n, c)
    ensures var m := Run(n, BlendDiff(c, b));
      BlendMatches(m, b) && OnlyBlendChanged(n, m)
  {
    var n1 := Run(n, BlendStateDiff(c, b));
    assert BlendSwitchesMatch(n1, b) && OnlyBlendChanged(n, n1) && n1.blend == n.blend.(blendColor := n1.blend.blendColor) by {
      BlendStateDiffSound(n, c, b);
    }
    var n2 := Run(n1, TargetDiff(c.target0, b.target0));
    assert TargetMatches(n2.blend, b.target0) && n2 == n1.(blend := n1.blend.(blendEquation := n2.blend.blendEquation,
        blendFunc := n2.blend.blendFunc, colorMask := n2.blend.colorMask)) by {
      TargetDiffSound(n1, c.target0, b.target0);
    }
    assert Run(n, BlendDiff(c, b)) == n2 by {
      RunConcat(n, BlendStateDiff(c, b), TargetDiff(c.target0, b.target0));
    }
  }

  /** `x` belongs to a blend group on which `c` and `b` differ. */
  predicate BlendCallFor(x: GLCall, c: BlendState, b: BlendState) {
    var ct, t := c.target0, b.target0;
    (ToggleCall(x, SAMPLE_ALPHA_TO_COVERAGE) && c.isA2C != b.isA2C) ||
    (x.BlendColor? && c.blendColor != b.blendColor) ||
    (ToggleCall(x, BLEND) && ct.blend != t.blend) ||
    (x.BlendEquationSeparate? && (ct.blendEq != t.blendEq || ct.blendAlphaEq != t.blendAlphaEq)) ||
    (x.BlendFuncSeparate? && (ct.blendSrc != t.blendSrc || ct.blendDst != t.blendDst ||
                              ct.blendSrcAlpha != t.blendSrcAlpha || ct.blendDstAlpha != t.blendDstAlpha)) ||
    (x.ColorMask? && ct.blendColorMask != t.blendColorMask)
  }

  lemma BlendStateDiffCalls(c: BlendState, b: BlendState)
    ensures var r := BlendStateDiff(c, b);
      (r == [] <==> c.isA2C == b.isA2C && c.blendColor == b.blendColor && c.target0.blend == b.target0.blend) &&
      forall x :: x in r ==> BlendCallFor(x, c, b)
  {
    InOptional(c.isA2C != b.isA2C, Toggle(SAMPLE_ALPHA_TO_COVERAGE, b.isA2C));
    InOptional(c.blendColor != b.blendColor, BlendColor(b.blendColor.x, b.blendColor.y, b.blendColor.z, b.blendColor.w));
    InOptional(c.target0.blend != b.target0.blend, Toggle(BLEND, b.target0.blend));
  }

  lemma TargetDiffCalls(c: BlendState, b: BlendState)
    ensures var ct, t := c.target0, b.target0;
      var r := TargetDiff(ct, t);
      (r == [] <==> ct.(blend := t.blend) == t) && forall x :: x in r ==> BlendCallFor(x, c, b)
  {
    var ct, t := c.target0, b.target0;
    InOptional(ct.blendEq != t.blendEq || ct.blendAlphaEq != t.blendAlphaEq,
               BlendEquationSeparate(GLBlendOp(t.blendEq), GLBlendOp(t.blendAlphaEq)));
    InOptional(ct.blendSrc != t.blendSrc || ct.blendDst != t.blendDst ||
               ct.blendSrcAlpha != t.blendSrcAlpha || ct.blendDstAlpha != t.blendDstAlpha,
               BlendFuncSeparate(GLBlendFactor(t.blendSrc), GLBlendFactor(t.blendDst),
                                 GLBlendFactor(t.blendSrcAlpha), GLBlendFactor(t.blendDstAlpha)));
    InOptional(ct.blendColorMask != t.blendColorMask, MaskCall(t.blendColorMask));
  }

  /** The blend calls are empty exactly when the state is unchanged. */
  lemma BlendDiffEmpty(c: BlendState, b: BlendState)
    ensures BlendDiff(c, b) == [] <==> c == b
  {
    BlendStateDiffCalls(c, b);
    TargetDiffCalls(c, b);
    assert |BlendDiff(c, b)| == |BlendStateDiff(c, b)| + |TargetDiff(c.target0, b.target0)|;
  }

  /** Every blend call belongs to a group on which the two states differ. */
  lemma BlendDiffOnlyChanged(c: BlendState, b: BlendState)
    ensures forall x :: x in BlendDiff(c, b) ==> BlendCallFor(x, c, b)
  {
    BlendStateDiffCalls(c, b);
    TargetDiffCalls(c, b);
  }

  // ---------------------------------------------------------------- the whole pipeline

  /** The program the pipeline's shader was linked into, when it has a shader. */
  function ShaderProgram(p: PipelineState): Option<Handle>
    reads p.gpuShader
  {
    if p.gpuShader != null then Some(p.gpuShader.glProgram) else None
  }

  /** Binding the pipeline switches programs: the source's `isShaderChanged`. */
  predicate ProgramChanges(c: StateCache, program: Option<Handle>) {
    program.Some? && c.glProgram != program.value
  }

  function ProgramCalls(c: StateCache, program: Option<Handle>): seq<GLCall> {
    if ProgramChanges(c, program) then [UseProgram(program.value)] else []
  }

  /** Every call binding a pipeline other than the last bound one sends, in the source's order. */
  function PipelineCalls(c: StateCache, p: PipelineState, program: Option<Handle>): seq<GLCall> {
    ProgramCalls(c, program)
    + (if p.rs.Some? then RasterizerDiff(c.rs, p.rs.value) else [])
    + (if p.dss.Some? then DepthStencilDiff(c.dss, p.dss.value) else [])
    + (if p.bs.Some? then BlendDiff(c.bs, p.bs.value) else [])
  }

  /** The cache after binding: each state group the pipeline carries replaces the cached one. */
  function PipelineCache(c: StateCache, p: PipelineState, program: Option<Handle>): StateCache {
    c.(glProgram := if program.Some? then program.value else c.glProgram,
       rs := if p.rs.Some? then p.rs.value else c.rs,
       dss := if p.dss.Some? then p.dss.value else c.dss,
       bs := if p.bs.Some? then p.bs.value else c.bs)
  }

  /** The native state agrees with everything the cache records about the pipeline. */
  predicate CacheMatches(n: Native, c: StateCache) {
    n.program == c.glProgram && RasterizerMatches(n, c.rs) && DepthStencilMatches(n, c.dss) && BlendMatches(n, c.bs)
  }

  lemma ProgramCallsSound(n: Native, c: StateCache, program: Option<Handle>)
    requires n.program == c.glProgram
    ensures var m := Run(n, ProgramCalls(c, program));
      m == n.(program := m.program) && m.program == (if program.Some? then program.value else c.glProgram)
  {
    if ProgramChanges(c, program) {
      RunOptional(n, true, UseProgram(program.value));
    }
  }

  lemma AfterRasterizer(n: Native, m: Native, d: DepthStencilState, b: BlendState)
    requires OnlyRasterizerChanged(n, m) && DepthStencilMatches(n, d) && BlendMatches(n, b)
    ensures DepthStencilMatches(m, d) && BlendMatches(m, b) && m.program == n.program
  {
    assert DEPTH_TEST in m.enabled - {CULL_FACE} <==> DEPTH_TEST in n.enabled - {CULL_FACE};
    assert STENCIL_TEST in m.enabled - {CULL_FACE} <==> STENCIL_TEST in n.enabled - {CULL_FACE};
    assert BLEND in m.enabled - {CULL_FACE} <==> BLEND in n.enabled - {CULL_FACE};
    assert SAMPLE_ALPHA_TO_COVERAGE in m.enabled - {CULL_FACE} <==> SAMPLE_ALPHA_TO_COVERAGE in n.enabled - {CULL_FACE};
  }

  lemma AfterDepthStencil(n: Native, m: Native, rs: RasterizerState, b: BlendState)
    requires OnlyDepthStencilChanged(n, m) && RasterizerMatches(n, rs) && BlendMatches(n, b)
    ensures RasterizerMatches(m, rs) && BlendMatches(m, b) && m.program == n.program
  {
    var keep := {DEPTH_TEST, STENCIL_TEST};
    assert CULL_FACE in m.enabled - keep <==> CULL_FACE in n.enabled - keep;
    assert BLEND in m.enabled - keep <==> BLEND in n.enabled - keep;
    assert SAMPLE_ALPHA_TO_COVERAGE in m.enabled - keep <==> SAMPLE_ALPHA_TO_COVERAGE in n.enabled - keep;
  }

  lemma AfterBlend(n: Native, m: Native, rs: RasterizerState, d: DepthStencilState)
    requires OnlyBlendChanged(n, m) && RasterizerMatches(n, rs) && DepthStencilMatches(n, d)
    ensures RasterizerMatches(m, rs) && DepthStencilMatches(m, d) && m.program == n.program
  {
    var keep := {SAMPLE_ALPHA_TO_COVERAGE, BLEND};
    assert CULL_FACE in m.enabled - keep <==> CULL_FACE in n.enabled - keep;
    assert DEPTH_TEST in m.enabled - keep <==> DEPTH_TEST in n.enabled - keep;
    assert STENCIL_TEST in m.enabled - keep <==> STENCIL_TEST in n.enabled - keep;
  }

  lemma RasterizerStepSound(n: Native, c: StateCache, rs: Option<RasterizerState>)
    requires CacheMatches(n, c)
    ensures CacheMatches(Run(n, if rs.Some? then RasterizerDiff(c.rs, rs.value) else []),
                         if rs.Some? then c.(rs := rs.value) else c)
  {
    if rs.Some? {
      RasterizerDiffSound(n, c.rs, rs.value);
      AfterRasterizer(n, Run(n, RasterizerDiff(c.rs, rs.value)), c.dss, c.bs);
    }
  }

  lemma DepthStencilStepSound(n: Native, c: StateCache, d: Option<DepthStencilState>)
    requires CacheMatches(n, c)
    ensures CacheMatches(Run(n, if d.Some? then DepthStencilDiff(c.dss, d.value) else []),
                         if d.Some? then c.(dss := d.value) else c)
  {
    if d.Some? {
      DepthStencilDiffSound(n, c.dss, d.value);
      AfterDepthStencil(n, Run(n, DepthStencilDiff(c.dss, d.value)), c.rs, c.bs);
    }
  }

  lemma BlendStepSound(n: Native, c: StateCache, b: Option<BlendState>)
    requires CacheMatches(n, c)
    ensures CacheMatches(Run(n, if b.Some? then BlendDiff(c.bs, b.value) else []),
                         if b.Some? then c.(bs := b.value) else c)
  {
    if b.Some? {
      BlendDiffSound(n, c.bs, b.value);
      AfterBlend(n, Run(n, BlendDiff(c.bs, b.value)), c.rs, c.dss);
    }
  }

  /** Program and rasterizer groups: the cache they leave is truthful. */
  lemma PipelineFrontSound(n: Native, c: StateCache, p: PipelineState, program: Option<Handle>)
    requires CacheMatches(n, c)
    ensures var c1 := c.(glProgram := if program.Some? then program.value else c.glProgram);
      CacheMatches(Run(Run(n, ProgramCalls(c, program)), if p.rs.Some? then RasterizerDiff(c.rs, p.rs.value) else []),
                   if p.rs.Some? then c1.(rs := p.rs.value) else c1)
  {
    var c1 := c.(glProgram := if program.Some? then program.value else c.glProgram);
    ProgramCallsSound(n, c, program);
    RasterizerStepSound(Run(n, ProgramCalls(c, program)), c1, p.rs);
  }

  /** Depth-stencil and blend groups: the cache they leave is truthful. */
  lemma PipelineBackSound(n: Native, c: StateCache, p: PipelineState)
    requires CacheMatches(n, c)
    ensures var c3 := if p.dss.Some? then c.(dss := p.dss.value) else c;
      CacheMatches(Run(Run(n, if p.dss.Some? then DepthStencilDiff(c.dss, p.dss.value) else []),
                       if p.bs.Some? then BlendDiff(c.bs, p.bs.value) else []),
                   if p.bs.Some? then c3.(bs := p.bs.value) else c3)
  {
    var c3 := if p.dss.Some? then c.(dss := p.dss.value) else c;
    DepthStencilStepSound(n, c, p.dss);
    BlendStepSound(Run(n, if p.dss.Some? then DepthStencilDiff(c.dss, p.dss.value) else []), c3, p.bs);
  }

  /**
   * From a truthful cache, binding a pipeline leaves the context in exactly the state the updated
   * cache records: the cache stays truthful.
   */
  lemma PipelineCallsSound(n: Native, c: StateCache, p: PipelineState, program: Option<Handle>)
    requires CacheMatches(n, c)
    ensures CacheMatches(Run(n, PipelineCalls(c, p, program)), PipelineCache(c, p, program))
  {
    var c1 := c.(glProgram := if program.Some? then program.value else c.glProgram);
    var c2 := if p.rs.Some? then c1.(rs := p.rs.value) else c1;
    var q1 := ProgramCalls(c, program);
    var q2 := if p.rs.Some? then RasterizerDiff(c.rs, p.rs.value) else [];
    var q3 := if p.dss.Some? then DepthStencilDiff(c.dss, p.dss.value) else [];
    var q4 := if p.bs.Some? then BlendDiff(c.bs, p.bs.value) else [];
    PipelineFrontSound(n, c, p, program);
    PipelineBackSound(Run(Run(n, q1), q2), c2, p);
    RunFour(n, q1, q2, q3, q4);
  }

  /** Binding a pipeline sends nothing exactly when the cache already holds its state. */
  lemma PipelineCallsOnlyChanged(c: StateCache, p: PipelineState, program: Option<Handle>)
    ensures PipelineCalls(c, p, program) == [] <==> PipelineCache(c, p, program) == c
  {
    if p.rs.Some? {
      RasterizerDiffEmpty(c.rs, p.rs.value);
    }
    if p.dss.Some? {
      DepthStencilDiffEmpty(c.dss, p.dss.value);
    }
    if p.bs.Some? {
      BlendDiffEmpty(c.bs, p.bs.value);
    }
  }

  /** Binding the same pipeline state again, from the cache it produced, sends nothing. */
  lemma PipelineRebindSilent(c: StateCache, p: PipelineState, program: Option<Handle>)
    ensures PipelineCalls(PipelineCache(c, p, program), p, program) == []
  {
    var c2 := PipelineCache(c, p, program);
    PipelineCallsOnlyChanged(c2, p, program);
    assert PipelineCache(c2, p, program) == c2;
  }

  /**
   * What binding `p` sends and caches, worked out group by group in the source's order: the
   * program first, then the rasterizer, depth-stencil and blend groups the pipeline carries.
   */
  method PipelineUpdate(c: StateCache, p: PipelineState) returns (cache: StateCache, calls: seq<GLCall>, shaderChanged: bool)
    ensures cache == PipelineCache(c, p, ShaderProgram(p))
    ensures calls == PipelineCalls(c, p, ShaderProgram(p))
    ensures shaderChanged == ProgramChanges(c, ShaderProgram(p))
  {
    var program := ShaderProgram(p);
    cache, calls, shaderChanged := c, [], false;
    if p.gpuShader != null && c.glProgram != p.gpuShader.glProgram {
      calls := [UseProgram(p.gpuShader.glProgram)];
      cache := cache.(glProgram := p.gpuShader.glProgram);
      shaderChanged := true;
    }
    ghost var q1 := ProgramCalls(c, program);
    assert calls == q1;
    ghost var q2 := if p.rs.Some? then RasterizerDiff(c.rs, p.rs.value) else [];
    if p.rs.Some? {
      calls := calls + RasterizerDiff(c.rs, p.rs.value);
      cache := cache.(rs := p.rs.value);
    }
    assert calls == q1 + q2;
    ghost var q3 := if p.dss.Some? then DepthStencilDiff(c.dss, p.dss.value) else [];
    if p.dss.Some? {
      calls := calls + DepthStencilDiff(c.dss, p.dss.value);
      cache := cache.(dss := p.dss.value);
    }
    assert calls == q1 + q2 + q3;
    ghost var q4 := if p.bs.Some? then BlendDiff(c.bs, p.bs.value) else [];
    if p.bs.Some? {
      calls := calls + BlendDiff(c.bs, p.bs.value);
      cache := cache.(bs := p.bs.value);
    }
  }

  /**
   * The pipeline part of WebGLCmdFuncBindStates: a pipeline other than the one last bound is
   * recorded, and its program and state groups are sent where they differ from the cache.
   */
  method BindPipeline(dev: WebGLDevice, p: PipelineState) returns (shaderChanged: bool)
    modifies dev
    ensures old(dev.gfx.gpuPipelineState) != Some(p) ==>
      dev.gfx == old(dev.gfx).(gpuPipelineState := Some(p), glPrimitive := p.glPrimitive) &&
      dev.cache == PipelineCache(old(dev.cache), p, ShaderProgram(p)) &&
      dev.trace == old(dev.trace) + PipelineCalls(old(dev.cache), p, ShaderProgram(p)) &&
      shaderChanged == ProgramChanges(old(dev.cache), ShaderProgram(p))
    ensures old(dev.gfx.gpuPipelineState) == Some(p) ==>
      dev.gfx == old(dev.gfx) && dev.cache == old(dev.cache) && dev.trace == old(dev.trace) && !shaderChanged
    ensures old(dev.Valid()) ==> dev.Valid()
    ensures dev.log == old(dev.log) && dev.realRenderArea == old(dev.realRenderArea) && dev.staging == old(dev.staging)
  {
    shaderChanged := false;
    if dev.gfx.gpuPipelineState == Some(p) {
      return;
    }
    var cache, calls;
    cache, calls, shaderChanged := PipelineUpdate(dev.cache, p);
    dev.gfx := dev.gfx.(gpuPipelineState := Some(p), glPrimitive := p.glPrimitive);
    dev.cache := cache;
    dev.trace := dev.trace + calls;
  }
}

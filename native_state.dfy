/**
 * The fixed-function state of the native context that the state cache mirrors, and what each
 * recorded call does to it. Replaying a trace on this state is how the model says that the calls
 * the translator issues leave the native context where its cache claims it is.
 */
module NativeState {
  import opened Wrappers
  import opened GL

  datatype StencilFunc = StencilFunc(func: GLenum, ref: int, mask: int)
  datatype StencilActions = StencilActions(fail: GLenum, zfail: GLenum, zpass: GLenum)
  datatype RGBA = RGBA(red: real, green: real, blue: real, alpha: real)
  datatype Equations = Equations(rgb: GLenum, alpha: GLenum)
  datatype Factors = Factors(srcRGB: GLenum, dstRGB: GLenum, srcAlpha: GLenum, dstAlpha: GLenum)
  datatype ChannelMask = ChannelMask(red: bool, green: bool, blue: bool, alpha: bool)

  /** The rasterizer state of the context, apart from the CULL_FACE switch. */
  datatype RasterNative = RasterNative(cullFace: GLenum, frontFace: GLenum, polygonOffset: (real, real), lineWidth: real)

  /** The stencil state of one face, as the three calls that set it. */
  datatype NativeSide = NativeSide(func: StencilFunc, ops: StencilActions, writeMask: int)

  /** The depth and stencil state of the context, apart from the test switches. */
  datatype DepthStencilNative = DepthStencilNative(depthMask: bool, depthFunc: GLenum, front: NativeSide, back: NativeSide)

  /** The blend state of the context, apart from the BLEND and alpha-to-coverage switches. */
  datatype BlendNative = BlendNative(blendColor: RGBA, blendEquation: Equations, blendFunc: Factors, colorMask: ChannelMask)

  datatype Native = Native(
    program: Handle,
    /** The capabilities `gl.enable` has switched on. */
    enabled: set<GLenum>,
    raster: RasterNative,
    depthStencil: DepthStencilNative,
    blend: BlendNative)

  /** Whether a face argument selects the front or the back faces. */
  predicate SelectsFront(face: GLenum) {
    face == FRONT || face == FRONT_AND_BACK
  }

  predicate SelectsBack(face: GLenum) {
    face == BACK || face == FRONT_AND_BACK
  }

  /** A stencil call on the faces `face` selects, each face updated to `front` or `back`. */
  function StepSides(ds: DepthStencilNative, face: GLenum, front: NativeSide, back: NativeSide): DepthStencilNative {
    ds.(front := if SelectsFront(face) then front else ds.front,
        back := if SelectsBack(face) then back else ds.back)
  }

  /** What one call does to the state; calls on other state leave it as it is. */
  function Step(n: Native, c: GLCall): Native {
    match c
    case UseProgram(p) => n.(program := p)
    case Enable(cap) => n.(enabled := n.enabled + {cap})
    case Disable(cap) => n.(enabled := n.enabled - {cap})
    case CullFace(mode) => n.(raster := n.raster.(cullFace := mode))
    case FrontFace(mode) => n.(raster := n.raster.(frontFace := mode))
    case PolygonOffset(factor, units) => n.(raster := n.raster.(polygonOffset := (factor, units)))
    case LineWidth(w) => n.(raster := n.raster.(lineWidth := w))
    case DepthMask(flag) => n.(depthStencil := n.depthStencil.(depthMask := flag))
    case DepthFunc(func) => n.(depthStencil := n.depthStencil.(depthFunc := func))
    case StencilFuncSeparate(face, func, ref, mask) =>
      var ds := n.depthStencil;
      var f := StencilFunc(func, ref, mask);
      n.(depthStencil := StepSides(ds, face, ds.front.(func := f), ds.back.(func := f)))
    case StencilOpSeparate(face, fail, zfail, zpass) =>
      var ds := n.depthStencil;
      var ops := StencilActions(fail, zfail, zpass);
      n.(depthStencil := StepSides(ds, face, ds.front.(ops := ops), ds.back.(ops := ops)))
    case StencilMaskSeparate(face, mask) =>
      var ds := n.depthStencil;
      n.(depthStencil := StepSides(ds, face, ds.front.(writeMask := mask), ds.back.(writeMask := mask)))
    case BlendColor(r, g, b, a) => n.(blend := n.blend.(blendColor := RGBA(r, g, b, a)))
    case BlendEquationSeparate(rgb, alpha) => n.(blend := n.blend.(blendEquation := Equations(rgb, alpha)))
    case BlendFuncSeparate(sr, dr, sa, da) => n.(blend := n.blend.(blendFunc := Factors(sr, dr, sa, da)))
    case ColorMask(r, g, b, a) => n.(blend := n.blend.(colorMask := ChannelMask(r, g, b, a)))
    case _ => n
  }

  /** The state after a trace of calls, issued in order. */
  function Run(n: Native, calls: seq<GLCall>): Native
    decreases |calls|
  {
    if |calls| == 0 then n else Step(Run(n, calls[..|calls| - 1]), calls[|calls| - 1])
  }

  lemma {:induction false} RunConcat(n: Native, a: seq<GLCall>, b: seq<GLCall>)
    ensures Run(n, a + b) == Run(Run(n, a), b)
    decreases |b|
  {
    if |b| == 0 {
      assert a + b == a;
    } else {
      var last := |b| - 1;
      assert (a + b)[..|a + b| - 1] == a + b[..last];
      RunConcat(n, a, b[..last]);
    }
  }

  lemma RunOptional(n: Native, b: bool, x: GLCall)
    ensures Run(n, Optional(b, x)) == if b then Step(n, x) else n
  {
    if b {
      assert Optional(b, x)[..0] == [];
    }
  }

  lemma RunPair(n: Native, x: GLCall, y: GLCall)
    ensures Run(n, [x, y]) == Step(Step(n, x), y)
  {
    assert [x, y][..1] == [x];
    assert [x][..0] == [];
    assert Run(n, [x]) == Step(n, x);
  }

  /** Three calls each issued only under its own condition, as the translator's state diffs are. */
  lemma RunThree(n: Native, b1: bool, x1: GLCall, b2: bool, x2: GLCall, b3: bool, x3: GLCall)
    ensures var n1 := if b1 then Step(n, x1) else n;
      var n2 := if b2 then Step(n1, x2) else n1;
      Run(n, Optional(b1, x1) + Optional(b2, x2) + Optional(b3, x3)) == if b3 then Step(n2, x3) else n2
  {
    var n1 := if b1 then Step(n, x1) else n;
    var n2 := if b2 then Step(n1, x2) else n1;
    RunOptional(n, b1, x1);
    RunOptional(n1, b2, x2);
    RunOptional(n2, b3, x3);
    RunConcat(n, Optional(b1, x1), Optional(b2, x2));
    RunConcat(n, Optional(b1, x1) + Optional(b2, x2), Optional(b3, x3));
  }

  /** Four traces issued one after another. */
  lemma RunFour(n: Native, a: seq<GLCall>, b: seq<GLCall>, c: seq<GLCall>, d: seq<GLCall>)
    ensures Run(n, a + b + c + d) == Run(Run(Run(Run(n, a), b), c), d)
  {
    RunConcat(n, a, b);
    RunConcat(n, a + b, c);
    RunConcat(n, a + b + c, d);
  }

}

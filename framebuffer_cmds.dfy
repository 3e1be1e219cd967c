/** Creation and destruction of framebuffers (WebGLCmdFuncCreateFramebuffer / DestroyFramebuffer). */
module FramebufferCommands {
  import opened Wrappers
  import opened GL
  import opened Formats
  import opened JsInt
  import opened Objects

  /** Whether one of the color textures is a swapchain image, so the framebuffer is the default one. */
  predicate HasSwapchainColor(texs: seq<GPUTexture>)
    reads texs
  {
    exists i :: 0 <= i < |texs| && texs[i].info.isSwapchainTexture
  }

  /** The call that attaches a texture: its native texture at level 0, or else its renderbuffer. */
  function AttachCall(attachment: GLenum, n: TextureNative): GLCall {
    if n.glTexture.Some? then FramebufferTexture2D(attachment, n.glTarget, n.glTexture, 0)
    else FramebufferRenderbuffer(attachment, n.glRenderbuffer)
  }

  /** The attachment calls for the first `k` color textures, to COLOR_ATTACHMENT0 + i in order. */
  function ColorAttachCalls(natives: seq<TextureNative>, k: nat): (r: seq<GLCall>)
    requires k <= |natives|
    ensures |r| == k
    decreases k
  {
    if k == 0 then []
    else ColorAttachCalls(natives, k - 1) + [AttachCall(COLOR_ATTACHMENT0 + k - 1, natives[k - 1])]
  }

  /** COLOR_ATTACHMENT0 .. COLOR_ATTACHMENT0 + k - 1, the buffers drawn to. */
  function ColorAttachments(k: nat): (r: seq<GLenum>)
    ensures |r| == k && forall i :: 0 <= i < k ==> r[i] == COLOR_ATTACHMENT0 + i
  {
    seq(k, i => COLOR_ATTACHMENT0 + i)
  }

  /** The current descriptions and native halves of a list of textures. */
  function Infos(texs: seq<GPUTexture>): (r: seq<TextureInfo>)
    reads texs
    ensures |r| == |texs| && forall i :: 0 <= i < |texs| ==> r[i] == texs[i].info
  {
    seq(|texs|, i reads texs requires 0 <= i < |texs| => texs[i].info)
  }

  function Natives(texs: seq<GPUTexture>): (r: seq<TextureNative>)
    reads texs
    ensures |r| == |texs| && forall i :: 0 <= i < |texs| ==> r[i] == texs[i].native
  {
    seq(|texs|, i reads texs requires 0 <= i < |texs| => texs[i].native)
  }

  function ExtentOf(t: TextureInfo, widths: bool): int {
    if widths then t.width else t.height
  }

  /** `w0` narrowed by the widths (or heights) of the first `k` textures. */
  function MinExtent(infos: seq<TextureInfo>, k: nat, w0: int, widths: bool): int
    requires k <= |infos|
    decreases k
  {
    if k == 0 then w0 else Min(MinExtent(infos, k - 1, w0, widths), ExtentOf(infos[k - 1], widths))
  }

  /**
   * The narrowed extent is the minimum of the initial one and the attachments': it is at most
   * each of them and equal to one of them.
   */
  lemma {:induction false} MinExtentIsMinimum(infos: seq<TextureInfo>, k: nat, w0: int, widths: bool)
    requires k <= |infos|
    ensures MinExtent(infos, k, w0, widths) <= w0
    ensures forall i :: 0 <= i < k ==> MinExtent(infos, k, w0, widths) <= ExtentOf(infos[i], widths)
    ensures MinExtent(infos, k, w0, widths) == w0 ||
            exists i :: 0 <= i < k && MinExtent(infos, k, w0, widths) == ExtentOf(infos[i], widths)
    decreases k
  {
    if k > 0 {
      MinExtentIsMinimum(infos, k - 1, w0, widths);
    }
  }

  function DepthAttachmentOf(dev: WebGLDevice, format: Format): GLenum
  {
    if dev.formatInfos(format).hasStencil then DEPTH_STENCIL_ATTACHMENT else DEPTH_ATTACHMENT
  }

  /** The diagnostic of an incomplete framebuffer; a status the source does not name reports nothing. */
  function StatusDiagnostics(status: GLenum): (r: seq<nat>)
    ensures status == FRAMEBUFFER_COMPLETE ==> r == []
  {
    if status == FRAMEBUFFER_INCOMPLETE_ATTACHMENT then [16318]
    else if status == FRAMEBUFFER_INCOMPLETE_MISSING_ATTACHMENT then [16319]
    else if status == FRAMEBUFFER_INCOMPLETE_DIMENSIONS then [16320]
    else if status == FRAMEBUFFER_UNSUPPORTED then [16321]
    else []
  }

  /** The calls that attach everything to a new framebuffer, from the initial bind to the restoring one. */
  function AttachmentCalls(drawBuffers: bool, natives: seq<TextureNative>, depth: seq<GLCall>,
                           bound: Handle, created: Handle): seq<GLCall>
  {
    RebindCalls(bound, created, created) + ColorAttachCalls(natives, |natives|) + depth
    + FinishCalls(drawBuffers, |natives|, bound, created)
  }

  /** A framebuffer bind that is issued only when the new framebuffer is not the cached one. */
  function RebindCalls(bound: Handle, created: Handle, target: Handle): seq<GLCall> {
    if bound != created then [BindFramebuffer(target)] else []
  }

  /** The draw-buffer selection, when supported, and the bind that restores the cached framebuffer. */
  function FinishCalls(drawBuffers: bool, colors: nat, bound: Handle, created: Handle): seq<GLCall> {
    (if drawBuffers then [DrawBuffers(ColorAttachments(colors))] else []) + RebindCalls(bound, created, bound)
  }

  /** The description and native half of the depth-stencil texture, when there is one. */
  function DepthOf(dst: GPUTexture?): Option<(TextureInfo, TextureNative)>
    reads dst
  {
    if dst != null then Some((dst.info, dst.native)) else None
  }

  function DepthAttachCalls(dev: WebGLDevice, depth: Option<(TextureInfo, TextureNative)>): seq<GLCall> {
    if depth.Some? then [AttachCall(DepthAttachmentOf(dev, depth.value.0.format), depth.value.1)] else []
  }

  /** `e` narrowed by the depth-stencil texture's width (or height), when there is one. */
  function DepthExtent(depth: Option<(TextureInfo, TextureNative)>, e: int, widths: bool): int {
    if depth.Some? then Min(e, ExtentOf(depth.value.0, widths)) else e
  }

  /** The source's scan for a swapchain color texture. */
  method FindSwapchainColor(texs: seq<GPUTexture>) returns (found: bool)
    ensures found == HasSwapchainColor(texs)
  {
    var i := 0;
    while i < |texs|
      invariant 0 <= i <= |texs|
      invariant forall k :: 0 <= k < i ==> !texs[k].info.isSwapchainTexture
    {
      if texs[i].info.isSwapchainTexture {
        return true;
      }
      i := i + 1;
    }
    return false;
  }

  /** Attach every color texture in order, narrowing the extent `w` x `h` to each. */
  method AttachColors(dev: WebGLDevice, infos: seq<TextureInfo>, natives: seq<TextureNative>, w0: int, h0: int)
    returns (w: int, h: int)
    requires |infos| == |natives|
    modifies dev
    ensures dev.trace == old(dev.trace) + ColorAttachCalls(natives, |natives|)
    ensures w == MinExtent(infos, |infos|, w0, true)
    ensures h == MinExtent(infos, |infos|, h0, false)
    ensures dev.cache == old(dev.cache) && dev.gfx == old(dev.gfx) && dev.log == old(dev.log)
    ensures dev.staging == old(dev.staging) && dev.realRenderArea == old(dev.realRenderArea)
  {
    w, h := w0, h0;
    var i := 0;
    while i < |infos|
      invariant 0 <= i <= |infos|
      invariant dev.trace == old(dev.trace) + ColorAttachCalls(natives, i)
      invariant w == MinExtent(infos, i, w0, true)
      invariant h == MinExtent(infos, i, h0, false)
      invariant dev.cache == old(dev.cache) && dev.gfx == old(dev.gfx) && dev.log == old(dev.log)
      invariant dev.staging == old(dev.staging) && dev.realRenderArea == old(dev.realRenderArea)
    {
      dev.Call(AttachCall(COLOR_ATTACHMENT0 + i, natives[i]));
      w := Min(w, infos[i].width);
      h := Min(h, infos[i].height);
      i := i + 1;
    }
  }

  /**
   * The native half of creation over snapshots of the attachments: attach, narrow, report the
   * status, restore the binding; the narrowed extent is returned.
   */
  method BuildFramebuffer(dev: WebGLDevice, infos: seq<TextureInfo>, natives: seq<TextureNative>,
                          depth: Option<(TextureInfo, TextureNative)>, w0: int, h0: int,
                          created: Handle, status: GLenum) returns (w: int, h: int)
    requires |infos| == |natives|
    modifies dev
    ensures w == DepthExtent(depth, MinExtent(infos, |infos|, w0, true), true)
    ensures h == DepthExtent(depth, MinExtent(infos, |infos|, h0, false), false)
    ensures dev.trace == old(dev.trace) + AttachmentCalls(dev.ext.drawBuffers, natives,
                                                         DepthAttachCalls(dev, depth), old(dev.cache.glFramebuffer), created)
    ensures dev.log == old(dev.log) + StatusDiagnostics(status)
    ensures dev.cache == old(dev.cache) && dev.gfx == old(dev.gfx)
    ensures dev.staging == old(dev.staging) && dev.realRenderArea == old(dev.realRenderArea)
  {
    var bound := dev.cache.glFramebuffer;
    if bound != created {
      dev.Call(BindFramebuffer(created));
    }
    ghost var t1 := dev.trace;
    w, h := AttachColors(dev, infos, natives, w0, h0);
    ghost var t2 := dev.trace;
    w, h := AttachDepth(dev, depth, w, h);
    ghost var t3 := dev.trace;
    FinishFramebuffer(dev, |natives|, bound, created, status);
    AppendFour(old(dev.trace), t1, t2, t3, dev.trace, RebindCalls(bound, created, created),
               ColorAttachCalls(natives, |natives|), DepthAttachCalls(dev, depth),
               FinishCalls(dev.ext.drawBuffers, |natives|, bound, created));
  }

  /** Attach the depth-stencil texture, when there is one, and narrow the extent by it. */
  method AttachDepth(dev: WebGLDevice, depth: Option<(TextureInfo, TextureNative)>, w0: int, h0: int)
    returns (w: int, h: int)
    modifies dev
    ensures w == DepthExtent(depth, w0, true) && h == DepthExtent(depth, h0, false)
    ensures dev.trace == old(dev.trace) + DepthAttachCalls(dev, depth)
    ensures dev.cache == old(dev.cache) && dev.gfx == old(dev.gfx) && dev.log == old(dev.log)
    ensures dev.staging == old(dev.staging) && dev.realRenderArea == old(dev.realRenderArea)
  {
    w, h := w0, h0;
    if depth.Some? {
      dev.Call(AttachCall(DepthAttachmentOf(dev, depth.value.0.format), depth.value.1));
      w := Min(w, depth.value.0.width);
      h := Min(h, depth.value.0.height);
    }
  }

  /** Select the draw buffers, report the status and restore the cached binding. */
  method FinishFramebuffer(dev: WebGLDevice, colors: nat, bound: Handle, created: Handle, status: GLenum)
    modifies dev
    ensures dev.trace == old(dev.trace) + FinishCalls(dev.ext.drawBuffers, colors, bound, created)
    ensures dev.log == old(dev.log) + StatusDiagnostics(status)
    ensures dev.cache == old(dev.cache) && dev.gfx == old(dev.gfx)
    ensures dev.staging == old(dev.staging) && dev.realRenderArea == old(dev.realRenderArea)
  {
    if dev.ext.drawBuffers {
      dev.Call(DrawBuffers(ColorAttachments(colors)));
    }
    if status != FRAMEBUFFER_COMPLETE {
      var d := StatusDiagnostics(status);
      if d != [] {
        dev.Report(Some(d[0]));
      }
    }
    if bound != created {
      dev.Call(BindFramebuffer(bound));
    }
  }

  /**
   * A framebuffer over a swapchain image is the default framebuffer: it is marked on-screen and no
   * native object is made. Otherwise a new native framebuffer gets every attachment, its size
   * narrows to the smallest attachment, its status is reported, and the cached binding is restored.
   */
  method CreateFramebuffer(dev: WebGLDevice, fb: GPUFramebuffer, created: Handle, status: GLenum)
    modifies dev, fb
    ensures HasSwapchainColor(fb.gpuColorTextures) ==>
      && fb.isOffscreen == false
      && fb.width == old(fb.width) && fb.height == old(fb.height) && fb.glFramebuffer == old(fb.glFramebuffer)
      && dev.trace == old(dev.trace) && dev.log == old(dev.log)
    ensures !HasSwapchainColor(fb.gpuColorTextures) && created.None? ==>
      && fb.isOffscreen == old(fb.isOffscreen)
      && fb.width == old(fb.width) && fb.height == old(fb.height) && fb.glFramebuffer == old(fb.glFramebuffer)
      && dev.trace == old(dev.trace) && dev.log == old(dev.log)
    ensures !HasSwapchainColor(fb.gpuColorTextures) && created.Some? ==>
      var infos := old(Infos(fb.gpuColorTextures));
      var depth := old(DepthOf(fb.gpuDepthStencilTexture));
      && fb.isOffscreen == old(fb.isOffscreen) && fb.glFramebuffer == created
      && fb.width == DepthExtent(depth, MinExtent(infos, |infos|, old(fb.width), true), true)
      && fb.height == DepthExtent(depth, MinExtent(infos, |infos|, old(fb.height), false), false)
      && dev.trace == old(dev.trace) + AttachmentCalls(dev.ext.drawBuffers, old(Natives(fb.gpuColorTextures)),
                                                     DepthAttachCalls(dev, depth), old(dev.cache.glFramebuffer), created)
      && dev.log == old(dev.log) + StatusDiagnostics(status)
    ensures dev.cache == old(dev.cache) && dev.gfx == old(dev.gfx)
    ensures dev.staging == old(dev.staging) && dev.realRenderArea == old(dev.realRenderArea)
  {
    var onscreen := FindSwapchainColor(fb.gpuColorTextures);
    if onscreen {
      fb.isOffscreen := false;
      return;
    }
    if created.None? {
      return;
    }
    var w, h := BuildFramebuffer(dev, Infos(fb.gpuColorTextures), Natives(fb.gpuColorTextures),
                                 DepthOf(fb.gpuDepthStencilTexture), fb.width, fb.height, created, status);
    fb.glFramebuffer := created;
    fb.width := w;
    fb.height := h;
  }

  /** Destroying deletes the native framebuffer, unbinds it if it is the cached binding, and forgets it. */
  method DestroyFramebuffer(dev: WebGLDevice, fb: GPUFramebuffer)
    modifies dev, fb
    ensures fb.glFramebuffer == None
    ensures fb.width == old(fb.width) && fb.height == old(fb.height) && fb.isOffscreen == old(fb.isOffscreen)
    ensures old(fb.glFramebuffer).Some? ==>
      var wasBound := old(dev.cache.glFramebuffer) == old(fb.glFramebuffer);
      && dev.cache == (if wasBound then old(dev.cache).(glFramebuffer := None) else old(dev.cache))
      && dev.trace == old(dev.trace) + [DeleteFramebuffer(old(fb.glFramebuffer).value)]
                       + (if wasBound then [BindFramebuffer(None)] else [])
    ensures old(fb.glFramebuffer).None? ==> dev.cache == old(dev.cache) && dev.trace == old(dev.trace)
    ensures dev.gfx == old(dev.gfx) && dev.log == old(dev.log)
    ensures dev.staging == old(dev.staging) && dev.realRenderArea == old(dev.realRenderArea)
  {
    if fb.glFramebuffer.Some? {
      dev.Call(DeleteFramebuffer(fb.glFramebuffer.value));
      if dev.cache.glFramebuffer == fb.glFramebuffer {
        dev.Call(BindFramebuffer(None));
        dev.cache := dev.cache.(glFramebuffer := None);
      }
      fb.glFramebuffer := None;
    }
  }
}

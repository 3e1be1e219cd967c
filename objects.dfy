/**
 * The engine-side objects the WebGL command functions read and update: the GPU-side
 * records of buffers, textures, framebuffers, shaders and input assemblers, the pipeline
 * and descriptor-set values they are bound with, and the device with its state cache.
 *
 * The caches the source keeps as module-level or device-level mutable records are the
 * device's fields; a native call is an entry appended to `WebGLDevice.trace`, a diagnostic
 * (`errorID`) an entry appended to `WebGLDevice.log`.
 */
module Objects {
  import opened Wrappers
  import opened GL
  import opened Formats
  import opened JsInt

  // ---------------------------------------------------------------- engine enums and flags

  /** Whether bit `bit` (a power of two) is set in a flag word, i.e. `flags & bit` is non-zero. */
  predicate HasBit(flags: nat, bit: pos) {
    (flags / bit) % 2 == 1
  }

  const USAGE_TRANSFER_SRC: pos := 0x1
  const USAGE_TRANSFER_DST: pos := 0x2
  const USAGE_INDEX: pos := 0x4
  const USAGE_VERTEX: pos := 0x8
  const USAGE_UNIFORM: pos := 0x10
  const USAGE_INDIRECT: pos := 0x40
  const MEMORY_HOST: pos := 0x2
  const TEXTURE_FLAG_GEN_MIPMAP: pos := 0x1
  const STAGE_VERTEX: nat := 0x1
  const STAGE_FRAGMENT: nat := 0x10
  const STENCIL_FACE_FRONT: pos := 0x1
  const STENCIL_FACE_BACK: pos := 0x2

  datatype TextureType = TEX2D | CUBE | OtherTextureType(ordinal: nat)
  datatype CullMode = CullNone | CullFront | CullBack
  datatype LoadOp = Load | Clear | Discard
  datatype DynamicStateFlag =
    | LineWidthFlag | DepthBiasFlag | BlendConstantsFlag | DepthBoundsFlag
    | StencilWriteMaskFlag | StencilCompareMaskFlag

  /** The engine's ColorMask: R = 1, G = 2, B = 4, A = 8, ALL = 15. */
  type ColorMask = m: nat | m < 16
  const COLOR_MASK_ALL: ColorMask := 15

  /** `gl.colorMask` with the channel flags of an engine color mask. */
  function MaskCall(mask: ColorMask): GLCall {
    GLCall.ColorMask(HasBit(mask, 1), HasBit(mask, 2), HasBit(mask, 4), HasBit(mask, 8))
  }

  // ---------------------------------------------------------------- plain values

  datatype Color = Color(x: real, y: real, z: real, w: real)
  datatype Rect = Rect(x: int, y: int, width: int, height: int)
  datatype Viewport = Viewport(left: int, top: int, width: int, height: int, minDepth: real, maxDepth: real)
  datatype StencilFaceState = StencilFaceState(writeMask: int, compareMask: int, reference: int)

  /** The dynamic states a command buffer records and BindStates applies. */
  datatype DynamicStates = DynamicStates(
    viewport: Viewport,
    scissor: Rect,
    blendConstant: Color,
    lineWidth: real,
    depthBiasConstant: real,
    depthBiasClamp: real,
    depthBiasSlope: real,
    depthMinBounds: real,
    depthMaxBounds: real,
    stencilStatesFront: StencilFaceState,
    stencilStatesBack: StencilFaceState)

  datatype DrawInfo = DrawInfo(
    vertexCount: int, firstVertex: int, indexCount: int, firstIndex: int,
    vertexOffset: int, instanceCount: int, firstInstance: int)

  /** The CPU-side draw list of an indirect buffer: parallel Int32Arrays of equal capacity. */
  datatype IndirectDraws = IndirectDraws(
    counts: seq<int>, offsets: seq<int>, instances: seq<int>, byteOffsets: seq<int>,
    drawCount: nat, drawByIndex: bool, instancedDraw: bool)
  {
    predicate Valid() {
      |counts| == |offsets| == |instances| == |byteOffsets| && drawCount <= |counts|
    }
  }

  // ---------------------------------------------------------------- pipeline values

  datatype RasterizerState = RasterizerState(
    cullMode: CullMode, isFrontFaceCCW: bool, depthBias: real, depthBiasSlop: real, lineWidth: real)

  datatype DepthStencilState = DepthStencilState(
    depthTest: bool, depthWrite: bool, depthFunc: ComparisonFunc,
    stencilTestFront: bool, stencilFuncFront: ComparisonFunc, stencilReadMaskFront: int,
    stencilWriteMaskFront: int, stencilFailOpFront: StencilOp, stencilZFailOpFront: StencilOp,
    stencilPassOpFront: StencilOp, stencilRefFront: int,
    stencilTestBack: bool, stencilFuncBack: ComparisonFunc, stencilReadMaskBack: int,
    stencilWriteMaskBack: int, stencilFailOpBack: StencilOp, stencilZFailOpBack: StencilOp,
    stencilPassOpBack: StencilOp, stencilRefBack: int)

  datatype BlendTarget = BlendTarget(
    blend: bool, blendSrc: BlendFactor, blendDst: BlendFactor, blendEq: BlendOp,
    blendSrcAlpha: BlendFactor, blendDstAlpha: BlendFactor, blendAlphaEq: BlendOp,
    blendColorMask: ColorMask)

  /** Blend state; WebGL 1 applies only the first target, which is all this record keeps. */
  datatype BlendState = BlendState(isA2C: bool, blendColor: Color, target0: BlendTarget)

  /** For each set, for each binding, the index into the dynamic offsets (negative: none). */
  datatype PipelineLayout = PipelineLayout(dynamicOffsetIndices: seq<seq<int>>)

  /** A pipeline state object; `id` stands for its identity. */
  datatype PipelineState = PipelineState(
    id: nat,
    gpuShader: GPUShader?,
    glPrimitive: GLenum,
    rs: Option<RasterizerState>,
    dss: Option<DepthStencilState>,
    bs: Option<BlendState>,
    gpuPipelineLayout: Option<PipelineLayout>,
    dynamicStates: seq<DynamicStateFlag>)

  // ---------------------------------------------------------------- descriptor sets

  datatype GPUSampler = GPUSampler(glMinFilter: GLenum, glMagFilter: GLenum, glWrapS: GLenum, glWrapT: GLenum)

  /** A uniform buffer binding: a buffer with its own float view, or a view into one at a byte offset. */
  datatype BufferBinding = WholeBuffer(buffer: GPUBuffer) | BufferView(viewOf: GPUBuffer, viewOffset: int)

  datatype Descriptor = Descriptor(
    gpuBuffer: Option<BufferBinding>, gpuTexture: GPUTexture?, gpuSampler: Option<GPUSampler>)

  datatype DescriptorSet = DescriptorSet(gpuDescriptors: seq<Descriptor>, descriptorIndices: seq<int>)

  // ---------------------------------------------------------------- render passes

  datatype ColorAttachment = ColorAttachment(format: Format, loadOp: LoadOp)
  datatype DepthStencilAttachment = DepthStencilAttachment(format: Format, depthLoadOp: LoadOp, stencilLoadOp: LoadOp)
  datatype RenderPass = RenderPass(colorAttachments: seq<ColorAttachment>, depthStencilAttachment: Option<DepthStencilAttachment>)

  // ---------------------------------------------------------------- buffers

  /** A host shadow copy: its bytes, and the same memory read as 32-bit floats. */
  datatype HostData = HostData(bytes: seq<bv8>, floats: seq<real>)

  /** What the engine decided about a buffer before the command functions see it. */
  datatype BufferInfo = BufferInfo(usage: nat, memUsage: nat, size: nat, stride: nat, buffer: Option<HostData>)

  class GPUBuffer {
    var info: BufferInfo
    var glTarget: GLenum
    var glBuffer: Handle
    /** The Float32Array a uniform buffer is read through. */
    var vf32: Option<seq<real>>
    var indirects: IndirectDraws

    constructor (info: BufferInfo)
      ensures this.info == info && glTarget == NONE && glBuffer == None && vf32 == None
      ensures indirects == IndirectDraws([], [], [], [], 0, false, false)
    {
      this.info := info;
      glTarget := NONE;
      glBuffer := None;
      vf32 := None;
      indirects := IndirectDraws([], [], [], [], 0, false, false);
    }
  }

  // ---------------------------------------------------------------- textures

  datatype TextureInfo = TextureInfo(
    texType: TextureType, format: Format, width: nat, height: nat, size: nat, mipLevel: nat,
    isPowerOf2: bool, flags: nat, isSwapchainTexture: bool)

  /** The native half of a texture: enums, handles and the sampler state applied to it. */
  datatype TextureNative = TextureNative(
    glTarget: GLenum, glInternalFmt: GLenum, glFormat: GLenum, glType: GLenum,
    glTexture: Handle, glRenderbuffer: Handle,
    glWrapS: GLenum, glWrapT: GLenum, glMinFilter: GLenum, glMagFilter: GLenum)

  const NoTextureNative := TextureNative(NONE, NONE, NONE, NONE, None, None, NONE, NONE, NONE, NONE)

  class GPUTexture {
    var info: TextureInfo
    var native: TextureNative

    constructor (info: TextureInfo)
      ensures this.info == info && native == NoTextureNative
    {
      this.info := info;
      native := NoTextureNative;
    }
  }

  // ---------------------------------------------------------------- framebuffers

  class GPUFramebuffer {
    const gpuColorTextures: seq<GPUTexture>
    const gpuDepthStencilTexture: GPUTexture?
    const lodLevel: int
    var isOffscreen: bool
    var width: int
    var height: int
    var glFramebuffer: Handle

    constructor (colors: seq<GPUTexture>, depthStencil: GPUTexture?, lodLevel: int, width: int, height: int)
      ensures gpuColorTextures == colors && gpuDepthStencilTexture == depthStencil && this.lodLevel == lodLevel
      ensures this.width == width && this.height == height && isOffscreen && glFramebuffer == None
    {
      gpuColorTextures := colors;
      gpuDepthStencilTexture := depthStencil;
      this.lodLevel := lodLevel;
      this.width := width;
      this.height := height;
      isOffscreen := true;
      glFramebuffer := None;
    }
  }

  // ---------------------------------------------------------------- shaders

  datatype Uniform = Uniform(name: string, uType: Type, count: nat)
  datatype UniformBlock = UniformBlock(setIndex: int, binding: int, name: string, members: seq<Uniform>)
  datatype UniformSamplerTexture = UniformSamplerTexture(
    setIndex: int, binding: int, name: string, sType: Type, count: nat, flattened: int)
  datatype UniformInputAttachment = UniformInputAttachment(setIndex: int, binding: int, name: string, count: nat)

  /** A reflected vertex input. */
  datatype GLInput = GLInput(
    binding: int, name: string, iType: Type, stride: nat, count: int, size: int, glType: GLenum, glLoc: int)

  /** One member of a uniform block, with the CPU mirror `values` of what was last uploaded. */
  datatype GLUniform = GLUniform(
    binding: int, name: string, uType: Type, stride: nat, count: nat, size: nat, offset: nat,
    glType: GLenum, glLoc: Handle, values: seq<real>, arrayKind: ArrayKind)

  /** A uniform block; `glActiveUniforms` holds the positions in `glUniforms` of the members the
      program uses (the source keeps the same member objects in both lists). */
  datatype GLBlock = GLBlock(
    setIndex: int, binding: int, name: string, size: nat,
    glUniforms: seq<GLUniform>, glActiveUniforms: seq<nat>)
  {
    predicate Valid() {
      forall i :: 0 <= i < |glActiveUniforms| ==> glActiveUniforms[i] < |glUniforms|
    }
  }

  datatype GLSampler = GLSampler(
    setIndex: int, binding: int, name: string, sType: Type, count: nat,
    units: seq<int>, glUnits: seq<int>, glType: GLenum, glLoc: Handle)

  /** One shader stage; `glShader` is the native shader while it exists. */
  datatype GPUStage = GPUStage(stageType: nat, source: string, glShader: Handle)

  class GPUShader {
    const name: string
    var gpuStages: seq<GPUStage>
    const blocks: seq<UniformBlock>
    const subpassInputs: seq<UniformInputAttachment>
    var samplerTextures: seq<UniformSamplerTexture>
    var glProgram: Handle
    var glInputs: seq<Option<GLInput>>
    var glBlocks: seq<GLBlock>
    var glSamplerTextures: seq<GLSampler>

    constructor (name: string, stages: seq<GPUStage>, blocks: seq<UniformBlock>,
                 samplerTextures: seq<UniformSamplerTexture>, subpassInputs: seq<UniformInputAttachment>)
      ensures this.name == name && gpuStages == stages && this.blocks == blocks
      ensures this.samplerTextures == samplerTextures && this.subpassInputs == subpassInputs
      ensures glProgram == None && glInputs == [] && glBlocks == [] && glSamplerTextures == []
    {
      this.name := name;
      gpuStages := stages;
      this.blocks := blocks;
      this.samplerTextures := samplerTextures;
      this.subpassInputs := subpassInputs;
      glProgram := None;
      glInputs := [];
      glBlocks := [];
      glSamplerTextures := [];
    }
  }

  // ---------------------------------------------------------------- input assemblers

  datatype Attribute = Attribute(name: string, format: Format, isNormalized: bool, stream: nat, isInstanced: bool)

  datatype GLAttrib = GLAttrib(
    name: string, glBuffer: Handle, glType: GLenum, size: nat, count: nat, stride: nat,
    componentCount: nat, isNormalized: bool, isInstanced: bool, offset: nat)

  /** One entry of the program-to-VAO map, which iterates in insertion order. */
  datatype VAOEntry = VAOEntry(program: Handle, vao: nat)

  class GPUInputAssembler {
    const attributes: seq<Attribute>
    const gpuVertexBuffers: seq<GPUBuffer>
    const gpuIndexBuffer: GPUBuffer?
    const gpuIndirectBuffer: GPUBuffer?
    const glIndexType: GLenum
    var glAttribs: seq<GLAttrib>
    var glVAOs: seq<VAOEntry>

    constructor (attributes: seq<Attribute>, vertexBuffers: seq<GPUBuffer>, indexBuffer: GPUBuffer?,
                 indirectBuffer: GPUBuffer?, glIndexType: GLenum)
      ensures this.attributes == attributes && gpuVertexBuffers == vertexBuffers
      ensures gpuIndexBuffer == indexBuffer && gpuIndirectBuffer == indirectBuffer
      ensures this.glIndexType == glIndexType && glAttribs == [] && glVAOs == []
    {
      this.attributes := attributes;
      gpuVertexBuffers := vertexBuffers;
      gpuIndexBuffer := indexBuffer;
      gpuIndirectBuffer := indirectBuffer;
      this.glIndexType := glIndexType;
      glAttribs := [];
      glVAOs := [];
    }
  }

  // ---------------------------------------------------------------- the device

  /** The native-state cache the device keeps to skip redundant calls. */
  datatype StateCache = StateCache(
    glArrayBuffer: Handle,
    glElementArrayBuffer: Handle,
    glVAO: Handle,
    texUnit: int,
    glTexUnits: seq<Handle>,
    glRenderbuffer: Handle,
    glFramebuffer: Handle,
    glProgram: Handle,
    viewport: Rect,
    scissorRect: Rect,
    rs: RasterizerState,
    dss: DepthStencilState,
    bs: BlendState,
    glEnabledAttribLocs: map<int, bool>,
    glCurrentAttribLocs: map<int, bool>,
    texUnitCacheMap: map<string, int>)

  /** The command module's own record of what was last bound through it. */
  datatype GfxStateCache = GfxStateCache(
    gpuPipelineState: Option<PipelineState>,
    gpuInputAssembler: GPUInputAssembler?,
    glPrimitive: GLenum)

  datatype Extensions = Extensions(
    useVAO: bool,
    instancedArrays: bool,
    multiDraw: bool,
    drawBuffers: bool,
    depthTexture: bool,
    destroyShadersImmediately: bool,
    noCompressedTexSubImage2D: bool)

  datatype Capabilities = Capabilities(
    maxTextureSize: int, maxCubeMapTextureSize: int, maxTextureUnits: pos, maxVertexAttributes: nat)

  datatype BindingMappings = BindingMappings(flexibleSet: int, samplerTextureOffsets: seq<int>)

  /** A state cache with one slot per texture unit and per vertex attribute of `caps`. */
  predicate CacheShaped(cache: StateCache, caps: Capabilities) {
    |cache.glTexUnits| == caps.maxTextureUnits &&
    0 <= cache.texUnit < |cache.glTexUnits| &&
    (forall a :: 0 <= a < caps.maxVertexAttributes ==>
       a in cache.glEnabledAttribLocs && a in cache.glCurrentAttribLocs) &&
    (forall name :: name in cache.texUnitCacheMap ==>
       -(caps.maxTextureUnits as int) < cache.texUnitCacheMap[name] < caps.maxTextureUnits)
  }

  class WebGLDevice {
    var cache: StateCache
    var gfx: GfxStateCache
    /** The module-level rectangle BeginRenderPass scales the render area into. */
    var realRenderArea: Rect
    /** The module-level staging buffer pixel repacking writes into. */
    var staging: array<bv8>
    var trace: seq<GLCall>
    var log: seq<nat>

    const ext: Extensions
    const caps: Capabilities
    const bindingMappings: BindingMappings
    const formatInfos: Format -> FormatInfo
    /** The engine's byte size of a width x height x depth image of a format. */
    const formatSize: (Format, int, int, int) -> nat
    const textureExclusive: Format -> bool
    /** The native texture of the device's placeholder 2D texture. */
    const nullTex2D: Handle

    /** The cache's shape: one slot per texture unit and per vertex attribute. */
    predicate Valid()
      reads this
    {
      CacheShaped(cache, caps)
    }

    constructor (ext: Extensions, caps: Capabilities, bindingMappings: BindingMappings,
                 formatInfos: Format -> FormatInfo, formatSize: (Format, int, int, int) -> nat,
                 textureExclusive: Format -> bool,
                 nullTex2D: Handle, initial: StateCache)
      requires |initial.glTexUnits| == caps.maxTextureUnits && 0 <= initial.texUnit < caps.maxTextureUnits
      requires forall a :: 0 <= a < caps.maxVertexAttributes ==>
                 a in initial.glEnabledAttribLocs && a in initial.glCurrentAttribLocs
      requires initial.texUnitCacheMap == map[]
      ensures Valid()
      ensures this.ext == ext && this.caps == caps && this.bindingMappings == bindingMappings
      ensures this.formatInfos == formatInfos && this.formatSize == formatSize && this.textureExclusive == textureExclusive
      ensures this.nullTex2D == nullTex2D && cache == initial
      ensures gfx == GfxStateCache(None, null, 0) && trace == [] && log == []
      ensures fresh(staging) && staging[..] == [0]
    {
      this.ext := ext;
      this.caps := caps;
      this.bindingMappings := bindingMappings;
      this.formatInfos := formatInfos;
      this.formatSize := formatSize;
      this.textureExclusive := textureExclusive;
      this.nullTex2D := nullTex2D;
      cache := initial;
      gfx := GfxStateCache(None, null, 0);
      realRenderArea := Rect(0, 0, 0, 0);
      staging := new bv8[1](_ => 0);
      trace := [];
      log := [];
    }

    /** Issue one native call. */
    method Call(c: GLCall)
      modifies this
      ensures trace == old(trace) + [c]
      ensures cache == old(cache) && gfx == old(gfx) && log == old(log)
      ensures realRenderArea == old(realRenderArea) && staging == old(staging)
    {
      trace := trace + [c];
    }

    /** Report a diagnostic, if there is one. */
    method Report(d: Option<nat>)
      modifies this
      ensures log == old(log) + (if d.Some? then [d.value] else [])
      ensures cache == old(cache) && gfx == old(gfx) && trace == old(trace)
      ensures realRenderArea == old(realRenderArea) && staging == old(staging)
    {
      if d.Some? {
        log := log + [d.value];
      }
    }
  }
}

/**
 * The native WebGL context as this model sees it: numeric enums (the values fixed by the
 * WebGL 1.0 specification and the extensions it names), opaque object handles, and the
 * calls the translator issues. The context itself is an append-only trace of `GLCall`s;
 * nothing here models what the GPU does with them.
 */
module GL {
  import opened Wrappers

  type GLenum = int

  /** An opaque native object (buffer, texture, program, VAO, ...); `None` is `null`. */
  type Handle = Option<nat>

  // Buffer targets and usage hints
  const NONE: GLenum := 0
  const ARRAY_BUFFER: GLenum := 0x8892
  const ELEMENT_ARRAY_BUFFER: GLenum := 0x8893
  const STATIC_DRAW: GLenum := 0x88E4
  const DYNAMIC_DRAW: GLenum := 0x88E8

  // Data types
  const BYTE: GLenum := 0x1400
  const UNSIGNED_BYTE: GLenum := 0x1401
  const SHORT: GLenum := 0x1402
  const UNSIGNED_SHORT: GLenum := 0x1403
  const INT: GLenum := 0x1404
  const UNSIGNED_INT: GLenum := 0x1405
  const FLOAT: GLenum := 0x1406
  const UNSIGNED_SHORT_4_4_4_4: GLenum := 0x8033
  const UNSIGNED_SHORT_5_5_5_1: GLenum := 0x8034
  const UNSIGNED_SHORT_5_6_5: GLenum := 0x8363
  const HALF_FLOAT_OES: GLenum := 0x8D61
  const UNSIGNED_INT_24_8_WEBGL: GLenum := 0x84FA

  // Uniform and attribute types
  const FLOAT_VEC2: GLenum := 0x8B50
  const FLOAT_VEC3: GLenum := 0x8B51
  const FLOAT_VEC4: GLenum := 0x8B52
  const INT_VEC2: GLenum := 0x8B53
  const INT_VEC3: GLenum := 0x8B54
  const INT_VEC4: GLenum := 0x8B55
  const BOOL: GLenum := 0x8B56
  const BOOL_VEC2: GLenum := 0x8B57
  const BOOL_VEC3: GLenum := 0x8B58
  const BOOL_VEC4: GLenum := 0x8B59
  const FLOAT_MAT2: GLenum := 0x8B5A
  const FLOAT_MAT3: GLenum := 0x8B5B
  const FLOAT_MAT4: GLenum := 0x8B5C
  const SAMPLER_2D: GLenum := 0x8B5E
  const SAMPLER_CUBE: GLenum := 0x8B60

  // Pixel formats
  const DEPTH_COMPONENT: GLenum := 0x1902
  const ALPHA: GLenum := 0x1906
  const RGB: GLenum := 0x1907
  const RGBA: GLenum := 0x1908
  const LUMINANCE: GLenum := 0x1909
  const LUMINANCE_ALPHA: GLenum := 0x190A
  const DEPTH_STENCIL: GLenum := 0x84F9

  // Sized internal formats
  const RGBA4: GLenum := 0x8056
  const RGB5_A1: GLenum := 0x8057
  const RGB565: GLenum := 0x8D62
  const DEPTH_COMPONENT16: GLenum := 0x81A5
  const RGBA32F_EXT: GLenum := 0x8814
  const RGBA16F_EXT: GLenum := 0x881A
  const SRGB8_ALPHA8_EXT: GLenum := 0x8C43

  // Compressed formats (WEBGL_compressed_texture_s3tc, _s3tc_srgb, _etc1, _etc, _pvrtc, _astc)
  const COMPRESSED_RGB_S3TC_DXT1_EXT: GLenum := 0x83F0
  const COMPRESSED_RGBA_S3TC_DXT1_EXT: GLenum := 0x83F1
  const COMPRESSED_RGBA_S3TC_DXT3_EXT: GLenum := 0x83F2
  const COMPRESSED_RGBA_S3TC_DXT5_EXT: GLenum := 0x83F3
  const COMPRESSED_SRGB_S3TC_DXT1_EXT: GLenum := 0x8C4C
  const COMPRESSED_SRGB_ALPHA_S3TC_DXT1_EXT: GLenum := 0x8C4D
  const COMPRESSED_SRGB_ALPHA_S3TC_DXT3_EXT: GLenum := 0x8C4E
  const COMPRESSED_SRGB_ALPHA_S3TC_DXT5_EXT: GLenum := 0x8C4F
  const COMPRESSED_RGB_ETC1_WEBGL: GLenum := 0x8D64
  const COMPRESSED_R11_EAC: GLenum := 0x9270
  const COMPRESSED_SIGNED_R11_EAC: GLenum := 0x9271
  const COMPRESSED_RG11_EAC: GLenum := 0x9272
  const COMPRESSED_SIGNED_RG11_EAC: GLenum := 0x9273
  const COMPRESSED_RGB8_ETC2: GLenum := 0x9274
  const COMPRESSED_SRGB8_ETC2: GLenum := 0x9275
  const COMPRESSED_RGB8_PUNCHTHROUGH_ALPHA1_ETC2: GLenum := 0x9276
  const COMPRESSED_SRGB8_PUNCHTHROUGH_ALPHA1_ETC2: GLenum := 0x9277
  const COMPRESSED_RGBA8_ETC2_EAC: GLenum := 0x9278
  const COMPRESSED_SRGB8_ALPHA8_ETC2_EAC: GLenum := 0x9279
  const COMPRESSED_RGB_PVRTC_4BPPV1_IMG: GLenum := 0x8C00
  const COMPRESSED_RGB_PVRTC_2BPPV1_IMG: GLenum := 0x8C01
  const COMPRESSED_RGBA_PVRTC_4BPPV1_IMG: GLenum := 0x8C02
  const COMPRESSED_RGBA_PVRTC_2BPPV1_IMG: GLenum := 0x8C03
  /** COMPRESSED_RGBA_ASTC_4x4_KHR; the other RGBA block sizes follow in enum order. */
  const COMPRESSED_RGBA_ASTC_4x4_KHR: GLenum := 0x93B0
  /** COMPRESSED_SRGB8_ALPHA8_ASTC_4x4_KHR; the other sRGB block sizes follow in enum order. */
  const COMPRESSED_SRGB8_ALPHA8_ASTC_4x4_KHR: GLenum := 0x93D0

  // Textures
  const TEXTURE_2D: GLenum := 0x0DE1
  const TEXTURE_CUBE_MAP: GLenum := 0x8513
  const TEXTURE_CUBE_MAP_POSITIVE_X: GLenum := 0x8515
  const TEXTURE0: GLenum := 0x84C0
  const TEXTURE_MAG_FILTER: GLenum := 0x2800
  const TEXTURE_MIN_FILTER: GLenum := 0x2801
  const TEXTURE_WRAP_S: GLenum := 0x2802
  const TEXTURE_WRAP_T: GLenum := 0x2803
  const NEAREST: GLenum := 0x2600
  const LINEAR: GLenum := 0x2601
  const NEAREST_MIPMAP_NEAREST: GLenum := 0x2700
  const LINEAR_MIPMAP_NEAREST: GLenum := 0x2701
  const NEAREST_MIPMAP_LINEAR: GLenum := 0x2702
  const LINEAR_MIPMAP_LINEAR: GLenum := 0x2703
  const REPEAT: GLenum := 0x2901
  const CLAMP_TO_EDGE: GLenum := 0x812F
  const MIRRORED_REPEAT: GLenum := 0x8370

  // Framebuffers and renderbuffers
  const FRAMEBUFFER: GLenum := 0x8D40
  const RENDERBUFFER: GLenum := 0x8D41
  const COLOR_ATTACHMENT0: GLenum := 0x8CE0
  const DEPTH_ATTACHMENT: GLenum := 0x8D00
  const DEPTH_STENCIL_ATTACHMENT: GLenum := 0x821A
  const FRAMEBUFFER_COMPLETE: GLenum := 0x8CD5
  const FRAMEBUFFER_INCOMPLETE_ATTACHMENT: GLenum := 0x8CD6
  const FRAMEBUFFER_INCOMPLETE_MISSING_ATTACHMENT: GLenum := 0x8CD7
  const FRAMEBUFFER_INCOMPLETE_DIMENSIONS: GLenum := 0x8CD9
  const FRAMEBUFFER_UNSUPPORTED: GLenum := 0x8CDD

  // Shaders
  const FRAGMENT_SHADER: GLenum := 0x8B30
  const VERTEX_SHADER: GLenum := 0x8B31

  // Capabilities, faces and winding
  const CULL_FACE: GLenum := 0x0B44
  const DEPTH_TEST: GLenum := 0x0B71
  const STENCIL_TEST: GLenum := 0x0B90
  const BLEND: GLenum := 0x0BE2
  const SAMPLE_ALPHA_TO_COVERAGE: GLenum := 0x809E
  const FRONT: GLenum := 0x0404
  const BACK: GLenum := 0x0405
  const FRONT_AND_BACK: GLenum := 0x0408
  const CW: GLenum := 0x0900
  const CCW: GLenum := 0x0901

  // Comparison functions
  const NEVER: GLenum := 0x0200
  const LESS: GLenum := 0x0201
  const EQUAL: GLenum := 0x0202
  const LEQUAL: GLenum := 0x0203
  const GREATER: GLenum := 0x0204
  const NOTEQUAL: GLenum := 0x0205
  const GEQUAL: GLenum := 0x0206
  const ALWAYS: GLenum := 0x0207

  // Clear bits
  const DEPTH_BUFFER_BIT: int := 0x0100
  const STENCIL_BUFFER_BIT: int := 0x0400
  const COLOR_BUFFER_BIT: int := 0x4000

  /** The `gl.uniform*v` / `gl.uniformMatrix*fv` entry point used to push one uniform member. */
  datatype UniformFn =
    | Uniform1iv | Uniform2iv | Uniform3iv | Uniform4iv
    | Uniform1fv | Uniform2fv | Uniform3fv | Uniform4fv
    | UniformMatrix2fv | UniformMatrix3fv | UniformMatrix4fv

  /** One native call, with the arguments that matter for state; recorded in issue order. */
  datatype GLCall =
    // buffers and vertex arrays
    | BindBuffer(target: GLenum, buffer: Handle)
    | BufferData(target: GLenum, size: int, usage: GLenum)
    | BufferDataFrom(target: GLenum, data: seq<bv8>, usage: GLenum)
    | BufferSubData(target: GLenum, offset: int, data: seq<bv8>)
    | DeleteBuffer(deletedBuffer: nat)
    | BindVertexArray(vao: Handle)
    | DeleteVertexArray(deletedVao: nat)
    | EnableVertexAttribArray(location: int)
    | DisableVertexAttribArray(location: int)
    | VertexAttribPointer(location: int, size: int, glType: GLenum, normalized: bool, stride: int, offset: int)
    | VertexAttribDivisor(location: int, divisor: int)
    // textures and renderbuffers
    | ActiveTexture(unit: GLenum)
    | BindTexture(target: GLenum, texture: Handle)
    | TexImage2D(target: GLenum, level: int, internalFormat: GLenum, width: int, height: int, format: GLenum, glType: GLenum)
    | CompressedTexImage2D(target: GLenum, level: int, internalFormat: GLenum, width: int, height: int, pixels: seq<bv8>)
    | TexSubImage2D(target: GLenum, level: int, x: int, y: int, width: int, height: int, format: GLenum, glType: GLenum, pixels: seq<bv8>)
    | CompressedTexSubImage2D(target: GLenum, level: int, x: int, y: int, width: int, height: int, format: GLenum, pixels: seq<bv8>)
    | TexParameteri(target: GLenum, pname: GLenum, param: GLenum)
    | GenerateMipmap(target: GLenum)
    | DeleteTexture(deletedTexture: nat)
    | BindRenderbuffer(renderbuffer: Handle)
    | RenderbufferStorage(internalFormat: GLenum, width: int, height: int)
    | DeleteRenderbuffer(deletedRenderbuffer: nat)
    // framebuffers
    | BindFramebuffer(framebuffer: Handle)
    | FramebufferTexture2D(attachment: GLenum, texTarget: GLenum, texture: Handle, level: int)
    | FramebufferRenderbuffer(attachment: GLenum, renderbuffer: Handle)
    | DrawBuffers(buffers: seq<GLenum>)
    | DeleteFramebuffer(deletedFramebuffer: nat)
    // shaders and programs
    | ShaderSource(sourceShader: nat, source: string)
    | CompileShader(compiledShader: nat)
    | DeleteShader(deletedShader: nat)
    | AttachShader(attachProgram: nat, attached: Handle)
    | DetachShader(detachProgram: nat, detached: nat)
    | LinkProgram(linkedProgram: nat)
    | UseProgram(program: Handle)
    | DeleteProgram(deletedProgram: nat)
    | SetSamplerUnits(samplerLocation: Handle, units: seq<int>)
    | SetUniform(fn: UniformFn, uniformLocation: Handle, values: seq<real>)
    // fixed-function state
    | Enable(cap: GLenum)
    | Disable(cap: GLenum)
    | CullFace(mode: GLenum)
    | FrontFace(mode: GLenum)
    | PolygonOffset(factor: real, offsetUnits: real)
    | LineWidth(lineWidth: real)
    | DepthMask(flag: bool)
    | DepthFunc(func: GLenum)
    | StencilFuncSeparate(face: GLenum, func: GLenum, ref: int, mask: int)
    | StencilOpSeparate(face: GLenum, fail: GLenum, zfail: GLenum, zpass: GLenum)
    | StencilMaskSeparate(face: GLenum, mask: int)
    | BlendColor(red: real, green: real, blue: real, alpha: real)
    | BlendEquationSeparate(modeRGB: GLenum, modeAlpha: GLenum)
    | BlendFuncSeparate(srcRGB: GLenum, dstRGB: GLenum, srcAlpha: GLenum, dstAlpha: GLenum)
    | ColorMask(maskRed: bool, maskGreen: bool, maskBlue: bool, maskAlpha: bool)
    | Viewport(x: int, y: int, width: int, height: int)
    | Scissor(x: int, y: int, width: int, height: int)
    | ClearColor(red: real, green: real, blue: real, alpha: real)
    | ClearDepth(depth: real)
    | ClearStencil(s: int)
    | Clear(mask: int)
    // draws
    | DrawArrays(mode: GLenum, first: int, count: int)
    | DrawElements(mode: GLenum, count: int, glType: GLenum, offset: int)
    | DrawArraysInstanced(mode: GLenum, first: int, count: int, instances: int)
    | DrawElementsInstanced(mode: GLenum, count: int, glType: GLenum, offset: int, instances: int)
    | MultiDrawArrays(mode: GLenum, firsts: seq<int>, counts: seq<int>, drawCount: nat)
    | MultiDrawArraysInstanced(mode: GLenum, firsts: seq<int>, counts: seq<int>, instanceCounts: seq<int>, drawCount: nat)
    | MultiDrawElements(mode: GLenum, counts: seq<int>, glType: GLenum, offsets: seq<int>, drawCount: nat)
    | MultiDrawElementsInstanced(mode: GLenum, counts: seq<int>, glType: GLenum, offsets: seq<int>, instanceCounts: seq<int>, drawCount: nat)

  /** `[x]` when `b` holds, else nothing: a call the translator issues only when state differs. */
  function Optional(b: bool, x: GLCall): seq<GLCall> {
    if b then [x] else []
  }

  lemma InOptional(b: bool, x: GLCall)
    ensures (Optional(b, x) == [] <==> !b) && forall y :: y in Optional(b, x) <==> b && y == x
  {
  }

  /** Three stages appended one after another make up their concatenation. */
  lemma AppendThree(t0: seq<GLCall>, t1: seq<GLCall>, t2: seq<GLCall>, t3: seq<GLCall>,
                    a: seq<GLCall>, b: seq<GLCall>, c: seq<GLCall>)
    requires t1 == t0 + a && t2 == t1 + b && t3 == t2 + c
    ensures t3 == t0 + (a + b + c)
  {
    assert t0 + a + b + c == t0 + (a + b + c);
  }

  /** Four stages appended one after another make up their concatenation. */
  lemma AppendFour(t0: seq<GLCall>, t1: seq<GLCall>, t2: seq<GLCall>, t3: seq<GLCall>, t4: seq<GLCall>,
                   a: seq<GLCall>, b: seq<GLCall>, c: seq<GLCall>, d: seq<GLCall>)
    requires t1 == t0 + a && t2 == t1 + b && t3 == t2 + c && t4 == t3 + d
    ensures t4 == t0 + (a + b + c + d)
  {
    assert t0 + a + b + c + d == t0 + (a + b + c + d);
  }
}

/**
 * The translation tables between the engine's abstract formats and types and WebGL enums
 * (webgl-commands.ts, lines 49-442). Each table that reports an unknown input through the
 * engine's diagnostic channel returns a `Translated` value carrying the diagnostic number.
 */
module Formats {
  import opened Wrappers
  import opened GL

  /** The engine's texture/vertex format enum, restricted to the members the tables name. */
  datatype Format =
    | UNKNOWN | A8 | L8 | LA8
    | R8 | R8SN | R8UI | R8I | R16F | R16UI | R16I | R32F | R32UI | R32I
    | RG8 | RG8SN | RG8UI | RG8I | RG16F | RG16UI | RG16I | RG32F | RG32UI | RG32I
    | RGB8 | SRGB8 | RGB8SN | RGB8UI | RGB8I | RGB16F | RGB16UI | RGB16I | RGB32F | RGB32UI | RGB32I
    | BGRA8 | RGBA8 | SRGB8_A8 | RGBA8SN | RGBA8UI | RGBA8I | RGBA16F | RGBA16UI | RGBA16I
    | RGBA32F | RGBA32UI | RGBA32I
    | R5G6B5 | R11G11B10F | RGB5A1 | RGBA4 | RGB10A2 | RGB10A2UI | RGB9E5
    | DEPTH | DEPTH_STENCIL
    | BC1 | BC1_ALPHA | BC1_SRGB | BC1_SRGB_ALPHA | BC2 | BC2_SRGB | BC3 | BC3_SRGB
    | BC4 | BC4_SNORM | BC5 | BC5_SNORM | BC6H_SF16 | BC6H_UF16 | BC7 | BC7_SRGB
    | ETC_RGB8 | ETC2_RGB8 | ETC2_SRGB8 | ETC2_RGB8_A1 | ETC2_SRGB8_A1 | ETC2_RGBA8 | ETC2_SRGB8_A8
    | EAC_R11 | EAC_R11SN | EAC_RG11 | EAC_RG11SN
    | PVRTC_RGB2 | PVRTC_RGBA2 | PVRTC_RGB4 | PVRTC_RGBA4 | PVRTC2_2BPP | PVRTC2_4BPP
      /** ASTC with linear RGBA (`srgb == false`) or sRGB (`srgb == true`); `block` is the
          position of the block size in the order 4x4, 5x4, 5x5, 6x5, 6x6, 8x5, 8x6, 8x8,
          10x5, 10x6, 10x8, 10x10, 12x10, 12x12. */
    | ASTC(srgb: bool, block: AstcBlock)

  type AstcBlock = b: nat | b < 14

  /** The engine's shader value type enum; `OtherType` stands for every member no table names. */
  datatype Type =
    | TypeUnknown
    | TBool | TBool2 | TBool3 | TBool4
    | TInt | TInt2 | TInt3 | TInt4
    | TUint
    | TFloat | TFloat2 | TFloat3 | TFloat4
    | TMat2 | TMat3 | TMat4
    | TSampler2D | TSamplerCube
    | OtherType(ordinal: nat)

  /** A table result together with the diagnostic the table reported, if any. */
  datatype Translated = Translated(value: GLenum, diagnostic: Option<nat>)

  /** What every format-driven command needs from the engine's per-format description. */
  datatype FormatInfo = FormatInfo(
    size: nat,              // bytes of one element (one block for compressed formats)
    count: nat,             // components
    isCompressed: bool,
    hasDepth: bool,
    hasStencil: bool,
    blockWidth: nat,        // texel footprint of one element: 1x1 for plain formats
    blockHeight: nat)

  // ---------------------------------------------------------------- data types

  /** The pixel data type WebGL expects for a format (lines 49-175); unknown formats fall
      back to UNSIGNED_BYTE without a diagnostic. */
  function FormatToGLType(format: Format): (r: GLenum)
    ensures r in {UNSIGNED_BYTE, BYTE, HALF_FLOAT_OES, UNSIGNED_SHORT, SHORT, FLOAT, UNSIGNED_INT, INT,
                  UNSIGNED_SHORT_5_6_5, UNSIGNED_SHORT_5_5_5_1, UNSIGNED_SHORT_4_4_4_4, UNSIGNED_INT_24_8_WEBGL}
    ensures format.ASTC? ==> r == UNSIGNED_BYTE
  {
    match format
    case R8 => UNSIGNED_BYTE
    case R8SN => BYTE
    case R8UI => UNSIGNED_BYTE
    case R8I => BYTE
    case R16F => HALF_FLOAT_OES
    case R16UI => UNSIGNED_SHORT
    case R16I => SHORT
    case R32F => FLOAT
    case R32UI => UNSIGNED_INT
    case R32I => INT
    case RG8 => UNSIGNED_BYTE
    case RG8SN => BYTE
    case RG8UI => UNSIGNED_BYTE
    case RG8I => BYTE
    case RG16F => HALF_FLOAT_OES
    case RG16UI => UNSIGNED_SHORT
    case RG16I => SHORT
    case RG32F => FLOAT
    case RG32UI => UNSIGNED_INT
    case RG32I => INT
    case RGB8 => UNSIGNED_BYTE
    case SRGB8 => UNSIGNED_BYTE
    case RGB8SN => BYTE
    case RGB8UI => UNSIGNED_BYTE
    case RGB8I => BYTE
    case RGB16F => HALF_FLOAT_OES
    case RGB16UI => UNSIGNED_SHORT
    case RGB16I => SHORT
    case RGB32F => FLOAT
    case RGB32UI => UNSIGNED_INT
    case RGB32I => INT
    case BGRA8 => UNSIGNED_BYTE
    case RGBA8 => UNSIGNED_BYTE
    case SRGB8_A8 => UNSIGNED_BYTE
    case RGBA8SN => BYTE
    case RGBA8UI => UNSIGNED_BYTE
    case RGBA8I => BYTE
    case RGBA16F => HALF_FLOAT_OES
    case RGBA16UI => UNSIGNED_SHORT
    case RGBA16I => SHORT
    case RGBA32F => FLOAT
    case RGBA32UI => UNSIGNED_INT
    case RGBA32I => INT
    case R5G6B5 => UNSIGNED_SHORT_5_6_5
    case R11G11B10F => FLOAT
    case RGB5A1 => UNSIGNED_SHORT_5_5_5_1
    case RGBA4 => UNSIGNED_SHORT_4_4_4_4
    case RGB10A2 => UNSIGNED_BYTE
    case RGB10A2UI => UNSIGNED_INT
    case RGB9E5 => UNSIGNED_BYTE
    case DEPTH => UNSIGNED_INT
    case DEPTH_STENCIL => UNSIGNED_INT_24_8_WEBGL
    case BC4_SNORM => BYTE
    case BC5_SNORM => BYTE
    case BC6H_SF16 => FLOAT
    case BC6H_UF16 => FLOAT
    case EAC_R11SN => BYTE
    case EAC_RG11SN => BYTE
    // every other block-compressed format, ASTC included, and the default arm
    case _ => UNSIGNED_BYTE
  }

  // ---------------------------------------------------------------- internal formats

  /** The formats with a sized internal format of their own (lines 177-193). */
  predicate HasSizedInternalFormat(format: Format) {
    format in {R5G6B5, RGB5A1, RGBA4, RGBA16F, RGBA32F, SRGB8_A8, DEPTH, DEPTH_STENCIL}
  }

  /** The `internalformat` argument for renderbuffer storage; any other format reports
      diagnostic 16309 and falls back to RGBA. */
  function FormatToGLInternalFormat(format: Format): (r: Translated)
    ensures r.diagnostic.Some? <==> !HasSizedInternalFormat(format)
    ensures r.diagnostic.Some? ==> r.diagnostic == Some(16309) && r.value == RGBA
    ensures r.diagnostic.None? ==> r.value != RGBA
  {
    match format
    case R5G6B5 => Translated(RGB565, None)
    case RGB5A1 => Translated(RGB5_A1, None)
    case RGBA4 => Translated(GL.RGBA4, None)
    case RGBA16F => Translated(RGBA16F_EXT, None)
    case RGBA32F => Translated(RGBA32F_EXT, None)
    case SRGB8_A8 => Translated(SRGB8_ALPHA8_EXT, None)
    case DEPTH => Translated(DEPTH_COMPONENT16, None)
    case DEPTH_STENCIL => Translated(GL.DEPTH_STENCIL, None)
    case _ => Translated(GL.RGBA, Some(16309))
  }

  /** Distinct sized formats never share an internal format. */
  lemma InternalFormatInjective(f: Format, g: Format)
    requires HasSizedInternalFormat(f) && HasSizedInternalFormat(g) && f != g
    ensures FormatToGLInternalFormat(f).value != FormatToGLInternalFormat(g).value
  {
  }

  // ---------------------------------------------------------------- pixel formats

  /** The position of an ASTC block size in the KHR enum run. */
  function AstcEnum(srgb: bool, block: AstcBlock): (r: GLenum)
    ensures srgb ==> COMPRESSED_SRGB8_ALPHA8_ASTC_4x4_KHR <= r < COMPRESSED_SRGB8_ALPHA8_ASTC_4x4_KHR + 14
    ensures !srgb ==> COMPRESSED_RGBA_ASTC_4x4_KHR <= r < COMPRESSED_RGBA_ASTC_4x4_KHR + 14
  {
    (if srgb then COMPRESSED_SRGB8_ALPHA8_ASTC_4x4_KHR else COMPRESSED_RGBA_ASTC_4x4_KHR) + block
  }

  /** How the pixel-format table (lines 195-275) treats a format: an uncompressed WebGL
      format, a compressed-texture enum, or the default arm (PVRTC2 and the BC4-BC7
      families among others). */
  datatype GLFormatClass = Uncompressed | Compressed | Unlisted

  function GLFormatClassOf(format: Format): GLFormatClass {
    match format
    case A8 | L8 | LA8 | RGB8 | RGB16F | RGB32F | BGRA8 | RGBA8 | SRGB8_A8 | RGBA16F | RGBA32F
       | R5G6B5 | RGB5A1 | RGBA4 | DEPTH | DEPTH_STENCIL => Uncompressed
    case BC1 | BC1_ALPHA | BC1_SRGB | BC1_SRGB_ALPHA | BC2 | BC2_SRGB | BC3 | BC3_SRGB
       | ETC_RGB8 | ETC2_RGB8 | ETC2_SRGB8 | ETC2_RGB8_A1 | ETC2_SRGB8_A1 | ETC2_RGBA8 | ETC2_SRGB8_A8
       | EAC_R11 | EAC_R11SN | EAC_RG11 | EAC_RG11SN
       | PVRTC_RGB2 | PVRTC_RGBA2 | PVRTC_RGB4 | PVRTC_RGBA4 | ASTC(_, _) => Compressed
    case _ => Unlisted
  }

  predicate HasGLFormat(format: Format) {
    GLFormatClassOf(format) != Unlisted
  }

  predicate IsCompressedGLFormat(format: Format) {
    GLFormatClassOf(format) == Compressed
  }

  /** The uncompressed pixel formats WebGL accepts. */
  predicate IsPlainGLFormat(value: GLenum) {
    value in {ALPHA, LUMINANCE, LUMINANCE_ALPHA, RGB, RGBA, DEPTH_COMPONENT, GL.DEPTH_STENCIL}
  }

  /** The `format` argument for texture uploads (and the internal format of compressed
      uploads); any other format reports diagnostic 16310 and falls back to RGBA. */
  function FormatToGLFormat(format: Format): (r: Translated)
    ensures r.diagnostic.Some? <==> !HasGLFormat(format)
    ensures r.diagnostic.Some? ==> r.diagnostic == Some(16310) && r.value == RGBA
    ensures IsCompressedGLFormat(format) <==> r.diagnostic.None? && !IsPlainGLFormat(r.value)
  {
    match GLFormatClassOf(format)
    case Uncompressed => Translated(UncompressedGLFormat(format), None)
    case Compressed => Translated(CompressedGLFormat(format), None)
    case Unlisted => Translated(GL.RGBA, Some(16310))
  }

  /** The arms of the pixel-format table that name an uncompressed format. */
  function UncompressedGLFormat(format: Format): (r: GLenum)
    requires GLFormatClassOf(format) == Uncompressed
    ensures IsPlainGLFormat(r)
  {
    match format
    case A8 => ALPHA
    case L8 => LUMINANCE
    case LA8 => LUMINANCE_ALPHA
    case RGB8 | RGB16F | RGB32F | R5G6B5 => RGB
    case BGRA8 | RGBA8 | SRGB8_A8 | RGBA16F | RGBA32F | RGB5A1 | RGBA4 => GL.RGBA
    case DEPTH => DEPTH_COMPONENT
    case DEPTH_STENCIL => GL.DEPTH_STENCIL
  }

  /** The arms of the pixel-format table that name a compressed-texture enum. */
  function CompressedGLFormat(format: Format): (r: GLenum)
    requires GLFormatClassOf(format) == Compressed
    ensures !IsPlainGLFormat(r)
  {
    match format
    case BC1 => COMPRESSED_RGB_S3TC_DXT1_EXT
    case BC1_ALPHA => COMPRESSED_RGBA_S3TC_DXT1_EXT
    case BC1_SRGB => COMPRESSED_SRGB_S3TC_DXT1_EXT
    case BC1_SRGB_ALPHA => COMPRESSED_SRGB_ALPHA_S3TC_DXT1_EXT
    case BC2 => COMPRESSED_RGBA_S3TC_DXT3_EXT
    case BC2_SRGB => COMPRESSED_SRGB_ALPHA_S3TC_DXT3_EXT
    case BC3 => COMPRESSED_RGBA_S3TC_DXT5_EXT
    case BC3_SRGB => COMPRESSED_SRGB_ALPHA_S3TC_DXT5_EXT
    case ETC_RGB8 => COMPRESSED_RGB_ETC1_WEBGL
    case ETC2_RGB8 => COMPRESSED_RGB8_ETC2
    case ETC2_SRGB8 => COMPRESSED_SRGB8_ETC2
    case ETC2_RGB8_A1 => COMPRESSED_RGB8_PUNCHTHROUGH_ALPHA1_ETC2
    case ETC2_SRGB8_A1 => COMPRESSED_SRGB8_PUNCHTHROUGH_ALPHA1_ETC2
    case ETC2_RGBA8 => COMPRESSED_RGBA8_ETC2_EAC
    case ETC2_SRGB8_A8 => COMPRESSED_SRGB8_ALPHA8_ETC2_EAC
    case EAC_R11 => COMPRESSED_R11_EAC
    case EAC_R11SN => COMPRESSED_SIGNED_R11_EAC
    case EAC_RG11 => COMPRESSED_RG11_EAC
    case EAC_RG11SN => COMPRESSED_SIGNED_RG11_EAC
    case PVRTC_RGB2 => COMPRESSED_RGB_PVRTC_2BPPV1_IMG
    case PVRTC_RGBA2 => COMPRESSED_RGBA_PVRTC_2BPPV1_IMG
    case PVRTC_RGB4 => COMPRESSED_RGB_PVRTC_4BPPV1_IMG
    case PVRTC_RGBA4 => COMPRESSED_RGBA_PVRTC_4BPPV1_IMG
    case ASTC(srgb, block) => AstcEnum(srgb, block)
  }

  /** The compressed format a compressed-texture enum stands for, if any: the pixel-format
      table read backwards. */
  function CompressedFormatOf(e: GLenum): Option<Format> {
    if e == COMPRESSED_RGB_S3TC_DXT1_EXT then Some(BC1)
    else if e == COMPRESSED_RGBA_S3TC_DXT1_EXT then Some(BC1_ALPHA)
    else if e == COMPRESSED_SRGB_S3TC_DXT1_EXT then Some(BC1_SRGB)
    else if e == COMPRESSED_SRGB_ALPHA_S3TC_DXT1_EXT then Some(BC1_SRGB_ALPHA)
    else if e == COMPRESSED_RGBA_S3TC_DXT3_EXT then Some(BC2)
    else if e == COMPRESSED_SRGB_ALPHA_S3TC_DXT3_EXT then Some(BC2_SRGB)
    else if e == COMPRESSED_RGBA_S3TC_DXT5_EXT then Some(BC3)
    else if e == COMPRESSED_SRGB_ALPHA_S3TC_DXT5_EXT then Some(BC3_SRGB)
    else if e == COMPRESSED_RGB_ETC1_WEBGL then Some(ETC_RGB8)
    else if e == COMPRESSED_RGB8_ETC2 then Some(ETC2_RGB8)
    else if e == COMPRESSED_SRGB8_ETC2 then Some(ETC2_SRGB8)
    else if e == COMPRESSED_RGB8_PUNCHTHROUGH_ALPHA1_ETC2 then Some(ETC2_RGB8_A1)
    else if e == COMPRESSED_SRGB8_PUNCHTHROUGH_ALPHA1_ETC2 then Some(ETC2_SRGB8_A1)
    else if e == COMPRESSED_RGBA8_ETC2_EAC then Some(ETC2_RGBA8)
    else if e == COMPRESSED_SRGB8_ALPHA8_ETC2_EAC then Some(ETC2_SRGB8_A8)
    else if e == COMPRESSED_R11_EAC then Some(EAC_R11)
    else if e == COMPRESSED_SIGNED_R11_EAC then Some(EAC_R11SN)
    else if e == COMPRESSED_RG11_EAC then Some(EAC_RG11)
    else if e == COMPRESSED_SIGNED_RG11_EAC then Some(EAC_RG11SN)
    else if e == COMPRESSED_RGB_PVRTC_2BPPV1_IMG then Some(PVRTC_RGB2)
    else if e == COMPRESSED_RGBA_PVRTC_2BPPV1_IMG then Some(PVRTC_RGBA2)
    else if e == COMPRESSED_RGB_PVRTC_4BPPV1_IMG then Some(PVRTC_RGB4)
    else if e == COMPRESSED_RGBA_PVRTC_4BPPV1_IMG then Some(PVRTC_RGBA4)
    else if COMPRESSED_RGBA_ASTC_4x4_KHR <= e < COMPRESSED_RGBA_ASTC_4x4_KHR + 14
    then Some(ASTC(false, e - COMPRESSED_RGBA_ASTC_4x4_KHR))
    else if COMPRESSED_SRGB8_ALPHA8_ASTC_4x4_KHR <= e < COMPRESSED_SRGB8_ALPHA8_ASTC_4x4_KHR + 14
    then Some(ASTC(true, e - COMPRESSED_SRGB8_ALPHA8_ASTC_4x4_KHR))
    else None
  }

  /** A compressed format's GL enum reads back as that format. */
  lemma CompressedGLFormatRoundTrip(f: Format)
    requires IsCompressedGLFormat(f)
    ensures CompressedFormatOf(FormatToGLFormat(f).value) == Some(f)
  {
  }

  /** Distinct compressed formats upload under distinct enums, so a compressed texture's
      GL format identifies its engine format. */
  lemma CompressedGLFormatInjective(f: Format, g: Format)
    requires IsCompressedGLFormat(f) && IsCompressedGLFormat(g) && f != g
    ensures FormatToGLFormat(f).value != FormatToGLFormat(g).value
  {
    CompressedGLFormatRoundTrip(f);
    CompressedGLFormatRoundTrip(g);
  }

  // ---------------------------------------------------------------- shader value types

  /** The types the engine-to-WebGL type table names (lines 277-302). */
  predicate IsTranslatableType(t: Type) {
    !t.TypeUnknown? && !t.OtherType?
  }

  /** The WebGL enum of a shader value type; other types report diagnostic 16311 and yield
      the engine's UNKNOWN ordinal, 0. */
  function TypeToGLType(t: Type): (r: Translated)
    ensures r.diagnostic.Some? <==> !IsTranslatableType(t)
    ensures r.diagnostic.Some? ==> r == Translated(0, Some(16311))
  {
    match t
    case TBool => Translated(GL.BOOL, None)
    case TBool2 => Translated(BOOL_VEC2, None)
    case TBool3 => Translated(BOOL_VEC3, None)
    case TBool4 => Translated(BOOL_VEC4, None)
    case TInt => Translated(GL.INT, None)
    case TInt2 => Translated(INT_VEC2, None)
    case TInt3 => Translated(INT_VEC3, None)
    case TInt4 => Translated(INT_VEC4, None)
    case TUint => Translated(UNSIGNED_INT, None)
    case TFloat => Translated(GL.FLOAT, None)
    case TFloat2 => Translated(FLOAT_VEC2, None)
    case TFloat3 => Translated(FLOAT_VEC3, None)
    case TFloat4 => Translated(FLOAT_VEC4, None)
    case TMat2 => Translated(FLOAT_MAT2, None)
    case TMat3 => Translated(FLOAT_MAT3, None)
    case TMat4 => Translated(FLOAT_MAT4, None)
    case TSampler2D => Translated(SAMPLER_2D, None)
    case TSamplerCube => Translated(SAMPLER_CUBE, None)
    case _ => Translated(0, Some(16311))
  }

  /** The WebGL enums the WebGL-to-engine type table names (lines 331-356). */
  predicate IsKnownGLType(glType: GLenum) {
    glType in {GL.BOOL, BOOL_VEC2, BOOL_VEC3, BOOL_VEC4, GL.INT, INT_VEC2, INT_VEC3, INT_VEC4,
               UNSIGNED_INT, GL.FLOAT, FLOAT_VEC2, FLOAT_VEC3, FLOAT_VEC4,
               FLOAT_MAT2, FLOAT_MAT3, FLOAT_MAT4, SAMPLER_2D, SAMPLER_CUBE}
  }

  /** The engine type of a WebGL enum; other enums report diagnostic 16313 and yield UNKNOWN. */
  function GLTypeToType(glType: GLenum): (r: Type)
    ensures r != TypeUnknown <==> IsKnownGLType(glType)
    ensures !r.OtherType?
  {
    if glType == GL.BOOL then TBool
    else if glType == BOOL_VEC2 then TBool2
    else if glType == BOOL_VEC3 then TBool3
    else if glType == BOOL_VEC4 then TBool4
    else if glType == GL.INT then TInt
    else if glType == INT_VEC2 then TInt2
    else if glType == INT_VEC3 then TInt3
    else if glType == INT_VEC4 then TInt4
    else if glType == UNSIGNED_INT then TUint
    else if glType == GL.FLOAT then TFloat
    else if glType == FLOAT_VEC2 then TFloat2
    else if glType == FLOAT_VEC3 then TFloat3
    else if glType == FLOAT_VEC4 then TFloat4
    else if glType == FLOAT_MAT2 then TMat2
    else if glType == FLOAT_MAT3 then TMat3
    else if glType == FLOAT_MAT4 then TMat4
    else if glType == SAMPLER_2D then TSampler2D
    else if glType == SAMPLER_CUBE then TSamplerCube
    else TypeUnknown
  }

  /** The diagnostic the WebGL-to-engine table reports. */
  function GLTypeToTypeDiagnostic(glType: GLenum): (r: Option<nat>)
    ensures r.Some? <==> GLTypeToType(glType) == TypeUnknown
    ensures r.Some? ==> r.value == 16313
  {
    if IsKnownGLType(glType) then None else Some(16313)
  }

  /** Translating a type to WebGL and back yields the type itself. */
  lemma TypeRoundTrip(t: Type)
    requires IsTranslatableType(t)
    ensures GLTypeToType(TypeToGLType(t).value) == t
  {
  }

  /** Translating a WebGL enum to an engine type and back yields the enum itself. */
  lemma GLTypeRoundTrip(glType: GLenum)
    requires IsKnownGLType(glType)
    ensures TypeToGLType(GLTypeToType(glType)) == Translated(glType, None)
  {
  }

  /** Integer-backed types are uploaded from an Int32Array, the rest from a Float32Array
      (lines 304-329); types outside both lists report diagnostic 16312. */
  datatype ArrayKind = Int32Array | Float32Array

  function TypeToArrayKind(t: Type): (r: (ArrayKind, Option<nat>))
    ensures r.0 == Int32Array <==> t in {TBool, TBool2, TBool3, TBool4, TInt, TInt2, TInt3, TInt4, TUint}
    ensures r.1.Some? <==> t.TypeUnknown? || t.OtherType? || t.TSampler2D? || t.TSamplerCube?
    ensures r.1.Some? ==> r.1.value == 16312
  {
    match t
    case TBool | TBool2 | TBool3 | TBool4 | TInt | TInt2 | TInt3 | TInt4 | TUint => (Int32Array, None)
    case TFloat | TFloat2 | TFloat3 | TFloat4 | TMat2 | TMat3 | TMat4 => (Float32Array, None)
    case _ => (Float32Array, Some(16312))
  }

  /** Byte size of one value of a WebGL uniform type (lines 358-383); unknown enums report
      diagnostic 16314 and size 0. */
  function GLTypeSize(glType: GLenum): (r: Translated)
    ensures r.value % 4 == 0
    ensures r.value == 0 <==> !IsKnownGLType(glType)
    ensures r.diagnostic.Some? <==> !IsKnownGLType(glType)
    ensures r.diagnostic.Some? ==> r.diagnostic.value == 16314
  {
    if glType == GL.BOOL then Translated(4, None)
    else if glType == BOOL_VEC2 then Translated(8, None)
    else if glType == BOOL_VEC3 then Translated(12, None)
    else if glType == BOOL_VEC4 then Translated(16, None)
    else if glType == GL.INT then Translated(4, None)
    else if glType == INT_VEC2 then Translated(8, None)
    else if glType == INT_VEC3 then Translated(12, None)
    else if glType == INT_VEC4 then Translated(16, None)
    else if glType == UNSIGNED_INT then Translated(4, None)
    else if glType == GL.FLOAT then Translated(4, None)
    else if glType == FLOAT_VEC2 then Translated(8, None)
    else if glType == FLOAT_VEC3 then Translated(12, None)
    else if glType == FLOAT_VEC4 then Translated(16, None)
    else if glType == FLOAT_MAT2 then Translated(16, None)
    else if glType == FLOAT_MAT3 then Translated(36, None)
    else if glType == FLOAT_MAT4 then Translated(64, None)
    else if glType == SAMPLER_2D then Translated(4, None)
    else if glType == SAMPLER_CUBE then Translated(4, None)
    else Translated(0, Some(16314))
  }

  /** Number of columns a WebGL uniform type occupies as a vertex attribute (lines 385-394). */
  function GLComponentCount(glType: GLenum): (r: nat)
    ensures 1 <= r <= 4
    ensures r > 1 <==> glType in {FLOAT_MAT2, FLOAT_MAT3, FLOAT_MAT4}
  {
    if glType == FLOAT_MAT2 then 2
    else if glType == FLOAT_MAT3 then 3
    else if glType == FLOAT_MAT4 then 4
    else 1
  }

  /** A matrix of n columns is n columns of n floats: its size is 4 * n * n bytes, and
      splitting it into columns gives columns of a vec-n each. */
  lemma MatrixSizeIsColumnsSquared(glType: GLenum)
    requires glType in {FLOAT_MAT2, FLOAT_MAT3, FLOAT_MAT4}
    ensures GLTypeSize(glType).value == 4 * GLComponentCount(glType) * GLComponentCount(glType)
  {
  }

  // ---------------------------------------------------------------- lookup arrays

  /** Engine comparison function, stencil op, blend op and blend factor ordinals. */
  type ComparisonFunc = i: nat | i < 8
  type StencilOp = i: nat | i < 8
  type BlendOp = i: nat | i < 5
  type BlendFactor = i: nat | i < 15

  /** The lookup arrays of lines 396-442, indexed by the engine enum's ordinal. */
  const CmpFuncs: seq<GLenum> := [NEVER, LESS, EQUAL, LEQUAL, GREATER, NOTEQUAL, GEQUAL, ALWAYS]
  const StencilOps: seq<GLenum> := [0x0000, 0x1E00, 0x1E01, 0x1E02, 0x1E03, 0x150A, 0x8507, 0x8508]
  const BlendOps: seq<GLenum> := [0x8006, 0x800A, 0x800B, 0x8007, 0x8008]
  const BlendFactors: seq<GLenum> :=
    [0x0000, 0x0001, 0x0302, 0x0304, 0x0303, 0x0305, 0x0300, 0x0306, 0x0301, 0x0307,
     0x0308, 0x8001, 0x8002, 0x8003, 0x8004]

  /** All entries of a table are distinct. */
  predicate Distinct(table: seq<GLenum>) {
    forall i, j :: 0 <= i < j < |table| ==> table[i] != table[j]
  }

  function GLCmpFunc(c: ComparisonFunc): (r: GLenum)
    ensures r == NEVER + c
  {
    CmpFuncs[c]
  }

  function GLStencilOp(s: StencilOp): GLenum {
    StencilOps[s]
  }

  function GLBlendOp(b: BlendOp): GLenum {
    BlendOps[b]
  }

  function GLBlendFactor(b: BlendFactor): GLenum {
    BlendFactors[b]
  }

  /** Each table is one-to-one, so two engine values differ exactly when the WebGL values
      they translate to differ: comparing cached engine values is as good as comparing the
      native state. */
  lemma LookupTablesInjective()
    ensures |CmpFuncs| == 8 && |StencilOps| == 8 && |BlendOps| == 5 && |BlendFactors| == 15
    ensures Distinct(CmpFuncs) && Distinct(StencilOps) && Distinct(BlendOps) && Distinct(BlendFactors)
  {
  }

  lemma TranslationPreservesDifference(a: BlendFactor, b: BlendFactor, c: StencilOp, d: StencilOp,
                                       e: BlendOp, f: BlendOp, g: ComparisonFunc, h: ComparisonFunc)
    ensures GLBlendFactor(a) == GLBlendFactor(b) <==> a == b
    ensures GLStencilOp(c) == GLStencilOp(d) <==> c == d
    ensures GLBlendOp(e) == GLBlendOp(f) <==> e == f
    ensures GLCmpFunc(g) == GLCmpFunc(h) <==> g == h
  {
    LookupTablesInjective();
  }
}

# WebGL command translation, modelled in Dafny

This project models the part of the Cocos Creator graphics layer that turns engine-level GFX
commands into WebGL calls. Two core files are covered:

- `cocos/gfx/webgl/webgl-commands.ts` covers the format tables and the `WebGLCmdFunc*` functions.
  These create, update and destroy buffers, textures, framebuffers, shaders and input assemblers.
  They begin render passes, bind pipeline state, descriptor sets, vertex input and dynamic state,
  issue draws and upload buffer data into textures. Each skips a WebGL call when its state cache
  shows the value is already set.
- `cocos/gfx/webgl2/webgl2-command-buffer.ts` covers `WebGL2CommandBuffer`. This command buffer
  records the pipeline, descriptor sets, input assembler and dynamic states that are bound, and
  marks its state invalid when one of them changes.

## Modelling choices

- The WebGL context is an append-only trace of `GLCall` values on the `WebGLDevice` class
  (`objects.dfy`), with one constructor per WebGL entry point the core uses. Engine diagnostics
  (`errorID`, `warnID`) are the numbers appended to the device's `log`.
- `native_state.dfy` replays a trace against the context state it changes (`Step`, `Run`).
  `CacheMatches` says that the device's state cache tells the truth about the context. The
  pipeline, descriptor and dynamic-state diffs are proved sound against this replay: after the
  calls they emit, the cache still tells the truth.
- WebGL object handles are `Option<nat>`, where `None` is `null`. What WebGL creates or answers is
  a parameter of the operation that asks for it: new handles, compile and link status, active
  attributes and uniforms, uniform locations and framebuffer status.
- The GPU objects that the source updates in place are classes with those fields: buffers,
  textures, framebuffers, shaders, input assemblers and the WebGL2 command buffer. Descriptions
  passed by value are datatypes.
- Loops that compute a value run inside methods proved against a specification function. Such
  loops include uniform-block stripping, texture-unit assignment, attribute offsets and the
  staging-buffer repack. Many of these methods are heap-free, and their caller assigns the
  objects' fields once.
- Helpers from files outside this model are supplied by the device as a record per format:
  `FormatInfos`, `FormatSize` and `formatAlignment` from `define.ts`. GL enumerant values are the
  ones that the WebGL 1.0 and WebGL 2.0 specifications define.
- For each source defect listed under "## Findings", the operations model the source as written.
  The corrected definition sits beside it, with the intended property proved about it and a lemma
  that shows where the two differ.
- JavaScript numbers are exact integers or reals. Where the source relies on JavaScript
  semantics, that semantics is written out in `jsint.dfy` and `descriptor_lookup.dfy`:
  truncation by `| 0`, and lookups that give `undefined`.

## Behaviour kept as written

- Texture-unit assignment searches for a free unit without bound
  (`cocos/gfx/webgl/webgl-commands.ts:1383-1385` and `1399-1401`). When the samplers need more
  units than `maxTextureUnits`, the search never ends.
  `TextureUnits.NextFree` gives `None`, and `ShaderCommands.CreateShader` reports
  `UnitsExhausted`, where the source would loop forever. `TextureUnits.AssignReturns` shows that
  the search ends whenever the units suffice.
- An integer uniform whose float mirror holds a fraction never compares equal to its
  truncated value, so that uniform is uploaded again on every bind (2003-2007).
  `UniformBinding.IntMemberUnsettledRepeats` exhibits this.
- A multi-draw and the per-draw loop differ when an indirect draw has zero instances.
  `DrawCommands.ZeroInstancesDiffer` exhibits this.
- Destroying an input assembler reads the vertex-array-object extension even when WebGL2 VAOs
  are not in use (1500). The per-shader VAO list is then empty, so nothing is deleted.

## Model

| member | source | states |
|---|---|---|
| Formats.FormatToGLType | cocos/gfx/webgl/webgl-commands.ts:49-175 | every engine format translates to one of the twelve WebGL pixel types, and ASTC formats translate to UNSIGNED_BYTE |
| Formats.FormatToGLInternalFormat | cocos/gfx/webgl/webgl-commands.ts:177-193 | diagnostic 16309 is reported exactly for formats without a sized internal format, and those fall back to RGBA; sized formats never yield RGBA |
| Formats.InternalFormatInjective | cocos/gfx/webgl/webgl-commands.ts:177-193 | two different sized formats never share an internal format |
| Formats.AstcEnum | cocos/gfx/webgl/webgl-commands.ts:240-267 | each ASTC block size lands inside the 14-enum KHR run, linear or sRGB as requested |
| Formats.FormatToGLFormat | cocos/gfx/webgl/webgl-commands.ts:195-275 | diagnostic 16310 and the RGBA fallback happen exactly for formats without a pixel format; a format is compressed exactly when it translates, without a diagnostic, to a non-plain enum |
| Formats.UncompressedGLFormat | cocos/gfx/webgl/webgl-commands.ts:197-212 | the uncompressed arms of the pixel-format table name one of the seven plain WebGL formats |
| Formats.CompressedGLFormat | cocos/gfx/webgl/webgl-commands.ts:214-267 | the compressed arms of the pixel-format table never name a plain WebGL format |
| Formats.CompressedGLFormatRoundTrip | cocos/gfx/webgl/webgl-commands.ts:214-267 | reading the enum of a compressed format back gives that format (the table has an inverse) |
| Formats.CompressedGLFormatInjective | cocos/gfx/webgl/webgl-commands.ts:214-267 | two different compressed formats never share a GL enum |
| Formats.TypeToGLType | cocos/gfx/webgl/webgl-commands.ts:277-302 | diagnostic 16311 is reported exactly for the types the table does not list, which yield 0 |
| Formats.GLTypeToType | cocos/gfx/webgl/webgl-commands.ts:331-356 | a WebGL enum yields a known engine type exactly when the table lists it |
| Formats.GLTypeToTypeDiagnostic | cocos/gfx/webgl/webgl-commands.ts:352-353 | diagnostic 16313 is reported exactly when the result is UNKNOWN |
| Formats.TypeRoundTrip | cocos/gfx/webgl/webgl-commands.ts:277-356 | engine type to WebGL enum and back is the identity on listed types |
| Formats.GLTypeRoundTrip | cocos/gfx/webgl/webgl-commands.ts:277-356 | WebGL enum to engine type and back is the identity on listed enums, with no diagnostic |
| Formats.TypeToArrayKind | cocos/gfx/webgl/webgl-commands.ts:304-329 | boolean and integer types get an Int32Array and all others a Float32Array; diagnostic 16312 is reported exactly for the types the table does not list |
| Formats.GLTypeSize | cocos/gfx/webgl/webgl-commands.ts:358-383 | sizes are multiples of four, and a size is 0, with diagnostic 16314, exactly for an unlisted enum |
| Formats.GLComponentCount | cocos/gfx/webgl/webgl-commands.ts:385-394 | between 1 and 4 columns, more than one exactly for the matrix types |
| Formats.MatrixSizeIsColumnsSquared | cocos/gfx/webgl/webgl-commands.ts:358-394 | a matrix's byte size is four times its column count squared, which the attribute loop relies on |
| Formats.GLCmpFunc | cocos/gfx/webgl/webgl-commands.ts:396-405 | comparison function `c` translates to NEVER + c |
| Formats.LookupTablesInjective | cocos/gfx/webgl/webgl-commands.ts:396-442 | the four lookup tables have 8, 8, 5 and 15 entries, and the entries of each are distinct |
| Formats.TranslationPreservesDifference | cocos/gfx/webgl/webgl-commands.ts:396-442 | two engine values translate to the same WebGL enum exactly when they are equal, so comparing cached engine values is as good as comparing native state |
| JsInt.ToInt32 | cocos/gfx/webgl/webgl-commands.ts:1541-1544 | JavaScript's ToInt32 lands in [-2^31, 2^31) and agrees with its input modulo 2^32 |
| JsInt.ToInt32Identity | cocos/gfx/webgl/webgl-commands.ts:1541-1544 | ToInt32 leaves 32-bit values unchanged |
| JsInt.Shl | cocos/gfx/webgl/webgl-commands.ts:1541-1544 | `x << n` is a signed 32-bit value |
| JsInt.ShlInRange | cocos/gfx/webgl/webgl-commands.ts:1541-1544 | when the product stays in range, `x << n` is x times 2^n |
| JsInt.Shr | cocos/gfx/webgl/webgl-commands.ts:1987 | `x >> n` is a signed 32-bit value |
| JsInt.ShrOneHalves | cocos/gfx/webgl/webgl-commands.ts:731-738 | `x >> 1` halves a non-negative 32-bit value, rounding down |
| JsInt.Rem | cocos/gfx/webgl/webgl-commands.ts:1355 | JavaScript's `%` is smaller than the divisor in magnitude and takes the dividend's sign |
| JsInt.RemStep | cocos/gfx/webgl/webgl-commands.ts:1384 | stepping `(c + 1) % m` adds one and wraps m - 1 to 0 |
| DescriptorLookup.At | cocos/gfx/webgl/webgl-commands.ts:1970-1972 | a JavaScript array read is defined exactly inside the array, where it is the element; anything else is `undefined` |
| DescriptorLookup.DescriptorOf | cocos/gfx/webgl/webgl-commands.ts:1970-1972 | a descriptor is found exactly when the set exists and the index is inside its descriptors |
| DescriptorLookup.BufferOfSets | cocos/gfx/webgl/webgl-commands.ts:1969-1976 | every buffer a descriptor binds is among the buffers of the bound sets |
| DescriptorLookup.FloatOffsetValue | cocos/gfx/webgl/webgl-commands.ts:1976-1987 | a missing dynamic offset starts the block at float 0, and an offset that fits 32 bits is divided by four (view offset included) |
| BufferCommands.TargetOf | cocos/gfx/webgl/webgl-commands.ts:444-511 | only vertex buffers bind to ARRAY_BUFFER and only index buffers to ELEMENT_ARRAY_BUFFER; every other role gets NONE |
| BufferCommands.BindingRoundTrip | cocos/gfx/webgl/webgl-commands.ts:462-464 | recording a binding in the cache makes the slot read back the bound handle and leaves the VAO alone |
| BufferCommands.ReleaseVertexState | cocos/gfx/webgl/webgl-commands.ts:453-459 | with the VAO extension a bound VAO is unbound (call and cache), and the remembered input assembler is forgotten; nothing else changes |
| BufferCommands.CreateBuffer | cocos/gfx/webgl/webgl-commands.ts:444-511 | the target follows the first usage bit; a created, non-empty vertex or index buffer gets storage through a bind that is skipped when already bound, then leaves its slot unbound; a uniform buffer gets a float view of its shadow copy; no usage bit reports 16315; otherwise no call is made |
| BufferCommands.DestroyBuffer | cocos/gfx/webgl/webgl-commands.ts:515-553 | a buffer with a native object is deleted and forgotten; for vertex and index buffers the slot is explicitly unbound in GL and in the cache, and the VAO and input assembler are released first |
| BufferCommands.ResizeBuffer | cocos/gfx/webgl/webgl-commands.ts:555-611 | vertex and index storage is re-specified from the shadow bytes or the size, with the bind skipped when the slot already holds the buffer but the cache not updated by it, and the slot left null; uniform buffers refresh the float view; indirect and transfer buffers get target NONE; no usage reports 16315 |
| BufferCommands.ClearDraws | cocos/gfx/webgl/webgl-commands.ts:627 | clearing the draw list empties it and keeps its capacity and well-formedness |
| BufferCommands.Grow | cocos/gfx/webgl/webgl-commands.ts:630 | growth keeps every existing entry and pads with zeros up to the requested length |
| BufferCommands.SetDrawInfo | cocos/gfx/webgl/webgl-commands.ts:630 | recording draw `idx` keeps the list well formed and leaves room for slot `idx` |
| BufferCommands.SetDrawInfoSlots | cocos/gfx/webgl/webgl-commands.ts:630 | recording draw `idx` fills that slot with the draw's count, first element and instances (as int32), keeps every other slot and raises the draw count to at least idx + 1 |
| BufferCommands.SetDrawInfos | cocos/gfx/webgl/webgl-commands.ts:628-631 | recording a run of draws keeps the list well formed and leaves room for all of them |
| BufferCommands.SetDrawInfosStep | cocos/gfx/webgl/webgl-commands.ts:628-631 | recording one more draw after the first i is recording it at offset + i |
| BufferCommands.SetDrawInfosLayout | cocos/gfx/webgl/webgl-commands.ts:626-631 | after clearing, the list holds exactly the given draws from `offset` on, the count ends after the last one, and the flags describe the last draw |
| BufferCommands.Overwrite | cocos/gfx/webgl/webgl-commands.ts:620-625 | writing a part into a sequence keeps its length, puts the part at the offset and keeps everything else |
| BufferCommands.UploadedBytes | cocos/gfx/webgl/webgl-commands.ts:680-683 | an update uploads the whole data when `size` covers it and otherwise its first `size` bytes |
| BufferCommands.UpdateUniformBuffer | cocos/gfx/webgl/webgl-commands.ts:620-625 | a uniform update overwrites the float view from `offset / 4` and changes nothing else |
| BufferCommands.RecordDraws | cocos/gfx/webgl/webgl-commands.ts:628-631 | the draw loop computes the same list as recording the draws one after another |
| BufferCommands.UpdateIndirectBuffer | cocos/gfx/webgl/webgl-commands.ts:626-631 | an indirect update clears the list and records each draw at `offset + i` |
| BufferCommands.UpdateNativeBuffer | cocos/gfx/webgl/webgl-commands.ts:632-684 | a vertex or index buffer is bound (bind skipped when cached, VAO and input assembler released) and the bytes are uploaded at `offset`; any other target reports 16316 and makes no call |
| BufferCommands.UpdateBuffer | cocos/gfx/webgl/webgl-commands.ts:613-685 | the update dispatches on usage, uniform before indirect before native, with exactly the effects of the three cases above |
| TextureCommands.MipExtentClosedForm | cocos/gfx/webgl/webgl-commands.ts:727-739 | after `level` halvings `max(1, w >> 1)` the extent is max(1, w / 2^level) |
| TextureCommands.LevelImages | cocos/gfx/webgl/webgl-commands.ts:726-740 | a mip chain allocates exactly one image per level |
| TextureCommands.CubeImages | cocos/gfx/webgl/webgl-commands.ts:778-810 | a cube map allocates exactly one image per level per face |
| TextureCommands.LevelImagesAt | cocos/gfx/webgl/webgl-commands.ts:726-740 | call `i` of a mip chain allocates level `i` at the extent reached after `i` halvings |
| TextureCommands.MipChainSizes | cocos/gfx/webgl/webgl-commands.ts:726-740 | level 0 is allocated at full size and level i at max(1, w / 2^i) by max(1, h / 2^i) |
| TextureCommands.CubeFacesRestart | cocos/gfx/webgl/webgl-commands.ts:778-810 | every cube face restarts from the full size: call `f * levels + i` is level `i` of face POSITIVE_X + f, as a 2D chain would allocate it |
| TextureCommands.UploadLevels | cocos/gfx/webgl/webgl-commands.ts:727-739 | the halving loop issues exactly the calls of the mip chain and changes no cached state |
| TextureCommands.UploadCubeFaces | cocos/gfx/webgl/webgl-commands.ts:779-809 | the face loop issues exactly the six face chains and changes no cached state |
| TextureCommands.BindOnActiveUnit | cocos/gfx/webgl/webgl-commands.ts:719-724 | after the bind the active unit holds the texture; the bind call is issued only when the cache shows another texture there |
| TextureCommands.DefaultSampling | cocos/gfx/webgl/webgl-commands.ts:742-750 | a new texture repeats when its size is a power of two and clamps otherwise, filters linearly, and keeps every other field |
| TextureCommands.ApplySampling | cocos/gfx/webgl/webgl-commands.ts:752-755 | the four parameter calls apply the texture's wrap and filter state and change no cached state |
| TextureCommands.CreateRenderbufferStorage | cocos/gfx/webgl/webgl-commands.ts:707-715 | a depth texture without depth-texture support gets the sized internal format and a renderbuffer; with storage it is bound (skipped when cached) and allocated |
| TextureCommands.CreateTextureStorage | cocos/gfx/webgl/webgl-commands.ts:717-756 | a texture with storage is bound on the active unit, gets every level of every face allocated and the default sampler state; without storage only the handle is recorded |
| TextureCommands.AllocateTexture | cocos/gfx/webgl/webgl-commands.ts:718-756 | binding, image allocation and sampler calls happen in that order, and the active unit ends holding the texture |
| TextureCommands.UploadImages | cocos/gfx/webgl/webgl-commands.ts:726-740 | a 2D texture gets its mip chain, a cube map the chains of all six faces |
| TextureCommands.CreateTexture2D | cocos/gfx/webgl/webgl-commands.ts:697-760 | the size check reports 9100 against the 2D limit, then a renderbuffer or a texture is created as the two methods above state |
| TextureCommands.CreateTextureCube | cocos/gfx/webgl/webgl-commands.ts:761-829 | the size check is against the cube-map limit, then a texture with six allocated faces is created |
| TextureCommands.CreateTexture | cocos/gfx/webgl/webgl-commands.ts:687-836 | format and type are translated first; a 2D depth texture without depth-texture support becomes a renderbuffer, other 2D and cube textures get a native texture with storage and default sampling; an unknown type reports 16317 and is treated as 2D without storage |
| TextureCommands.LastHolder | cocos/gfx/webgl/webgl-commands.ts:842-852 | the unit left active is the old one or a unit that held the texture |
| TextureCommands.LastHolderIsLast | cocos/gfx/webgl/webgl-commands.ts:842-852 | when some unit held the texture, the active unit becomes the last such unit, and otherwise it is unchanged |
| TextureCommands.UnbindCallsCount | cocos/gfx/webgl/webgl-commands.ts:844-851 | each unit holding the texture costs exactly one unit switch and one unbind, and no other unit costs a call |
| TextureCommands.UnbindUnit | cocos/gfx/webgl/webgl-commands.ts:846-848 | one unit is made active and its binding cleared |
| TextureCommands.UnbindFromUnits | cocos/gfx/webgl/webgl-commands.ts:844-852 | every unit that held the texture is cleared, every other unit keeps its binding, and the last holder is left active |
| TextureCommands.DestroyTexture | cocos/gfx/webgl/webgl-commands.ts:838-865 | the native texture is deleted and unbound from every unit, the renderbuffer is deleted and unbound only if the cache holds it, both handles are forgotten, and nothing else changes |
| TextureCommands.ResizeTexture | cocos/gfx/webgl/webgl-commands.ts:867-972 | an empty texture is left alone; otherwise a renderbuffer gets new storage, or the texture is bound and every level of every face re-allocated; the sampler state is kept; an unknown type reports 16317 |
| FramebufferCommands.ColorAttachCalls | cocos/gfx/webgl/webgl-commands.ts:994-1018 | one attachment call per color texture, in order |
| FramebufferCommands.ColorAttachments | cocos/gfx/webgl/webgl-commands.ts:1014 | the draw-buffer list is COLOR_ATTACHMENT0 + i for each color texture i |
| FramebufferCommands.MinExtentIsMinimum | cocos/gfx/webgl/webgl-commands.ts:1015-1016 | the narrowed size is at most the initial size and every attachment's, and equal to one of them |
| FramebufferCommands.StatusDiagnostics | cocos/gfx/webgl/webgl-commands.ts:1047-1068 | a complete framebuffer reports nothing |
| FramebufferCommands.FindSwapchainColor | cocos/gfx/webgl/webgl-commands.ts:975-981 | the scan finds a swapchain color texture exactly when one is attached |
| FramebufferCommands.AttachColors | cocos/gfx/webgl/webgl-commands.ts:994-1018 | every color texture is attached in order, and the size narrows to the smallest of them |
| FramebufferCommands.AttachDepth | cocos/gfx/webgl/webgl-commands.ts:1020-1041 | a depth-stencil texture, when present, is attached and narrows the size |
| FramebufferCommands.FinishFramebuffer | cocos/gfx/webgl/webgl-commands.ts:1043-1072 | the draw buffers are selected when the extension exists, the status is reported, and the cached binding is restored |
| FramebufferCommands.BuildFramebuffer | cocos/gfx/webgl/webgl-commands.ts:986-1073 | the native framebuffer is bound unless cached, gets every attachment, narrows to the smallest attachment, reports its status and restores the cached binding; the cache itself is untouched |
| FramebufferCommands.CreateFramebuffer | cocos/gfx/webgl/webgl-commands.ts:974-1074 | a swapchain color texture makes the framebuffer on-screen with no native object and no calls; a failed creation changes nothing; otherwise the framebuffer gets the native handle and the narrowed size |
| FramebufferCommands.DestroyFramebuffer | cocos/gfx/webgl/webgl-commands.ts:1076-1086 | the native framebuffer is deleted, unbound only when it is the cached binding, and forgotten |
| ShaderReflection.VarName | cocos/gfx/webgl/webgl-commands.ts:1182-1187 | the variable name is a prefix of the reported name without '[', and it stops exactly at the first '[' |
| ShaderReflection.VarNamePlain | cocos/gfx/webgl/webgl-commands.ts:1185-1186 | a name without '[' is its own variable name |
| ShaderReflection.FirstNamed | cocos/gfx/webgl/webgl-commands.ts:1299-1310 | the member search finds the first member with the name, or reports that no member has it |
| ShaderReflection.ActivateUniforms | cocos/gfx/webgl/webgl-commands.ts:1278-1315 | the loop over active uniforms computes the same blocks as the recursive definition |
| ShaderReflection.ActivateInBlockLocated | cocos/gfx/webgl/webgl-commands.ts:1301-1308 | activating a member keeps the block well formed and its member names and strides in place |
| ShaderReflection.ActivationKeepsLocated | cocos/gfx/webgl/webgl-commands.ts:1278-1315 | matching all active uniforms keeps every block well formed and its members in place: each active member has a location and a zeroed mirror of the right length |
| ShaderReflection.LayoutBlock | cocos/gfx/webgl/webgl-commands.ts:1321-1326 | the offset loop gives member k the offset, in floats, of the bytes before it, and the block the total size |
| ShaderReflection.LayoutBlocks | cocos/gfx/webgl/webgl-commands.ts:1320-1327 | the offset loop lays out every block |
| ShaderReflection.OffsetsTile | cocos/gfx/webgl/webgl-commands.ts:1320-1327 | members tile their block: each starts where the previous one ends, and the last ends at the block's size |
| ShaderReflection.LaidLocated | cocos/gfx/webgl/webgl-commands.ts:1320-1327 | laying out a block keeps it well formed and keeps whether it is used |
| ShaderReflection.StripInactive | cocos/gfx/webgl/webgl-commands.ts:1427-1434 | the swap-remove loop computes the same blocks as the recursive definition |
| ShaderReflection.SwapRemoveKeepsActive | cocos/gfx/webgl/webgl-commands.ts:1431-1432 | replacing an unused block by the last one and dropping the last keeps the used blocks |
| ShaderReflection.StripKeepsActive | cocos/gfx/webgl/webgl-commands.ts:1427-1434 | stripping keeps exactly the used blocks, each as often as in the input (in swap-remove order), and every block left is used |
| ShaderReflection.ShellSamplers | cocos/gfx/webgl/webgl-commands.ts:1256-1273 | one sampler record per sampler texture, none with units yet |
| ShaderReflection.CountFlexibleBlocks | cocos/gfx/webgl/webgl-commands.ts:1337-1342 | the loop counts the blocks that lie in the flexible set |
| ShaderReflection.DefaultUnit | cocos/gfx/webgl/webgl-commands.ts:1353-1355 | the first unit a sampler name is given lies inside (-max, max), the range JavaScript's `%` can produce |
| ShaderReflection.CacheSamplerUnits | cocos/gfx/webgl/webgl-commands.ts:1344-1358 | the sampler loop computes the same pass as the recursive definition |
| ShaderReflection.CachePassFacts | cocos/gfx/webgl/webgl-commands.ts:1344-1358 | after the pass every sampler name has a unit in range, names already cached keep theirs, and each active sampler is paired with its own real location |
| ShaderReflection.Int32Units | cocos/gfx/webgl/webgl-commands.ts:1417 | the units stored in an Int32Array are the units wrapped to 32 bits |
| ShaderReflection.PassOf | cocos/gfx/webgl/webgl-commands.ts:1336-1358 | the pass keeps every cached unit in range and pairs each active sampler with one location |
| ShaderReflection.SamplerUploadCalls | cocos/gfx/webgl/webgl-commands.ts:1411-1423 | the uniform upload of the units: nothing without active samplers, else one 32-bit call per sampler, with the program switched in and back only when another one is bound |
| ShaderReflection.ReflectedBlocks | cocos/gfx/webgl/webgl-commands.ts:1207-1434 | the blocks a linked shader keeps are exactly its used ones after activation and layout: each is well formed and has an active member |
| ShaderReflection.Reflected | cocos/gfx/webgl/webgl-commands.ts:1173-1436 | the whole reflection of a linked program, none where the unit search would not end; ReflectedInputs, ReflectedBlocks and ReflectedSamplers state it |
| ShaderReflection.ReflectedSamplers | cocos/gfx/webgl/webgl-commands.ts:1255-1436 | every kept sampler is active and located; units are pairwise distinct across samplers, in range, one per array element, and uploaded as given; cached names keep their units and every sampler name gets one |
| ShaderReflection.ReflectedInputs | cocos/gfx/webgl/webgl-commands.ts:1173-1205 | every reported attribute becomes an input named without its array suffix, located where the program says, sized stride times count; missing attributes leave holes |
| ShaderCommands.ShaderTypeOf | cocos/gfx/webgl/webgl-commands.ts:1098-1113 | only vertex and fragment stages have a native shader type |
| ShaderCommands.CompileStepAsWritten | cocos/gfx/webgl/webgl-commands.ts:1092-1135 | one pass of the compile loop as written keeps one record per stage |
| ShaderCommands.CompileFromAsWritten | cocos/gfx/webgl/webgl-commands.ts:1091-1136 | the rest of the compile loop as written keeps one record per stage |
| ShaderCommands.CompiledAsWritten | cocos/gfx/webgl/webgl-commands.ts:1091-1136 | the source's compile loop over every stage, from no calls and no diagnostics; CompileSucceeds, CompileFailureKeepsEarlierShaders and FailedFragmentLeaksVertexShader state what it leaves |
| ShaderCommands.CompileStep | cocos/gfx/webgl/webgl-commands.ts:1092-1135 | the corrected half of the compile-cleanup finding: one pass whose cleanup deletes every stage's shader, keeping one record per stage |
| ShaderCommands.CompileFrom | cocos/gfx/webgl/webgl-commands.ts:1091-1136 | the corrected half of the compile-cleanup finding: the rest of the loop with every stage's shader deleted on failure, keeping one record per stage |
| ShaderCommands.Compiled | cocos/gfx/webgl/webgl-commands.ts:1091-1136 | the corrected half of the compile-cleanup finding, over every stage; IntendedCompileFailureReleasesAll and IntendedAgreesWithoutFailure state what it leaves |
| ShaderCommands.CompileStages | cocos/gfx/webgl/webgl-commands.ts:1091-1136 | the compile loop, cleanup as written, leaves the stages, calls and diagnostics of the recursive definition and succeeds exactly when it did not return early; nothing else changes |
| ShaderCommands.CompileStage | cocos/gfx/webgl/webgl-commands.ts:1092-1135 | one pass of the compile loop does what the as-written step says, and reports whether the loop goes on |
| ShaderCommands.CleanupFailedStage | cocos/gfx/webgl/webgl-commands.ts:1126-1131 | the cleanup loop as written, which reads stage `k` on every pass: only the failing stage's shader is deleted, once, and cleared; every other stage is left as it was |
| ShaderCommands.CompileSucceeds | cocos/gfx/webgl/webgl-commands.ts:1091-1136 | when every stage is known and compiles, nothing is reported and each stage holds the shader made for it |
| ShaderCommands.CompileFailureKeepsEarlierShaders | cocos/gfx/webgl/webgl-commands.ts:1121-1133 | as written, a failed compile reports 16323 and 16324 and deletes only the failing stage's shader; earlier stages keep theirs and no other shader is deleted |
| ShaderCommands.FailedFragmentLeaksVertexShader | cocos/gfx/webgl/webgl-commands.ts:1126-1131 | as written, a vertex shader compiled before a failing fragment shader is neither deleted nor cleared |
| ShaderCommands.IntendedCompileFailureReleasesAll | cocos/gfx/webgl/webgl-commands.ts:1126-1131 | with the cleanup indexing each stage, a failed compile leaves no stage holding a shader and deletes every shader made so far |
| ShaderCommands.IntendedAgreesWithoutFailure | cocos/gfx/webgl/webgl-commands.ts:1091-1136 | the corrected cleanup matters only when a compile fails; otherwise both loops compute the same |
| ShaderCommands.ReleaseStages | cocos/gfx/webgl/webgl-commands.ts:1154-1163 | the detach-and-delete loop clears every stage's shader and issues the release calls in stage order |
| ShaderCommands.ReleaseDeletesEveryShader | cocos/gfx/webgl/webgl-commands.ts:1154-1163 | every shader a stage holds is detached and deleted, and every release call names a shader some stage held |
| ShaderCommands.LinkStages | cocos/gfx/webgl/webgl-commands.ts:1138-1171 | no program means nothing happens; otherwise every stage is attached, the program linked, the stages released when the device destroys shaders immediately, and a failed link reported as 16326 |
| ShaderCommands.UploadSamplerUnits | cocos/gfx/webgl/webgl-commands.ts:1411-1423 | each active sampler's units are uploaded as 32-bit integers, with the program switched in and back only when it is not the cached one |
| ShaderCommands.UploadUnits | cocos/gfx/webgl/webgl-commands.ts:1415-1419 | one unit upload per sampler, in order |
| ShaderCommands.ReflectBlocks | cocos/gfx/webgl/webgl-commands.ts:1173-1327 | the inputs, the sampler list with the subpass inputs appended, and the activated, laid-out blocks are recorded on the shader |
| ShaderCommands.BindSamplerUnits | cocos/gfx/webgl/webgl-commands.ts:1329-1424 | the unit cache pass and both assignment passes give the samplers their units, the name-to-unit cache is updated and the units uploaded; no result where the source would search forever |
| ShaderCommands.ReflectProgram | cocos/gfx/webgl/webgl-commands.ts:1173-1436 | after a successful link the shader's inputs, blocks, samplers and the unit cache are those of the reflection definition, whose properties the ShaderReflection lemmas state |
| ShaderCommands.CreateShader | cocos/gfx/webgl/webgl-commands.ts:1088-1437 | creation ends in exactly one of: compile failed, no program, link failed, units exhausted, created, each with its own calls, diagnostics and shader state |
| ShaderCommands.DestroyShader | cocos/gfx/webgl/webgl-commands.ts:1439-1459 | a program is deleted (unbound when it is cached) and forgotten, with the stages released here unless linking already did |
| ShaderCommands.ReleasedOnce | cocos/gfx/webgl/webgl-commands.ts:1154-1163 | over a shader's life every stage shader is released exactly once, by linking or by destruction, and no stage holds one afterwards |
| ShaderCommands.NothingToRelease | cocos/gfx/webgl/webgl-commands.ts:1154-1163 | stages that hold no shader give no release calls, so the second release of a shader's stages does nothing |
| TextureUnits.NextFreeTo | cocos/gfx/webgl/webgl-commands.ts:1383-1385 | the probe from a non-negative unit, when some unit is free, settles on a free unit in [0, max) |
| TextureUnits.NextFree | cocos/gfx/webgl/webgl-commands.ts:1383-1385 | where the probe settles it is on a free unit in range, non-negative from a non-negative start; no result where every unit is taken and the source loops forever |
| TextureUnits.TakeUnitsFacts | cocos/gfx/webgl/webgl-commands.ts:1382-1388 | a sampler takes `count` distinct free units in range and marks exactly those taken; a free starting unit is the first taken |
| TextureUnits.AssignUnits | cocos/gfx/webgl/webgl-commands.ts:1373-1409 | both passes keep one record per sampler and keep the unit cache in range |
| TextureUnits.Probe | cocos/gfx/webgl/webgl-commands.ts:1383-1385 | the probe loop stops where the recursive definition settles, and with no result exactly where the source would spin |
| TextureUnits.Take | cocos/gfx/webgl/webgl-commands.ts:1382-1388 | one sampler's loop takes the units of the recursive definition |
| TextureUnits.AssignTextureUnits | cocos/gfx/webgl/webgl-commands.ts:1373-1409 | the two loops over the active samplers compute the recursive definition |
| TextureUnits.ReuseKeepsDistinct | cocos/gfx/webgl/webgl-commands.ts:1376-1390 | the reuse pass keeps units pairwise distinct and accounted for |
| TextureUnits.FillKeepsDistinct | cocos/gfx/webgl/webgl-commands.ts:1392-1409 | the sequential pass keeps units pairwise distinct and accounted for |
| TextureUnits.AssignedUnitsDistinct | cocos/gfx/webgl/webgl-commands.ts:1373-1409 | units handed to the active samplers are pairwise distinct and lie in (-max, max), and in [0, max) when no cached unit is negative |
| TextureUnits.AssignedUnitsCover | cocos/gfx/webgl/webgl-commands.ts:1373-1409 | every sampler with a cached unit or still without a location gets its location and exactly `count` units; others are left alone |
| TextureUnits.CachedUnitKept | cocos/gfx/webgl/webgl-commands.ts:1379-1386 | a sampler whose cached unit nobody before it took gets that unit first |
| TextureUnits.FreeUnitExists | cocos/gfx/webgl/webgl-commands.ts:1383-1385 | fewer taken units than units leaves one in [0, max) free |
| TextureUnits.TakeUnitsReturns | cocos/gfx/webgl/webgl-commands.ts:1382-1388 | a sampler's probe runs end whenever enough units are free |
| TextureUnits.AssignReturns | cocos/gfx/webgl/webgl-commands.ts:1373-1409 | the unit search ends whenever the active samplers' array sizes add up to at most the number of units |
| TextureUnits.AllCachedNoFill | cocos/gfx/webgl/webgl-commands.ts:1392-1409 | when every active sampler already has a cached unit, the sequential pass changes nothing, the cache included |
| UniformBinding.UniformFnMatchesMirror | cocos/gfx/webgl/webgl-commands.ts:1996-2146 | every value type except the unsigned and sampler types has an upload entry point, and an integer one exactly when the member mirrors into an Int32Array |
| UniformBinding.Trunc | cocos/gfx/webgl/webgl-commands.ts:2000-2003 | truncation toward zero, as an Int32Array store does: the integer just below a non-negative value and just above a negative one |
| UniformBinding.StoredIdempotent | cocos/gfx/webgl/webgl-commands.ts:2000-2003 | storing a value the mirror array already holds changes nothing |
| UniformBinding.FirstDiff | cocos/gfx/webgl/webgl-commands.ts:1999-2001 | the scan stops at the first element where the buffer window and the mirror differ, or at the end when none does |
| UniformBinding.MemberUploadCalls | cocos/gfx/webgl/webgl-commands.ts:1996-2146 | one member issues at most one upload, exactly when it has an entry point and its mirror differs from the buffer window, and the call carries the new mirror at the member's location; no call leaves the mirror alone |
| UniformBinding.MemberUpload | cocos/gfx/webgl/webgl-commands.ts:1996-2146 | one member keeps the length of its mirror; MemberUploadCalls, MemberUploadMirror and MemberUploadRepeat state its call and new mirror |
| UniformBinding.MemberUploadMirror | cocos/gfx/webgl/webgl-commands.ts:2001-2004 | after the upload each mirror element holds the window element as its array stores it, and exactly the window when the array can hold it |
| UniformBinding.FloatWindowSettled | cocos/gfx/webgl/webgl-commands.ts:2055-2066 | a Float32Array mirror holds every window value as it is, floats being modelled as exact reals |
| UniformBinding.MemberUploadRepeat | cocos/gfx/webgl/webgl-commands.ts:1996-2146 | uploading the same window twice issues nothing the second time when the mirror array can hold every value of it |
| UniformBinding.IntMemberUnsettledRepeats | cocos/gfx/webgl/webgl-commands.ts:1997-2007 | an integer member whose window holds a value an Int32Array cannot is uploaded again on every bind |
| UniformBinding.UploadMember | cocos/gfx/webgl/webgl-commands.ts:1999-2007 | the scan-and-copy loops of one member compute the member upload definition |
| UniformBinding.BlockUpload | cocos/gfx/webgl/webgl-commands.ts:1994-2148 | the member loop of one block over its active members; ActiveUploadSettles, SettledBlockSilent, BlockUploadRepeatSilent and ActiveUploadCalls state it |
| UniformBinding.ActiveUploadSettles | cocos/gfx/webgl/webgl-commands.ts:1994-2148 | after the member loop every uploadable active member mirrors its window |
| UniformBinding.SettledBlockSilent | cocos/gfx/webgl/webgl-commands.ts:1994-2148 | a block whose uploadable members already mirror their windows issues no call and keeps its mirrors |
| UniformBinding.BlockUploadRepeatSilent | cocos/gfx/webgl/webgl-commands.ts:1994-2148 | binding the same buffer contents twice issues nothing the second time when every member's array can hold its window |
| UniformBinding.ActiveUploadCalls | cocos/gfx/webgl/webgl-commands.ts:1994-2148 | a block issues at most one call per active member |
| UniformBinding.UploadBlock | cocos/gfx/webgl/webgl-commands.ts:1994-2148 | the source's member loop of one block computes the block upload definition |
| UniformBinding.BlocksUpload | cocos/gfx/webgl/webgl-commands.ts:1964-2150 | the first n blocks, each uploaded from its buffer or left alone without one, keep one block each; BlocksUploadEach states it |
| UniformBinding.BlocksUploadEach | cocos/gfx/webgl/webgl-commands.ts:1964-2150 | blocks are bound independently: a block with a buffer ends as its own member loop leaves it, one without stays unchanged |
| UniformBinding.UploadBlocks | cocos/gfx/webgl/webgl-commands.ts:1964-2150 | the descriptor loop over the blocks computes the recursive definition |
| UniformBinding.BindUniformBlocks | cocos/gfx/webgl/webgl-commands.ts:1964-2150 | the shader's blocks and the trace end as the definition says, and the state cache, logs and buffers are untouched |
| SamplerBinding.PowerOf2Policy | cocos/gfx/webgl/webgl-commands.ts:2186-2208 | a power-of-two texture takes the sampler's wraps and filters, except that with at most one level a linear-mipmap minification filter becomes LINEAR, and the filter is kept exactly when it is not a linear-mipmap one |
| SamplerBinding.MinFilterAsWritten | cocos/gfx/webgl/webgl-commands.ts:2194-2208 | the minification filter as the source chooses it; PowerOf2Policy, NonPowerOf2Policy and SingleLevelKeepsNearestMipmap state what it gives |
| SamplerBinding.SamplerPolicy | cocos/gfx/webgl/webgl-commands.ts:2186-2208 | the wraps (the sampler's for a power-of-two texture, CLAMP_TO_EDGE otherwise), the written minification filter and the sampler's magnification filter; PowerOf2Policy and NonPowerOf2Policy state it |
| SamplerBinding.NonPowerOf2Policy | cocos/gfx/webgl/webgl-commands.ts:2186-2208 | a texture that is not a power of two clamps both wraps to the edge and is minified without mipmaps, LINEAR exactly when the sampler's filter is linear |
| SamplerBinding.SingleLevelKeepsNearestMipmap | cocos/gfx/webgl/webgl-commands.ts:2194-2201 | as written, a power-of-two texture of one level sampled through a nearest-mipmap filter keeps a mipmapped filter, where the corrected filter, MinFilter, gives NEAREST |
| SamplerBinding.MinFilter | cocos/gfx/webgl/webgl-commands.ts:2194-2208 | as intended, any texture without mipmaps to sample gets a minification filter without a mipmap part, linear exactly when the sampler's is |
| SamplerBinding.IntendedMinFilterDiffersOnlyThere | cocos/gfx/webgl/webgl-commands.ts:2194-2201 | the intended filter differs from the written one exactly for single-level power-of-two textures with a nearest-mipmap filter |
| SamplerBinding.IssueIf | cocos/gfx/webgl/webgl-commands.ts:2210-2244 | one check issues its call when needed, activating the unit first unless it is already active |
| SamplerBinding.UpdateWraps | cocos/gfx/webgl/webgl-commands.ts:2210-2226 | the two wrap checks set exactly the wraps that differ from the policy's, and the texture then holds the policy's wraps |
| SamplerBinding.UpdateFilters | cocos/gfx/webgl/webgl-commands.ts:2228-2244 | the two filter checks set exactly the filters that differ from the policy's, and the texture then holds the policy's filters |
| SamplerBinding.UnitStepReached | cocos/gfx/webgl/webgl-commands.ts:2168-2245 | the state the checks reach is the one-unit definition |
| SamplerBinding.UnitStep | cocos/gfx/webgl/webgl-commands.ts:2168-2245 | one unit keeps the number of unit slots; afterwards its slot holds the texture and the texture the policy's parameters, with the calls activated lazily; UnitStepSilent, UnitStepActivation and UnitStepRepeat state its calls |
| SamplerBinding.UpdateUnit | cocos/gfx/webgl/webgl-commands.ts:2168-2245 | the source's checks for one unit compute the one-unit definition |
| SamplerBinding.UnitStepSilent | cocos/gfx/webgl/webgl-commands.ts:2168-2245 | a unit issues no call exactly when its slot holds the texture and the texture already has the policy's parameters |
| SamplerBinding.LazyActivation | cocos/gfx/webgl/webgl-commands.ts:2173-2176 | lazy activation issues at most one activeTexture, first, for this unit, and only when another unit was active |
| SamplerBinding.UnitChangesKinds | cocos/gfx/webgl/webgl-commands.ts:2172-2244 | every other call of a unit binds the texture's target or sets one of its parameters |
| SamplerBinding.UnitStepActivation | cocos/gfx/webgl/webgl-commands.ts:2168-2245 | a unit's calls start with at most one activeTexture for this unit, issued only when another unit was active |
| SamplerBinding.UnitStepRepeat | cocos/gfx/webgl/webgl-commands.ts:2168-2245 | binding the same texture and sampler to the unit again issues nothing and changes nothing |
| SamplerBinding.UnitVisitsConsecutive | cocos/gfx/webgl/webgl-commands.ts:2155-2248 | a sampler's units take consecutive descriptors with samplers, from its binding's first on; units without one are skipped |
| SamplerBinding.UnitVisitsAll | cocos/gfx/webgl/webgl-commands.ts:2155-2248 | when enough descriptors from the binding on have samplers, every unit is visited, in order |
| SamplerBinding.VisitedCache | cocos/gfx/webgl/webgl-commands.ts:2153-2249 | the sampler loop changes only the active unit and the unit slots of the cache, and leaves a valid active unit |
| SamplerBinding.VisitedConcat | cocos/gfx/webgl/webgl-commands.ts:2153-2249 | running two lists of visits is running their concatenation |
| SamplerBinding.VisitedSlot | cocos/gfx/webgl/webgl-commands.ts:2170-2183 | afterwards every unit slot holds the texture the last visit through it bound, or its old texture when none did |
| SamplerBinding.LastOnUnitNatives | cocos/gfx/webgl/webgl-commands.ts:2170-2183 | which texture a slot ends with depends only on the textures' handles |
| SamplerBinding.VisitedParams | cocos/gfx/webgl/webgl-commands.ts:2185-2244 | afterwards every texture carries the parameters the policy gave it on its last visit, or its old ones when it was not visited |
| SamplerBinding.ApplyVisit | cocos/gfx/webgl/webgl-commands.ts:2161-2247 | one pass of the unit loop computes the visit definition |
| SamplerBinding.UnitVisitsAt | cocos/gfx/webgl/webgl-commands.ts:2160-2248 | the unit loop's view of the visits: a unit without a sampler descriptor is skipped and keeps the index, any other takes the descriptor and moves on |
| SamplerBinding.VisitedCons | cocos/gfx/webgl/webgl-commands.ts:2160-2248 | running one visit and then the rest is running them all |
| SamplerBinding.WalkUnits | cocos/gfx/webgl/webgl-commands.ts:2155-2248 | the loop over one sampler's units runs exactly the visits the definition lists |
| SamplerBinding.WalkSamplers | cocos/gfx/webgl/webgl-commands.ts:2152-2249 | the loop over the shader's samplers runs exactly the visits the definition lists, in order |
| SamplerBinding.VisitsInRangeBound | cocos/gfx/webgl/webgl-commands.ts:2168-2170 | visits whose units are in range can all run |
| SamplerBinding.Install | cocos/gfx/webgl/webgl-commands.ts:2170-2244 | the device takes the cache and the calls, and each texture takes its new native state |
| SamplerBinding.BindSamplers | cocos/gfx/webgl/webgl-commands.ts:2152-2249 | the cache, the trace and every texture end as the visits leave them, and nothing else on the device changes |
| VertexBinding.FirstAttrib | cocos/gfx/webgl/webgl-commands.ts:2333-2340 | the attribute found is the first with the input's name; none is found exactly when no attribute has it |
| VertexBinding.FindAttrib | cocos/gfx/webgl/webgl-commands.ts:2333-2340 | the search loop, stopping at the first match, finds the first attribute with the input's name |
| VertexBinding.ComponentsUnfold | cocos/gfx/webgl/webgl-commands.ts:2348-2360 | the component loop is one component step followed by the rest |
| VertexBinding.BindComponent | cocos/gfx/webgl/webgl-commands.ts:2294-2303 | the body of the component loop computes one component step, on either path |
| VertexBinding.BindComponents | cocos/gfx/webgl/webgl-commands.ts:2294-2303 | the component loop computes the recursive definition, on either path |
| VertexBinding.InputsUnfold | cocos/gfx/webgl/webgl-commands.ts:2329-2362 | the input loop is one input step followed by the rest |
| VertexBinding.BindInput | cocos/gfx/webgl/webgl-commands.ts:2276-2304 | the body of the input loop computes one input step, on either path |
| VertexBinding.BindInputs | cocos/gfx/webgl/webgl-commands.ts:2275-2305 | the input loop computes the recursive definition, on either path |
| VertexBinding.ComponentsEffect | cocos/gfx/webgl/webgl-commands.ts:2348-2360 | the components mark exactly their locations current, and without a VAO enable exactly the non-negative ones not yet enabled; buffer bindings are untouched |
| VertexBinding.InputsEffect | cocos/gfx/webgl/webgl-commands.ts:2329-2362 | the inputs mark exactly the locations they use current, and without a VAO enable exactly the non-negative ones not yet enabled; no call binds the element buffer or a VAO or disables a location |
| VertexBinding.BoundBufferConcat | cocos/gfx/webgl/webgl-commands.ts:2343-2346 | the buffer bound after two call lists is the one the second leaves after the first |
| VertexBinding.BoundBufferUntouched | cocos/gfx/webgl/webgl-commands.ts:2343-2346 | calls that bind no buffer to a target leave its binding as it was |
| VertexBinding.InputsArrayBuffer | cocos/gfx/webgl/webgl-commands.ts:2343-2346 | the cache's ARRAY_BUFFER entry is what the input calls leave bound |
| VertexBinding.ResetEffect | cocos/gfx/webgl/webgl-commands.ts:2324-2326 | the first loop clears every location below the limit and leaves the others |
| VertexBinding.ResetCurrent | cocos/gfx/webgl/webgl-commands.ts:2324-2326 | the first loop computes the recursive definition |
| VertexBinding.DisableUnfold | cocos/gfx/webgl/webgl-commands.ts:2372-2377 | the disable loop is one location's check followed by the rest |
| VertexBinding.DisableEffect | cocos/gfx/webgl/webgl-commands.ts:2372-2377 | the disable loop turns off exactly the locations whose two flags differ, each once, and keeps every other flag |
| VertexBinding.DisableStale | cocos/gfx/webgl/webgl-commands.ts:2372-2377 | the disable loop computes the recursive definition |
| VertexBinding.DisableStep | cocos/gfx/webgl/webgl-commands.ts:2373-2376 | one pass of the disable loop is the first step of the recursive definition |
| VertexBinding.BindDirect | cocos/gfx/webgl/webgl-commands.ts:2323-2378 | the path without VAOs, loop by loop, computes the direct-bind definition |
| VertexBinding.DirectBind | cocos/gfx/webgl/webgl-commands.ts:2323-2378 | the path without VAOs: every location below the maximum is marked not current, the inputs set up, the index buffer bound unless it already is, and the enabled locations left not current disabled; DirectBindLocations and DirectBindBuffers state it |
| VertexBinding.DirectBindLocations | cocos/gfx/webgl/webgl-commands.ts:2323-2378 | without VAOs exactly the used locations below the limit end enabled and current; a location is disabled exactly when it was enabled and is no longer used, and enabled only when it was not |
| VertexBinding.DirectInputs | cocos/gfx/webgl/webgl-commands.ts:2324-2362 | after the reset and the input loop a location is current exactly when used, and enabled when it was or is used |
| VertexBinding.DirectBindBuffers | cocos/gfx/webgl/webgl-commands.ts:2343-2370 | without VAOs the cache's two buffer entries are what the calls leave bound, and the element buffer is the index buffer when there is one |
| VertexBinding.VAOOf | cocos/gfx/webgl/webgl-commands.ts:2262 | a program has a VAO exactly when the assembler recorded one for it |
| VertexBinding.RecordVAO | cocos/gfx/webgl/webgl-commands.ts:2263-2317 | recording a new VAO: bind it with both buffer targets cleared, set up the inputs, bind the index buffer into it, then unbind the VAO and clear both targets; RecordVAOCaptures states what the VAO captures |
| VertexBinding.VAOBind | cocos/gfx/webgl/webgl-commands.ts:2258-2322 | the VAO path: the program's VAO, recorded under a new handle when the assembler has none yet, is bound unless already bound; VAOBindEffect and VAOBindRepeat state it |
| VertexBinding.BindVAO | cocos/gfx/webgl/webgl-commands.ts:2258-2322 | the VAO path computes the VAO-bind definition |
| VertexBinding.VAOBindEffect | cocos/gfx/webgl/webgl-commands.ts:2258-2322 | afterwards the program has a VAO and it is bound; a known one is only bound if need be, otherwise the new one is recorded and remembered |
| VertexBinding.VAOOfAppend | cocos/gfx/webgl/webgl-commands.ts:2263-2265 | recording a VAO for a program without one makes it that program's VAO |
| VertexBinding.RecordVAOCaptures | cocos/gfx/webgl/webgl-commands.ts:2263-2317 | recording binds the VAO, clears both buffers, issues the input calls, binds the index buffer and unbinds everything; the input calls bind no VAO and no element buffer, so the VAO captures the index buffer |
| VertexBinding.VAOBindRepeat | cocos/gfx/webgl/webgl-commands.ts:2258-2322 | binding the same program's inputs again issues nothing and changes nothing |
| VertexBinding.VertexInput | cocos/gfx/webgl/webgl-commands.ts:2258-2378 | the VAO path or the direct path by whether the device uses VAOs, the direct one keeping the VAOs and the bound VAO; VertexInputSlots and BindInputPaths state it |
| VertexBinding.CacheOf | cocos/gfx/webgl/webgl-commands.ts:2270-2376 | the vertex part of the state cache is its two buffer bindings and its two location maps |
| VertexBinding.WithVertex | cocos/gfx/webgl/webgl-commands.ts:2270-2376 | replacing the vertex part of the cache changes nothing else |
| VertexBinding.VertexInputSlots | cocos/gfx/webgl/webgl-commands.ts:2258-2378 | both paths keep a cache slot for every location below the limit; without VAOs the assembler's VAOs and the bound VAO are left alone |
| VertexBinding.BindInputPaths | cocos/gfx/webgl/webgl-commands.ts:2258-2378 | the two paths compute the vertex-input definition |
| VertexBinding.BindVertexInput | cocos/gfx/webgl/webgl-commands.ts:2253-2379 | no rebind when neither the shader nor the assembler changed; otherwise the cache, the assembler's VAOs and the trace advance as the definition says |
| VertexBinding.RebindVertexInput | cocos/gfx/webgl/webgl-commands.ts:2255-2378 | the rebind records the assembler and advances the cache, VAOs and trace as the definition says |
| InputAssemblerCommands.Views | cocos/gfx/webgl/webgl-commands.ts:1474-1485 | each vertex buffer is seen through its native handle and its stride |
| InputAssemblerCommands.BuildAttribs | cocos/gfx/webgl/webgl-commands.ts:1464-1493 | the attribute loop with its eight running stream offsets computes the attribute definition |
| InputAssemblerCommands.OffsetsStep | cocos/gfx/webgl/webgl-commands.ts:1489-1492 | advancing an attribute's stream by its size keeps every running offset at the bytes of that stream so far |
| InputAssemblerCommands.CreateInputAssembler | cocos/gfx/webgl/webgl-commands.ts:1461-1494 | the assembler's native attributes are those of the definition, and its VAOs are untouched |
| InputAssemblerCommands.StreamBytesGrow | cocos/gfx/webgl/webgl-commands.ts:1489-1492 | a stream's running offset never decreases |
| InputAssemblerCommands.AttribsPacked | cocos/gfx/webgl/webgl-commands.ts:1489-1492 | attributes of one stream are packed: a later one starts at or after the end of an earlier one, so none overlap |
| InputAssemblerCommands.AttribsReadTheirStream | cocos/gfx/webgl/webgl-commands.ts:1468-1493 | each native attribute reads its own stream's buffer with that buffer's stride, has its format's size, and starts at 0 when it is the first of its stream |
| InputAssemblerCommands.NoEarlierStream | cocos/gfx/webgl/webgl-commands.ts:1466 | a stream no earlier attribute used starts at offset 0 |
| InputAssemblerCommands.DestroyInputAssembler | cocos/gfx/webgl/webgl-commands.ts:1496-1512 | every VAO is deleted, null is bound when the bound one goes, the cache's VAO follows, and the assembler forgets its VAOs |
| InputAssemblerCommands.DestroyDeletesEveryVAO | cocos/gfx/webgl/webgl-commands.ts:1502-1509 | destruction deletes every VAO of the assembler |
| InputAssemblerCommands.DestroyUnbindsOnce | cocos/gfx/webgl/webgl-commands.ts:1504-1507 | destruction binds null at most once, and not at all when no VAO is bound |
| InputAssemblerCommands.DestroyLeavesNoneBound | cocos/gfx/webgl/webgl-commands.ts:1501-1510 | afterwards no VAO of the assembler is bound, and any other binding is kept |
| PipelineBinding.RunCull | cocos/gfx/webgl/webgl-commands.ts:1741-1762 | the calls for a cull mode switch CULL_FACE on exactly for front or back culling and set the face culled, touching nothing else |
| PipelineBinding.CullDiffSound | cocos/gfx/webgl/webgl-commands.ts:1741-1762 | from a truthful cache, the cull-mode group brings the CULL_FACE switch and the culled face to the new state and nothing else |
| PipelineBinding.RasterCallStep | cocos/gfx/webgl/webgl-commands.ts:1764-1779 | a front-face, polygon-offset or line-width call sets its one rasterizer field |
| PipelineBinding.RasterTailSteps | cocos/gfx/webgl/webgl-commands.ts:1764-1779 | the three rasterizer checks after the cull group each set only their own field, and only when issued |
| PipelineBinding.RasterizerDiffSound | cocos/gfx/webgl/webgl-commands.ts:1737-1780 | from a truthful cache, the rasterizer calls bring the context to the new rasterizer state and touch nothing else |
| PipelineBinding.RasterizerDiffEmpty | cocos/gfx/webgl/webgl-commands.ts:1737-1780 | the rasterizer calls are empty exactly when the rasterizer state is unchanged |
| PipelineBinding.RasterizerDiffOnlyChanged | cocos/gfx/webgl/webgl-commands.ts:1737-1780 | every rasterizer call belongs to a group on which the cached and new states differ |
| PipelineBinding.StepToggle | cocos/gfx/webgl/webgl-commands.ts:1786-1792 | an enable or disable call switches its one capability |
| PipelineBinding.StepStencilFunc | cocos/gfx/webgl/webgl-commands.ts:1817-1830 | a stencil-function call sets that face's function, reference and read mask and nothing else |
| PipelineBinding.StepStencilOp | cocos/gfx/webgl/webgl-commands.ts:1832-1845 | a stencil-operation call sets that face's three operations and nothing else |
| PipelineBinding.StepStencilMask | cocos/gfx/webgl/webgl-commands.ts:1847-1850 | a stencil write-mask call sets that face's write mask and nothing else |
| PipelineBinding.SideDiffSound | cocos/gfx/webgl/webgl-commands.ts:1817-1886 | from a truthful cache, one face's stencil calls bring that face to the new state and change nothing else |
| PipelineBinding.DepthDiffSound | cocos/gfx/webgl/webgl-commands.ts:1786-1803 | from a truthful cache, the depth calls set the depth test, write mask and function to the new state and touch nothing else |
| PipelineBinding.TogglePair | cocos/gfx/webgl/webgl-commands.ts:1786-1815 | two switch checks on different capabilities each set their own capability when issued and leave the rest |
| PipelineBinding.DepthStencilDiffSound | cocos/gfx/webgl/webgl-commands.ts:1782-1887 | from a truthful cache, the depth-stencil calls bring the context to the new state and touch nothing else |
| PipelineBinding.SideDiffCalls | cocos/gfx/webgl/webgl-commands.ts:1817-1886 | one face's stencil calls are empty exactly when the face is unchanged, and each belongs to a changed group |
| PipelineBinding.DepthStencilDiffEmpty | cocos/gfx/webgl/webgl-commands.ts:1782-1887 | the depth-stencil calls are empty exactly when the state is unchanged |
| PipelineBinding.DepthStencilDiffOnlyChanged | cocos/gfx/webgl/webgl-commands.ts:1782-1887 | every depth-stencil call belongs to a group on which the two states differ |
| PipelineBinding.StepBlendEquation | cocos/gfx/webgl/webgl-commands.ts:1926-1931 | a blend-equation call sets the two equations and nothing else |
| PipelineBinding.StepBlendFunc | cocos/gfx/webgl/webgl-commands.ts:1933-1948 | a blend-function call sets the four factors and nothing else |
| PipelineBinding.StepColorMask | cocos/gfx/webgl/webgl-commands.ts:1950-1958 | a color-mask call lets through exactly the channels whose bits the mask has |
| PipelineBinding.BlendStateDiffSound | cocos/gfx/webgl/webgl-commands.ts:1893-1924 | from a truthful cache, the alpha-to-coverage, blend-color and BLEND checks bring those switches to the new state and touch nothing else |
| PipelineBinding.TargetDiffSound | cocos/gfx/webgl/webgl-commands.ts:1926-1958 | from a truthful cache, the target's equation, factor and mask calls bring them to the new target and touch nothing else |
| PipelineBinding.BlendDiffSound | cocos/gfx/webgl/webgl-commands.ts:1889-1960 | from a truthful cache, the blend calls bring the context to the new blend state and touch nothing else |
| PipelineBinding.TargetDiffCalls | cocos/gfx/webgl/webgl-commands.ts:1926-1958 | the target calls are empty exactly when the target is unchanged apart from its switch, and each belongs to a changed group |
| PipelineBinding.BlendDiffEmpty | cocos/gfx/webgl/webgl-commands.ts:1889-1960 | the blend calls are empty exactly when the blend state is unchanged |
| PipelineBinding.BlendDiffOnlyChanged | cocos/gfx/webgl/webgl-commands.ts:1889-1960 | every blend call belongs to a group on which the two states differ |
| PipelineBinding.ProgramCallsSound | cocos/gfx/webgl/webgl-commands.ts:1728-1735 | the program check leaves the new program in use, or the cached one when the pipeline has no shader, and touches nothing else |
| PipelineBinding.AfterRasterizer | cocos/gfx/webgl/webgl-commands.ts:1737-1780 | a change of rasterizer state alone keeps the depth-stencil, blend and program records truthful |
| PipelineBinding.AfterDepthStencil | cocos/gfx/webgl/webgl-commands.ts:1782-1887 | a change of depth-stencil state alone keeps the rasterizer, blend and program records truthful |
| PipelineBinding.AfterBlend | cocos/gfx/webgl/webgl-commands.ts:1889-1960 | a change of blend state alone keeps the rasterizer, depth-stencil and program records truthful |
| PipelineBinding.RasterizerStepSound | cocos/gfx/webgl/webgl-commands.ts:1737-1780 | the rasterizer group, when the pipeline has one, keeps the whole cache truthful |
| PipelineBinding.DepthStencilStepSound | cocos/gfx/webgl/webgl-commands.ts:1782-1887 | the depth-stencil group, when the pipeline has one, keeps the whole cache truthful |
| PipelineBinding.BlendStepSound | cocos/gfx/webgl/webgl-commands.ts:1889-1960 | the blend group, when the pipeline has one, keeps the whole cache truthful |
| PipelineBinding.PipelineFrontSound | cocos/gfx/webgl/webgl-commands.ts:1724-1780 | the program and rasterizer groups leave a truthful cache |
| PipelineBinding.PipelineBackSound | cocos/gfx/webgl/webgl-commands.ts:1782-1960 | the depth-stencil and blend groups leave a truthful cache |
| PipelineBinding.PipelineCallsSound | cocos/gfx/webgl/webgl-commands.ts:1723-1961 | from a truthful cache, binding a pipeline leaves the context exactly in the state the updated cache records |
| PipelineBinding.PipelineCalls | cocos/gfx/webgl/webgl-commands.ts:1723-1961 | useProgram when the program changes, then the rasterizer, depth-stencil and blend differences of the groups the pipeline carries, in that order; PipelineCallsSound and PipelineCallsOnlyChanged state it |
| PipelineBinding.PipelineCache | cocos/gfx/webgl/webgl-commands.ts:1723-1961 | the cache after binding: the program and each state group the pipeline carries replace the cached ones; PipelineCallsSound shows the calls bring the native state to it |
| PipelineBinding.PipelineCallsOnlyChanged | cocos/gfx/webgl/webgl-commands.ts:1723-1961 | binding a pipeline issues nothing exactly when the cache already holds its state |
| PipelineBinding.PipelineRebindSilent | cocos/gfx/webgl/webgl-commands.ts:1723-1961 | binding the same pipeline again, from the cache it left, issues nothing |
| PipelineBinding.PipelineUpdate | cocos/gfx/webgl/webgl-commands.ts:1726-1960 | the group-by-group checks compute the cache, the calls and whether the program changed, as the definitions say |
| PipelineBinding.BindPipeline | cocos/gfx/webgl/webgl-commands.ts:1723-1961 | a pipeline other than the last one bound is recorded with its primitive and its groups sent where they differ from the cache; the same pipeline again changes nothing |
| DynamicStateBinding.DynamicsUnfold | cocos/gfx/webgl/webgl-commands.ts:2384-2446 | the loop over the declared states is one state's step followed by the rest |
| DynamicStateBinding.DynamicStep | cocos/gfx/webgl/webgl-commands.ts:2386-2445 | one declared state: the recorded value goes into the cache, and its call is sent only when the cache held another value; depth bounds do nothing; StepSound and StepSettled state it |
| DynamicStateBinding.Dynamics | cocos/gfx/webgl/webgl-commands.ts:2382-2447 | the declared states in order; DynamicsCache, DynamicsSound, DynamicsSettled and DynamicsRepeat state its cache and calls |
| DynamicStateBinding.DynamicsCache | cocos/gfx/webgl/webgl-commands.ts:2382-2447 | after the loop the cache holds exactly the recorded values of the declared states, and every other field is unchanged |
| DynamicStateBinding.Applied | cocos/gfx/webgl/webgl-commands.ts:2382-2447 | the cache with every field a declared state covers holding the recorded value and every other field as cached; DynamicsCache shows the loop reaches it |
| DynamicStateBinding.AppliedStep | cocos/gfx/webgl/webgl-commands.ts:2384-2446 | writing one more state into the cache is the same as declaring it too, so the loop's order does not matter to the cache |
| DynamicStateBinding.StepSettled | cocos/gfx/webgl/webgl-commands.ts:2386-2445 | a declared state whose cached fields already hold the recorded values issues nothing |
| DynamicStateBinding.DynamicsSettled | cocos/gfx/webgl/webgl-commands.ts:2382-2447 | a cache that already holds every declared state's values leads to no call at all |
| DynamicStateBinding.DynamicsRepeat | cocos/gfx/webgl/webgl-commands.ts:2382-2447 | applying the same dynamic states a second time issues nothing and changes nothing |
| DynamicStateBinding.LineWidthSound | cocos/gfx/webgl/webgl-commands.ts:2387-2393 | from a truthful cache, the line-width check leaves it truthful and changes only the line width |
| DynamicStateBinding.DepthBiasSound | cocos/gfx/webgl/webgl-commands.ts:2394-2402 | from a truthful cache, the depth-bias check leaves it truthful and changes only the polygon offset |
| DynamicStateBinding.BlendConstantsSound | cocos/gfx/webgl/webgl-commands.ts:2403-2413 | from a truthful cache, the blend-constant check leaves it truthful and changes only the blend color |
| DynamicStateBinding.WriteMasksMatch | cocos/gfx/webgl/webgl-commands.ts:2414-2426 | setting both native write masks to the cached ones keeps the depth-stencil record truthful |
| DynamicStateBinding.WriteMaskRun | cocos/gfx/webgl/webgl-commands.ts:2417-2424 | the write-mask calls leave exactly the two new masks in place |
| DynamicStateBinding.StencilWriteMaskSound | cocos/gfx/webgl/webgl-commands.ts:2414-2426 | from a truthful cache, the write-mask checks leave it truthful and change only the write masks |
| DynamicStateBinding.OnlyDynamicTrans | cocos/gfx/webgl/webgl-commands.ts:2384-2446 | changes confined to dynamic state compose |
| DynamicStateBinding.CompareFrontSound | cocos/gfx/webgl/webgl-commands.ts:2430-2435 | the front compare check sets reference and read mask together, keeping the cached stencil function, and leaves the cache truthful |
| DynamicStateBinding.CompareBackSound | cocos/gfx/webgl/webgl-commands.ts:2436-2441 | the back compare check sets reference and read mask together, keeping the cached stencil function, and leaves the cache truthful |
| DynamicStateBinding.StencilCompareMaskSound | cocos/gfx/webgl/webgl-commands.ts:2427-2443 | from a truthful cache, the compare-mask checks leave it truthful and change only the stencil functions |
| DynamicStateBinding.StepSound | cocos/gfx/webgl/webgl-commands.ts:2386-2445 | from a truthful cache, any one dynamic state leaves it truthful and touches only dynamic state |
| DynamicStateBinding.DynamicsSound | cocos/gfx/webgl/webgl-commands.ts:2382-2447 | from a truthful cache, the whole loop leaves the context in the state the new cache records and changes nothing dynamic states do not cover |
| DynamicStateBinding.ApplyDynamics | cocos/gfx/webgl/webgl-commands.ts:2383-2446 | the loop computes the recursive definition |
| DynamicStateBinding.UpdateDynamicStates | cocos/gfx/webgl/webgl-commands.ts:2382-2447 | with a pipeline the cache takes the recorded values of its declared states and the trace grows by the loop's calls; without one nothing changes |
| StatesCommand.GfxAfter | cocos/gfx/webgl/webgl-commands.ts:1724-2255 | after the pipeline and vertex blocks the gfx cache records the pipeline bound and, when the vertex block ran, the assembler |
| StatesCommand.RepeatBindsNothing | cocos/gfx/webgl/webgl-commands.ts:1724-2255 | binding the same states again runs neither the pipeline block nor the vertex block and leaves the gfx cache as it is |
| StatesCommand.BindDescriptorSets | cocos/gfx/webgl/webgl-commands.ts:1963-2250 | every uniform block is uploaded as the uniform definitions say, then every sampler unit bound as the sampler definitions say |
| StatesCommand.BindPipelineOf | cocos/gfx/webgl/webgl-commands.ts:1723-1961 | the pipeline block runs only for a pipeline other than the one last bound, and reports whether the program changed |
| StatesCommand.BindSetsOf | cocos/gfx/webgl/webgl-commands.ts:1963-2250 | the descriptor block runs only with a pipeline layout and a shader, and otherwise issues nothing |
| StatesCommand.BindInputAndDynamics | cocos/gfx/webgl/webgl-commands.ts:2252-2447 | the vertex block behind its guard, then the dynamic states |
| StatesCommand.BindStates | cocos/gfx/webgl/webgl-commands.ts:1704-2448 | the trace is the pipeline, descriptor, vertex and dynamic-state calls in that order, each empty when its guard fails, and the gfx cache ends as GfxAfter says |
| RenderPassCommands.RealArea | cocos/gfx/webgl/webgl-commands.ts:1541-1544 | the render area shifted left by the mip level, each field wrapped to a 32-bit integer |
| RenderPassCommands.RealAreaScales | cocos/gfx/webgl/webgl-commands.ts:1541-1544 | while nothing overflows, the mip level scales every field of the area by 2 to that power |
| RenderPassCommands.TargetCalls | cocos/gfx/webgl/webgl-commands.ts:1550-1579 | the framebuffer bind, viewport and scissor calls are each issued exactly when the cache differs, and nothing else |
| RenderPassCommands.ColorClears | cocos/gfx/webgl/webgl-commands.ts:1582-1614 | the clear loop over the attachments it visits issues the color-clear calls of the definition and reports whether it set the color bit |
| RenderPassCommands.ColorClearsUseFirstColor | cocos/gfx/webgl/webgl-commands.ts:1590-1614 | every color clear uses the first clear color, and channels are unmasked only when the cached blend mask is not ALL |
| RenderPassCommands.DepthClearCalls | cocos/gfx/webgl/webgl-commands.ts:1620-1628 | a depth clear sets the clear depth, unmasking depth writes exactly when the cache has them off |
| RenderPassCommands.StencilClearCalls | cocos/gfx/webgl/webgl-commands.ts:1641-1652 | a stencil clear sets the clear value, unmasking each face exactly when its cached write mask is 0 |
| RenderPassCommands.DepthStencilClears | cocos/gfx/webgl/webgl-commands.ts:1616-1663 | depth is cleared exactly for a known format with CLEAR, stencil exactly when the format also has stencil and its load op is CLEAR |
| RenderPassCommands.ClearMask | cocos/gfx/webgl/webgl-commands.ts:1603-1651 | the clear bit field is zero exactly when nothing is cleared |
| RenderPassCommands.ClearMaskBits | cocos/gfx/webgl/webgl-commands.ts:1603-1651 | the bit field holds the color, depth and stencil bits of exactly the buffers cleared |
| RenderPassCommands.Plan | cocos/gfx/webgl/webgl-commands.ts:1582-1700 | the plan clears color exactly when a visited attachment asks for it, with depth and stencil as the depth-stencil half says |
| RenderPassCommands.PassBody | cocos/gfx/webgl/webgl-commands.ts:1547-1700 | the body of a pass over a framebuffer with a render pass issues the calls of the definition |
| RenderPassCommands.TargetBody | cocos/gfx/webgl/webgl-commands.ts:1548-1579 | the bind, viewport and scissor checks issue the target calls |
| RenderPassCommands.ClearBody | cocos/gfx/webgl/webgl-commands.ts:1581-1700 | the clears and the restores issue the planned calls |
| RenderPassCommands.BeginRenderPass | cocos/gfx/webgl/webgl-commands.ts:1526-1702 | with a framebuffer the real render area is scaled; with a render pass too the cache records the target and area and the trace grows by the pass calls; otherwise nothing else changes |
| RenderPassCommands.LastMaskConcat | cocos/gfx/webgl/webgl-commands.ts:1671-1700 | the last mask call of two runs is the second run's, or else the first's |
| RenderPassCommands.RestoreSetsCached | cocos/gfx/webgl/webgl-commands.ts:1675-1700 | the restores set each overridden mask back to its cached value and touch no other mask |
| RenderPassCommands.LastOfFourOptional | cocos/gfx/webgl/webgl-commands.ts:1675-1700 | the last call setting a mask among four optional calls is the last of them issued that sets it |
| RenderPassCommands.LastOptional | cocos/gfx/webgl/webgl-commands.ts:1675-1700 | one optional call is the last to set a mask exactly when it is issued and sets it |
| RenderPassCommands.LastOfFour | cocos/gfx/webgl/webgl-commands.ts:1547-1700 | the last call setting a mask in four runs is the one in the last run that sets it |
| RenderPassCommands.LastMaskFound | cocos/gfx/webgl/webgl-commands.ts:1675-1700 | the call found is one of the calls and sets the mask; when none is found no call sets it |
| RenderPassCommands.PreparationOverridden | cocos/gfx/webgl/webgl-commands.ts:1596-1652 | any mask the recorded preparation sets is one the clears override |
| RenderPassCommands.PrepareOverridesRestored | cocos/gfx/webgl/webgl-commands.ts:1596-1700 | any mask the preparation of a clear overrides is one the restores set back |
| RenderPassCommands.PassRestoresMasks | cocos/gfx/webgl/webgl-commands.ts:1547-1700 | after a pass the last color, depth or stencil write mask it sets is the one the cache records, so the cache stays truthful |
| RenderPassCommands.DepthStencilCallKinds | cocos/gfx/webgl/webgl-commands.ts:1616-1663 | the depth-stencil preparation only sets depth and stencil state, unmasking depth only for a depth clear with writes cached off, and a face only for a stencil clear with that face's mask 0 |
| RenderPassCommands.PlanCallKinds | cocos/gfx/webgl/webgl-commands.ts:1581-1700 | the clear half never rebinds the target, and its only Clear is the planned one |
| RenderPassCommands.PlanKinds | cocos/gfx/webgl/webgl-commands.ts:1581-1700 | the planned clear half never rebinds the target, and issues exactly one Clear when anything is cleared |
| RenderPassCommands.RestoreCallKinds | cocos/gfx/webgl/webgl-commands.ts:1675-1700 | the restores only set masks |
| RenderPassCommands.RepeatedPassOnlyClears | cocos/gfx/webgl/webgl-commands.ts:1547-1700 | a pass repeated on the same target right after the first issues no bind, viewport or scissor call, only its clears and restores |
| RenderPassCommands.PassClearsRequested | cocos/gfx/webgl/webgl-commands.ts:1547-1700 | a pass issues one Clear exactly when some attachment asks for CLEAR, with the bits of exactly those attachments |
| RenderPassCommands.ClearsOfConcat | cocos/gfx/webgl/webgl-commands.ts:1547-1700 | the target calls hold no Clear, so the pass's Clears are exactly those of its clear half |
| DrawCommands.ByteOffsets | cocos/gfx/webgl/webgl-commands.ts:2460-2462 | the byte offsets of the recorded draws are element offsets times the index stride, stored as 32-bit integers; slots past the draw count keep their values |
| DrawCommands.ComputeByteOffsets | cocos/gfx/webgl/webgl-commands.ts:2460-2462 | the offset loop computes the byte offsets |
| DrawCommands.MultiDrawCall | cocos/gfx/webgl/webgl-commands.ts:2463-2521 | the one multi-draw call for the recorded draws: elements or arrays by drawByIndex, instanced by instancedDraw; MultiDrawEffect and SingleCallEffect state what it draws |
| DrawCommands.PerDrawCall | cocos/gfx/webgl/webgl-commands.ts:2488-2530 | draw j of the fallback: elements at its byte offset or arrays from its offset, instanced only when its instance count is non-zero and instancing is available; PerDrawCallEffect states it |
| DrawCommands.PerDraws | cocos/gfx/webgl/webgl-commands.ts:2488-2530 | the fallback's draws from j on, in order; PerDrawsEffect states them |
| DrawCommands.IndirectDraw | cocos/gfx/webgl/webgl-commands.ts:2455-2532 | an indirect draw fills the byte offsets of indexed draws and issues one multi-draw call when the extension is there and the per-draw fallback otherwise; MultiDrawMatchesLoop, LoopMatchesWhenCountsAgree and CountsAgreeWhenLoopMatches relate the two |
| DrawCommands.DirectDraw | cocos/gfx/webgl/webgl-commands.ts:2533-2555 | a draw from the DrawInfo: indexed when there is an index buffer, instanced when instances are asked for and available, nothing for a count that is not positive; DirectDrawEffect states it |
| DrawCommands.DirectDrawEffect | cocos/gfx/webgl/webgl-commands.ts:2533-2555 | a direct draw performs at most one draw: indexed exactly when there is an index buffer, from byte firstIndex * stride, none when its count is not positive, with the requested instances only when they are non-zero and available |
| DrawCommands.MultiDrawEffect | cocos/gfx/webgl/webgl-commands.ts:2463-2486 | the multi-draw call performs every recorded draw, with its own instance count when the list is instanced |
| DrawCommands.PerDrawCallEffect | cocos/gfx/webgl/webgl-commands.ts:2488-2500 | one draw of the fallback loop performs that recorded draw with its per-draw instance count |
| DrawCommands.PerDrawsEffect | cocos/gfx/webgl/webgl-commands.ts:2488-2500 | the fallback loop performs every recorded draw, in order, with its per-draw instance count |
| DrawCommands.MultiDrawMatchesLoop | cocos/gfx/webgl/webgl-commands.ts:2459-2532 | the fallback loop and the multi-draw call perform the same draws exactly when every draw's instance counts agree |
| DrawCommands.SingleCallEffect | cocos/gfx/webgl/webgl-commands.ts:2463-2486 | a list of one multi-draw call performs what that call does |
| DrawCommands.LoopMatchesWhenCountsAgree | cocos/gfx/webgl/webgl-commands.ts:2459-2532 | when the instance counts agree, the two paths perform the same draws |
| DrawCommands.CountsAgreeWhenLoopMatches | cocos/gfx/webgl/webgl-commands.ts:2459-2532 | when the two paths perform the same draws, the instance counts agree |
| DrawCommands.ZeroInstancesDiffer | cocos/gfx/webgl/webgl-commands.ts:2489-2498 | an instanced entry of count 0 is skipped by the multi-draw call and drawn once by the loop |
| DrawCommands.IssuePerDraws | cocos/gfx/webgl/webgl-commands.ts:2488-2500 | the fallback loop issues the calls of the definition |
| DrawCommands.Draw | cocos/gfx/webgl/webgl-commands.ts:2450-2557 | without an assembler nothing happens; otherwise the trace grows by the draw the indirect list or the DrawInfo calls for |
| CopyCommands.RowsOfVisited | cocos/gfx/webgl/webgl-commands.ts:2650 | the row loop, stepping by the block height, visits row r exactly when its start lies below the height |
| CopyCommands.TimesIsProduct | cocos/gfx/webgl/webgl-commands.ts:2645-2656 | n rows laid end to end take n times the row size |
| CopyCommands.TimesMono | cocos/gfx/webgl/webgl-commands.ts:2645-2656 | more rows laid end to end take no less room |
| CopyCommands.RowInside | cocos/gfx/webgl/webgl-commands.ts:2649-2655 | every row the repack reads lies inside the source memory |
| CopyCommands.SliceBytes | cocos/gfx/webgl/webgl-commands.ts:2650-2656 | the first rows of an image, back to back, take that many row sizes |
| CopyCommands.PickedBytes | cocos/gfx/webgl/webgl-commands.ts:2648-2657 | the first images, back to back, take that many image sizes |
| CopyCommands.RowInSlice | cocos/gfx/webgl/webgl-commands.ts:2650-2656 | a row sits after the whole rows before it in every longer run of its image's rows |
| CopyCommands.SliceInPicked | cocos/gfx/webgl/webgl-commands.ts:2648-2657 | an image's bytes sit after the whole images before it in every longer run of images |
| CopyCommands.RowPlaced | cocos/gfx/webgl/webgl-commands.ts:2648-2657 | byte k of row r of image i is copied from its place in the source to position (i * rows + r) * chunk + k |
| CopyCommands.StagingAfter | cocos/gfx/webgl/webgl-commands.ts:2641-2657 | after the repack the staging buffer is at least as long as before and at least the requested size, and starts with the repacked rows |
| CopyCommands.StagingTail | cocos/gfx/webgl/webgl-commands.ts:2641-2657 | past the bytes written the staging buffer keeps its old bytes, or holds zeros when it was replaced |
| CopyCommands.CopyRow | cocos/gfx/webgl/webgl-commands.ts:2651-2653 | one row copy writes the chunk at its destination and nothing else |
| CopyCommands.WriteAfter | cocos/gfx/webgl/webgl-commands.ts:2651-2655 | writing right after what was written extends the written run |
| CopyCommands.PickRow | cocos/gfx/webgl/webgl-commands.ts:2650-2656 | one pass of the row loop writes that row right after the rows before it |
| CopyCommands.PickSlice | cocos/gfx/webgl/webgl-commands.ts:2649-2656 | the row loop writes an image's rows back to back and leaves the rest of the buffer |
| CopyCommands.PickAll | cocos/gfx/webgl/webgl-commands.ts:2645-2657 | the image loop writes every row back to back from byte 0 and leaves the rest of the buffer |
| CopyCommands.PickedStep | cocos/gfx/webgl/webgl-commands.ts:2648-2657 | one pass of the image loop writes that image right after the images before it |
| CopyCommands.PixelBufferPick | cocos/gfx/webgl/webgl-commands.ts:2625-2661 | the staging buffer is replaced only when smaller than needed, ends as the repack definition says, and its first bytes are handed back |
| CopyCommands.AlignToLeast | cocos/gfx/webgl/webgl-commands.ts:2702-2706 | alignTo gives a multiple of the alignment |
| CopyCommands.ExtentHeightAsWritten | cocos/gfx/webgl/webgl-commands.ts:2705-2706 | as written, a height below one block is replaced by the region's width and any other height rounds up to whole blocks; ExtentHeightFromWidth exhibits the first case |
| CopyCommands.RegionLayoutAsWritten | cocos/gfx/webgl/webgl-commands.ts:2700-2711 | the region's layout as the 2D and cube loops compute it, with the written extent height; RegionAligned states its alignment, strides and uploaded rectangle |
| CopyCommands.RegionLayoutOf | cocos/gfx/webgl/webgl-commands.ts:2700-2711 | the corrected half of the extent-height finding: the layout with the intended extent height; LayoutAsWrittenDiffers and IntendedExtentHeightCovers relate it to the written one |
| CopyCommands.RegionAligned | cocos/gfx/webgl/webgl-commands.ts:2702-2711 | offsets and extents round up to whole blocks as the source's conditions say, a height below one block is replaced by the region's width as written, strides default to the extent, and the uploaded size is the region's own where it reaches the level's edge |
| CopyCommands.LayoutAsWrittenDiffers | cocos/gfx/webgl/webgl-commands.ts:2702-2711 | the source's layout is the corrected one for regions at least one block high, and below that takes the region's width as its extent height |
| CopyCommands.ExtentHeightFromWidth | cocos/gfx/webgl/webgl-commands.ts:2705-2706 | as written, an 8 x 2 region of a 4 x 4 block format is read as 8 texels, two block rows, high |
| CopyCommands.IntendedExtentHeightCovers | cocos/gfx/webgl/webgl-commands.ts:2704-2706 | the intended extent height is the region's height below one block and whole blocks otherwise, covering exactly the region's block rows |
| CopyCommands.RowsOfBetween | cocos/gfx/webgl/webgl-commands.ts:2650 | a height above q - 1 whole blocks and at most q covers q block rows |
| CopyCommands.UploadCall | cocos/gfx/webgl/webgl-commands.ts:2723-2756 | one image's upload at the aligned offset with the uploaded rectangle: texSubImage2D for an uncompressed format, compressedTexSubImage2D for a compressed one, and compressedTexImage2D for ETC1 or where compressed sub-image updates are unavailable |
| CopyCommands.ImageStep | cocos/gfx/webgl/webgl-commands.ts:2713-2756 | one image takes the next buffer; a missing buffer fails the copy; the pixels are the buffer's own bytes when the strides equal the extent and the repacked ones otherwise; on success there is exactly one UploadCall |
| CopyCommands.Uploads | cocos/gfx/webgl/webgl-commands.ts:2690-2831 | the images one after another, each with the next buffer, nothing more after a failure; UploadsConcat, UploadsFailed, UploadsGrow and UploadsComplete state its properties |
| CopyCommands.Images2D | cocos/gfx/webgl/webgl-commands.ts:2690-2757 | a 2D copy uploads one image per region, to TEXTURE_2D |
| CopyCommands.Faces | cocos/gfx/webgl/webgl-commands.ts:2784-2831 | a cube region uploads one image per layer from its base layer on, to the face of that layer |
| CopyCommands.UploadsConcat | cocos/gfx/webgl/webgl-commands.ts:2690-2831 | uploading two runs of images is uploading the first and then the second |
| CopyCommands.UploadsFailed | cocos/gfx/webgl/webgl-commands.ts:2714-2787 | once an image has failed, nothing more happens |
| CopyCommands.ImageStepShape | cocos/gfx/webgl/webgl-commands.ts:2713-2756 | one image never shrinks the staging buffer, and issues one upload to its target exactly when it goes through |
| CopyCommands.UploadsGrow | cocos/gfx/webgl/webgl-commands.ts:2690-2831 | uploads never shrink the staging buffer and only append calls |
| CopyCommands.UploadsComplete | cocos/gfx/webgl/webgl-commands.ts:2690-2831 | a copy that goes through reads one buffer per image, in order, and issues exactly one upload per image, to that image's target |
| CopyCommands.MipmapWithoutPowerOfTwo | cocos/gfx/webgl/webgl-commands.ts:2840-2842 | as written, a texture that is not a power of two still has its mipmaps generated |
| CopyCommands.IntendedMipmapOnlyPowerOfTwo | cocos/gfx/webgl/webgl-commands.ts:2840-2842 | with the power-of-two guard the image copy uses, mipmaps are generated exactly for power-of-two textures that ask for them |
| CopyCommands.CopyImage | cocos/gfx/webgl/webgl-commands.ts:2713-2756 | one image repacks into the staging buffer when its strides differ from its extent and issues its upload, as the definition says |
| CopyCommands.UploadsFromCalls | cocos/gfx/webgl/webgl-commands.ts:2690-2831 | uploads from a state that already holds calls append to them |
| CopyCommands.ImagesCubeStep | cocos/gfx/webgl/webgl-commands.ts:2761-2832 | a cube copy's images up to a region are those before it followed by its faces |
| CopyCommands.FailedPrefix | cocos/gfx/webgl/webgl-commands.ts:2714-2787 | once a prefix of the images has failed, the whole copy ends where that prefix did |
| CopyCommands.CubeStep | cocos/gfx/webgl/webgl-commands.ts:2761-2832 | one region's faces continue the upload from the regions before it |
| CopyCommands.CopyImages | cocos/gfx/webgl/webgl-commands.ts:2690-2757 | the image loop uploads images in order, the first failure ending it, as the definition says |
| CopyCommands.CopyRegion | cocos/gfx/webgl/webgl-commands.ts:2784-2831 | the face loop of one cube region continues the upload from the regions before it |
| CopyCommands.CopyCube | cocos/gfx/webgl/webgl-commands.ts:2760-2834 | the cube loop uploads each face of each region in order, as the definition says |
| CopyCommands.ImagesCubeConcat | cocos/gfx/webgl/webgl-commands.ts:2761-2832 | the images of consecutive runs of cube regions are the runs' images one after the other |
| CopyCommands.CopyBuffersToTexture | cocos/gfx/webgl/webgl-commands.ts:2663-2843 | the texture is bound on the active unit, each image uploaded from its own buffer in order, a target that is neither 2D nor cube reported as 16327, and mipmaps generated exactly when the texture's flags ask for them, whatever its size, as written |
| CopyCommands.MipmapCallsAsWritten | cocos/gfx/webgl/webgl-commands.ts:2840-2842 | as written, one generateMipmap call on the texture's target whenever its flags ask for mipmaps, whatever its size; MipmapWithoutPowerOfTwo exhibits it for a texture that is not a power of two |
| CopyCommands.MipmapCalls | cocos/gfx/webgl/webgl-commands.ts:2840-2842 | the corrected half of the mipmap finding: the call only for a power-of-two texture, as the image copy guards it at 2618-2620; IntendedMipmapOnlyPowerOfTwo states it |
| WebGL2Commands.RecordStores | cocos/gfx/webgl2/webgl2-command-buffer.ts:141-249 | every dynamic-state setter leaves the recorded states holding its arguments with nothing else changed, and invalidates exactly when that is a change |
| WebGL2Commands.RecordRepeat | cocos/gfx/webgl2/webgl2-command-buffer.ts:141-249 | a setter called again with the same arguments changes nothing and does not invalidate |
| WebGL2Commands.StencilFacesUntouched | cocos/gfx/webgl2/webgl2-command-buffer.ts:213-249 | the stencil setters leave a face the face argument does not select exactly as it was |
| WebGL2Commands.SpliceAt | cocos/gfx/webgl2/webgl2-command-buffer.ts:127-129 | the dynamic-offset copy keeps the list's length, puts the given offsets in the set's window and keeps the rest |
| WebGL2Commands.SpliceExtend | cocos/gfx/webgl2/webgl2-command-buffer.ts:129 | one more pass of the copy loop extends the copied window by one offset |
| WebGL2Commands.CommandBuffer2.constructor | cocos/gfx/webgl2/webgl2-command-buffer.ts:51-71 | a new command buffer has nothing bound, one null set slot per descriptor set, eight zero dynamic offsets and the default dynamic states |
| WebGL2Commands.CommandBuffer2.Begin | cocos/gfx/webgl2/webgl2-command-buffer.ts:77-84 | starting to record clears the bound pipeline, input assembler, sets and counters and keeps the rest |
| WebGL2Commands.CommandBuffer2.BindStates | cocos/gfx/webgl2/webgl2-command-buffer.ts:277-280 | applying recorded state reports it is not supported and clears the invalid mark |
| WebGL2Commands.CommandBuffer2.End | cocos/gfx/webgl2/webgl2-command-buffer.ts:86-92 | ending flushes invalid state, reporting once when it was invalid, and leaves neither flag set |
| WebGL2Commands.CommandBuffer2.BeginRenderPass | cocos/gfx/webgl2/webgl2-command-buffer.ts:94-104 | beginning a render pass reports it is not supported and sets the in-pass flag |
| WebGL2Commands.CommandBuffer2.EndRenderPass | cocos/gfx/webgl2/webgl2-command-buffer.ts:106-108 | ending a render pass clears the in-pass flag and nothing else |
| WebGL2Commands.CommandBuffer2.BindPipelineState | cocos/gfx/webgl2/webgl2-command-buffer.ts:110-116 | the pipeline becomes the bound one, and the state is invalidated only when it differs from the one bound |
| WebGL2Commands.CommandBuffer2.BindInputAssembler | cocos/gfx/webgl2/webgl2-command-buffer.ts:135-139 | binding an input assembler always invalidates, even when it is the one bound |
| WebGL2Commands.CommandBuffer2.BindDescriptorSet | cocos/gfx/webgl2/webgl2-command-buffer.ts:118-133 | a set other than the one bound is stored, growing the list past its end, and invalidates; given dynamic offsets go into the layout's window for the set, and invalidate, only when a pipeline with a layout is bound |
| WebGL2Commands.CommandBuffer2.SetViewport | cocos/gfx/webgl2/webgl2-command-buffer.ts:141-157 | the viewport is recorded as the setter definition says and invalidates only on a change |
| WebGL2Commands.CommandBuffer2.SetScissor | cocos/gfx/webgl2/webgl2-command-buffer.ts:159-171 | the scissor is recorded as the setter definition says and invalidates only on a change |
| WebGL2Commands.CommandBuffer2.SetLineWidth | cocos/gfx/webgl2/webgl2-command-buffer.ts:173-178 | the line width is recorded as the setter definition says and invalidates only on a change |
| WebGL2Commands.CommandBuffer2.SetDepthBias | cocos/gfx/webgl2/webgl2-command-buffer.ts:180-190 | the three bias factors are recorded as the setter definition says and invalidate only on a change |
| WebGL2Commands.CommandBuffer2.SetBlendConstants | cocos/gfx/webgl2/webgl2-command-buffer.ts:192-201 | the blend constant is recorded as the setter definition says and invalidates only on a change |
| WebGL2Commands.CommandBuffer2.SetDepthBound | cocos/gfx/webgl2/webgl2-command-buffer.ts:203-211 | the depth bounds are recorded as the setter definition says and invalidate only on a change |
| WebGL2Commands.CommandBuffer2.SetStencilWriteMask | cocos/gfx/webgl2/webgl2-command-buffer.ts:213-228 | the write mask of the selected faces is recorded as the setter definition says and invalidates only on a change |
| WebGL2Commands.CommandBuffer2.SetStencilCompareMask | cocos/gfx/webgl2/webgl2-command-buffer.ts:230-249 | reference and compare mask of the selected faces are recorded as the setter definition says and invalidate only on a change |
| WebGL2Commands.Store | cocos/gfx/webgl2/webgl2-command-buffer.ts:120-121 | storing a set at an index past the end grows the list to that index with empty holes, and keeps every other slot |
| WebGL2Commands.StoreSame | cocos/gfx/webgl2/webgl2-command-buffer.ts:120-123 | storing the set a slot already holds leaves the list unchanged |
| WebGL2Commands.CopyOffsets | cocos/gfx/webgl2/webgl2-command-buffer.ts:127-129 | the copy loop writes the given offsets into the window from the set's start and leaves the rest |

## Left out

- UniformBinding.BindUniformBlocks: requires every block's window to fit its buffer's float mirror. Past the end the source copies `undefined` and uploads it (2003); an exact-real model has no such value.
- StatesCommand.BindStates: inherits that requirement and the unit-range one below for the descriptor part. It also requires every reflected shader input to be present.
- BufferCommands.UpdateUniformBuffer: requires the data to fit the float mirror. There `vf32.set` would throw a RangeError (620-625), and the model has no exceptions.
- InputAssemblerCommands.CreateInputAssembler: requires every attribute's stream to be below eight and to have a vertex buffer. A stream of eight or more gives a NaN offset, and a missing buffer throws (1476-1489).
- RenderPassCommands.BeginRenderPass: requires an attachment and a clear color for every color attachment it clears. The source throws on a missing one (1591, 1601).
- SamplerBinding.UpdateUnit: requires the texture unit to exist. The source throws on a unit outside the cache (2170).
- ShaderCommands.CreateShader, ShaderCommands.BindSamplerUnits, ShaderCommands.ReflectProgram: require every sampler's set to have an entry in the binding mappings' `samplerTextureOffsets`. The source reads that entry unguarded (1353); for an unmapped set it reads `undefined`, and the unit it caches is NaN.
- DrawCommands.Draw: requires an index buffer for an indexed indirect draw. The source throws reading the missing buffer's stride (2461).
- BufferCommands.ClearDraws, BufferCommands.Grow, BufferCommands.SetDrawInfo: the indirect buffer's `clearDraws` and `setDrawInfo` (626-631) are defined in a file that is not part of this model. They are modelled by what their names and their use in `WebGLCmdFuncDraw` imply.
- WebGL2Commands.CommandBuffer2.BindDescriptorSet: requires the set's dynamic-offset window to lie inside the eight offsets. A JavaScript array would grow past its end instead.
- The iOS-specific full `bufferData` re-upload (673-683) is not modelled: it depends on the platform and writes the same data.
- The ByteDance mini-game shader-source workaround (705-706) is not modelled: it depends on the platform.
- The `enableEffectImport` path of shader reflection (1359-1371) is not modelled: it reads a global engine setting.
- Floating-point numbers are exact reals: there is no rounding, NaN or infinity.
- `FormatInfos`, `FormatSize` and `formatAlignment` (`define.ts`) are not part of this model. They are supplied by the device per format.
- The results of WebGL queries and object creation are parameters, not computed.
- Loops that write to several textures or uniforms one by one are modelled with all writes landing at the end of the operation. Nothing reads those fields in between, so the final state is the same.
- `WebGLCmdFuncCopyTexImagesToTexture` (2559-2623) is not modelled. It uploads DOM images and canvases, which have no model here.
- `WebGLCmdFuncCopyTextureToBuffers` (2845-2887) is not modelled: `readPixels` reads the context's framebuffer contents, which the trace does not hold.
- `WebGLCmdFuncBlitTexture` (2889-2898) is not modelled: its body only reports that it is unsupported.
- The unsupported `WebGL2CommandBuffer` members (`cocos/gfx/webgl2/webgl2-command-buffer.ts:251-286`) are not modelled, except `bindStates`. Each of them only reports an error number.
- The null checks on framebuffer attachment textures are not modelled. Attachments are always present textures.
- Diagnostic 9100 is logged by number only; its message arguments are left out.
- The `assertID` 9101 check is not modelled: it is a development-build assertion.
- Typed-array views and their constructors are sequences of numbers.
- A bound pipeline is compared by value, not by object identity. Two distinct pipelines with equal contents therefore count as the same.

## Findings

| source | as written | input that shows it | evidently intended | confidence | as-written member | corrected member |
|---|---|---|---|---|---|---|
| cocos/gfx/webgl/webgl-commands.ts:2705-2706, 2776-2777 | a region smaller than one block in height gets the region's width as its extent height | an 8 x 2 region of a format with 4 x 4 blocks is read as 8 texel rows, two block rows, instead of one | the region's own height | not executed | CopyCommands.ExtentHeightFromWidth | CopyCommands.IntendedExtentHeightCovers |
| cocos/gfx/webgl/webgl-commands.ts:2840-2842 | after a buffer-to-texture copy, mipmaps are generated whenever the texture asks for them | a 3 x 5 texture with the mipmap flag gets `generateMipmap`, which WebGL 1.0 rejects for sizes that are not powers of two | the power-of-two guard that the image copy applies | not executed | CopyCommands.MipmapWithoutPowerOfTwo | CopyCommands.IntendedMipmapOnlyPowerOfTwo |
| cocos/gfx/webgl/webgl-commands.ts:1126-1131 | when a stage fails to compile, the cleanup loop deletes `glShader` of stage `k` (the failed one) on every pass instead of stage `l` | a vertex stage that compiles followed by a fragment stage that fails leaves the vertex shader undeleted | delete every stage's shader | not executed | ShaderCommands.FailedFragmentLeaksVertexShader | ShaderCommands.IntendedCompileFailureReleasesAll |
| cocos/gfx/webgl/webgl-commands.ts:2194-2201 | a power-of-two texture with one mip level keeps a `NEAREST_MIPMAP_*` minification filter, while only `LINEAR_MIPMAP_*` is demoted | a single-level power-of-two texture sampled with `NEAREST_MIPMAP_NEAREST` keeps that filter, which leaves a single-level texture incomplete in WebGL | demote both mipmap filters to their level-0 form | not executed | SamplerBinding.SingleLevelKeepsNearestMipmap | SamplerBinding.IntendedMinFilterDiffersOnlyThere |

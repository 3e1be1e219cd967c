/**
 * Creation, destruction, resizing and updating of buffers
 * (WebGLCmdFuncCreateBuffer / DestroyBuffer / ResizeBuffer / UpdateBuffer).
 */
module BufferCommands {
  import opened Wrappers
  import opened GL
  import opened Objects
  import opened JsInt

  /** The branch a buffer takes, tested on its usage bits in the source's order. */
  datatype BufferRole = VertexRole | IndexRole | UniformRole | IndirectRole | TransferDstRole | TransferSrcRole | NoRole

  function RoleOf(usage: nat): BufferRole {
    if HasBit(usage, USAGE_VERTEX) then VertexRole
    else if HasBit(usage, USAGE_INDEX) then IndexRole
    else if HasBit(usage, USAGE_UNIFORM) then UniformRole
    else if HasBit(usage, USAGE_INDIRECT) then IndirectRole
    else if HasBit(usage, USAGE_TRANSFER_DST) then TransferDstRole
    else if HasBit(usage, USAGE_TRANSFER_SRC) then TransferSrcRole
    else NoRole
  }

  /** The bind target of a role: only vertex and index buffers have one. */
  function TargetOf(role: BufferRole): (r: GLenum)
    ensures r == ARRAY_BUFFER <==> role == VertexRole
    ensures r == ELEMENT_ARRAY_BUFFER <==> role == IndexRole
    ensures r != ARRAY_BUFFER && r != ELEMENT_ARRAY_BUFFER ==> r == NONE
  {
    match role
    case VertexRole => ARRAY_BUFFER
    case IndexRole => ELEMENT_ARRAY_BUFFER
    case _ => NONE
  }

  function UsageHint(memUsage: nat): GLenum {
    if HasBit(memUsage, MEMORY_HOST) then DYNAMIC_DRAW else STATIC_DRAW
  }

  /** The cache with the binding of `target` (array or element array) set to `h`. */
  function WithBufferBinding(c: StateCache, target: GLenum, h: Handle): StateCache {
    if target == ARRAY_BUFFER then c.(glArrayBuffer := h)
    else if target == ELEMENT_ARRAY_BUFFER then c.(glElementArrayBuffer := h)
    else c
  }

  function BoundBuffer(c: StateCache, target: GLenum): Handle {
    if target == ARRAY_BUFFER then c.glArrayBuffer
    else if target == ELEMENT_ARRAY_BUFFER then c.glElementArrayBuffer
    else None
  }

  /** The calls that release a bound vertex array object before a buffer binding changes. */
  function VAOReleaseCalls(useVAO: bool, glVAO: Handle): seq<GLCall> {
    if useVAO && glVAO.Some? then [BindVertexArray(None)] else []
  }

  function VAOAfterRelease(useVAO: bool, glVAO: Handle): Handle {
    if useVAO then None else glVAO
  }

  /** A buffer binding through the device leaves the cache slot and the trace describing each other. */
  lemma BindingRoundTrip(c: StateCache, target: GLenum, h: Handle)
    requires target == ARRAY_BUFFER || target == ELEMENT_ARRAY_BUFFER
    ensures BoundBuffer(WithBufferBinding(c, target, h), target) == h
    ensures WithBufferBinding(c, target, h).glVAO == c.glVAO
  {
  }

  /** Release the VAO (when the extension is used) and forget the bound input assembler. */
  method ReleaseVertexState(dev: WebGLDevice)
    modifies dev
    ensures dev.cache == old(dev.cache).(glVAO := VAOAfterRelease(dev.ext.useVAO, old(dev.cache.glVAO)))
    ensures dev.gfx == old(dev.gfx).(gpuInputAssembler := null)
    ensures dev.trace == old(dev.trace) + VAOReleaseCalls(dev.ext.useVAO, old(dev.cache.glVAO))
    ensures dev.log == old(dev.log) && dev.staging == old(dev.staging) && dev.realRenderArea == old(dev.realRenderArea)
  {
    if dev.ext.useVAO {
      if dev.cache.glVAO.Some? {
        dev.Call(BindVertexArray(None));
        dev.cache := dev.cache.(glVAO := None);
      }
    }
    dev.gfx := dev.gfx.(gpuInputAssembler := null);
  }

  /** The calls CreateBuffer makes to allocate storage for a vertex or index buffer. */
  function AllocationCalls(target: GLenum, bound: Handle, buffer: Handle, size: int, usage: GLenum): seq<GLCall> {
    (if bound != buffer then [BindBuffer(target, buffer)] else []) +
    [BufferData(target, size, usage), BindBuffer(target, None)]
  }

  method CreateBuffer(dev: WebGLDevice, b: GPUBuffer, created: Handle)
    modifies dev, b
    ensures b.info == old(b.info) && b.indirects == old(b.indirects)
    ensures b.glTarget == TargetOf(RoleOf(b.info.usage))
    ensures b.glBuffer == (if b.glTarget != NONE && created.Some? then created else old(b.glBuffer))
    ensures b.vf32 == (if RoleOf(b.info.usage) == UniformRole && b.info.buffer.Some?
                       then Some(b.info.buffer.value.floats) else old(b.vf32))
    ensures dev.log == old(dev.log) + (if RoleOf(b.info.usage) == NoRole then [16315] else [])
    ensures b.glTarget != NONE && created.Some? && b.info.size > 0 ==>
      && dev.cache == WithBufferBinding(old(dev.cache), b.glTarget, None)
                        .(glVAO := VAOAfterRelease(dev.ext.useVAO, old(dev.cache.glVAO)))
      && dev.gfx == old(dev.gfx).(gpuInputAssembler := null)
      && dev.trace == old(dev.trace) + VAOReleaseCalls(dev.ext.useVAO, old(dev.cache.glVAO))
           + AllocationCalls(b.glTarget, BoundBuffer(old(dev.cache), b.glTarget), created, b.info.size,
                             UsageHint(b.info.memUsage))
    ensures !(b.glTarget != NONE && created.Some? && b.info.size > 0) ==>
      dev.cache == old(dev.cache) && dev.gfx == old(dev.gfx) && dev.trace == old(dev.trace)
    ensures dev.staging == old(dev.staging) && dev.realRenderArea == old(dev.realRenderArea)
  {
    var glUsage := UsageHint(b.info.memUsage);
    var role := RoleOf(b.info.usage);
    if role == VertexRole || role == IndexRole {
      var target := TargetOf(role);
      b.glTarget := target;
      if created.Some? {
        b.glBuffer := created;
        if b.info.size > 0 {
          ReleaseVertexState(dev);
          if BoundBuffer(dev.cache, target) != b.glBuffer {
            dev.Call(BindBuffer(target, b.glBuffer));
            dev.cache := WithBufferBinding(dev.cache, target, b.glBuffer);
          }
          dev.Call(BufferData(target, b.info.size, glUsage));
          dev.Call(BindBuffer(target, None));
          dev.cache := WithBufferBinding(dev.cache, target, None);
        }
      }
    } else if role == UniformRole {
      b.glTarget := NONE;
      if b.info.buffer.Some? {
        b.vf32 := Some(b.info.buffer.value.floats);
      }
    } else if role == NoRole {
      dev.Report(Some(16315));
      b.glTarget := NONE;
    } else {
      b.glTarget := NONE;
    }
  }

  /** The calls DestroyBuffer makes for a buffer with a native object. */
  function ReleaseCalls(useVAO: bool, glVAO: Handle, glTarget: GLenum, glBuffer: nat): seq<GLCall> {
    (if glTarget == ARRAY_BUFFER || glTarget == ELEMENT_ARRAY_BUFFER
     then VAOReleaseCalls(useVAO, glVAO) + [BindBuffer(glTarget, None)]
     else []) + [DeleteBuffer(glBuffer)]
  }

  /**
   * Destroying a vertex or index buffer clears its cache slot and the remembered input assembler
   * (drivers may unbind the slot implicitly), deletes the native buffer and forgets the handle.
   */
  method DestroyBuffer(dev: WebGLDevice, b: GPUBuffer)
    modifies dev, b
    ensures b.glBuffer == None
    ensures b.info == old(b.info) && b.glTarget == old(b.glTarget) && b.vf32 == old(b.vf32)
    ensures b.indirects == old(b.indirects)
    ensures old(b.glBuffer).Some? && (b.glTarget == ARRAY_BUFFER || b.glTarget == ELEMENT_ARRAY_BUFFER) ==>
      && dev.cache == WithBufferBinding(old(dev.cache), b.glTarget, None)
                        .(glVAO := VAOAfterRelease(dev.ext.useVAO, old(dev.cache.glVAO)))
      && BoundBuffer(dev.cache, b.glTarget) == None
      && dev.gfx.gpuInputAssembler == null && dev.gfx == old(dev.gfx).(gpuInputAssembler := null)
    ensures !(old(b.glBuffer).Some? && (b.glTarget == ARRAY_BUFFER || b.glTarget == ELEMENT_ARRAY_BUFFER)) ==>
      dev.cache == old(dev.cache) && dev.gfx == old(dev.gfx)
    ensures dev.trace == old(dev.trace) +
      (if old(b.glBuffer).Some?
       then ReleaseCalls(dev.ext.useVAO, old(dev.cache.glVAO), b.glTarget, old(b.glBuffer).value)
       else [])
    ensures dev.log == old(dev.log) && dev.staging == old(dev.staging) && dev.realRenderArea == old(dev.realRenderArea)
  {
    if b.glBuffer.Some? {
      if b.glTarget == ARRAY_BUFFER || b.glTarget == ELEMENT_ARRAY_BUFFER {
        ReleaseVertexState(dev);
        dev.Call(BindBuffer(b.glTarget, None));
        dev.cache := WithBufferBinding(dev.cache, b.glTarget, None);
      }
      dev.Call(DeleteBuffer(b.glBuffer.value));
      b.glBuffer := None;
    }
  }

  /** The storage call of a resize: the shadow copy's bytes when there is one, else the size. */
  function StorageCall(target: GLenum, info: BufferInfo): GLCall {
    if info.buffer.Some? then BufferDataFrom(target, info.buffer.value.bytes, UsageHint(info.memUsage))
    else BufferData(target, info.size, UsageHint(info.memUsage))
  }

  /**
   * Resizing re-specifies the storage of a vertex or index buffer. The bind it may issue
   * first does not record the buffer in the cache; the slot is left null afterwards.
   */
  method ResizeBuffer(dev: WebGLDevice, b: GPUBuffer)
    modifies dev, b
    ensures b.info == old(b.info) && b.glBuffer == old(b.glBuffer) && b.indirects == old(b.indirects)
    ensures b.vf32 == (if RoleOf(b.info.usage) == UniformRole && b.info.buffer.Some?
                       then Some(b.info.buffer.value.floats) else old(b.vf32))
    ensures b.glTarget == (if RoleOf(b.info.usage) in {VertexRole, IndexRole, UniformRole}
                           then old(b.glTarget) else NONE)
    ensures dev.log == old(dev.log) + (if RoleOf(b.info.usage) == NoRole then [16315] else [])
    ensures RoleOf(b.info.usage) in {VertexRole, IndexRole} ==>
      var target := TargetOf(RoleOf(b.info.usage));
      && dev.cache == WithBufferBinding(old(dev.cache), target, None)
                        .(glVAO := VAOAfterRelease(dev.ext.useVAO, old(dev.cache.glVAO)))
      && dev.gfx == old(dev.gfx).(gpuInputAssembler := null)
      && dev.trace == old(dev.trace) + VAOReleaseCalls(dev.ext.useVAO, old(dev.cache.glVAO))
           + (if BoundBuffer(old(dev.cache), target) != b.glBuffer then [BindBuffer(target, b.glBuffer)] else [])
           + [StorageCall(target, b.info), BindBuffer(target, None)]
    ensures RoleOf(b.info.usage) !in {VertexRole, IndexRole} ==>
      dev.cache == old(dev.cache) && dev.gfx == old(dev.gfx) && dev.trace == old(dev.trace)
    ensures dev.staging == old(dev.staging) && dev.realRenderArea == old(dev.realRenderArea)
  {
    var role := RoleOf(b.info.usage);
    if role == VertexRole || role == IndexRole {
      var target := TargetOf(role);
      ReleaseVertexState(dev);
      if BoundBuffer(dev.cache, target) != b.glBuffer {
        dev.Call(BindBuffer(target, b.glBuffer));
      }
      dev.Call(StorageCall(target, b.info));
      dev.Call(BindBuffer(target, None));
      dev.cache := WithBufferBinding(dev.cache, target, None);
    } else if role == UniformRole {
      if b.info.buffer.Some? {
        b.vf32 := Some(b.info.buffer.value.floats);
      }
    } else if role == NoRole {
      dev.Report(Some(16315));
      b.glTarget := NONE;
    } else {
      b.glTarget := NONE;
    }
  }

  // ---------------------------------------------------------------- indirect draw lists

  /** Forget the recorded draws; the arrays keep their contents and capacity. */
  function ClearDraws(d: IndirectDraws): (r: IndirectDraws)
    ensures d.Valid() ==> r.Valid()
    ensures r.drawCount == 0 && |r.counts| == |d.counts|
  {
    d.(drawCount := 0, drawByIndex := false, instancedDraw := false)
  }

  /** `s` extended with zeros to at least `n` entries. */
  function Grow(s: seq<int>, n: nat): (r: seq<int>)
    ensures |r| == if |s| < n then n else |s|
    ensures r[..|s|] == s
    ensures forall k :: |s| <= k < |r| ==> r[k] == 0
  {
    if |s| < n then s + seq(n - |s|, _ => 0) else s
  }

  /** The count an indirect draw records: indices for an indexed draw, vertices otherwise. */
  function DrawCount(info: DrawInfo): int {
    if info.indexCount > 0 then info.indexCount else info.vertexCount
  }

  function DrawFirst(info: DrawInfo): int {
    if info.indexCount > 0 then info.firstIndex else info.firstVertex
  }

  function DrawInstances(info: DrawInfo): int {
    if info.instanceCount > 1 then info.instanceCount else 1
  }

  /** Record draw `idx`, growing the arrays when `idx` is past their capacity. */
  function SetDrawInfo(d: IndirectDraws, idx: nat, info: DrawInfo): (r: IndirectDraws)
    requires d.Valid()
    ensures r.Valid() && |r.counts| >= |d.counts| && idx < |r.counts|
  {
    var n := if idx < |d.counts| then |d.counts| else idx + 1;
    var counts := Grow(d.counts, n);
    var offsets := Grow(d.offsets, n);
    var instances := Grow(d.instances, n);
    var byteOffsets := Grow(d.byteOffsets, n);
    IndirectDraws(
      counts[idx := ToInt32(DrawCount(info))],
      offsets[idx := ToInt32(DrawFirst(info))],
      instances[idx := ToInt32(DrawInstances(info))],
      byteOffsets,
      if idx + 1 > d.drawCount then idx + 1 else d.drawCount,
      info.indexCount > 0,
      info.instanceCount != 0)
  }

  /** Recording a draw fills its own slot, keeps every other slot and extends the draw count. */
  lemma SetDrawInfoSlots(d: IndirectDraws, idx: nat, info: DrawInfo)
    requires d.Valid()
    ensures var r := SetDrawInfo(d, idx, info);
      && r.drawCount == (if idx + 1 > d.drawCount then idx + 1 else d.drawCount)
      && r.drawByIndex == (info.indexCount > 0) && r.instancedDraw == (info.instanceCount != 0)
      && r.counts[idx] == ToInt32(DrawCount(info)) && r.offsets[idx] == ToInt32(DrawFirst(info))
      && r.instances[idx] == ToInt32(DrawInstances(info))
      && (forall k :: 0 <= k < |d.counts| && k != idx ==>
            r.counts[k] == d.counts[k] && r.offsets[k] == d.offsets[k] && r.instances[k] == d.instances[k])
  {
    var n := if idx < |d.counts| then |d.counts| else idx + 1;
    var r := SetDrawInfo(d, idx, info);
    forall k | 0 <= k < |d.counts| && k != idx
      ensures r.counts[k] == d.counts[k] && r.offsets[k] == d.offsets[k] && r.instances[k] == d.instances[k]
    {
      assert Grow(d.counts, n)[..|d.counts|][k] == d.counts[k];
      assert Grow(d.offsets, n)[..|d.offsets|][k] == d.offsets[k];
      assert Grow(d.instances, n)[..|d.instances|][k] == d.instances[k];
    }
  }

  /** Record `infos` as draws `offset`, `offset + 1`, ... in turn. */
  function SetDrawInfos(d: IndirectDraws, offset: nat, infos: seq<DrawInfo>): (r: IndirectDraws)
    requires d.Valid()
    ensures r.Valid()
    ensures |r.counts| >= |d.counts| && offset + |infos| <= |r.counts| + (if |infos| == 0 then offset else 0)
    decreases |infos|
  {
    if |infos| == 0 then d
    else SetDrawInfo(SetDrawInfos(d, offset, infos[..|infos| - 1]), offset + |infos| - 1, infos[|infos| - 1])
  }

  lemma SetDrawInfosStep(d: IndirectDraws, offset: nat, infos: seq<DrawInfo>, i: nat)
    requires d.Valid() && i < |infos|
    ensures SetDrawInfos(d, offset, infos[..i + 1]) == SetDrawInfo(SetDrawInfos(d, offset, infos[..i]), offset + i, infos[i])
  {
    var window := infos[..i + 1];
    assert window[..i] == infos[..i] && window[i] == infos[i];
  }

  /**
   * After recording `infos` into a cleared list, the list holds exactly those draws
   * at `offset ..`: the draw count ends right after the last one, each slot holds its own
   * draw's count, first element and instance count, and the flags describe the last draw.
   */
  lemma {:induction false} SetDrawInfosLayout(d: IndirectDraws, offset: nat, infos: seq<DrawInfo>)
    requires d.Valid() && d.drawCount == 0
    ensures var r := SetDrawInfos(d, offset, infos);
      && r.drawCount == (if |infos| == 0 then 0 else offset + |infos|)
      && (|infos| > 0 ==> r.drawByIndex == (infos[|infos| - 1].indexCount > 0))
      && (forall j :: 0 <= j < |infos| ==>
            && r.counts[offset + j] == ToInt32(DrawCount(infos[j]))
            && r.offsets[offset + j] == ToInt32(DrawFirst(infos[j]))
            && r.instances[offset + j] == ToInt32(DrawInstances(infos[j])))
    decreases |infos|
  {
    if |infos| > 0 {
      var prefix := infos[..|infos| - 1];
      SetDrawInfosLayout(d, offset, prefix);
      var p := SetDrawInfos(d, offset, prefix);
      var r := SetDrawInfos(d, offset, infos);
      assert r == SetDrawInfo(p, offset + |infos| - 1, infos[|infos| - 1]);
      SetDrawInfoSlots(p, offset + |infos| - 1, infos[|infos| - 1]);
      forall j | 0 <= j < |infos|
        ensures r.counts[offset + j] == ToInt32(DrawCount(infos[j]))
        ensures r.offsets[offset + j] == ToInt32(DrawFirst(infos[j]))
        ensures r.instances[offset + j] == ToInt32(DrawInstances(infos[j]))
      {
        if j < |infos| - 1 {
          assert infos[j] == prefix[j];
        }
      }
    }
  }

  // ---------------------------------------------------------------- updates

  /** What an update carries: host memory (bytes and its float view) or an indirect draw list. */
  datatype UpdateData = HostBytes(host: HostData) | IndirectData(drawInfos: seq<DrawInfo>)

  /** `s` with `part` written over it from `at`. */
  function Overwrite<T>(s: seq<T>, at: nat, part: seq<T>): (r: seq<T>)
    requires at + |part| <= |s|
    ensures |r| == |s|
    ensures forall k :: 0 <= k < |part| ==> r[at + k] == part[k]
    ensures forall k :: 0 <= k < |s| && !(at <= k < at + |part|) ==> r[k] == s[k]
  {
    s[..at] + part + s[at + |part|..]
  }

  /** The bytes an update uploads: all of them when `size` is their length, else the first `size`. */
  function UploadedBytes(bytes: seq<bv8>, size: nat): (r: seq<bv8>)
    ensures |r| == if size < |bytes| then size else |bytes|
    ensures r == bytes[..|r|]
  {
    if size == |bytes| then bytes else bytes[..if size < |bytes| then size else |bytes|]
  }

  /** A uniform update writes the floats into the buffer's float view at `offset / 4`. */
  method UpdateUniformBuffer(b: GPUBuffer, floats: seq<real>, offset: nat)
    requires b.vf32.Some? && offset / 4 + |floats| <= |b.vf32.value|
    modifies b
    ensures b.vf32 == Some(Overwrite(old(b.vf32).value, offset / 4, floats))
    ensures b.info == old(b.info) && b.glTarget == old(b.glTarget) && b.glBuffer == old(b.glBuffer)
    ensures b.indirects == old(b.indirects)
  {
    b.vf32 := Some(Overwrite(b.vf32.value, offset / 4, floats));
  }

  /** The source's loop over the draws of an indirect update. */
  method RecordDraws(d: IndirectDraws, offset: nat, infos: seq<DrawInfo>) returns (r: IndirectDraws)
    requires d.Valid()
    ensures r == SetDrawInfos(d, offset, infos)
  {
    r := d;
    var i := 0;
    while i < |infos|
      invariant 0 <= i <= |infos|
      invariant r == SetDrawInfos(d, offset, infos[..i])
    {
      SetDrawInfosStep(d, offset, infos, i);
      r := SetDrawInfo(r, offset + i, infos[i]);
      i := i + 1;
    }
    assert infos[..i] == infos;
  }

  /** An indirect update clears the draw list and records each draw at `offset + i`. */
  method UpdateIndirectBuffer(b: GPUBuffer, infos: seq<DrawInfo>, offset: nat)
    requires b.indirects.Valid()
    modifies b
    ensures b.indirects == SetDrawInfos(ClearDraws(old(b.indirects)), offset, infos)
    ensures b.info == old(b.info) && b.glTarget == old(b.glTarget) && b.glBuffer == old(b.glBuffer)
    ensures b.vf32 == old(b.vf32)
  {
    b.indirects := RecordDraws(ClearDraws(b.indirects), offset, infos);
  }

  /** Any other update binds the buffer on its own target and uploads the bytes there. */
  method UpdateNativeBuffer(dev: WebGLDevice, b: GPUBuffer, bytes: seq<bv8>, offset: nat, size: nat)
    modifies dev
    ensures if b.glTarget == ARRAY_BUFFER || b.glTarget == ELEMENT_ARRAY_BUFFER then
        && dev.cache == WithBufferBinding(old(dev.cache), b.glTarget, b.glBuffer)
                          .(glVAO := VAOAfterRelease(dev.ext.useVAO, old(dev.cache.glVAO)))
        && dev.gfx == old(dev.gfx).(gpuInputAssembler := null)
        && dev.log == old(dev.log)
        && dev.trace == old(dev.trace) + VAOReleaseCalls(dev.ext.useVAO, old(dev.cache.glVAO))
             + (if BoundBuffer(old(dev.cache), b.glTarget) != b.glBuffer
                then [BindBuffer(b.glTarget, b.glBuffer)] else [])
             + [BufferSubData(b.glTarget, offset, UploadedBytes(bytes, size))]
      else
        && dev.cache == old(dev.cache) && dev.gfx == old(dev.gfx) && dev.trace == old(dev.trace)
        && dev.log == old(dev.log) + [16316]
    ensures dev.staging == old(dev.staging) && dev.realRenderArea == old(dev.realRenderArea)
  {
    var target := b.glTarget;
    if target == ARRAY_BUFFER || target == ELEMENT_ARRAY_BUFFER {
      ReleaseVertexState(dev);
      if BoundBuffer(dev.cache, target) != b.glBuffer {
        dev.Call(BindBuffer(target, b.glBuffer));
        dev.cache := WithBufferBinding(dev.cache, target, b.glBuffer);
      }
    } else {
      dev.Report(Some(16316));
      return;
    }
    dev.Call(BufferSubData(target, offset, UploadedBytes(bytes, size)));
  }

  /** Dispatch an update on the buffer's usage: uniform, then indirect, then native. */
  method UpdateBuffer(dev: WebGLDevice, b: GPUBuffer, data: UpdateData, offset: nat, size: nat)
    requires HasBit(b.info.usage, USAGE_UNIFORM) ==>
      data.HostBytes? && b.vf32.Some? && offset / 4 + |data.host.floats| <= |b.vf32.value|
    requires !HasBit(b.info.usage, USAGE_UNIFORM) && HasBit(b.info.usage, USAGE_INDIRECT) ==>
      data.IndirectData? && b.indirects.Valid()
    requires !HasBit(b.info.usage, USAGE_UNIFORM) && !HasBit(b.info.usage, USAGE_INDIRECT) ==> data.HostBytes?
    modifies dev, b
    ensures b.info == old(b.info) && b.glTarget == old(b.glTarget) && b.glBuffer == old(b.glBuffer)
    ensures HasBit(b.info.usage, USAGE_UNIFORM) ==>
      && b.vf32 == Some(Overwrite(old(b.vf32).value, offset / 4, data.host.floats))
      && b.indirects == old(b.indirects)
      && dev.cache == old(dev.cache) && dev.gfx == old(dev.gfx)
      && dev.trace == old(dev.trace) && dev.log == old(dev.log)
    ensures !HasBit(b.info.usage, USAGE_UNIFORM) && HasBit(b.info.usage, USAGE_INDIRECT) ==>
      && b.indirects == SetDrawInfos(ClearDraws(old(b.indirects)), offset, data.drawInfos)
      && b.vf32 == old(b.vf32)
      && dev.cache == old(dev.cache) && dev.gfx == old(dev.gfx)
      && dev.trace == old(dev.trace) && dev.log == old(dev.log)
    ensures !HasBit(b.info.usage, USAGE_UNIFORM) && !HasBit(b.info.usage, USAGE_INDIRECT) ==>
      && b.vf32 == old(b.vf32) && b.indirects == old(b.indirects)
      && if b.glTarget == ARRAY_BUFFER || b.glTarget == ELEMENT_ARRAY_BUFFER then
           && dev.cache == WithBufferBinding(old(dev.cache), b.glTarget, b.glBuffer)
                             .(glVAO := VAOAfterRelease(dev.ext.useVAO, old(dev.cache.glVAO)))
           && dev.gfx == old(dev.gfx).(gpuInputAssembler := null)
           && dev.log == old(dev.log)
           && dev.trace == old(dev.trace) + VAOReleaseCalls(dev.ext.useVAO, old(dev.cache.glVAO))
                + (if BoundBuffer(old(dev.cache), b.glTarget) != b.glBuffer
                   then [BindBuffer(b.glTarget, b.glBuffer)] else [])
                + [BufferSubData(b.glTarget, offset, UploadedBytes(data.host.bytes, size))]
         else
           && dev.cache == old(dev.cache) && dev.gfx == old(dev.gfx) && dev.trace == old(dev.trace)
           && dev.log == old(dev.log) + [16316]
    ensures dev.staging == old(dev.staging) && dev.realRenderArea == old(dev.realRenderArea)
  {
    if HasBit(b.info.usage, USAGE_UNIFORM) {
      UpdateUniformBuffer(b, data.host.floats, offset);
    } else if HasBit(b.info.usage, USAGE_INDIRECT) {
      UpdateIndirectBuffer(b, data.drawInfos, offset);
    } else {
      UpdateNativeBuffer(dev, b, data.host.bytes, offset, size);
    }
  }
}

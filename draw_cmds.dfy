/**
 * WebGLCmdFuncDraw: the draw the bound input assembler calls for. An indirect buffer's recorded
 * draws go out as one multi-draw call when WEBGL_multi_draw is there and as one call per draw
 * otherwise; a plain draw is indexed when there is an index buffer and instanced when it asks
 * for instances and ANGLE_instanced_arrays is there.
 */
module DrawCommands {
  import opened Wrappers
  import opened GL
  import opened JsInt
  import opened Objects

  // ---------------------------------------------------------------- what a draw call draws

  /**
   * One draw as the context performs it: `first` is the first vertex of a non-indexed draw and
   * the byte offset into the index buffer of an indexed one; `glType` is NONE when not indexed.
   */
  datatype Draw1 = Draw1(indexed: bool, mode: GLenum, first: int, count: int, glType: GLenum, instances: int)

  /** Entry `j` of a parameter array the context reads; past the end it reads nothing (0). */
  function Entry(s: seq<int>, j: int): int {
    if 0 <= j < |s| then s[j] else 0
  }

  /** The draws one call performs: a multi-draw performs `drawCount` of them, in order. */
  function Effective(c: GLCall): seq<Draw1> {
    match c
    case DrawArrays(m, f, n) => [Draw1(false, m, f, n, NONE, 1)]
    case DrawArraysInstanced(m, f, n, k) => [Draw1(false, m, f, n, NONE, k)]
    case DrawElements(m, n, t, o) => [Draw1(true, m, o, n, t, 1)]
    case DrawElementsInstanced(m, n, t, o, k) => [Draw1(true, m, o, n, t, k)]
    case MultiDrawArrays(m, fs, ns, dc) => seq(dc, j => Draw1(false, m, Entry(fs, j), Entry(ns, j), NONE, 1))
    case MultiDrawArraysInstanced(m, fs, ns, ks, dc) =>
      seq(dc, j => Draw1(false, m, Entry(fs, j), Entry(ns, j), NONE, Entry(ks, j)))
    case MultiDrawElements(m, ns, t, os, dc) => seq(dc, j => Draw1(true, m, Entry(os, j), Entry(ns, j), t, 1))
    case MultiDrawElementsInstanced(m, ns, t, os, ks, dc) =>
      seq(dc, j => Draw1(true, m, Entry(os, j), Entry(ns, j), t, Entry(ks, j)))
    case _ => []
  }

  /** The draws a trace performs, in order. */
  function EffectiveAll(calls: seq<GLCall>): seq<Draw1>
    decreases |calls|
  {
    if |calls| == 0 then [] else Effective(calls[0]) + EffectiveAll(calls[1..])
  }

  // ---------------------------------------------------------------- indirect draws

  /**
   * The byte offsets of the recorded indexed draws: element offset times the index stride,
   * stored into an Int32Array; slots past the draw count keep what they held.
   */
  function ByteOffsets(ind: IndirectDraws, stride: int): (r: seq<int>)
    requires ind.Valid()
    ensures |r| == |ind.byteOffsets|
    ensures forall j :: 0 <= j < |r| ==> r[j] == if j < ind.drawCount then ToInt32(ind.offsets[j] * stride) else ind.byteOffsets[j]
  {
    seq(|ind.byteOffsets|, j requires 0 <= j < |ind.byteOffsets| =>
      if j < ind.drawCount then ToInt32(ind.offsets[j] * stride) else ind.byteOffsets[j])
  }

  /** The loop that fills the byte offsets, in place on the list. */
  method ComputeByteOffsets(ind: IndirectDraws, stride: int) returns (r: seq<int>)
    requires ind.Valid()
    ensures r == ByteOffsets(ind, stride)
  {
    r := ind.byteOffsets;
    var j := 0;
    while j < ind.drawCount
      invariant j <= ind.drawCount && |r| == |ind.byteOffsets|
      invariant forall k :: 0 <= k < |r| ==> r[k] == if k < j then ToInt32(ind.offsets[k] * stride) else ind.byteOffsets[k]
    {
      r := r[j := ToInt32(ind.offsets[j] * stride)];
      j := j + 1;
    }
  }

  /** The instance count draw `j` of the per-draw fallback uses: its own when non-zero and available. */
  function PerDrawInstances(ind: IndirectDraws, j: nat, hasIA: bool): int
    requires ind.Valid() && j < ind.drawCount
  {
    if ind.instances[j] != 0 && hasIA then ind.instances[j] else 1
  }

  /** Draw `j` of the per-draw fallback. */
  function PerDrawCall(ind: IndirectDraws, j: nat, mode: GLenum, indexType: GLenum, hasIA: bool): GLCall
    requires ind.Valid() && j < ind.drawCount
  {
    var instanced := ind.instances[j] != 0 && hasIA;
    if ind.drawByIndex then
      if instanced then DrawElementsInstanced(mode, ind.counts[j], indexType, ind.byteOffsets[j], ind.instances[j])
      else DrawElements(mode, ind.counts[j], indexType, ind.byteOffsets[j])
    else
      if instanced then DrawArraysInstanced(mode, ind.offsets[j], ind.counts[j], ind.instances[j])
      else DrawArrays(mode, ind.offsets[j], ind.counts[j])
  }

  /** Draws `j`, `j + 1`, ... of the per-draw fallback. */
  function PerDraws(ind: IndirectDraws, j: nat, mode: GLenum, indexType: GLenum, hasIA: bool): seq<GLCall>
    requires ind.Valid()
    decreases ind.drawCount - j
  {
    if j >= ind.drawCount then [] else [PerDrawCall(ind, j, mode, indexType, hasIA)] + PerDraws(ind, j + 1, mode, indexType, hasIA)
  }

  /** The one multi-draw call for the recorded draws. */
  function MultiDrawCall(ind: IndirectDraws, mode: GLenum, indexType: GLenum): GLCall {
    if ind.drawByIndex then
      if ind.instancedDraw then MultiDrawElementsInstanced(mode, ind.counts, indexType, ind.byteOffsets, ind.instances, ind.drawCount)
      else MultiDrawElements(mode, ind.counts, indexType, ind.byteOffsets, ind.drawCount)
    else
      if ind.instancedDraw then MultiDrawArraysInstanced(mode, ind.offsets, ind.counts, ind.instances, ind.drawCount)
      else MultiDrawArrays(mode, ind.offsets, ind.counts, ind.drawCount)
  }

  /** Draw `j` as the recorded draws describe it, with a given instance count. */
  function Recorded(ind: IndirectDraws, j: nat, mode: GLenum, indexType: GLenum, instances: int): Draw1
    requires ind.Valid() && j < ind.drawCount
  {
    if ind.drawByIndex then Draw1(true, mode, ind.byteOffsets[j], ind.counts[j], indexType, instances)
    else Draw1(false, mode, ind.offsets[j], ind.counts[j], NONE, instances)
  }

  /** The multi-draw call performs every recorded draw, with its own instance count when instanced. */
  lemma MultiDrawEffect(ind: IndirectDraws, mode: GLenum, indexType: GLenum)
    requires ind.Valid()
    ensures var e := Effective(MultiDrawCall(ind, mode, indexType));
      && |e| == ind.drawCount
      && forall j :: 0 <= j < ind.drawCount ==>
           e[j] == Recorded(ind, j, mode, indexType, if ind.instancedDraw then ind.instances[j] else 1)
  {
  }

  /** Draw `j` of the fallback performs recorded draw `j` with its per-draw instance count. */
  lemma PerDrawCallEffect(ind: IndirectDraws, j: nat, mode: GLenum, indexType: GLenum, hasIA: bool)
    requires ind.Valid() && j < ind.drawCount
    ensures Effective(PerDrawCall(ind, j, mode, indexType, hasIA)) == [Recorded(ind, j, mode, indexType, PerDrawInstances(ind, j, hasIA))]
  {
  }

  /** The fallback performs every recorded draw from `j` on, with its per-draw instance count. */
  lemma {:induction false} PerDrawsEffect(ind: IndirectDraws, j: nat, mode: GLenum, indexType: GLenum, hasIA: bool)
    requires ind.Valid() && j <= ind.drawCount
    ensures var e := EffectiveAll(PerDraws(ind, j, mode, indexType, hasIA));
      && |e| == ind.drawCount - j
      && forall k :: j <= k < ind.drawCount ==> e[k - j] == Recorded(ind, k, mode, indexType, PerDrawInstances(ind, k, hasIA))
    decreases ind.drawCount - j
  {
    if j < ind.drawCount {
      var calls := PerDraws(ind, j, mode, indexType, hasIA);
      var rest := PerDraws(ind, j + 1, mode, indexType, hasIA);
      var head := Recorded(ind, j, mode, indexType, PerDrawInstances(ind, j, hasIA));
      assert calls == [PerDrawCall(ind, j, mode, indexType, hasIA)] + rest;
      assert calls[1..] == rest;
      PerDrawCallEffect(ind, j, mode, indexType, hasIA);
      PerDrawsEffect(ind, j + 1, mode, indexType, hasIA);
      var e := EffectiveAll(calls);
      var er := EffectiveAll(rest);
      assert e == [head] + er;
      forall k | j < k < ind.drawCount
        ensures e[k - j] == Recorded(ind, k, mode, indexType, PerDrawInstances(ind, k, hasIA))
      {
        assert e[k - j] == er[k - (j + 1)];
      }
    } else {
      assert PerDraws(ind, j, mode, indexType, hasIA) == [];
    }
  }

  /**
   * The fallback loop performs the same draws as the multi-draw call exactly when every draw's
   * instance count agrees: the count of a non-zero entry when instancing is available for the
   * loop, otherwise 1, against the entry itself when the list is instanced, otherwise 1.
   */
  lemma MultiDrawMatchesLoop(ind: IndirectDraws, mode: GLenum, indexType: GLenum, hasIA: bool)
    requires ind.Valid()
    ensures EffectiveAll(PerDraws(ind, 0, mode, indexType, hasIA)) == EffectiveAll([MultiDrawCall(ind, mode, indexType)])
      <==> forall j :: 0 <= j < ind.drawCount ==>
             PerDrawInstances(ind, j, hasIA) == if ind.instancedDraw then ind.instances[j] else 1
  {
    if forall j :: 0 <= j < ind.drawCount ==> PerDrawInstances(ind, j, hasIA) == if ind.instancedDraw then ind.instances[j] else 1 {
      LoopMatchesWhenCountsAgree(ind, mode, indexType, hasIA);
    }
    if EffectiveAll(PerDraws(ind, 0, mode, indexType, hasIA)) == EffectiveAll([MultiDrawCall(ind, mode, indexType)]) {
      CountsAgreeWhenLoopMatches(ind, mode, indexType, hasIA);
    }
  }

  /** The effect of the single multi-draw call is the effect the call itself records. */
  lemma SingleCallEffect(ind: IndirectDraws, mode: GLenum, indexType: GLenum)
    requires ind.Valid()
    ensures EffectiveAll([MultiDrawCall(ind, mode, indexType)]) == Effective(MultiDrawCall(ind, mode, indexType))
  {
    var m := [MultiDrawCall(ind, mode, indexType)];
    assert m[1..] == [] && EffectiveAll(m[1..]) == [];
    assert EffectiveAll(m) == Effective(m[0]) + EffectiveAll(m[1..]);
  }

  lemma LoopMatchesWhenCountsAgree(ind: IndirectDraws, mode: GLenum, indexType: GLenum, hasIA: bool)
    requires ind.Valid()
    requires forall j :: 0 <= j < ind.drawCount ==>
               PerDrawInstances(ind, j, hasIA) == if ind.instancedDraw then ind.instances[j] else 1
    ensures EffectiveAll(PerDraws(ind, 0, mode, indexType, hasIA)) == EffectiveAll([MultiDrawCall(ind, mode, indexType)])
  {
    var a := EffectiveAll(PerDraws(ind, 0, mode, indexType, hasIA));
    var b := EffectiveAll([MultiDrawCall(ind, mode, indexType)]);
    PerDrawsEffect(ind, 0, mode, indexType, hasIA);
    MultiDrawEffect(ind, mode, indexType);
    SingleCallEffect(ind, mode, indexType);
    assert |a| == |b|;
    forall j | 0 <= j < |a|
      ensures a[j] == b[j]
    {
      assert PerDrawInstances(ind, j, hasIA) == if ind.instancedDraw then ind.instances[j] else 1;
      assert a[j] == Recorded(ind, j, mode, indexType, PerDrawInstances(ind, j, hasIA));
    }
  }

  lemma CountsAgreeWhenLoopMatches(ind: IndirectDraws, mode: GLenum, indexType: GLenum, hasIA: bool)
    requires ind.Valid()
    requires EffectiveAll(PerDraws(ind, 0, mode, indexType, hasIA)) == EffectiveAll([MultiDrawCall(ind, mode, indexType)])
    ensures forall j :: 0 <= j < ind.drawCount ==>
              PerDrawInstances(ind, j, hasIA) == if ind.instancedDraw then ind.instances[j] else 1
  {
    var a := EffectiveAll(PerDraws(ind, 0, mode, indexType, hasIA));
    var b := EffectiveAll([MultiDrawCall(ind, mode, indexType)]);
    PerDrawsEffect(ind, 0, mode, indexType, hasIA);
    MultiDrawEffect(ind, mode, indexType);
    SingleCallEffect(ind, mode, indexType);
    forall j | 0 <= j < ind.drawCount
      ensures PerDrawInstances(ind, j, hasIA) == if ind.instancedDraw then ind.instances[j] else 1
    {
      var loopCount := PerDrawInstances(ind, j, hasIA);
      var multiCount := if ind.instancedDraw then ind.instances[j] else 1;
      assert a[j] == Recorded(ind, j, mode, indexType, loopCount);
      assert b[j] == Recorded(ind, j, mode, indexType, multiCount);
      assert Recorded(ind, j, mode, indexType, loopCount).instances == loopCount;
      assert Recorded(ind, j, mode, indexType, multiCount).instances == multiCount;
    }
  }

  /** A concrete list on which the two paths differ: one instanced entry of count 0. */
  lemma ZeroInstancesDiffer()
    ensures var ind := IndirectDraws([3], [0], [0], [0], 1, false, true);
      EffectiveAll(PerDraws(ind, 0, 4, NONE, true)) != EffectiveAll([MultiDrawCall(ind, 4, NONE)])
  {
    var ind := IndirectDraws([3], [0], [0], [0], 1, false, true);
    MultiDrawMatchesLoop(ind, 4, NONE, true);
    assert PerDrawInstances(ind, 0, true) == 1;
  }

  /** The loop of the fallback. */
  method IssuePerDraws(ind: IndirectDraws, mode: GLenum, indexType: GLenum, hasIA: bool) returns (calls: seq<GLCall>)
    requires ind.Valid()
    ensures calls == PerDraws(ind, 0, mode, indexType, hasIA)
  {
    calls := [];
    var j := 0;
    while j < ind.drawCount
      invariant j <= ind.drawCount
      invariant calls + PerDraws(ind, j, mode, indexType, hasIA) == PerDraws(ind, 0, mode, indexType, hasIA)
    {
      var c := PerDrawCall(ind, j, mode, indexType, hasIA);
      assert PerDraws(ind, j, mode, indexType, hasIA) == [c] + PerDraws(ind, j + 1, mode, indexType, hasIA);
      assert calls + ([c] + PerDraws(ind, j + 1, mode, indexType, hasIA)) == (calls + [c]) + PerDraws(ind, j + 1, mode, indexType, hasIA);
      calls := calls + [c];
      j := j + 1;
    }
  }

  /** An indirect draw: the updated list (byte offsets filled for indexed draws) and the calls. */
  function IndirectDraw(ind: IndirectDraws, stride: int, mode: GLenum, indexType: GLenum, hasIA: bool, hasMD: bool)
    : (IndirectDraws, seq<GLCall>)
    requires ind.Valid()
  {
    var ind2 := if ind.drawByIndex then ind.(byteOffsets := ByteOffsets(ind, stride)) else ind;
    (ind2, if hasMD then [MultiDrawCall(ind2, mode, indexType)] else PerDraws(ind2, 0, mode, indexType, hasIA))
  }

  // ---------------------------------------------------------------- direct draws

  /** A draw from a DrawInfo, with `indexStride` the index buffer's stride when there is one. */
  function DirectDraw(info: DrawInfo, indexStride: Option<nat>, mode: GLenum, indexType: GLenum, hasIA: bool): seq<GLCall> {
    if info.instanceCount != 0 && hasIA then
      if indexStride.Some? then
        if info.indexCount > 0 then
          [DrawElementsInstanced(mode, info.indexCount, indexType, info.firstIndex * indexStride.value, info.instanceCount)]
        else []
      else if info.vertexCount > 0 then [DrawArraysInstanced(mode, info.firstVertex, info.vertexCount, info.instanceCount)]
      else []
    else if indexStride.Some? then
      if info.indexCount > 0 then [DrawElements(mode, info.indexCount, indexType, info.firstIndex * indexStride.value)]
      else []
    else if info.vertexCount > 0 then [DrawArrays(mode, info.firstVertex, info.vertexCount)]
    else []
  }

  /**
   * A direct draw performs at most one draw: indexed exactly when there is an index buffer, its
   * elements starting at byte `firstIndex * stride`, nothing when the count it uses is not
   * positive, and with the requested instances only when they are non-zero and available.
   */
  lemma DirectDrawEffect(info: DrawInfo, indexStride: Option<nat>, mode: GLenum, indexType: GLenum, hasIA: bool)
    ensures var e := EffectiveAll(DirectDraw(info, indexStride, mode, indexType, hasIA));
      var count := if indexStride.Some? then info.indexCount else info.vertexCount;
      var instances := if info.instanceCount != 0 && hasIA then info.instanceCount else 1;
      && (count <= 0 ==> e == [])
      && (count > 0 && indexStride.Some? ==>
            e == [Draw1(true, mode, info.firstIndex * indexStride.value, count, indexType, instances)])
      && (count > 0 && indexStride.None? ==> e == [Draw1(false, mode, info.firstVertex, count, NONE, instances)])
  {
    var calls := DirectDraw(info, indexStride, mode, indexType, hasIA);
    if |calls| == 1 {
      assert EffectiveAll(calls) == Effective(calls[0]) + EffectiveAll(calls[1..]);
    }
  }

  // ---------------------------------------------------------------- on the device

  /** The indirect buffer of the bound input assembler, the object the draw may update. */
  function IndirectBufferOf(dev: WebGLDevice): set<object>
    reads dev
  {
    if dev.gfx.gpuInputAssembler != null && dev.gfx.gpuInputAssembler.gpuIndirectBuffer != null
    then {dev.gfx.gpuInputAssembler.gpuIndirectBuffer} else {}
  }

  /** The stride of an assembler's index buffer, when it has one. */
  function IndexStride(ia: GPUInputAssembler): Option<nat>
    reads ia, ia.gpuIndexBuffer
  {
    if ia.gpuIndexBuffer == null then None else Some(ia.gpuIndexBuffer.info.stride)
  }

  /**
   * WebGLCmdFuncDraw. Without a bound input assembler nothing happens; an indexed indirect list
   * needs the assembler's index buffer for its stride.
   */
  method Draw(dev: WebGLDevice, info: DrawInfo)
    requires var ia := dev.gfx.gpuInputAssembler;
      ia != null && ia.gpuIndirectBuffer != null ==>
        ia.gpuIndirectBuffer.indirects.Valid() && (ia.gpuIndirectBuffer.indirects.drawByIndex ==> ia.gpuIndexBuffer != null)
    modifies dev, IndirectBufferOf(dev)
    ensures dev.cache == old(dev.cache) && dev.gfx == old(dev.gfx) && dev.log == old(dev.log)
    ensures dev.realRenderArea == old(dev.realRenderArea) && dev.staging == old(dev.staging)
    ensures var ia := dev.gfx.gpuInputAssembler;
      && (ia == null ==> dev.trace == old(dev.trace))
      && (ia != null && ia.gpuIndirectBuffer == null ==>
            dev.trace == old(dev.trace) + DirectDraw(info, IndexStride(ia), dev.gfx.glPrimitive, ia.glIndexType, dev.ext.instancedArrays))
      && (ia != null && ia.gpuIndirectBuffer != null ==>
            var r := IndirectDraw(old(ia.gpuIndirectBuffer.indirects),
                                  if ia.gpuIndexBuffer != null then ia.gpuIndexBuffer.info.stride else 0,
                                  dev.gfx.glPrimitive, ia.glIndexType, dev.ext.instancedArrays, dev.ext.multiDraw);
            && ia.gpuIndirectBuffer.indirects == r.0 && dev.trace == old(dev.trace) + r.1
            && ia.gpuIndirectBuffer.info == old(ia.gpuIndirectBuffer.info)
            && ia.gpuIndirectBuffer.glBuffer == old(ia.gpuIndirectBuffer.glBuffer))
  {
    var ia := dev.gfx.gpuInputAssembler;
    if ia == null {
      return;
    }
    var mode := dev.gfx.glPrimitive;
    if ia.gpuIndirectBuffer != null {
      var buffer := ia.gpuIndirectBuffer;
      var ind := buffer.indirects;
      if ind.drawByIndex {
        var offs := ComputeByteOffsets(ind, ia.gpuIndexBuffer.info.stride);
        ind := ind.(byteOffsets := offs);
        buffer.indirects := ind;
      }
      var calls;
      if dev.ext.multiDraw {
        calls := [MultiDrawCall(ind, mode, ia.glIndexType)];
      } else {
        calls := IssuePerDraws(ind, mode, ia.glIndexType, dev.ext.instancedArrays);
      }
      dev.trace := dev.trace + calls;
    } else {
      dev.trace := dev.trace + DirectDraw(info, IndexStride(ia), mode, ia.glIndexType, dev.ext.instancedArrays);
    }
  }
}

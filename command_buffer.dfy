/**
 * WebGL2CommandBuffer: a recorder that keeps the currently bound pipeline, descriptor sets,
 * input assembler, dynamic offsets and dynamic states, and marks its state invalid whenever one
 * of them changes. Its bindStates is a stub that only reports an error and clears the mark.
 */
module WebGL2Commands {
  import opened Wrappers
  import opened Objects

  /** A WebGL2 pipeline object: `id` stands for its identity; its layout's offsets per set. */
  datatype Pipeline2 = Pipeline2(id: nat, gpuPipelineLayout: Option<PipelineLayout2>)
  datatype PipelineLayout2 = PipelineLayout2(dynamicOffsetOffsets: seq<int>)

  /** The error the stubbed operations report. */
  const ERROR_NOT_SUPPORTED: nat := 16401

  /** One call of a dynamic-state setter, with its arguments. */
  datatype DynamicSet =
    | SetViewport(viewport: Viewport)
    | SetScissor(scissor: Rect)
    | SetLineWidth(lineWidth: real)
    | SetDepthBias(constant: real, clamp: real, slope: real)
    | SetBlendConstants(color: Color)
    | SetDepthBound(minBounds: real, maxBounds: real)
    | SetStencilWriteMask(face: nat, writeMask: int)
    | SetStencilCompareMask(face: nat, reference: int, compareMask: int)

  predicate SelectsFront(face: nat) {
    HasBit(face, STENCIL_FACE_FRONT)
  }

  predicate SelectsBack(face: nat) {
    HasBit(face, STENCIL_FACE_BACK)
  }

  /**
   * What a setter does to the recorded dynamic states, in the source's comparison order: the new
   * states, and whether any compared field differed (which is when the setter invalidates).
   */
  function Record(ds: DynamicStates, cmd: DynamicSet): (DynamicStates, bool) {
    match cmd
    case SetViewport(v) =>
      var c := ds.viewport;
      var changed := c.left != v.left || c.top != v.top || c.width != v.width || c.height != v.height
                     || c.minDepth != v.minDepth || c.maxDepth != v.maxDepth;
      (if changed then ds.(viewport := v) else ds, changed)
    case SetScissor(r) =>
      var c := ds.scissor;
      var changed := c.x != r.x || c.y != r.y || c.width != r.width || c.height != r.height;
      (if changed then ds.(scissor := r) else ds, changed)
    case SetLineWidth(w) =>
      var changed := ds.lineWidth != w;
      (if changed then ds.(lineWidth := w) else ds, changed)
    case SetDepthBias(k, clamp, slope) =>
      var changed := ds.depthBiasConstant != k || ds.depthBiasClamp != clamp || ds.depthBiasSlope != slope;
      (if changed then ds.(depthBiasConstant := k, depthBiasClamp := clamp, depthBiasSlope := slope) else ds, changed)
    case SetBlendConstants(k) =>
      var c := ds.blendConstant;
      var changed := c.x != k.x || c.y != k.y || c.z != k.z || c.w != k.w;
      (if changed then ds.(blendConstant := k) else ds, changed)
    case SetDepthBound(lo, hi) =>
      var changed := ds.depthMinBounds != lo || ds.depthMaxBounds != hi;
      (if changed then ds.(depthMinBounds := lo, depthMaxBounds := hi) else ds, changed)
    case SetStencilWriteMask(face, m) =>
      var front, back := ds.stencilStatesFront, ds.stencilStatesBack;
      var cf := SelectsFront(face) && front.writeMask != m;
      var cb := SelectsBack(face) && back.writeMask != m;
      (ds.(stencilStatesFront := if cf then front.(writeMask := m) else front,
           stencilStatesBack := if cb then back.(writeMask := m) else back), cf || cb)
    case SetStencilCompareMask(face, ref, m) =>
      var front, back := ds.stencilStatesFront, ds.stencilStatesBack;
      var cf := SelectsFront(face) && (front.compareMask != m || front.reference != ref);
      var cb := SelectsBack(face) && (back.compareMask != m || back.reference != ref);
      (ds.(stencilStatesFront := if cf then front.(reference := ref, compareMask := m) else front,
           stencilStatesBack := if cb then back.(reference := ref, compareMask := m) else back), cf || cb)
  }

  /**
   * The reference definition of a setter: its arguments written into the fields it owns (for
   * the stencil setters, only into the faces `face` selects), whatever they held before.
   */
  function Overwrite(ds: DynamicStates, cmd: DynamicSet): DynamicStates {
    match cmd
    case SetViewport(v) => ds.(viewport := v)
    case SetScissor(r) => ds.(scissor := r)
    case SetLineWidth(w) => ds.(lineWidth := w)
    case SetDepthBias(k, clamp, slope) => ds.(depthBiasConstant := k, depthBiasClamp := clamp, depthBiasSlope := slope)
    case SetBlendConstants(k) => ds.(blendConstant := k)
    case SetDepthBound(lo, hi) => ds.(depthMinBounds := lo, depthMaxBounds := hi)
    case SetStencilWriteMask(face, m) =>
      ds.(stencilStatesFront := if SelectsFront(face) then ds.stencilStatesFront.(writeMask := m) else ds.stencilStatesFront,
          stencilStatesBack := if SelectsBack(face) then ds.stencilStatesBack.(writeMask := m) else ds.stencilStatesBack)
    case SetStencilCompareMask(face, ref, m) =>
      ds.(stencilStatesFront := if SelectsFront(face) then ds.stencilStatesFront.(reference := ref, compareMask := m)
                                else ds.stencilStatesFront,
          stencilStatesBack := if SelectsBack(face) then ds.stencilStatesBack.(reference := ref, compareMask := m)
                               else ds.stencilStatesBack)
  }

  /**
   * Every setter leaves the recorded states holding its arguments and nothing else changed, and
   * invalidates exactly when that is a change.
   */
  lemma RecordStores(ds: DynamicStates, cmd: DynamicSet)
    ensures Record(ds, cmd).0 == Overwrite(ds, cmd)
    ensures Record(ds, cmd).1 <==> Overwrite(ds, cmd) != ds
  {
    match cmd
    case SetViewport(v) =>
      assert ds.(viewport := v) == ds <==> ds.viewport == v;
    case SetScissor(r) =>
      assert ds.(scissor := r) == ds <==> ds.scissor == r;
    case SetBlendConstants(k) =>
      assert ds.(blendConstant := k) == ds <==> ds.blendConstant == k;
    case SetStencilWriteMask(face, m) =>
      var o := Overwrite(ds, cmd);
      assert o == ds <==> o.stencilStatesFront == ds.stencilStatesFront && o.stencilStatesBack == ds.stencilStatesBack;
    case SetStencilCompareMask(face, ref, m) =>
      var o := Overwrite(ds, cmd);
      assert o == ds <==> o.stencilStatesFront == ds.stencilStatesFront && o.stencilStatesBack == ds.stencilStatesBack;
    case _ =>
  }

  /** A setter called again with the same arguments changes nothing and does not invalidate. */
  lemma RecordRepeat(ds: DynamicStates, cmd: DynamicSet)
    ensures Record(Record(ds, cmd).0, cmd) == (Record(ds, cmd).0, false)
  {
    RecordStores(ds, cmd);
    RecordStores(Record(ds, cmd).0, cmd);
    match cmd
    case SetStencilWriteMask(face, m) =>
    case SetStencilCompareMask(face, ref, m) =>
    case _ =>
  }

  /** The stencil setters leave a face `face` does not select exactly as it was. */
  lemma StencilFacesUntouched(ds: DynamicStates, cmd: DynamicSet)
    requires cmd.SetStencilWriteMask? || cmd.SetStencilCompareMask?
    ensures !SelectsFront(cmd.face) ==> Record(ds, cmd).0.stencilStatesFront == ds.stencilStatesFront
    ensures !SelectsBack(cmd.face) ==> Record(ds, cmd).0.stencilStatesBack == ds.stencilStatesBack
    ensures Record(ds, cmd).0 == ds.(stencilStatesFront := Record(ds, cmd).0.stencilStatesFront,
                                     stencilStatesBack := Record(ds, cmd).0.stencilStatesBack)
  {
  }

  /** `a` with the window starting at `idx` overwritten by `d`. */
  function Splice(a: seq<int>, idx: nat, d: seq<int>): (r: seq<int>)
    requires idx + |d| <= |a|
  {
    a[..idx] + d + a[idx + |d|..]
  }

  /** A splice keeps the length, puts `d[k - idx]` at every `k` of the window and keeps the rest. */
  lemma SpliceAt(a: seq<int>, idx: nat, d: seq<int>)
    requires idx + |d| <= |a|
    ensures |Splice(a, idx, d)| == |a|
    ensures forall k :: 0 <= k < |a| ==> Splice(a, idx, d)[k] == if idx <= k < idx + |d| then d[k - idx] else a[k]
  {
  }

  lemma SpliceExtend(a: seq<int>, idx: nat, d: seq<int>, i: nat)
    requires i < |d| && idx + |d| <= |a|
    ensures Splice(a, idx, d[..i])[idx + i := d[i]] == Splice(a, idx, d[..i + 1])
  {
    SpliceAt(a, idx, d[..i]);
    SpliceAt(a, idx, d[..i + 1]);
  }

  class CommandBuffer2 {
    var isInRenderPass: bool
    var curPipeline: Option<Pipeline2>
    var curDescriptorSets: seq<Option<nat>>
    var curInputAssembler: Option<nat>
    const curDynamicOffsets: array<int>
    var curDynamicStates: DynamicStates
    var isStateInvalid: bool
    var numDrawCalls: nat
    var numInstances: nat
    var numTris: nat
    /** The error identifiers it has reported. */
    var log: seq<nat>

    predicate Valid()
      reads this
    {
      curDynamicOffsets.Length == 8
    }

    /**
     * A new command buffer after `initialize`: nothing bound, one null descriptor-set slot per
     * set of the binding mappings, eight zero dynamic offsets and the default dynamic states.
     */
    constructor (setCount: nat, defaults: DynamicStates)
      ensures Valid() && fresh(curDynamicOffsets)
      ensures curDynamicOffsets[..] == seq(8, _ => 0)
      ensures !isInRenderPass && !isStateInvalid && curPipeline == None && curInputAssembler == None
      ensures curDescriptorSets == seq(setCount, _ => None) && curDynamicStates == defaults
      ensures numDrawCalls == 0 && numInstances == 0 && numTris == 0 && log == []
    {
      isInRenderPass := false;
      curPipeline := None;
      curInputAssembler := None;
      curDynamicOffsets := new int[8](_ => 0);
      curDynamicStates := defaults;
      isStateInvalid := false;
      numDrawCalls, numInstances, numTris := 0, 0, 0;
      log := [];
      curDescriptorSets := seq(setCount, _ => None);
    }

    /** Starting to record clears the bound pipeline, input assembler and sets and the counters. */
    method Begin()
      modifies this
      ensures curPipeline == None && curInputAssembler == None && curDescriptorSets == []
      ensures numDrawCalls == 0 && numInstances == 0 && numTris == 0
      ensures isInRenderPass == old(isInRenderPass) && isStateInvalid == old(isStateInvalid)
      ensures curDynamicStates == old(curDynamicStates) && log == old(log)
    {
      curPipeline := None;
      curInputAssembler := None;
      curDescriptorSets := [];
      numDrawCalls := 0;
      numInstances := 0;
      numTris := 0;
    }

    /** Applying the recorded state is not supported here: it reports so and clears the mark. */
    method BindStates()
      modifies this
      ensures !isStateInvalid && log == old(log) + [ERROR_NOT_SUPPORTED]
      ensures isInRenderPass == old(isInRenderPass) && curPipeline == old(curPipeline)
      ensures curDescriptorSets == old(curDescriptorSets) && curInputAssembler == old(curInputAssembler)
      ensures curDynamicStates == old(curDynamicStates)
      ensures numDrawCalls == old(numDrawCalls) && numInstances == old(numInstances) && numTris == old(numTris)
    {
      log := log + [ERROR_NOT_SUPPORTED];
      isStateInvalid := false;
    }

    /** Ending flushes invalid state; afterwards neither flag is set. */
    method End()
      modifies this
      ensures !isStateInvalid && !isInRenderPass
      ensures log == if old(isStateInvalid) then old(log) + [ERROR_NOT_SUPPORTED] else old(log)
      ensures curPipeline == old(curPipeline) && curDescriptorSets == old(curDescriptorSets)
      ensures curInputAssembler == old(curInputAssembler) && curDynamicStates == old(curDynamicStates)
    {
      if isStateInvalid {
        BindStates();
      }
      isInRenderPass := false;
    }

    method BeginRenderPass()
      modifies this
      ensures isInRenderPass && log == old(log) + [ERROR_NOT_SUPPORTED]
      ensures isStateInvalid == old(isStateInvalid) && curPipeline == old(curPipeline)
      ensures curDescriptorSets == old(curDescriptorSets) && curInputAssembler == old(curInputAssembler)
      ensures curDynamicStates == old(curDynamicStates)
    {
      log := log + [ERROR_NOT_SUPPORTED];
      isInRenderPass := true;
    }

    method EndRenderPass()
      modifies this
      ensures !isInRenderPass && log == old(log) && isStateInvalid == old(isStateInvalid)
      ensures curPipeline == old(curPipeline) && curDescriptorSets == old(curDescriptorSets)
      ensures curInputAssembler == old(curInputAssembler) && curDynamicStates == old(curDynamicStates)
    {
      isInRenderPass := false;
    }

    /** Only a pipeline other than the bound one is recorded and invalidates. */
    method BindPipelineState(p: Pipeline2)
      modifies this
      ensures curPipeline == Some(p)
      ensures isStateInvalid == (old(isStateInvalid) || old(curPipeline) != Some(p))
      ensures curDescriptorSets == old(curDescriptorSets) && curInputAssembler == old(curInputAssembler)
      ensures curDynamicStates == old(curDynamicStates) && isInRenderPass == old(isInRenderPass) && log == old(log)
    {
      if curPipeline != Some(p) {
        curPipeline := Some(p);
        isStateInvalid := true;
      }
    }

    /** Binding an input assembler always invalidates, even the one already bound. */
    method BindInputAssembler(ia: nat)
      modifies this
      ensures curInputAssembler == Some(ia) && isStateInvalid
      ensures curPipeline == old(curPipeline) && curDescriptorSets == old(curDescriptorSets)
      ensures curDynamicStates == old(curDynamicStates) && isInRenderPass == old(isInRenderPass) && log == old(log)
    {
      curInputAssembler := Some(ia);
      isStateInvalid := true;
    }

    /**
     * Binding descriptor set `ds` at `setIndex`: a set other than the bound one is recorded (slots
     * past the end of the list are holes) and invalidates; given dynamic offsets are copied to the
     * pipeline layout's window for that set, and invalidate, only when a pipeline with a layout is
     * bound.
     */
    method BindDescriptorSet(setIndex: nat, ds: nat, dynamicOffsets: Option<seq<int>>)
      requires Valid()
      requires dynamicOffsets.Some? && curPipeline.Some? && curPipeline.value.gpuPipelineLayout.Some? ==>
        var offs := curPipeline.value.gpuPipelineLayout.value.dynamicOffsetOffsets;
        setIndex < |offs| && 0 <= offs[setIndex] && offs[setIndex] + |dynamicOffsets.value| <= 8
      modifies this, curDynamicOffsets
      ensures Valid() && curPipeline == old(curPipeline)
      ensures curDescriptorSets == Store(old(curDescriptorSets), setIndex, ds)
      ensures var writes := dynamicOffsets.Some? && curPipeline.Some? && curPipeline.value.gpuPipelineLayout.Some?;
        && (writes ==>
              curDynamicOffsets[..] == Splice(old(curDynamicOffsets[..]),
                                              curPipeline.value.gpuPipelineLayout.value.dynamicOffsetOffsets[setIndex] as nat,
                                              dynamicOffsets.value))
        && (!writes ==> curDynamicOffsets[..] == old(curDynamicOffsets[..]))
        && isStateInvalid == (old(isStateInvalid) || SlotOf(old(curDescriptorSets), setIndex) != Some(ds) || writes)
      ensures curInputAssembler == old(curInputAssembler)
      ensures curDynamicStates == old(curDynamicStates) && isInRenderPass == old(isInRenderPass) && log == old(log)
    {
      if SlotOf(curDescriptorSets, setIndex) != Some(ds) {
        curDescriptorSets := Store(curDescriptorSets, setIndex, ds);
        isStateInvalid := true;
      } else {
        StoreSame(curDescriptorSets, setIndex, ds);
      }
      if dynamicOffsets.Some? && curPipeline.Some? && curPipeline.value.gpuPipelineLayout.Some? {
        var idx := curPipeline.value.gpuPipelineLayout.value.dynamicOffsetOffsets[setIndex];
        CopyOffsets(curDynamicOffsets, idx, dynamicOffsets.value);
        isStateInvalid := true;
      }
    }

    method SetViewport(v: Viewport)
      modifies this
      ensures curDynamicStates == Record(old(curDynamicStates), DynamicSet.SetViewport(v)).0
      ensures isStateInvalid == (old(isStateInvalid) || Record(old(curDynamicStates), DynamicSet.SetViewport(v)).1)
      ensures curPipeline == old(curPipeline) && curDescriptorSets == old(curDescriptorSets)
      ensures curInputAssembler == old(curInputAssembler) && isInRenderPass == old(isInRenderPass) && log == old(log)
    {
      var c := curDynamicStates.viewport;
      if c.left != v.left || c.top != v.top || c.width != v.width || c.height != v.height
         || c.minDepth != v.minDepth || c.maxDepth != v.maxDepth {
        curDynamicStates := curDynamicStates.(viewport := v);
        isStateInvalid := true;
      }
    }

    method SetScissor(r: Rect)
      modifies this
      ensures curDynamicStates == Record(old(curDynamicStates), DynamicSet.SetScissor(r)).0
      ensures isStateInvalid == (old(isStateInvalid) || Record(old(curDynamicStates), DynamicSet.SetScissor(r)).1)
      ensures curPipeline == old(curPipeline) && curDescriptorSets == old(curDescriptorSets)
      ensures curInputAssembler == old(curInputAssembler) && isInRenderPass == old(isInRenderPass) && log == old(log)
    {
      var c := curDynamicStates.scissor;
      if c.x != r.x || c.y != r.y || c.width != r.width || c.height != r.height {
        curDynamicStates := curDynamicStates.(scissor := r);
        isStateInvalid := true;
      }
    }

    method SetLineWidth(w: real)
      modifies this
      ensures curDynamicStates == Record(old(curDynamicStates), DynamicSet.SetLineWidth(w)).0
      ensures isStateInvalid == (old(isStateInvalid) || Record(old(curDynamicStates), DynamicSet.SetLineWidth(w)).1)
      ensures curPipeline == old(curPipeline) && curDescriptorSets == old(curDescriptorSets)
      ensures curInputAssembler == old(curInputAssembler) && isInRenderPass == old(isInRenderPass) && log == old(log)
    {
      if curDynamicStates.lineWidth != w {
        curDynamicStates := curDynamicStates.(lineWidth := w);
        isStateInvalid := true;
      }
    }

    method SetDepthBias(k: real, clamp: real, slope: real)
      modifies this
      ensures curDynamicStates == Record(old(curDynamicStates), DynamicSet.SetDepthBias(k, clamp, slope)).0
      ensures isStateInvalid == (old(isStateInvalid) || Record(old(curDynamicStates), DynamicSet.SetDepthBias(k, clamp, slope)).1)
      ensures curPipeline == old(curPipeline) && curDescriptorSets == old(curDescriptorSets)
      ensures curInputAssembler == old(curInputAssembler) && isInRenderPass == old(isInRenderPass) && log == old(log)
    {
      var c := curDynamicStates;
      if c.depthBiasConstant != k || c.depthBiasClamp != clamp || c.depthBiasSlope != slope {
        curDynamicStates := c.(depthBiasConstant := k, depthBiasClamp := clamp, depthBiasSlope := slope);
        isStateInvalid := true;
      }
    }

    method SetBlendConstants(k: Color)
      modifies this
      ensures curDynamicStates == Record(old(curDynamicStates), DynamicSet.SetBlendConstants(k)).0
      ensures isStateInvalid == (old(isStateInvalid) || Record(old(curDynamicStates), DynamicSet.SetBlendConstants(k)).1)
      ensures curPipeline == old(curPipeline) && curDescriptorSets == old(curDescriptorSets)
      ensures curInputAssembler == old(curInputAssembler) && isInRenderPass == old(isInRenderPass) && log == old(log)
    {
      var c := curDynamicStates.blendConstant;
      if c.x != k.x || c.y != k.y || c.z != k.z || c.w != k.w {
        curDynamicStates := curDynamicStates.(blendConstant := k);
        isStateInvalid := true;
      }
    }

    method SetDepthBound(lo: real, hi: real)
      modifies this
      ensures curDynamicStates == Record(old(curDynamicStates), DynamicSet.SetDepthBound(lo, hi)).0
      ensures isStateInvalid == (old(isStateInvalid) || Record(old(curDynamicStates), DynamicSet.SetDepthBound(lo, hi)).1)
      ensures curPipeline == old(curPipeline) && curDescriptorSets == old(curDescriptorSets)
      ensures curInputAssembler == old(curInputAssembler) && isInRenderPass == old(isInRenderPass) && log == old(log)
    {
      var c := curDynamicStates;
      if c.depthMinBounds != lo || c.depthMaxBounds != hi {
        curDynamicStates := c.(depthMinBounds := lo, depthMaxBounds := hi);
        isStateInvalid := true;
      }
    }

    method SetStencilWriteMask(face: nat, writeMask: int)
      modifies this
      ensures curDynamicStates == Record(old(curDynamicStates), DynamicSet.SetStencilWriteMask(face, writeMask)).0
      ensures isStateInvalid == (old(isStateInvalid) || Record(old(curDynamicStates), DynamicSet.SetStencilWriteMask(face, writeMask)).1)
      ensures curPipeline == old(curPipeline) && curDescriptorSets == old(curDescriptorSets)
      ensures curInputAssembler == old(curInputAssembler) && isInRenderPass == old(isInRenderPass) && log == old(log)
    {
      if SelectsFront(face) && curDynamicStates.stencilStatesFront.writeMask != writeMask {
        curDynamicStates := curDynamicStates.(stencilStatesFront := curDynamicStates.stencilStatesFront.(writeMask := writeMask));
        isStateInvalid := true;
      }
      if SelectsBack(face) && curDynamicStates.stencilStatesBack.writeMask != writeMask {
        curDynamicStates := curDynamicStates.(stencilStatesBack := curDynamicStates.stencilStatesBack.(writeMask := writeMask));
        isStateInvalid := true;
      }
    }

    method SetStencilCompareMask(face: nat, reference: int, compareMask: int)
      modifies this
      ensures curDynamicStates == Record(old(curDynamicStates), DynamicSet.SetStencilCompareMask(face, reference, compareMask)).0
      ensures isStateInvalid == (old(isStateInvalid) || Record(old(curDynamicStates), DynamicSet.SetStencilCompareMask(face, reference, compareMask)).1)
      ensures curPipeline == old(curPipeline) && curDescriptorSets == old(curDescriptorSets)
      ensures curInputAssembler == old(curInputAssembler) && isInRenderPass == old(isInRenderPass) && log == old(log)
    {
      var front := curDynamicStates.stencilStatesFront;
      if SelectsFront(face) && (front.compareMask != compareMask || front.reference != reference) {
        curDynamicStates := curDynamicStates.(stencilStatesFront := front.(reference := reference, compareMask := compareMask));
        isStateInvalid := true;
      }
      var back := curDynamicStates.stencilStatesBack;
      if SelectsBack(face) && (back.compareMask != compareMask || back.reference != reference) {
        curDynamicStates := curDynamicStates.(stencilStatesBack := back.(reference := reference, compareMask := compareMask));
        isStateInvalid := true;
      }
    }
  }

  /** The descriptor set bound at `setIndex`: `None` for a null slot, a hole or past the end. */
  function SlotOf(sets: seq<Option<nat>>, setIndex: nat): Option<nat> {
    if setIndex < |sets| then sets[setIndex] else None
  }

  /** JavaScript's `sets[setIndex] = ds`: past the end the list grows, with holes before the new slot. */
  function Store(sets: seq<Option<nat>>, setIndex: nat, ds: nat): (r: seq<Option<nat>>)
    ensures |r| == if setIndex < |sets| then |sets| else setIndex + 1
    ensures SlotOf(r, setIndex) == Some(ds)
    ensures forall k :: 0 <= k < |r| && k != setIndex ==> r[k] == SlotOf(sets, k)
  {
    if setIndex < |sets| then sets[setIndex := Some(ds)] else sets + seq(setIndex - |sets|, _ => None) + [Some(ds)]
  }

  /** Storing the set a slot already holds leaves the list as it is. */
  lemma StoreSame(sets: seq<Option<nat>>, setIndex: nat, ds: nat)
    requires SlotOf(sets, setIndex) == Some(ds)
    ensures Store(sets, setIndex, ds) == sets
  {
  }

  /** The copy loop of bindDescriptorSet, in place. */
  method CopyOffsets(offsets: array<int>, idx: int, d: seq<int>)
    requires 0 <= idx && idx + |d| <= offsets.Length
    modifies offsets
    ensures offsets[..] == Splice(old(offsets[..]), idx as nat, d)
  {
    var i := 0;
    while i < |d|
      invariant 0 <= i <= |d|
      invariant offsets[..] == Splice(old(offsets[..]), idx as nat, d[..i])
    {
      SpliceExtend(old(offsets[..]), idx as nat, d, i);
      offsets[idx + i] := d[i];
      i := i + 1;
    }
    assert d[..i] == d;
  }
}

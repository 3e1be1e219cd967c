/**
 * How WebGLCmdFuncBindStates finds what a shader binding reads: a descriptor set by set index, a
 * descriptor through the set's binding-to-descriptor table, and the dynamic offset of a uniform
 * buffer through the pipeline layout. Every link of those chains may be `undefined` in the
 * source, and the lookups say what a missing link means.
 */
module DescriptorLookup {
  import opened Wrappers
  import opened JsInt
  import opened Objects

  /** `xs[i]` as JavaScript reads it: `None` is `undefined`, for a negative index too. */
  function At<T>(xs: seq<T>, i: int): (r: Option<T>)
    ensures r.Some? <==> 0 <= i < |xs|
    ensures r.Some? ==> r.value == xs[i]
  {
    if 0 <= i < |xs| then Some(xs[i]) else None
  }

  /** The descriptor set at `setIndex`, when one is bound there. */
  function SetAt(sets: seq<Option<DescriptorSet>>, setIndex: int): Option<DescriptorSet> {
    if 0 <= setIndex < |sets| then sets[setIndex] else None
  }

  /** The descriptor index a binding starts at; `None` when there is no set or no entry. */
  function IndexAt(ds: Option<DescriptorSet>, binding: int): Option<int> {
    if ds.None? then None else At(ds.value.descriptorIndices, binding)
  }

  /** The descriptor `index` names: only a non-negative index inside the set's descriptors. */
  function DescriptorOf(ds: Option<DescriptorSet>, index: Option<int>): (r: Option<Descriptor>)
    ensures r.Some? <==> ds.Some? && index.Some? && 0 <= index.value < |ds.value.gpuDescriptors|
    ensures r.Some? ==> r.value == ds.value.gpuDescriptors[index.value]
  {
    if ds.None? || index.None? then None else At(ds.value.gpuDescriptors, index.value)
  }

  /** The descriptor bound at (setIndex, binding). */
  function DescriptorAt(sets: seq<Option<DescriptorSet>>, setIndex: int, binding: int): Option<Descriptor> {
    var ds := SetAt(sets, setIndex);
    DescriptorOf(ds, IndexAt(ds, binding))
  }

  /** The buffer whose float view a binding reads: the buffer itself, or the one a view is into. */
  function Target(b: BufferBinding): GPUBuffer {
    match b
    case WholeBuffer(buffer) => buffer
    case BufferView(viewOf, _) => viewOf
  }

  /** Every buffer some descriptor of `sets` binds. */
  function SetBuffers(sets: seq<Option<DescriptorSet>>): set<GPUBuffer> {
    set s, i | 0 <= s < |sets| && sets[s].Some? && 0 <= i < |sets[s].value.gpuDescriptors| &&
               sets[s].value.gpuDescriptors[i].gpuBuffer.Some?
      :: Target(sets[s].value.gpuDescriptors[i].gpuBuffer.value)
  }

  lemma BufferOfSets(sets: seq<Option<DescriptorSet>>, setIndex: int, binding: int)
    requires DescriptorAt(sets, setIndex, binding).Some? && DescriptorAt(sets, setIndex, binding).value.gpuBuffer.Some?
    ensures Target(DescriptorAt(sets, setIndex, binding).value.gpuBuffer.value) in SetBuffers(sets)
  {
    var ds := SetAt(sets, setIndex);
    var i := IndexAt(ds, binding).value;
    assert sets[setIndex].Some? && sets[setIndex].value.gpuDescriptors[i] == DescriptorAt(sets, setIndex, binding).value;
  }

  /**
   * The dynamic offset of a binding in bytes. A missing index set, a missing entry or a negative
   * entry means no dynamic offset (0); an entry past the offsets reads `undefined`, `None`.
   */
  function DynamicOffset(layout: PipelineLayout, dynamicOffsets: seq<int>, setIndex: int, binding: int): Option<int> {
    var indices := At(layout.dynamicOffsetIndices, setIndex);
    var k := if indices.None? then None else At(indices.value, binding);
    if k.None? || k.value < 0 then Some(0) else At(dynamicOffsets, k.value)
  }

  /**
   * The offset in floats a uniform block starts at: the dynamic offset plus a view's own byte
   * offset, shifted right by two. `undefined` turns the sum into NaN, which shifts to 0.
   */
  function FloatOffset(dynamic: Option<int>, b: BufferBinding): int {
    match dynamic
    case None => 0
    case Some(bytes) => Shr(bytes + (if b.BufferView? then b.viewOffset else 0), 2)
  }

  /**
   * For byte offsets that fit a signed 32-bit integer the float offset is the byte offset divided
   * by four, and a dynamic offset the offsets array does not have starts the block at float 0.
   */
  lemma FloatOffsetValue(dynamic: Option<int>, b: BufferBinding)
    ensures dynamic.None? ==> FloatOffset(dynamic, b) == 0
    ensures dynamic.Some? && b.WholeBuffer? && 0 <= dynamic.value < TWO_31 ==>
      FloatOffset(dynamic, b) == dynamic.value / 4
    ensures dynamic.Some? && b.BufferView? && 0 <= dynamic.value + b.viewOffset < TWO_31 ==>
      FloatOffset(dynamic, b) == (dynamic.value + b.viewOffset) / 4
  {
    if dynamic.Some? {
      var bytes := dynamic.value + (if b.BufferView? then b.viewOffset else 0);
      if 0 <= bytes < TWO_31 {
        ToInt32Identity(bytes);
        assert Pow2(2) == 4;
      }
    }
  }
}

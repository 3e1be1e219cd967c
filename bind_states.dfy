/**
 * WebGLCmdFuncBindStates as a whole: the pipeline, then the descriptor sets, then the vertex
 * input, then the dynamic states, each behind its own guard. Only binding a pipeline can report
 * that the program changed, and that report is what forces the vertex input to be bound again.
 */
module StatesCommand {
  import opened Wrappers
  import opened GL
  import opened Objects
  import opened DescriptorLookup
  import opened PipelineBinding
  import opened UniformBinding
  import opened SamplerBinding
  import opened VertexBinding
  import opened DynamicStateBinding

  // ---------------------------------------------------------------- the four guards

  /** The shader of the pipeline being bound, if there is one. */
  function ShaderOf(pipeline: Option<PipelineState>): GPUShader? {
    if pipeline.Some? then pipeline.value.gpuShader else null
  }

  /** The pipeline block runs for a pipeline other than the one the gfx cache holds. */
  predicate BindsPipeline(g: GfxStateCache, pipeline: Option<PipelineState>) {
    pipeline.Some? && g.gpuPipelineState != pipeline
  }

  /** The descriptor block runs for a pipeline with a layout and a shader. */
  predicate BindsDescriptors(pipeline: Option<PipelineState>) {
    pipeline.Some? && pipeline.value.gpuPipelineLayout.Some? && pipeline.value.gpuShader != null
  }

  /** `isShaderChanged`: set only when the pipeline block runs and switches programs. */
  predicate ShaderChanged(c: StateCache, g: GfxStateCache, pipeline: Option<PipelineState>)
    reads ShaderOf(pipeline)
  {
    BindsPipeline(g, pipeline) && ProgramChanges(c, ShaderProgram(pipeline.value))
  }

  /** The gfx cache once the pipeline block and the vertex block have run. */
  function GfxAfter(g: GfxStateCache, pipeline: Option<PipelineState>, ia: GPUInputAssembler?, changed: bool): (r: GfxStateCache)
    ensures r.gpuPipelineState == if pipeline.Some? then pipeline else g.gpuPipelineState
    ensures r.gpuInputAssembler == if Rebinds(g.gpuInputAssembler, ia, ShaderOf(pipeline), changed) then ia else g.gpuInputAssembler
  {
    var g1 := if BindsPipeline(g, pipeline) then g.(gpuPipelineState := pipeline, glPrimitive := pipeline.value.glPrimitive) else g;
    if Rebinds(g1.gpuInputAssembler, ia, ShaderOf(pipeline), changed) then g1.(gpuInputAssembler := ia) else g1
  }

  /**
   * Binding the same states a second time: the pipeline block does not run, so the program is
   * reported unchanged, and the vertex block does not run either, whatever the first bind did.
   */
  lemma RepeatBindsNothing(g: GfxStateCache, pipeline: Option<PipelineState>, ia: GPUInputAssembler?, changed: bool)
    ensures var g2 := GfxAfter(g, pipeline, ia, changed);
      && !BindsPipeline(g2, pipeline)
      && !Rebinds(g2.gpuInputAssembler, ia, ShaderOf(pipeline), false)
      && GfxAfter(g2, pipeline, ia, false) == g2
  {
    var g1 := if BindsPipeline(g, pipeline) then g.(gpuPipelineState := pipeline, glPrimitive := pipeline.value.glPrimitive) else g;
    assert g1.gpuInputAssembler == g.gpuInputAssembler;
    if pipeline.Some? && !BindsPipeline(g, pipeline) {
      assert g1 == g;
    }
  }

  // ---------------------------------------------------------------- the descriptor block

  /** The visits of the sampler loop for a shader's samplers. */
  function ShaderVisits(shader: GPUShader, sets: seq<Option<DescriptorSet>>): seq<Visit>
    reads shader
  {
    AllVisits(shader.glSamplerTextures, sets, 0)
  }

  /** What the descriptor block demands: each block's window fits its buffer, each unit exists. */
  predicate DescriptorsFit(shader: GPUShader, sets: seq<Option<DescriptorSet>>, layout: PipelineLayout,
                           dynamicOffsets: seq<int>, units: int)
    reads shader, SetBuffers(sets), VisitTextures(ShaderVisits(shader, sets))
  {
    && SourcesFit(shader.glBlocks, Sources(shader.glBlocks, sets, layout, dynamicOffsets))
    && UnitsInRange(ShaderVisits(shader, sets), InfosOf(VisitTextures(ShaderVisits(shader, sets))), units)
  }

  /**
   * The descriptor block: every uniform block is uploaded as UniformBinding says, then every
   * sampler unit is bound as SamplerBinding says, starting from the cache the pipeline left.
   */
  method BindDescriptorSets(dev: WebGLDevice, shader: GPUShader, sets: seq<Option<DescriptorSet>>,
                            layout: PipelineLayout, dynamicOffsets: seq<int>)
    returns (ghost blockCalls: seq<GLCall>, ghost samplerCalls: seq<GLCall>)
    requires dev.Valid()
    requires DescriptorsFit(shader, sets, layout, dynamicOffsets, |dev.cache.glTexUnits|)
    modifies dev, shader, VisitTextures(ShaderVisits(shader, sets))
    ensures dev.Valid()
    ensures shader.glProgram == old(shader.glProgram) && shader.glInputs == old(shader.glInputs)
    ensures shader.glSamplerTextures == old(shader.glSamplerTextures)
    ensures var b := BlocksUpload(old(shader.glBlocks), old(Sources(shader.glBlocks, sets, layout, dynamicOffsets)), |old(shader.glBlocks)|);
      shader.glBlocks == b.0 && blockCalls == b.1
    ensures var vs := AllVisits(shader.glSamplerTextures, sets, 0);
      var ts := VisitTextures(vs);
      var r := Visited(vs, old(InfosOf(ts)), TextureState(old(dev.cache), old(NativesOf(ts)), []), dev.nullTex2D);
      && dev.cache == r.cache
      && samplerCalls == r.calls
      && (forall t :: t in ts ==> t.native == r.natives[t] && t.info == old(t.info))
    ensures dev.trace == old(dev.trace) + blockCalls + samplerCalls
    ensures dev.gfx == old(dev.gfx) && dev.log == old(dev.log)
    ensures dev.realRenderArea == old(dev.realRenderArea) && dev.staging == old(dev.staging)
  {
    ghost var t0 := dev.trace;
    ghost var samplers := shader.glSamplerTextures;
    ghost var vs := AllVisits(samplers, sets, 0);
    ghost var ts := VisitTextures(vs);
    ghost var infos := InfosOf(ts);
    ghost var natives := NativesOf(ts);
    ghost var cache := dev.cache;
    assert UnitsInRange(vs, infos, |dev.cache.glTexUnits|);
    BindUniformBlocks(dev, shader, sets, layout, dynamicOffsets);
    blockCalls := dev.trace[|t0|..];
    assert InfosOf(ts) == infos && NativesOf(ts) == natives && dev.cache == cache;
    ghost var t1 := dev.trace;
    BindSamplers(dev, shader.glSamplerTextures, sets);
    samplerCalls := dev.trace[|t1|..];
  }

  // ---------------------------------------------------------------- the whole command

  /** The pipeline block behind its guard, reporting whether the program changed. */
  method BindPipelineOf(dev: WebGLDevice, pipeline: Option<PipelineState>) returns (isShaderChanged: bool, ghost pipeCalls: seq<GLCall>)
    requires dev.Valid()
    modifies dev
    ensures dev.Valid() && |dev.cache.glTexUnits| == |old(dev.cache.glTexUnits)|
    ensures isShaderChanged == old(ShaderChanged(dev.cache, dev.gfx, pipeline))
    ensures dev.gfx == if BindsPipeline(old(dev.gfx), pipeline)
                       then old(dev.gfx).(gpuPipelineState := pipeline, glPrimitive := pipeline.value.glPrimitive)
                       else old(dev.gfx)
    ensures dev.trace == old(dev.trace) + pipeCalls
    ensures pipeCalls == (if BindsPipeline(old(dev.gfx), pipeline)
                          then old(PipelineCalls(dev.cache, pipeline.value, ShaderProgram(pipeline.value))) else [])
    ensures dev.log == old(dev.log) && dev.realRenderArea == old(dev.realRenderArea) && dev.staging == old(dev.staging)
  {
    isShaderChanged := false;
    pipeCalls := [];
    if pipeline.Some? {
      ghost var t0 := dev.trace;
      isShaderChanged := BindPipeline(dev, pipeline.value);
      pipeCalls := dev.trace[|t0|..];
    }
  }

  /** The descriptor block behind its guard: nothing happens without a layout and a shader. */
  method BindSetsOf(dev: WebGLDevice, pipeline: Option<PipelineState>,
                    sets: seq<Option<DescriptorSet>>, dynamicOffsets: seq<int>)
    returns (ghost setCalls: seq<GLCall>)
    requires dev.Valid()
    requires BindsDescriptors(pipeline) ==>
      DescriptorsFit(ShaderOf(pipeline), sets, pipeline.value.gpuPipelineLayout.value, dynamicOffsets, |dev.cache.glTexUnits|)
    modifies dev, ShaderOf(pipeline)
    modifies if BindsDescriptors(pipeline) then VisitTextures(ShaderVisits(ShaderOf(pipeline), sets)) else {}
    ensures dev.Valid()
    ensures dev.trace == old(dev.trace) + setCalls
    ensures !BindsDescriptors(pipeline) ==> setCalls == [] && unchanged(dev)
    ensures ShaderOf(pipeline) != null ==> ShaderOf(pipeline).glInputs == old(ShaderOf(pipeline).glInputs)
    ensures dev.gfx == old(dev.gfx) && dev.log == old(dev.log)
    ensures dev.realRenderArea == old(dev.realRenderArea) && dev.staging == old(dev.staging)
  {
    setCalls := [];
    if BindsDescriptors(pipeline) {
      ghost var blockCalls, samplerCalls := BindDescriptorSets(dev, ShaderOf(pipeline), sets, pipeline.value.gpuPipelineLayout.value, dynamicOffsets);
      setCalls := blockCalls + samplerCalls;
    }
  }

  /** The last two blocks: the vertex input behind its guard, then the dynamic states. */
  method BindInputAndDynamics(dev: WebGLDevice, pipeline: Option<PipelineState>, ia: GPUInputAssembler?, shader: GPUShader?,
                              isShaderChanged: bool, ds: DynamicStates, created: nat)
    returns (ghost vertexCalls: seq<GLCall>, ghost dynCalls: seq<GLCall>)
    requires dev.Valid()
    requires shader != null ==> forall j :: 0 <= j < |shader.glInputs| ==> shader.glInputs[j].Some?
    modifies dev, ia
    ensures dev.Valid()
    ensures dev.gfx == if Rebinds(old(dev.gfx.gpuInputAssembler), ia, shader, isShaderChanged)
                       then old(dev.gfx).(gpuInputAssembler := ia) else old(dev.gfx)
    ensures dev.trace == old(dev.trace) + vertexCalls + dynCalls
    ensures !Rebinds(old(dev.gfx.gpuInputAssembler), ia, shader, isShaderChanged) ==>
      vertexCalls == [] && (ia != null ==> unchanged(ia))
    ensures pipeline.None? ==> dynCalls == []
    ensures dev.log == old(dev.log) && dev.realRenderArea == old(dev.realRenderArea) && dev.staging == old(dev.staging)
  {
    ghost var t2 := dev.trace;
    BindVertexInput(dev, ia, shader, isShaderChanged, created);
    vertexCalls := dev.trace[|t2|..];
    assert dev.trace == t2 + vertexCalls;
    ghost var t3 := dev.trace;
    UpdateDynamicStates(dev, pipeline, ds);
    dynCalls := dev.trace[|t3|..];
  }

  /**
   * WebGLCmdFuncBindStates. Each stage's calls are named by a ghost result and the trace is
   * their concatenation in the source's order; a stage whose guard fails issues nothing. The
   * gfx cache ends as GfxAfter says, the program change feeding the vertex guard.
   */
  method BindStates(dev: WebGLDevice, pipeline: Option<PipelineState>, ia: GPUInputAssembler?,
                    sets: seq<Option<DescriptorSet>>, dynamicOffsets: seq<int>, ds: DynamicStates, created: nat)
    returns (ghost pipeCalls: seq<GLCall>, ghost setCalls: seq<GLCall>, ghost vertexCalls: seq<GLCall>,
             ghost dynCalls: seq<GLCall>)
    requires dev.Valid()
    requires BindsDescriptors(pipeline) ==>
      DescriptorsFit(ShaderOf(pipeline), sets, pipeline.value.gpuPipelineLayout.value, dynamicOffsets, |dev.cache.glTexUnits|)
    requires ShaderOf(pipeline) != null ==>
      forall j :: 0 <= j < |ShaderOf(pipeline).glInputs| ==> ShaderOf(pipeline).glInputs[j].Some?
    modifies dev, ia, ShaderOf(pipeline)
    modifies if BindsDescriptors(pipeline) then VisitTextures(ShaderVisits(ShaderOf(pipeline), sets)) else {}
    ensures dev.Valid()
    ensures dev.gfx == GfxAfter(old(dev.gfx), pipeline, ia, old(ShaderChanged(dev.cache, dev.gfx, pipeline)))
    ensures dev.trace == old(dev.trace) + pipeCalls + setCalls + vertexCalls + dynCalls
    ensures pipeCalls == (if BindsPipeline(old(dev.gfx), pipeline)
                          then old(PipelineCalls(dev.cache, pipeline.value, ShaderProgram(pipeline.value))) else [])
    ensures !BindsDescriptors(pipeline) ==> setCalls == []
    ensures !old(Rebinds(dev.gfx.gpuInputAssembler, ia, ShaderOf(pipeline), ShaderChanged(dev.cache, dev.gfx, pipeline))) ==>
      vertexCalls == [] && (ia != null ==> unchanged(ia))
    ensures pipeline.None? ==> dynCalls == []
    ensures dev.log == old(dev.log) && dev.realRenderArea == old(dev.realRenderArea) && dev.staging == old(dev.staging)
  {
    var shader := ShaderOf(pipeline);
    var isShaderChanged;
    isShaderChanged, pipeCalls := BindPipelineOf(dev, pipeline);
    if BindsDescriptors(pipeline) {
      var layout := pipeline.value.gpuPipelineLayout.value;
      assert ShaderVisits(shader, sets) == old(ShaderVisits(shader, sets));
      assert InfosOf(VisitTextures(ShaderVisits(shader, sets))) == old(InfosOf(VisitTextures(ShaderVisits(shader, sets))));
      assert Sources(shader.glBlocks, sets, layout, dynamicOffsets) == old(Sources(shader.glBlocks, sets, layout, dynamicOffsets));
      assert |dev.cache.glTexUnits| == |old(dev.cache.glTexUnits)|;
      assert DescriptorsFit(shader, sets, layout, dynamicOffsets, |dev.cache.glTexUnits|);
    }
    setCalls := BindSetsOf(dev, pipeline, sets, dynamicOffsets);
    vertexCalls, dynCalls := BindInputAndDynamics(dev, pipeline, ia, shader, isShaderChanged, ds, created);
  }
}

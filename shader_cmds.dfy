/**
 * WebGLCmdFuncCreateShader and WebGLCmdFuncDestroyShader: compiling the stages, linking the
 * program, reflecting it, and releasing the native objects again.
 */
module ShaderCommands {
  import opened Wrappers
  import opened GL
  import opened Objects
  import opened TextureUnits
  import opened ShaderReflection

  /** What the driver answers while a shader is created. */
  datatype ShaderQueries = ShaderQueries(
    createdShaders: seq<Handle>,
    compiled: seq<bool>,
    createdProgram: Handle,
    linked: bool,
    program: ProgramQueries)

  /** One createShader answer and one compile status per stage. */
  predicate Fits(q: ShaderQueries, stages: seq<GPUStage>) {
    |q.createdShaders| == |stages| && |q.compiled| == |stages|
  }

  /** The native shader type of a stage; only vertex and fragment stages have one. */
  function ShaderTypeOf(stageType: nat): (r: Option<GLenum>)
    ensures r.Some? <==> stageType == STAGE_VERTEX || stageType == STAGE_FRAGMENT
  {
    if stageType == STAGE_VERTEX then Some(VERTEX_SHADER)
    else if stageType == STAGE_FRAGMENT then Some(FRAGMENT_SHADER)
    else None
  }

  // ---------------------------------------------------------------- compiling

  /** The stages, calls and diagnostics of the compile loop so far, and whether it returned. */
  datatype Compilation = Compilation(stages: seq<GPUStage>, calls: seq<GLCall>, diags: seq<nat>, aborted: bool)

  /**
   * Stage `k` as the source writes it: an unknown type reports 16322 and returns; a stage the
   * driver made no shader for is skipped; a failed compile reports 16323 and 16324, deletes the
   * shader of stage `k` only, and returns.
   */
  function CompileStepAsWritten(c: Compilation, q: ShaderQueries, k: nat): (r: Compilation)
    requires k < |c.stages| && Fits(q, c.stages)
    ensures |r.stages| == |c.stages|
  {
    var st := c.stages[k];
    if ShaderTypeOf(st.stageType).None? then c.(diags := c.diags + [16322], aborted := true)
    else match q.createdShaders[k]
      case None => c
      case Some(h) =>
        var calls := c.calls + [ShaderSource(h, st.source), CompileShader(h)];
        if q.compiled[k] then c.(stages := c.stages[k := st.(glShader := Some(h))], calls := calls)
        else c.(stages := c.stages[k := st.(glShader := None)], calls := calls + [DeleteShader(h)],
                diags := c.diags + [16323, 16324], aborted := true)
  }

  function CompileFromAsWritten(c: Compilation, q: ShaderQueries, k: nat): (r: Compilation)
    requires k <= |c.stages| && Fits(q, c.stages)
    ensures |r.stages| == |c.stages|
    decreases |c.stages| - k
  {
    if k == |c.stages| || c.aborted then c else CompileFromAsWritten(CompileStepAsWritten(c, q, k), q, k + 1)
  }

  function CompiledAsWritten(stages: seq<GPUStage>, q: ShaderQueries): Compilation
    requires Fits(q, stages)
  {
    CompileFromAsWritten(Compilation(stages, [], [], false), q, 0)
  }

  /** The source's compile loop, with its cleanup loop over stage `k`. */
  method CompileStages(dev: WebGLDevice, shader: GPUShader, q: ShaderQueries) returns (ok: bool)
    requires Fits(q, shader.gpuStages)
    modifies dev, shader
    ensures var c := CompiledAsWritten(old(shader.gpuStages), q);
      && shader.gpuStages == c.stages && ok == !c.aborted
      && dev.trace == old(dev.trace) + c.calls && dev.log == old(dev.log) + c.diags
    ensures shader.glProgram == old(shader.glProgram) && shader.samplerTextures == old(shader.samplerTextures)
    ensures shader.glInputs == old(shader.glInputs) && shader.glBlocks == old(shader.glBlocks)
    ensures shader.glSamplerTextures == old(shader.glSamplerTextures)
    ensures dev.cache == old(dev.cache) && dev.gfx == old(dev.gfx)
    ensures dev.realRenderArea == old(dev.realRenderArea) && dev.staging == old(dev.staging)
  {
    ghost var c := Compilation(shader.gpuStages, [], [], false);
    var k := 0;
    while k < |shader.gpuStages|
      invariant 0 <= k <= |shader.gpuStages| == |q.compiled|
      invariant !c.aborted && |c.stages| == |q.compiled| && shader.gpuStages == c.stages
      invariant dev.trace == old(dev.trace) + c.calls && dev.log == old(dev.log) + c.diags
      invariant CompileFromAsWritten(c, q, k) == CompiledAsWritten(old(shader.gpuStages), q)
      invariant shader.glProgram == old(shader.glProgram) && shader.samplerTextures == old(shader.samplerTextures)
      invariant shader.glInputs == old(shader.glInputs) && shader.glBlocks == old(shader.glBlocks)
      invariant shader.glSamplerTextures == old(shader.glSamplerTextures)
      invariant dev.cache == old(dev.cache) && dev.gfx == old(dev.gfx)
      invariant dev.realRenderArea == old(dev.realRenderArea) && dev.staging == old(dev.staging)
    {
      ok := CompileStage(dev, shader, q, k, c, old(dev.trace), old(dev.log));
      c := CompileStepAsWritten(c, q, k);
      if !ok {
        return;
      }
      k := k + 1;
    }
    ok := true;
  }

  /** One pass of the compile loop: stage `k` as the step says; `false` when the loop returns. */
  method CompileStage(dev: WebGLDevice, shader: GPUShader, q: ShaderQueries, k: nat,
                      ghost c: Compilation, ghost trace0: seq<GLCall>, ghost log0: seq<nat>) returns (ok: bool)
    requires k < |c.stages| && Fits(q, c.stages) && !c.aborted && shader.gpuStages == c.stages
    requires dev.trace == trace0 + c.calls && dev.log == log0 + c.diags
    modifies dev, shader
    ensures var r := CompileStepAsWritten(c, q, k);
      && shader.gpuStages == r.stages && ok == !r.aborted
      && dev.trace == trace0 + r.calls && dev.log == log0 + r.diags
    ensures shader.glProgram == old(shader.glProgram) && shader.samplerTextures == old(shader.samplerTextures)
    ensures shader.glInputs == old(shader.glInputs) && shader.glBlocks == old(shader.glBlocks)
    ensures shader.glSamplerTextures == old(shader.glSamplerTextures)
    ensures dev.cache == old(dev.cache) && dev.gfx == old(dev.gfx)
    ensures dev.realRenderArea == old(dev.realRenderArea) && dev.staging == old(dev.staging)
  {
    var st := shader.gpuStages[k];
    if ShaderTypeOf(st.stageType).None? {
      dev.Report(Some(16322));
      return false;
    }
    var created := q.createdShaders[k];
    if created.Some? {
      var h := created.value;
      shader.gpuStages := shader.gpuStages[k := st.(glShader := created)];
      dev.Call(ShaderSource(h, st.source));
      dev.Call(CompileShader(h));
      if !q.compiled[k] {
        dev.Report(Some(16323));
        dev.Report(Some(16324));
        CleanupFailedStage(dev, shader, k);
        return false;
      }
    }
    ok := true;
  }

  /**
   * The cleanup loop after a failed compile, as written: every pass looks at stage `k`, so only
   * the failing stage's shader is deleted and cleared, on the first pass.
   */
  method CleanupFailedStage(dev: WebGLDevice, shader: GPUShader, k: nat)
    requires k < |shader.gpuStages|
    modifies dev, shader
    ensures var st := old(shader.gpuStages[k]);
      && shader.gpuStages == old(shader.gpuStages)[k := st.(glShader := None)]
      && dev.trace == old(dev.trace) + (if st.glShader.Some? then [DeleteShader(st.glShader.value)] else [])
    ensures shader.glProgram == old(shader.glProgram) && shader.samplerTextures == old(shader.samplerTextures)
    ensures shader.glInputs == old(shader.glInputs) && shader.glBlocks == old(shader.glBlocks)
    ensures shader.glSamplerTextures == old(shader.glSamplerTextures)
    ensures dev.cache == old(dev.cache) && dev.gfx == old(dev.gfx) && dev.log == old(dev.log)
    ensures dev.realRenderArea == old(dev.realRenderArea) && dev.staging == old(dev.staging)
  {
    ghost var held := shader.gpuStages;
    ghost var cleared := held[k := held[k].(glShader := None)];
    var l := 0;
    while l < |shader.gpuStages|
      invariant 0 <= l <= |shader.gpuStages| == |held|
      invariant shader.gpuStages == if l == 0 then held else cleared
      invariant dev.trace == old(dev.trace) +
        (if l == 0 || held[k].glShader.None? then [] else [DeleteShader(held[k].glShader.value)])
      invariant shader.glProgram == old(shader.glProgram) && shader.samplerTextures == old(shader.samplerTextures)
      invariant shader.glInputs == old(shader.glInputs) && shader.glBlocks == old(shader.glBlocks)
      invariant shader.glSamplerTextures == old(shader.glSamplerTextures)
      invariant dev.cache == old(dev.cache) && dev.gfx == old(dev.gfx) && dev.log == old(dev.log)
      invariant dev.realRenderArea == old(dev.realRenderArea) && dev.staging == old(dev.staging)
    {
      var stage := shader.gpuStages[k];
      if stage.glShader.Some? {
        dev.Call(DeleteShader(stage.glShader.value));
        shader.gpuStages := shader.gpuStages[k := stage.(glShader := None)];
      }
      l := l + 1;
    }
  }

  /** A stage the compile loop gets through: its type is known and its shader, if any, compiles. */
  predicate StageGood(st: GPUStage, q: ShaderQueries, k: nat)
    requires k < |q.createdShaders| && k < |q.compiled|
  {
    ShaderTypeOf(st.stageType).Some? && (q.createdShaders[k].Some? ==> q.compiled[k])
  }

  /** The stage with the shader the driver created for it, if any. */
  function WithCreated(st: GPUStage, created: Handle): GPUStage {
    if created.Some? then st.(glShader := created) else st
  }

  lemma {:induction false} CompileGoodFrom(c: Compilation, q: ShaderQueries, k: nat)
    requires k <= |c.stages| && Fits(q, c.stages) && !c.aborted
    requires forall j :: k <= j < |c.stages| ==> StageGood(c.stages[j], q, j)
    ensures var r := CompileFromAsWritten(c, q, k);
      && !r.aborted && r.diags == c.diags
      && forall j :: 0 <= j < |c.stages| ==>
           r.stages[j] == if j < k then c.stages[j] else WithCreated(c.stages[j], q.createdShaders[j])
    decreases |c.stages| - k
  {
    if k < |c.stages| {
      CompileGoodFrom(CompileStepAsWritten(c, q, k), q, k + 1);
    }
  }

  /** When every stage is known and compiles, no diagnostic is reported and each stage holds its new shader. */
  lemma CompileSucceeds(stages: seq<GPUStage>, q: ShaderQueries)
    requires Fits(q, stages) && forall j :: 0 <= j < |stages| ==> StageGood(stages[j], q, j)
    ensures var r := CompiledAsWritten(stages, q);
      && !r.aborted && r.diags == []
      && forall j :: 0 <= j < |stages| ==> r.stages[j] == WithCreated(stages[j], q.createdShaders[j])
  {
    CompileGoodFrom(Compilation(stages, [], [], false), q, 0);
  }

  /** A stage the loop gets through adds its shader to the stage and its compile calls, nothing else. */
  lemma GoodStep(c: Compilation, q: ShaderQueries, k: nat)
    requires k < |c.stages| && Fits(q, c.stages) && StageGood(c.stages[k], q, k)
    ensures var r := CompileStepAsWritten(c, q, k);
      && r.aborted == c.aborted && r.diags == c.diags
      && r.stages == c.stages[k := WithCreated(c.stages[k], q.createdShaders[k])]
      && r.calls == c.calls + (if q.createdShaders[k].Some?
                               then [ShaderSource(q.createdShaders[k].value, c.stages[k].source), CompileShader(q.createdShaders[k].value)]
                               else [])
  {
  }

  /** The failing stage reports, deletes its own shader and ends the loop. */
  lemma FailStep(c: Compilation, q: ShaderQueries, f: nat)
    requires f < |c.stages| && Fits(q, c.stages) && !c.aborted
    requires ShaderTypeOf(c.stages[f].stageType).Some? && q.createdShaders[f].Some? && !q.compiled[f]
    ensures CompileFromAsWritten(c, q, f) == CompileStepAsWritten(c, q, f)
    ensures var r := CompileStepAsWritten(c, q, f);
      var h := q.createdShaders[f].value;
      && r.aborted && r.diags == c.diags + [16323, 16324]
      && r.stages == c.stages[f := c.stages[f].(glShader := None)]
      && r.calls == c.calls + [ShaderSource(h, c.stages[f].source), CompileShader(h), DeleteShader(h)]
  {
  }

  lemma {:induction false} CompileFailFrom(c: Compilation, q: ShaderQueries, k: nat, f: nat)
    requires k <= f < |c.stages| && Fits(q, c.stages) && !c.aborted
    requires forall j :: k <= j < f ==> StageGood(c.stages[j], q, j)
    requires ShaderTypeOf(c.stages[f].stageType).Some? && q.createdShaders[f].Some? && !q.compiled[f]
    ensures var r := CompileFromAsWritten(c, q, k);
      && r.aborted && r.diags == c.diags + [16323, 16324]
      && r.stages[f] == c.stages[f].(glShader := None)
      && (forall j :: 0 <= j < k ==> r.stages[j] == c.stages[j])
      && (forall j :: k <= j < f ==> r.stages[j] == WithCreated(c.stages[j], q.createdShaders[j]))
      && (forall j :: f < j < |c.stages| ==> r.stages[j] == c.stages[j])
    decreases f - k
  {
    if k == f {
      FailStep(c, q, f);
    } else {
      var c' := CompileStepAsWritten(c, q, k);
      GoodStep(c, q, k);
      assert CompileFromAsWritten(c, q, k) == CompileFromAsWritten(c', q, k + 1);
      CompileFailFrom(c', q, k + 1, f);
    }
  }

  /** The calls of a failed compile: its only shader deletion is the last call, of the failing stage's shader. */
  lemma {:induction false} CompileFailCalls(c: Compilation, q: ShaderQueries, k: nat, f: nat)
    requires k <= f < |c.stages| && Fits(q, c.stages) && !c.aborted
    requires forall j :: k <= j < f ==> StageGood(c.stages[j], q, j)
    requires ShaderTypeOf(c.stages[f].stageType).Some? && q.createdShaders[f].Some? && !q.compiled[f]
    requires forall i :: 0 <= i < |c.calls| ==> !c.calls[i].DeleteShader?
    ensures var r := CompileFromAsWritten(c, q, k);
      && |r.calls| > 0 && r.calls[|r.calls| - 1] == DeleteShader(q.createdShaders[f].value)
      && (forall i :: 0 <= i < |r.calls| - 1 ==> !r.calls[i].DeleteShader?)
    decreases f - k
  {
    if k == f {
      FailStep(c, q, f);
      var r := CompileStepAsWritten(c, q, f);
      forall i | 0 <= i < |r.calls| - 1
        ensures !r.calls[i].DeleteShader?
      {
        if i < |c.calls| {
          assert r.calls[i] == c.calls[i];
        }
      }
    } else {
      var c' := CompileStepAsWritten(c, q, k);
      GoodStep(c, q, k);
      forall i | 0 <= i < |c'.calls|
        ensures !c'.calls[i].DeleteShader?
      {
        if i < |c.calls| {
          assert c'.calls[i] == c.calls[i];
        }
      }
      assert CompileFromAsWritten(c, q, k) == CompileFromAsWritten(c', q, k + 1);
      CompileFailCalls(c', q, k + 1, f);
    }
  }

  /**
   * A failed compile deletes the failing stage's shader only: the cleanup loop looks at stage `k`
   * on every pass, so the shaders earlier stages compiled are neither deleted nor cleared.
   */
  lemma CompileFailureKeepsEarlierShaders(stages: seq<GPUStage>, q: ShaderQueries, f: nat)
    requires Fits(q, stages) && f < |stages|
    requires forall j :: 0 <= j < f ==> StageGood(stages[j], q, j)
    requires ShaderTypeOf(stages[f].stageType).Some? && q.createdShaders[f].Some? && !q.compiled[f]
    ensures var r := CompiledAsWritten(stages, q);
      && r.aborted && r.diags == [16323, 16324]
      && r.stages[f].glShader == None
      && (forall j :: 0 <= j < f ==> r.stages[j] == WithCreated(stages[j], q.createdShaders[j]))
      && (forall j :: f < j < |stages| ==> r.stages[j] == stages[j])
      && |r.calls| > 0 && r.calls[|r.calls| - 1] == DeleteShader(q.createdShaders[f].value)
      && (forall i :: 0 <= i < |r.calls| - 1 ==> !r.calls[i].DeleteShader?)
  {
    CompileFailFrom(Compilation(stages, [], [], false), q, 0, f);
    CompileFailCalls(Compilation(stages, [], [], false), q, 0, f);
  }

  /** A vertex shader that compiled before the fragment shader failed is left alive. */
  lemma FailedFragmentLeaksVertexShader()
    ensures var stages := [GPUStage(STAGE_VERTEX, "v", None), GPUStage(STAGE_FRAGMENT, "f", None)];
      var q := ShaderQueries([Some(1), Some(2)], [true, false], None, false, ProgramQueries([], s => 0, [], s => None));
      var r := CompiledAsWritten(stages, q);
      r.aborted && r.stages[0].glShader == Some(1) && DeleteShader(1) !in r.calls
  {
    var stages := [GPUStage(STAGE_VERTEX, "v", None), GPUStage(STAGE_FRAGMENT, "f", None)];
    var q := ShaderQueries([Some(1), Some(2)], [true, false], None, false, ProgramQueries([], s => 0, [], s => None));
    CompileFailureKeepsEarlierShaders(stages, q, 1);
    var r := CompiledAsWritten(stages, q);
    assert r.calls[|r.calls| - 1] == DeleteShader(2);
  }

  // ---------------------------------------------------------------- the cleanup as intended

  /** Delete, in stage order, every shader a stage holds. */
  function DeleteCalls(stages: seq<GPUStage>): seq<GLCall> {
    if |stages| == 0 then []
    else
      var last := stages[|stages| - 1];
      DeleteCalls(stages[..|stages| - 1]) + (if last.glShader.Some? then [DeleteShader(last.glShader.value)] else [])
  }

  lemma {:induction false} DeleteCallsCover(stages: seq<GPUStage>)
    ensures forall i :: 0 <= i < |stages| && stages[i].glShader.Some? ==>
      DeleteShader(stages[i].glShader.value) in DeleteCalls(stages)
    decreases |stages|
  {
    if |stages| > 0 {
      var init := stages[..|stages| - 1];
      DeleteCallsCover(init);
      forall i | 0 <= i < |stages| && stages[i].glShader.Some?
        ensures DeleteShader(stages[i].glShader.value) in DeleteCalls(stages)
      {
        if i < |stages| - 1 {
          assert init[i] == stages[i];
        }
      }
    }
  }

  /** Stage `k` fails to compile: it is known, the driver made a shader for it, and the compile failed. */
  predicate CompileFails(st: GPUStage, q: ShaderQueries, k: nat)
    requires k < |q.createdShaders| && k < |q.compiled|
  {
    ShaderTypeOf(st.stageType).Some? && q.createdShaders[k].Some? && !q.compiled[k]
  }

  /**
   * Stage `k` with the cleanup evidently intended: a failed compile deletes and clears the shader
   * of every stage, not the shader of stage `k` once per stage.
   */
  function CompileStep(c: Compilation, q: ShaderQueries, k: nat): (r: Compilation)
    requires k < |c.stages| && Fits(q, c.stages)
    ensures |r.stages| == |c.stages|
  {
    var st := c.stages[k];
    if CompileFails(st, q, k) then
      var h := q.createdShaders[k].value;
      var held := c.stages[k := st.(glShader := Some(h))];
      c.(stages := Released(held), calls := c.calls + [ShaderSource(h, st.source), CompileShader(h)] + DeleteCalls(held),
         diags := c.diags + [16323, 16324], aborted := true)
    else CompileStepAsWritten(c, q, k)
  }

  function CompileFrom(c: Compilation, q: ShaderQueries, k: nat): (r: Compilation)
    requires k <= |c.stages| && Fits(q, c.stages)
    ensures |r.stages| == |c.stages|
    decreases |c.stages| - k
  {
    if k == |c.stages| || c.aborted then c else CompileFrom(CompileStep(c, q, k), q, k + 1)
  }

  function Compiled(stages: seq<GPUStage>, q: ShaderQueries): Compilation
    requires Fits(q, stages)
  {
    CompileFrom(Compilation(stages, [], [], false), q, 0)
  }

  lemma {:induction false} IntendedAgreesFrom(c: Compilation, q: ShaderQueries, k: nat)
    requires k <= |c.stages| && Fits(q, c.stages)
    requires forall j :: k <= j < |c.stages| ==> !CompileFails(c.stages[j], q, j)
    ensures CompileFrom(c, q, k) == CompileFromAsWritten(c, q, k)
    decreases |c.stages| - k
  {
    if k < |c.stages| && !c.aborted {
      var c' := CompileStepAsWritten(c, q, k);
      assert forall j :: k < j < |c.stages| ==> c'.stages[j] == c.stages[j];
      IntendedAgreesFrom(c', q, k + 1);
    }
  }

  /** The intended cleanup changes nothing unless some stage fails to compile. */
  lemma IntendedAgreesWithoutFailure(stages: seq<GPUStage>, q: ShaderQueries)
    requires Fits(q, stages) && forall j :: 0 <= j < |stages| ==> !CompileFails(stages[j], q, j)
    ensures Compiled(stages, q) == CompiledAsWritten(stages, q)
  {
    IntendedAgreesFrom(Compilation(stages, [], [], false), q, 0);
  }

  lemma {:induction false} IntendedFailFrom(c: Compilation, q: ShaderQueries, k: nat, f: nat)
    requires k <= f < |c.stages| && Fits(q, c.stages) && !c.aborted
    requires forall j :: k <= j < f ==> StageGood(c.stages[j], q, j)
    requires CompileFails(c.stages[f], q, f)
    ensures var r := CompileFrom(c, q, k);
      && r.aborted && r.diags == c.diags + [16323, 16324]
      && (forall j :: 0 <= j < |r.stages| ==> r.stages[j].glShader.None?)
      && (forall j :: 0 <= j < k && c.stages[j].glShader.Some? ==> DeleteShader(c.stages[j].glShader.value) in r.calls)
      && (forall j :: k <= j <= f && q.createdShaders[j].Some? ==> DeleteShader(q.createdShaders[j].value) in r.calls)
    decreases f - k
  {
    var c' := CompileStep(c, q, k);
    if k < f {
      assert c' == CompileStepAsWritten(c, q, k);
      assert forall j :: 0 <= j < |c.stages| && j != k ==> c'.stages[j] == c.stages[j];
      assert q.createdShaders[k].Some? ==> c'.stages[k].glShader == q.createdShaders[k];
      IntendedFailFrom(c', q, k + 1, f);
    } else {
      var h := q.createdShaders[k].value;
      var held := c.stages[k := c.stages[k].(glShader := Some(h))];
      DeleteCallsCover(held);
      assert c'.calls == c.calls + [ShaderSource(h, c.stages[k].source), CompileShader(h)] + DeleteCalls(held);
      assert forall j :: 0 <= j < k ==> held[j] == c.stages[j];
      assert held[k].glShader == Some(h);
    }
  }

  /**
   * With the intended cleanup, a failed compile leaves no stage holding a shader and deletes the
   * shader of every stage that compiled before it, as well as its own.
   */
  lemma IntendedCompileFailureReleasesAll(stages: seq<GPUStage>, q: ShaderQueries, f: nat)
    requires Fits(q, stages) && f < |stages|
    requires forall j :: 0 <= j < f ==> StageGood(stages[j], q, j)
    requires CompileFails(stages[f], q, f)
    ensures var r := Compiled(stages, q);
      && r.aborted && r.diags == [16323, 16324]
      && (forall j :: 0 <= j < |stages| ==> r.stages[j].glShader.None?)
      && (forall j :: 0 <= j <= f && q.createdShaders[j].Some? ==> DeleteShader(q.createdShaders[j].value) in r.calls)
  {
    IntendedFailFrom(Compilation(stages, [], [], false), q, 0, f);
  }

  // ---------------------------------------------------------------- linking and releasing

  function AttachCalls(p: nat, stages: seq<GPUStage>): seq<GLCall> {
    seq(|stages|, i requires 0 <= i < |stages| => AttachShader(p, stages[i].glShader))
  }

  /** Detach and delete, in stage order, every shader a stage still holds. */
  function ReleaseCalls(p: nat, stages: seq<GPUStage>): seq<GLCall> {
    if |stages| == 0 then []
    else
      var last := stages[|stages| - 1];
      ReleaseCalls(p, stages[..|stages| - 1])
        + (if last.glShader.Some? then [DetachShader(p, last.glShader.value), DeleteShader(last.glShader.value)] else [])
  }

  function Released(stages: seq<GPUStage>): seq<GPUStage> {
    seq(|stages|, i requires 0 <= i < |stages| => stages[i].(glShader := None))
  }

  /** The source's detach-and-delete loop over the stages. */
  method ReleaseStages(dev: WebGLDevice, shader: GPUShader, p: nat)
    modifies dev, shader
    ensures shader.gpuStages == Released(old(shader.gpuStages))
    ensures dev.trace == old(dev.trace) + ReleaseCalls(p, old(shader.gpuStages))
    ensures shader.glProgram == old(shader.glProgram) && shader.samplerTextures == old(shader.samplerTextures)
    ensures shader.glInputs == old(shader.glInputs) && shader.glBlocks == old(shader.glBlocks)
    ensures shader.glSamplerTextures == old(shader.glSamplerTextures)
    ensures dev.cache == old(dev.cache) && dev.gfx == old(dev.gfx) && dev.log == old(dev.log)
    ensures dev.realRenderArea == old(dev.realRenderArea) && dev.staging == old(dev.staging)
  {
    ghost var stages := shader.gpuStages;
    var k := 0;
    while k < |shader.gpuStages|
      invariant 0 <= k <= |shader.gpuStages| == |stages|
      invariant forall j :: 0 <= j < |stages| ==>
        shader.gpuStages[j] == if j < k then stages[j].(glShader := None) else stages[j]
      invariant dev.trace == old(dev.trace) + ReleaseCalls(p, stages[..k])
      invariant shader.glProgram == old(shader.glProgram) && shader.samplerTextures == old(shader.samplerTextures)
      invariant shader.glInputs == old(shader.glInputs) && shader.glBlocks == old(shader.glBlocks)
      invariant shader.glSamplerTextures == old(shader.glSamplerTextures)
      invariant dev.cache == old(dev.cache) && dev.gfx == old(dev.gfx) && dev.log == old(dev.log)
      invariant dev.realRenderArea == old(dev.realRenderArea) && dev.staging == old(dev.staging)
    {
      var st := shader.gpuStages[k];
      assert st == stages[k];
      assert stages[..k + 1][..k] == stages[..k];
      if st.glShader.Some? {
        dev.Call(DetachShader(p, st.glShader.value));
        dev.Call(DeleteShader(st.glShader.value));
      }
      shader.gpuStages := shader.gpuStages[k := st.(glShader := None)];
      k := k + 1;
    }
    assert stages[..k] == stages;
  }

  /**
   * Releasing a program's stages detaches and deletes every shader a stage holds, and issues
   * nothing else: each call names a shader some stage held.
   */
  lemma {:induction false} ReleaseDeletesEveryShader(p: nat, stages: seq<GPUStage>)
    ensures forall i :: 0 <= i < |stages| && stages[i].glShader.Some? ==>
      DetachShader(p, stages[i].glShader.value) in ReleaseCalls(p, stages) &&
      DeleteShader(stages[i].glShader.value) in ReleaseCalls(p, stages)
    ensures forall c :: c in ReleaseCalls(p, stages) ==>
      exists i :: 0 <= i < |stages| && stages[i].glShader.Some? &&
        (c == DetachShader(p, stages[i].glShader.value) || c == DeleteShader(stages[i].glShader.value))
  {
    if |stages| > 0 {
      var init := stages[..|stages| - 1];
      ReleaseDeletesEveryShader(p, init);
      forall c | c in ReleaseCalls(p, init)
        ensures exists i :: (0 <= i < |stages| && stages[i].glShader.Some? &&
          (c == DetachShader(p, stages[i].glShader.value) || c == DeleteShader(stages[i].glShader.value)))
      {
        var i :| 0 <= i < |init| && init[i].glShader.Some? &&
          (c == DetachShader(p, init[i].glShader.value) || c == DeleteShader(init[i].glShader.value));
        assert stages[i] == init[i];
      }
      forall i | 0 <= i < |stages| - 1 && stages[i].glShader.Some?
        ensures DetachShader(p, stages[i].glShader.value) in ReleaseCalls(p, stages)
        ensures DeleteShader(stages[i].glShader.value) in ReleaseCalls(p, stages)
      {
        assert stages[i] == init[i];
      }
    }
  }

  /** The source's link step with its optional immediate release of the stage shaders. */
  method LinkStages(dev: WebGLDevice, shader: GPUShader, q: ShaderQueries) returns (ok: bool)
    modifies dev, shader
    ensures q.createdProgram.None? ==>
      !ok && shader.gpuStages == old(shader.gpuStages) && shader.glProgram == old(shader.glProgram) &&
      dev.trace == old(dev.trace) && dev.log == old(dev.log)
    ensures q.createdProgram.Some? ==>
      var p := q.createdProgram.value;
      var release := dev.ext.destroyShadersImmediately;
      && ok == q.linked && shader.glProgram == Some(p)
      && shader.gpuStages == (if release then Released(old(shader.gpuStages)) else old(shader.gpuStages))
      && dev.trace == old(dev.trace) + AttachCalls(p, old(shader.gpuStages)) + [LinkProgram(p)]
                      + (if release then ReleaseCalls(p, old(shader.gpuStages)) else [])
      && dev.log == old(dev.log) + (if q.linked then [] else [16326])
    ensures shader.samplerTextures == old(shader.samplerTextures)
    ensures shader.glInputs == old(shader.glInputs) && shader.glBlocks == old(shader.glBlocks)
    ensures shader.glSamplerTextures == old(shader.glSamplerTextures)
    ensures dev.cache == old(dev.cache) && dev.gfx == old(dev.gfx)
    ensures dev.realRenderArea == old(dev.realRenderArea) && dev.staging == old(dev.staging)
  {
    if q.createdProgram.None? {
      return false;
    }
    var p := q.createdProgram.value;
    shader.glProgram := Some(p);
    var k := 0;
    while k < |shader.gpuStages|
      invariant 0 <= k <= |shader.gpuStages| && shader.gpuStages == old(shader.gpuStages)
      invariant dev.trace == old(dev.trace) + AttachCalls(p, shader.gpuStages)[..k]
      invariant shader.glProgram == Some(p) && shader.samplerTextures == old(shader.samplerTextures)
      invariant shader.glInputs == old(shader.glInputs) && shader.glBlocks == old(shader.glBlocks)
      invariant shader.glSamplerTextures == old(shader.glSamplerTextures)
      invariant dev.cache == old(dev.cache) && dev.gfx == old(dev.gfx) && dev.log == old(dev.log)
      invariant dev.realRenderArea == old(dev.realRenderArea) && dev.staging == old(dev.staging)
    {
      dev.Call(AttachShader(p, shader.gpuStages[k].glShader));
      assert AttachCalls(p, shader.gpuStages)[..k + 1] == AttachCalls(p, shader.gpuStages)[..k]
        + [AttachShader(p, shader.gpuStages[k].glShader)];
      k := k + 1;
    }
    assert AttachCalls(p, shader.gpuStages)[..k] == AttachCalls(p, shader.gpuStages);
    dev.Call(LinkProgram(p));
    if dev.ext.destroyShadersImmediately {
      ReleaseStages(dev, shader, p);
    }
    if !q.linked {
      dev.Report(Some(16326));
      return false;
    }
    return true;
  }

  // ---------------------------------------------------------------- reflection

  /** The source's upload loop: each active sampler's units go to its location as 32-bit integers. */
  method UploadSamplerUnits(dev: WebGLDevice, p: nat, samplers: seq<GLSampler>) returns (r: seq<GLSampler>)
    modifies dev
    ensures r == Uploaded(samplers)
    ensures dev.trace == old(dev.trace) + SamplerUploadCalls(old(dev.cache.glProgram), p, samplers)
    ensures dev.cache == old(dev.cache) && dev.gfx == old(dev.gfx) && dev.log == old(dev.log)
    ensures dev.realRenderArea == old(dev.realRenderArea) && dev.staging == old(dev.staging)
  {
    r := [];
    if |samplers| == 0 {
      return;
    }
    var bound := dev.cache.glProgram;
    if bound != Some(p) {
      dev.Call(UseProgram(Some(p)));
    }
    ghost var t1 := dev.trace;
    r := UploadUnits(dev, samplers);
    ghost var t2 := dev.trace;
    if bound != Some(p) {
      dev.Call(UseProgram(bound));
    }
    AppendThree(old(dev.trace), t1, t2, dev.trace, if bound != Some(p) then [UseProgram(Some(p))] else [],
                UnitCalls(samplers), if bound != Some(p) then [UseProgram(bound)] else []);
  }

  /** The loop itself: one 32-bit unit upload per sampler, in order. */
  method UploadUnits(dev: WebGLDevice, samplers: seq<GLSampler>) returns (r: seq<GLSampler>)
    modifies dev
    ensures r == Uploaded(samplers)
    ensures dev.trace == old(dev.trace) + UnitCalls(samplers)
    ensures dev.cache == old(dev.cache) && dev.gfx == old(dev.gfx) && dev.log == old(dev.log)
    ensures dev.realRenderArea == old(dev.realRenderArea) && dev.staging == old(dev.staging)
  {
    ghost var up, uc := Uploaded(samplers), UnitCalls(samplers);
    r := [];
    var i := 0;
    while i < |samplers|
      invariant 0 <= i <= |samplers|
      invariant r == up[..i]
      invariant dev.trace == old(dev.trace) + uc[..i]
      invariant dev.cache == old(dev.cache) && dev.gfx == old(dev.gfx) && dev.log == old(dev.log)
      invariant dev.realRenderArea == old(dev.realRenderArea) && dev.staging == old(dev.staging)
    {
      var s := samplers[i];
      var glUnits := Int32Units(s.units);
      assert s.(glUnits := glUnits) == up[i] && SetSamplerUnits(s.glLoc, glUnits) == uc[i];
      PrefixGrows(up, i);
      PrefixGrows(uc, i);
      r := r + [s.(glUnits := glUnits)];
      dev.Call(SetSamplerUnits(s.glLoc, glUnits));
      i := i + 1;
    }
    assert up[..i] == up && uc[..i] == uc;
  }

  /** Inputs, the sampler list and the laid-out uniform blocks, before texture units are assigned. */
  method ReflectBlocks(shader: GPUShader, rq: ProgramQueries) returns (laid: seq<GLBlock>)
    modifies shader
    ensures laid == LaidAll(ActivateFrom(StartBlocks(shader.blocks, old(shader.glBlocks)),
                                         rq.activeUniforms, rq.uniformLocation, 0))
    ensures shader.glBlocks == laid
    ensures shader.glInputs == ReflectInputs(rq.activeAttribs, rq.attribLocation)
    ensures shader.samplerTextures == AllSamplers(old(shader.samplerTextures), shader.subpassInputs)
    ensures shader.gpuStages == old(shader.gpuStages) && shader.glProgram == old(shader.glProgram)
  {
    shader.glInputs := ReflectInputs(rq.activeAttribs, rq.attribLocation);
    var sts := shader.samplerTextures + SubpassSamplers(shader.subpassInputs);
    shader.samplerTextures := sts;
    if |shader.blocks| > 0 {
      shader.glBlocks := ShellBlocks(shader.blocks);
    }
    if |sts| > 0 {
      shader.glSamplerTextures := ShellSamplers(sts);
    }
    var activated := ActivateUniforms(shader.glBlocks, rq.activeUniforms, rq.uniformLocation);
    laid := LayoutBlocks(activated);
    shader.glBlocks := laid;
  }

  /**
   * The unit cache pass, both assignment passes and the upload, for program `p`; None where the
   * source would search forever for a free texture unit.
   */
  method BindSamplerUnits(dev: WebGLDevice, blocks: seq<UniformBlock>, sts: seq<UniformSamplerTexture>,
                          rq: ProgramQueries, p: nat) returns (r: Option<seq<GLSampler>>)
    requires dev.Valid() && SetsMapped(sts, dev.bindingMappings)
    modifies dev
    ensures dev.Valid()
    ensures var pass := PassOf(rq, blocks, sts, dev.bindingMappings, dev.caps.maxTextureUnits, old(dev.cache.texUnitCacheMap));
      match AssignUnits(pass.active, pass.locs, pass.cacheMap, dev.caps.maxTextureUnits)
      case None => r.None?
      case Some(a) =>
        && r == Some(Uploaded(a.samplers))
        && dev.cache == old(dev.cache).(texUnitCacheMap := a.cacheMap)
        && dev.trace == old(dev.trace) + SamplerUploadCalls(old(dev.cache.glProgram), p, a.samplers)
    ensures dev.gfx == old(dev.gfx) && dev.log == old(dev.log)
    ensures dev.realRenderArea == old(dev.realRenderArea) && dev.staging == old(dev.staging)
  {
    var bm := dev.bindingMappings;
    var max := dev.caps.maxTextureUnits;
    var flexibleBase := CountFlexibleBlocks(blocks, bm.flexibleSet);
    var pass := CacheSamplerUnits(sts, ShellSamplers(sts), rq.uniformLocation, bm, flexibleBase,
                                  dev.cache.texUnitCacheMap, max);
    assert pass == PassOf(rq, blocks, sts, bm, max, old(dev.cache.texUnitCacheMap));
    dev.cache := dev.cache.(texUnitCacheMap := pass.cacheMap);
    var taken := AssignTextureUnits(pass.active, pass.locs, pass.cacheMap, max);
    if taken.None? {
      return None;
    }
    var a := taken.value;
    dev.cache := dev.cache.(texUnitCacheMap := a.cacheMap);
    var uploaded := UploadSamplerUnits(dev, p, a.samplers);
    return Some(uploaded);
  }

  /**
   * Everything after a successful link: inputs, blocks, samplers and their texture units. False
   * where the source would search forever for a free texture unit.
   */
  method ReflectProgram(dev: WebGLDevice, shader: GPUShader, rq: ProgramQueries, p: nat) returns (ok: bool)
    requires dev.Valid()
    requires SetsMapped(AllSamplers(shader.samplerTextures, shader.subpassInputs), dev.bindingMappings)
    modifies dev, shader
    ensures dev.Valid()
    ensures var r := Reflected(rq, shader.blocks, old(shader.samplerTextures), shader.subpassInputs, old(shader.glBlocks),
                               dev.bindingMappings, dev.caps.maxTextureUnits, old(dev.cache.texUnitCacheMap),
                               old(dev.cache.glProgram), p);
      && ok == r.Some?
      && (r.Some? ==>
           && shader.glInputs == r.value.glInputs && shader.samplerTextures == r.value.samplerTextures
           && shader.glBlocks == r.value.glBlocks && shader.glSamplerTextures == r.value.glSamplerTextures
           && dev.cache == old(dev.cache).(texUnitCacheMap := r.value.cacheMap)
           && dev.trace == old(dev.trace) + r.value.calls)
    ensures shader.gpuStages == old(shader.gpuStages) && shader.glProgram == old(shader.glProgram)
    ensures dev.gfx == old(dev.gfx) && dev.log == old(dev.log)
    ensures dev.realRenderArea == old(dev.realRenderArea) && dev.staging == old(dev.staging)
  {
    var laid := ReflectBlocks(shader, rq);
    var uploaded := BindSamplerUnits(dev, shader.blocks, shader.samplerTextures, rq, p);
    if uploaded.None? {
      return false;
    }
    var stripped := StripInactive(laid);
    shader.glBlocks := stripped;
    shader.glSamplerTextures := uploaded.value;
    return true;
  }

  // ---------------------------------------------------------------- creating and destroying

  /** How a shader creation ended. */
  datatype Outcome = CompileFailed | NoProgram | LinkFailed | UnitsExhausted | Created

  /** The calls of linking program `p` after a compile that produced `stages`. */
  function LinkCalls(p: nat, stages: seq<GPUStage>, release: bool): seq<GLCall> {
    AttachCalls(p, stages) + [LinkProgram(p)] + (if release then ReleaseCalls(p, stages) else [])
  }

  method CreateShader(dev: WebGLDevice, shader: GPUShader, q: ShaderQueries) returns (outcome: Outcome)
    requires dev.Valid() && Fits(q, shader.gpuStages)
    requires SetsMapped(AllSamplers(shader.samplerTextures, shader.subpassInputs), dev.bindingMappings)
    modifies dev, shader
    ensures dev.Valid()
    ensures var c := CompiledAsWritten(old(shader.gpuStages), q);
      && (c.aborted ==>
           && outcome == CompileFailed && shader.gpuStages == c.stages
           && dev.trace == old(dev.trace) + c.calls && dev.log == old(dev.log) + c.diags
           && shader.glProgram == old(shader.glProgram) && dev.cache == old(dev.cache))
      && (!c.aborted && q.createdProgram.None? ==>
           && outcome == NoProgram && shader.gpuStages == c.stages
           && dev.trace == old(dev.trace) + c.calls && dev.log == old(dev.log) + c.diags
           && shader.glProgram == old(shader.glProgram) && dev.cache == old(dev.cache))
      && (!c.aborted && q.createdProgram.Some? ==>
           var p := q.createdProgram.value;
           var release := dev.ext.destroyShadersImmediately;
           && shader.glProgram == Some(p)
           && shader.gpuStages == (if release then Released(c.stages) else c.stages)
           && (!q.linked ==>
                 && outcome == LinkFailed && dev.cache == old(dev.cache)
                 && dev.trace == old(dev.trace) + c.calls + LinkCalls(p, c.stages, release)
                 && dev.log == old(dev.log) + c.diags + [16326])
           && (q.linked ==>
                 var r := Reflected(q.program, shader.blocks, old(shader.samplerTextures), shader.subpassInputs,
                                    old(shader.glBlocks), dev.bindingMappings, dev.caps.maxTextureUnits,
                                    old(dev.cache.texUnitCacheMap), old(dev.cache.glProgram), p);
                 && (r.None? <==> outcome == UnitsExhausted)
                 && (r.Some? ==>
                       && outcome == Created && dev.log == old(dev.log) + c.diags
                       && shader.glInputs == r.value.glInputs && shader.samplerTextures == r.value.samplerTextures
                       && shader.glBlocks == r.value.glBlocks && shader.glSamplerTextures == r.value.glSamplerTextures
                       && dev.cache == old(dev.cache).(texUnitCacheMap := r.value.cacheMap)
                       && dev.trace == old(dev.trace) + c.calls + LinkCalls(p, c.stages, release) + r.value.calls)))
  {
    ghost var c := CompiledAsWritten(shader.gpuStages, q);
    ghost var trace0, log0, cache0 := dev.trace, dev.log, dev.cache;
    var compiled := CompileStages(dev, shader, q);
    if !compiled {
      return CompileFailed;
    }
    assert dev.trace == trace0 + c.calls && dev.log == log0 + c.diags && dev.cache == cache0;
    var linked := LinkStages(dev, shader, q);
    if q.createdProgram.None? {
      return NoProgram;
    }
    var p := q.createdProgram.value;
    assert dev.trace == trace0 + c.calls + LinkCalls(p, c.stages, dev.ext.destroyShadersImmediately);
    if !linked {
      return LinkFailed;
    }
    assert dev.log == log0 + c.diags && dev.cache == cache0;
    var reflected := ReflectProgram(dev, shader, q.program, p);
    if !reflected {
      return UnitsExhausted;
    }
    return Created;
  }

  method DestroyShader(dev: WebGLDevice, shader: GPUShader)
    modifies dev, shader
    ensures old(shader.glProgram).None? ==>
      shader.gpuStages == old(shader.gpuStages) && dev.trace == old(dev.trace) && dev.cache == old(dev.cache)
    ensures old(shader.glProgram).Some? ==>
      var p := old(shader.glProgram).value;
      var release := !dev.ext.destroyShadersImmediately;
      var wasBound := old(dev.cache.glProgram) == Some(p);
      && shader.gpuStages == (if release then Released(old(shader.gpuStages)) else old(shader.gpuStages))
      && dev.trace == old(dev.trace) + (if release then ReleaseCalls(p, old(shader.gpuStages)) else [])
                      + [DeleteProgram(p)] + (if wasBound then [UseProgram(None)] else [])
      && dev.cache == old(dev.cache).(glProgram := if wasBound then None else old(dev.cache.glProgram))
    ensures shader.glProgram == None
    ensures shader.samplerTextures == old(shader.samplerTextures) && shader.glInputs == old(shader.glInputs)
    ensures shader.glBlocks == old(shader.glBlocks) && shader.glSamplerTextures == old(shader.glSamplerTextures)
    ensures dev.gfx == old(dev.gfx) && dev.log == old(dev.log)
    ensures dev.realRenderArea == old(dev.realRenderArea) && dev.staging == old(dev.staging)
  {
    if shader.glProgram.None? {
      return;
    }
    var p := shader.glProgram.value;
    if !dev.ext.destroyShadersImmediately {
      ReleaseStages(dev, shader, p);
    }
    dev.Call(DeleteProgram(p));
    if dev.cache.glProgram == Some(p) {
      dev.Call(UseProgram(None));
      dev.cache := dev.cache.(glProgram := None);
    }
    shader.glProgram := None;
  }

  /**
   * Over a shader's life every stage shader is released exactly once: by linking when the device
   * destroys shaders immediately, otherwise by DestroyShader; either way no stage holds one after.
   */
  lemma ReleasedOnce(stages: seq<GPUStage>, immediate: bool)
    ensures var afterLink := if immediate then Released(stages) else stages;
      var afterDestroy := if !immediate then Released(afterLink) else afterLink;
      && (forall i :: 0 <= i < |afterDestroy| ==> afterDestroy[i].glShader.None?)
      && (if immediate then ReleaseCalls(0, afterLink) == [] else true)
  {
    if immediate {
      NothingToRelease(0, Released(stages));
    }
  }

  lemma {:induction false} NothingToRelease(p: nat, stages: seq<GPUStage>)
    requires forall i :: 0 <= i < |stages| ==> stages[i].glShader.None?
    ensures ReleaseCalls(p, stages) == []
  {
    if |stages| > 0 {
      NothingToRelease(p, stages[..|stages| - 1]);
    }
  }
}

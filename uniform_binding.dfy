/**
 * The uniform-block half of the descriptor binding in WebGLCmdFuncBindStates. Each block of the
 * bound shader finds its uniform buffer through the descriptor sets; each active member compares
 * its CPU mirror with its window of the buffer's float view, and on the first element that
 * differs copies the window into the mirror from that element on and uploads the whole mirror
 * with one `gl.uniform*v` call.
 */
module UniformBinding {
  import opened Wrappers
  import opened GL
  import opened Formats
  import opened JsInt
  import opened Objects
  import opened DescriptorLookup

  // ---------------------------------------------------------------- one member

  /** The entry point a member's WebGL type is uploaded with; the switch skips every other type. */
  function UniformFnOf(glType: GLenum): Option<UniformFn> {
    if glType == BOOL || glType == INT then Some(Uniform1iv)
    else if glType == BOOL_VEC2 || glType == INT_VEC2 then Some(Uniform2iv)
    else if glType == BOOL_VEC3 || glType == INT_VEC3 then Some(Uniform3iv)
    else if glType == BOOL_VEC4 || glType == INT_VEC4 then Some(Uniform4iv)
    else if glType == FLOAT then Some(Uniform1fv)
    else if glType == FLOAT_VEC2 then Some(Uniform2fv)
    else if glType == FLOAT_VEC3 then Some(Uniform3fv)
    else if glType == FLOAT_VEC4 then Some(Uniform4fv)
    else if glType == FLOAT_MAT2 then Some(UniformMatrix2fv)
    else if glType == FLOAT_MAT3 then Some(UniformMatrix3fv)
    else if glType == FLOAT_MAT4 then Some(UniformMatrix4fv)
    else None
  }

  predicate IsIntFn(fn: UniformFn) {
    fn.Uniform1iv? || fn.Uniform2iv? || fn.Uniform3iv? || fn.Uniform4iv?
  }

  /**
   * Every engine value type of a uniform except the unsigned and sampler types has an entry
   * point, and it is an integer one exactly when the member's mirror is an Int32Array.
   */
  lemma UniformFnMatchesMirror(t: Type)
    ensures var fn := UniformFnOf(TypeToGLType(t).value);
      && (fn.Some? <==> IsTranslatableType(t) && !t.TUint? && !t.TSampler2D? && !t.TSamplerCube?)
      && (fn.Some? ==> (IsIntFn(fn.value) <==> TypeToArrayKind(t).0 == Int32Array))
  {
  }

  /** `v` truncated toward zero. */
  function Trunc(v: real): (r: int)
    ensures v >= 0.0 ==> r as real <= v < r as real + 1.0
    ensures v < 0.0 ==> r as real - 1.0 < v <= r as real
  {
    if v >= 0.0 then v.Floor else -((-v).Floor)
  }

  /** What a typed array of kind `kind` holds once `v` is stored in it. */
  function Stored(kind: ArrayKind, v: real): real {
    match kind
    case Float32Array => v
    case Int32Array => ToInt32(Trunc(v)) as real
  }

  /** Storing a value the array already holds changes nothing. */
  lemma StoredIdempotent(kind: ArrayKind, v: real)
    ensures Stored(kind, Stored(kind, v)) == Stored(kind, v)
  {
    if kind == Int32Array {
      var i := ToInt32(Trunc(v));
      assert Trunc(i as real) == i;
      ToInt32Identity(i);
    }
  }

  /** Every value of `xs` is one an array of kind `kind` can hold. */
  predicate Settled(kind: ArrayKind, xs: seq<real>) {
    forall k :: 0 <= k < |xs| ==> Stored(kind, xs[k]) == xs[k]
  }

  /** The first position at or after `u` where the window and the mirror disagree; |mirror| if none. */
  function FirstDiff(window: seq<real>, mirror: seq<real>, u: nat): (r: nat)
    requires |window| == |mirror| && u <= |mirror|
    ensures u <= r <= |mirror|
    ensures forall k :: u <= k < r ==> window[k] == mirror[k]
    ensures r < |mirror| ==> window[r] != mirror[r]
    decreases |mirror| - u
  {
    if u == |mirror| || window[u] != mirror[u] then u else FirstDiff(window, mirror, u + 1)
  }

  datatype Upload = Upload(values: seq<real>, calls: seq<GLCall>)

  /** The mirror kept before `d` and overwritten with the stored window from `d` on. */
  function CopiedFrom(kind: ArrayKind, mirror: seq<real>, window: seq<real>, d: nat): (r: seq<real>)
    requires |window| == |mirror|
    ensures |r| == |mirror|
  {
    seq(|mirror|, k requires 0 <= k < |mirror| => if k < d then mirror[k] else Stored(kind, window[k]))
  }

  /** One member against its window of the buffer: the new mirror and the calls issued. */
  function MemberUpload(u: GLUniform, window: seq<real>): (r: Upload)
    requires |window| == |u.values|
    ensures |r.values| == |u.values|
  {
    var fn := UniformFnOf(u.glType);
    var d := FirstDiff(window, u.values, 0);
    if fn.None? || d == |u.values| then Upload(u.values, [])
    else
      var vs := CopiedFrom(u.arrayKind, u.values, window, d);
      Upload(vs, [SetUniform(fn.value, u.glLoc, vs)])
  }

  /**
   * At most one call, and one exactly when the member has an entry point and its mirror differs
   * from the window; the call uploads the new mirror at the member's location.
   */
  lemma MemberUploadCalls(u: GLUniform, window: seq<real>)
    requires |window| == |u.values|
    ensures var r := MemberUpload(u, window);
      && |r.calls| <= 1
      && (r.calls != [] <==> UniformFnOf(u.glType).Some? && window != u.values)
      && (r.calls != [] ==> r.calls[0] == SetUniform(UniformFnOf(u.glType).value, u.glLoc, r.values))
      && (r.calls == [] ==> r.values == u.values)
  {
    var d := FirstDiff(window, u.values, 0);
    if d == |u.values| {
      assert window == u.values;
    }
  }

  /** After the upload of a member with an entry point, its mirror holds the window as stored. */
  lemma MemberUploadMirror(u: GLUniform, window: seq<real>)
    requires |window| == |u.values| && UniformFnOf(u.glType).Some?
    ensures var r := MemberUpload(u, window);
      forall k :: 0 <= k < |window| ==> r.values[k] == Stored(u.arrayKind, window[k]) || r.values[k] == window[k]
    ensures Settled(u.arrayKind, window) ==> MemberUpload(u, window).values == window
  {
    var d := FirstDiff(window, u.values, 0);
    var r := MemberUpload(u, window);
    if Settled(u.arrayKind, window) {
      forall k | 0 <= k < |window| ensures r.values[k] == window[k] {
        if d < |u.values| && k >= d {
          assert r.values[k] == Stored(u.arrayKind, window[k]);
        }
      }
    }
  }

  /** A Float32Array mirror can hold every value of the window. */
  lemma FloatWindowSettled(window: seq<real>)
    ensures Settled(Float32Array, window)
  {
  }

  /** Uploading the same window again is silent when the array can hold every value of it. */
  lemma MemberUploadRepeat(u: GLUniform, window: seq<real>)
    requires |window| == |u.values| && Settled(u.arrayKind, window)
    ensures var r := MemberUpload(u, window);
      MemberUpload(u.(values := r.values), window) == Upload(r.values, [])
  {
    var r := MemberUpload(u, window);
    if UniformFnOf(u.glType).Some? {
      MemberUploadMirror(u, window);
      MemberUploadCalls(u.(values := r.values), window);
    }
  }

  /**
   * The hypothesis of the repeat lemma cannot be dropped: an integer member whose window holds a
   * value an Int32Array cannot (a fraction, say) is uploaded again on every bind.
   */
  lemma IntMemberUnsettledRepeats(u: GLUniform, window: seq<real>, k: nat)
    requires |window| == |u.values| && UniformFnOf(u.glType).Some?
    requires Settled(u.arrayKind, u.values)
    requires k < |window| && Stored(u.arrayKind, window[k]) != window[k]
    ensures MemberUpload(u, window).calls != []
    ensures var r := MemberUpload(u, window);
      Settled(u.arrayKind, r.values) && MemberUpload(u.(values := r.values), window).calls != []
  {
    var r := MemberUpload(u, window);
    assert window[k] != u.values[k];
    MemberUploadCalls(u, window);
    forall j | 0 <= j < |r.values| ensures Stored(u.arrayKind, r.values[j]) == r.values[j] {
      StoredIdempotent(u.arrayKind, window[j]);
    }
    assert window[k] != r.values[k];
    MemberUploadCalls(u.(values := r.values), window);
  }

  /** The source's loops for one member: look for the first differing element, copy from there, upload. */
  method UploadMember(u: GLUniform, vf32: seq<real>, start: int) returns (values: seq<real>, calls: seq<GLCall>)
    requires 0 <= start && start + |u.values| <= |vf32|
    ensures Upload(values, calls) == MemberUpload(u, vf32[start..start + |u.values|])
  {
    ghost var window := vf32[start..start + |u.values|];
    values := u.values;
    calls := [];
    var fn := UniformFnOf(u.glType);
    if fn.None? {
      return;
    }
    var i := 0;
    while i < |values|
      invariant 0 <= i <= |values| && values == u.values && calls == []
      invariant forall k :: 0 <= k < i ==> window[k] == values[k]
    {
      var idx := start + i;
      if vf32[idx] != values[i] {
        assert window[i] != u.values[i];
        var n, m := i, idx;
        while n < |values|
          invariant i <= n <= |values| && m == start + n && |values| == |u.values|
          invariant forall k :: 0 <= k < |values| ==> values[k] == if i <= k < n then Stored(u.arrayKind, window[k]) else u.values[k]
        {
          values := values[n := Stored(u.arrayKind, vf32[m])];
          n, m := n + 1, m + 1;
        }
        assert values == CopiedFrom(u.arrayKind, u.values, window, i);
        calls := [SetUniform(fn.value, u.glLoc, values)];
        return;
      }
      i := i + 1;
    }
  }

  // ---------------------------------------------------------------- one block

  /** Member `u`'s window starts at `offset + u.offset` and lies inside the float view. */
  predicate Fits(u: GLUniform, vf32: seq<real>, offset: int) {
    0 <= offset + u.offset && offset + u.offset + |u.values| <= |vf32|
  }

  predicate BlockFits(b: GLBlock, vf32: seq<real>, offset: int) {
    b.Valid() && forall i :: 0 <= i < |b.glActiveUniforms| ==> Fits(b.glUniforms[b.glActiveUniforms[i]], vf32, offset)
  }

  function WindowOf(u: GLUniform, vf32: seq<real>, offset: int): seq<real>
    requires Fits(u, vf32, offset)
  {
    vf32[offset + u.offset..offset + u.offset + |u.values|]
  }

  /** The members' CPU mirrors. */
  function Mirrors(us: seq<GLUniform>): (r: seq<seq<real>>)
    ensures |r| == |us| && forall k :: 0 <= k < |us| ==> r[k] == us[k].values
  {
    seq(|us|, k requires 0 <= k < |us| => us[k].values)
  }

  /** The members with their mirrors replaced. */
  function WithMirrors(us: seq<GLUniform>, ms: seq<seq<real>>): (r: seq<GLUniform>)
    requires |ms| == |us|
    ensures |r| == |us| && forall k :: 0 <= k < |us| ==> r[k] == us[k].(values := ms[k])
  {
    seq(|us|, k requires 0 <= k < |us| => us[k].(values := ms[k]))
  }

  /** Mirrors of the block's members after its first `l` active members are uploaded, and the calls. */
  function ActiveUpload(b: GLBlock, vf32: seq<real>, offset: int, l: nat): (r: (seq<seq<real>>, seq<GLCall>))
    requires BlockFits(b, vf32, offset) && l <= |b.glActiveUniforms|
    ensures |r.0| == |b.glUniforms|
    ensures forall k :: 0 <= k < |b.glUniforms| ==> |r.0[k]| == |b.glUniforms[k].values|
    decreases l
  {
    if l == 0 then (Mirrors(b.glUniforms), [])
    else
      var prev := ActiveUpload(b, vf32, offset, l - 1);
      var k := b.glActiveUniforms[l - 1];
      var up := MemberUpload(b.glUniforms[k].(values := prev.0[k]), WindowOf(b.glUniforms[k], vf32, offset));
      (prev.0[k := up.values], prev.1 + up.calls)
  }

  /** The whole member loop of one block. */
  function BlockUpload(b: GLBlock, vf32: seq<real>, offset: int): (GLBlock, seq<GLCall>)
    requires BlockFits(b, vf32, offset)
  {
    var r := ActiveUpload(b, vf32, offset, |b.glActiveUniforms|);
    (b.(glUniforms := WithMirrors(b.glUniforms, r.0)), r.1)
  }

  /** An active member the translator uploads whose window the mirror array can hold exactly. */
  predicate Uploadable(b: GLBlock, vf32: seq<real>, offset: int, i: nat)
    requires BlockFits(b, vf32, offset) && i < |b.glActiveUniforms|
  {
    var u := b.glUniforms[b.glActiveUniforms[i]];
    UniformFnOf(u.glType).Some? && Settled(u.arrayKind, WindowOf(u, vf32, offset))
  }

  /** After the member loop, every uploadable member among the first `l` mirrors its window. */
  lemma {:induction false} ActiveUploadSettles(b: GLBlock, vf32: seq<real>, offset: int, l: nat)
    requires BlockFits(b, vf32, offset) && l <= |b.glActiveUniforms|
    ensures var ms := ActiveUpload(b, vf32, offset, l).0;
      forall i :: 0 <= i < l && Uploadable(b, vf32, offset, i) ==>
        ms[b.glActiveUniforms[i]] == WindowOf(b.glUniforms[b.glActiveUniforms[i]], vf32, offset)
    decreases l
  {
    if l > 0 {
      ActiveUploadSettles(b, vf32, offset, l - 1);
      var prev := ActiveUpload(b, vf32, offset, l - 1).0;
      var k := b.glActiveUniforms[l - 1];
      var u := b.glUniforms[k].(values := prev[k]);
      var w := WindowOf(b.glUniforms[k], vf32, offset);
      if Uploadable(b, vf32, offset, l - 1) {
        MemberUploadMirror(u, w);
      }
    }
  }

  /** A block whose members with an entry point all mirror their windows uploads nothing. */
  lemma {:induction false} SettledBlockSilent(b: GLBlock, vf32: seq<real>, offset: int, l: nat)
    requires BlockFits(b, vf32, offset) && l <= |b.glActiveUniforms|
    requires forall i :: 0 <= i < |b.glActiveUniforms| ==>
      var u := b.glUniforms[b.glActiveUniforms[i]];
      UniformFnOf(u.glType).Some? ==> u.values == WindowOf(u, vf32, offset)
    ensures ActiveUpload(b, vf32, offset, l).0 == Mirrors(b.glUniforms) && ActiveUpload(b, vf32, offset, l).1 == []
    decreases l
  {
    if l > 0 {
      SettledBlockSilent(b, vf32, offset, l - 1);
      var k := b.glActiveUniforms[l - 1];
      var u := b.glUniforms[k];
      assert u.(values := Mirrors(b.glUniforms)[k]) == u;
      var w := WindowOf(u, vf32, offset);
      assert UniformFnOf(u.glType).Some? ==> u.values == w;
      MemberUploadCalls(u, w);
      assert MemberUpload(u, w) == Upload(u.values, []);
      assert Mirrors(b.glUniforms)[k := u.values] == Mirrors(b.glUniforms);
    }
  }

  /**
   * Binding the same buffer contents twice: the second member loop leaves the block as it is and
   * issues no call, when every member with an entry point has a window its mirror array can hold.
   */
  lemma BlockUploadRepeatSilent(b: GLBlock, vf32: seq<real>, offset: int)
    requires BlockFits(b, vf32, offset)
    requires forall i :: 0 <= i < |b.glActiveUniforms| ==>
      var u := b.glUniforms[b.glActiveUniforms[i]];
      UniformFnOf(u.glType).Some? ==> Settled(u.arrayKind, WindowOf(u, vf32, offset))
    ensures var r := BlockUpload(b, vf32, offset).0;
      BlockFits(r, vf32, offset) && BlockUpload(r, vf32, offset) == (r, [])
  {
    var ms := ActiveUpload(b, vf32, offset, |b.glActiveUniforms|).0;
    var r := BlockUpload(b, vf32, offset).0;
    assert BlockFits(r, vf32, offset) by {
      forall i | 0 <= i < |r.glActiveUniforms| ensures Fits(r.glUniforms[r.glActiveUniforms[i]], vf32, offset) {
        assert Fits(b.glUniforms[b.glActiveUniforms[i]], vf32, offset);
      }
    }
    ActiveUploadSettles(b, vf32, offset, |b.glActiveUniforms|);
    forall i | 0 <= i < |r.glActiveUniforms|
      ensures var u := r.glUniforms[r.glActiveUniforms[i]];
        UniformFnOf(u.glType).Some? ==> u.values == WindowOf(u, vf32, offset)
    {
      var k := b.glActiveUniforms[i];
      if UniformFnOf(r.glUniforms[k].glType).Some? {
        assert Uploadable(b, vf32, offset, i);
      }
    }
    SettledBlockSilent(r, vf32, offset, |r.glActiveUniforms|);
    assert WithMirrors(r.glUniforms, Mirrors(r.glUniforms)) == r.glUniforms;
  }

  /** A block's member loop issues at most one call per active member. */
  lemma {:induction false} ActiveUploadCalls(b: GLBlock, vf32: seq<real>, offset: int, l: nat)
    requires BlockFits(b, vf32, offset) && l <= |b.glActiveUniforms|
    ensures var calls := ActiveUpload(b, vf32, offset, l).1;
      |calls| <= l
    decreases l
  {
    if l > 0 {
      ActiveUploadCalls(b, vf32, offset, l - 1);
      var prev := ActiveUpload(b, vf32, offset, l - 1);
      var k := b.glActiveUniforms[l - 1];
      var u := b.glUniforms[k].(values := prev.0[k]);
      var w := WindowOf(b.glUniforms[k], vf32, offset);
      MemberUploadCalls(u, w);
      var up := MemberUpload(u, w);
      assert ActiveUpload(b, vf32, offset, l).1 == prev.1 + up.calls;
    }
  }

  /** The source's member loop of one block: each active member's mirror is updated in turn. */
  method UploadBlock(b: GLBlock, vf32: seq<real>, offset: int) returns (r: GLBlock, calls: seq<GLCall>)
    requires BlockFits(b, vf32, offset)
    ensures (r, calls) == BlockUpload(b, vf32, offset)
  {
    var mirrors := Mirrors(b.glUniforms);
    calls := [];
    var l := 0;
    while l < |b.glActiveUniforms|
      invariant 0 <= l <= |b.glActiveUniforms|
      invariant (mirrors, calls) == ActiveUpload(b, vf32, offset, l)
    {
      var k := b.glActiveUniforms[l];
      var u := b.glUniforms[k];
      var values, more := UploadMember(u.(values := mirrors[k]), vf32, offset + u.offset);
      mirrors := mirrors[k := values];
      calls := calls + more;
      l := l + 1;
    }
    r := b.(glUniforms := WithMirrors(b.glUniforms, mirrors));
  }

  // ---------------------------------------------------------------- all blocks of the shader

  /**
   * The float view and offset block `b` reads, or `None` when the block is skipped: no descriptor,
   * no buffer in it, or a buffer without a float view.
   */
  function BlockSource(b: GLBlock, sets: seq<Option<DescriptorSet>>, layout: PipelineLayout, dynamicOffsets: seq<int>)
    : Option<(seq<real>, int)>
    reads SetBuffers(sets)
  {
    var d := DescriptorAt(sets, b.setIndex, b.binding);
    if d.None? || d.value.gpuBuffer.None? then None
    else
      var binding := d.value.gpuBuffer.value;
      BufferOfSets(sets, b.setIndex, b.binding);
      var vf32 := Target(binding).vf32;
      if vf32.None? then None
      else Some((vf32.value, FloatOffset(DynamicOffset(layout, dynamicOffsets, b.setIndex, b.binding), binding)))
  }

  /** Each block's source, in block order. */
  function Sources(blocks: seq<GLBlock>, sets: seq<Option<DescriptorSet>>, layout: PipelineLayout, dynamicOffsets: seq<int>)
    : (r: seq<Option<(seq<real>, int)>>)
    reads SetBuffers(sets)
    ensures |r| == |blocks|
  {
    seq(|blocks|, j requires 0 <= j < |blocks| reads SetBuffers(sets) => BlockSource(blocks[j], sets, layout, dynamicOffsets))
  }

  /** Every block that has a buffer reads inside it. */
  predicate SourcesFit(blocks: seq<GLBlock>, srcs: seq<Option<(seq<real>, int)>>) {
    |srcs| == |blocks| &&
    forall j :: 0 <= j < |blocks| && srcs[j].Some? ==> BlockFits(blocks[j], srcs[j].value.0, srcs[j].value.1)
  }

  function BlockResult(b: GLBlock, src: Option<(seq<real>, int)>): (GLBlock, seq<GLCall>)
    requires src.Some? ==> BlockFits(b, src.value.0, src.value.1)
  {
    if src.None? then (b, []) else BlockUpload(b, src.value.0, src.value.1)
  }

  /** The blocks after the first `n` are bound, and the calls issued for them. */
  function BlocksUpload(blocks: seq<GLBlock>, srcs: seq<Option<(seq<real>, int)>>, n: nat): (r: (seq<GLBlock>, seq<GLCall>))
    requires SourcesFit(blocks, srcs) && n <= |blocks|
    ensures |r.0| == n
    decreases n
  {
    if n == 0 then ([], [])
    else
      var prev := BlocksUpload(blocks, srcs, n - 1);
      var one := BlockResult(blocks[n - 1], srcs[n - 1]);
      (prev.0 + [one.0], prev.1 + one.1)
  }

  /**
   * Blocks are bound independently: block j ends as its own member loop leaves it, or unchanged
   * when it has no buffer.
   */
  lemma {:induction false} BlocksUploadEach(blocks: seq<GLBlock>, srcs: seq<Option<(seq<real>, int)>>, n: nat)
    requires SourcesFit(blocks, srcs) && n <= |blocks|
    ensures var r := BlocksUpload(blocks, srcs, n).0;
      forall j :: 0 <= j < n ==>
        && (srcs[j].None? ==> r[j] == blocks[j])
        && (srcs[j].Some? ==> r[j] == BlockUpload(blocks[j], srcs[j].value.0, srcs[j].value.1).0)
    decreases n
  {
    if n > 0 {
      BlocksUploadEach(blocks, srcs, n - 1);
    }
  }

  /** The descriptor loop over the shader's blocks, on their values. */
  method UploadBlocks(blocks: seq<GLBlock>, srcs: seq<Option<(seq<real>, int)>>)
    returns (done: seq<GLBlock>, calls: seq<GLCall>)
    requires SourcesFit(blocks, srcs)
    ensures (done, calls) == BlocksUpload(blocks, srcs, |blocks|)
  {
    done, calls := [], [];
    var j := 0;
    while j < |blocks|
      invariant 0 <= j <= |blocks|
      invariant (done, calls) == BlocksUpload(blocks, srcs, j)
    {
      var b, more := blocks[j], [];
      if srcs[j].Some? {
        b, more := UploadBlock(blocks[j], srcs[j].value.0, srcs[j].value.1);
      }
      done, calls := done + [b], calls + more;
      j := j + 1;
    }
  }

  /**
   * The descriptor loop over the shader's blocks: the mirrors are updated and the uploads issued.
   * Each block's buffer is looked up before its members; nothing in the loop writes a buffer.
   */
  method BindUniformBlocks(dev: WebGLDevice, shader: GPUShader, sets: seq<Option<DescriptorSet>>,
                           layout: PipelineLayout, dynamicOffsets: seq<int>)
    requires SourcesFit(shader.glBlocks, Sources(shader.glBlocks, sets, layout, dynamicOffsets))
    modifies dev, shader
    ensures var r := BlocksUpload(old(shader.glBlocks), old(Sources(shader.glBlocks, sets, layout, dynamicOffsets)), |old(shader.glBlocks)|);
      shader.glBlocks == r.0 && dev.trace == old(dev.trace) + r.1
    ensures dev.cache == old(dev.cache) && dev.gfx == old(dev.gfx) && dev.log == old(dev.log)
    ensures dev.realRenderArea == old(dev.realRenderArea) && dev.staging == old(dev.staging)
    ensures shader.glProgram == old(shader.glProgram) && shader.glInputs == old(shader.glInputs)
    ensures shader.gpuStages == old(shader.gpuStages) && shader.samplerTextures == old(shader.samplerTextures)
    ensures shader.glSamplerTextures == old(shader.glSamplerTextures)
  {
    var srcs := Sources(shader.glBlocks, sets, layout, dynamicOffsets);
    var done, calls := UploadBlocks(shader.glBlocks, srcs);
    shader.glBlocks := done;
    dev.trace := dev.trace + calls;
  }
}

/** WebGLCmdFuncCreateInputAssember and WebGLCmdFuncDestroyInputAssembler. */
module InputAssemblerCommands {
  import opened Wrappers
  import opened GL
  import opened Formats
  import opened Objects

  /** The native attribute streams: the source keeps eight running offsets. */
  const STREAMS: nat := 8

  /** What an attribute reads of its vertex buffer. */
  datatype StreamBuffer = StreamBuffer(glBuffer: Handle, stride: nat)

  function Views(bs: seq<GPUBuffer>): (r: seq<StreamBuffer>)
    reads bs
    ensures |r| == |bs| && forall i :: 0 <= i < |bs| ==> r[i] == StreamBuffer(bs[i].glBuffer, bs[i].info.stride)
  {
    seq(|bs|, i reads bs requires 0 <= i < |bs| => StreamBuffer(bs[i].glBuffer, bs[i].info.stride))
  }

  /** Every attribute names one of the eight streams, and a vertex buffer for it exists. */
  predicate StreamsBound(attrs: seq<Attribute>, buffers: nat) {
    forall i :: 0 <= i < |attrs| ==> attrs[i].stream < STREAMS && attrs[i].stream < buffers
  }

  /** Bytes the first `k` attributes occupy in `stream`. */
  function StreamBytes(attrs: seq<Attribute>, infos: Format -> FormatInfo, stream: nat, k: nat): nat
    requires k <= |attrs|
  {
    if k == 0 then 0
    else StreamBytes(attrs, infos, stream, k - 1) + (if attrs[k - 1].stream == stream then infos(attrs[k - 1].format).size else 0)
  }

  function AttribOf(a: Attribute, view: StreamBuffer, infos: Format -> FormatInfo, offset: nat): GLAttrib {
    var glType := FormatToGLType(a.format);
    GLAttrib(a.name, view.glBuffer, glType, infos(a.format).size, infos(a.format).count, view.stride,
             GLComponentCount(glType), a.isNormalized, a.isInstanced, offset)
  }

  /** The native attributes: attribute i sits after the earlier attributes of its own stream. */
  function Attribs(attrs: seq<Attribute>, views: seq<StreamBuffer>, infos: Format -> FormatInfo): seq<GLAttrib>
    requires StreamsBound(attrs, |views|)
  {
    seq(|attrs|, i requires 0 <= i < |attrs| =>
      AttribOf(attrs[i], views[attrs[i].stream], infos, StreamBytes(attrs, infos, attrs[i].stream, i)))
  }

  /** The source's attribute loop with its eight running stream offsets. */
  method BuildAttribs(attrs: seq<Attribute>, views: seq<StreamBuffer>, infos: Format -> FormatInfo)
    returns (glAttribs: seq<GLAttrib>)
    requires StreamsBound(attrs, |views|)
    ensures glAttribs == Attribs(attrs, views, infos)
  {
    ghost var spec := Attribs(attrs, views, infos);
    glAttribs := [];
    var offsets := seq(STREAMS, s => 0);
    var i := 0;
    while i < |attrs|
      invariant 0 <= i <= |attrs| && |offsets| == STREAMS
      invariant forall s :: 0 <= s < STREAMS ==> offsets[s] == StreamBytes(attrs, infos, s, i)
      invariant glAttribs == spec[..i]
    {
      var a := attrs[i];
      var attrib := AttribOf(a, views[a.stream], infos, offsets[a.stream]);
      assert attrib == spec[i];
      PrefixGrows(spec, i);
      glAttribs := glAttribs + [attrib];
      ghost var prev := offsets;
      offsets := offsets[a.stream := offsets[a.stream] + infos(a.format).size];
      OffsetsStep(attrs, infos, i, prev, offsets);
      i := i + 1;
    }
    assert spec[..i] == spec;
  }

  /** Advancing attribute `i`'s stream by its size keeps every running offset at `StreamBytes`. */
  lemma OffsetsStep(attrs: seq<Attribute>, infos: Format -> FormatInfo, i: nat, prev: seq<int>, next: seq<int>)
    requires i < |attrs| && attrs[i].stream < STREAMS && |prev| == STREAMS
    requires forall s :: 0 <= s < STREAMS ==> prev[s] == StreamBytes(attrs, infos, s, i)
    requires next == prev[attrs[i].stream := prev[attrs[i].stream] + infos(attrs[i].format).size]
    ensures forall s :: 0 <= s < STREAMS ==> next[s] == StreamBytes(attrs, infos, s, i + 1)
  {
    forall s | 0 <= s < STREAMS
      ensures next[s] == StreamBytes(attrs, infos, s, i + 1)
    {
      assert prev[s] == StreamBytes(attrs, infos, s, i);
    }
  }

  method CreateInputAssembler(dev: WebGLDevice, ia: GPUInputAssembler)
    requires StreamsBound(ia.attributes, |ia.gpuVertexBuffers|)
    modifies ia
    ensures ia.glAttribs == Attribs(ia.attributes, Views(ia.gpuVertexBuffers), dev.formatInfos)
    ensures ia.glVAOs == old(ia.glVAOs)
  {
    var attrs := BuildAttribs(ia.attributes, Views(ia.gpuVertexBuffers), dev.formatInfos);
    ia.glAttribs := attrs;
  }

  lemma {:induction false} StreamBytesGrow(attrs: seq<Attribute>, infos: Format -> FormatInfo, stream: nat, i: nat, j: nat)
    requires i <= j <= |attrs|
    ensures StreamBytes(attrs, infos, stream, i) <= StreamBytes(attrs, infos, stream, j)
    decreases j - i
  {
    if i < j {
      StreamBytesGrow(attrs, infos, stream, i, j - 1);
    }
  }

  /**
   * Attributes of one stream are packed: each later one starts at or after the end of an earlier
   * one, so no two overlap, and the first starts at 0.
   */
  lemma AttribsPacked(attrs: seq<Attribute>, views: seq<StreamBuffer>, infos: Format -> FormatInfo, i: nat, j: nat)
    requires StreamsBound(attrs, |views|) && i < j < |attrs| && attrs[i].stream == attrs[j].stream
    ensures var r := Attribs(attrs, views, infos);
      r[i].offset + r[i].size <= r[j].offset
  {
    StreamBytesGrow(attrs, infos, attrs[i].stream, i + 1, j);
  }

  /** Each native attribute reads its own stream's buffer with that buffer's stride. */
  lemma AttribsReadTheirStream(attrs: seq<Attribute>, views: seq<StreamBuffer>, infos: Format -> FormatInfo)
    requires StreamsBound(attrs, |views|)
    ensures var r := Attribs(attrs, views, infos);
      |r| == |attrs| &&
      forall i :: 0 <= i < |r| ==>
        r[i].glBuffer == views[attrs[i].stream].glBuffer && r[i].stride == views[attrs[i].stream].stride &&
        r[i].name == attrs[i].name && r[i].size == infos(attrs[i].format).size &&
        ((forall j :: 0 <= j < i ==> attrs[j].stream != attrs[i].stream) ==> r[i].offset == 0)
  {
    var r := Attribs(attrs, views, infos);
    forall i | 0 <= i < |r| && (forall j :: 0 <= j < i ==> attrs[j].stream != attrs[i].stream)
      ensures r[i].offset == 0
    {
      NoEarlierStream(attrs, infos, attrs[i].stream, i);
    }
  }

  lemma {:induction false} NoEarlierStream(attrs: seq<Attribute>, infos: Format -> FormatInfo, stream: nat, k: nat)
    requires k <= |attrs| && forall j :: 0 <= j < k ==> attrs[j].stream != stream
    ensures StreamBytes(attrs, infos, stream, k) == 0
  {
    if k > 0 {
      NoEarlierStream(attrs, infos, stream, k - 1);
    }
  }

  // ---------------------------------------------------------------- destruction

  /** Delete each VAO in insertion order, unbinding it first if it is the bound one. */
  function VAODeleteCalls(vaos: seq<VAOEntry>, bound: Handle): seq<GLCall> {
    if |vaos| == 0 then []
    else
      var v := vaos[0].vao;
      [DeleteVertexArray(v)] + (if bound == Some(v) then [BindVertexArray(None)] else [])
        + VAODeleteCalls(vaos[1..], if bound == Some(v) then None else bound)
  }

  /** The VAO binding after deleting `vaos`. */
  function BoundAfter(vaos: seq<VAOEntry>, bound: Handle): Handle {
    if |vaos| == 0 then bound
    else BoundAfter(vaos[1..], if bound == Some(vaos[0].vao) then None else bound)
  }

  method DestroyInputAssembler(dev: WebGLDevice, ia: GPUInputAssembler)
    modifies dev, ia
    ensures ia.glVAOs == [] && ia.glAttribs == old(ia.glAttribs)
    ensures dev.trace == old(dev.trace) + VAODeleteCalls(old(ia.glVAOs), old(dev.cache.glVAO))
    ensures dev.cache == old(dev.cache).(glVAO := BoundAfter(old(ia.glVAOs), old(dev.cache.glVAO)))
    ensures dev.gfx == old(dev.gfx) && dev.log == old(dev.log)
    ensures dev.realRenderArea == old(dev.realRenderArea) && dev.staging == old(dev.staging)
  {
    var vaos := ia.glVAOs;
    var glVAO := dev.cache.glVAO;
    var i := 0;
    while i < |vaos|
      invariant 0 <= i <= |vaos|
      invariant dev.trace + VAODeleteCalls(vaos[i..], glVAO) == old(dev.trace) + VAODeleteCalls(vaos, old(dev.cache.glVAO))
      invariant BoundAfter(vaos[i..], glVAO) == BoundAfter(vaos, old(dev.cache.glVAO))
      invariant dev.cache == old(dev.cache) && dev.gfx == old(dev.gfx) && dev.log == old(dev.log)
      invariant dev.realRenderArea == old(dev.realRenderArea) && dev.staging == old(dev.staging)
      invariant ia.glAttribs == old(ia.glAttribs)
    {
      var v := vaos[i].vao;
      assert vaos[i..][1..] == vaos[i + 1..];
      dev.Call(DeleteVertexArray(v));
      if glVAO == Some(v) {
        dev.Call(BindVertexArray(None));
        glVAO := None;
      }
      i := i + 1;
    }
    assert vaos[i..] == [];
    dev.cache := dev.cache.(glVAO := glVAO);
    ia.glVAOs := [];
  }

  /** Destruction deletes every VAO of the assembler. */
  lemma {:induction false} DestroyDeletesEveryVAO(vaos: seq<VAOEntry>, bound: Handle)
    ensures forall i :: 0 <= i < |vaos| ==> DeleteVertexArray(vaos[i].vao) in VAODeleteCalls(vaos, bound)
    decreases |vaos|
  {
    if |vaos| > 0 {
      var v := vaos[0].vao;
      var next := if bound == Some(v) then None else bound;
      DestroyDeletesEveryVAO(vaos[1..], next);
      var rest := VAODeleteCalls(vaos[1..], next);
      var calls := VAODeleteCalls(vaos, bound);
      var head := [DeleteVertexArray(v)] + (if bound == Some(v) then [BindVertexArray(None)] else []);
      assert calls == head + rest;
      forall i | 0 <= i < |vaos| ensures DeleteVertexArray(vaos[i].vao) in calls {
        if i > 0 {
          assert vaos[i] == vaos[1..][i - 1];
        }
      }
    }
  }

  /** Destruction binds null at most once, and not at all when no VAO is bound. */
  lemma {:induction false} DestroyUnbindsOnce(vaos: seq<VAOEntry>, bound: Handle)
    ensures forall i, j :: 0 <= i < j < |VAODeleteCalls(vaos, bound)| ==>
      !(VAODeleteCalls(vaos, bound)[i].BindVertexArray? && VAODeleteCalls(vaos, bound)[j].BindVertexArray?)
    ensures bound.None? ==> forall c :: c in VAODeleteCalls(vaos, bound) ==> c.DeleteVertexArray?
    decreases |vaos|
  {
    if |vaos| > 0 {
      var v := vaos[0].vao;
      var next := if bound == Some(v) then None else bound;
      DestroyUnbindsOnce(vaos[1..], next);
      var rest := VAODeleteCalls(vaos[1..], next);
      var calls := VAODeleteCalls(vaos, bound);
      var head := [DeleteVertexArray(v)] + (if bound == Some(v) then [BindVertexArray(None)] else []);
      assert calls == head + rest;
      forall i, j | 0 <= i < j < |calls| ensures !(calls[i].BindVertexArray? && calls[j].BindVertexArray?) {
        if i >= |head| {
          assert calls[i] == rest[i - |head|] && calls[j] == rest[j - |head|];
        } else if bound == Some(v) && j >= |head| {
          assert calls[j] in rest;
        }
      }
    }
  }

  /** After destruction no VAO of the assembler is bound; any other binding is kept. */
  lemma {:induction false} DestroyLeavesNoneBound(vaos: seq<VAOEntry>, bound: Handle)
    ensures BoundAfter(vaos, bound) == if exists i :: 0 <= i < |vaos| && bound == Some(vaos[i].vao) then None else bound
    decreases |vaos|
  {
    if |vaos| > 0 {
      var v := vaos[0].vao;
      var next := if bound == Some(v) then None else bound;
      DestroyLeavesNoneBound(vaos[1..], next);
      if exists i :: 0 <= i < |vaos| && bound == Some(vaos[i].vao) {
        if bound != Some(v) {
          var i :| 0 <= i < |vaos| && bound == Some(vaos[i].vao);
          assert vaos[1..][i - 1] == vaos[i];
        }
      } else {
        assert forall i :: 0 <= i < |vaos| - 1 ==> vaos[1..][i] == vaos[i + 1];
      }
    }
  }
}

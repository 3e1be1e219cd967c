/**
 * The vertex-input half of WebGLCmdFuncBindStates. With vertex array objects the assembler keeps
 * one VAO per program, recorded once and rebound later; without them every bind points the
 * shader's inputs at the assembler's attributes directly, enabling the locations it uses and
 * disabling the ones left over from the previous bind.
 */
module VertexBinding {
  import opened Wrappers
  import opened GL
  import opened Objects

  // ---------------------------------------------------------------- finding an input's attribute

  /** The first attribute from `k` on with the input's name. */
  function FirstAttrib(attribs: seq<GLAttrib>, name: string, k: nat): (r: Option<nat>)
    ensures r.Some? ==> k <= r.value < |attribs| && attribs[r.value].name == name
    ensures r.Some? ==> forall i :: k <= i < r.value ==> attribs[i].name != name
    ensures r.None? ==> forall i :: k <= i < |attribs| ==> attribs[i].name != name
    decreases |attribs| - k
  {
    if k >= |attribs| then None
    else if attribs[k].name == name then Some(k)
    else FirstAttrib(attribs, name, k + 1)
  }

  /** The source's search loop, which stops at the first match. */
  method FindAttrib(attribs: seq<GLAttrib>, name: string) returns (r: Option<nat>)
    ensures r == FirstAttrib(attribs, name, 0)
  {
    r := None;
    var k := 0;
    while k < |attribs|
      invariant k <= |attribs|
      invariant FirstAttrib(attribs, name, k) == FirstAttrib(attribs, name, 0)
    {
      if attribs[k].name == name {
        r := Some(k);
        return;
      }
      k := k + 1;
    }
  }

  // ---------------------------------------------------------------- the cache the inputs touch

  /** The part of the state cache vertex binding reads and writes. */
  datatype VertexCache = VertexCache(arrayBuffer: Handle, elementBuffer: Handle, enabled: map<int, bool>, current: map<int, bool>)

  /** A location flag as JavaScript reads a sparse array: a missing entry is falsy. */
  predicate Flag(m: map<int, bool>, l: int) {
    l in m && m[l]
  }

  /**
   * Component `c` of an attribute read through the input at `loc0`. With `inVAO` the location is
   * enabled afresh; otherwise only a non-negative location not yet enabled is. The location is
   * marked current and pointed at its part of the buffer.
   */
  function ComponentStep(vc: VertexCache, loc0: int, a: GLAttrib, c: nat, inVAO: bool, instancing: bool): (VertexCache, seq<GLCall>) {
    var loc := loc0 + c;
    var enable := inVAO || (!Flag(vc.enabled, loc) && loc >= 0);
    (vc.(enabled := if !inVAO && enable then vc.enabled[loc := true] else vc.enabled, current := vc.current[loc := true]),
     Optional(enable, EnableVertexAttribArray(loc)) +
     [VertexAttribPointer(loc, a.count, a.glType, a.isNormalized, a.stride, a.offset + a.size * c)] +
     (if instancing then [VertexAttribDivisor(loc, if a.isInstanced then 1 else 0)] else []))
  }

  /** Components `c` and on, in order. */
  function Components(vc: VertexCache, loc0: int, a: GLAttrib, c: nat, inVAO: bool, instancing: bool): (VertexCache, seq<GLCall>)
    decreases a.componentCount - c
  {
    if c >= a.componentCount then (vc, [])
    else
      var s := ComponentStep(vc, loc0, a, c, inVAO, instancing);
      var rest := Components(s.0, loc0, a, c + 1, inVAO, instancing);
      (rest.0, s.1 + rest.1)
  }

  lemma ComponentsUnfold(vc: VertexCache, loc0: int, a: GLAttrib, c: nat, inVAO: bool, instancing: bool)
    requires c < a.componentCount
    ensures var s := ComponentStep(vc, loc0, a, c, inVAO, instancing);
      && Components(vc, loc0, a, c, inVAO, instancing).0 == Components(s.0, loc0, a, c + 1, inVAO, instancing).0
      && Components(vc, loc0, a, c, inVAO, instancing).1 == s.1 + Components(s.0, loc0, a, c + 1, inVAO, instancing).1
  {
  }

  /** The body of the source's component loop. */
  method BindComponent(vc: VertexCache, loc0: int, a: GLAttrib, c: nat, inVAO: bool, instancing: bool)
    returns (r: VertexCache, calls: seq<GLCall>)
    ensures r == ComponentStep(vc, loc0, a, c, inVAO, instancing).0
    ensures calls == ComponentStep(vc, loc0, a, c, inVAO, instancing).1
  {
    var loc := loc0 + c;
    r, calls := vc, [];
    if inVAO {
      calls := [EnableVertexAttribArray(loc)];
    } else if !(loc in r.enabled && r.enabled[loc]) && loc >= 0 {
      calls := [EnableVertexAttribArray(loc)];
      r := r.(enabled := r.enabled[loc := true]);
    }
    r := r.(current := r.current[loc := true]);
    calls := calls + [VertexAttribPointer(loc, a.count, a.glType, a.isNormalized, a.stride, a.offset + a.size * c)];
    if instancing {
      calls := calls + [VertexAttribDivisor(loc, if a.isInstanced then 1 else 0)];
    }
  }

  /** The source's loop over an attribute's components. */
  method BindComponents(vc: VertexCache, loc0: int, a: GLAttrib, inVAO: bool, instancing: bool)
    returns (r: VertexCache, calls: seq<GLCall>)
    ensures r == Components(vc, loc0, a, 0, inVAO, instancing).0
    ensures calls == Components(vc, loc0, a, 0, inVAO, instancing).1
  {
    r, calls := vc, [];
    var c := 0;
    while c < a.componentCount
      invariant c <= a.componentCount
      invariant Components(r, loc0, a, c, inVAO, instancing).0 == Components(vc, loc0, a, 0, inVAO, instancing).0
      invariant calls + Components(r, loc0, a, c, inVAO, instancing).1 == Components(vc, loc0, a, 0, inVAO, instancing).1
    {
      var r1, step := BindComponent(r, loc0, a, c, inVAO, instancing);
      ComponentsUnfold(r, loc0, a, c, inVAO, instancing);
      ghost var rest := Components(r1, loc0, a, c + 1, inVAO, instancing).1;
      assert calls + (step + rest) == (calls + step) + rest;
      r, calls := r1, calls + step;
      c := c + 1;
    }
  }

  // ---------------------------------------------------------------- one input, all inputs

  /**
   * One shader input: when the assembler has an attribute of its name, the attribute's buffer is
   * bound to ARRAY_BUFFER unless it already is, and its components are set up.
   */
  function InputStep(vc: VertexCache, input: GLInput, attribs: seq<GLAttrib>, inVAO: bool, instancing: bool): (VertexCache, seq<GLCall>) {
    var k := FirstAttrib(attribs, input.name, 0);
    if k.None? then (vc, [])
    else
      var a := attribs[k.value];
      var cs := Components(vc.(arrayBuffer := a.glBuffer), input.glLoc, a, 0, inVAO, instancing);
      (cs.0, Optional(vc.arrayBuffer != a.glBuffer, BindBuffer(ARRAY_BUFFER, a.glBuffer)) + cs.1)
  }

  /** Inputs `j` and on, in order. */
  function Inputs(vc: VertexCache, inputs: seq<GLInput>, attribs: seq<GLAttrib>, j: nat, inVAO: bool, instancing: bool): (VertexCache, seq<GLCall>)
    decreases |inputs| - j
  {
    if j >= |inputs| then (vc, [])
    else
      var s := InputStep(vc, inputs[j], attribs, inVAO, instancing);
      var rest := Inputs(s.0, inputs, attribs, j + 1, inVAO, instancing);
      (rest.0, s.1 + rest.1)
  }

  lemma InputsUnfold(vc: VertexCache, inputs: seq<GLInput>, attribs: seq<GLAttrib>, j: nat, inVAO: bool, instancing: bool)
    requires j < |inputs|
    ensures var s := InputStep(vc, inputs[j], attribs, inVAO, instancing);
      && Inputs(vc, inputs, attribs, j, inVAO, instancing).0 == Inputs(s.0, inputs, attribs, j + 1, inVAO, instancing).0
      && Inputs(vc, inputs, attribs, j, inVAO, instancing).1 == s.1 + Inputs(s.0, inputs, attribs, j + 1, inVAO, instancing).1
  {
  }

  /** The body of the source's input loop. */
  method BindInput(vc: VertexCache, input: GLInput, attribs: seq<GLAttrib>, inVAO: bool, instancing: bool)
    returns (r: VertexCache, calls: seq<GLCall>)
    ensures r == InputStep(vc, input, attribs, inVAO, instancing).0
    ensures calls == InputStep(vc, input, attribs, inVAO, instancing).1
  {
    r, calls := vc, [];
    var k := FindAttrib(attribs, input.name);
    if k.Some? {
      var a := attribs[k.value];
      if r.arrayBuffer != a.glBuffer {
        calls := [BindBuffer(ARRAY_BUFFER, a.glBuffer)];
      }
      r := r.(arrayBuffer := a.glBuffer);
      var cs;
      r, cs := BindComponents(r, input.glLoc, a, inVAO, instancing);
      calls := calls + cs;
    }
  }

  /** The source's loop over the shader's inputs. */
  method BindInputs(vc: VertexCache, inputs: seq<GLInput>, attribs: seq<GLAttrib>, inVAO: bool, instancing: bool)
    returns (r: VertexCache, calls: seq<GLCall>)
    ensures r == Inputs(vc, inputs, attribs, 0, inVAO, instancing).0
    ensures calls == Inputs(vc, inputs, attribs, 0, inVAO, instancing).1
  {
    r, calls := vc, [];
    var j := 0;
    while j < |inputs|
      invariant j <= |inputs|
      invariant Inputs(r, inputs, attribs, j, inVAO, instancing).0 == Inputs(vc, inputs, attribs, 0, inVAO, instancing).0
      invariant calls + Inputs(r, inputs, attribs, j, inVAO, instancing).1 == Inputs(vc, inputs, attribs, 0, inVAO, instancing).1
    {
      var r1, step := BindInput(r, inputs[j], attribs, inVAO, instancing);
      ghost var rest := Inputs(r1, inputs, attribs, j + 1, inVAO, instancing);
      assert Inputs(r, inputs, attribs, j, inVAO, instancing) == (rest.0, step + rest.1) by {
        InputsUnfold(r, inputs, attribs, j, inVAO, instancing);
      }
      assert calls + (step + rest.1) == (calls + step) + rest.1;
      r, calls := r1, calls + step;
      j := j + 1;
    }
  }

  // ---------------------------------------------------------------- the locations the inputs use

  /** Location `l` is one of the components the input reads. */
  predicate InputUses(input: GLInput, attribs: seq<GLAttrib>, l: int) {
    var k := FirstAttrib(attribs, input.name, 0);
    k.Some? && input.glLoc <= l < input.glLoc + attribs[k.value].componentCount
  }

  /** Location `l` is read by one of inputs `j` and on. */
  predicate Used(inputs: seq<GLInput>, attribs: seq<GLAttrib>, j: nat, l: int)
    decreases |inputs| - j
  {
    j < |inputs| && (InputUses(inputs[j], attribs, l) || Used(inputs, attribs, j + 1, l))
  }

  /**
   * Components `c` and on mark exactly their locations current; without a VAO they enable
   * exactly the non-negative ones, enabling only a location that was not enabled yet. Buffer
   * bindings are untouched and no call binds a buffer or a VAO.
   */
  lemma {:induction false} ComponentsEffect(vc: VertexCache, loc0: int, a: GLAttrib, c: nat, inVAO: bool, instancing: bool)
    ensures var r := Components(vc, loc0, a, c, inVAO, instancing);
      && r.0.arrayBuffer == vc.arrayBuffer && r.0.elementBuffer == vc.elementBuffer
      && vc.current.Keys <= r.0.current.Keys && vc.enabled.Keys <= r.0.enabled.Keys
      && (forall l :: Flag(r.0.current, l) <==> Flag(vc.current, l) || loc0 + c <= l < loc0 + a.componentCount)
      && (inVAO ==> r.0.enabled == vc.enabled)
      && (!inVAO ==> forall l :: Flag(r.0.enabled, l) <==> Flag(vc.enabled, l) || (loc0 + c <= l < loc0 + a.componentCount && l >= 0))
      && (!inVAO ==> forall l :: EnableVertexAttribArray(l) in r.1 ==> !Flag(vc.enabled, l) && l >= 0)
      && (forall l :: EnableVertexAttribArray(l) in r.1 ==> loc0 + c <= l < loc0 + a.componentCount)
      && (forall x :: x in r.1 ==> !x.BindBuffer? && !x.BindVertexArray? && !x.DisableVertexAttribArray?)
    decreases a.componentCount - c
  {
    if c < a.componentCount {
      var s := ComponentStep(vc, loc0, a, c, inVAO, instancing);
      ComponentsEffect(s.0, loc0, a, c + 1, inVAO, instancing);
      ComponentsUnfold(vc, loc0, a, c, inVAO, instancing);
    }
  }

  /**
   * Inputs `j` and on mark exactly the locations they use current; without a VAO they enable
   * exactly the non-negative ones, enabling only locations not enabled yet. No call binds the
   * element buffer or a VAO, or disables a location.
   */
  lemma {:induction false} InputsEffect(vc: VertexCache, inputs: seq<GLInput>, attribs: seq<GLAttrib>, j: nat, inVAO: bool, instancing: bool)
    ensures var r := Inputs(vc, inputs, attribs, j, inVAO, instancing);
      && r.0.elementBuffer == vc.elementBuffer
      && vc.current.Keys <= r.0.current.Keys && vc.enabled.Keys <= r.0.enabled.Keys
      && (forall l :: Flag(r.0.current, l) <==> Flag(vc.current, l) || Used(inputs, attribs, j, l))
      && (inVAO ==> r.0.enabled == vc.enabled)
      && (!inVAO ==> forall l :: Flag(r.0.enabled, l) <==> Flag(vc.enabled, l) || (Used(inputs, attribs, j, l) && l >= 0))
      && (!inVAO ==> forall l :: EnableVertexAttribArray(l) in r.1 ==> !Flag(vc.enabled, l) && l >= 0)
      && (forall l :: EnableVertexAttribArray(l) in r.1 ==> Used(inputs, attribs, j, l))
      && (forall x :: x in r.1 ==> !x.BindVertexArray? && !x.DisableVertexAttribArray?)
      && (forall x :: x in r.1 && x.BindBuffer? ==> x.target == ARRAY_BUFFER)
    decreases |inputs| - j
  {
    if j < |inputs| {
      var s := InputStep(vc, inputs[j], attribs, inVAO, instancing);
      InputsUnfold(vc, inputs, attribs, j, inVAO, instancing);
      InputsEffect(s.0, inputs, attribs, j + 1, inVAO, instancing);
      var k := FirstAttrib(attribs, inputs[j].name, 0);
      if k.Some? {
        var a := attribs[k.value];
        ComponentsEffect(vc.(arrayBuffer := a.glBuffer), inputs[j].glLoc, a, 0, inVAO, instancing);
      }
    }
  }

  // ---------------------------------------------------------------- what the calls leave bound

  /** The buffer bound to `target` after `calls`, starting from `b`. */
  function BoundBuffer(calls: seq<GLCall>, target: GLenum, b: Handle): Handle
    decreases |calls|
  {
    if calls == [] then b
    else BoundBuffer(calls[1..], target, if calls[0].BindBuffer? && calls[0].target == target then calls[0].buffer else b)
  }

  lemma {:induction false} BoundBufferConcat(a: seq<GLCall>, c: seq<GLCall>, target: GLenum, b: Handle)
    ensures BoundBuffer(a + c, target, b) == BoundBuffer(c, target, BoundBuffer(a, target, b))
    decreases |a|
  {
    if a != [] {
      assert (a + c)[1..] == a[1..] + c;
      BoundBufferConcat(a[1..], c, target, if a[0].BindBuffer? && a[0].target == target then a[0].buffer else b);
    } else {
      assert a + c == c;
    }
  }

  /** Calls that bind no buffer to `target` leave it as it was. */
  lemma {:induction false} BoundBufferUntouched(calls: seq<GLCall>, target: GLenum, b: Handle)
    requires forall x :: x in calls ==> !(x.BindBuffer? && x.target == target)
    ensures BoundBuffer(calls, target, b) == b
    decreases |calls|
  {
    if calls != [] {
      assert calls[0] in calls;
      assert forall x :: x in calls[1..] ==> x in calls;
      BoundBufferUntouched(calls[1..], target, b);
    }
  }

  /** The cache's ARRAY_BUFFER entry follows what the input calls bind. */
  lemma {:induction false} InputsArrayBuffer(vc: VertexCache, inputs: seq<GLInput>, attribs: seq<GLAttrib>, j: nat, inVAO: bool, instancing: bool)
    ensures var r := Inputs(vc, inputs, attribs, j, inVAO, instancing);
      BoundBuffer(r.1, ARRAY_BUFFER, vc.arrayBuffer) == r.0.arrayBuffer
    decreases |inputs| - j
  {
    if j < |inputs| {
      var s := InputStep(vc, inputs[j], attribs, inVAO, instancing);
      InputsUnfold(vc, inputs, attribs, j, inVAO, instancing);
      InputsArrayBuffer(s.0, inputs, attribs, j + 1, inVAO, instancing);
      BoundBufferConcat(s.1, Inputs(s.0, inputs, attribs, j + 1, inVAO, instancing).1, ARRAY_BUFFER, vc.arrayBuffer);
      var k := FirstAttrib(attribs, inputs[j].name, 0);
      if k.Some? {
        var a := attribs[k.value];
        var cs := Components(vc.(arrayBuffer := a.glBuffer), inputs[j].glLoc, a, 0, inVAO, instancing);
        ComponentsEffect(vc.(arrayBuffer := a.glBuffer), inputs[j].glLoc, a, 0, inVAO, instancing);
        var bind := Optional(vc.arrayBuffer != a.glBuffer, BindBuffer(ARRAY_BUFFER, a.glBuffer));
        BoundBufferConcat(bind, cs.1, ARRAY_BUFFER, vc.arrayBuffer);
        BoundBufferUntouched(cs.1, ARRAY_BUFFER, a.glBuffer);
        assert BoundBuffer(bind, ARRAY_BUFFER, vc.arrayBuffer) == a.glBuffer;
      }
    }
  }

  // ---------------------------------------------------------------- the direct path

  /** Locations `a` up to `max` marked not current. */
  function ResetFrom(current: map<int, bool>, a: nat, max: nat): (r: map<int, bool>)
    decreases max - a
  {
    if a >= max then current else ResetFrom(current[a := false], a + 1, max)
  }

  lemma {:induction false} ResetEffect(current: map<int, bool>, a: nat, max: nat)
    ensures forall l :: a <= l < max ==> Lookup(ResetFrom(current, a, max), l) == Some(false)
    ensures forall l :: !(a <= l < max) ==> Lookup(ResetFrom(current, a, max), l) == Lookup(current, l)
    decreases max - a
  {
    if a < max {
      assert ResetFrom(current, a, max) == ResetFrom(current[a := false], a + 1, max);
      ResetEffect(current[a := false], a + 1, max);
    } else {
      assert ResetFrom(current, a, max) == current;
    }
  }

  /** The source's first loop without VAOs. */
  method ResetCurrent(current: map<int, bool>, max: nat) returns (r: map<int, bool>)
    ensures r == ResetFrom(current, 0, max)
  {
    r := current;
    var a := 0;
    while a < max
      invariant a <= max
      invariant ResetFrom(r, a, max) == ResetFrom(current, 0, max)
    {
      r := r[a := false];
      a := a + 1;
    }
  }

  /** A sparse-array entry as JavaScript reads it, `undefined` being `None`. */
  function Lookup(m: map<int, bool>, l: int): Option<bool> {
    if l in m then Some(m[l]) else None
  }

  /** Locations `a` up to `max` whose enabled flag differs from their current flag are disabled. */
  function DisableFrom(enabled: map<int, bool>, current: map<int, bool>, a: nat, max: nat): (map<int, bool>, seq<GLCall>)
    decreases max - a
  {
    if a >= max then (enabled, [])
    else
      var stale := Lookup(enabled, a) != Lookup(current, a);
      var rest := DisableFrom(if stale then enabled[a := false] else enabled, current, a + 1, max);
      (rest.0, Optional(stale, DisableVertexAttribArray(a)) + rest.1)
  }

  lemma DisableUnfold(enabled: map<int, bool>, current: map<int, bool>, a: nat, max: nat)
    requires a < max
    ensures var stale := Lookup(enabled, a) != Lookup(current, a);
      var rest := DisableFrom(if stale then enabled[a := false] else enabled, current, a + 1, max);
      && DisableFrom(enabled, current, a, max).0 == rest.0
      && DisableFrom(enabled, current, a, max).1 == Optional(stale, DisableVertexAttribArray(a)) + rest.1
  {
  }

  /**
   * The disable loop turns off exactly the locations whose flags differ, each once and in order;
   * every other location keeps its flag.
   */
  lemma {:induction false} DisableEffect(enabled: map<int, bool>, current: map<int, bool>, a: nat, max: nat)
    ensures var r := DisableFrom(enabled, current, a, max);
      && (forall l :: a <= l < max ==> Lookup(r.0, l) == if Lookup(enabled, l) != Lookup(current, l) then Some(false) else Lookup(enabled, l))
      && (forall l :: !(a <= l < max) ==> Lookup(r.0, l) == Lookup(enabled, l))
      && (forall x :: x in r.1 ==> x.DisableVertexAttribArray?)
      && (forall l :: DisableVertexAttribArray(l) in r.1 <==> a <= l < max && Lookup(enabled, l) != Lookup(current, l))
    decreases max - a
  {
    if a < max {
      var stale := Lookup(enabled, a) != Lookup(current, a);
      var e1 := if stale then enabled[a := false] else enabled;
      DisableUnfold(enabled, current, a, max);
      DisableEffect(e1, current, a + 1, max);
    }
  }

  /** The source's last loop without VAOs. */
  method DisableStale(enabled: map<int, bool>, current: map<int, bool>, max: nat) returns (r: map<int, bool>, calls: seq<GLCall>)
    ensures r == DisableFrom(enabled, current, 0, max).0
    ensures calls == DisableFrom(enabled, current, 0, max).1
  {
    r, calls := enabled, [];
    var a := 0;
    while a < max
      invariant a <= max
      invariant DisableFrom(r, current, a, max).0 == DisableFrom(enabled, current, 0, max).0
      invariant calls + DisableFrom(r, current, a, max).1 == DisableFrom(enabled, current, 0, max).1
    {
      var step;
      r, step := DisableStep(r, current, a, max);
      calls := calls + step;
      a := a + 1;
    }
  }

  /** One location of DisableStale. */
  method DisableStep(enabled: map<int, bool>, current: map<int, bool>, a: nat, max: nat) returns (r: map<int, bool>, step: seq<GLCall>)
    requires a < max
    ensures DisableFrom(enabled, current, a, max).0 == DisableFrom(r, current, a + 1, max).0
    ensures DisableFrom(enabled, current, a, max).1 == step + DisableFrom(r, current, a + 1, max).1
  {
    r, step := enabled, [];
    if Lookup(enabled, a) != Lookup(current, a) {
      step := [DisableVertexAttribArray(a)];
      r := enabled[a := false];
    }
    DisableUnfold(enabled, current, a, max);
  }

  /**
   * Binding without VAOs: every location below `max` is first marked not current, the inputs are
   * set up, the index buffer is bound unless it already is, and the locations left enabled but
   * not current are disabled. `index` is the index buffer's native buffer, when there is one.
   */
  function DirectBind(vc: VertexCache, inputs: seq<GLInput>, attribs: seq<GLAttrib>, index: Option<Handle>, max: nat, instancing: bool)
    : (VertexCache, seq<GLCall>)
  {
    var ins := Inputs(vc.(current := ResetFrom(vc.current, 0, max)), inputs, attribs, 0, false, instancing);
    var vc2 := if index.Some? then ins.0.(elementBuffer := index.value) else ins.0;
    var bindIndex := if index.Some? then Optional(ins.0.elementBuffer != index.value, BindBuffer(ELEMENT_ARRAY_BUFFER, index.value)) else [];
    var dis := DisableFrom(vc2.enabled, vc2.current, 0, max);
    (vc2.(enabled := dis.0), ins.1 + bindIndex + dis.1)
  }

  /** The source's direct path, loop by loop. */
  method BindDirect(vc: VertexCache, inputs: seq<GLInput>, attribs: seq<GLAttrib>, index: Option<Handle>, max: nat, instancing: bool)
    returns (r: VertexCache, calls: seq<GLCall>)
    ensures r == DirectBind(vc, inputs, attribs, index, max, instancing).0
    ensures calls == DirectBind(vc, inputs, attribs, index, max, instancing).1
  {
    var current := ResetCurrent(vc.current, max);
    r, calls := BindInputs(vc.(current := current), inputs, attribs, false, instancing);
    if index.Some? {
      if r.elementBuffer != index.value {
        calls := calls + [BindBuffer(ELEMENT_ARRAY_BUFFER, index.value)];
      }
      r := r.(elementBuffer := index.value);
    }
    var enabled, dis := DisableStale(r.enabled, r.current, max);
    r := r.(enabled := enabled);
    calls := calls + dis;
  }

  /**
   * Without VAOs, when every location below `max` has an enabled entry, a bind leaves exactly the
   * locations the inputs use below `max` enabled and current; it disables exactly the locations
   * that were enabled and are no longer used, and enables only locations that were not enabled.
   */
  lemma DirectBindLocations(vc: VertexCache, inputs: seq<GLInput>, attribs: seq<GLAttrib>, index: Option<Handle>, max: nat, instancing: bool)
    requires forall a :: 0 <= a < max ==> a in vc.enabled
    ensures var r := DirectBind(vc, inputs, attribs, index, max, instancing);
      && (forall a :: 0 <= a < max ==> a in r.0.enabled && a in r.0.current)
      && (forall a :: 0 <= a < max ==> (r.0.enabled[a] <==> Used(inputs, attribs, 0, a)) && (r.0.current[a] <==> Used(inputs, attribs, 0, a)))
      && (forall a :: DisableVertexAttribArray(a) in r.1 <==> 0 <= a < max && vc.enabled[a] && !Used(inputs, attribs, 0, a))
      && (forall l :: EnableVertexAttribArray(l) in r.1 ==> !Flag(vc.enabled, l) && l >= 0 && Used(inputs, attribs, 0, l))
  {
    var vc1 := vc.(current := ResetFrom(vc.current, 0, max));
    var ins := Inputs(vc1, inputs, attribs, 0, false, instancing);
    DirectInputs(vc, inputs, attribs, max, instancing);
    var vc2 := if index.Some? then ins.0.(elementBuffer := index.value) else ins.0;
    var bindIndex := if index.Some? then Optional(ins.0.elementBuffer != index.value, BindBuffer(ELEMENT_ARRAY_BUFFER, index.value)) else [];
    var dis := DisableFrom(vc2.enabled, vc2.current, 0, max);
    DisableEffect(vc2.enabled, vc2.current, 0, max);
    var calls := ins.1 + bindIndex + dis.1;
    forall a | 0 <= a < max
      ensures a in dis.0 && (dis.0[a] <==> Used(inputs, attribs, 0, a))
      ensures Lookup(vc2.enabled, a) != Lookup(vc2.current, a) <==> vc.enabled[a] && !Used(inputs, attribs, 0, a)
    {
      assert Lookup(dis.0, a).Some?;
    }
    forall l | EnableVertexAttribArray(l) in calls
      ensures !Flag(vc.enabled, l) && l >= 0 && Used(inputs, attribs, 0, l)
    {
      assert EnableVertexAttribArray(l) in ins.1;
    }
    forall a ensures DisableVertexAttribArray(a) in calls <==> DisableVertexAttribArray(a) in dis.1 {
      assert DisableVertexAttribArray(a) !in ins.1;
      assert DisableVertexAttribArray(a) !in bindIndex;
    }
  }

  /** What the input loop of the direct path leaves in the two location maps. */
  lemma DirectInputs(vc: VertexCache, inputs: seq<GLInput>, attribs: seq<GLAttrib>, max: nat, instancing: bool)
    requires forall a :: 0 <= a < max ==> a in vc.enabled
    ensures var ins := Inputs(vc.(current := ResetFrom(vc.current, 0, max)), inputs, attribs, 0, false, instancing);
      && (forall a :: 0 <= a < max ==> a in ins.0.enabled && a in ins.0.current)
      && (forall a :: 0 <= a < max ==> (ins.0.current[a] <==> Used(inputs, attribs, 0, a)))
      && (forall a :: 0 <= a < max ==> (ins.0.enabled[a] <==> vc.enabled[a] || Used(inputs, attribs, 0, a)))
      && (forall l :: EnableVertexAttribArray(l) in ins.1 ==> !Flag(vc.enabled, l) && l >= 0 && Used(inputs, attribs, 0, l))
      && (forall x :: x in ins.1 ==> !x.DisableVertexAttribArray? && !x.BindVertexArray?)
  {
    var vc1 := vc.(current := ResetFrom(vc.current, 0, max));
    ResetEffect(vc.current, 0, max);
    var ins := Inputs(vc1, inputs, attribs, 0, false, instancing);
    InputsEffect(vc1, inputs, attribs, 0, false, instancing);
    forall a | 0 <= a < max ensures a in vc1.current && !vc1.current[a] {
      assert Lookup(vc1.current, a) == Some(false);
    }
  }

  /** Without VAOs the cache's two buffer entries end as what the calls leave bound. */
  lemma DirectBindBuffers(vc: VertexCache, inputs: seq<GLInput>, attribs: seq<GLAttrib>, index: Option<Handle>, max: nat, instancing: bool)
    ensures var r := DirectBind(vc, inputs, attribs, index, max, instancing);
      && BoundBuffer(r.1, ARRAY_BUFFER, vc.arrayBuffer) == r.0.arrayBuffer
      && BoundBuffer(r.1, ELEMENT_ARRAY_BUFFER, vc.elementBuffer) == r.0.elementBuffer
      && r.0.elementBuffer == (if index.Some? then index.value else vc.elementBuffer)
  {
    var vc1 := vc.(current := ResetFrom(vc.current, 0, max));
    var ins := Inputs(vc1, inputs, attribs, 0, false, instancing);
    InputsEffect(vc1, inputs, attribs, 0, false, instancing);
    InputsArrayBuffer(vc1, inputs, attribs, 0, false, instancing);
    var vc2 := if index.Some? then ins.0.(elementBuffer := index.value) else ins.0;
    var bindIndex := if index.Some? then Optional(ins.0.elementBuffer != index.value, BindBuffer(ELEMENT_ARRAY_BUFFER, index.value)) else [];
    var dis := DisableFrom(vc2.enabled, vc2.current, 0, max);
    DisableEffect(vc2.enabled, vc2.current, 0, max);
    BoundBufferConcat(ins.1 + bindIndex, dis.1, ARRAY_BUFFER, vc.arrayBuffer);
    BoundBufferConcat(ins.1, bindIndex, ARRAY_BUFFER, vc.arrayBuffer);
    BoundBufferUntouched(bindIndex, ARRAY_BUFFER, ins.0.arrayBuffer);
    BoundBufferUntouched(dis.1, ARRAY_BUFFER, ins.0.arrayBuffer);
    BoundBufferConcat(ins.1 + bindIndex, dis.1, ELEMENT_ARRAY_BUFFER, vc.elementBuffer);
    BoundBufferConcat(ins.1, bindIndex, ELEMENT_ARRAY_BUFFER, vc.elementBuffer);
    BoundBufferUntouched(ins.1, ELEMENT_ARRAY_BUFFER, vc.elementBuffer);
    BoundBufferUntouched(dis.1, ELEMENT_ARRAY_BUFFER, vc2.elementBuffer);
    if index.Some? && ins.0.elementBuffer != index.value {
      assert BoundBuffer(bindIndex, ELEMENT_ARRAY_BUFFER, vc.elementBuffer) == index.value;
    } else {
      BoundBufferUntouched(bindIndex, ELEMENT_ARRAY_BUFFER, vc.elementBuffer);
    }
  }

  // ---------------------------------------------------------------- the VAO path

  /** The VAO the assembler keeps for `program`; the map holds one entry per program. */
  function VAOOf(vaos: seq<VAOEntry>, program: Handle): (r: Option<nat>)
    ensures r.Some? <==> exists i :: 0 <= i < |vaos| && vaos[i].program == program
    ensures r.Some? ==> exists i :: 0 <= i < |vaos| && vaos[i] == VAOEntry(program, r.value)
    decreases |vaos|
  {
    if |vaos| == 0 then None
    else if vaos[0].program == program then Some(vaos[0].vao)
    else
      var r := VAOOf(vaos[1..], program);
      assert forall i :: 0 < i < |vaos| ==> vaos[i] == vaos[1..][i - 1];
      r
  }

  /**
   * Recording a new VAO: bind it with both buffer targets cleared, set up the inputs, bind the
   * index buffer into it, then unbind the VAO and clear both targets again.
   */
  function RecordVAO(vc: VertexCache, inputs: seq<GLInput>, attribs: seq<GLAttrib>, index: Option<Handle>, vao: nat, instancing: bool)
    : (VertexCache, seq<GLCall>)
  {
    var ins := Inputs(vc.(arrayBuffer := None, elementBuffer := None), inputs, attribs, 0, true, instancing);
    (ins.0.(arrayBuffer := None, elementBuffer := None),
     [BindVertexArray(Some(vao)), BindBuffer(ARRAY_BUFFER, None), BindBuffer(ELEMENT_ARRAY_BUFFER, None)] + ins.1 +
     (if index.Some? then [BindBuffer(ELEMENT_ARRAY_BUFFER, index.value)] else []) +
     [BindVertexArray(None), BindBuffer(ARRAY_BUFFER, None), BindBuffer(ELEMENT_ARRAY_BUFFER, None)])
  }

  datatype VAOResult = VAOResult(vc: VertexCache, glVAO: Handle, vaos: seq<VAOEntry>, calls: seq<GLCall>)

  /**
   * The VAO path: the program's VAO, recorded first under the handle `created` the driver creates
   * when the assembler has none for it yet, is bound unless the cache says it is bound already.
   */
  function VAOBind(vc: VertexCache, glVAO: Handle, vaos: seq<VAOEntry>, program: Handle, inputs: seq<GLInput>,
                   attribs: seq<GLAttrib>, index: Option<Handle>, created: nat, instancing: bool): VAOResult
  {
    var found := VAOOf(vaos, program);
    var vao := if found.Some? then found.value else created;
    var rec := if found.Some? then (vc, []) else RecordVAO(vc, inputs, attribs, index, created, instancing);
    VAOResult(rec.0, Some(vao), if found.Some? then vaos else vaos + [VAOEntry(program, created)],
              rec.1 + Optional(glVAO != Some(vao), BindVertexArray(Some(vao))))
  }

  /** The source's VAO path. */
  method BindVAO(vc: VertexCache, glVAO: Handle, vaos: seq<VAOEntry>, program: Handle, inputs: seq<GLInput>,
                 attribs: seq<GLAttrib>, index: Option<Handle>, created: nat, instancing: bool) returns (r: VAOResult)
    ensures r == VAOBind(vc, glVAO, vaos, program, inputs, attribs, index, created, instancing)
  {
    var found := VAOOf(vaos, program);
    var vao: nat;
    var cache, entries, calls := vc, vaos, [];
    if found.None? {
      vao := created;
      entries := vaos + [VAOEntry(program, vao)];
      calls := [BindVertexArray(Some(vao)), BindBuffer(ARRAY_BUFFER, None), BindBuffer(ELEMENT_ARRAY_BUFFER, None)];
      cache := cache.(arrayBuffer := None, elementBuffer := None);
      var ins;
      cache, ins := BindInputs(cache, inputs, attribs, true, instancing);
      calls := calls + ins;
      if index.Some? {
        calls := calls + [BindBuffer(ELEMENT_ARRAY_BUFFER, index.value)];
      }
      calls := calls + [BindVertexArray(None), BindBuffer(ARRAY_BUFFER, None), BindBuffer(ELEMENT_ARRAY_BUFFER, None)];
      cache := cache.(arrayBuffer := None, elementBuffer := None);
    } else {
      vao := found.value;
    }
    var bound := glVAO;
    if bound != Some(vao) {
      calls := calls + [BindVertexArray(Some(vao))];
      bound := Some(vao);
    }
    r := VAOResult(cache, bound, entries, calls);
  }

  /**
   * Afterwards the cache names the program's VAO, which the assembler now holds: the one it had,
   * or `created` appended after recording. When a VAO is recorded, the calls between its bind and
   * its unbind bind no other VAO and bind the element buffer only to the index buffer, so the
   * VAO captures the index buffer; both buffer targets end cleared, in the cache and natively.
   */
  lemma VAOBindEffect(vc: VertexCache, glVAO: Handle, vaos: seq<VAOEntry>, program: Handle, inputs: seq<GLInput>,
                      attribs: seq<GLAttrib>, index: Option<Handle>, created: nat, instancing: bool)
    ensures var r := VAOBind(vc, glVAO, vaos, program, inputs, attribs, index, created, instancing);
      && VAOOf(r.vaos, program).Some? && r.glVAO == Some(VAOOf(r.vaos, program).value)
      && (VAOOf(vaos, program).Some? ==> r.vaos == vaos && r.vc == vc && r.calls == Optional(glVAO != r.glVAO, BindVertexArray(r.glVAO)))
      && (VAOOf(vaos, program).None? ==> r.vaos == vaos + [VAOEntry(program, created)] && r.glVAO == Some(created))
  {
    var r := VAOBind(vc, glVAO, vaos, program, inputs, attribs, index, created, instancing);
    if VAOOf(vaos, program).None? {
      assert r.vaos[|vaos|] == VAOEntry(program, created);
      VAOOfAppend(vaos, program, created);
    }
  }

  /** Appending an entry for a program the assembler has no VAO for makes it the program's VAO. */
  lemma {:induction false} VAOOfAppend(vaos: seq<VAOEntry>, program: Handle, vao: nat)
    requires VAOOf(vaos, program).None?
    ensures VAOOf(vaos + [VAOEntry(program, vao)], program) == Some(vao)
    decreases |vaos|
  {
    if |vaos| > 0 {
      assert (vaos + [VAOEntry(program, vao)])[1..] == vaos[1..] + [VAOEntry(program, vao)];
      VAOOfAppend(vaos[1..], program, vao);
    }
  }

  /** While a VAO is recorded, the input calls bind no VAO and never the element buffer. */
  lemma RecordVAOCaptures(vc: VertexCache, inputs: seq<GLInput>, attribs: seq<GLAttrib>, index: Option<Handle>, vao: nat, instancing: bool)
    ensures var r := RecordVAO(vc, inputs, attribs, index, vao, instancing);
      var ins := Inputs(vc.(arrayBuffer := None, elementBuffer := None), inputs, attribs, 0, true, instancing).1;
      && r.1 == [BindVertexArray(Some(vao)), BindBuffer(ARRAY_BUFFER, None), BindBuffer(ELEMENT_ARRAY_BUFFER, None)] + ins +
                (if index.Some? then [BindBuffer(ELEMENT_ARRAY_BUFFER, index.value)] else []) +
                [BindVertexArray(None), BindBuffer(ARRAY_BUFFER, None), BindBuffer(ELEMENT_ARRAY_BUFFER, None)]
      && (forall x :: x in ins ==> !x.BindVertexArray? && !(x.BindBuffer? && x.target == ELEMENT_ARRAY_BUFFER))
      && r.0.arrayBuffer == None && r.0.elementBuffer == None
      && BoundBuffer(r.1, ARRAY_BUFFER, vc.arrayBuffer) == None && BoundBuffer(r.1, ELEMENT_ARRAY_BUFFER, vc.elementBuffer) == None
      && r.0.enabled == vc.enabled && vc.current.Keys <= r.0.current.Keys
      && (forall l :: Flag(r.0.current, l) <==> Flag(vc.current, l) || Used(inputs, attribs, 0, l))
      && (forall l :: EnableVertexAttribArray(l) in ins ==> Used(inputs, attribs, 0, l))
  {
    var vc1 := vc.(arrayBuffer := None, elementBuffer := None);
    InputsEffect(vc1, inputs, attribs, 0, true, instancing);
    var r := RecordVAO(vc, inputs, attribs, index, vao, instancing);
    var last := [BindBuffer(ELEMENT_ARRAY_BUFFER, None)];
    var tail := [BindBuffer(ARRAY_BUFFER, None)] + last;
    assert r.1 == r.1[..|r.1| - 2] + tail && r.1 == r.1[..|r.1| - 1] + last;
    BoundBufferConcat(r.1[..|r.1| - 2], tail, ARRAY_BUFFER, vc.arrayBuffer);
    BoundBufferConcat([BindBuffer(ARRAY_BUFFER, None)], last, ARRAY_BUFFER, BoundBuffer(r.1[..|r.1| - 2], ARRAY_BUFFER, vc.arrayBuffer));
    BoundBufferUntouched(last, ARRAY_BUFFER, None);
    BoundBufferConcat(r.1[..|r.1| - 1], last, ELEMENT_ARRAY_BUFFER, vc.elementBuffer);
  }

  /** Binding the same program's inputs again, with nothing changed in between, issues nothing. */
  lemma VAOBindRepeat(vc: VertexCache, glVAO: Handle, vaos: seq<VAOEntry>, program: Handle, inputs: seq<GLInput>,
                      attribs: seq<GLAttrib>, index: Option<Handle>, created: nat, created2: nat, instancing: bool)
    ensures var r := VAOBind(vc, glVAO, vaos, program, inputs, attribs, index, created, instancing);
      VAOBind(r.vc, r.glVAO, r.vaos, program, inputs, attribs, index, created2, instancing) == VAOResult(r.vc, r.glVAO, r.vaos, [])
  {
    VAOBindEffect(vc, glVAO, vaos, program, inputs, attribs, index, created, instancing);
  }

  // ---------------------------------------------------------------- on the device

  /** The inputs of a linked shader, every one of which is present. */
  function Present(xs: seq<Option<GLInput>>): (r: seq<GLInput>)
    requires forall j :: 0 <= j < |xs| ==> xs[j].Some?
    ensures |r| == |xs| && forall j :: 0 <= j < |xs| ==> xs[j] == Some(r[j])
  {
    seq(|xs|, j requires 0 <= j < |xs| => xs[j].value)
  }

  /** The vertex part of the device's state cache. */
  function CacheOf(c: StateCache): (r: VertexCache)
    ensures r.arrayBuffer == c.glArrayBuffer && r.elementBuffer == c.glElementArrayBuffer
    ensures r.enabled == c.glEnabledAttribLocs && r.current == c.glCurrentAttribLocs
  {
    VertexCache(c.glArrayBuffer, c.glElementArrayBuffer, c.glEnabledAttribLocs, c.glCurrentAttribLocs)
  }

  /** The state cache with its vertex part replaced; nothing else changes. */
  function WithVertex(c: StateCache, v: VertexCache): (r: StateCache)
    ensures CacheOf(r) == v
    ensures r.(glArrayBuffer := c.glArrayBuffer, glElementArrayBuffer := c.glElementArrayBuffer,
               glEnabledAttribLocs := c.glEnabledAttribLocs, glCurrentAttribLocs := c.glCurrentAttribLocs) == c
  {
    c.(glArrayBuffer := v.arrayBuffer, glElementArrayBuffer := v.elementBuffer,
       glEnabledAttribLocs := v.enabled, glCurrentAttribLocs := v.current)
  }

  /** The native index buffer of an assembler, when it has one. */
  function IndexOf(ia: GPUInputAssembler): Option<Handle>
    reads ia, ia.gpuIndexBuffer
  {
    if ia.gpuIndexBuffer == null then None else Some(ia.gpuIndexBuffer.glBuffer)
  }

  /** Whether BindStates rebinds the vertex input: both objects given, and a new shader or assembler. */
  predicate Rebinds(bound: GPUInputAssembler?, ia: GPUInputAssembler?, shader: GPUShader?, isShaderChanged: bool) {
    ia != null && shader != null && (isShaderChanged || bound != ia)
  }

  /** Either path, by whether the device uses VAOs; the direct path keeps the VAOs and the bound VAO. */
  function VertexInput(vc: VertexCache, glVAO: Handle, vaos: seq<VAOEntry>, program: Handle, inputs: seq<GLInput>,
                       attribs: seq<GLAttrib>, index: Option<Handle>, created: nat, useVAO: bool, max: nat, instancing: bool): VAOResult
  {
    if useVAO then VAOBind(vc, glVAO, vaos, program, inputs, attribs, index, created, instancing)
    else
      var d := DirectBind(vc, inputs, attribs, index, max, instancing);
      VAOResult(d.0, glVAO, vaos, d.1)
  }

  /**
   * Either path keeps a cache slot for every attribute location below `max`; without VAOs the
   * assembler's VAOs and the bound VAO are left alone.
   */
  lemma VertexInputSlots(vc: VertexCache, glVAO: Handle, vaos: seq<VAOEntry>, program: Handle, inputs: seq<GLInput>,
                         attribs: seq<GLAttrib>, index: Option<Handle>, created: nat, useVAO: bool, max: nat, instancing: bool)
    requires forall a :: 0 <= a < max ==> a in vc.enabled && a in vc.current
    ensures var r := VertexInput(vc, glVAO, vaos, program, inputs, attribs, index, created, useVAO, max, instancing);
      && (forall a :: 0 <= a < max ==> a in r.vc.enabled && a in r.vc.current)
      && (!useVAO ==> r.vaos == vaos && r.glVAO == glVAO)
  {
    if useVAO {
      if VAOOf(vaos, program).None? {
        RecordVAOCaptures(vc, inputs, attribs, index, created, instancing);
      }
    } else {
      DirectBindLocations(vc, inputs, attribs, index, max, instancing);
    }
  }

  /** Both paths, on values. */
  method BindInputPaths(vc: VertexCache, glVAO: Handle, vaos: seq<VAOEntry>, program: Handle, inputs: seq<GLInput>,
                        attribs: seq<GLAttrib>, index: Option<Handle>, created: nat, useVAO: bool, max: nat, instancing: bool)
    returns (r: VAOResult)
    ensures r == VertexInput(vc, glVAO, vaos, program, inputs, attribs, index, created, useVAO, max, instancing)
  {
    if useVAO {
      r := BindVAO(vc, glVAO, vaos, program, inputs, attribs, index, created, instancing);
    } else {
      var v, calls := BindDirect(vc, inputs, attribs, index, max, instancing);
      r := VAOResult(v, glVAO, vaos, calls);
    }
  }

  /**
   * The vertex-input part of WebGLCmdFuncBindStates. `created` is the VAO the driver returns
   * should one have to be created. Without a rebind nothing changes; with one the cache, the
   * assembler's VAOs and the trace advance as VertexInput says, and the cache keeps one slot per
   * attribute location.
   */
  method BindVertexInput(dev: WebGLDevice, ia: GPUInputAssembler?, shader: GPUShader?, isShaderChanged: bool, created: nat)
    requires dev.Valid()
    requires shader != null ==> forall j :: 0 <= j < |shader.glInputs| ==> shader.glInputs[j].Some?
    modifies dev, ia
    ensures dev.Valid()
    ensures unchanged(dev`realRenderArea, dev`staging, dev`log)
    ensures !Rebinds(old(dev.gfx.gpuInputAssembler), ia, shader, isShaderChanged) ==>
      unchanged(dev) && (ia != null ==> unchanged(ia))
    ensures Rebinds(old(dev.gfx.gpuInputAssembler), ia, shader, isShaderChanged) ==>
      && dev.gfx == old(dev.gfx).(gpuInputAssembler := ia)
      && ia.glAttribs == old(ia.glAttribs)
      && var r := VertexInput(CacheOf(old(dev.cache)), old(dev.cache.glVAO), old(ia.glVAOs), shader.glProgram,
                              Present(shader.glInputs), ia.glAttribs, IndexOf(ia), created, dev.ext.useVAO,
                              dev.caps.maxVertexAttributes, dev.ext.instancedArrays);
         && dev.cache == WithVertex(old(dev.cache), r.vc).(glVAO := r.glVAO)
         && ia.glVAOs == r.vaos && dev.trace == old(dev.trace) + r.calls
  {
    if ia != null && shader != null && (isShaderChanged || dev.gfx.gpuInputAssembler != ia) {
      RebindVertexInput(dev, ia, shader, created);
    }
  }

  /** The rebind itself, once BindVertexInput has decided on one. */
  method RebindVertexInput(dev: WebGLDevice, ia: GPUInputAssembler, shader: GPUShader, created: nat)
    requires dev.Valid()
    requires forall j :: 0 <= j < |shader.glInputs| ==> shader.glInputs[j].Some?
    modifies dev, ia
    ensures dev.Valid()
    ensures unchanged(dev`realRenderArea, dev`staging, dev`log)
    ensures dev.gfx == old(dev.gfx).(gpuInputAssembler := ia)
    ensures ia.glAttribs == old(ia.glAttribs)
    ensures var r := VertexInput(CacheOf(old(dev.cache)), old(dev.cache.glVAO), old(ia.glVAOs), shader.glProgram,
                                 Present(shader.glInputs), ia.glAttribs, IndexOf(ia), created, dev.ext.useVAO,
                                 dev.caps.maxVertexAttributes, dev.ext.instancedArrays);
      && dev.cache == WithVertex(old(dev.cache), r.vc).(glVAO := r.glVAO)
      && ia.glVAOs == r.vaos && dev.trace == old(dev.trace) + r.calls
  {
    dev.gfx := dev.gfx.(gpuInputAssembler := ia);
    var vc := CacheOf(dev.cache);
    var inputs := Present(shader.glInputs);
    var r := BindInputPaths(vc, dev.cache.glVAO, ia.glVAOs, shader.glProgram, inputs, ia.glAttribs,
                            IndexOf(ia), created, dev.ext.useVAO, dev.caps.maxVertexAttributes, dev.ext.instancedArrays);
    VertexInputSlots(vc, dev.cache.glVAO, ia.glVAOs, shader.glProgram, inputs, ia.glAttribs,
                     IndexOf(ia), created, dev.ext.useVAO, dev.caps.maxVertexAttributes, dev.ext.instancedArrays);
    ia.glVAOs := r.vaos;
    dev.cache := WithVertex(dev.cache, r.vc).(glVAO := r.glVAO);
    dev.trace := dev.trace + r.calls;
  }
}

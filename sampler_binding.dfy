/**
 * The sampler-texture half of the descriptor binding in WebGLCmdFuncBindStates. Each texture
 * unit of each sampler of the bound shader takes the next descriptor of its binding; a descriptor
 * with a sampler and a non-empty texture binds the texture to the unit when the unit's cache slot
 * differs, and sets the texture's wrap and filter parameters where they differ from what the
 * sampler asks for, as WebGL 1 allows it for the texture's size. `gl.activeTexture` is issued
 * lazily, once, before the first call that needs the unit.
 */
module SamplerBinding {
  import opened Wrappers
  import opened GL
  import opened Objects
  import opened DescriptorLookup

  // ---------------------------------------------------------------- the sampling policy

  datatype SamplerParams = SamplerParams(wrapS: GLenum, wrapT: GLenum, minFilter: GLenum, magFilter: GLenum)

  /** A minification filter that samples the nearest level linearly. */
  predicate LinearMin(f: GLenum) {
    f == LINEAR || f == LINEAR_MIPMAP_NEAREST || f == LINEAR_MIPMAP_LINEAR
  }

  predicate Mipmapped(f: GLenum) {
    f == NEAREST_MIPMAP_NEAREST || f == LINEAR_MIPMAP_NEAREST || f == NEAREST_MIPMAP_LINEAR || f == LINEAR_MIPMAP_LINEAR
  }

  predicate IsMinFilter(f: GLenum) {
    f == NEAREST || f == LINEAR || Mipmapped(f)
  }

  /**
   * The minification filter as the source chooses it: a power-of-two texture of at most one
   * level loses only a linear-mipmap filter, a texture that is not a power of two any mipmap part.
   */
  function MinFilterAsWritten(isPowerOf2: bool, mipLevel: nat, f: GLenum): GLenum {
    if isPowerOf2 then
      if mipLevel <= 1 && (f == LINEAR_MIPMAP_NEAREST || f == LINEAR_MIPMAP_LINEAR) then LINEAR
      else f
    else if LinearMin(f) then LINEAR
    else NEAREST
  }

  /**
   * The minification filter as evidently intended: a power-of-two texture of at most one level
   * drops the mipmap part of either kind of mipmapped filter, as a texture that is not a power of
   * two does.
   */
  function MinFilter(isPowerOf2: bool, mipLevel: nat, f: GLenum): (r: GLenum)
    ensures !(isPowerOf2 && mipLevel > 1) && IsMinFilter(f) ==> !Mipmapped(r) && IsMinFilter(r)
    ensures IsMinFilter(f) ==> (LinearMin(r) <==> LinearMin(f))
  {
    if isPowerOf2 && mipLevel > 1 then f
    else if LinearMin(f) then LINEAR
    else if isPowerOf2 && !Mipmapped(f) then f
    else NEAREST
  }

  /** The parameters a texture is sampled with through sampler `s`. */
  function SamplerPolicy(isPowerOf2: bool, mipLevel: nat, s: GPUSampler): SamplerParams {
    var minFilter := MinFilterAsWritten(isPowerOf2, mipLevel, s.glMinFilter);
    SamplerParams(if isPowerOf2 then s.glWrapS else CLAMP_TO_EDGE,
                  if isPowerOf2 then s.glWrapT else CLAMP_TO_EDGE,
                  minFilter, s.glMagFilter)
  }

  /**
   * A texture whose size is not a power of two is sampled the way WebGL 1 allows: clamped, and
   * from its base level only, with the sampler's choice between linear and nearest kept.
   */
  lemma NonPowerOf2Policy(mipLevel: nat, s: GPUSampler)
    ensures var p := SamplerPolicy(false, mipLevel, s);
      && p.wrapS == CLAMP_TO_EDGE && p.wrapT == CLAMP_TO_EDGE
      && !Mipmapped(p.minFilter) && IsMinFilter(p.minFilter)
      && (LinearMin(p.minFilter) <==> LinearMin(s.glMinFilter))
      && p.magFilter == s.glMagFilter
  {
  }

  /**
   * A power-of-two texture takes the sampler's wrap modes and filters, except that a texture of
   * at most one level is never given a linear-mipmap minification filter: those become LINEAR.
   */
  lemma PowerOf2Policy(mipLevel: nat, s: GPUSampler)
    ensures var p := SamplerPolicy(true, mipLevel, s);
      && p.wrapS == s.glWrapS && p.wrapT == s.glWrapT && p.magFilter == s.glMagFilter
      && (mipLevel > 1 ==> p.minFilter == s.glMinFilter)
      && (mipLevel <= 1 ==> p.minFilter != LINEAR_MIPMAP_NEAREST && p.minFilter != LINEAR_MIPMAP_LINEAR)
      && (mipLevel <= 1 ==> (p.minFilter == s.glMinFilter <==> s.glMinFilter != LINEAR_MIPMAP_NEAREST && s.glMinFilter != LINEAR_MIPMAP_LINEAR))
      && (IsMinFilter(s.glMinFilter) ==> IsMinFilter(p.minFilter) && (LinearMin(p.minFilter) <==> LinearMin(s.glMinFilter)))
  {
  }

  /**
   * As written, only the linear-mipmap filters are replaced for a single-level power-of-two
   * texture: a nearest-mipmap filter is applied to a texture that has no mipmaps.
   */
  lemma SingleLevelKeepsNearestMipmap(s: GPUSampler)
    requires s.glMinFilter == NEAREST_MIPMAP_NEAREST || s.glMinFilter == NEAREST_MIPMAP_LINEAR
    ensures Mipmapped(SamplerPolicy(true, 1, s).minFilter)
    ensures MinFilter(true, 1, s.glMinFilter) == NEAREST
  {
  }

  /**
   * The intended filter differs from the source's only where the finding lies: a power-of-two
   * texture of at most one level sampled through a nearest-mipmap filter.
   */
  lemma IntendedMinFilterDiffersOnlyThere(isPowerOf2: bool, mipLevel: nat, f: GLenum)
    requires IsMinFilter(f)
    ensures MinFilter(isPowerOf2, mipLevel, f) != MinFilterAsWritten(isPowerOf2, mipLevel, f) <==>
      isPowerOf2 && mipLevel <= 1 && (f == NEAREST_MIPMAP_NEAREST || f == NEAREST_MIPMAP_LINEAR)
  {
  }

  // ---------------------------------------------------------------- one texture unit

  /** The texture bound for a descriptor texture: its own, or the device's placeholder when it has none. */
  function Fallback(glTexture: Handle, nullTex: Handle): Handle {
    if glTexture.Some? then glTexture else nullTex
  }

  /** The binding and parameter calls a unit needs, in the source's order, before activation. */
  function UnitChanges(c: StateCache, t: TextureNative, p: SamplerParams, unit: int, nullTex: Handle): seq<GLCall>
    requires 0 <= unit < |c.glTexUnits|
  {
    Optional(c.glTexUnits[unit] != t.glTexture, BindTexture(t.glTarget, Fallback(t.glTexture, nullTex))) +
    Optional(t.glWrapS != p.wrapS, TexParameteri(t.glTarget, TEXTURE_WRAP_S, p.wrapS)) +
    Optional(t.glWrapT != p.wrapT, TexParameteri(t.glTarget, TEXTURE_WRAP_T, p.wrapT)) +
    Optional(t.glMinFilter != p.minFilter, TexParameteri(t.glTarget, TEXTURE_MIN_FILTER, p.minFilter)) +
    Optional(t.glMagFilter != p.magFilter, TexParameteri(t.glTarget, TEXTURE_MAG_FILTER, p.magFilter))
  }

  datatype UnitResult = UnitResult(cache: StateCache, native: TextureNative, calls: seq<GLCall>)

  /** `changes`, preceded by one `gl.activeTexture` for `unit` when there are changes and `active` is another unit. */
  function Lazy(active: int, unit: int, changes: seq<GLCall>): seq<GLCall> {
    Optional(changes != [] && active != unit, ActiveTexture(TEXTURE0 + unit)) + changes
  }

  /**
   * One unit: the changes it needs, activated lazily. Afterwards the unit's slot holds the texture
   * and the texture holds the parameters the policy chose.
   */
  function UnitStep(c: StateCache, t: TextureNative, info: TextureInfo, s: GPUSampler, unit: int, nullTex: Handle): (r: UnitResult)
    requires 0 <= unit < |c.glTexUnits|
    ensures |r.cache.glTexUnits| == |c.glTexUnits|
  {
    var p := SamplerPolicy(info.isPowerOf2, info.mipLevel, s);
    var changes := UnitChanges(c, t, p, unit, nullTex);
    UnitResult(
      c.(texUnit := if changes != [] then unit else c.texUnit, glTexUnits := c.glTexUnits[unit := t.glTexture]),
      t.(glWrapS := p.wrapS, glWrapT := p.wrapT, glMinFilter := p.minFilter, glMagFilter := p.magFilter),
      Lazy(c.texUnit, unit, changes))
  }

  /**
   * One of the source's checks: when `needed`, `call` is issued for `unit`, activating the unit
   * first unless it is the active one. After the calls of `done`, issued this way from `active`,
   * the calls are those of `done` and this check activated lazily.
   */
  method IssueIf(needed: bool, texUnit: int, calls: seq<GLCall>, unit: int, call: GLCall, ghost active: int, ghost done: seq<GLCall>)
    returns (texUnit2: int, calls2: seq<GLCall>, ghost done2: seq<GLCall>)
    requires calls == Lazy(active, unit, done) && texUnit == (if done != [] then unit else active)
    ensures done2 == done + Optional(needed, call)
    ensures texUnit2 == (if done2 != [] then unit else active) && calls2 == Lazy(active, unit, done2)
  {
    texUnit2, calls2, done2 := texUnit, calls, done;
    if needed {
      if texUnit != unit {
        calls2 := calls2 + [ActiveTexture(TEXTURE0 + unit)];
      }
      calls2 := calls2 + [call];
      texUnit2 := unit;
      done2 := done + [call];
      if done != [] {
        assert calls2 == Optional(active != unit, ActiveTexture(TEXTURE0 + unit)) + (done + [call]);
      }
    }
  }

  /** The source's two wrap checks for a texture on `unit`, after the calls of `done`. */
  method UpdateWraps(texUnit: int, calls: seq<GLCall>, t: TextureNative, p: SamplerParams, unit: int,
                     ghost active: int, ghost done: seq<GLCall>)
    returns (texUnit2: int, calls2: seq<GLCall>, native: TextureNative, ghost done2: seq<GLCall>)
    requires calls == Lazy(active, unit, done) && texUnit == (if done != [] then unit else active)
    ensures done2 == done + Optional(t.glWrapS != p.wrapS, TexParameteri(t.glTarget, TEXTURE_WRAP_S, p.wrapS))
                          + Optional(t.glWrapT != p.wrapT, TexParameteri(t.glTarget, TEXTURE_WRAP_T, p.wrapT))
    ensures texUnit2 == (if done2 != [] then unit else active) && calls2 == Lazy(active, unit, done2)
    ensures native == t.(glWrapS := p.wrapS, glWrapT := p.wrapT)
  {
    native := t;
    texUnit2, calls2, done2 := IssueIf(native.glWrapS != p.wrapS, texUnit, calls, unit,
                                       TexParameteri(t.glTarget, TEXTURE_WRAP_S, p.wrapS), active, done);
    native := native.(glWrapS := p.wrapS);
    texUnit2, calls2, done2 := IssueIf(native.glWrapT != p.wrapT, texUnit2, calls2, unit,
                                       TexParameteri(t.glTarget, TEXTURE_WRAP_T, p.wrapT), active, done2);
    native := native.(glWrapT := p.wrapT);
  }

  /** The source's two filter checks for a texture on `unit`, after the calls of `done`. */
  method UpdateFilters(texUnit: int, calls: seq<GLCall>, t: TextureNative, p: SamplerParams, unit: int,
                       ghost active: int, ghost done: seq<GLCall>)
    returns (texUnit2: int, calls2: seq<GLCall>, native: TextureNative, ghost done2: seq<GLCall>)
    requires calls == Lazy(active, unit, done) && texUnit == (if done != [] then unit else active)
    ensures done2 == done + Optional(t.glMinFilter != p.minFilter, TexParameteri(t.glTarget, TEXTURE_MIN_FILTER, p.minFilter))
                          + Optional(t.glMagFilter != p.magFilter, TexParameteri(t.glTarget, TEXTURE_MAG_FILTER, p.magFilter))
    ensures texUnit2 == (if done2 != [] then unit else active) && calls2 == Lazy(active, unit, done2)
    ensures native == t.(glMinFilter := p.minFilter, glMagFilter := p.magFilter)
  {
    native := t;
    texUnit2, calls2, done2 := IssueIf(native.glMinFilter != p.minFilter, texUnit, calls, unit,
                                       TexParameteri(t.glTarget, TEXTURE_MIN_FILTER, p.minFilter), active, done);
    native := native.(glMinFilter := p.minFilter);
    texUnit2, calls2, done2 := IssueIf(native.glMagFilter != p.magFilter, texUnit2, calls2, unit,
                                       TexParameteri(t.glTarget, TEXTURE_MAG_FILTER, p.magFilter), active, done2);
    native := native.(glMagFilter := p.magFilter);
  }

  /** The state the source's checks reach is the one UnitStep describes. */
  lemma UnitStepReached(c: StateCache, t: TextureNative, info: TextureInfo, s: GPUSampler, unit: int, nullTex: Handle,
                        done: seq<GLCall>, texUnit: int, calls: seq<GLCall>, native: TextureNative)
    requires 0 <= unit < |c.glTexUnits|
    requires var p := SamplerPolicy(info.isPowerOf2, info.mipLevel, s);
      && done == [] + Optional(c.glTexUnits[unit] != t.glTexture, BindTexture(t.glTarget, Fallback(t.glTexture, nullTex)))
                 + Optional(t.glWrapS != p.wrapS, TexParameteri(t.glTarget, TEXTURE_WRAP_S, p.wrapS))
                 + Optional(t.glWrapT != p.wrapT, TexParameteri(t.glTarget, TEXTURE_WRAP_T, p.wrapT))
                 + Optional(t.glMinFilter != p.minFilter, TexParameteri(t.glTarget, TEXTURE_MIN_FILTER, p.minFilter))
                 + Optional(t.glMagFilter != p.magFilter, TexParameteri(t.glTarget, TEXTURE_MAG_FILTER, p.magFilter))
      && native == t.(glWrapS := p.wrapS, glWrapT := p.wrapT, glMinFilter := p.minFilter, glMagFilter := p.magFilter)
    requires texUnit == (if done != [] then unit else c.texUnit) && calls == Lazy(c.texUnit, unit, done)
    ensures UnitResult(c.(texUnit := texUnit, glTexUnits := c.glTexUnits[unit := t.glTexture]), native, calls)
            == UnitStep(c, t, info, s, unit, nullTex)
  {
    var bind := Optional(c.glTexUnits[unit] != t.glTexture, BindTexture(t.glTarget, Fallback(t.glTexture, nullTex)));
    assert [] + bind == bind;
  }

  /** The source's sequence of checks for one unit, each activating the unit lazily. */
  method UpdateUnit(c: StateCache, t: TextureNative, info: TextureInfo, s: GPUSampler, unit: int, nullTex: Handle)
    returns (r: UnitResult)
    requires 0 <= unit < |c.glTexUnits|
    ensures r == UnitStep(c, t, info, s, unit, nullTex)
  {
    var p := SamplerPolicy(info.isPowerOf2, info.mipLevel, s);
    var texUnit, calls, native;
    ghost var done: seq<GLCall>;
    texUnit, calls, done := IssueIf(c.glTexUnits[unit] != t.glTexture, c.texUnit, [], unit,
                                    BindTexture(t.glTarget, Fallback(t.glTexture, nullTex)), c.texUnit, []);
    // Each parameter is written whether or not it differs: when it does not, the write changes nothing.
    texUnit, calls, native, done := UpdateWraps(texUnit, calls, t, p, unit, c.texUnit, done);
    ghost var wrapped := native;
    texUnit, calls, native, done := UpdateFilters(texUnit, calls, native, p, unit, c.texUnit, done);
    assert wrapped.glMinFilter == t.glMinFilter && wrapped.glMagFilter == t.glMagFilter && wrapped.glTarget == t.glTarget;
    UnitStepReached(c, t, info, s, unit, nullTex, done, texUnit, calls, native);
    r := UnitResult(c.(texUnit := texUnit, glTexUnits := c.glTexUnits[unit := t.glTexture]), native, calls);
  }

  /** A unit needs no call exactly when its slot holds the texture and the texture has the policy's parameters. */
  lemma UnitStepSilent(c: StateCache, t: TextureNative, info: TextureInfo, s: GPUSampler, unit: int, nullTex: Handle)
    requires 0 <= unit < |c.glTexUnits|
    ensures var p := SamplerPolicy(info.isPowerOf2, info.mipLevel, s);
      UnitStep(c, t, info, s, unit, nullTex).calls == [] <==>
        c.glTexUnits[unit] == t.glTexture && t.glWrapS == p.wrapS && t.glWrapT == p.wrapT &&
        t.glMinFilter == p.minFilter && t.glMagFilter == p.magFilter
  {
  }

  /** Lazy activation issues at most one `gl.activeTexture`, first, and only when another unit was active. */
  lemma LazyActivation(active: int, unit: int, changes: seq<GLCall>)
    requires forall i :: 0 <= i < |changes| ==> !changes[i].ActiveTexture?
    ensures var calls := Lazy(active, unit, changes);
      && (forall i :: 0 < i < |calls| ==> !calls[i].ActiveTexture?)
      && (calls != [] && calls[0].ActiveTexture? <==> changes != [] && active != unit)
      && (calls != [] && calls[0].ActiveTexture? ==> calls[0] == ActiveTexture(TEXTURE0 + unit) && calls[1..] == changes)
  {
    var calls := Lazy(active, unit, changes);
    if changes != [] && active != unit {
      assert calls == [ActiveTexture(TEXTURE0 + unit)] + changes;
      assert forall i :: 0 < i < |calls| ==> calls[i] == changes[i - 1];
    } else {
      assert calls == changes;
    }
  }

  /** Every change of a unit binds the texture's target or sets one of its parameters. */
  lemma UnitChangesKinds(c: StateCache, t: TextureNative, p: SamplerParams, unit: int, nullTex: Handle)
    requires 0 <= unit < |c.glTexUnits|
    ensures var changes := UnitChanges(c, t, p, unit, nullTex);
      forall i :: 0 <= i < |changes| ==>
        (changes[i].BindTexture? || changes[i].TexParameteri?) && changes[i].target == t.glTarget
  {
    var changes := UnitChanges(c, t, p, unit, nullTex);
    forall i | 0 <= i < |changes|
      ensures (changes[i].BindTexture? || changes[i].TexParameteri?) && changes[i].target == t.glTarget
    {
      assert changes[i] in changes;
    }
  }

  /**
   * A unit issues at most one `gl.activeTexture`, first, for this unit and only when another unit
   * was active; every other call binds the texture's target or sets one of its parameters.
   */
  lemma UnitStepActivation(c: StateCache, t: TextureNative, info: TextureInfo, s: GPUSampler, unit: int, nullTex: Handle)
    requires 0 <= unit < |c.glTexUnits|
    ensures var calls := UnitStep(c, t, info, s, unit, nullTex).calls;
      && (forall i :: 0 < i < |calls| ==> !calls[i].ActiveTexture?)
      && (calls != [] && calls[0].ActiveTexture? <==> calls != [] && c.texUnit != unit)
      && (calls != [] && calls[0].ActiveTexture? ==> calls[0] == ActiveTexture(TEXTURE0 + unit))
  {
    var p := SamplerPolicy(info.isPowerOf2, info.mipLevel, s);
    UnitChangesKinds(c, t, p, unit, nullTex);
    LazyActivation(c.texUnit, unit, UnitChanges(c, t, p, unit, nullTex));
  }

  /** Binding the same texture and sampler to the unit again issues nothing and changes nothing. */
  lemma UnitStepRepeat(c: StateCache, t: TextureNative, info: TextureInfo, s: GPUSampler, unit: int, nullTex: Handle)
    requires 0 <= unit < |c.glTexUnits|
    ensures var r := UnitStep(c, t, info, s, unit, nullTex);
      UnitStep(r.cache, r.native, info, s, unit, nullTex) == UnitResult(r.cache, r.native, [])
  {
    var r := UnitStep(c, t, info, s, unit, nullTex);
    var p := SamplerPolicy(info.isPowerOf2, info.mipLevel, s);
    assert UnitChanges(r.cache, r.native, p, unit, nullTex) == [];
    assert r.cache.(glTexUnits := r.cache.glTexUnits[unit := r.native.glTexture]) == r.cache;
  }

  // ---------------------------------------------------------------- walking the descriptors

  /** One unit that finds a descriptor with a sampler. */
  datatype Visit = Visit(unit: int, desc: Descriptor)

  /**
   * The units of one sampler from `index` on: a unit without a descriptor, or whose descriptor
   * has no sampler, is skipped and keeps the index; every other unit takes the descriptor and
   * moves to the next one.
   */
  function UnitVisits(ds: Option<DescriptorSet>, index: Option<int>, units: seq<int>): (r: seq<Visit>)
    ensures |r| <= |units|
    decreases |units|
  {
    if |units| == 0 then []
    else
      var d := DescriptorOf(ds, index);
      if d.None? || d.value.gpuSampler.None? then UnitVisits(ds, index, units[1..])
      else [Visit(units[0], d.value)] + UnitVisits(ds, Some(index.value + 1), units[1..])
  }

  /** The k-th visit of `r` took descriptor `index + k`, one with a sampler, for one of `units`. */
  predicate Consecutive(r: seq<Visit>, ds: Option<DescriptorSet>, index: Option<int>, units: seq<int>) {
    r != [] ==>
      && ds.Some? && index.Some? && 0 <= index.value && index.value + |r| <= |ds.value.gpuDescriptors|
      && forall k :: 0 <= k < |r| ==>
           r[k].desc == ds.value.gpuDescriptors[index.value + k] && r[k].desc.gpuSampler.Some? && r[k].unit in units
  }

  /** The units take consecutive descriptors, from the binding's first one on. */
  lemma {:induction false} UnitVisitsConsecutive(ds: Option<DescriptorSet>, index: Option<int>, units: seq<int>)
    ensures Consecutive(UnitVisits(ds, index, units), ds, index, units)
    decreases |units|
  {
    if |units| > 0 {
      var d := DescriptorOf(ds, index);
      var r := UnitVisits(ds, index, units);
      if d.None? || d.value.gpuSampler.None? {
        UnitVisitsConsecutive(ds, index, units[1..]);
        assert r == UnitVisits(ds, index, units[1..]);
        forall k | 0 <= k < |r|
          ensures r[k].unit in units
        {
          assert r[k].unit in units[1..];
        }
      } else {
        var rest := UnitVisits(ds, Some(index.value + 1), units[1..]);
        UnitVisitsConsecutive(ds, Some(index.value + 1), units[1..]);
        assert r == [Visit(units[0], d.value)] + rest;
        forall k | 0 <= k < |r|
          ensures r[k].desc == ds.value.gpuDescriptors[index.value + k] && r[k].desc.gpuSampler.Some? && r[k].unit in units
        {
          if k > 0 {
            assert r[k] == rest[k - 1];
            assert rest[k - 1].unit in units[1..];
          }
        }
      }
    }
  }

  /** When every descriptor from `index` on has a sampler and there are enough of them, every unit is visited. */
  lemma {:induction false} UnitVisitsAll(ds: Option<DescriptorSet>, index: int, units: seq<int>)
    requires ds.Some? && 0 <= index && index + |units| <= |ds.value.gpuDescriptors|
    requires forall j :: index <= j < index + |units| ==> ds.value.gpuDescriptors[j].gpuSampler.Some?
    ensures var r := UnitVisits(ds, Some(index), units);
      |r| == |units| && forall k :: 0 <= k < |r| ==> r[k].unit == units[k]
    decreases |units|
  {
    if |units| > 0 {
      UnitVisitsAll(ds, index + 1, units[1..]);
      var r := UnitVisits(ds, Some(index), units);
      assert forall k :: 1 <= k < |r| ==> r[k] == UnitVisits(ds, Some(index + 1), units[1..])[k - 1];
    }
  }

  /** The units a sampler visits, from its binding's first descriptor. */
  function SamplerUnitVisits(s: GLSampler, sets: seq<Option<DescriptorSet>>): seq<Visit> {
    var ds := SetAt(sets, s.setIndex);
    UnitVisits(ds, IndexAt(ds, s.binding), s.units)
  }

  /** The visits of the samplers from the `i`-th on, in order. */
  function AllVisits(samplers: seq<GLSampler>, sets: seq<Option<DescriptorSet>>, i: nat): seq<Visit>
    requires i <= |samplers|
    decreases |samplers| - i
  {
    if i == |samplers| then [] else SamplerUnitVisits(samplers[i], sets) + AllVisits(samplers, sets, i + 1)
  }

  // ---------------------------------------------------------------- the whole sampler loop

  /** The device cache, the native half of every texture visited so far, and the calls issued. */
  datatype TextureState = TextureState(cache: StateCache, natives: map<GPUTexture, TextureNative>, calls: seq<GLCall>)

  /** A visit that touches its texture: the descriptor has one, of non-zero size. */
  predicate Binds(v: Visit, infos: map<GPUTexture, TextureInfo>) {
    v.desc.gpuSampler.Some? && v.desc.gpuTexture != null && v.desc.gpuTexture in infos && infos[v.desc.gpuTexture].size > 0
  }

  /** Every touching visit names a unit below `n`. */
  predicate UnitsInRange(vs: seq<Visit>, infos: map<GPUTexture, TextureInfo>, n: int) {
    forall k :: 0 <= k < |vs| && Binds(vs[k], infos) ==> 0 <= vs[k].unit < n
  }

  /** A visit a state can run: a touching visit names a unit with a slot and a texture the state knows. */
  predicate StepBound(v: Visit, infos: map<GPUTexture, TextureInfo>, units: int, keys: set<GPUTexture>) {
    Binds(v, infos) ==> 0 <= v.unit < units && v.desc.gpuTexture in keys
  }

  predicate VisitsBound(vs: seq<Visit>, infos: map<GPUTexture, TextureInfo>, units: int, keys: set<GPUTexture>) {
    forall k :: 0 <= k < |vs| ==> StepBound(vs[k], infos, units, keys)
  }

  /** One visit: a touching visit runs its unit step on its texture's latest native state. */
  function VisitStep(v: Visit, infos: map<GPUTexture, TextureInfo>, st: TextureState, nullTex: Handle): (r: TextureState)
    requires StepBound(v, infos, |st.cache.glTexUnits|, st.natives.Keys)
    ensures |r.cache.glTexUnits| == |st.cache.glTexUnits| && r.natives.Keys == st.natives.Keys
    ensures forall t :: t in st.natives ==> r.natives[t].glTexture == st.natives[t].glTexture
  {
    if !Binds(v, infos) then st
    else
      var t := v.desc.gpuTexture;
      var u := UnitStep(st.cache, st.natives[t], infos[t], v.desc.gpuSampler.value, v.unit, nullTex);
      TextureState(u.cache, st.natives[t := u.native], st.calls + u.calls)
  }

  /** The state after running the visits `vs`, in order. */
  function Visited(vs: seq<Visit>, infos: map<GPUTexture, TextureInfo>, st: TextureState, nullTex: Handle): (r: TextureState)
    requires VisitsBound(vs, infos, |st.cache.glTexUnits|, st.natives.Keys)
    ensures |r.cache.glTexUnits| == |st.cache.glTexUnits| && r.natives.Keys == st.natives.Keys
    ensures forall t :: t in st.natives ==> r.natives[t].glTexture == st.natives[t].glTexture
    decreases |vs|
  {
    if vs == [] then st
    else
      assert StepBound(vs[0], infos, |st.cache.glTexUnits|, st.natives.Keys);
      assert VisitsBound(vs[1..], infos, |st.cache.glTexUnits|, st.natives.Keys) by {
        forall k | 0 <= k < |vs| - 1 ensures StepBound(vs[1..][k], infos, |st.cache.glTexUnits|, st.natives.Keys) {
          assert vs[1..][k] == vs[k + 1];
        }
      }
      Visited(vs[1..], infos, VisitStep(vs[0], infos, st, nullTex), nullTex)
  }

  /**
   * The visits change only the active unit and the unit slots of the cache, and leave the active
   * unit one with a slot.
   */
  lemma {:induction false} VisitedCache(vs: seq<Visit>, infos: map<GPUTexture, TextureInfo>, st: TextureState, nullTex: Handle)
    requires VisitsBound(vs, infos, |st.cache.glTexUnits|, st.natives.Keys)
    requires 0 <= st.cache.texUnit < |st.cache.glTexUnits|
    ensures var r := Visited(vs, infos, st, nullTex);
      && r.cache == st.cache.(texUnit := r.cache.texUnit, glTexUnits := r.cache.glTexUnits)
      && 0 <= r.cache.texUnit < |r.cache.glTexUnits|
    decreases |vs|
  {
    if vs != [] {
      var n, keys := |st.cache.glTexUnits|, st.natives.Keys;
      assert StepBound(vs[0], infos, n, keys);
      var st1 := VisitStep(vs[0], infos, st, nullTex);
      assert VisitsBound(vs[1..], infos, n, keys) by {
        forall k | 0 <= k < |vs| - 1 ensures StepBound(vs[1..][k], infos, n, keys) {
          assert vs[1..][k] == vs[k + 1];
        }
      }
      VisitedCache(vs[1..], infos, st1, nullTex);
    }
  }

  /** Running two lists of visits is running their concatenation. */
  lemma {:induction false} VisitedConcat(a: seq<Visit>, b: seq<Visit>, infos: map<GPUTexture, TextureInfo>, st: TextureState, nullTex: Handle)
    requires VisitsBound(a + b, infos, |st.cache.glTexUnits|, st.natives.Keys)
    ensures VisitsBound(a, infos, |st.cache.glTexUnits|, st.natives.Keys)
    ensures VisitsBound(b, infos, |st.cache.glTexUnits|, st.natives.Keys)
    ensures Visited(a + b, infos, st, nullTex) == Visited(b, infos, Visited(a, infos, st, nullTex), nullTex)
    decreases |a|
  {
    var n, keys := |st.cache.glTexUnits|, st.natives.Keys;
    assert forall k :: 0 <= k < |a| ==> (a + b)[k] == a[k];
    assert forall k :: 0 <= k < |b| ==> (a + b)[|a| + k] == b[k];
    if a != [] {
      assert (a + b)[1..] == a[1..] + b;
      assert (a + b)[0] == a[0];
      var st1 := VisitStep(a[0], infos, st, nullTex);
      assert VisitsBound(a[1..] + b, infos, n, keys) by {
        forall k | 0 <= k < |a[1..] + b| ensures StepBound((a[1..] + b)[k], infos, n, keys) {
          assert (a[1..] + b)[k] == (a + b)[k + 1];
        }
      }
      VisitedConcat(a[1..], b, infos, st1, nullTex);
    } else {
      assert a + b == b;
    }
  }

  /**
   * What unit `u` holds after the visits: the native texture of the last visit that touches its
   * texture through `u`, or `slot` when none does.
   */
  function LastOnUnit(vs: seq<Visit>, infos: map<GPUTexture, TextureInfo>, natives: map<GPUTexture, TextureNative>,
                      u: int, slot: Handle): Handle
    decreases |vs|
  {
    if vs == [] then slot
    else
      var v := vs[0];
      LastOnUnit(vs[1..], infos, natives, u,
        if Binds(v, infos) && v.unit == u && v.desc.gpuTexture in natives then natives[v.desc.gpuTexture].glTexture else slot)
  }

  /** After the visits every unit holds the texture the last visit through it bound, and no other slot changes. */
  lemma {:induction false} VisitedSlot(vs: seq<Visit>, infos: map<GPUTexture, TextureInfo>, st: TextureState, nullTex: Handle, u: int)
    requires VisitsBound(vs, infos, |st.cache.glTexUnits|, st.natives.Keys)
    requires 0 <= u < |st.cache.glTexUnits|
    ensures Visited(vs, infos, st, nullTex).cache.glTexUnits[u] == LastOnUnit(vs, infos, st.natives, u, st.cache.glTexUnits[u])
    decreases |vs|
  {
    if vs != [] {
      VisitedCons(vs[0], vs[1..], infos, st, nullTex);
      assert [vs[0]] + vs[1..] == vs;
      var st1 := VisitStep(vs[0], infos, st, nullTex);
      VisitedSlot(vs[1..], infos, st1, nullTex, u);
      var v := vs[0];
      if Binds(v, infos) && v.unit == u {
        assert st1.cache.glTexUnits[u] == st.natives[v.desc.gpuTexture].glTexture;
      } else {
        assert st1.cache.glTexUnits[u] == st.cache.glTexUnits[u];
      }
      assert LastOnUnit(vs[1..], infos, st1.natives, u, st1.cache.glTexUnits[u])
          == LastOnUnit(vs[1..], infos, st.natives, u, st1.cache.glTexUnits[u]) by {
        LastOnUnitNatives(vs[1..], infos, st.natives, st1.natives, u, st1.cache.glTexUnits[u]);
      }
    }
  }

  /** `LastOnUnit` reads only the native textures' handles. */
  lemma {:induction false} LastOnUnitNatives(vs: seq<Visit>, infos: map<GPUTexture, TextureInfo>,
                                             n1: map<GPUTexture, TextureNative>, n2: map<GPUTexture, TextureNative>, u: int, slot: Handle)
    requires n1.Keys == n2.Keys && forall t :: t in n1 ==> n1[t].glTexture == n2[t].glTexture
    ensures LastOnUnit(vs, infos, n1, u, slot) == LastOnUnit(vs, infos, n2, u, slot)
    decreases |vs|
  {
    if vs != [] {
      var v := vs[0];
      LastOnUnitNatives(vs[1..], infos, n1, n2, u,
        if Binds(v, infos) && v.unit == u && v.desc.gpuTexture in n1 then n1[v.desc.gpuTexture].glTexture else slot);
    }
  }

  /** The policy the last visit that touches `t` applies, or `params` when none does. */
  function LastPolicy(vs: seq<Visit>, infos: map<GPUTexture, TextureInfo>, t: GPUTexture, params: SamplerParams): SamplerParams
    decreases |vs|
  {
    if vs == [] then params
    else
      var v := vs[0];
      LastPolicy(vs[1..], infos, t,
        if Binds(v, infos) && v.desc.gpuTexture == t
        then SamplerPolicy(infos[t].isPowerOf2, infos[t].mipLevel, v.desc.gpuSampler.value) else params)
  }

  function ParamsOf(n: TextureNative): SamplerParams {
    SamplerParams(n.glWrapS, n.glWrapT, n.glMinFilter, n.glMagFilter)
  }

  /** After the visits every texture carries the parameters of the last sampler it was visited with. */
  lemma {:induction false} VisitedParams(vs: seq<Visit>, infos: map<GPUTexture, TextureInfo>, st: TextureState, nullTex: Handle, t: GPUTexture)
    requires VisitsBound(vs, infos, |st.cache.glTexUnits|, st.natives.Keys)
    requires t in st.natives
    ensures ParamsOf(Visited(vs, infos, st, nullTex).natives[t]) == LastPolicy(vs, infos, t, ParamsOf(st.natives[t]))
    decreases |vs|
  {
    if vs != [] {
      VisitedCons(vs[0], vs[1..], infos, st, nullTex);
      assert [vs[0]] + vs[1..] == vs;
      var st1 := VisitStep(vs[0], infos, st, nullTex);
      VisitedParams(vs[1..], infos, st1, nullTex, t);
    }
  }

  /** The source's handling of one visited unit. */
  method ApplyVisit(v: Visit, infos: map<GPUTexture, TextureInfo>, st: TextureState, nullTex: Handle) returns (r: TextureState)
    requires StepBound(v, infos, |st.cache.glTexUnits|, st.natives.Keys)
    ensures r == VisitStep(v, infos, st, nullTex)
  {
    r := st;
    if v.desc.gpuSampler.Some? && v.desc.gpuTexture != null && v.desc.gpuTexture in infos && infos[v.desc.gpuTexture].size > 0 {
      var t := v.desc.gpuTexture;
      var u := UpdateUnit(st.cache, st.natives[t], infos[t], v.desc.gpuSampler.value, v.unit, nullTex);
      r := TextureState(u.cache, st.natives[t := u.native], st.calls + u.calls);
    }
  }

  /** The inner loop's view of `UnitVisits`: one unit at a time, from the `l`-th. */
  lemma UnitVisitsAt(ds: Option<DescriptorSet>, index: Option<int>, units: seq<int>, l: nat)
    requires l < |units|
    ensures var d := DescriptorOf(ds, index);
      UnitVisits(ds, index, units[l..]) ==
        if d.None? || d.value.gpuSampler.None? then UnitVisits(ds, index, units[l + 1..])
        else [Visit(units[l], d.value)] + UnitVisits(ds, Some(index.value + 1), units[l + 1..])
  {
    assert units[l..][1..] == units[l + 1..];
  }

  /** Running one visit and then the rest. */
  lemma VisitedCons(v: Visit, rest: seq<Visit>, infos: map<GPUTexture, TextureInfo>, st: TextureState, nullTex: Handle)
    requires VisitsBound([v] + rest, infos, |st.cache.glTexUnits|, st.natives.Keys)
    ensures StepBound(v, infos, |st.cache.glTexUnits|, st.natives.Keys)
    ensures VisitsBound(rest, infos, |st.cache.glTexUnits|, st.natives.Keys)
    ensures Visited([v] + rest, infos, st, nullTex) == Visited(rest, infos, VisitStep(v, infos, st, nullTex), nullTex)
  {
    assert ([v] + rest)[0] == v;
    assert ([v] + rest)[1..] == rest;
    assert forall k :: 0 <= k < |rest| ==> rest[k] == ([v] + rest)[k + 1];
  }

  /** The source's loop over one sampler's units, from descriptor `index0` on: it runs the visits `UnitVisits` lists. */
  method WalkUnits(ds: Option<DescriptorSet>, index0: Option<int>, units: seq<int>, infos: map<GPUTexture, TextureInfo>,
                   stIn: TextureState, nullTex: Handle) returns (st: TextureState)
    requires VisitsBound(UnitVisits(ds, index0, units), infos, |stIn.cache.glTexUnits|, stIn.natives.Keys)
    ensures st == Visited(UnitVisits(ds, index0, units), infos, stIn, nullTex)
  {
    ghost var n, keys := |stIn.cache.glTexUnits|, stIn.natives.Keys;
    st := stIn;
    var index := index0;
    assert units[0..] == units;
    var l := 0;
    while l < |units|
      invariant l <= |units|
      invariant |st.cache.glTexUnits| == n && st.natives.Keys == keys
      invariant VisitsBound(UnitVisits(ds, index, units[l..]), infos, n, keys)
      invariant Visited(UnitVisits(ds, index, units[l..]), infos, st, nullTex) == Visited(UnitVisits(ds, index0, units), infos, stIn, nullTex)
    {
      var d := DescriptorOf(ds, index);
      UnitVisitsAt(ds, index, units, l);
      if d.Some? && d.value.gpuSampler.Some? {
        var v := Visit(units[l], d.value);
        VisitedCons(v, UnitVisits(ds, Some(index.value + 1), units[l + 1..]), infos, st, nullTex);
        st := ApplyVisit(v, infos, st, nullTex);
        index := Some(index.value + 1);
      }
      l := l + 1;
    }
  }

  /**
   * The source's loop over the shader's samplers, each starting from its binding's first
   * descriptor: together they run exactly the visits `AllVisits` lists.
   */
  method WalkSamplers(samplers: seq<GLSampler>, sets: seq<Option<DescriptorSet>>, infos: map<GPUTexture, TextureInfo>,
                      st0: TextureState, nullTex: Handle) returns (st: TextureState)
    requires VisitsBound(AllVisits(samplers, sets, 0), infos, |st0.cache.glTexUnits|, st0.natives.Keys)
    ensures st == Visited(AllVisits(samplers, sets, 0), infos, st0, nullTex)
  {
    ghost var n, keys := |st0.cache.glTexUnits|, st0.natives.Keys;
    st := st0;
    var i := 0;
    while i < |samplers|
      invariant i <= |samplers|
      invariant |st.cache.glTexUnits| == n && st.natives.Keys == keys
      invariant VisitsBound(AllVisits(samplers, sets, i), infos, n, keys)
      invariant Visited(AllVisits(samplers, sets, i), infos, st, nullTex) == Visited(AllVisits(samplers, sets, 0), infos, st0, nullTex)
    {
      var ds := SetAt(sets, samplers[i].setIndex);
      var index := IndexAt(ds, samplers[i].binding);
      VisitedConcat(UnitVisits(ds, index, samplers[i].units), AllVisits(samplers, sets, i + 1), infos, st, nullTex);
      st := WalkUnits(ds, index, samplers[i].units, infos, st, nullTex);
      i := i + 1;
    }
  }

  /** Every texture some visit's descriptor holds. */
  function VisitTextures(vs: seq<Visit>): set<GPUTexture> {
    set k | 0 <= k < |vs| && vs[k].desc.gpuTexture != null :: vs[k].desc.gpuTexture
  }

  function InfosOf(ts: set<GPUTexture>): map<GPUTexture, TextureInfo>
    reads ts
  {
    map t | t in ts :: t.info
  }

  function NativesOf(ts: set<GPUTexture>): map<GPUTexture, TextureNative>
    reads ts
  {
    map t | t in ts :: t.native
  }

  /** Visits whose touching units are in range can all run on a state that knows every visited texture. */
  lemma VisitsInRangeBound(vs: seq<Visit>, infos: map<GPUTexture, TextureInfo>, n: int, natives: map<GPUTexture, TextureNative>)
    requires UnitsInRange(vs, infos, n) && natives.Keys == VisitTextures(vs)
    ensures VisitsBound(vs, infos, n, natives.Keys)
  {
    forall k | 0 <= k < |vs| && Binds(vs[k], infos)
      ensures 0 <= vs[k].unit < n && vs[k].desc.gpuTexture in natives
    {
      assert vs[k].desc.gpuTexture in VisitTextures(vs);
    }
  }

  /** The device takes the cache and the calls of the visits, and every texture the native state they left it in. */
  method Install(dev: WebGLDevice, ts: set<GPUTexture>, r: TextureState)
    requires ts <= r.natives.Keys
    modifies dev, ts
    ensures dev.cache == r.cache && dev.trace == old(dev.trace) + r.calls
    ensures forall t :: t in ts ==> t.native == r.natives[t] && t.info == old(t.info)
    ensures dev.gfx == old(dev.gfx) && dev.log == old(dev.log)
    ensures dev.realRenderArea == old(dev.realRenderArea) && dev.staging == old(dev.staging)
  {
    dev.cache := r.cache;
    dev.trace := dev.trace + r.calls;
    forall t | t in ts {
      t.native := r.natives[t];
    }
  }

  /**
   * The sampler-texture half of the descriptor binding for the samplers of a shader: the cache,
   * the native trace and every texture end as the visits leave them.
   */
  method BindSamplers(dev: WebGLDevice, samplers: seq<GLSampler>, sets: seq<Option<DescriptorSet>>)
    requires var ts := VisitTextures(AllVisits(samplers, sets, 0));
      UnitsInRange(AllVisits(samplers, sets, 0), InfosOf(ts), |dev.cache.glTexUnits|)
    modifies dev, VisitTextures(AllVisits(samplers, sets, 0))
    ensures var vs := AllVisits(samplers, sets, 0);
      var ts := VisitTextures(vs);
      var r := Visited(vs, old(InfosOf(ts)), TextureState(old(dev.cache), old(NativesOf(ts)), []), dev.nullTex2D);
      && dev.cache == r.cache && dev.trace == old(dev.trace) + r.calls
      && (forall t :: t in ts ==> t.native == r.natives[t] && t.info == old(t.info))
    ensures old(dev.Valid()) ==> dev.Valid()
    ensures dev.gfx == old(dev.gfx) && dev.log == old(dev.log)
    ensures dev.realRenderArea == old(dev.realRenderArea) && dev.staging == old(dev.staging)
  {
    ghost var vs := AllVisits(samplers, sets, 0);
    var ts := VisitTextures(AllVisits(samplers, sets, 0));
    var infos, natives := InfosOf(ts), NativesOf(ts);
    var st0 := TextureState(dev.cache, natives, []);
    VisitsInRangeBound(vs, infos, |st0.cache.glTexUnits|, natives);
    var r := WalkSamplers(samplers, sets, infos, st0, dev.nullTex2D);
    if dev.Valid() {
      VisitedCache(vs, infos, st0, dev.nullTex2D);
    }
    Install(dev, ts, r);
  }

}

/**
 * What WebGLCmdFuncCreateShader derives from a linked program: vertex inputs, uniform blocks
 * with their active members and offsets, and sampler textures with their texture units.
 */
module ShaderReflection {
  import opened Wrappers
  import opened GL
  import opened Formats
  import opened JsInt
  import opened Objects
  import opened TextureUnits

  /** One answer of getActiveAttrib / getActiveUniform. */
  datatype ActiveInfo = ActiveInfo(name: string, glType: GLenum, size: nat)

  // ---------------------------------------------------------------- names

  /** A reflected name without its array suffix: everything before the first '['. */
  function VarName(name: string): (r: string)
    ensures r <= name && '[' !in r
    ensures |r| < |name| ==> name[|r|] == '['
  {
    if |name| == 0 || name[0] == '[' then [] else [name[0]] + VarName(name[1..])
  }

  /** A name without '[' is its own variable name. */
  lemma VarNamePlain(name: string)
    requires '[' !in name
    ensures VarName(name) == name
  {
  }

  // ---------------------------------------------------------------- vertex inputs

  function ReflectInput(info: ActiveInfo, attribLocation: string -> int): GLInput {
    var name := VarName(info.name);
    var loc := attribLocation(name);
    var stride := GLTypeSize(info.glType).value;
    GLInput(loc, name, GLTypeToType(info.glType), stride, info.size, stride * info.size, info.glType, loc)
  }

  /** One input per active attribute index; an index the driver reports nothing for stays empty. */
  function ReflectInputs(attribs: seq<Option<ActiveInfo>>, attribLocation: string -> int): seq<Option<GLInput>> {
    seq(|attribs|, i requires 0 <= i < |attribs| =>
      if attribs[i].Some? then Some(ReflectInput(attribs[i].value, attribLocation)) else None)
  }

  // ---------------------------------------------------------------- uniform blocks

  function ShellUniform(u: Uniform): GLUniform {
    var glType := TypeToGLType(u.uType).value;
    var stride := GLTypeSize(glType).value;
    GLUniform(-1, u.name, u.uType, stride, u.count, stride * u.count, 0, glType, None, [], TypeToArrayKind(u.uType).0)
  }

  /** A block as first built: every member, none of them active yet, size 0. */
  function ShellBlock(b: UniformBlock): GLBlock {
    GLBlock(b.setIndex, b.binding, b.name, 0,
            seq(|b.members|, u requires 0 <= u < |b.members| => ShellUniform(b.members[u])), [])
  }

  function ShellBlocks(blocks: seq<UniformBlock>): seq<GLBlock> {
    seq(|blocks|, i requires 0 <= i < |blocks| => ShellBlock(blocks[i]))
  }

  /** The first member with the given name. */
  function FirstNamed(us: seq<GLUniform>, name: string, from: nat): (r: Option<nat>)
    ensures r.Some? ==> from <= r.value < |us| && us[r.value].name == name &&
                        forall j :: from <= j < r.value ==> us[j].name != name
    ensures r.None? ==> forall j :: from <= j < |us| ==> us[j].name != name
    decreases |us| - from
  {
    if from >= |us| then None
    else if us[from].name == name then Some(from)
    else FirstNamed(us, name, from + 1)
  }

  /** A member the program uses: its location, its real array size, and a zeroed CPU mirror. */
  function Activated(u: GLUniform, loc: Handle, count: nat): GLUniform {
    u.(glLoc := loc, count := count, size := u.stride * count,
       values := seq(u.stride * count / 4, i => 0.0), arrayKind := TypeToArrayKind(u.uType).0)
  }

  function ActivateInBlock(b: GLBlock, name: string, loc: Handle, count: nat): GLBlock {
    match FirstNamed(b.glUniforms, name, 0)
    case None => b
    case Some(k) =>
      b.(glUniforms := b.glUniforms[k := Activated(b.glUniforms[k], loc, count)],
         glActiveUniforms := b.glActiveUniforms + [k])
  }

  predicate IsSamplerType(glType: GLenum) {
    glType == SAMPLER_2D || glType == SAMPLER_CUBE
  }

  /** One active uniform: unless it is a sampler or has no location, it activates its member in every block. */
  function ActivateUniform(bs: seq<GLBlock>, info: ActiveInfo, uniformLocation: string -> Handle): seq<GLBlock> {
    var loc := uniformLocation(info.name);
    if IsSamplerType(info.glType) || loc.None? then bs
    else seq(|bs|, j requires 0 <= j < |bs| => ActivateInBlock(bs[j], VarName(info.name), loc, info.size))
  }

  /** The active uniforms from index `i` on. */
  function ActivateFrom(bs: seq<GLBlock>, infos: seq<Option<ActiveInfo>>, uniformLocation: string -> Handle, i: nat)
    : seq<GLBlock>
    decreases |infos| - i
  {
    if i >= |infos| then bs
    else ActivateFrom(if infos[i].Some? then ActivateUniform(bs, infos[i].value, uniformLocation) else bs,
                      infos, uniformLocation, i + 1)
  }

  /** The source's loop over the active uniforms. */
  method ActivateUniforms(bs: seq<GLBlock>, infos: seq<Option<ActiveInfo>>, uniformLocation: string -> Handle)
    returns (r: seq<GLBlock>)
    ensures r == ActivateFrom(bs, infos, uniformLocation, 0)
  {
    r := bs;
    var i := 0;
    while i < |infos|
      invariant 0 <= i <= |infos|
      invariant ActivateFrom(r, infos, uniformLocation, i) == ActivateFrom(bs, infos, uniformLocation, 0)
    {
      if infos[i].Some? {
        r := ActivateUniform(r, infos[i].value, uniformLocation);
      }
      i := i + 1;
    }
  }

  /**
   * A well-formed block: active positions index real members, every member's size is its stride
   * times its count, both multiples of 4 bytes, and an active member has a location and a mirror
   * of size / 4 elements.
   */
  predicate Located(b: GLBlock) {
    b.Valid() &&
    (forall k :: 0 <= k < |b.glUniforms| ==>
      var u := b.glUniforms[k];
      u.size == u.stride * u.count && u.stride % 4 == 0 && u.size % 4 == 0) &&
    (forall i :: 0 <= i < |b.glActiveUniforms| ==>
      var u := b.glUniforms[b.glActiveUniforms[i]];
      u.glLoc.Some? && |u.values| == u.size / 4)
  }

  /** Same members by name and stride, in the same order. */
  predicate SameMembers(b: GLBlock, b': GLBlock) {
    |b.glUniforms| == |b'.glUniforms| &&
    b'.setIndex == b.setIndex && b'.binding == b.binding && b'.name == b.name && b'.size == b.size &&
    forall k :: 0 <= k < |b.glUniforms| ==>
      b'.glUniforms[k].name == b.glUniforms[k].name && b'.glUniforms[k].stride == b.glUniforms[k].stride
  }

  lemma MulMod4(a: nat, b: nat)
    requires a % 4 == 0
    ensures (a * b) % 4 == 0
  {
    var q := a / 4;
    assert a * b == 4 * (q * b);
  }

  lemma ShellLocated(b: UniformBlock)
    ensures Located(ShellBlock(b))
  {
    var s := ShellBlock(b);
    forall k | 0 <= k < |s.glUniforms|
      ensures s.glUniforms[k].size % 4 == 0
    {
      MulMod4(s.glUniforms[k].stride, s.glUniforms[k].count);
    }
  }

  lemma ActivateInBlockLocated(b: GLBlock, name: string, loc: Handle, count: nat)
    requires Located(b) && loc.Some?
    ensures Located(ActivateInBlock(b, name, loc, count)) && SameMembers(b, ActivateInBlock(b, name, loc, count))
  {
    match FirstNamed(b.glUniforms, name, 0)
    case None =>
    case Some(k) =>
      var u := b.glUniforms[k];
      MulMod4(u.stride, count);
      var b' := ActivateInBlock(b, name, loc, count);
      assert b'.glUniforms[k] == Activated(u, loc, count);
  }

  /**
   * Matching the active uniforms keeps every block well formed and its members in place: each
   * member listed as active has a location and a zeroed mirror of the right length.
   */
  lemma {:induction false} ActivationKeepsLocated(bs: seq<GLBlock>, infos: seq<Option<ActiveInfo>>,
                                                 uniformLocation: string -> Handle, i: nat)
    requires forall j :: 0 <= j < |bs| ==> Located(bs[j])
    ensures var r := ActivateFrom(bs, infos, uniformLocation, i);
      |r| == |bs| && forall j :: 0 <= j < |r| ==> Located(r[j]) && SameMembers(bs[j], r[j])
    decreases |infos| - i
  {
    if i < |infos| {
      var bs' := if infos[i].Some? then ActivateUniform(bs, infos[i].value, uniformLocation) else bs;
      if infos[i].Some? {
        var info := infos[i].value;
        var loc := uniformLocation(info.name);
        if !IsSamplerType(info.glType) && loc.Some? {
          forall j | 0 <= j < |bs| ensures Located(bs'[j]) && SameMembers(bs[j], bs'[j]) {
            ActivateInBlockLocated(bs[j], VarName(info.name), loc, info.size);
          }
        }
      }
      ActivationKeepsLocated(bs', infos, uniformLocation, i + 1);
    }
  }

  // ---------------------------------------------------------------- offsets

  /** Bytes taken by the first `k` members. */
  function PrefixSize(us: seq<GLUniform>, k: nat): nat
    requires k <= |us|
  {
    if k == 0 then 0 else PrefixSize(us, k - 1) + us[k - 1].size
  }

  /** The laid-out block: member k at offset (in floats) of the bytes before it, and the block size the total. */
  function Laid(b: GLBlock): GLBlock {
    var us := b.glUniforms;
    b.(size := b.size + PrefixSize(us, |us|),
       glUniforms := seq(|us|, k requires 0 <= k < |us| => us[k].(offset := (b.size + PrefixSize(us, k)) / 4)))
  }

  /** The source's offset loop over one block's members. */
  method LayoutBlock(b: GLBlock) returns (r: GLBlock)
    ensures r == Laid(b)
  {
    ghost var laid := Laid(b).glUniforms;
    var members := b.glUniforms;
    var size := b.size;
    var us := members;
    var k := 0;
    while k < |members|
      invariant 0 <= k <= |members| && |us| == |members|
      invariant size == b.size + PrefixSize(members, k)
      invariant us[..k] == laid[..k] && us[k..] == members[k..]
    {
      var u := members[k];
      assert us[k] == u by { assert us[k..][0] == members[k..][0]; }
      us := us[k := u.(offset := size / 4)];
      size := size + u.size;
      k := k + 1;
      assert us[..k] == laid[..k] by { assert us[..k] == us[..k - 1] + [us[k - 1]]; }
    }
    assert us == laid by { assert us == us[..k] && laid == laid[..k]; }
    r := b.(size := size, glUniforms := us);
  }

  function LaidAll(bs: seq<GLBlock>): seq<GLBlock> {
    seq(|bs|, j requires 0 <= j < |bs| => Laid(bs[j]))
  }

  method LayoutBlocks(bs: seq<GLBlock>) returns (r: seq<GLBlock>)
    ensures r == LaidAll(bs)
  {
    r := bs;
    var j := 0;
    while j < |bs|
      invariant 0 <= j <= |bs| == |r|
      invariant forall i :: 0 <= i < |bs| ==> r[i] == if i < j then Laid(bs[i]) else bs[i]
    {
      var laid := LayoutBlock(r[j]);
      r := r[j := laid];
      j := j + 1;
    }
  }

  /**
   * Offsets tile the block: with member sizes in whole floats, each member starts where the
   * previous one ends, and the last one ends at the block's size.
   */
  lemma OffsetsTile(b: GLBlock, k: nat)
    requires b.size % 4 == 0 && forall j :: 0 <= j < |b.glUniforms| ==> b.glUniforms[j].size % 4 == 0
    requires k < |b.glUniforms|
    ensures var l := Laid(b).glUniforms;
      l[k].offset * 4 == b.size + PrefixSize(b.glUniforms, k) &&
      (k + 1 < |l| ==> l[k + 1].offset == l[k].offset + l[k].size / 4) &&
      (k + 1 == |l| ==> l[k].offset + l[k].size / 4 == Laid(b).size / 4)
  {
    PrefixAligned(b.glUniforms, k + 1);
  }

  lemma {:induction false} PrefixAligned(us: seq<GLUniform>, k: nat)
    requires k <= |us| && forall j :: 0 <= j < |us| ==> us[j].size % 4 == 0
    ensures PrefixSize(us, k) % 4 == 0
  {
    if k > 0 {
      PrefixAligned(us, k - 1);
    }
  }

  // ---------------------------------------------------------------- stripping unused blocks

  predicate IsActive(b: GLBlock) {
    |b.glActiveUniforms| > 0
  }

  /** The source's swap-remove loop from index `i`: an unused block is replaced by the last one. */
  function Strip(bs: seq<GLBlock>, i: nat): seq<GLBlock>
    decreases |bs| - i
  {
    if i >= |bs| then bs
    else if IsActive(bs[i]) then Strip(bs, i + 1)
    else Strip(bs[i := bs[|bs| - 1]][..|bs| - 1], i)
  }

  method StripInactive(bs: seq<GLBlock>) returns (r: seq<GLBlock>)
    ensures r == Strip(bs, 0)
  {
    r := bs;
    var i := 0;
    while i < |r|
      invariant 0 <= i <= |r|
      invariant Strip(r, i) == Strip(bs, 0)
      decreases |r| - i
    {
      if IsActive(r[i]) {
        i := i + 1;
      } else {
        r := r[i := r[|r| - 1]][..|r| - 1];
      }
    }
  }

  /** The used blocks, in order. */
  function ActiveBlocks(bs: seq<GLBlock>): seq<GLBlock> {
    if |bs| == 0 then [] else ActiveBlocks(bs[..|bs| - 1]) + (if IsActive(bs[|bs| - 1]) then [bs[|bs| - 1]] else [])
  }

  lemma {:induction false} ActiveBlocksConcat(a: seq<GLBlock>, b: seq<GLBlock>)
    ensures ActiveBlocks(a + b) == ActiveBlocks(a) + ActiveBlocks(b)
    decreases |b|
  {
    if |b| == 0 {
      assert a + b == a;
    } else {
      assert (a + b)[..|a + b| - 1] == a + b[..|b| - 1];
      ActiveBlocksConcat(a, b[..|b| - 1]);
    }
  }

  lemma {:induction false} ActiveBlocksAll(bs: seq<GLBlock>)
    requires forall j :: 0 <= j < |bs| ==> IsActive(bs[j])
    ensures ActiveBlocks(bs) == bs
    decreases |bs|
  {
    if |bs| > 0 {
      ActiveBlocksAll(bs[..|bs| - 1]);
    }
  }

  lemma ActiveBlocksUnused(x: GLBlock)
    requires !IsActive(x)
    ensures ActiveBlocks([x]) == []
  {
    assert [x][..0] == [];
  }

  /** Dropping an unused block and moving the last one into its place keeps the used blocks. */
  lemma Rearranged(a: seq<GLBlock>, x: GLBlock, mid: seq<GLBlock>, y: GLBlock)
    requires !IsActive(x)
    ensures multiset(ActiveBlocks(a + [x] + mid + [y])) == multiset(ActiveBlocks(a + [y] + mid))
  {
    ActiveBlocksUnused(x);
    ActiveBlocksConcat(a + [x] + mid, [y]);
    ActiveBlocksConcat(a + [x], mid);
    ActiveBlocksConcat(a, [x]);
    ActiveBlocksConcat(a + [y], mid);
    ActiveBlocksConcat(a, [y]);
  }

  /** The pieces of a sequence before and after a swap-remove at `i`, when `i` is not the last index. */
  lemma SwapRemoveShape<T>(bs: seq<T>, i: nat)
    requires i + 1 < |bs|
    ensures bs == bs[..i] + [bs[i]] + bs[i + 1..|bs| - 1] + [bs[|bs| - 1]]
    ensures bs[i := bs[|bs| - 1]][..|bs| - 1] == bs[..i] + [bs[|bs| - 1]] + bs[i + 1..|bs| - 1]
  {
  }

  lemma DropLastShape<T>(bs: seq<T>)
    requires 0 < |bs|
    ensures bs == bs[..|bs| - 1] + [bs[|bs| - 1]]
    ensures bs[|bs| - 1 := bs[|bs| - 1]][..|bs| - 1] == bs[..|bs| - 1]
  {
  }

  /** Removing an unused block by swapping in the last one keeps the used blocks. */
  lemma SwapRemoveKeepsActive(bs: seq<GLBlock>, i: nat)
    requires i < |bs| && !IsActive(bs[i])
    ensures multiset(ActiveBlocks(bs[i := bs[|bs| - 1]][..|bs| - 1])) == multiset(ActiveBlocks(bs))
  {
    if i == |bs| - 1 {
      DropLastShape(bs);
      ActiveBlocksConcat(bs[..i], [bs[i]]);
      ActiveBlocksUnused(bs[i]);
    } else {
      SwapRemoveShape(bs, i);
      Rearranged(bs[..i], bs[i], bs[i + 1..|bs| - 1], bs[|bs| - 1]);
    }
  }

  lemma {:induction false} StripFrom(bs: seq<GLBlock>, i: nat)
    requires i <= |bs| && forall j :: 0 <= j < i ==> IsActive(bs[j])
    ensures multiset(Strip(bs, i)) == multiset(ActiveBlocks(bs))
    ensures forall j :: 0 <= j < |Strip(bs, i)| ==> IsActive(Strip(bs, i)[j])
    decreases |bs| - i, |bs|
  {
    if i == |bs| {
      ActiveBlocksAll(bs);
    } else if IsActive(bs[i]) {
      StripFrom(bs, i + 1);
    } else {
      var bs' := bs[i := bs[|bs| - 1]][..|bs| - 1];
      assert Strip(bs, i) == Strip(bs', i);
      SwapRemoveKeepsActive(bs, i);
      StripFrom(bs', i);
    }
  }

  /**
   * Stripping keeps exactly the used blocks: every block left is used, and they are the used
   * blocks of the input, each as often as there (the order is the swap-remove order).
   */
  lemma StripKeepsActive(bs: seq<GLBlock>)
    ensures multiset(Strip(bs, 0)) == multiset(ActiveBlocks(bs))
    ensures forall j :: 0 <= j < |Strip(bs, 0)| ==> IsActive(Strip(bs, 0)[j])
  {
    StripFrom(bs, 0);
  }

  /** A well-formed block stays well formed and keeps its used members once laid out. */
  lemma LaidLocated(b: GLBlock)
    requires Located(b)
    ensures Located(Laid(b)) && IsActive(Laid(b)) == IsActive(b)
  {
  }

  // ---------------------------------------------------------------- sampler textures

  /** Subpass inputs become 2D sampler textures, since WebGL has no framebuffer fetch. */
  function SubpassSamplers(inputs: seq<UniformInputAttachment>): seq<UniformSamplerTexture> {
    seq(|inputs|, i requires 0 <= i < |inputs| =>
      UniformSamplerTexture(inputs[i].setIndex, inputs[i].binding, inputs[i].name, TSampler2D, inputs[i].count, 0))
  }

  /** A sampler texture as first built: no units and no location yet. */
  function ShellSampler(st: UniformSamplerTexture): GLSampler {
    GLSampler(st.setIndex, st.binding, st.name, st.sType, st.count, [], [], TypeToGLType(st.sType).value, None)
  }

  function ShellSamplers(sts: seq<UniformSamplerTexture>): (r: seq<GLSampler>)
    ensures |r| == |sts| && UnitsFresh(r)
  {
    seq(|sts|, i requires 0 <= i < |sts| => ShellSampler(sts[i]))
  }

  /** The set indices of the blocks, as a multiset. */
  function SetIndices(blocks: seq<UniformBlock>, k: nat): multiset<int>
    requires k <= |blocks|
  {
    multiset(seq(k, i requires 0 <= i < k => blocks[i].setIndex))
  }

  /** How many blocks lie in the flexible set. */
  function FlexibleBlocks(blocks: seq<UniformBlock>, flexibleSet: int): nat {
    SetIndices(blocks, |blocks|)[flexibleSet]
  }

  /** The source's count of blocks in the flexible set. */
  method CountFlexibleBlocks(blocks: seq<UniformBlock>, flexibleSet: int) returns (n: nat)
    ensures n == FlexibleBlocks(blocks, flexibleSet)
  {
    n := 0;
    var i := 0;
    while i < |blocks|
      invariant 0 <= i <= |blocks|
      invariant n == SetIndices(blocks, i)[flexibleSet]
    {
      assert seq(i + 1, j requires 0 <= j < i + 1 => blocks[j].setIndex)
          == seq(i, j requires 0 <= j < i => blocks[j].setIndex) + [blocks[i].setIndex];
      if blocks[i].setIndex == flexibleSet {
        n := n + 1;
      }
      i := i + 1;
    }
  }

  /** Every sampler's set has a binding offset. */
  predicate SetsMapped(sts: seq<UniformSamplerTexture>, bm: BindingMappings) {
    forall i :: 0 <= i < |sts| ==> 0 <= sts[i].setIndex < |bm.samplerTextureOffsets|
  }

  /** The unit a sampler name is first mapped to: its flattened binding, modulo the unit count. */
  function DefaultUnit(st: UniformSamplerTexture, bm: BindingMappings, flexibleBase: nat, arrayOffset: int, max: pos)
    : (r: int)
    requires 0 <= st.setIndex < |bm.samplerTextureOffsets|
    ensures InUnitRange(r, max)
  {
    var binding := st.binding + bm.samplerTextureOffsets[st.setIndex] + arrayOffset;
    Rem(if st.setIndex == bm.flexibleSet then binding - flexibleBase else binding, max)
  }

  /** The pass over the sampler textures: active ones with their locations, and the unit cache. */
  datatype CachePass = CachePass(active: seq<GLSampler>, locs: seq<Handle>, cacheMap: map<string, int>, arrayOffset: int)

  function CacheStep(p: CachePass, st: UniformSamplerTexture, shell: GLSampler, loc: Handle,
                     bm: BindingMappings, flexibleBase: nat, max: pos): CachePass
    requires 0 <= st.setIndex < |bm.samplerTextureOffsets|
  {
    var p1 := if loc.Some? then p.(active := p.active + [shell], locs := p.locs + [loc]) else p;
    if st.name in p1.cacheMap then p1
    else p1.(cacheMap := p1.cacheMap[st.name := DefaultUnit(st, bm, flexibleBase, p1.arrayOffset, max)],
             arrayOffset := p1.arrayOffset + st.count - 1)
  }

  function CacheFrom(p: CachePass, sts: seq<UniformSamplerTexture>, shells: seq<GLSampler>,
                     uniformLocation: string -> Handle, bm: BindingMappings, flexibleBase: nat, max: pos, i: nat)
    : CachePass
    requires |shells| == |sts| && SetsMapped(sts, bm)
    decreases |sts| - i
  {
    if i >= |sts| then p
    else CacheFrom(CacheStep(p, sts[i], shells[i], uniformLocation(sts[i].name), bm, flexibleBase, max),
                   sts, shells, uniformLocation, bm, flexibleBase, max, i + 1)
  }

  /** The source's loop over the sampler textures. */
  method CacheSamplerUnits(sts: seq<UniformSamplerTexture>, shells: seq<GLSampler>, uniformLocation: string -> Handle,
                           bm: BindingMappings, flexibleBase: nat, cacheMap: map<string, int>, max: pos)
    returns (p: CachePass)
    requires |shells| == |sts| && SetsMapped(sts, bm)
    ensures p == CacheFrom(CachePass([], [], cacheMap, 0), sts, shells, uniformLocation, bm, flexibleBase, max, 0)
  {
    p := CachePass([], [], cacheMap, 0);
    var i := 0;
    while i < |sts|
      invariant 0 <= i <= |sts|
      invariant CacheFrom(p, sts, shells, uniformLocation, bm, flexibleBase, max, i)
             == CacheFrom(CachePass([], [], cacheMap, 0), sts, shells, uniformLocation, bm, flexibleBase, max, 0)
    {
      var st := sts[i];
      ghost var next := CacheStep(p, st, shells[i], uniformLocation(st.name), bm, flexibleBase, max);
      var loc := uniformLocation(st.name);
      if loc.Some? {
        p := p.(active := p.active + [shells[i]], locs := p.locs + [loc]);
      }
      if st.name !in p.cacheMap {
        var binding := st.binding + bm.samplerTextureOffsets[st.setIndex] + p.arrayOffset;
        if st.setIndex == bm.flexibleSet {
          binding := binding - flexibleBase;
        }
        p := p.(cacheMap := p.cacheMap[st.name := Rem(binding, max)], arrayOffset := p.arrayOffset + st.count - 1);
      }
      assert p == next;
      i := i + 1;
    }
  }

  /**
   * After the pass every sampler name has a unit in range, names already cached keep theirs, and
   * each active sampler is paired with its own location, which is a real one.
   */
  lemma {:induction false} CachePassFacts(p: CachePass, sts: seq<UniformSamplerTexture>, shells: seq<GLSampler>,
                                         uniformLocation: string -> Handle, bm: BindingMappings, flexibleBase: nat,
                                         max: pos, i: nat)
    requires |shells| == |sts| && SetsMapped(sts, bm) && i <= |sts|
    requires forall k :: 0 <= k < |shells| ==> shells[k].name == sts[k].name && shells[k].units == []
    requires CacheInRange(p.cacheMap, max) && |p.active| == |p.locs| && UnitsFresh(p.active)
    requires forall k :: 0 <= k < |p.locs| ==>
      p.locs[k].Some? && p.locs[k] == uniformLocation(p.active[k].name) && p.active[k].name in p.cacheMap
    ensures var r := CacheFrom(p, sts, shells, uniformLocation, bm, flexibleBase, max, i);
      && CacheInRange(r.cacheMap, max)
      && (forall n :: n in p.cacheMap ==> n in r.cacheMap && r.cacheMap[n] == p.cacheMap[n])
      && (forall k :: i <= k < |sts| ==> sts[k].name in r.cacheMap)
      && |r.active| == |r.locs| && UnitsFresh(r.active)
      && (forall k :: 0 <= k < |r.locs| ==>
            r.locs[k].Some? && r.locs[k] == uniformLocation(r.active[k].name) && r.active[k].name in r.cacheMap)
    decreases |sts| - i
  {
    if i < |sts| {
      var p' := CacheStep(p, sts[i], shells[i], uniformLocation(sts[i].name), bm, flexibleBase, max);
      assert sts[i].name in p'.cacheMap;
      CachePassFacts(p', sts, shells, uniformLocation, bm, flexibleBase, max, i + 1);
    }
  }

  // ---------------------------------------------------------------- uploading the units

  /** The units as stored in an Int32Array. */
  function Int32Units(units: seq<int>): (r: seq<int>)
    ensures |r| == |units| && forall i :: 0 <= i < |r| ==> -TWO_31 <= r[i] < TWO_31 && (r[i] - units[i]) % TWO_32 == 0
  {
    seq(|units|, i requires 0 <= i < |units| => ToInt32(units[i]))
  }

  function Uploaded(samplers: seq<GLSampler>): seq<GLSampler> {
    seq(|samplers|, i requires 0 <= i < |samplers| => samplers[i].(glUnits := Int32Units(samplers[i].units)))
  }

  function UnitCalls(samplers: seq<GLSampler>): seq<GLCall> {
    seq(|samplers|, i requires 0 <= i < |samplers| => SetSamplerUnits(samplers[i].glLoc, Int32Units(samplers[i].units)))
  }

  /**
   * The uniform upload of the units: switch to the program if another one is bound, one call per
   * sampler, and switch back; nothing at all without active samplers.
   */
  function SamplerUploadCalls(bound: Handle, program: nat, samplers: seq<GLSampler>): seq<GLCall> {
    if |samplers| == 0 then []
    else
      var switch := bound != Some(program);
      (if switch then [UseProgram(Some(program))] else []) + UnitCalls(samplers) + (if switch then [UseProgram(bound)] else [])
  }

  // ---------------------------------------------------------------- the whole reflection

  /** What the driver reports about the linked program. */
  datatype ProgramQueries = ProgramQueries(
    activeAttribs: seq<Option<ActiveInfo>>,
    attribLocation: string -> int,
    activeUniforms: seq<Option<ActiveInfo>>,
    uniformLocation: string -> Handle)

  /** The shader state reflection produces. */
  datatype Reflection = Reflection(
    glInputs: seq<Option<GLInput>>,
    samplerTextures: seq<UniformSamplerTexture>,
    glBlocks: seq<GLBlock>,
    glSamplerTextures: seq<GLSampler>,
    cacheMap: map<string, int>,
    calls: seq<GLCall>)

  /** The blocks before the active uniforms are matched: fresh shells, or the old ones when the shader has none. */
  function StartBlocks(blocks: seq<UniformBlock>, oldBlocks: seq<GLBlock>): seq<GLBlock> {
    if |blocks| > 0 then ShellBlocks(blocks) else oldBlocks
  }

  function AllSamplers(sts0: seq<UniformSamplerTexture>, subpass: seq<UniformInputAttachment>): seq<UniformSamplerTexture> {
    sts0 + SubpassSamplers(subpass)
  }

  function PassOf(rq: ProgramQueries, blocks: seq<UniformBlock>, sts: seq<UniformSamplerTexture>,
                  bm: BindingMappings, max: pos, cacheMap: map<string, int>): (r: CachePass)
    requires SetsMapped(sts, bm) && CacheInRange(cacheMap, max)
    ensures CacheInRange(r.cacheMap, max) && |r.active| == |r.locs|
  {
    var shells := ShellSamplers(sts);
    CachePassFacts(CachePass([], [], cacheMap, 0), sts, shells, rq.uniformLocation, bm,
                   FlexibleBlocks(blocks, bm.flexibleSet), max, 0);
    CacheFrom(CachePass([], [], cacheMap, 0), sts, shells, rq.uniformLocation, bm,
              FlexibleBlocks(blocks, bm.flexibleSet), max, 0)
  }

  /**
   * Reflection of a linked program `program`, with `bound` the program bound on the device; None
   * where the source searches forever for a free texture unit.
   */
  function Reflected(rq: ProgramQueries, blocks: seq<UniformBlock>, sts0: seq<UniformSamplerTexture>,
                     subpass: seq<UniformInputAttachment>, oldBlocks: seq<GLBlock>,
                     bm: BindingMappings, max: pos, cacheMap: map<string, int>, bound: Handle, program: nat)
    : Option<Reflection>
    requires SetsMapped(AllSamplers(sts0, subpass), bm) && CacheInRange(cacheMap, max)
  {
    var sts := AllSamplers(sts0, subpass);
    var laid := LaidAll(ActivateFrom(StartBlocks(blocks, oldBlocks), rq.activeUniforms, rq.uniformLocation, 0));
    var pass := PassOf(rq, blocks, sts, bm, max, cacheMap);
    match AssignUnits(pass.active, pass.locs, pass.cacheMap, max)
    case None => None
    case Some(a) =>
      Some(Reflection(ReflectInputs(rq.activeAttribs, rq.attribLocation), sts, Strip(laid, 0),
                      Uploaded(a.samplers), a.cacheMap, SamplerUploadCalls(bound, program, a.samplers)))
  }

  /**
   * The blocks a shader keeps are exactly its used ones: each is well formed, has at least one
   * active member, and its members are laid out one after another.
   */
  lemma ReflectedBlocks(rq: ProgramQueries, blocks: seq<UniformBlock>, sts0: seq<UniformSamplerTexture>,
                        subpass: seq<UniformInputAttachment>, oldBlocks: seq<GLBlock>,
                        bm: BindingMappings, max: pos, cacheMap: map<string, int>, bound: Handle, program: nat)
    requires SetsMapped(AllSamplers(sts0, subpass), bm) && CacheInRange(cacheMap, max)
    requires forall j :: 0 <= j < |oldBlocks| ==> Located(oldBlocks[j])
    requires Reflected(rq, blocks, sts0, subpass, oldBlocks, bm, max, cacheMap, bound, program).Some?
    ensures var r := Reflected(rq, blocks, sts0, subpass, oldBlocks, bm, max, cacheMap, bound, program).value;
      var laid := LaidAll(ActivateFrom(StartBlocks(blocks, oldBlocks), rq.activeUniforms, rq.uniformLocation, 0));
      && multiset(r.glBlocks) == multiset(ActiveBlocks(laid))
      && forall j :: 0 <= j < |r.glBlocks| ==> IsActive(r.glBlocks[j]) && Located(r.glBlocks[j])
  {
    var start := StartBlocks(blocks, oldBlocks);
    if |blocks| > 0 {
      forall j | 0 <= j < |start| ensures Located(start[j]) {
        ShellLocated(blocks[j]);
      }
    }
    ActivationKeepsLocated(start, rq.activeUniforms, rq.uniformLocation, 0);
    var act := ActivateFrom(start, rq.activeUniforms, rq.uniformLocation, 0);
    var laid := LaidAll(act);
    forall j | 0 <= j < |laid| ensures Located(laid[j]) {
      LaidLocated(act[j]);
    }
    StripKeepsActive(laid);
    var r := Strip(laid, 0);
    forall j | 0 <= j < |r| ensures Located(r[j]) {
      assert r[j] in multiset(r);
      ActiveBlocksIn(laid, r[j]);
    }
  }

  lemma {:induction false} ActiveBlocksIn(bs: seq<GLBlock>, b: GLBlock)
    requires b in multiset(ActiveBlocks(bs))
    ensures b in bs
    decreases |bs|
  {
    if |bs| > 0 {
      var init := bs[..|bs| - 1];
      if b in multiset(ActiveBlocks(init)) {
        ActiveBlocksIn(init, b);
        assert b in bs[..|bs| - 1];
      } else {
        assert b == bs[|bs| - 1];
      }
    }
  }

  /**
   * Every sampler the shader keeps is active and located; its units are pairwise distinct across
   * all samplers, lie in range, number exactly its array size, and are uploaded as given.
   */
  lemma ReflectedSamplers(rq: ProgramQueries, blocks: seq<UniformBlock>, sts0: seq<UniformSamplerTexture>,
                          subpass: seq<UniformInputAttachment>, oldBlocks: seq<GLBlock>,
                          bm: BindingMappings, max: pos, cacheMap: map<string, int>, bound: Handle, program: nat)
    requires SetsMapped(AllSamplers(sts0, subpass), bm) && CacheInRange(cacheMap, max)
    requires Reflected(rq, blocks, sts0, subpass, oldBlocks, bm, max, cacheMap, bound, program).Some?
    ensures var r := Reflected(rq, blocks, sts0, subpass, oldBlocks, bm, max, cacheMap, bound, program).value;
      var ss := r.glSamplerTextures;
      && PairwiseDistinct(ss)
      && CacheInRange(r.cacheMap, max)
      && (forall n :: n in cacheMap ==> n in r.cacheMap && r.cacheMap[n] == cacheMap[n])
      && (forall k :: 0 <= k < |r.samplerTextures| ==> r.samplerTextures[k].name in r.cacheMap)
      && forall i :: 0 <= i < |ss| ==>
           && ss[i].glLoc.Some? && ss[i].glLoc == rq.uniformLocation(ss[i].name)
           && |ss[i].units| == ss[i].count
           && ss[i].glUnits == Int32Units(ss[i].units)
           && (forall a :: 0 <= a < |ss[i].units| ==> InUnitRange(ss[i].units[a], max))
  {
    var sts := AllSamplers(sts0, subpass);
    var shells := ShellSamplers(sts);
    var fb := FlexibleBlocks(blocks, bm.flexibleSet);
    var p0 := CachePass([], [], cacheMap, 0);
    CachePassFacts(p0, sts, shells, rq.uniformLocation, bm, fb, max, 0);
    var pass := PassOf(rq, blocks, sts, bm, max, cacheMap);
    AssignedUnitsDistinct(pass.active, pass.locs, pass.cacheMap, max);
    AssignedUnitsCover(pass.active, pass.locs, pass.cacheMap, max);
    AllCachedNoFill(pass.active, pass.locs, pass.cacheMap, max);
  }

  // ---------------------------------------------------------------- vertex inputs

  /** Every reported attribute becomes an input named without its array suffix, sized stride times count. */
  lemma ReflectedInputs(attribs: seq<Option<ActiveInfo>>, attribLocation: string -> int)
    ensures var r := ReflectInputs(attribs, attribLocation);
      |r| == |attribs| &&
      forall i :: 0 <= i < |r| ==> ((r[i].Some? <==> attribs[i].Some?) &&
        (r[i].Some? ==>
          && r[i].value.name == VarName(attribs[i].value.name)
          && r[i].value.glLoc == r[i].value.binding == attribLocation(r[i].value.name)
          && r[i].value.size == r[i].value.stride * r[i].value.count
          && r[i].value.stride % 4 == 0
          && ('[' !in attribs[i].value.name ==> r[i].value.name == attribs[i].value.name)))
  {
  }
}

/**
 * Texture-unit assignment for the active samplers of a new program (the tail of
 * WebGLCmdFuncCreateShader): every sampler first tries the unit cached for its name, probing
 * upwards past taken units; samplers without a cached unit are then packed from unit 0 upwards.
 */
module TextureUnits {
  import opened Wrappers
  import opened GL
  import opened JsInt
  import opened Objects

  /** Units are compared as JavaScript numbers; a cached unit may be negative (see `Rem`). */
  predicate InUnitRange(u: int, max: pos) {
    -(max as int) < u < max
  }

  /** The first unit in [i, max) that is not taken. */
  function FirstFreeFrom(used: set<int>, i: nat, max: pos): (r: Option<nat>)
    ensures r.Some? ==> i <= r.value < max && r.value !in used
    ensures r.None? ==> forall u :: i <= u < max ==> u in used
    decreases max - i
  {
    if i >= max then None
    else if i !in used then Some(i)
    else FirstFreeFrom(used, i + 1, max)
  }

  /** Probing steps from unit `c` in [0, max) to the free unit `f`, wrapping at `max`. */
  function Dist(c: int, f: int, max: pos): nat
    requires 0 <= c < max && 0 <= f < max
  {
    if c <= f then f - c else max - c + f
  }

  /** The probe `while (used[c]) c = (c + 1) % max` from a non-negative unit, given a free unit `f`. */
  function NextFreeTo(c: int, used: set<int>, max: pos, f: int): (r: int)
    requires 0 <= c < max && 0 <= f < max && f !in used
    ensures 0 <= r < max && r !in used
    decreases Dist(c, f, max)
  {
    if c !in used then c
    else
      RemStep(c, max);
      NextFreeTo(Rem(c + 1, max), used, max, f)
  }

  /**
   * Where the probe settles. A negative start climbs towards 0; from then on the probe cycles
   * through [0, max), and if every one of those units is taken the source never returns: None.
   */
  function NextFree(c: int, used: set<int>, max: pos): (r: Option<int>)
    requires InUnitRange(c, max)
    ensures r.Some? ==> r.value !in used && InUnitRange(r.value, max) && (c >= 0 ==> r.value >= 0)
    ensures c !in used ==> r == Some(c)
    ensures (exists u :: 0 <= u < max && u !in used) ==> r.Some?
    decreases if c < 0 then -c else 0
  {
    if c !in used then Some(c)
    else if c < 0 then
      RemStep(c, max);
      NextFree(Rem(c + 1, max), used, max)
    else
      match FirstFreeFrom(used, 0, max)
      case None => None
      case Some(f) => Some(NextFreeTo(c, used, max, f))
  }

  predicate Distinct(s: seq<int>) {
    forall a, b :: 0 <= a < b < |s| ==> s[a] != s[b]
  }

  function Elements(s: seq<int>): set<int> {
    set x | x in s
  }

  /** The units one sampler takes, the taken set afterwards, and where the probe stopped. */
  datatype Taken = Taken(units: seq<int>, used: set<int>, cursor: int)

  /**
   * The source's `for (t < count)` loop: probe from the cursor, take the unit found, and probe
   * again from it for the next array element.
   */
  function TakeUnits(c: int, count: nat, used: set<int>, max: pos): Option<Taken>
    requires InUnitRange(c, max)
    decreases count
  {
    if count == 0 then Some(Taken([], used, c))
    else
      match NextFree(c, used, max)
      case None => None
      case Some(u) => Prepend([u], TakeUnits(u, count - 1, used + {u}, max))
  }

  /**
   * A sampler takes `count` distinct units that were free, all in range, and marks exactly those
   * taken; from a non-negative cursor they are all non-negative; and a free starting unit is the
   * first one taken.
   */
  lemma {:induction false} TakeUnitsFacts(c: int, count: nat, used: set<int>, max: pos)
    requires InUnitRange(c, max) && TakeUnits(c, count, used, max).Some?
    ensures var t := TakeUnits(c, count, used, max).value;
      && |t.units| == count && Distinct(t.units)
      && (forall a :: 0 <= a < count ==> t.units[a] !in used && InUnitRange(t.units[a], max))
      && t.used == used + Elements(t.units)
      && InUnitRange(t.cursor, max)
      && (c >= 0 ==> t.cursor >= 0 && forall a :: 0 <= a < count ==> t.units[a] >= 0)
      && (count > 0 && c !in used ==> t.units[0] == c)
    decreases count
  {
    if count > 0 {
      var u := NextFree(c, used, max).value;
      TakeUnitsFacts(u, count - 1, used + {u}, max);
      var t := TakeUnits(u, count - 1, used + {u}, max).value;
      assert Elements([u] + t.units) == {u} + Elements(t.units);
    }
  }

  /** `acc` in front of the units a probe run takes. */
  function Prepend(acc: seq<int>, r: Option<Taken>): Option<Taken> {
    if r.Some? then Some(r.value.(units := acc + r.value.units)) else None
  }

  lemma PrependNothing(r: Option<Taken>)
    ensures Prepend([], r) == r
  {
    if r.Some? {
      assert [] + r.value.units == r.value.units;
    }
  }

  lemma PrependTwice(a: seq<int>, b: seq<int>, r: Option<Taken>)
    ensures Prepend(a, Prepend(b, r)) == Prepend(a + b, r)
  {
    if r.Some? {
      assert a + (b + r.value.units) == a + b + r.value.units;
    }
  }

  predicate CacheInRange(m: map<string, int>, max: pos) {
    forall n :: n in m ==> InUnitRange(m[n], max)
  }

  /** The assignment in progress: samplers, taken units, the name-to-unit cache and the fill cursor. */
  datatype Assigned = Assigned(samplers: seq<GLSampler>, used: set<int>, cacheMap: map<string, int>, cursor: int)

  /** The sampler after it has taken `t`, with its uniform location. */
  function Took(s: GLSampler, loc: Handle, t: Taken): GLSampler {
    s.(glLoc := loc, units := s.units + t.units)
  }

  /** First pass, from sampler `i` on: a sampler with a cached unit probes from that unit. */
  function ReuseFrom(a: Assigned, locs: seq<Handle>, max: pos, i: nat): (r: Option<Assigned>)
    requires |locs| == |a.samplers| && i <= |a.samplers| && CacheInRange(a.cacheMap, max)
    ensures r.Some? ==> |r.value.samplers| == |a.samplers| && r.value.cacheMap == a.cacheMap
    decreases |a.samplers| - i
  {
    if i == |a.samplers| then Some(a)
    else
      var s := a.samplers[i];
      if s.name in a.cacheMap then
        match TakeUnits(a.cacheMap[s.name], s.count, a.used, max)
        case None => None
        case Some(t) =>
          ReuseFrom(a.(samplers := a.samplers[i := Took(s, locs[i], t)], used := t.used), locs, max, i + 1)
      else ReuseFrom(a, locs, max, i + 1)
  }

  /**
   * Second pass, from sampler `i` on: a sampler still without a location takes units from the
   * shared cursor, and its name is cached to the first of them unless it was cached already.
   */
  function FillFrom(a: Assigned, locs: seq<Handle>, max: pos, i: nat): (r: Option<Assigned>)
    requires |locs| == |a.samplers| && i <= |a.samplers| && CacheInRange(a.cacheMap, max)
    requires InUnitRange(a.cursor, max)
    ensures r.Some? ==> |r.value.samplers| == |a.samplers| && CacheInRange(r.value.cacheMap, max)
    decreases |a.samplers| - i
  {
    if i == |a.samplers| then Some(a)
    else
      var s := a.samplers[i];
      if s.glLoc.None? then
        match TakeUnits(a.cursor, s.count, a.used, max)
        case None => None
        case Some(t) =>
          TakeUnitsFacts(a.cursor, s.count, a.used, max);
          var m := if s.name !in a.cacheMap && s.count > 0 then a.cacheMap[s.name := t.units[0]] else a.cacheMap;
          FillFrom(Assigned(a.samplers[i := Took(s, locs[i], t)], t.used, m, t.cursor), locs, max, i + 1)
      else FillFrom(a, locs, max, i + 1)
  }

  /** Both passes over the active samplers and their locations; None where the source never returns. */
  function AssignUnits(samplers: seq<GLSampler>, locs: seq<Handle>, cacheMap: map<string, int>, max: pos)
    : (r: Option<Assigned>)
    requires |locs| == |samplers| && CacheInRange(cacheMap, max)
    ensures r.Some? ==> |r.value.samplers| == |samplers| && CacheInRange(r.value.cacheMap, max)
  {
    match ReuseFrom(Assigned(samplers, {}, cacheMap, 0), locs, max, 0)
    case None => None
    case Some(a) => FillFrom(a.(cursor := 0), locs, max, 0)
  }

  // ---------------------------------------------------------------- the source's loops

  /** The probe loop; it stops with None exactly where the source would spin forever. */
  method Probe(c0: int, used: set<int>, max: pos) returns (r: Option<int>)
    requires InUnitRange(c0, max)
    ensures r == NextFree(c0, used, max)
  {
    var c := c0;
    while c in used && c < 0
      invariant InUnitRange(c, max) && NextFree(c, used, max) == NextFree(c0, used, max)
      decreases -c
    {
      RemStep(c, max);
      c := Rem(c + 1, max);
    }
    if c !in used {
      return Some(c);
    }
    var free := FirstFreeFrom(used, 0, max);
    if free.None? {
      return None;
    }
    ghost var f := free.value;
    ghost var start := c;
    while c in used
      invariant 0 <= c < max && NextFreeTo(c, used, max, f) == NextFreeTo(start, used, max, f)
      decreases Dist(c, f, max)
    {
      RemStep(c, max);
      c := Rem(c + 1, max);
    }
    return Some(c);
  }

  /** One sampler's `for (t < count)` loop. */
  method Take(c0: int, count: nat, used0: set<int>, max: pos) returns (r: Option<Taken>)
    requires InUnitRange(c0, max)
    ensures r == TakeUnits(c0, count, used0, max)
  {
    var c, used, units := c0, used0, [];
    var t := 0;
    PrependNothing(TakeUnits(c0, count, used0, max));
    while t < count
      invariant 0 <= t <= count && InUnitRange(c, max)
      invariant TakeUnits(c0, count, used0, max) == Prepend(units, TakeUnits(c, count - t, used, max))
    {
      var u := Probe(c, used, max);
      if u.None? {
        return None;
      }
      PrependTwice(units, [u.value], TakeUnits(u.value, count - t - 1, used + {u.value}, max));
      units, c, used := units + [u.value], u.value, used + {u.value};
      t := t + 1;
    }
    assert units + [] == units;
    return Some(Taken(units, used, c));
  }

  /** The source's two passes over the active samplers. */
  method AssignTextureUnits(samplers: seq<GLSampler>, locs: seq<Handle>, cacheMap: map<string, int>, max: pos)
    returns (r: Option<Assigned>)
    requires |locs| == |samplers| && CacheInRange(cacheMap, max)
    ensures r == AssignUnits(samplers, locs, cacheMap, max)
  {
    var a := Assigned(samplers, {}, cacheMap, 0);
    var i := 0;
    while i < |samplers|
      invariant 0 <= i <= |samplers| && |a.samplers| == |samplers| && a.cacheMap == cacheMap
      invariant ReuseFrom(a, locs, max, i) == ReuseFrom(Assigned(samplers, {}, cacheMap, 0), locs, max, 0)
    {
      var s := a.samplers[i];
      if s.name in a.cacheMap {
        var t := Take(a.cacheMap[s.name], s.count, a.used, max);
        if t.None? {
          return None;
        }
        a := a.(samplers := a.samplers[i := Took(s, locs[i], t.value)], used := t.value.used);
      }
      i := i + 1;
    }
    a := a.(cursor := 0);
    i := 0;
    while i < |samplers|
      invariant 0 <= i <= |samplers| && |a.samplers| == |samplers|
      invariant CacheInRange(a.cacheMap, max) && InUnitRange(a.cursor, max)
      invariant FillFrom(a, locs, max, i) == AssignUnits(samplers, locs, cacheMap, max)
    {
      var s := a.samplers[i];
      if s.glLoc.None? {
        var t := Take(a.cursor, s.count, a.used, max);
        if t.None? {
          return None;
        }
        TakeUnitsFacts(a.cursor, s.count, a.used, max);
        var m := if s.name !in a.cacheMap && s.count > 0 then a.cacheMap[s.name := t.value.units[0]] else a.cacheMap;
        a := Assigned(a.samplers[i := Took(s, locs[i], t.value)], t.value.used, m, t.value.cursor);
      }
      i := i + 1;
    }
    return Some(a);
  }

  // ---------------------------------------------------------------- what the assignment promises

  /** Samplers as the reflection builds them: no units yet. */
  predicate UnitsFresh(ss: seq<GLSampler>) {
    forall i :: 0 <= i < |ss| ==> ss[i].units == []
  }

  /** No unit is given twice, within one sampler or across two. */
  predicate PairwiseDistinct(ss: seq<GLSampler>) {
    forall i, j, a, b :: (0 <= i < |ss| && 0 <= j < |ss| && 0 <= a < |ss[i].units| && 0 <= b < |ss[j].units| &&
      (i != j || a != b)) ==> ss[i].units[a] != ss[j].units[b]
  }

  /** Every unit is taken, lies in range, and is non-negative when `nonneg` holds. */
  predicate UnitsAccounted(ss: seq<GLSampler>, used: set<int>, max: pos, nonneg: bool) {
    forall i, a :: 0 <= i < |ss| && 0 <= a < |ss[i].units| ==>
      ss[i].units[a] in used && InUnitRange(ss[i].units[a], max) && (nonneg ==> ss[i].units[a] >= 0)
  }

  predicate CacheNonNegative(m: map<string, int>) {
    forall n :: n in m ==> m[n] >= 0
  }

  /** Taking units for sampler `i` keeps the units distinct and accounted for. */
  lemma TookKeepsDistinct(ss: seq<GLSampler>, used: set<int>, max: pos, nonneg: bool,
                          i: nat, loc: Handle, c: int, count: nat)
    requires i < |ss| && PairwiseDistinct(ss) && UnitsAccounted(ss, used, max, nonneg)
    requires InUnitRange(c, max) && (nonneg ==> c >= 0) && ss[i].count == count
    requires TakeUnits(c, count, used, max).Some?
    ensures var t := TakeUnits(c, count, used, max).value;
      var ss' := ss[i := Took(ss[i], loc, t)];
      PairwiseDistinct(ss') && UnitsAccounted(ss', t.used, max, nonneg)
  {
    TakeUnitsFacts(c, count, used, max);
    var t := TakeUnits(c, count, used, max).value;
    var ss' := ss[i := Took(ss[i], loc, t)];
    var old_ := ss[i].units;
    assert ss'[i].units == old_ + t.units;
    forall j, a | 0 <= j < |ss'| && 0 <= a < |ss'[j].units|
      ensures ss'[j].units[a] in t.used && InUnitRange(ss'[j].units[a], max) && (nonneg ==> ss'[j].units[a] >= 0)
    {
      if j == i && a >= |old_| {
        assert ss'[j].units[a] == t.units[a - |old_|];
      }
    }
    forall j, k, a, b | 0 <= j < |ss'| && 0 <= k < |ss'| && 0 <= a < |ss'[j].units| && 0 <= b < |ss'[k].units| &&
      (j != k || a != b)
      ensures ss'[j].units[a] != ss'[k].units[b]
    {
      var newA := j == i && a >= |old_|;
      var newB := k == i && b >= |old_|;
      if newA && newB {
        assert ss'[j].units[a] == t.units[a - |old_|] && ss'[k].units[b] == t.units[b - |old_|];
      } else if newA {
        assert ss'[j].units[a] == t.units[a - |old_|];
        assert ss'[k].units[b] == ss[k].units[b];
      } else if newB {
        assert ss'[k].units[b] == t.units[b - |old_|];
        assert ss'[j].units[a] == ss[j].units[a];
      } else {
        assert ss'[j].units[a] == ss[j].units[a] && ss'[k].units[b] == ss[k].units[b];
      }
    }
  }

  lemma {:induction false} ReuseKeepsDistinct(a: Assigned, locs: seq<Handle>, max: pos, i: nat, nonneg: bool)
    requires |locs| == |a.samplers| && i <= |a.samplers| && CacheInRange(a.cacheMap, max)
    requires nonneg ==> CacheNonNegative(a.cacheMap)
    requires PairwiseDistinct(a.samplers) && UnitsAccounted(a.samplers, a.used, max, nonneg)
    requires ReuseFrom(a, locs, max, i).Some?
    ensures var r := ReuseFrom(a, locs, max, i).value;
      PairwiseDistinct(r.samplers) && UnitsAccounted(r.samplers, r.used, max, nonneg)
    decreases |a.samplers| - i
  {
    if i < |a.samplers| {
      var s := a.samplers[i];
      if s.name in a.cacheMap {
        TookKeepsDistinct(a.samplers, a.used, max, nonneg, i, locs[i], a.cacheMap[s.name], s.count);
        var t := TakeUnits(a.cacheMap[s.name], s.count, a.used, max).value;
        ReuseKeepsDistinct(a.(samplers := a.samplers[i := Took(s, locs[i], t)], used := t.used), locs, max, i + 1, nonneg);
      } else {
        ReuseKeepsDistinct(a, locs, max, i + 1, nonneg);
      }
    }
  }

  lemma {:induction false} FillKeepsDistinct(a: Assigned, locs: seq<Handle>, max: pos, i: nat, nonneg: bool)
    requires |locs| == |a.samplers| && i <= |a.samplers| && CacheInRange(a.cacheMap, max)
    requires InUnitRange(a.cursor, max) && (nonneg ==> a.cursor >= 0)
    requires PairwiseDistinct(a.samplers) && UnitsAccounted(a.samplers, a.used, max, nonneg)
    requires FillFrom(a, locs, max, i).Some?
    ensures var r := FillFrom(a, locs, max, i).value;
      PairwiseDistinct(r.samplers) && UnitsAccounted(r.samplers, r.used, max, nonneg)
    decreases |a.samplers| - i
  {
    if i < |a.samplers| {
      var s := a.samplers[i];
      if s.glLoc.None? {
        TookKeepsDistinct(a.samplers, a.used, max, nonneg, i, locs[i], a.cursor, s.count);
        TakeUnitsFacts(a.cursor, s.count, a.used, max);
        var t := TakeUnits(a.cursor, s.count, a.used, max).value;
        var m := if s.name !in a.cacheMap && s.count > 0 then a.cacheMap[s.name := t.units[0]] else a.cacheMap;
        FillKeepsDistinct(Assigned(a.samplers[i := Took(s, locs[i], t)], t.used, m, t.cursor), locs, max, i + 1, nonneg);
      } else {
        FillKeepsDistinct(a, locs, max, i + 1, nonneg);
      }
    }
  }

  /**
   * Texture units handed out to the active samplers are pairwise distinct and lie in
   * (-max, max); when no cached unit is negative they all lie in [0, max).
   */
  lemma AssignedUnitsDistinct(samplers: seq<GLSampler>, locs: seq<Handle>, cacheMap: map<string, int>, max: pos)
    requires |locs| == |samplers| && CacheInRange(cacheMap, max) && UnitsFresh(samplers)
    requires AssignUnits(samplers, locs, cacheMap, max).Some?
    ensures var r := AssignUnits(samplers, locs, cacheMap, max).value.samplers;
      && PairwiseDistinct(r)
      && (forall i, a :: 0 <= i < |r| && 0 <= a < |r[i].units| ==>
            InUnitRange(r[i].units[a], max) && (CacheNonNegative(cacheMap) ==> r[i].units[a] >= 0))
  {
    var nonneg := CacheNonNegative(cacheMap);
    var a0 := Assigned(samplers, {}, cacheMap, 0);
    ReuseKeepsDistinct(a0, locs, max, 0, nonneg);
    var a := ReuseFrom(a0, locs, max, 0).value;
    FillKeepsDistinct(a.(cursor := 0), locs, max, 0, nonneg);
  }

  /** `after` is `before` given location `loc` and `before.count` more units. */
  predicate Handled(before: GLSampler, after: GLSampler, loc: Handle) {
    after == before.(glLoc := loc, units := after.units) &&
    before.units <= after.units && |after.units| == |before.units| + before.count
  }

  lemma {:induction false} ReuseShape(a: Assigned, locs: seq<Handle>, max: pos, i: nat)
    requires |locs| == |a.samplers| && i <= |a.samplers| && CacheInRange(a.cacheMap, max)
    requires ReuseFrom(a, locs, max, i).Some?
    ensures var r := ReuseFrom(a, locs, max, i).value.samplers;
      forall j :: 0 <= j < |r| ==>
        if j >= i && a.samplers[j].name in a.cacheMap then Handled(a.samplers[j], r[j], locs[j])
        else r[j] == a.samplers[j]
    decreases |a.samplers| - i
  {
    if i < |a.samplers| {
      var s := a.samplers[i];
      if s.name in a.cacheMap {
        TakeUnitsFacts(a.cacheMap[s.name], s.count, a.used, max);
        var t := TakeUnits(a.cacheMap[s.name], s.count, a.used, max).value;
        ReuseShape(a.(samplers := a.samplers[i := Took(s, locs[i], t)], used := t.used), locs, max, i + 1);
      } else {
        ReuseShape(a, locs, max, i + 1);
      }
    }
  }

  lemma {:induction false} FillShape(a: Assigned, locs: seq<Handle>, max: pos, i: nat)
    requires |locs| == |a.samplers| && i <= |a.samplers| && CacheInRange(a.cacheMap, max)
    requires InUnitRange(a.cursor, max)
    requires FillFrom(a, locs, max, i).Some?
    ensures var r := FillFrom(a, locs, max, i).value.samplers;
      forall j :: 0 <= j < |r| ==>
        if j >= i && a.samplers[j].glLoc.None? then Handled(a.samplers[j], r[j], locs[j])
        else r[j] == a.samplers[j]
    decreases |a.samplers| - i
  {
    if i < |a.samplers| {
      var s := a.samplers[i];
      if s.glLoc.None? {
        TakeUnitsFacts(a.cursor, s.count, a.used, max);
        var t := TakeUnits(a.cursor, s.count, a.used, max).value;
        var m := if s.name !in a.cacheMap && s.count > 0 then a.cacheMap[s.name := t.units[0]] else a.cacheMap;
        FillShape(Assigned(a.samplers[i := Took(s, locs[i], t)], t.used, m, t.cursor), locs, max, i + 1);
      } else {
        FillShape(a, locs, max, i + 1);
      }
    }
  }

  /**
   * Every active sampler with a cached unit, or still without a location, gets its location and
   * exactly `count` units; any other sampler is left as it was.
   */
  lemma AssignedUnitsCover(samplers: seq<GLSampler>, locs: seq<Handle>, cacheMap: map<string, int>, max: pos)
    requires |locs| == |samplers| && CacheInRange(cacheMap, max)
    requires forall i :: 0 <= i < |locs| ==> locs[i].Some?
    requires AssignUnits(samplers, locs, cacheMap, max).Some?
    ensures var r := AssignUnits(samplers, locs, cacheMap, max).value.samplers;
      forall i :: 0 <= i < |r| ==>
        if samplers[i].name in cacheMap || samplers[i].glLoc.None? then Handled(samplers[i], r[i], locs[i])
        else r[i] == samplers[i]
  {
    var a0 := Assigned(samplers, {}, cacheMap, 0);
    ReuseShape(a0, locs, max, 0);
    var a := ReuseFrom(a0, locs, max, 0).value;
    FillShape(a.(cursor := 0), locs, max, 0);
  }

  /** The units of the first `k` samplers. */
  function UnitsBefore(ss: seq<GLSampler>, k: nat): set<int>
    requires k <= |ss|
  {
    if k == 0 then {} else UnitsBefore(ss, k - 1) + Elements(ss[k - 1].units)
  }

  lemma ElementsOfPrefix(a: seq<int>, b: seq<int>)
    requires a <= b
    ensures Elements(a) <= Elements(b)
  {
    forall i | 0 <= i < |a|
      ensures a[i] in Elements(b)
    {
      assert a[i] == b[i];
    }
  }

  lemma {:induction false} UnitsBeforeGrow(ss: seq<GLSampler>, ss': seq<GLSampler>, k: nat)
    requires k <= |ss| && k <= |ss'|
    requires forall j :: 0 <= j < k ==> ss[j].units <= ss'[j].units
    ensures UnitsBefore(ss, k) <= UnitsBefore(ss', k)
  {
    if k > 0 {
      UnitsBeforeGrow(ss, ss', k - 1);
      ElementsOfPrefix(ss[k - 1].units, ss'[k - 1].units);
    }
  }

  lemma {:induction false} UnitsBeforeHas(ss: seq<GLSampler>, k: nat, x: int)
    requires k <= |ss| && x in UnitsBefore(ss, k)
    ensures exists j, b :: 0 <= j < k && 0 <= b < |ss[j].units| && ss[j].units[b] == x
  {
    if x !in Elements(ss[k - 1].units) {
      UnitsBeforeHas(ss, k - 1, x);
    } else {
      var b :| 0 <= b < |ss[k - 1].units| && ss[k - 1].units[b] == x;
    }
  }

  lemma {:induction false} ReuseKeepsCached(a: Assigned, locs: seq<Handle>, max: pos, i: nat)
    requires |locs| == |a.samplers| && i <= |a.samplers| && CacheInRange(a.cacheMap, max)
    requires forall j :: i <= j < |a.samplers| ==> a.samplers[j].units == []
    requires a.used == UnitsBefore(a.samplers, i)
    requires ReuseFrom(a, locs, max, i).Some?
    ensures var r := ReuseFrom(a, locs, max, i).value.samplers;
      forall k :: i <= k < |r| ==>
        var s := a.samplers[k];
        s.name in a.cacheMap && s.count > 0 && a.cacheMap[s.name] !in UnitsBefore(r, k) ==>
        |r[k].units| > 0 && r[k].units[0] == a.cacheMap[s.name]
    decreases |a.samplers| - i
  {
    if i < |a.samplers| {
      var s := a.samplers[i];
      if s.name in a.cacheMap {
        var t := TakeUnits(a.cacheMap[s.name], s.count, a.used, max).value;
        var a' := a.(samplers := a.samplers[i := Took(s, locs[i], t)], used := t.used);
        ReuseFirstCached(a, locs, max, i);
        ReuseKeepsCached(a', locs, max, i + 1);
      } else {
        assert UnitsBefore(a.samplers, i + 1) == UnitsBefore(a.samplers, i) + Elements([]);
        ReuseKeepsCached(a, locs, max, i + 1);
      }
    }
  }

  /** The step of `ReuseKeepsCached` at sampler `i` itself. */
  lemma ReuseFirstCached(a: Assigned, locs: seq<Handle>, max: pos, i: nat)
    requires |locs| == |a.samplers| && i < |a.samplers| && CacheInRange(a.cacheMap, max)
    requires a.samplers[i].units == [] && a.samplers[i].name in a.cacheMap
    requires a.used == UnitsBefore(a.samplers, i)
    requires ReuseFrom(a, locs, max, i).Some?
    ensures var s := a.samplers[i];
      var t := TakeUnits(a.cacheMap[s.name], s.count, a.used, max).value;
      var a' := a.(samplers := a.samplers[i := Took(s, locs[i], t)], used := t.used);
      var r := ReuseFrom(a, locs, max, i).value.samplers;
      && a'.used == UnitsBefore(a'.samplers, i + 1)
      && (s.count > 0 && a.cacheMap[s.name] !in UnitsBefore(r, i) ==>
            |r[i].units| > 0 && r[i].units[0] == a.cacheMap[s.name])
  {
    var s := a.samplers[i];
    TakeUnitsFacts(a.cacheMap[s.name], s.count, a.used, max);
    var t := TakeUnits(a.cacheMap[s.name], s.count, a.used, max).value;
    var a' := a.(samplers := a.samplers[i := Took(s, locs[i], t)], used := t.used);
    assert a'.samplers[i].units == t.units;
    UnitsBeforeSame(a.samplers, a'.samplers, i);
    ReuseShape(a', locs, max, i + 1);
    var r := ReuseFrom(a', locs, max, i + 1).value.samplers;
    UnitsBeforeSame(a'.samplers, r, i);
  }

  lemma {:induction false} UnitsBeforeSame(ss: seq<GLSampler>, ss': seq<GLSampler>, k: nat)
    requires k <= |ss| && k <= |ss'|
    requires forall j :: 0 <= j < k ==> ss[j].units == ss'[j].units
    ensures UnitsBefore(ss, k) == UnitsBefore(ss', k)
  {
    if k > 0 {
      UnitsBeforeSame(ss, ss', k - 1);
    }
  }

  /**
   * A sampler keeps its cached unit when that unit is free: if no sampler before it ends up
   * with the unit cached for its name, that unit is the first one it gets.
   */
  lemma CachedUnitKept(samplers: seq<GLSampler>, locs: seq<Handle>, cacheMap: map<string, int>, max: pos, k: nat)
    requires |locs| == |samplers| && CacheInRange(cacheMap, max) && UnitsFresh(samplers)
    requires AssignUnits(samplers, locs, cacheMap, max).Some?
    requires k < |samplers| && samplers[k].name in cacheMap && samplers[k].count > 0
    requires var r := AssignUnits(samplers, locs, cacheMap, max).value.samplers;
      forall j, b :: 0 <= j < k && 0 <= b < |r[j].units| ==> r[j].units[b] != cacheMap[samplers[k].name]
    ensures var r := AssignUnits(samplers, locs, cacheMap, max).value.samplers;
      |r[k].units| > 0 && r[k].units[0] == cacheMap[samplers[k].name]
  {
    var a0 := Assigned(samplers, {}, cacheMap, 0);
    ReuseShape(a0, locs, max, 0);
    ReuseKeepsCached(a0, locs, max, 0);
    var a := ReuseFrom(a0, locs, max, 0).value;
    FillShape(a.(cursor := 0), locs, max, 0);
    var r := FillFrom(a.(cursor := 0), locs, max, 0).value.samplers;
    UnitsBeforeGrow(a.samplers, r, k);
    var c := cacheMap[samplers[k].name];
    if c in UnitsBefore(a.samplers, k) {
      UnitsBeforeHas(r, k, c);
    }
    assert a.samplers[k].units <= r[k].units;
  }

  // ---------------------------------------------------------------- when the source returns

  /** The units 0 .. n - 1. */
  function Range(n: nat): (r: set<int>)
    ensures forall u :: u in r <==> 0 <= u < n
  {
    if n == 0 then {} else Range(n - 1) + {n - 1}
  }

  lemma {:induction false} RangeSize(n: nat)
    ensures |Range(n)| == n
  {
    if n > 0 {
      assert n - 1 !in Range(n - 1);
      RangeSize(n - 1);
    }
  }

  /** Fewer taken units than units: one in [0, max) is free. */
  lemma FreeUnitExists(used: set<int>, max: pos)
    requires |used| < max
    ensures exists u :: 0 <= u < max && u !in used
  {
    RangeSize(max);
    var free := Range(max) - used;
    assert |free| + |Range(max) * used| == max;
    assert |used - Range(max)| + |used * Range(max)| == |used|;
    assert Range(max) * used == used * Range(max);
    var u :| u in free;
    assert 0 <= u < max && u !in used;
  }

  lemma {:induction false} ElementsSize(used: set<int>, units: seq<int>)
    requires Distinct(units) && forall a :: 0 <= a < |units| ==> units[a] !in used
    ensures |used + Elements(units)| == |used| + |units|
    decreases |units|
  {
    if |units| > 0 {
      var rest := units[1..];
      assert Elements(units) == {units[0]} + Elements(rest);
      assert forall a :: 0 <= a < |rest| ==> rest[a] == units[a + 1];
      ElementsSize(used + {units[0]}, rest);
      assert used + Elements(units) == used + {units[0]} + Elements(rest);
    }
  }

  /** A sampler's probe runs end whenever enough units are free. */
  lemma {:induction false} TakeUnitsReturns(c: int, count: nat, used: set<int>, max: pos)
    requires InUnitRange(c, max) && |used| + count <= max
    ensures TakeUnits(c, count, used, max).Some?
    ensures |TakeUnits(c, count, used, max).value.used| == |used| + count
    decreases count
  {
    if count > 0 {
      FreeUnitExists(used, max);
      var u := NextFree(c, used, max).value;
      TakeUnitsReturns(u, count - 1, used + {u}, max);
    } else {
      assert TakeUnits(c, count, used, max).value.used == used;
    }
  }

  /** The array sizes of samplers from `lo` on: all, those with a cached name, and the others. */
  function Total(ss: seq<GLSampler>, lo: nat): nat
    decreases |ss| - lo
  {
    if lo >= |ss| then 0 else ss[lo].count + Total(ss, lo + 1)
  }

  function SumIn(ss: seq<GLSampler>, m: map<string, int>, lo: nat): nat
    decreases |ss| - lo
  {
    if lo >= |ss| then 0 else (if ss[lo].name in m then ss[lo].count else 0) + SumIn(ss, m, lo + 1)
  }

  function SumOut(ss: seq<GLSampler>, m: map<string, int>, lo: nat): nat
    decreases |ss| - lo
  {
    if lo >= |ss| then 0 else (if ss[lo].name !in m then ss[lo].count else 0) + SumOut(ss, m, lo + 1)
  }

  lemma {:induction false} SumSplit(ss: seq<GLSampler>, m: map<string, int>, lo: nat)
    ensures SumIn(ss, m, lo) + SumOut(ss, m, lo) == Total(ss, lo)
    decreases |ss| - lo
  {
    if lo < |ss| {
      SumSplit(ss, m, lo + 1);
    }
  }

  /** Sums only see names and array sizes. */
  lemma {:induction false} SumsKeep(ss: seq<GLSampler>, m: map<string, int>, lo: nat, i: nat, x: GLSampler)
    requires i < |ss| && x.name == ss[i].name && x.count == ss[i].count
    ensures SumIn(ss[i := x], m, lo) == SumIn(ss, m, lo) && SumOut(ss[i := x], m, lo) == SumOut(ss, m, lo)
    decreases |ss| - lo
  {
    if lo < |ss| {
      SumsKeep(ss, m, lo + 1, i, x);
    }
  }

  lemma {:induction false} SumOutAlike(ss: seq<GLSampler>, ss': seq<GLSampler>, m: map<string, int>, lo: nat)
    requires |ss| == |ss'| && forall j :: 0 <= j < |ss| ==> ss[j].name == ss'[j].name && ss[j].count == ss'[j].count
    ensures SumOut(ss, m, lo) == SumOut(ss', m, lo)
    decreases |ss| - lo
  {
    if lo < |ss| {
      SumOutAlike(ss, ss', m, lo + 1);
    }
  }

  lemma {:induction false} ReuseReturns(a: Assigned, locs: seq<Handle>, max: pos, i: nat)
    requires |locs| == |a.samplers| && i <= |a.samplers| && CacheInRange(a.cacheMap, max)
    requires |a.used| + SumIn(a.samplers, a.cacheMap, i) <= max
    ensures ReuseFrom(a, locs, max, i).Some?
    ensures |ReuseFrom(a, locs, max, i).value.used| == |a.used| + SumIn(a.samplers, a.cacheMap, i)
    decreases |a.samplers| - i
  {
    if i < |a.samplers| {
      var s := a.samplers[i];
      if s.name in a.cacheMap {
        TakeUnitsReturns(a.cacheMap[s.name], s.count, a.used, max);
        var t := TakeUnits(a.cacheMap[s.name], s.count, a.used, max).value;
        SumsKeep(a.samplers, a.cacheMap, i + 1, i, Took(s, locs[i], t));
        ReuseReturns(a.(samplers := a.samplers[i := Took(s, locs[i], t)], used := t.used), locs, max, i + 1);
      } else {
        ReuseReturns(a, locs, max, i + 1);
      }
    }
  }

  lemma {:induction false} FillReturns(a: Assigned, locs: seq<Handle>, max: pos, i: nat, m0: map<string, int>)
    requires |locs| == |a.samplers| && i <= |a.samplers| && CacheInRange(a.cacheMap, max)
    requires InUnitRange(a.cursor, max)
    requires forall j :: i <= j < |a.samplers| && a.samplers[j].glLoc.None? ==> a.samplers[j].name !in m0
    requires |a.used| + SumOut(a.samplers, m0, i) <= max
    ensures FillFrom(a, locs, max, i).Some?
    decreases |a.samplers| - i
  {
    if i < |a.samplers| {
      var s := a.samplers[i];
      if s.glLoc.None? {
        TakeUnitsReturns(a.cursor, s.count, a.used, max);
        TakeUnitsFacts(a.cursor, s.count, a.used, max);
        var t := TakeUnits(a.cursor, s.count, a.used, max).value;
        var m := if s.name !in a.cacheMap && s.count > 0 then a.cacheMap[s.name := t.units[0]] else a.cacheMap;
        SumsKeep(a.samplers, m0, i + 1, i, Took(s, locs[i], t));
        FillReturns(Assigned(a.samplers[i := Took(s, locs[i], t)], t.used, m, t.cursor), locs, max, i + 1, m0);
      } else {
        FillReturns(a, locs, max, i + 1, m0);
      }
    }
  }

  /**
   * The source's search for units ends (it would otherwise spin forever) whenever the active
   * samplers' array sizes add up to at most the number of texture units.
   */
  lemma AssignReturns(samplers: seq<GLSampler>, locs: seq<Handle>, cacheMap: map<string, int>, max: pos)
    requires |locs| == |samplers| && CacheInRange(cacheMap, max)
    requires forall i :: 0 <= i < |locs| ==> locs[i].Some?
    requires Total(samplers, 0) <= max
    ensures AssignUnits(samplers, locs, cacheMap, max).Some?
  {
    var a0 := Assigned(samplers, {}, cacheMap, 0);
    SumSplit(samplers, cacheMap, 0);
    ReuseReturns(a0, locs, max, 0);
    ReuseShape(a0, locs, max, 0);
    var a := ReuseFrom(a0, locs, max, 0).value;
    forall j | 0 <= j < |a.samplers|
      ensures a.samplers[j].glLoc.None? ==> a.samplers[j].name !in cacheMap
    {
      if samplers[j].name in cacheMap {
        assert Handled(samplers[j], a.samplers[j], locs[j]);
      }
    }
    SumOutAlike(samplers, a.samplers, cacheMap, 0);
    FillReturns(a.(cursor := 0), locs, max, 0, cacheMap);
  }

  lemma {:induction false} FillIdle(a: Assigned, locs: seq<Handle>, max: pos, i: nat)
    requires |locs| == |a.samplers| && i <= |a.samplers| && CacheInRange(a.cacheMap, max)
    requires InUnitRange(a.cursor, max)
    requires forall j :: i <= j < |a.samplers| ==> a.samplers[j].glLoc.Some?
    ensures FillFrom(a, locs, max, i) == Some(a)
    decreases |a.samplers| - i
  {
    if i < |a.samplers| {
      FillIdle(a, locs, max, i + 1);
    }
  }

  /**
   * When every active sampler already has a cached unit (as the unit-cache pass guarantees),
   * the sequential fill does nothing: the name-to-unit cache is left unchanged.
   */
  lemma AllCachedNoFill(samplers: seq<GLSampler>, locs: seq<Handle>, cacheMap: map<string, int>, max: pos)
    requires |locs| == |samplers| && CacheInRange(cacheMap, max)
    requires forall i :: 0 <= i < |locs| ==> locs[i].Some? && samplers[i].name in cacheMap
    requires AssignUnits(samplers, locs, cacheMap, max).Some?
    ensures AssignUnits(samplers, locs, cacheMap, max).value.cacheMap == cacheMap
  {
    var a0 := Assigned(samplers, {}, cacheMap, 0);
    ReuseShape(a0, locs, max, 0);
    var a := ReuseFrom(a0, locs, max, 0).value;
    forall j | 0 <= j < |a.samplers| ensures a.samplers[j].glLoc.Some? {
      assert Handled(samplers[j], a.samplers[j], locs[j]);
    }
    FillIdle(a.(cursor := 0), locs, max, 0);
  }
}

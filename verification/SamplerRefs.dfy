/**
 * OpenGL sampler states: reference counts shared by the sampler's owner and the textures it was
 * last applied to, and the device's table of current samplers, which holds no reference.
 */
module SamplerRefs {
  import opened Wrappers

  type Sampler = nat
  type Texture = nat

  /**
   * `refs` are the allocated samplers with their counts, `owned` those whose creator has not
   * destroyed them, `holds` the live textures with the sampler each one keeps.
   */
  datatype State = State(
    refs: map<Sampler, int>, owned: set<Sampler>, holds: map<Texture, Option<Sampler>>, slots: seq<Option<Sampler>>)

  datatype Op =
    | Create(at: Sampler)
    | Destroy(sampler: Sampler)
    | CreateTexture(tex: Texture)
    | DestroyTexture(tex: Texture)
    | ApplySlot(tex: Texture, unit: nat)                                     // loading a texture
    | ApplyRaw(tex: Texture, raw: Sampler)                                   // ... that uses the device's own sampler
    | LoadSampler(ss: Option<Sampler>, unit: nat, bound: seq<Texture>)       // textures bound through this unit
    | LoadDefaults(defaults: seq<Sampler>)                                   // samplers of a new pixel shader

  // ----- Steps

  function AddRef(s: State, ss: Sampler): State {
    if ss in s.refs then s.(refs := s.refs[ss := s.refs[ss] + 1]) else s
  }

  /** Gives up one reference; the last one frees the sampler. */
  function Release(s: State, ss: Sampler): State {
    if ss !in s.refs then s
    else if s.refs[ss] == 1 then s.(refs := s.refs - {ss})
    else s.(refs := s.refs[ss := s.refs[ss] - 1])
  }

  function Dropped(s: State, tex: Texture): State
    requires tex in s.holds
  {
    if s.holds[tex].Some? then Release(s, s.holds[tex].value).(holds := s.holds[tex := None]) else s
  }

  function Taken(s: State, tex: Texture, ss: Sampler): State
    requires tex in s.holds
  {
    AddRef(s, ss).(holds := s.holds[tex := Some(ss)])
  }

  /** A texture exchanges the sampler it keeps. */
  function Applied(s: State, tex: Texture, ss: Sampler): (s': State)
    requires tex in s.holds
    ensures s'.holds.Keys == s.holds.Keys && s'.slots == s.slots && s'.owned == s.owned
  {
    if s.holds[tex] == Some(ss) then s else Taken(Dropped(s, tex), tex, ss)
  }

  function AppliedAll(s: State, bound: seq<Texture>, ss: Sampler): (s': State)
    requires forall i :: 0 <= i < |bound| ==> bound[i] in s.holds
    ensures s'.holds.Keys == s.holds.Keys && s'.slots == s.slots && s'.owned == s.owned
    decreases |bound|
  {
    if bound == [] then s else AppliedAll(Applied(s, bound[0], ss), bound[1..], ss)
  }

  function Without(slots: seq<Option<Sampler>>, ss: Sampler): (r: seq<Option<Sampler>>)
    ensures |r| == |slots| && forall i :: 0 <= i < |r| ==> r[i] == if slots[i] == Some(ss) then None else slots[i]
  {
    seq(|slots|, i requires 0 <= i < |slots| => if slots[i] == Some(ss) then None else slots[i])
  }

  function Defaults(n: nat, defaults: seq<Sampler>): (r: seq<Option<Sampler>>)
    ensures |r| == n && forall i :: 0 <= i < n ==> r[i] == if i < |defaults| then Some(defaults[i]) else None
  {
    seq(n, i => if 0 <= i < |defaults| then Some(defaults[i]) else None)
  }

  predicate Allowed(s: State, op: Op) {
    match op
    case Create(at) => at !in s.refs
    case Destroy(ss) => ss in s.owned
    case CreateTexture(tex) => tex !in s.holds
    case DestroyTexture(tex) => tex in s.holds
    case ApplySlot(tex, unit) => tex in s.holds && unit < |s.slots|
    case ApplyRaw(tex, raw) => tex in s.holds && raw in s.owned
    case LoadSampler(ss, unit, bound) =>
      unit < |s.slots| && (ss.Some? ==> ss.value in s.owned) && forall i :: 0 <= i < |bound| ==> bound[i] in s.holds
    case LoadDefaults(defaults) => |defaults| <= |s.slots| && forall i :: 0 <= i < |defaults| ==> defaults[i] in s.owned
  }

  function Next(s: State, op: Op): State
    requires Allowed(s, op)
  {
    match op
    case Create(at) => s.(refs := s.refs[at := 1], owned := s.owned + {at})
    case Destroy(ss) => Release(s.(slots := Without(s.slots, ss), owned := s.owned - {ss}), ss)
    case CreateTexture(tex) => s.(holds := s.holds[tex := None])
    case DestroyTexture(tex) =>
      var s1 := if s.holds[tex].Some? then s.(slots := Without(s.slots, s.holds[tex].value)) else s;
      var s2 := Dropped(s1, tex);
      s2.(holds := s2.holds - {tex})
    case ApplySlot(tex, unit) =>
      if s.slots[unit].Some? then Applied(s, tex, s.slots[unit].value) else s
    case ApplyRaw(tex, raw) => Applied(s, tex, raw)
    case LoadSampler(ss, unit, bound) =>
      if s.slots[unit] == ss then s
      else
        var s1 := s.(slots := s.slots[unit := ss]);
        if ss.None? then s1 else AppliedAll(s1, bound, ss.value)
    case LoadDefaults(defaults) => s.(slots := Defaults(|s.slots|, defaults))
  }

  // ----- Invariant

  function Holders(holds: map<Texture, Option<Sampler>>, ss: Sampler): set<Texture> {
    set t | t in holds && holds[t] == Some(ss)
  }

  /** What a sampler's count should be. */
  function Due(s: State, ss: Sampler): nat { (if ss in s.owned then 1 else 0) + |Holders(s.holds, ss)| }

  predicate Inv(s: State) {
    && (forall ss :: ss in s.refs ==> s.refs[ss] == Due(s, ss) > 0)
    && (forall ss :: ss in s.owned ==> ss in s.refs)
    && (forall t :: t in s.holds && s.holds[t].Some? ==> s.holds[t].value in s.refs)
    && (forall i :: 0 <= i < |s.slots| && s.slots[i].Some? ==> s.slots[i].value in s.owned)
  }

  /** A sampler is allocated exactly while its owner or some texture has it. */
  lemma {:induction false} AllocatedWhileNeeded(s: State, ss: Sampler)
    requires Inv(s)
    ensures ss in s.refs <==> ss in s.owned || exists t :: t in s.holds && s.holds[t] == Some(ss)
  {
    if ss in s.refs && ss !in s.owned {
      assert Holders(s.holds, ss) != {};
      var t :| t in Holders(s.holds, ss);
    }
  }

  lemma {:induction false} HoldersAfter(holds: map<Texture, Option<Sampler>>, tex: Texture, x: Option<Sampler>, ss: Sampler)
    requires tex in holds
    ensures Holders(holds[tex := x], ss) ==
            if x == Some(ss) then Holders(holds, ss) + {tex} else Holders(holds, ss) - {tex}
  {
  }

  /** A texture letting go: one holder less, one reference less. */
  lemma {:induction false} DropKeepsInv(s: State, tex: Texture)
    requires Inv(s) && tex in s.holds
    ensures Inv(Dropped(s, tex)) && Dropped(s, tex).holds == s.holds[tex := None]
  {
    if s.holds[tex].Some? {
      var ss, s' := s.holds[tex].value, Dropped(s, tex);
      forall r ensures Holders(s'.holds, r) == if r == ss then Holders(s.holds, r) - {tex} else Holders(s.holds, r) {
        HoldersAfter(s.holds, tex, None, r);
        assert r != ss ==> tex !in Holders(s.holds, r);
      }
      assert tex in Holders(s.holds, ss);
      forall t | t in s'.holds && s'.holds[t].Some? ensures s'.holds[t].value in s'.refs {
        if s'.holds[t] == Some(ss) {
          var others := Holders(s.holds, ss) - {tex};
          assert t in others && |others| == |Holders(s.holds, ss)| - 1;
          assert others != {};
          assert s.refs[ss] != 1;
        }
      }
    } else {
      assert s.holds[tex := None] == s.holds;
    }
  }

  /** A texture without a sampler taking one: one holder more, one reference more. */
  lemma {:induction false} TakeKeepsInv(s: State, tex: Texture, ss: Sampler)
    requires Inv(s) && tex in s.holds && s.holds[tex] == None && ss in s.owned
    ensures Inv(Taken(s, tex, ss))
  {
    var s' := Taken(s, tex, ss);
    forall r ensures Holders(s'.holds, r) == if r == ss then Holders(s.holds, r) + {tex} else Holders(s.holds, r) {
      HoldersAfter(s.holds, tex, Some(ss), r);
      assert tex !in Holders(s.holds, r);
    }
  }

  lemma {:induction false} ApplyKeepsInv(s: State, tex: Texture, ss: Sampler)
    requires Inv(s) && tex in s.holds && ss in s.owned
    ensures Inv(Applied(s, tex, ss))
  {
    if s.holds[tex] != Some(ss) {
      DropKeepsInv(s, tex);
      TakeKeepsInv(Dropped(s, tex), tex, ss);
    }
  }

  lemma {:induction false} ApplyAllKeepsInv(s: State, bound: seq<Texture>, ss: Sampler)
    requires Inv(s) && ss in s.owned && forall i :: 0 <= i < |bound| ==> bound[i] in s.holds
    ensures Inv(AppliedAll(s, bound, ss))
    decreases |bound|
  {
    if bound != [] {
      ApplyKeepsInv(s, bound[0], ss);
      ApplyAllKeepsInv(Applied(s, bound[0], ss), bound[1..], ss);
    }
  }

  lemma {:induction false} DestroyKeepsInv(s: State, ss: Sampler)
    requires Inv(s) && ss in s.owned
    ensures Inv(Next(s, Destroy(ss)))
  {
    var s' := Next(s, Destroy(ss));
    forall t | t in s'.holds && s'.holds[t].Some? ensures s'.holds[t].value in s'.refs {
      if s'.holds[t] == Some(ss) { assert t in Holders(s.holds, ss); }
    }
  }

  lemma {:induction false} DestroyTextureKeepsInv(s: State, tex: Texture)
    requires Inv(s) && tex in s.holds
    ensures Inv(Next(s, DestroyTexture(tex)))
  {
    var s1 := if s.holds[tex].Some? then s.(slots := Without(s.slots, s.holds[tex].value)) else s;
    assert Inv(s1);
    DropKeepsInv(s1, tex);
    var s2 := Dropped(s1, tex);
    var s' := s2.(holds := s2.holds - {tex});
    forall r ensures Holders(s'.holds, r) == Holders(s2.holds, r) { }
  }

  lemma {:induction false} CreateKeepsInv(s: State, at: Sampler)
    requires Inv(s) && at !in s.refs
    ensures Inv(Next(s, Create(at)))
  {
    assert Holders(s.holds, at) == {};
  }

  lemma {:induction false} CreateTextureKeepsInv(s: State, tex: Texture)
    requires Inv(s) && tex !in s.holds
    ensures Inv(Next(s, CreateTexture(tex)))
  {
    var s' := Next(s, CreateTexture(tex));
    forall r ensures Holders(s'.holds, r) == Holders(s.holds, r) { }
  }

  /** Every step keeps each count equal to one for a live owner plus the textures holding the sampler. */
  lemma {:induction false} NextKeepsInv(s: State, op: Op)
    requires Inv(s) && Allowed(s, op)
    ensures Inv(Next(s, op))
  {
    match op
    case Create(at) => CreateKeepsInv(s, at);
    case Destroy(ss) => DestroyKeepsInv(s, ss);
    case CreateTexture(tex) => CreateTextureKeepsInv(s, tex);
    case DestroyTexture(tex) => DestroyTextureKeepsInv(s, tex);
    case ApplySlot(tex, unit) => if s.slots[unit].Some? { ApplyKeepsInv(s, tex, s.slots[unit].value); }
    case ApplyRaw(tex, raw) => ApplyKeepsInv(s, tex, raw);
    case LoadSampler(ss, unit, bound) =>
      if s.slots[unit] != ss {
        var s1 := s.(slots := s.slots[unit := ss]);
        assert Inv(s1);
        if ss.Some? { ApplyAllKeepsInv(s1, bound, ss.value); }
      }
    case LoadDefaults(defaults) =>
  }

  // ----- Who has which sampler after a step

  /** The textures among `ts` end up with the sampler, all others keep what they have. */
  predicate HoldOnly(s: State, s': State, ts: set<Texture>, ss: Option<Sampler>) {
    && s'.holds.Keys == s.holds.Keys
    && forall t :: t in s.holds ==> s'.holds[t] == if t in ts then ss else s.holds[t]
  }

  lemma {:induction false} AppliedHolds(s: State, tex: Texture, ss: Sampler)
    requires tex in s.holds
    ensures HoldOnly(s, Applied(s, tex, ss), {tex}, Some(ss))
  {
  }

  lemma {:induction false} AppliedAllHold(s: State, bound: seq<Texture>, ss: Sampler)
    requires forall i :: 0 <= i < |bound| ==> bound[i] in s.holds
    ensures HoldOnly(s, AppliedAll(s, bound, ss), (set t | t in bound), Some(ss))
    decreases |bound|
  {
    hide Applied;
    if bound != [] {
      AppliedHolds(s, bound[0], ss);
      AppliedAllHold(Applied(s, bound[0], ss), bound[1..], ss);
      assert forall t :: t in bound <==> t == bound[0] || t in bound[1..];
    }
  }

  /** Samplers applied to textures: each then holds exactly the sampler applied, and the others what they held. */
  lemma {:induction false} ApplyingHolds(s: State, op: Op)
    requires Allowed(s, op) && (op.ApplySlot? || op.ApplyRaw? || op.LoadSampler?)
    ensures var s' := Next(s, op);
            && s'.owned == s.owned
            && match op
               case ApplySlot(tex, unit) =>
                 s'.slots == s.slots && HoldOnly(s, s', if s.slots[unit].Some? then {tex} else {}, s.slots[unit])
               case ApplyRaw(tex, raw) => s'.slots == s.slots && HoldOnly(s, s', {tex}, Some(raw))
               case LoadSampler(ss, unit, bound) =>
                 && |s'.slots| == |s.slots| && s'.slots[unit] == ss
                 && (forall i :: 0 <= i < |s.slots| && i != unit ==> s'.slots[i] == s.slots[i])
                 && HoldOnly(s, s', if ss.Some? && s.slots[unit] != ss then (set t | t in bound) else {}, ss)
  {
    hide Applied;
    match op
    case ApplySlot(tex, unit) => if s.slots[unit].Some? { AppliedHolds(s, tex, s.slots[unit].value); }
    case ApplyRaw(tex, raw) => AppliedHolds(s, tex, raw);
    case LoadSampler(ss, unit, bound) =>
      if ss.Some? { AppliedAllHold(s.(slots := s.slots[unit := ss]), bound, ss.value); }
  }

  /** Creating and destroying, and the samplers of a new pixel shader. */
  lemma {:induction false} LifetimesHold(s: State, op: Op)
    requires Allowed(s, op) && !op.ApplySlot? && !op.ApplyRaw? && !op.LoadSampler?
    ensures var s' := Next(s, op);
            && |s'.slots| == |s.slots|
            && match op
               case Create(at) => s'.owned == s.owned + {at} && s'.holds == s.holds && s'.slots == s.slots
               case Destroy(ss) =>
                 && s'.owned == s.owned - {ss} && s'.holds == s.holds
                 && forall i :: 0 <= i < |s.slots| ==> s'.slots[i] == if s.slots[i] == Some(ss) then None else s.slots[i]
               case CreateTexture(tex) => s'.owned == s.owned && s'.holds == s.holds[tex := None] && s'.slots == s.slots
               case DestroyTexture(tex) =>
                 && s'.owned == s.owned && s'.holds == s.holds - {tex}
                 && forall i :: 0 <= i < |s.slots| ==>
                      s'.slots[i] == if s.slots[i] == s.holds[tex] then None else s.slots[i]
               case LoadDefaults(defaults) =>
                 && s'.owned == s.owned && s'.holds == s.holds
                 && forall i :: 0 <= i < |s.slots| ==> s'.slots[i] == if i < |defaults| then Some(defaults[i]) else None
               case _ => false
  {
    if op.DestroyTexture? {
      assert s.holds[op.tex := None] - {op.tex} == s.holds - {op.tex};
    }
  }

  // ----- Whole runs

  predicate AllAllowed(s: State, ops: seq<Op>)
    decreases |ops|
  {
    ops == [] || (Allowed(s, ops[0]) && AllAllowed(Next(s, ops[0]), ops[1..]))
  }

  function Run(s: State, ops: seq<Op>): State
    requires AllAllowed(s, ops)
    decreases |ops|
  {
    if ops == [] then s else Run(Next(s, ops[0]), ops[1..])
  }

  /** Over every run counts are conserved, and no slot names a sampler whose owner is gone. */
  lemma {:induction false} CountsConserved(s: State, ops: seq<Op>)
    requires Inv(s) && AllAllowed(s, ops)
    ensures Inv(Run(s, ops))
    decreases |ops|
  {
    if ops != [] {
      NextKeepsInv(s, ops[0]);
      CountsConserved(Next(s, ops[0]), ops[1..]);
    }
  }

  // ----- The device's part

  class Device {
    var refs: map<Sampler, int>
    ghost var owned: set<Sampler>
    var holds: map<Texture, Option<Sampler>>
    const curSamplers: array<Option<Sampler>>

    constructor (n: nat)
      ensures St() == State(map[], {}, map[], seq(n, _ => None)) && fresh(curSamplers)
    {
      refs, owned, holds := map[], {}, map[];
      curSamplers := new Option<Sampler>[n](_ => None);
    }

    ghost function St(): State
      reads this, curSamplers
    {
      State(refs, owned, holds, curSamplers[..])
    }

    method SamplerAddRef(ss: Sampler)
      requires ss in refs
      modifies this`refs
      ensures St() == AddRef(old(St()), ss)
    {
      refs := refs[ss := refs[ss] + 1];
    }

    method SamplerRelease(ss: Sampler)
      requires ss in refs
      modifies this`refs
      ensures St() == Release(old(St()), ss)
    {
      var left := refs[ss] - 1;
      refs := refs[ss := left];
      if left == 0 {
        refs := refs - {ss};
        assert refs == old(refs) - {ss};
      }
    }

    method CreateSampler(at: Sampler)
      requires at !in refs
      modifies this`refs, this`owned
      ensures St() == Next(old(St()), Create(at))
    {
      refs, owned := refs[at := 1], owned + {at};
    }

    /** Clears the sampler from the table, then gives up the caller's reference. */
    method DestroySampler(ss: Sampler)
      requires ss in refs
      modifies this`refs, curSamplers
      ensures St() == Release(old(St()).(slots := Without(old(St()).slots, ss)), ss)
    {
      var i := 0;
      while i < curSamplers.Length
        invariant 0 <= i <= curSamplers.Length && refs == old(refs)
        invariant forall k :: 0 <= k < i ==>
          curSamplers[k] == if old(curSamplers[k]) == Some(ss) then None else old(curSamplers[k])
        invariant forall k :: i <= k < curSamplers.Length ==> curSamplers[k] == old(curSamplers[k])
      {
        if curSamplers[i] == Some(ss) {
          curSamplers[i] := None;
        }
        i := i + 1;
      }
      assert curSamplers[..] == Without(old(curSamplers[..]), ss);
      SamplerRelease(ss);
    }

    /** The owner's destroy. */
    method DestroyOwned(ss: Sampler)
      requires Inv(St()) && ss in owned
      modifies this`refs, this`owned, curSamplers
      ensures St() == Next(old(St()), Destroy(ss))
    {
      assert ss in St().refs;
      owned := owned - {ss};
      DestroySampler(ss);
    }

    /** A destroyed texture destroys the sampler it keeps, which also empties the sampler's slots. */
    method DestroyTexture(tex: Texture)
      requires Inv(St()) && tex in holds
      modifies this`refs, this`holds, curSamplers
      ensures St() == Next(old(St()), Op.DestroyTexture(tex))
    {
      assert St().holds == holds;
      if holds[tex].Some? {
        DestroySampler(holds[tex].value);
      }
      holds := holds - {tex};
      assert holds == old(holds)[tex := None] - {tex};
    }

    method LoadTextureSampler(tex: Texture, ss: Sampler)
      requires Inv(St()) && tex in holds && ss in owned
      modifies this`refs, this`holds
      ensures St() == Applied(old(St()), tex, ss)
    {
      ghost var was := St();
      if holds[tex] == Some(ss) {
        return;
      }
      DropKeepsInv(was, tex);
      if holds[tex].Some? {
        SamplerRelease(holds[tex].value);
      }
      holds := holds[tex := Some(ss)];
      assert ss in Dropped(was, tex).refs;
      SamplerAddRef(ss);
      assert holds == was.holds[tex := None][tex := Some(ss)];
    }

    method LoadSamplerOnTextures(bound: seq<Texture>, ss: Sampler)
      requires Inv(St()) && ss in owned && forall i :: 0 <= i < |bound| ==> bound[i] in holds
      modifies this`refs, this`holds
      ensures St() == AppliedAll(old(St()), bound, ss)
    {
      hide Applied, Inv;
      ghost var was := St();
      var i := 0;
      while i < |bound|
        invariant 0 <= i <= |bound| && Inv(St()) && ss in owned
        invariant forall k :: 0 <= k < |bound| ==> bound[k] in holds
        invariant AppliedAll(St(), bound[i..], ss) == AppliedAll(was, bound, ss)
      {
        ApplyKeepsInv(St(), bound[i], ss);
        assert bound[i..][0] == bound[i] && bound[i..][1..] == bound[i + 1..];
        LoadTextureSampler(bound[i], ss);
        i := i + 1;
      }
    }

    method LoadSamplerState(ss: Option<Sampler>, unit: nat, bound: seq<Texture>)
      requires Inv(St()) && Allowed(St(), LoadSampler(ss, unit, bound))
      modifies this`refs, this`holds, curSamplers
      ensures St() == Next(old(St()), LoadSampler(ss, unit, bound))
    {
      if curSamplers[unit] == ss {
        return;
      }
      ghost var was := St();
      curSamplers[unit] := ss;
      assert curSamplers[..] == was.slots[unit := ss];
      if ss.None? {
        return;
      }
      LoadSamplerOnTextures(bound, ss.value);
    }

    method LoadDefaultSamplers(defaults: seq<Sampler>)
      requires |defaults| <= curSamplers.Length && forall i :: 0 <= i < |defaults| ==> defaults[i] in owned
      modifies curSamplers
      ensures St() == Next(old(St()), LoadDefaults(defaults))
    {
      var i := 0;
      while i < |defaults|
        invariant 0 <= i <= |defaults|
        invariant forall k :: 0 <= k < i ==> curSamplers[k] == Some(defaults[k])
      {
        curSamplers[i] := Some(defaults[i]);
        i := i + 1;
      }
      while i < curSamplers.Length
        invariant |defaults| <= i <= curSamplers.Length
        invariant forall k :: 0 <= k < i ==> curSamplers[k] == if k < |defaults| then Some(defaults[k]) else None
      {
        curSamplers[i] := None;
        i := i + 1;
      }
    }
  }
}

/**
 * Direct3D 11 pipeline state: the device remembers which blend, raster or depth-stencil state is
 * requested, builds driver objects only when a draw needs one it has not built before, and binds
 * one only when it differs from the last one bound. The same scheme serves all three kinds.
 */
module LazyState {
  import opened Wrappers

  /** Enumerators of the graphics API, by number. */
  type Enum = nat

  datatype Side = Side(test: Enum, fail: Enum, zfail: Enum, zpass: Enum)

  /** A requested state. */
  datatype Request =
    | Blend(enabled: bool, srcColor: Enum, destColor: Enum, srcAlpha: Enum, destAlpha: Enum, op: Enum,
            red: bool, green: bool, blue: bool, alpha: bool)
    | Raster(cull: Enum, scissor: bool)
    | Depth(depth: bool, depthWrite: bool, depthFunc: Enum, stencil: bool, stencilWrite: bool, front: Side, back: Side)

  /** What a driver object is created from; all eight blend targets are described alike. */
  datatype Descriptor =
    | BlendDesc(enable: bool, op: Enum, opAlpha: Enum, src: Enum, dest: Enum, srcA: Enum, destA: Enum, mask: nat)
    | RasterDesc(counterClockwise: bool, cull: Enum, depthClip: bool, scissor: bool)
    | DepthDesc(enable: bool, func: Enum, writeAll: bool, stencil: bool, readMask: nat, writeMask: nat, front: Side, back: Side)

  function Bit(b: bool, value: nat): nat { if b then value else 0 }

  function Convert(r: Request): Descriptor {
    match r
    case Blend(enabled, sc, dc, sa, da, op, red, green, blue, alpha) =>
      BlendDesc(enabled, op, op, sc, dc, sa, da, Bit(red, 1) + Bit(green, 2) + Bit(blue, 4) + Bit(alpha, 8))
    case Raster(cull, scissor) => RasterDesc(true, cull, true, scissor)
    case Depth(depth, depthWrite, func, stencil, stencilWrite, front, back) =>
      DepthDesc(depth, func, depthWrite, stencil, 255, Bit(stencilWrite, 255), front, back)
  }

  /** Different requests need different objects: nothing of a request is lost in its descriptor. */
  lemma {:induction false} ConvertInjective(a: Request, b: Request)
    requires Convert(a) == Convert(b)
    ensures a == b
  {
    if a.Blend? {
      MaskInjective(a.red, a.green, a.blue, a.alpha, b.red, b.green, b.blue, b.alpha);
    }
  }

  lemma {:induction false} MaskInjective(r: bool, g: bool, b: bool, a: bool, r': bool, g': bool, b': bool, a': bool)
    requires Bit(r, 1) + Bit(g, 2) + Bit(b, 4) + Bit(a, 8) == Bit(r', 1) + Bit(g', 2) + Bit(b', 4) + Bit(a', 8)
    ensures r == r' && g == g' && b == b' && a == a'
  {
  }

  // ----- Requests and descriptors, field by field

  predicate HasBit(mask: nat, value: nat)
    requires value > 0
  {
    mask / value % 2 == 1
  }

  /**
   * The descriptor asks the driver for what was requested: blending with these factors and this
   * operation for colour and alpha, writing these channels; culling these faces, counted
   * counter-clockwise; comparing and writing depth and stencil like this.
   */
  predicate Describes(d: Descriptor, r: Request) {
    match r
    case Blend(_, _, _, _, _, _, _, _, _, _) =>
      && d.BlendDesc? && d.enable == r.enabled && d.op == r.op && d.opAlpha == r.op
      && d.src == r.srcColor && d.dest == r.destColor && d.srcA == r.srcAlpha && d.destA == r.destAlpha
      && d.mask < 16 && HasBit(d.mask, 1) == r.red && HasBit(d.mask, 2) == r.green && HasBit(d.mask, 4) == r.blue
      && HasBit(d.mask, 8) == r.alpha
    case Raster(_, _) => d.RasterDesc? && d.counterClockwise && d.depthClip && d.cull == r.cull && d.scissor == r.scissor
    case Depth(_, _, _, _, _, _, _) =>
      && d.DepthDesc? && d.enable == r.depth && d.func == r.depthFunc && d.writeAll == r.depthWrite
      && d.stencil == r.stencil && d.readMask == 255 && d.writeMask == (if r.stencilWrite then 255 else 0)
      && d.front.test == r.front.test && d.front.fail == r.front.fail
      && d.front.zfail == r.front.zfail && d.front.zpass == r.front.zpass
      && d.back.test == r.back.test && d.back.fail == r.back.fail && d.back.zfail == r.back.zfail && d.back.zpass == r.back.zpass
  }

  lemma {:induction false} ConvertDescribes(r: Request)
    ensures Describes(Convert(r), r)
  {
  }

  /** A driver object: its pointer, and the descriptor it was created from. */
  datatype Object = Object(pointer: nat, desc: Descriptor)

  /** A remembered state: the request it answers, its descriptor, its object unless released. */
  datatype Saved = Saved(key: Request, desc: Descriptor, state: Option<Object>)

  /** `current` is the object the device believes to be bound, `bound` the one that is. */
  datatype State = State(
    requested: Request, changed: bool, saved: seq<Saved>, current: Option<Object>, bound: Option<Object>)

  datatype Op =
    | Set(value: Request, force: bool)   // setters; some flag a change without comparing
    | Update(created: Option<nat>)        // before a draw; the pointer a new object would get
    | LoseDevice(recreated: seq<nat>)     // the pointers of the rebuilt objects

  // ----- Steps

  /** Index of the first remembered state with this key, or the length. */
  function Find(saved: seq<Saved>, key: Request): (k: nat)
    ensures k <= |saved|
    ensures k < |saved| ==> saved[k].key == key
    ensures forall i :: 0 <= i < k ==> saved[i].key != key
  {
    if saved == [] || saved[0].key == key then 0
    else
      var k := Find(saved[1..], key);
      assert forall i :: 1 <= i < k + 1 ==> saved[i] == saved[1..][i - 1];
      k + 1
  }

  function Known(s: State): Option<Object> {
    var k := Find(s.saved, s.requested);
    if k < |s.saved| then s.saved[k].state else None
  }

  function Bind(s: State, o: Object): State {
    if s.current.Some? && s.current.value.pointer == o.pointer then s.(changed := false)
    else s.(changed := false, current := Some(o), bound := Some(o))
  }

  function Updated(s: State, created: Option<nat>): State {
    if !s.changed then s
    else if Known(s).Some? then Bind(s, Known(s).value)
    else if created.None? then s
    else
      var o := Object(created.value, Convert(s.requested));
      Bind(s.(saved := s.saved + [Saved(s.requested, o.desc, Some(o))]), o)
  }

  predicate Throws(s: State, created: Option<nat>) {
    s.changed && Known(s).None? && created.None?
  }

  function Released(saved: seq<Saved>): (r: seq<Saved>)
    ensures |r| == |saved|
    ensures forall i :: 0 <= i < |r| ==> r[i] == saved[i].(state := None)
  {
    seq(|saved|, i requires 0 <= i < |saved| => saved[i].(state := None))
  }

  function Rebuilt(saved: seq<Saved>, created: seq<nat>): (r: seq<Saved>)
    requires |created| == |saved|
    ensures |r| == |saved|
    ensures forall i :: 0 <= i < |r| ==> r[i] == saved[i].(state := Some(Object(created[i], saved[i].desc)))
  {
    seq(|saved|, i requires 0 <= i < |saved| => saved[i].(state := Some(Object(created[i], saved[i].desc))))
  }

  function Next(s: State, op: Op): State
    requires op.LoseDevice? ==> |op.recreated| == |s.saved|
  {
    match op
    case Set(value, force) =>
      if value == s.requested && !force then s else s.(requested := value, changed := true)
    case Update(created) => Updated(s, created)
    case LoseDevice(created) =>
      s.(saved := Rebuilt(Released(s.saved), created), changed := true, current := None, bound := None)
  }

  // ----- What the driver guarantees

  /** Two objects alive at once share a pointer only if they were created from the same descriptor. */
  predicate Coherent(saved: seq<Saved>) {
    forall i, j :: 0 <= i < |saved| && 0 <= j < |saved| && saved[i].state.Some? && saved[j].state.Some?
                   && saved[i].state.value.pointer == saved[j].state.value.pointer
                   ==> saved[i].state.value.desc == saved[j].state.value.desc
  }

  predicate Allowed(s: State, op: Op) {
    (op.LoseDevice? ==> |op.recreated| == |s.saved|) && Coherent(Next(s, op).saved)
  }

  // ----- Invariant

  predicate Faithful(e: Saved) {
    e.desc == Convert(e.key) && e.state.Some? && e.state.value.desc == e.desc
  }

  predicate Inv(s: State) {
    && (forall i :: 0 <= i < |s.saved| ==> Faithful(s.saved[i]))
    && (forall i, j :: 0 <= i < j < |s.saved| ==> s.saved[i].key != s.saved[j].key)
    && Coherent(s.saved)
    && s.bound == s.current
    && (s.current.Some? ==> exists i :: 0 <= i < |s.saved| && s.saved[i].state == s.current)
    && (!s.changed ==> Eager(s))
  }

  /** What setting every state on every draw would have bound. */
  predicate Eager(s: State) {
    s.bound.Some? && s.bound.value.desc == Convert(s.requested)
  }

  lemma {:induction false} UpdateKeepsInv(s: State, created: Option<nat>)
    requires Inv(s) && Coherent(Updated(s, created).saved)
    ensures Inv(Updated(s, created))
    ensures !Throws(s, created) ==> Eager(Updated(s, created))
    ensures Throws(s, created) ==> Updated(s, created) == s
  {
    var k := Find(s.saved, s.requested);
    if s.changed && k < |s.saved| {
      assert Faithful(s.saved[k]);
      HitKeepsInv(s, k);
    } else if s.changed && created.Some? {
      MissKeepsInv(s, created.value);
    }
  }

  lemma {:induction false} HitKeepsInv(s: State, k: nat)
    requires Inv(s) && k < |s.saved| && s.saved[k].key == s.requested && s.saved[k].state.Some?
    ensures var s' := Bind(s, s.saved[k].state.value); Inv(s') && Eager(s')
  {
    var s' := Bind(s, s.saved[k].state.value);
    assert Faithful(s.saved[k]);
    if s'.current == s.current {
      var i :| 0 <= i < |s.saved| && s.saved[i].state == s.current;
    }
  }

  lemma {:induction false} MissKeepsInv(s: State, pointer: nat)
    requires Inv(s) && Find(s.saved, s.requested) == |s.saved|
    requires Coherent(s.saved + [Saved(s.requested, Convert(s.requested), Some(Object(pointer, Convert(s.requested))))])
    ensures var o := Object(pointer, Convert(s.requested));
            var s' := Bind(s.(saved := s.saved + [Saved(s.requested, o.desc, Some(o))]), o);
            Inv(s') && Eager(s')
  {
    hide Convert, Coherent;
    var o := Object(pointer, Convert(s.requested));
    var saved := s.saved + [Saved(s.requested, o.desc, Some(o))];
    assert saved[|s.saved|].state == Some(o) && forall i :: 0 <= i < |s.saved| ==> saved[i] == s.saved[i];
    if s.current.Some? {
      var i :| 0 <= i < |s.saved| && s.saved[i].state == s.current;
      assert saved[i].state == s.current;
      SamePointer(saved, i, |s.saved|);
    }
  }

  lemma {:induction false} SamePointer(saved: seq<Saved>, i: nat, j: nat)
    requires Coherent(saved) && i < |saved| && j < |saved| && saved[i].state.Some? && saved[j].state.Some?
    ensures saved[i].state.value.pointer == saved[j].state.value.pointer ==>
              saved[i].state.value.desc == saved[j].state.value.desc
  {
  }

  lemma {:induction false} NextKeepsInv(s: State, op: Op)
    requires Inv(s) && Allowed(s, op)
    ensures Inv(Next(s, op))
  {
    match op
    case Set(value, force) =>
    case Update(created) => UpdateKeepsInv(s, created);
    case LoseDevice(created) =>
      var s' := Next(s, op);
      forall i | 0 <= i < |s'.saved| ensures Faithful(s'.saved[i]) && s'.saved[i].key == s.saved[i].key {
        assert Faithful(s.saved[i]);
      }
  }

  // ----- Runs

  predicate AllAllowed(s: State, ops: seq<Op>)
    decreases |ops|
  {
    ops == [] || (Allowed(s, ops[0]) && AllAllowed(Next(s, ops[0]), ops[1..]))
  }

  function Run(s: State, ops: seq<Op>): State
    requires AllAllowed(s, ops)
    decreases |ops|
  {
    if ops == [] then s else Run(Next(s, ops[0]), ops[1..])
  }

  // ----- What the steps do to the request and the flag

  lemma {:induction false} SetRequests(s: State, value: Request, force: bool)
    ensures var s' := Next(s, Set(value, force));
            && s'.requested == value && s' == s.(requested := value, changed := s'.changed)
            && (s'.changed <==> s.changed || force || value != s.requested)
  {
  }

  /** An update keeps what is remembered, and adds at most the requested state. */
  lemma {:induction false} UpdateRemembers(s: State, created: Option<nat>)
    ensures var s' := Next(s, Update(created));
            && s'.requested == s.requested && s.saved <= s'.saved && |s'.saved| <= |s.saved| + 1
            && (|s'.saved| > |s.saved| <==> s.changed && Known(s).None? && created.Some?)
            && (|s'.saved| > |s.saved| ==> s'.saved[|s.saved|].key == s.requested)
  {
  }

  /** After a device loss the same states are remembered under the same keys, nothing is bound, all is due. */
  lemma {:induction false} LossKeepsKeys(s: State, recreated: seq<nat>)
    requires |recreated| == |s.saved|
    ensures var s' := Next(s, LoseDevice(recreated));
            && s'.requested == s.requested && s'.changed && s'.bound.None? && s'.current.None? && |s'.saved| == |s.saved|
            && forall i :: 0 <= i < |s.saved| ==>
                 && s'.saved[i].key == s.saved[i].key && s'.saved[i].desc == s.saved[i].desc
                 && s'.saved[i].state == Some(Object(recreated[i], s.saved[i].desc))
  {
  }

  lemma {:induction false} RunKeepsInv(s: State, ops: seq<Op>)
    requires Inv(s) && AllAllowed(s, ops)
    ensures Inv(Run(s, ops))
    decreases |ops|
  {
    if ops != [] {
      NextKeepsInv(s, ops[0]);
      RunKeepsInv(Next(s, ops[0]), ops[1..]);
    }
  }

  /** A device that has just been created. */
  function Initial(requested: Request): State { State(requested, true, [], None, None) }

  /**
   * After any run of requests, updates that succeed or throw, and device losses, an update that
   * does not throw, and no other, leaves bound an object built from the state requested now.
   */
  lemma {:induction false} LazyRefinesEager(first: Request, ops: seq<Op>, created: Option<nat>)
    requires AllAllowed(Initial(first), ops)
    requires Allowed(Run(Initial(first), ops), Update(created))
    ensures var s := Run(Initial(first), ops);
            var s' := Next(s, Update(created));
            && s'.requested == s.requested
            && (Eager(s') <==> !Throws(s, created)) && (!Throws(s, created) ==> !s'.changed)
            && (!Throws(s, created) ==> s'.bound.Some? && Describes(s'.bound.value.desc, s.requested))
            && (Throws(s, created) ==> s' == s && s.changed && forall i :: 0 <= i < |s.saved| ==> s.saved[i].key != s.requested)
  {
    var s := Run(Initial(first), ops);
    RunKeepsInv(Initial(first), ops);
    UpdateKeepsInv(s, created);
    var k := Find(s.saved, s.requested);
    if k < |s.saved| { assert Faithful(s.saved[k]); }
    ConvertDescribes(s.requested);
    if Throws(s, created) { UnknownNotBound(s); }
  }

  /** A state that was never built cannot be bound under another request's name. */
  lemma {:induction false} UnknownNotBound(s: State)
    requires Inv(s) && forall i :: 0 <= i < |s.saved| ==> s.saved[i].key != s.requested
    ensures !Eager(s)
  {
    hide Convert, Coherent;
    if s.current.Some? {
      var i :| 0 <= i < |s.saved| && s.saved[i].state == s.current;
      assert Faithful(s.saved[i]);
      if Convert(s.saved[i].key) == Convert(s.requested) { ConvertInjective(s.saved[i].key, s.requested); }
    }
  }

  // ----- The device's part

  class StateCache {
    var requested: Request
    var changed: bool
    var saved: seq<Saved>
    var current: Option<Object>
    var bound: Option<Object>

    constructor (first: Request)
      ensures St() == Initial(first)
    {
      requested, changed, saved, current, bound := first, true, [], None, None;
    }

    ghost function St(): State
      reads this
    {
      State(requested, changed, saved, current, bound)
    }

    method SetState(value: Request, force: bool)
      modifies this`requested, this`changed
      ensures St() == Next(old(St()), Set(value, force))
    {
      if value == requested && !force {
        return;
      }
      requested := value;
      changed := true;
    }

    /** Builds and remembers an object for the requested state, if the driver can create one. */
    method AddState(created: Option<nat>) returns (state: Option<Object>)
      modifies this`saved
      ensures created.None? ==> state.None? && saved == old(saved)
      ensures created.Some? ==>
        var o := Object(created.value, Convert(requested));
        state == Some(o) && saved == old(saved) + [Saved(requested, o.desc, Some(o))]
      ensures created.Some? ==> state.value.pointer == created.value && Describes(state.value.desc, requested)
    {
      ConvertDescribes(requested);
      var desc := Convert(requested);
      if created.None? {
        return None;
      }
      state := Some(Object(created.value, desc));
      saved := saved + [Saved(requested, desc, state)];
    }

    method UpdateState(created: Option<nat>) returns (ok: bool)
      modifies this
      ensures St() == Next(old(St()), Update(created))
      ensures ok == !Throws(old(St()), created)
    {
      if !changed {
        return true;
      }
      var state: Option<Object> := None;
      var i := 0;
      while i < |saved|
        invariant 0 <= i <= |saved| && state.None?
        invariant forall k :: 0 <= k < i ==> saved[k].key != requested
      {
        if saved[i].key == requested {
          state := saved[i].state;
          break;
        }
        i := i + 1;
      }
      assert state == Known(St());
      if state.None? {
        state := AddState(created);
        if state.None? {
          return false;
        }
      }
      if current.None? || current.value.pointer != state.value.pointer {
        bound := state;
        current := state;
      }
      changed := false;
      return true;
    }

    method ReleaseStates()
      modifies this`saved
      ensures saved == Released(old(saved))
    {
      var i := 0;
      while i < |saved|
        invariant 0 <= i <= |saved| == |old(saved)|
        invariant forall k :: 0 <= k < i ==> saved[k] == old(saved)[k].(state := None)
        invariant forall k :: i <= k < |saved| ==> saved[k] == old(saved)[k]
      {
        saved := saved[i := saved[i].(state := None)];
        i := i + 1;
      }
    }

    method RecreateStates(created: seq<nat>)
      requires |created| == |saved|
      modifies this`saved
      ensures saved == Rebuilt(old(saved), created)
    {
      var i := 0;
      while i < |saved|
        invariant 0 <= i <= |saved| == |old(saved)|
        invariant forall k :: 0 <= k < i ==>
          saved[k] == old(saved)[k].(state := Some(Object(created[k], old(saved)[k].desc)))
        invariant forall k :: i <= k < |saved| ==> saved[k] == old(saved)[k]
      {
        saved := saved[i := saved[i].(state := Some(Object(created[i], saved[i].desc)))];
        i := i + 1;
      }
    }

    /** Objects are released with the old device, then created again from the saved descriptors. */
    method RebuildStates(created: seq<nat>)
      requires |created| == |saved|
      modifies this
      ensures St() == Next(old(St()), LoseDevice(created))
    {
      ReleaseStates();
      bound := None;
      changed := true;
      current := None;
      RecreateStates(created);
    }
  }
}

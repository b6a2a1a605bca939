/**
 * The three lazily bound states of a Direct3D 11 device together: the setters of the graphics API,
 * the updates before a draw, and what a draw that goes through has bound.
 */
module PipelineState {
  import opened Wrappers
  import opened LazyState

  datatype Device = Device(blend: State, raster: State, depth: State)

  datatype Setter =
    | EnableBlending(on: bool)
    | EnableColor(red: bool, green: bool, blue: bool, alpha: bool)
    | BlendFunction(src: Enum, dest: Enum)
    | BlendFunctionSeparate(srcC: Enum, destC: Enum, srcA: Enum, destA: Enum)
    | BlendOp(op: Enum)
    | SetCullMode(mode: Enum)
    | SetScissorRect(present: bool)
    | EnableDepthTest(on: bool)
    | EnableStencilTest(on: bool)
    | EnableStencilWrite(on: bool)
    | DepthFunction(test: Enum)
    | StencilFunction(front: bool, back: bool, test: Enum)
    | StencilOp(front: bool, back: bool, fail: Enum, zfail: Enum, zpass: Enum)

  predicate SetsBlend(x: Setter) {
    x.EnableBlending? || x.EnableColor? || x.BlendFunction? || x.BlendFunctionSeparate? || x.BlendOp?
  }

  predicate SetsRaster(x: Setter) { x.SetCullMode? || x.SetScissorRect? }

  function NewBlend(r: Request, x: Setter): Request
    requires r.Blend? && SetsBlend(x)
  {
    match x
    case EnableBlending(on) => r.(enabled := on)
    case EnableColor(red, green, blue, alpha) => r.(red := red, green := green, blue := blue, alpha := alpha)
    case BlendFunction(src, dest) => r.(srcColor := src, destColor := dest, srcAlpha := src, destAlpha := dest)
    case BlendFunctionSeparate(sc, dc, sa, da) => r.(srcColor := sc, destColor := dc, srcAlpha := sa, destAlpha := da)
    case BlendOp(op) => r.(op := op)
  }

  function NewRaster(r: Request, x: Setter): Request
    requires r.Raster? && SetsRaster(x)
  {
    match x
    case SetCullMode(mode) => r.(cull := mode)
    case SetScissorRect(present) => r.(scissor := present)
  }

  function NewDepth(r: Request, x: Setter): Request
    requires r.Depth? && !SetsBlend(x) && !SetsRaster(x)
  {
    match x
    case EnableDepthTest(on) => r.(depth := on)
    case EnableStencilTest(on) => r.(stencil := on)
    case EnableStencilWrite(on) => r.(stencilWrite := on)
    case DepthFunction(test) => r.(depthFunc := test)
    case StencilFunction(front, back, test) =>
      r.(front := if front then r.front.(test := test) else r.front, back := if back then r.back.(test := test) else r.back)
    case StencilOp(front, back, fail, zfail, zpass) =>
      r.(front := if front then Side(r.front.test, fail, zfail, zpass) else r.front,
         back := if back then Side(r.back.test, fail, zfail, zpass) else r.back)
  }

  /** Pointers of objects the driver would create, in the order blend, raster, depth-stencil. */
  datatype Op =
    | Apply(setter: Setter)
    | Draw(blend: Option<nat>, raster: Option<nat>, depth: Option<nat>)
    | LoseDevice(blends: seq<nat>, rasters: seq<nat>, depths: seq<nat>)

  predicate Kinds(d: Device) { d.blend.requested.Blend? && d.raster.requested.Raster? && d.depth.requested.Depth? }

  /** Only the scissor setter flags a change without comparing. */
  function Applied(d: Device, x: Setter): Device
    requires Kinds(d)
  {
    if SetsBlend(x) then d.(blend := LazyState.Next(d.blend, Set(NewBlend(d.blend.requested, x), false)))
    else if SetsRaster(x) then d.(raster := LazyState.Next(d.raster, Set(NewRaster(d.raster.requested, x), x.SetScissorRect?)))
    else d.(depth := LazyState.Next(d.depth, Set(NewDepth(d.depth.requested, x), false)))
  }

  /** The updates before a draw; the first that throws ends the call. */
  function Drawn(d: Device, op: Op): Device
    requires op.Draw?
  {
    var d1 := d.(blend := Updated(d.blend, op.blend));
    if Throws(d.blend, op.blend) then d1
    else
      var d2 := d1.(raster := Updated(d.raster, op.raster));
      if Throws(d.raster, op.raster) then d2 else d2.(depth := Updated(d.depth, op.depth))
  }

  predicate DrawFails(d: Device, op: Op)
    requires op.Draw?
  {
    Throws(d.blend, op.blend) || Throws(d.raster, op.raster) || Throws(d.depth, op.depth)
  }

  function Next(d: Device, op: Op): Device
    requires Kinds(d) && Shaped(d, op)
  {
    match op
    case Apply(setter) => Applied(d, setter)
    case Draw(_, _, _) => Drawn(d, op)
    case LoseDevice(blends, rasters, depths) =>
      Device(LazyState.Next(d.blend, LazyState.Op.LoseDevice(blends)),
             LazyState.Next(d.raster, LazyState.Op.LoseDevice(rasters)),
             LazyState.Next(d.depth, LazyState.Op.LoseDevice(depths)))
  }

  predicate Shaped(d: Device, op: Op) {
    op.LoseDevice? ==>
      |op.blends| == |d.blend.saved| && |op.rasters| == |d.raster.saved| && |op.depths| == |d.depth.saved|
  }

  /** The driver gives objects of different descriptors different pointers. */
  predicate Allowed(d: Device, op: Op) {
    Kinds(d) && Shaped(d, op) &&
    var d' := Next(d, op);
    Coherent(d'.blend.saved) && Coherent(d'.raster.saved) && Coherent(d'.depth.saved)
  }

  predicate Inv(d: Device) {
    Kinds(d) && LazyState.Inv(d.blend) && LazyState.Inv(d.raster) && LazyState.Inv(d.depth)
  }

  predicate AllEager(d: Device) { Eager(d.blend) && Eager(d.raster) && Eager(d.depth) }

  lemma {:induction false} ApplyKeepsInv(d: Device, x: Setter)
    requires Inv(d)
    ensures Inv(Applied(d, x))
  {
    hide Coherent, Eager, Faithful;
  }

  // ----- What each setter requests

  /** The blend setters: each changes the fields it names to what it is given, and no others. */
  lemma {:induction false} BlendSetters(d: Device, x: Setter)
    requires Kinds(d) && SetsBlend(x)
    ensures var d', r := Next(d, Apply(x)), d.blend.requested;
            var q := d'.blend.requested;
            && d'.raster == d.raster && d'.depth == d.depth
            && d'.blend == d.blend.(requested := q, changed := d.blend.changed || q != r)
            && q.Blend?
            && q.enabled == (if x.EnableBlending? then x.on else r.enabled)
            && q.red == (if x.EnableColor? then x.red else r.red)
            && q.green == (if x.EnableColor? then x.green else r.green)
            && q.blue == (if x.EnableColor? then x.blue else r.blue)
            && q.alpha == (if x.EnableColor? then x.alpha else r.alpha)
            && q.op == (if x.BlendOp? then x.op else r.op)
            && q.srcColor == (if x.BlendFunction? then x.src else if x.BlendFunctionSeparate? then x.srcC else r.srcColor)
            && q.destColor == (if x.BlendFunction? then x.dest else if x.BlendFunctionSeparate? then x.destC else r.destColor)
            && q.srcAlpha == (if x.BlendFunction? then x.src else if x.BlendFunctionSeparate? then x.srcA else r.srcAlpha)
            && q.destAlpha == (if x.BlendFunction? then x.dest else if x.BlendFunctionSeparate? then x.destA else r.destAlpha)
  {
    hide Kinds;
  }

  /** The raster setters; the scissor setter is due even where nothing changes. */
  lemma {:induction false} RasterSetters(d: Device, x: Setter)
    requires Kinds(d) && SetsRaster(x)
    ensures var d', r := Next(d, Apply(x)), d.raster.requested;
            var q := d'.raster.requested;
            && d'.blend == d.blend && d'.depth == d.depth
            && d'.raster == d.raster.(requested := q, changed := d.raster.changed || x.SetScissorRect? || q != r)
            && q.Raster?
            && q.cull == (if x.SetCullMode? then x.mode else r.cull)
            && q.scissor == (if x.SetScissorRect? then x.present else r.scissor)
  {
    hide Kinds;
  }

  /** One side of the stencil state under a stencil setter that applies to it or not. */
  predicate SideSet(x: Setter, applies: bool, was: Side, now: Side) {
    && now.test == (if applies && x.StencilFunction? then x.test else was.test)
    && now.fail == (if applies && x.StencilOp? then x.fail else was.fail)
    && now.zfail == (if applies && x.StencilOp? then x.zfail else was.zfail)
    && now.zpass == (if applies && x.StencilOp? then x.zpass else was.zpass)
  }

  /** The depth and stencil setters; the last two act on each side that is selected. */
  lemma {:induction false} DepthSetters(d: Device, x: Setter)
    requires Kinds(d) && !SetsBlend(x) && !SetsRaster(x)
    ensures var d', r := Next(d, Apply(x)), d.depth.requested;
            var q := d'.depth.requested;
            && d'.blend == d.blend && d'.raster == d.raster
            && d'.depth == d.depth.(requested := q, changed := d.depth.changed || q != r)
            && q.Depth? && q.depthWrite == r.depthWrite
            && q.depth == (if x.EnableDepthTest? then x.on else r.depth)
            && q.stencil == (if x.EnableStencilTest? then x.on else r.stencil)
            && q.stencilWrite == (if x.EnableStencilWrite? then x.on else r.stencilWrite)
            && q.depthFunc == (if x.DepthFunction? then x.test else r.depthFunc)
            && SideSet(x, (x.StencilFunction? || x.StencilOp?) && x.front, r.front, q.front)
            && SideSet(x, (x.StencilFunction? || x.StencilOp?) && x.back, r.back, q.back)
  {
    hide Kinds;
  }

  /** A draw that gets past its updates has everything bound as requested; one that does not keeps the invariant. */
  lemma {:induction false} DrawBindsAll(d: Device, op: Op)
    requires Inv(d) && op.Draw? && Allowed(d, op)
    ensures Inv(Next(d, op)) && Next(d, op).blend.requested == d.blend.requested
    ensures Next(d, op).raster.requested == d.raster.requested && Next(d, op).depth.requested == d.depth.requested
    ensures !DrawFails(d, op) ==> AllEager(Next(d, op))
  {
    hide Coherent, Eager, LazyState.Inv;
    UpdateKeepsInv(d.blend, op.blend);
    if !Throws(d.blend, op.blend) {
      UpdateKeepsInv(d.raster, op.raster);
      if !Throws(d.raster, op.raster) { UpdateKeepsInv(d.depth, op.depth); }
    }
  }

  lemma {:induction false} NextKeepsInv(d: Device, op: Op)
    requires Inv(d) && Allowed(d, op)
    ensures Inv(Next(d, op))
  {
    hide Coherent, Eager;
    match op
    case Apply(setter) => ApplyKeepsInv(d, setter);
    case Draw(_, _, _) => DrawBindsAll(d, op);
    case LoseDevice(blends, rasters, depths) =>
      LazyState.NextKeepsInv(d.blend, LazyState.Op.LoseDevice(blends));
      LazyState.NextKeepsInv(d.raster, LazyState.Op.LoseDevice(rasters));
      LazyState.NextKeepsInv(d.depth, LazyState.Op.LoseDevice(depths));
  }

  predicate AllAllowed(d: Device, ops: seq<Op>)
    decreases |ops|
  {
    ops == [] || (Allowed(d, ops[0]) && AllAllowed(Next(d, ops[0]), ops[1..]))
  }

  function Run(d: Device, ops: seq<Op>): Device
    requires AllAllowed(d, ops)
    decreases |ops|
  {
    if ops == [] then d else Run(Next(d, ops[0]), ops[1..])
  }

  lemma {:induction false} RunKeepsInv(d: Device, ops: seq<Op>)
    requires Inv(d) && AllAllowed(d, ops)
    ensures Inv(Run(d, ops))
    decreases |ops|
  {
    hide Next, Inv, Coherent;
    if ops != [] {
      NextKeepsInv(d, ops[0]);
      RunKeepsInv(Next(d, ops[0]), ops[1..]);
    }
  }

  /** A new device, whatever its default states are. */
  function Start(blend: Request, raster: Request, depth: Request): Device {
    Device(Initial(blend), Initial(raster), Initial(depth))
  }

  /**
   * After any run of setters, draws that went through or failed, and device losses, a draw that
   * goes through has bound objects built from the three states requested at that moment.
   */
  lemma {:induction false} EveryDrawIsCurrent(blend: Request, raster: Request, depth: Request, ops: seq<Op>, draw: Op)
    requires blend.Blend? && raster.Raster? && depth.Depth? && draw.Draw?
    requires AllAllowed(Start(blend, raster, depth), ops) && Allowed(Run(Start(blend, raster, depth), ops), draw)
    ensures var d := Run(Start(blend, raster, depth), ops);
            !DrawFails(d, draw) ==>
              && AllEager(Next(d, draw))
              && Next(d, draw).blend.bound.value.desc == Convert(d.blend.requested)
              && Next(d, draw).raster.bound.value.desc == Convert(d.raster.requested)
              && Next(d, draw).depth.bound.value.desc == Convert(d.depth.requested)
              && Describes(Next(d, draw).blend.bound.value.desc, d.blend.requested)
              && Describes(Next(d, draw).raster.bound.value.desc, d.raster.requested)
              && Describes(Next(d, draw).depth.bound.value.desc, d.depth.requested)
  {
    hide Allowed, Next, Run, AllAllowed, Convert, DrawFails, Describes;
    var d := Run(Start(blend, raster, depth), ops);
    ConvertDescribes(d.blend.requested);
    ConvertDescribes(d.raster.requested);
    ConvertDescribes(d.depth.requested);
    RunKeepsInv(Start(blend, raster, depth), ops);
    DrawBindsAll(Run(Start(blend, raster, depth), ops), draw);
  }

  /** The caches of a device, updated before each draw. */
  class Pipeline {
    const blend: StateCache
    const raster: StateCache
    const depth: StateCache

    constructor (blend: Request, raster: Request, depth: Request)
      ensures Distinct() && St() == Start(blend, raster, depth)
      ensures fresh(this.blend) && fresh(this.raster) && fresh(this.depth)
    {
      this.blend := new StateCache(blend);
      this.raster := new StateCache(raster);
      this.depth := new StateCache(depth);
    }

    predicate Distinct() { blend != raster && blend != depth && raster != depth }

    ghost function St(): Device
      reads blend, raster, depth
    {
      Device(blend.St(), raster.St(), depth.St())
    }

    method UpdateStates(newBlend: Option<nat>, newRaster: Option<nat>, newDepth: Option<nat>) returns (ok: bool)
      requires Distinct()
      modifies blend, raster, depth
      ensures St() == Drawn(old(St()), Draw(newBlend, newRaster, newDepth))
      ensures ok == !DrawFails(old(St()), Draw(newBlend, newRaster, newDepth))
    {
      hide Updated, Throws;
      ok := blend.UpdateState(newBlend);
      if ok {
        ok := raster.UpdateState(newRaster);
        if ok {
          ok := depth.UpdateState(newDepth);
        }
      }
    }
  }
}

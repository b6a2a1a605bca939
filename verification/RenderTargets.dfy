/**
 * Direct3D 11 render targets: setters and swap-chain selection only record the choice and raise an
 * invalidate flag; the output views are bound before a draw. Targets and depth buffers of swap
 * chains live inside the chain, so a chain may only go when nothing refers into it.
 */
module RenderTargets {
  import opened Wrappers

  type Chain = nat

  /** A user's texture (plain or cube, with or without render-target views) or a chain's own target. */
  datatype Target = Texture(id: nat, cube: bool, renderable: bool) | ChainTarget(chain: Chain)

  datatype Depth = Stencil(id: nat) | ChainDepth(chain: Chain)

  /** A driver view: of what, which side, which colour encoding, and of which build of it. */
  datatype ColorView = ColorView(target: Target, side: nat, linear: bool, version: nat)

  datatype DepthView = DepthView(depth: Depth, version: nat)

  datatype Binding = Binding(color: Option<ColorView>, depth: Option<DepthView>)

  const Unbound := Binding(None, None)

  /** The build of a chain's three views; a failed resize leaves some or all without. */
  datatype Views = Views(color: Option<nat>, linear: Option<nat>, depth: Option<nat>)

  /** How far a resize gets: it rebuilds the target's view, its linear view, then the depth buffer. */
  datatype Outcome = Complete | TargetFails | LinearFails | DepthFails

  /** `chains` maps live swap chains to their views. */
  datatype State = State(
    target: Option<Target>, depth: Option<Depth>, side: nat, srgb: bool, swap: Option<Chain>,
    invalid: bool, bound: Binding, chains: map<Chain, Views>, epoch: nat)

  datatype Op =
    | SetTarget(tex: Option<Target>, zs: Option<Depth>)
    | SetCubeTarget(cube: Option<Target>, face: nat, zs: Option<Depth>)
    | EnableSrgb(enable: bool)
    | LoadSwapChain(chain: Option<Chain>)
    | CreateSwapChain(made: Chain)
    | DestroySwapChain(gone: Chain)
    | Resize(outcome: Outcome)
    | Flush
    | Present(lost: bool)

  // ----- Steps

  function OrChainTarget(s: State, tex: Option<Target>): Option<Target> {
    if s.swap.Some? && tex.None? then Some(ChainTarget(s.swap.value)) else tex
  }

  function OrChainDepth(s: State, zs: Option<Depth>): Option<Depth> {
    if s.swap.Some? && zs.None? then Some(ChainDepth(s.swap.value)) else zs
  }

  predicate IsCube(t: Option<Target>) { t.Some? && t.value.Texture? && t.value.cube }

  function Chosen(s: State, t: Option<Target>, zs: Option<Depth>, side: nat): State {
    if s.target == t && s.side == side && s.depth == zs then s
    else s.(target := t, depth := zs, side := side, invalid := true)
  }

  function TargetSet(s: State, tex: Option<Target>, zs: Option<Depth>): State {
    var t := OrChainTarget(s, tex);
    if IsCube(t) then s else Chosen(s, t, OrChainDepth(s, zs), 0)
  }

  function CubeTargetSet(s: State, tex: Option<Target>, face: nat, zs: Option<Depth>): State {
    var t := OrChainTarget(s, tex);
    if !IsCube(t) then s else Chosen(s, t, OrChainDepth(s, zs), face)
  }

  function ChainLoaded(s: State, chain: Option<Chain>): State {
    var t := if s.swap.Some? && s.target == Some(ChainTarget(s.swap.value)) then None else s.target;
    var zs := if s.swap.Some? && s.depth == Some(ChainDepth(s.swap.value)) then None else s.depth;
    var s' := s.(swap := chain);
    if IsCube(s.target) then CubeTargetSet(s', t, s.side, zs) else TargetSet(s', t, zs)
  }

  /** The view of the current target, if it has one. */
  function ColorViewOf(s: State): Option<ColorView> {
    match s.target
    case None => None
    case Some(Texture(id, cube, renderable)) =>
      if renderable then Some(ColorView(s.target.value, s.side, s.srgb, s.epoch)) else None
    case Some(ChainTarget(c)) =>
      if c !in s.chains then None
      else
        var version := if s.srgb then s.chains[c].linear else s.chains[c].color;
        if version.Some? then Some(ColorView(s.target.value, s.side, s.srgb, version.value)) else None
  }

  function DepthViewOf(s: State): Option<DepthView> {
    match s.depth
    case None => None
    case Some(Stencil(id)) => Some(DepthView(s.depth.value, s.epoch))
    case Some(ChainDepth(c)) =>
      if c in s.chains && s.chains[c].depth.Some? then Some(DepthView(s.depth.value, s.chains[c].depth.value)) else None
  }

  function Wanted(s: State): Binding { Binding(ColorViewOf(s), DepthViewOf(s)) }

  function Flushed(s: State): State {
    if !s.invalid || (s.target.Some? && ColorViewOf(s).None?) then s else s.(bound := Wanted(s), invalid := false)
  }

  function Resized(s: State, outcome: Outcome): State {
    if s.swap.None? || s.swap.value !in s.chains then s
    else
      var c := s.swap.value;
      var r := s.(bound := Unbound, chains := s.chains[c := NewViews(s.chains[c], s.epoch, outcome)]);
      if outcome == Complete then r.(invalid := true) else r
  }

  function NewViews(v: Views, epoch: nat, outcome: Outcome): Views {
    Views(if outcome == TargetFails then None else Some(Newer(v.color, epoch)),
          if outcome == TargetFails || outcome == LinearFails then None else Some(Newer(v.linear, epoch)),
          if outcome != Complete then None else Some(Newer(v.depth, epoch)))
  }

  function Newer(version: Option<nat>, epoch: nat): nat { if version.Some? then version.value + 1 else epoch + 1 }

  /** Losing the device rebuilds every view and clears every selection. */
  function Lost(s: State): State {
    s.(target := None, depth := None, side := 0, swap := None, bound := Unbound, epoch := s.epoch + 1,
       chains := map c | c in s.chains :: NewViews(s.chains[c], s.epoch, Complete))
  }

  function Next(s: State, op: Op): State {
    match op
    case SetTarget(tex, zs) => TargetSet(s, tex, zs)
    case SetCubeTarget(cube, face, zs) => CubeTargetSet(s, cube, face, zs)
    case EnableSrgb(enable) => if s.srgb == enable then s else s.(srgb := enable, invalid := true)
    case LoadSwapChain(chain) => ChainLoaded(s, chain)
    case CreateSwapChain(c) => s.(chains := s.chains[c := Views(Some(s.epoch), Some(s.epoch), Some(s.epoch))])
    case DestroySwapChain(c) =>
      var s' := if s.swap == Some(c) then ChainLoaded(s, None) else s;
      s'.(chains := s'.chains - {c})
    case Resize(outcome) => Resized(s, outcome)
    case Flush => Flushed(s)
    case Present(lost) =>
      if s.swap.None? then s
      else
        var s' := s.(bound := Unbound, invalid := true);
        if lost then Lost(s') else s'
  }

  predicate IsUserTexture(t: Option<Target>) { t.Some? ==> t.value.Texture? }

  predicate IsUserStencil(z: Option<Depth>) { z.Some? ==> z.value.Stencil? }

  /** What callers may do: they hold textures and live chains, never the parts inside a chain. */
  predicate Allowed(s: State, op: Op) {
    match op
    case SetTarget(tex, zs) => IsUserTexture(tex) && IsUserStencil(zs)
    case SetCubeTarget(cube, _, zs) => IsUserTexture(cube) && IsUserStencil(zs) && (cube.Some? || s.swap.Some?)
    case LoadSwapChain(chain) => chain.Some? ==> chain.value in s.chains
    case CreateSwapChain(c) => c !in s.chains
    case DestroySwapChain(c) => c in s.chains
    case _ => true
  }

  // ----- Invariants

  /** Only the current chain is referred into, it is alive, and with a chain there is always a target. */
  predicate Inside(s: State) {
    && (s.target.Some? && s.target.value.ChainTarget? ==> s.swap == Some(s.target.value.chain))
    && (s.depth.Some? && s.depth.value.ChainDepth? ==> s.swap == Some(s.depth.value.chain))
    && (s.swap.Some? ==> s.swap.value in s.chains && s.target.Some? && s.depth.Some?)
  }

  /** With the flag down, what is bound is what target, side and encoding choose. */
  predicate UpToDate(s: State) {
    !s.invalid ==> s.bound == Wanted(s) && (s.target.Some? ==> ColorViewOf(s).Some?)
  }

  /** Loading a chain moves every reference into the old one over to the new one. */
  lemma {:induction false} LoadKeepsInside(s: State, chain: Option<Chain>)
    requires Inside(s) && (chain.Some? ==> chain.value in s.chains)
    ensures var s' := ChainLoaded(s, chain);
            && Inside(s') && s'.swap == chain && s'.chains == s.chains
            && (chain.None? ==> IsUserTexture(s'.target) && IsUserStencil(s'.depth))
  {
  }

  lemma {:induction false} NextKeepsInside(s: State, op: Op)
    requires Inside(s) && Allowed(s, op)
    ensures Inside(Next(s, op))
  {
    hide ChainLoaded;
    match op
    case LoadSwapChain(chain) => LoadKeepsInside(s, chain);
    case DestroySwapChain(c) => LoadKeepsInside(s, None);
    case _ =>
  }

  /** Destroying a swap chain leaves no reference to it, whatever was current. */
  lemma {:induction false} DestroyedIsForgotten(s: State, c: Chain)
    requires Inside(s) && c in s.chains
    ensures var s' := Next(s, DestroySwapChain(c));
            && c !in s'.chains && s'.swap != Some(c)
            && s'.target != Some(ChainTarget(c)) && s'.depth != Some(ChainDepth(c))
  {
    hide ChainLoaded;
    LoadKeepsInside(s, None);
  }

  /** A resize that fails while the flag is down: the outputs are unbound and nothing says so. */
  predicate Deceptive(s: State, op: Op) { op.Resize? && op.outcome != Complete && s.swap.Some? && !s.invalid }

  /** Loading a chain re-chooses; untouched views stay what they were. */
  lemma {:induction false} LoadUpToDate(s: State, chain: Option<Chain>)
    requires UpToDate(s)
    ensures UpToDate(ChainLoaded(s, chain))
  {
    assert UpToDate(s.(swap := chain));
  }

  lemma {:induction false} DestroyUpToDate(s: State, c: Chain)
    requires Inside(s) && UpToDate(s) && c in s.chains
    ensures UpToDate(Next(s, DestroySwapChain(c)))
  {
    hide ChainLoaded;
    DestroyedIsForgotten(s, c);
    LoadKeepsInside(s, None);
    LoadUpToDate(s, None);
  }

  /** Every step keeps the flag truthful except a failed resize while the flag is down. */
  lemma {:induction false} NextKeepsUpToDate(s: State, op: Op)
    requires Inside(s) && UpToDate(s) && Allowed(s, op)
    ensures UpToDate(Next(s, op)) <==> !Deceptive(s, op)
  {
    match op
    case LoadSwapChain(chain) => LoadUpToDate(s, chain);
    case DestroySwapChain(c) => DestroyUpToDate(s, c);
    case _ =>
  }

  // ----- What every step chooses

  /** A user's choice, or the current chain's own part where none is given. */
  predicate ChosenTarget(s: State, given: Option<Target>, t: Option<Target>) {
    t == if given.Some? then given else if s.swap.Some? then Some(ChainTarget(s.swap.value)) else None
  }

  predicate ChosenDepth(s: State, given: Option<Depth>, z: Option<Depth>) {
    z == if given.Some? then given else if s.swap.Some? then Some(ChainDepth(s.swap.value)) else None
  }

  /** Target, depth and side are these; the flag goes up if that is a change; nothing else does. */
  predicate Chose(s: State, s': State, t: Option<Target>, z: Option<Depth>, side: nat) {
    && s'.target == t && s'.depth == z && s'.side == side
    && (s'.invalid <==> s.invalid || s.target != t || s.depth != z || s.side != side)
    && s' == s.(target := t, depth := z, side := side, invalid := s'.invalid)
  }

  predicate CubeTexture(t: Option<Target>) { t.Some? && t.value.Texture? && t.value.cube }

  /** Setting a target chooses it with side zero, unless it is a cube, which is refused. */
  lemma {:induction false} SetTargetChooses(s: State, tex: Option<Target>, zs: Option<Depth>, t: Option<Target>, z: Option<Depth>)
    requires ChosenTarget(s, tex, t) && ChosenDepth(s, zs, z)
    ensures if CubeTexture(t) then Next(s, SetTarget(tex, zs)) == s else Chose(s, Next(s, SetTarget(tex, zs)), t, z, 0)
  {
  }

  /** Setting a cube target chooses one of its faces, and only a cube is taken. */
  lemma {:induction false} SetCubeChooses(s: State, tex: Option<Target>, face: nat, zs: Option<Depth>, t: Option<Target>, z: Option<Depth>)
    requires ChosenTarget(s, tex, t) && ChosenDepth(s, zs, z)
    ensures if CubeTexture(t) then Chose(s, Next(s, SetCubeTarget(tex, face, zs)), t, z, face)
            else Next(s, SetCubeTarget(tex, face, zs)) == s
  {
  }

  /** What becomes of a choice that may lie inside the chain that is left. */
  predicate Moved<T(==)>(inside: bool, was: Option<T>, part: Option<T>, now: Option<T>) {
    now == if was.None? || inside then part else was
  }

  /** Loading a chain keeps the user's own target and depth, and moves everything else to the chain's parts. */
  lemma {:induction false} LoadMoves(s: State, chain: Option<Chain>)
    requires Inside(s)
    ensures var s' := ChainLoaded(s, chain);
            && s'.swap == chain && s'.srgb == s.srgb && s'.bound == s.bound && s'.chains == s.chains && s'.epoch == s.epoch
            && Moved(s.target.Some? && s.target.value.ChainTarget?, s.target,
                     if chain.Some? then Some(ChainTarget(chain.value)) else None, s'.target)
            && Moved(s.depth.Some? && s.depth.value.ChainDepth?, s.depth,
                     if chain.Some? then Some(ChainDepth(chain.value)) else None, s'.depth)
            && s'.side == (if CubeTexture(s.target) then s.side else 0)
            && (s'.invalid <==> s.invalid || s'.target != s.target || s'.depth != s.depth || s'.side != s.side)
  {
  }

  /** The other calls, field by field. */
  lemma {:induction false} OthersRecord(s: State, c: Chain, on: bool)
    ensures Next(s, EnableSrgb(on)) == s.(srgb := on, invalid := s.invalid || on != s.srgb)
    ensures Next(s, CreateSwapChain(c)) == s.(chains := Next(s, CreateSwapChain(c)).chains)
    ensures var v := Next(s, CreateSwapChain(c)).chains; c in v && v[c].color.Some? && v[c].linear.Some? && v[c].depth.Some?
    ensures forall d :: d != c ==> (d in Next(s, CreateSwapChain(c)).chains <==> d in s.chains)
    ensures forall d :: d != c && d in s.chains ==> Next(s, CreateSwapChain(c)).chains[d] == s.chains[d]
    ensures s.swap.None? ==> Next(s, Present(on)) == s
    ensures s.swap.Some? ==> Next(s, Present(false)) == s.(bound := Unbound, invalid := true)
    ensures s.swap.Some? ==>
              var l := Next(s, Present(true));
              && l.target.None? && l.depth.None? && l.side == 0 && l.swap.None? && l.bound == Unbound && l.invalid
              && l.srgb == s.srgb && l.chains.Keys == s.chains.Keys
              && forall d :: d in s.chains ==> l.chains[d].color.Some? && l.chains[d].linear.Some? && l.chains[d].depth.Some?
  {
  }

  /** A resize unbinds and makes new views up to the one that fails, which leaves the rest without. */
  lemma {:induction false} ResizeRebuilds(s: State, outcome: Outcome)
    requires s.swap.Some? && s.swap.value in s.chains
    ensures var s', c := Next(s, Resize(outcome)), s.swap.value;
            && s'.bound == Unbound && (s'.invalid <==> s.invalid || outcome == Complete)
            && s' == s.(bound := Unbound, invalid := s'.invalid, chains := s'.chains)
            && s'.chains.Keys == s.chains.Keys && (forall d :: d in s.chains && d != c ==> s'.chains[d] == s.chains[d])
            && var was, now := s.chains[c], s'.chains[c];
            && (now.color.Some? <==> outcome != TargetFails)
            && (now.linear.Some? <==> outcome == DepthFails || outcome == Complete)
            && (now.depth.Some? <==> outcome == Complete)
            && (now.color.Some? && was.color.Some? ==> was.color.value < now.color.value)
            && (now.linear.Some? && was.linear.Some? ==> was.linear.value < now.linear.value)
            && (now.depth.Some? && was.depth.Some? ==> was.depth.value < now.depth.value)
  {
  }

  /** The views to bind: of the chosen target, side and encoding, and of the chosen depth buffer, in their newest build. */
  lemma {:induction false} WantedViews(s: State)
    ensures var v := Wanted(s).color;
            && (v.Some? ==> s.target == Some(v.value.target) && v.value.side == s.side && v.value.linear == s.srgb)
            && (s.target.Some? && s.target.value.Texture? ==>
                  (v.Some? <==> s.target.value.renderable) && (v.Some? ==> v.value.version == s.epoch))
            && (s.target.Some? && s.target.value.ChainTarget? && s.target.value.chain in s.chains ==>
                  var build := if s.srgb then s.chains[s.target.value.chain].linear else s.chains[s.target.value.chain].color;
                  (v.Some? <==> build.Some?) && (v.Some? ==> Some(v.value.version) == build))
    ensures var v := Wanted(s).depth;
            && (v.Some? ==> s.depth == Some(v.value.depth))
            && (s.depth.Some? && s.depth.value.Stencil? ==> v.Some? && v.value.version == s.epoch)
            && (s.depth.Some? && s.depth.value.ChainDepth? && s.depth.value.chain in s.chains ==>
                  var build := s.chains[s.depth.value.chain].depth;
                  (v.Some? <==> build.Some?) && (v.Some? ==> Some(v.value.version) == build))
  {
  }

  // ----- Whole runs

  predicate AllAllowed(s: State, ops: seq<Op>)
    decreases |ops|
  {
    ops == [] || (Allowed(s, ops[0]) && !Deceptive(s, ops[0]) && AllAllowed(Next(s, ops[0]), ops[1..]))
  }

  function Run(s: State, ops: seq<Op>): State
    requires AllAllowed(s, ops)
    decreases |ops|
  {
    if ops == [] then s else Run(Next(s, ops[0]), ops[1..])
  }

  const Start: State := State(None, None, 0, false, None, false, Unbound, map[], 0)

  lemma {:induction false} RunKeepsInvariants(s: State, ops: seq<Op>)
    requires Inside(s) && UpToDate(s) && AllAllowed(s, ops)
    ensures Inside(Run(s, ops)) && UpToDate(Run(s, ops))
    decreases |ops|
  {
    if ops != [] {
      NextKeepsInside(s, ops[0]);
      NextKeepsUpToDate(s, ops[0]);
      RunKeepsInvariants(Next(s, ops[0]), ops[1..]);
    }
  }

  /** Before any draw, after any run: flushing binds what is chosen, unless the target has no view. */
  lemma {:induction false} FlushBindsChoice(ops: seq<Op>)
    requires AllAllowed(Start, ops)
    ensures var s := Flushed(Run(Start, ops));
            && ((s.bound == Wanted(s) && !s.invalid) || (s.invalid && s.target.Some? && ColorViewOf(s).None?))
            && (!s.invalid ==>
                  && (s.target.Some? <==> s.bound.color.Some?)
                  && (s.target.Some? ==> var v := s.bound.color.value;
                                         v.target == s.target.value && v.side == s.side && v.linear == s.srgb)
                  && (s.bound.depth.Some? ==> s.depth == Some(s.bound.depth.value.depth)))
  {
    WantedViews(Flushed(Run(Start, ops)));
    RunKeepsInvariants(Start, ops);
  }

  /** The failed resize happens: a chain is created, loaded and flushed, and then cannot be resized. */
  lemma {:induction false} FailedResizeUnnoticed(c: Chain, outcome: Outcome)
    requires outcome != Complete
    ensures var ops := [CreateSwapChain(c), LoadSwapChain(Some(c)), Flush];
            && AllAllowed(Start, ops)
            && var s := Run(Start, ops);
            && Allowed(s, Resize(outcome)) && Deceptive(s, Resize(outcome))
            && var s' := Next(s, Resize(outcome));
            && !s'.invalid && s'.bound == Unbound && Flushed(s') == s' && s'.target == Some(ChainTarget(c))
  {
    var s1 := Next(Start, CreateSwapChain(c));
    var s2 := Next(s1, LoadSwapChain(Some(c)));
    var s3 := Next(s2, Flush);
    var ops := [CreateSwapChain(c), LoadSwapChain(Some(c)), Flush];
    assert ops[1..] == [LoadSwapChain(Some(c)), Flush] && ops[1..][1..] == [Flush] && ops[1..][1..][1..] == [];
    assert AllAllowed(s3, []) && Run(s3, []) == s3;
    assert AllAllowed(s2, [Flush]) && Run(s2, [Flush]) == s3;
    assert AllAllowed(s1, ops[1..]) && Run(s1, ops[1..]) == s3;
  }

  // ----- The device's part

  class Device {
    var target: Option<Target>
    var depth: Option<Depth>
    var side: nat
    var srgb: bool
    var swap: Option<Chain>
    var invalid: bool
    var bound: Binding
    var chains: map<Chain, Views>
    var epoch: nat

    constructor ()
      ensures St() == Start
    {
      target, depth, side, srgb, swap := None, None, 0, false, None;
      invalid, bound, chains, epoch := false, Unbound, map[], 0;
    }

    ghost function St(): State
      reads this
    {
      State(target, depth, side, srgb, swap, invalid, bound, chains, epoch)
    }

    method SetRenderTarget(tex: Option<Target>, zs: Option<Depth>)
      modifies this
      ensures St() == Next(old(St()), SetTarget(tex, zs))
    {
      var tex', zs' := tex, zs;
      if swap.Some? {
        if tex'.None? {
          tex' := Some(ChainTarget(swap.value));
        }
        if zs'.None? {
          zs' := Some(ChainDepth(swap.value));
        }
      }
      if IsCube(tex') {
        return;
      }
      if target != tex' || side != 0 || depth != zs' {
        target, depth, side, invalid := tex', zs', 0, true;
      }
    }

    method SetCubeRenderTarget(tex: Option<Target>, face: nat, zs: Option<Depth>)
      modifies this
      ensures St() == Next(old(St()), SetCubeTarget(tex, face, zs))
    {
      var tex', face', zs' := tex, face, zs;
      if swap.Some? {
        if tex'.None? {
          tex' := Some(ChainTarget(swap.value));
          face' := 0;
        }
        if zs'.None? {
          zs' := Some(ChainDepth(swap.value));
        }
      }
      if target == tex' && side == face' && depth == zs' {
        return;
      }
      if !IsCube(tex') {
        return;
      }
      target, depth, side, invalid := tex', zs', face', true;
    }

    method EnableFramebufferSrgb(enable: bool)
      modifies this
      ensures St() == Next(old(St()), EnableSrgb(enable))
    {
      if srgb != enable {
        srgb, invalid := enable, true;
      }
    }

    method LoadSwapChain(chain: Option<Chain>)
      modifies this
      ensures St() == Next(old(St()), Op.LoadSwapChain(chain))
    {
      var tex, zs := target, depth;
      if swap.Some? {
        if tex == Some(ChainTarget(swap.value)) {
          tex := None;
        }
        if zs == Some(ChainDepth(swap.value)) {
          zs := None;
        }
      }
      var cube := IsCube(target);
      swap := chain;
      if cube {
        SetCubeRenderTarget(tex, side, zs);
      } else {
        SetRenderTarget(tex, zs);
      }
    }

    method DestroySwapChain(c: Chain)
      modifies this
      ensures St() == Next(old(St()), Op.DestroySwapChain(c))
    {
      if swap == Some(c) {
        LoadSwapChain(None);
      }
      chains := chains - {c};
    }

    method ResizeInternal(outcome: Outcome)
      requires swap.Some? ==> swap.value in chains
      modifies this
      ensures St() == Next(old(St()), Resize(outcome))
    {
      if swap.None? {
        return;
      }
      bound := Unbound;
      var c, all := swap.value, chains;
      var was, views := all[c], Views(None, None, None);
      chains := all[c := views];
      if outcome == TargetFails {
        return;
      }
      views := views.(color := Some(Newer(was.color, epoch)));
      chains := all[c := views];
      if outcome == LinearFails {
        return;
      }
      views := views.(linear := Some(Newer(was.linear, epoch)));
      chains := all[c := views];
      if outcome == DepthFails {
        return;
      }
      views := views.(depth := Some(Newer(was.depth, epoch)));
      chains := all[c := views];
      invalid := true;
    }

    method FlushOutputViews()
      modifies this
      ensures St() == Next(old(St()), Flush)
    {
      if invalid {
        var color: Option<ColorView> := None;
        if target.Some? {
          color := ViewOfTarget();
          if color.None? {
            return;
          }
        }
        bound := Binding(color, ViewOfDepth());
        invalid := false;
      }
    }

    function ViewOfTarget(): (v: Option<ColorView>)
      reads this
      ensures v == ColorViewOf(St())
    {
      ColorViewOf(State(target, depth, side, srgb, swap, invalid, bound, chains, epoch))
    }

    function ViewOfDepth(): (v: Option<DepthView>)
      reads this
      ensures v == DepthViewOf(St())
    {
      DepthViewOf(State(target, depth, side, srgb, swap, invalid, bound, chains, epoch))
    }
  }
}

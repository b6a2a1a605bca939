/**
 * Command ordering of the Metal device: draws, clears and some copies are encoded into one
 * deferred command buffer, other copies run through a buffer of their own that is committed at
 * once. Textures carry a pending-writes flag that decides when the deferred buffer goes first.
 */
module MetalOrdering {
  import opened Wrappers

  class MetalTexture {
    var hasPendingWrites: bool

    constructor ()
      ensures !hasPendingWrites
    {
      hasPendingWrites := false;
    }
  }

  /** What commands read and write: textures, and staging buffers by number. */
  datatype Resource = Tex(texture: MetalTexture) | Staging(number: nat)

  /**
   * `id` counts commands in the order of the calls, `tracked` are the writes the flags know of, and
   * `kept` the outputs that are written in part and keep the rest of their contents.
   */
  datatype Cmd = Cmd(
    id: nat, inputs: set<Resource>, outputs: set<Resource>, tracked: set<MetalTexture>, kept: set<Resource> := {})

  /** All that a command's result depends on. */
  function Reads(c: Cmd): set<Resource> { c.inputs + c.kept }

  datatype Buffer = Buffer(cmds: seq<Cmd>, isCommitted: bool)

  /**
   * The render state and, as its observer sees them, the textures whose flag is set (`pending`),
   * the commands committed to the queue, and all commands in the order they were issued.
   */
  datatype State = State(
    renderTarget: Option<MetalTexture>, depthStencil: Option<MetalTexture>, isTargetChanged: bool,
    passColor: Option<MetalTexture>, passDepth: Option<MetalTexture>, textures: set<MetalTexture>,
    useSrgb: bool, commandBuffer: Option<Buffer>, inFlight: set<MetalTexture>,
    pending: set<MetalTexture>, queue: seq<Cmd>, issued: seq<Cmd>)

  /** How far the Metal calls inside a draw or clear get: an error before or after marking, or none. */
  datatype Fate = FailsUnmarked | FailsMarked | Encodes

  /**
   * Entry points; a copy that is not `whole` leaves part of its destination; `made` and `encoded` are the framework's answers
   * to creating a buffer or encoder.
   */
  datatype Op =
    | SetRenderTarget(tex: Option<MetalTexture>, zstencil: Option<MetalTexture>)
    | EnableSrgb(enable: bool)
    | BeginFrame
    | LoadSwapChain(gamma: bool, chainTarget: Option<MetalTexture>)
    | LoadTextures(bound: set<MetalTexture>)
    | Clear(loadsColor: bool, made: bool, fate: Fate)
    | Draw(ready: bool, made: bool, fate: Fate)
    | CopyTexture(source: MetalTexture, destination: MetalTexture, made: bool, encoded: bool)
    | StageTo(source: MetalTexture, into: Resource, whole: bool, encoded: bool)
    | StageFrom(number: nat, destination: MetalTexture, whole: bool, encoded: bool)
    | GenerateMipmaps(mipmapped: MetalTexture, made: bool, encoded: bool)
    | Finish

  // ----- Steps

  function TexOf(o: Option<MetalTexture>): set<Resource> { if o.Some? then {Tex(o.value)} else {} }

  function ValueOf(o: Option<MetalTexture>): set<MetalTexture> { if o.Some? then {o.value} else {} }

  function Deferred(s: State): seq<Cmd> { if s.commandBuffer.Some? then s.commandBuffer.value.cmds else [] }

  /** The order in which the device runs, or will run, everything encoded so far. */
  function QueueOrder(s: State): seq<Cmd> { s.queue + Deferred(s) }

  function Ensured(s: State, made: bool): State {
    if s.commandBuffer.None? && made then s.(commandBuffer := Some(Buffer([], false))) else s
  }

  function Encoded(s: State, inputs: set<Resource>, outputs: set<Resource>, tracked: set<MetalTexture>): State
    requires s.commandBuffer.Some?
  {
    var c := Cmd(|s.issued|, inputs, outputs, tracked);
    s.(commandBuffer := Some(s.commandBuffer.value.(cmds := s.commandBuffer.value.cmds + [c])), issued := s.issued + [c])
  }

  function Committed(s: State, source: Resource, destination: Resource, whole: bool): State {
    var c := Cmd(|s.issued|, {source}, {destination}, {}, if whole then {} else {destination});
    s.(queue := s.queue + [c], issued := s.issued + [c])
  }

  function Finished(s: State): State {
    if s.commandBuffer.None? || s.commandBuffer.value.isCommitted then s
    else s.(queue := s.queue + s.commandBuffer.value.cmds, pending := s.pending - s.inFlight,
            inFlight := {}, commandBuffer := None)
  }

  /** Flush first if the texture about to be read is marked. */
  function Settled(s: State, source: MetalTexture): State { if source in s.pending then Finished(s) else s }

  function Marked(s: State, t: MetalTexture): State { s.(pending := s.pending + {t}, inFlight := s.inFlight + {t}) }

  function Cleared(s: State, loadsColor: bool, fate: Fate): State
    requires s.commandBuffer.Some? && s.renderTarget.Some?
  {
    var target := s.renderTarget.value;
    match fate
    case FailsUnmarked => s
    case FailsMarked => Marked(s, target)
    case Encodes =>
      var color, depth := {Tex(target)}, TexOf(s.depthStencil);
      Encoded(Marked(s, target), (if loadsColor then color else {}) + depth, color + depth, {target})
  }

  /** The render pass keeps its attachments from the last draw unless the target is flagged as changed. */
  function PassUpdated(s: State): State
    requires s.renderTarget.Some?
  {
    if !s.isTargetChanged then s
    else Marked(s, s.renderTarget.value).(passColor := s.renderTarget, passDepth := s.depthStencil)
  }

  function Drawn(s: State, fate: Fate): State
    requires s.commandBuffer.Some? && s.renderTarget.Some?
  {
    var p := PassUpdated(s);
    if fate != Encodes then p
    else
      var attachments := TexOf(p.passColor) + TexOf(p.passDepth);
      Encoded(p, (set t | t in p.textures :: Tex(t)) + attachments, attachments, ValueOf(p.passColor))
  }

  function Next(s: State, op: Op): State {
    match op
    case SetRenderTarget(tex, zstencil) =>
      s.(renderTarget := tex, depthStencil := zstencil,
         isTargetChanged := s.isTargetChanged || tex.Some? || zstencil.Some?)
    case EnableSrgb(enable) =>
      s.(useSrgb := enable, isTargetChanged := s.isTargetChanged || s.useSrgb != enable)
    case BeginFrame => s.(useSrgb := false, renderTarget := None)
    case LoadSwapChain(gamma, chainTarget) =>
      if chainTarget.None? then s.(useSrgb := gamma)
      else s.(useSrgb := gamma, renderTarget := chainTarget, depthStencil := None, isTargetChanged := true)
    case LoadTextures(bound) => s.(textures := bound)
    case Clear(loadsColor, made, fate) =>
      var e := Ensured(s, made);
      if e.commandBuffer.None? || s.renderTarget.None? then e else Cleared(e, loadsColor, fate)
    case Draw(ready, made, fate) =>
      var e := Ensured(s, made);
      if e.commandBuffer.None? || s.renderTarget.None? || !ready then e else Drawn(e, fate)
    case CopyTexture(source, destination, made, encoded) =>
      var e := Ensured(Settled(s, source), made);
      if e.commandBuffer.None? || !encoded then e else Encoded(e, {Tex(source)}, {Tex(destination)}, {})
    case StageTo(source, into, whole, encoded) =>
      var f := Settled(s, source);
      if encoded then Committed(f, Tex(source), into, whole) else f
    case StageFrom(number, destination, whole, encoded) =>
      if encoded then Committed(s, Staging(number), Tex(destination), whole) else s
    case GenerateMipmaps(tex, made, encoded) =>
      var e := Ensured(s, made);
      if e.commandBuffer.None? || !encoded then e else Encoded(e, {Tex(tex)}, {Tex(tex)}, {})
    case Finish => Finished(s)
  }

  function Run(s: State, ops: seq<Op>): State
    decreases |ops|
  {
    if ops == [] then s else Run(Next(s, ops[0]), ops[1..])
  }

  /** Which calls end in an error. */
  predicate Throws(s: State, op: Op) {
    match op
    case Clear(_, made, fate) => (s.commandBuffer.None? && !made) || (s.renderTarget.Some? && fate != Encodes)
    case Draw(ready, made, fate) =>
      (s.commandBuffer.None? && !made) || (s.renderTarget.Some? && ready && fate != Encodes)
    case CopyTexture(source, _, made, encoded) => (Settled(s, source).commandBuffer.None? && !made) || !encoded
    case StageTo(_, _, _, encoded) => !encoded
    case StageFrom(_, _, _, encoded) => !encoded
    case _ => false
  }

  const Start: State := State(None, None, false, None, None, {}, false, None, {}, {}, [], [])

  // ----- Invariant

  predicate Inv(s: State) {
    && s.pending == s.inFlight
    && (s.inFlight != {} ==> s.commandBuffer.Some?)
    && (s.renderTarget.Some? ==> s.isTargetChanged)
    && (s.commandBuffer.Some? ==> !s.commandBuffer.value.isCommitted)
    && (forall i :: 0 <= i < |Deferred(s)| ==> Deferred(s)[i].tracked <= s.inFlight)
  }

  lemma FinishedFacts(s: State)
    requires Inv(s)
    ensures var f := Finished(s); Inv(f) && Deferred(f) == [] && f.pending == {} && QueueOrder(f) == QueueOrder(s) && f.issued == s.issued
  {
  }

  lemma EncodedInv(s: State, inputs: set<Resource>, outputs: set<Resource>, tracked: set<MetalTexture>)
    requires Inv(s) && s.commandBuffer.Some? && tracked <= s.inFlight
    ensures var e := Encoded(s, inputs, outputs, tracked);
            Inv(e) && QueueOrder(e) == QueueOrder(s) + [e.issued[|s.issued|]]
  {
    var e := Encoded(s, inputs, outputs, tracked);
    assert forall i :: 0 <= i < |Deferred(s)| ==> Deferred(e)[i] == Deferred(s)[i];
  }

  lemma MarkedInv(s: State, t: MetalTexture)
    requires Inv(s) && s.commandBuffer.Some?
    ensures Inv(Marked(s, t)) && QueueOrder(Marked(s, t)) == QueueOrder(s)
  {
    var m := Marked(s, t);
    assert Deferred(m) == Deferred(s);
    assert forall i :: 0 <= i < |Deferred(m)| ==> Deferred(s)[i].tracked <= m.inFlight;
  }

  lemma NextKeepsInv(s: State, op: Op)
    requires Inv(s)
    ensures Inv(Next(s, op))
  {
    hide Encoded, Finished;
    FinishedFacts(s);
    match op
    case Clear(loadsColor, made, fate) => ClearKeepsInv(s, loadsColor, made, fate);
    case Draw(ready, made, fate) => DrawKeepsInv(s, ready, made, fate);
    case CopyTexture(source, destination, made, encoded) =>
      var e := Ensured(Settled(s, source), made);
      if e.commandBuffer.Some? { EncodedInv(e, {Tex(source)}, {Tex(destination)}, {}); }
    case GenerateMipmaps(tex, made, encoded) =>
      var e := Ensured(s, made);
      if e.commandBuffer.Some? { EncodedInv(e, {Tex(tex)}, {Tex(tex)}, {}); }
    case _ =>
  }

  lemma ClearKeepsInv(s: State, loadsColor: bool, made: bool, fate: Fate)
    requires Inv(s)
    ensures Inv(Next(s, Clear(loadsColor, made, fate)))
  {
    hide Encoded, Finished;
    var e := Ensured(s, made);
    if e.commandBuffer.Some? && s.renderTarget.Some? {
      MarkedInv(e, s.renderTarget.value);
      var color, depth := {Tex(s.renderTarget.value)}, TexOf(s.depthStencil);
      EncodedInv(Marked(e, s.renderTarget.value), (if loadsColor then color else {}) + depth, color + depth, {s.renderTarget.value});
    }
  }

  lemma DrawKeepsInv(s: State, ready: bool, made: bool, fate: Fate)
    requires Inv(s)
    ensures Inv(Next(s, Draw(ready, made, fate)))
  {
    hide Encoded, Finished;
    var e := Ensured(s, made);
    if e.commandBuffer.Some? && s.renderTarget.Some? {
      MarkedInv(e, s.renderTarget.value);
      var p := PassUpdated(e);
      assert Inv(p) by { assert Deferred(p) == Deferred(Marked(e, s.renderTarget.value)); }
      var attachments := TexOf(p.passColor) + TexOf(p.passDepth);
      EncodedInv(p, (set t | t in p.textures :: Tex(t)) + attachments, attachments, ValueOf(p.passColor));
    }
  }

  /** A draw that encodes writes the render target that is set, never one left in the pass descriptor. */
  lemma DrawWritesTarget(s: State, made: bool)
    requires Inv(s) && s.renderTarget.Some? && (made || s.commandBuffer.Some?)
    ensures var s' := Next(s, Draw(true, made, Encodes));
            && |s'.issued| == |s.issued| + 1
            && s'.issued[|s.issued|].tracked == {s.renderTarget.value}
            && s'.issued[|s.issued|].outputs == {Tex(s.renderTarget.value)} + TexOf(s.depthStencil)
            && s.renderTarget.value in s'.pending
  {
  }

  /** What a draw reads: every bound texture, and the attachments it draws over. */
  lemma {:induction false} DrawReads(s: State, made: bool, t: MetalTexture)
    requires Inv(s) && s.renderTarget.Some? && (made || s.commandBuffer.Some?)
    ensures var s' := Next(s, Draw(true, made, Encodes));
            && |s'.issued| == |s.issued| + 1
            && (Tex(t) in s'.issued[|s.issued|].inputs <==> t in s.textures || Some(t) == s.renderTarget || Some(t) == s.depthStencil)
  {
  }

  /** A clear that encodes writes the render target and marks it; one that fails late marks it all the same. */
  lemma {:induction false} ClearWritesTarget(s: State, loadsColor: bool, made: bool, fate: Fate)
    requires Inv(s) && s.renderTarget.Some? && (made || s.commandBuffer.Some?)
    ensures var s', t := Next(s, Clear(loadsColor, made, fate)), s.renderTarget.value;
            && s'.pending == (if fate == FailsUnmarked then s.pending else s.pending + {t})
            && s'.inFlight == s'.pending && s'.commandBuffer.Some? && s'.queue == s.queue
            && if fate != Encodes then s'.issued == s.issued && Deferred(s') == Deferred(s)
               else |s'.issued| == |s.issued| + 1
                    && var c := s'.issued[|s.issued|];
                    && Deferred(s') == Deferred(s) + [c] && c.tracked == {t} && c.kept == {}
                    && c.outputs == {Tex(t)} + TexOf(s.depthStencil)
                    && c.inputs == (if loadsColor then {Tex(t)} else {}) + TexOf(s.depthStencil)
  {
  }

  /** Setters: what each changes, and that all else stays. */
  lemma {:induction false} SettersRecord(s: State, tex: Option<MetalTexture>, zs: Option<MetalTexture>, b: bool, bound: set<MetalTexture>)
    ensures Next(s, SetRenderTarget(tex, zs))
         == s.(renderTarget := tex, depthStencil := zs,
               isTargetChanged := if tex.Some? || zs.Some? then true else s.isTargetChanged)
    ensures Next(s, EnableSrgb(b)).useSrgb == b
    ensures Next(s, EnableSrgb(b)).isTargetChanged <==> s.isTargetChanged || b != s.useSrgb
    ensures Next(s, EnableSrgb(b)) == s.(useSrgb := b, isTargetChanged := Next(s, EnableSrgb(b)).isTargetChanged)
    ensures Next(s, BeginFrame) == s.(useSrgb := false, renderTarget := None)
    ensures Next(s, LoadSwapChain(b, None)) == s.(useSrgb := b)
    ensures tex.Some? ==>
              Next(s, LoadSwapChain(b, tex)) == s.(useSrgb := b, renderTarget := tex, depthStencil := None, isTargetChanged := true)
    ensures Next(s, LoadTextures(bound)) == s.(textures := bound)
  {
  }

  /** A copy reads its source and writes its destination, behind everything deferred once a marked source is flushed. */
  lemma {:induction false} CopyReadsSource(s: State, source: MetalTexture, destination: MetalTexture)
    requires Inv(s)
    ensures var s' := Next(s, CopyTexture(source, destination, true, true));
            && |s'.issued| == |s.issued| + 1
            && var c := s'.issued[|s.issued|];
            && c.inputs == {Tex(source)} && c.outputs == {Tex(destination)} && c.kept == {}
            && QueueOrder(s') == QueueOrder(s) + [c]
            && Deferred(s') == (if source in s.pending then [] else Deferred(s)) + [c]
  {
    FinishedFacts(s);
  }

  /** Mipmaps are made from the texture itself, deferred. */
  lemma {:induction false} MipmapsInPlace(s: State, t: MetalTexture)
    ensures var s' := Next(s, GenerateMipmaps(t, true, true));
            && |s'.issued| == |s.issued| + 1
            && var c := s'.issued[|s.issued|];
            && c.inputs == {Tex(t)} && c.outputs == {Tex(t)} && Deferred(s') == Deferred(s) + [c] && s'.queue == s.queue
  {
  }

  /** Finishing commits everything deferred, in order, and clears every mark. */
  lemma {:induction false} FinishCommitsAll(s: State)
    requires Inv(s)
    ensures var s' := Next(s, Finish);
            && s'.queue == s.queue + Deferred(s) && Deferred(s') == [] && s'.pending == {} == s'.inFlight
            && s'.issued == s.issued
  {
    FinishedFacts(s);
  }

  lemma {:induction false} RunKeepsInv(s: State, ops: seq<Op>)
    requires Inv(s)
    ensures Inv(Run(s, ops))
    decreases |ops|
  {
    if ops != [] {
      NextKeepsInv(s, ops[0]);
      RunKeepsInv(Next(s, ops[0]), ops[1..]);
    }
  }

  // ----- Order of tracked writes and later reads

  /** Commands that overtake earlier issued ones never read what those are tracked to write. */
  predicate WritesFirst(q: seq<Cmd>) {
    forall i, j :: 0 <= i < j < |q| && q[j].id < q[i].id ==> Untouched(q[j].tracked, q[i].inputs)
  }

  predicate Untouched(tracked: set<MetalTexture>, inputs: set<Resource>) {
    forall t :: t in tracked ==> Tex(t) !in inputs
  }

  predicate Below(q: seq<Cmd>, n: nat) { forall i :: 0 <= i < |q| ==> q[i].id < n }

  predicate Distinct(q: seq<Cmd>) { forall i, j :: 0 <= i < j < |q| ==> q[i].id != q[j].id }

  predicate Ordered(s: State) {
    && WritesFirst(QueueOrder(s)) && Distinct(QueueOrder(s))
    && Below(QueueOrder(s), |s.issued|) && |QueueOrder(s)| == |s.issued|
  }

  /** A newer command slipped in before `d`: the pairs it forms, and those there were. */
  lemma {:induction false} InsertPair(q: seq<Cmd>, d: seq<Cmd>, c: Cmd, i: nat, j: nat)
    requires WritesFirst(q + d) && Distinct(q + d) && Below(q + d, c.id)
    requires forall k :: 0 <= k < |d| ==> Untouched(d[k].tracked, c.inputs)
    requires i < j < |q + [c] + d|
    ensures var n := q + [c] + d;
            n[i].id != n[j].id && (n[j].id < n[i].id ==> Untouched(n[j].tracked, n[i].inputs))
  {
    var was, now := q + d, q + [c] + d;
    if i == |q| {
      assert now[i] == c && now[j] == d[j - |q| - 1] == was[j - 1];
    } else if j == |q| {
      assert now[j] == c && now[i] == was[i];
    } else {
      var i', j' := if i < |q| then i else i - 1, if j < |q| then j else j - 1;
      assert now[i] == was[i'] && now[j] == was[j'];
    }
  }

  lemma {:induction false} InsertKeepsOrder(q: seq<Cmd>, d: seq<Cmd>, c: Cmd)
    requires WritesFirst(q + d) && Distinct(q + d) && Below(q + d, c.id)
    requires forall i :: 0 <= i < |d| ==> Untouched(d[i].tracked, c.inputs)
    ensures WritesFirst(q + [c] + d) && Distinct(q + [c] + d) && Below(q + [c] + d, c.id + 1)
  {
    var was, now := q + d, q + [c] + d;
    assert WritesFirst(now) && Distinct(now) by {
      forall i, j | 0 <= i < j < |now|
        ensures now[i].id != now[j].id && (now[j].id < now[i].id ==> Untouched(now[j].tracked, now[i].inputs))
      {
        InsertPair(q, d, c, i, j);
      }
    }
    forall i | 0 <= i < |now| ensures now[i].id < c.id + 1 {
      assert i < |q| ==> now[i] == was[i];
      assert i > |q| ==> now[i] == was[i - 1];
    }
  }

  predicate Immediate(op: Op) { op.StageTo? || op.StageFrom? }

  /** The state in which an immediate command is committed. */
  function Flushed(s: State, op: Op): State { if op.StageTo? then Settled(s, op.source) else s }

  /** A call issues nothing, or one command: immediate ones go before the deferred buffer, others to its end. */
  predicate Issues(s: State, op: Op, s': State) {
    && |s'.issued| == |s.issued| + 1
    && var c := s'.issued[|s.issued|];
    && s'.issued == s.issued + [c] && c.id == |s.issued|
    && if Immediate(op)
       then s'.queue == Flushed(s, op).queue + [c] && Deferred(s') == Deferred(Flushed(s, op))
       else QueueOrder(s') == QueueOrder(s) + [c]
  }

  predicate IssuesNothing(s: State, s': State) { s'.issued == s.issued && QueueOrder(s') == QueueOrder(s) }

  lemma StepShape(s: State, op: Op)
    requires Inv(s)
    ensures Issues(s, op, Next(s, op)) || IssuesNothing(s, Next(s, op))
  {
    hide Finished, Inv, Encoded, Cleared, Drawn;
    FinishedFacts(s);
    match op
    case Clear(_, _, _) => ClearShape(s, op);
    case Draw(_, _, _) => DrawShape(s, op);
    case CopyTexture(_, _, _, _) => CopyShape(s, op);
    case GenerateMipmaps(_, _, _) => CopyShape(s, op);
    case _ =>
  }

  lemma CopyShape(s: State, op: Op)
    requires Inv(s) && (op.CopyTexture? || op.GenerateMipmaps?)
    ensures Issues(s, op, Next(s, op)) || IssuesNothing(s, Next(s, op))
  {
    hide Finished, Inv, Encoded;
    FinishedFacts(s);
    var e := Ensured(if op.CopyTexture? then Settled(s, op.source) else s, op.made);
    assert QueueOrder(e) == QueueOrder(s) && e.issued == s.issued;
    hide QueueOrder, Deferred;
    if e.commandBuffer.Some? && op.CopyTexture? { EncodedOrder(e, {Tex(op.source)}, {Tex(op.destination)}, {}); }
    if e.commandBuffer.Some? && op.GenerateMipmaps? { EncodedOrder(e, {Tex(op.mipmapped)}, {Tex(op.mipmapped)}, {}); }
  }

  lemma EncodedOrder(s: State, inputs: set<Resource>, outputs: set<Resource>, tracked: set<MetalTexture>)
    requires s.commandBuffer.Some?
    ensures var e := Encoded(s, inputs, outputs, tracked);
            var c := Cmd(|s.issued|, inputs, outputs, tracked);
            QueueOrder(e) == QueueOrder(s) + [c] && e.issued == s.issued + [c]
  {
  }

  lemma ClearShape(s: State, op: Op)
    requires op.Clear?
    ensures Issues(s, op, Next(s, op)) || IssuesNothing(s, Next(s, op))
  {
    hide Encoded;
    var e := Ensured(s, op.made);
    assert QueueOrder(e) == QueueOrder(s);
    hide Deferred, QueueOrder;
    if e.commandBuffer.Some? && s.renderTarget.Some? {
      var target := s.renderTarget.value;
      var color, depth := {Tex(target)}, TexOf(s.depthStencil);
      EncodedOrder(Marked(e, target), (if op.loadsColor then color else {}) + depth, color + depth, {target});
      assert QueueOrder(Marked(e, target)) == QueueOrder(e) by { SameOrder(e, Marked(e, target)); }
    }
  }

  lemma DrawShape(s: State, op: Op)
    requires op.Draw?
    ensures Issues(s, op, Next(s, op)) || IssuesNothing(s, Next(s, op))
  {
    hide Encoded;
    var e := Ensured(s, op.made);
    assert QueueOrder(e) == QueueOrder(s);
    hide Deferred, QueueOrder;
    if e.commandBuffer.Some? && s.renderTarget.Some? {
      var p := PassUpdated(e);
      var attachments := TexOf(p.passColor) + TexOf(p.passDepth);
      EncodedOrder(p, (set t | t in p.textures :: Tex(t)) + attachments, attachments, ValueOf(p.passColor));
      assert QueueOrder(p) == QueueOrder(e) by { SameOrder(e, p); }
    }
  }

  lemma SameOrder(s: State, t: State)
    requires t.queue == s.queue && t.commandBuffer == s.commandBuffer
    ensures QueueOrder(t) == QueueOrder(s)
  {
  }

  lemma NextKeepsOrder(s: State, op: Op)
    requires Inv(s) && Ordered(s)
    ensures Ordered(Next(s, op))
  {
    hide WritesFirst, Distinct, Below;
    var s' := Next(s, op);
    StepShape(s, op);
    if Issues(s, op, s') {
      var c := s'.issued[|s.issued|];
      if Immediate(op) {
        var f := Flushed(s, op);
        FinishedFacts(s);
        OvertakenUnread(s, op);
        InsertKeepsOrder(f.queue, Deferred(f), c);
      } else {
        assert QueueOrder(s) + [] == QueueOrder(s) && QueueOrder(s) + [c] + [] == QueueOrder(s) + [c];
        InsertKeepsOrder(QueueOrder(s), [], c);
      }
    }
  }

  /** What an immediate command overtakes is not tracked to write what it reads. */
  lemma OvertakenUnread(s: State, op: Op)
    requires Inv(s) && Immediate(op) && Issues(s, op, Next(s, op))
    ensures var d := Deferred(Flushed(s, op));
            forall i :: 0 <= i < |d| ==> Untouched(d[i].tracked, Next(s, op).issued[|s.issued|].inputs)
  {
    FinishedFacts(s);
    var f := Flushed(s, op);
    forall i | 0 <= i < |Deferred(f)|
      ensures Untouched(Deferred(f)[i].tracked, Next(s, op).issued[|s.issued|].inputs)
    {
      assert Deferred(f)[i].tracked <= f.inFlight;
    }
  }

  /**
   * In every run, a draw's or clear's write to its render target precedes, in queue order, every
   * command issued later that reads the texture.
   */
  lemma {:induction false} TrackedWritesComeFirst(s: State, ops: seq<Op>)
    requires Inv(s) && Ordered(s)
    ensures Ordered(Run(s, ops))
    decreases |ops|
  {
    if ops != [] {
      NextKeepsInv(s, ops[0]);
      NextKeepsOrder(s, ops[0]);
      TrackedWritesComeFirst(Next(s, ops[0]), ops[1..]);
    }
  }

  /** Every command issued is in the queue order, under the number of its call. */
  predicate Listed(s: State) {
    forall k :: 0 <= k < |s.issued| ==> s.issued[k].id == k && s.issued[k] in QueueOrder(s)
  }

  lemma {:induction false} NextKeepsListed(s: State, op: Op)
    requires Inv(s) && Listed(s)
    ensures Listed(Next(s, op)) && s.issued <= Next(s, op).issued
  {
    hide Next, QueueOrder;
    var s' := Next(s, op);
    StepShape(s, op);
    if Issues(s, op, s') {
      var c := s'.issued[|s.issued|];
      InOrderStill(s, op, s', c);
      forall k | 0 <= k < |s'.issued| ensures s'.issued[k].id == k && s'.issued[k] in QueueOrder(s') {
        assert k < |s.issued| ==> s'.issued[k] == s.issued[k];
      }
    }
  }

  lemma {:induction false} InOrderStill(s: State, op: Op, s': State, c: Cmd)
    requires Inv(s) && Issues(s, op, s') && c == s'.issued[|s.issued|]
    ensures c in QueueOrder(s') && forall x :: x in QueueOrder(s) ==> x in QueueOrder(s')
  {
    hide Inv;
    FinishedFacts(s);
    if Immediate(op) {
      var f := Flushed(s, op);
      assert QueueOrder(s) == f.queue + Deferred(f);
      assert QueueOrder(s') == f.queue + [c] + Deferred(f);
    }
  }

  lemma {:induction false} RunKeepsListed(s: State, ops: seq<Op>)
    requires Inv(s) && Listed(s)
    ensures Listed(Run(s, ops)) && s.issued <= Run(s, ops).issued
    decreases |ops|
  {
    hide Next, Listed, Inv;
    if ops != [] {
      NextKeepsInv(s, ops[0]);
      NextKeepsListed(s, ops[0]);
      RunKeepsListed(Next(s, ops[0]), ops[1..]);
    }
  }

  /** The call draws or clears, and nothing it needs is missing. */
  predicate Renders(s: State, op: Op) {
    && s.renderTarget.Some?
    && ((op.Draw? && op.ready && op.fate == Encodes && (op.made || s.commandBuffer.Some?))
        || (op.Clear? && op.fate == Encodes && (op.made || s.commandBuffer.Some?)))
  }

  /** In `q`, command `n` writes the texture and no later issued command that reads it stands before it. */
  predicate WrittenBeforeReaders(q: seq<Cmd>, n: nat, t: MetalTexture) {
    exists j :: 0 <= j < |q| && q[j].id == n && Tex(t) in q[j].outputs
                && forall i :: 0 <= i < j && n < q[i].id ==> Tex(t) !in q[i].inputs
  }

  /**
   * In any run, whatever draw or clear it contains: the call's write to the render target set at that
   * moment stands, in the final queue order, before every command issued later that reads the texture.
   */
  lemma {:induction false} RenderPrecedesReaders(before: seq<Op>, op: Op, after: seq<Op>)
    requires Renders(Run(Start, before), op)
    ensures var s := Run(Start, before);
            WrittenBeforeReaders(QueueOrder(Run(Next(s, op), after)), |s.issued|, s.renderTarget.value)
  {
    hide Next, Run, QueueOrder, Inv, Ordered;
    var s := Run(Start, before);
    assert Inv(Start) && Ordered(Start) by { StartIsSound(); }
    RunKeepsInv(Start, before);
    TrackedWritesComeFirst(Start, before);
    RunKeepsListed(Start, before);
    RenderedThenRun(s, op, after);
  }

  lemma {:induction false} StartIsSound()
    ensures Inv(Start) && Ordered(Start)
  {
  }

  lemma {:induction false} RenderedThenRun(s: State, op: Op, after: seq<Op>)
    requires Inv(s) && Ordered(s) && Listed(s) && Renders(s, op)
    ensures WrittenBeforeReaders(QueueOrder(Run(Next(s, op), after)), |s.issued|, s.renderTarget.value)
  {
    hide Next, Run, QueueOrder, Inv, Distinct, Below;
    var s', t, n := Next(s, op), s.renderTarget.value, |s.issued|;
    RenderedCommand(s, op);
    NextKeepsInv(s, op);
    NextKeepsOrder(s, op);
    NextKeepsListed(s, op);
    TrackedWritesComeFirst(s', after);
    RunKeepsListed(s', after);
    var r := Run(s', after);
    var q := QueueOrder(r);
    assert r.issued[n] == s'.issued[n];
    var j :| 0 <= j < |q| && q[j] == r.issued[n];
    forall i | 0 <= i < j && n < q[i].id ensures Tex(t) !in q[i].inputs {
      assert Untouched(q[j].tracked, q[i].inputs);
    }
  }

  lemma {:induction false} RenderedCommand(s: State, op: Op)
    requires Inv(s) && Renders(s, op)
    ensures var s', t := Next(s, op), s.renderTarget.value;
            |s'.issued| == |s.issued| + 1 && s'.issued[|s.issued|].tracked == {t} && Tex(t) in s'.issued[|s.issued|].outputs
  {
    hide Inv, Next;
    if op.Draw? { DrawWritesTarget(s, op.made); } else { ClearWritesTarget(s, op.loadsColor, op.made, op.fate); }
  }

  // ----- What the resources hold

  /** Contents as a term: untouched, or written by a command from the contents it read. */
  datatype Value = Initial(r: Resource) | Written(writer: nat, seen: map<Resource, Value>)

  function Contents(q: seq<Cmd>, r: Resource): Value {
    if q == [] then Initial(r)
    else
      var n, c := |q| - 1, q[|q| - 1];
      if r in c.outputs then Written(c.id, map x | x in Reads(c) :: Contents(q[..n], x)) else Contents(q[..n], r)
  }

  predicate Conflict(a: Cmd, c: Cmd) {
    !(a.outputs !! Reads(c) && Reads(a) !! c.outputs && a.outputs !! c.outputs)
  }

  lemma ContentsLast(q: seq<Cmd>, c: Cmd, r: Resource)
    ensures Contents(q + [c], r) ==
            if r in c.outputs then Written(c.id, map x | x in Reads(c) :: Contents(q, x)) else Contents(q, r)
  {
    assert (q + [c])[..|q|] == q;
  }

  lemma Congruent(a: seq<Cmd>, b: seq<Cmd>, c: Cmd)
    requires forall r :: Contents(a, r) == Contents(b, r)
    ensures forall r :: Contents(a + [c], r) == Contents(b + [c], r)
  {
    assert (map x | x in Reads(c) :: Contents(a, x)) == (map x | x in Reads(c) :: Contents(b, x));
    forall r ensures Contents(a + [c], r) == Contents(b + [c], r) {
      ContentsLast(a, c, r);
      ContentsLast(b, c, r);
    }
  }

  lemma SwapIndependent(q: seq<Cmd>, a: Cmd, c: Cmd)
    requires !Conflict(a, c)
    ensures forall r :: Contents(q + [a] + [c], r) == Contents(q + [c] + [a], r)
  {
    forall r ensures Contents(q + [a], r) == Contents(q, r) || r in a.outputs { ContentsLast(q, a, r); }
    forall r ensures Contents(q + [c], r) == Contents(q, r) || r in c.outputs { ContentsLast(q, c, r); }
    assert forall x :: x in Reads(c) ==> x !in a.outputs;
    assert forall x :: x in Reads(a) ==> x !in c.outputs;
    assert (map x | x in Reads(c) :: Contents(q + [a], x)) == (map x | x in Reads(c) :: Contents(q, x));
    assert (map x | x in Reads(a) :: Contents(q + [c], x)) == (map x | x in Reads(a) :: Contents(q, x));
    forall r ensures Contents(q + [a] + [c], r) == Contents(q + [c] + [a], r) {
      ContentsLast(q + [a], c, r);
      ContentsLast(q + [c], a, r);
      ContentsLast(q, a, r);
      ContentsLast(q, c, r);
    }
  }

  predicate Independent(d: seq<Cmd>, c: Cmd) { forall i :: 0 <= i < |d| ==> !Conflict(d[i], c) }

  /** A command that conflicts with none of `d` may as well run after them. */
  lemma {:induction false} FloatPast(q: seq<Cmd>, d: seq<Cmd>, c: Cmd)
    requires Independent(d, c)
    ensures forall r :: Contents(q + [c] + d, r) == Contents(q + d + [c], r)
    decreases |d|
  {
    if d == [] {
      assert q + [c] + d == q + d + [c];
    } else {
      var n := |d| - 1;
      var front, a := d[..n], d[n];
      assert d == front + [a];
      FloatPast(q, front, c);
      Congruent(q + [c] + front, q + front + [c], a);
      SwapIndependent(q + front, a, c);
      assert q + [c] + d == q + [c] + front + [a] && q + d + [c] == q + front + [a] + [c];
    }
  }

  /** An immediate command conflicts with nothing that stays behind it in the deferred buffer. */
  predicate Clean(s: State, op: Op) {
    Immediate(op) && |Next(s, op).issued| > |s.issued| ==>
      Independent(Deferred(Flushed(s, op)), Next(s, op).issued[|s.issued|])
  }

  predicate CleanRun(s: State, ops: seq<Op>)
    decreases |ops|
  {
    ops == [] || (Clean(s, ops[0]) && CleanRun(Next(s, ops[0]), ops[1..]))
  }

  lemma NextKeepsContents(s: State, op: Op)
    requires Inv(s) && Clean(s, op)
    requires forall r :: Contents(QueueOrder(s), r) == Contents(s.issued, r)
    ensures forall r :: Contents(QueueOrder(Next(s, op)), r) == Contents(Next(s, op).issued, r)
  {
    hide Contents, Next, Independent;
    var s' := Next(s, op);
    StepShape(s, op);
    if Issues(s, op, s') {
      var c := s'.issued[|s.issued|];
      Congruent(QueueOrder(s), s.issued, c);
      if Immediate(op) {
        FinishedFacts(s);
        var f := Flushed(s, op);
        FloatPast(f.queue, Deferred(f), c);
        assert QueueOrder(s') == f.queue + [c] + Deferred(f);
      }
    }
  }

  /**
   * Deferring refines running every command as it is issued: after any clean run all textures and
   * staging buffers hold what they would hold had each call taken effect at once.
   */
  lemma {:induction false} DeferringIsInvisible(s: State, ops: seq<Op>)
    requires Inv(s) && CleanRun(s, ops)
    requires forall r :: Contents(QueueOrder(s), r) == Contents(s.issued, r)
    ensures forall r :: Contents(QueueOrder(Run(s, ops)), r) == Contents(Run(s, ops).issued, r)
    decreases |ops|
  {
    hide Contents, Next;
    if ops != [] {
      NextKeepsInv(s, ops[0]);
      NextKeepsContents(s, ops[0]);
      DeferringIsInvisible(Next(s, ops[0]), ops[1..]);
    }
  }

  // ----- Exactly when an immediate read is current

  predicate Writes(d: seq<Cmd>, r: Resource) { exists i :: 0 <= i < |d| && r in d[i].outputs }

  lemma {:induction false} UnwrittenKeeps(q: seq<Cmd>, d: seq<Cmd>, r: Resource)
    requires !Writes(d, r)
    ensures Contents(q + d, r) == Contents(q, r)
    decreases |d|
  {
    if d == [] {
      assert q + d == q;
    } else {
      var n := |d| - 1;
      assert d == d[..n] + [d[n]] && q + d == q + d[..n] + [d[n]];
      UnwrittenKeeps(q, d[..n], r);
      ContentsLast(q + d[..n], d[n], r);
    }
  }

  lemma {:induction false} WrittenByMember(q: seq<Cmd>, d: seq<Cmd>, r: Resource) returns (i: nat)
    requires Writes(d, r)
    ensures i < |d| && Contents(q + d, r).Written? && Contents(q + d, r).writer == d[i].id
    decreases |d|
  {
    var n := |d| - 1;
    assert d == d[..n] + [d[n]] && q + d == q + d[..n] + [d[n]];
    ContentsLast(q + d[..n], d[n], r);
    if r in d[n].outputs {
      i := n;
    } else {
      i := WrittenByMember(q, d[..n], r);
    }
  }

  /** What a command placed before `d` sees is what `d` leaves exactly if `d` does not write it. */
  lemma {:induction false} MissesDeferred(q: seq<Cmd>, d: seq<Cmd>, r: Resource)
    requires Distinct(q + d)
    ensures Contents(q, r) == Contents(q + d, r) <==> !Writes(d, r)
  {
    if Writes(d, r) {
      var i := WrittenByMember(q, d, r);
      assert [] + q == q;
      if Writes(q, r) {
        var k := WrittenByMember([], q, r);
        assert (q + d)[k] == q[k] && (q + d)[|q| + i] == d[i];
      } else {
        UnwrittenKeeps([], q, r);
      }
    } else {
      UnwrittenKeeps(q, d, r);
    }
  }

  /**
   * While queue order and issue order agree, a stage or region copy reads what everything issued
   * before it left in its source, if and only if the source is marked pending or nothing in the
   * deferred buffer writes it.
   */
  lemma {:induction false} StageReadsCurrent(s: State, source: MetalTexture)
    requires Inv(s) && Ordered(s)
    requires forall r :: Contents(QueueOrder(s), r) == Contents(s.issued, r)
    ensures Contents(Settled(s, source).queue, Tex(source)) == Contents(s.issued, Tex(source))
            <==> source in s.pending || !Writes(Deferred(s), Tex(source))
  {
    FinishedFacts(s);
    if source !in s.pending {
      MissesDeferred(s.queue, Deferred(s), Tex(source));
    } else {
      assert Settled(s, source).queue + [] == Settled(s, source).queue;
    }
  }

  function SourceOf(op: Op): Resource
    requires Immediate(op)
  {
    if op.StageTo? then Tex(op.source) else Staging(op.number)
  }

  function DestinationOf(op: Op): Resource
    requires Immediate(op)
  {
    if op.StageTo? then op.into else Tex(op.destination)
  }

  function ImmediateCmd(s: State, op: Op): Cmd
    requires Immediate(op)
  {
    Cmd(|s.issued|, {SourceOf(op)}, {DestinationOf(op)}, {}, if op.whole then {} else {DestinationOf(op)})
  }

  lemma {:induction false} ImmediateShape(s: State, op: Op)
    requires Inv(s) && Immediate(op) && op.encoded
    ensures var f, s' := Flushed(s, op), Next(s, op);
            var c := ImmediateCmd(s, op);
            && s'.issued == s.issued + [c] && QueueOrder(s') == f.queue + [c] + Deferred(f)
            && QueueOrder(s) == f.queue + Deferred(f)
  {
    FinishedFacts(s);
  }

  /**
   * An immediate command overtakes whatever stays deferred. From a state in which both orders agree,
   * its destination ends with what issue order would leave in it, if and only if nothing that stays
   * deferred writes the destination or the source.
   */
  lemma {:induction false} ImmediateWriteLands(s: State, op: Op)
    requires Inv(s) && Ordered(s) && Immediate(op) && op.encoded
    requires forall r :: Contents(QueueOrder(s), r) == Contents(s.issued, r)
    ensures var d, s', dst := Deferred(Flushed(s, op)), Next(s, op), DestinationOf(op);
            Contents(QueueOrder(s'), dst) == Contents(s'.issued, dst)
            <==> !Writes(d, dst) && !Writes(d, SourceOf(op))
  {
    hide Contents, Next, Flushed, Writes;
    var q, d := Flushed(s, op).queue, Deferred(Flushed(s, op));
    var src, dst := SourceOf(op), DestinationOf(op);
    var c := ImmediateCmd(s, op);
    ImmediateShape(s, op);
    Congruent(QueueOrder(s), s.issued, c);
    ContentsLast(q + d, c, dst);
    if Writes(d, dst) {
      var i := WrittenByMember(q + [c], d, dst);
      assert QueueOrder(s)[|q| + i] == d[i];
    } else {
      UnwrittenKeeps(q + [c], d, dst);
      ContentsLast(q, c, dst);
      SameSeen(q, q + d, c);
      MissesDeferred(q, d, src);
      MissesDeferred(q, d, dst);
    }
  }

  /** A deferred command that reads the destination, and whose result lasts, reads the newer contents instead. */
  lemma {:induction false} OvertakenReadDiffers(s: State, op: Op, i: nat, r: Resource)
    requires Inv(s) && Ordered(s) && Immediate(op) && op.encoded
    requires forall x :: Contents(QueueOrder(s), x) == Contents(s.issued, x)
    requires var d := Deferred(Flushed(s, op));
             && i < |d| && DestinationOf(op) in Reads(d[i]) && r in d[i].outputs && r != DestinationOf(op)
             && !Writes(d[..i], DestinationOf(op)) && !Writes(d[i + 1..], r)
    ensures Contents(QueueOrder(Next(s, op)), r) != Contents(Next(s, op).issued, r)
  {
    hide Contents, Next, Flushed, Writes;
    var q, d := Flushed(s, op).queue, Deferred(Flushed(s, op));
    var src, dst := SourceOf(op), DestinationOf(op);
    var c := ImmediateCmd(s, op);
    ImmediateShape(s, op);
    Congruent(QueueOrder(s), s.issued, c);
    ContentsLast(q + d, c, r);
    LastWriter(q, d, i, r);
    LastWriter(q + [c], d, i, r);
    ContentsLast(q, c, dst);
    UnwrittenKeeps(q + [c], d[..i], dst);
    UnwrittenKeeps(q, d[..i], dst);
    assert forall k :: 0 <= k < |q| ==> q[k] == QueueOrder(s)[k];
    OlderWriter(q, dst, c.id);
    assert Seen(q + d[..i], d[i])[dst] != Seen(q + [c] + d[..i], d[i])[dst];
  }

  /** What a command reads when it runs after `q`. */
  function Seen(q: seq<Cmd>, c: Cmd): map<Resource, Value> { map x | x in Reads(c) :: Contents(q, x) }

  /** The contents of a resource come from its last writer. */
  lemma {:induction false} LastWriter(q: seq<Cmd>, d: seq<Cmd>, i: nat, r: Resource)
    requires i < |d| && r in d[i].outputs && !Writes(d[i + 1..], r)
    ensures Contents(q + d, r) == Written(d[i].id, Seen(q + d[..i], d[i]))
  {
    assert q + d == q + d[..i] + [d[i]] + d[i + 1..];
    UnwrittenKeeps(q + d[..i] + [d[i]], d[i + 1..], r);
    ContentsLast(q + d[..i], d[i], r);
  }

  lemma {:induction false} OlderWriter(q: seq<Cmd>, r: Resource, n: nat)
    requires Below(q, n)
    ensures Contents(q, r).Written? ==> Contents(q, r).writer < n
  {
    assert [] + q == q;
    if Writes(q, r) {
      var k := WrittenByMember([], q, r);
    } else {
      UnwrittenKeeps([], q, r);
    }
  }

  lemma {:induction false} SameSeen(q: seq<Cmd>, p: seq<Cmd>, c: Cmd)
    ensures Seen(q, c) == Seen(p, c) <==> forall x :: x in Reads(c) ==> Contents(q, x) == Contents(p, x)
  {
    hide Contents;
    if Seen(q, c) == Seen(p, c) {
      forall x | x in Reads(c) ensures Contents(q, x) == Contents(p, x) { assert Seen(q, c)[x] == Seen(p, c)[x]; }
    }
  }

  /** The flag does its work: with the source marked, a stage conflicts with nothing. */
  lemma MarkedSourceIsClean(s: State, source: MetalTexture, into: Resource, whole: bool, encoded: bool)
    requires Inv(s) && source in s.pending
    ensures Clean(s, StageTo(source, into, whole, encoded))
  {
    FinishedFacts(s);
  }

  /** Copies are not marked: staging a copy's destination at once reads what was there before. */
  lemma CopyThenStage(a: MetalTexture, b: MetalTexture, n: nat)
    requires a != b
    ensures var s := Next(Start, CopyTexture(a, b, true, true));
            var s' := Next(s, StageTo(b, Staging(n), true, true));
            && Contents(QueueOrder(s'), Staging(n)) == Written(1, map[Tex(b) := Initial(Tex(b))])
            && Contents(s'.issued, Staging(n)) ==
               Written(1, map[Tex(b) := Written(0, map[Tex(a) := Initial(Tex(a))])])
  {
    hide Next, QueueOrder, Contents;
    var copy, stage := Cmd(0, {Tex(a)}, {Tex(b)}, {}), Cmd(1, {Tex(b)}, {Staging(n)}, {});
    assert [] + [copy] == [copy] && [] + [stage] == [stage];
    CopyThenStageOrder(a, b, n);
    CopiedContents([], stage, Tex(b), Staging(n));
    ContentsLast([stage], copy, Staging(n));
    CopiedContents([], copy, Tex(a), Tex(b));
    CopiedContents([copy], stage, Tex(b), Staging(n));
    EmptyQueue(Tex(a));
    EmptyQueue(Tex(b));
  }

  lemma EmptyQueue(r: Resource)
    ensures Contents([], r) == Initial(r)
  {
  }

  lemma CopiedContents(q: seq<Cmd>, c: Cmd, x: Resource, r: Resource)
    requires c.inputs == {x} && c.outputs == {r} && c.kept == {}
    ensures Contents(q + [c], r) == Written(c.id, map[x := Contents(q, x)])
  {
    ContentsLast(q, c, r);
    assert (map y | y in Reads(c) :: Contents(q, y)) == map[x := Contents(q, x)];
  }

  /**
   * A buffer staged into a texture that a draw has just written goes first in the queue, so a stage
   * of that texture reads the draw, although the texture is pending and the buffer came later.
   */
  lemma {:induction false} DrawThenUploadThenStage(t: MetalTexture, n: nat, m: nat)
    ensures var s := Next(Next(Start, SetRenderTarget(Some(t), None)), Draw(true, true, Encodes));
            var s' := Next(s, StageFrom(n, t, true, true));
            var s'' := Next(s', StageTo(t, Staging(m), true, true));
            var uploaded := Written(1, map[Staging(n) := Initial(Staging(n))]);
            && t in s'.pending
            && Contents(s''.issued, Staging(m)) == Written(2, map[Tex(t) := uploaded])
            && Contents(QueueOrder(s''), Staging(m)) == Written(2, map[Tex(t) := Written(0, map[Tex(t) := uploaded])])
  {
    hide Next, QueueOrder, Contents;
    var draw, upload := Cmd(0, {Tex(t)}, {Tex(t)}, {t}), Cmd(1, {Staging(n)}, {Tex(t)}, {});
    var stage := Cmd(2, {Tex(t)}, {Staging(m)}, {});
    UploadOrder(t, n, m);
    assert [] + [upload] == [upload];
    EmptyQueue(Staging(n));
    CopiedContents([], upload, Staging(n), Tex(t));
    CopiedContents([upload], draw, Tex(t), Tex(t));
    CopiedContents([upload] + [draw], stage, Tex(t), Staging(m));
    ContentsLast([], draw, Staging(n));
    assert [] + [draw] == [draw];
    CopiedContents([draw], upload, Staging(n), Tex(t));
    CopiedContents([draw] + [upload], stage, Tex(t), Staging(m));
  }

  lemma {:induction false} UploadOrder(t: MetalTexture, n: nat, m: nat)
    ensures var s := Next(Next(Start, SetRenderTarget(Some(t), None)), Draw(true, true, Encodes));
            var s' := Next(s, StageFrom(n, t, true, true));
            var s'' := Next(s', StageTo(t, Staging(m), true, true));
            var draw, upload := Cmd(0, {Tex(t)}, {Tex(t)}, {t}), Cmd(1, {Staging(n)}, {Tex(t)}, {});
            var stage := Cmd(2, {Tex(t)}, {Staging(m)}, {});
            && t in s'.pending && s''.issued == [draw] + [upload] + [stage]
            && QueueOrder(s'') == [upload] + [draw] + [stage]
  {
    FirstDraw(t);
  }

  lemma {:induction false} FirstDraw(t: MetalTexture)
    ensures var s := Next(Next(Start, SetRenderTarget(Some(t), None)), Draw(true, true, Encodes));
            var draw := Cmd(0, {Tex(t)}, {Tex(t)}, {t});
            && s.commandBuffer == Some(Buffer([draw], false)) && s.issued == [draw]
            && s.queue == [] && s.pending == {t} == s.inFlight
  {
    var none: set<MetalTexture> := {};
    var attachments := TexOf(Some(t)) + TexOf(None);
    assert attachments == {Tex(t)};
    assert (set u | u in none :: Tex(u)) + attachments == {Tex(t)};
    assert [] + [Cmd(0, {Tex(t)}, {Tex(t)}, {t})] == [Cmd(0, {Tex(t)}, {Tex(t)}, {t})];
  }

  lemma CopyThenStageOrder(a: MetalTexture, b: MetalTexture, n: nat)
    ensures var copy, stage := Cmd(0, {Tex(a)}, {Tex(b)}, {}), Cmd(1, {Tex(b)}, {Staging(n)}, {});
            var s' := Next(Next(Start, CopyTexture(a, b, true, true)), StageTo(b, Staging(n), true, true));
            s'.issued == [copy] + [stage] && QueueOrder(s') == [stage] + [copy]
  {
  }
}

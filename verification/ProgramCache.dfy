/**
 * The OpenGL program cache: linked programs keyed by the addresses of their two shaders. Freed
 * addresses are handed out again, so what matters is whether an entry can outlive its shaders.
 */
module ProgramCache {
  import opened Wrappers

  type Address = nat

  datatype Kind = Vertex | Pixel

  /** `serial` tells apart shaders that live at the same address one after the other. */
  datatype Shader = Shader(kind: Kind, numParams: nat, serial: nat)

  /** A pointer into a shader's parameter array. */
  datatype ParamRef = ParamRef(owner: Address, index: nat)

  /** A program: its key, the parameters it updates, and which shaders it was really linked from. */
  datatype Entry = Entry(vs: Address, ps: Address, params: seq<ParamRef>, vsSerial: nat, psSerial: nat)

  /**
   * `memory` maps every address ever used to the shader last placed there, freed or not; `live`
   * are the addresses not freed. `current` is the program in use.
   */
  datatype State = State(
    entries: seq<Entry>, current: Option<Entry>, curVertex: Option<Address>, curPixel: Option<Address>,
    memory: map<Address, Shader>, live: set<Address>, nextSerial: nat)

  /** The driver's answers while linking: overall success, which uniforms exist, which queries fail. */
  datatype Link = Link(linked: bool, located: set<ParamRef>, failing: set<ParamRef>)

  datatype Op =
    | CreateShader(at: Address, kind: Kind, numParams: nat)
    | DestroyShader(at: Address)
    | LoadVertexShader(shader: Option<Address>)
    | LoadPixelShader(shader: Option<Address>)
    | Draw(ready: bool, link: Link)

  // ----- The list of programs

  function Find(es: seq<Entry>, vs: Address, ps: Address): Option<Entry> {
    if es == [] then None
    else if es[0].vs == vs && es[0].ps == ps then Some(es[0])
    else Find(es[1..], vs, ps)
  }

  predicate Uses(e: Entry, at: Address, kind: Kind) {
    match kind case Vertex => e.vs == at case Pixel => e.ps == at
  }

  function Without(es: seq<Entry>, at: Address, kind: Kind): seq<Entry> {
    if es == [] then []
    else if Uses(es[0], at, kind) then Without(es[1..], at, kind)
    else [es[0]] + Without(es[1..], at, kind)
  }

  /** Pointers to those parameters of one shader, from the `i`-th on, that the program uses. */
  function Located(at: Address, i: nat, n: nat, located: set<ParamRef>): seq<ParamRef>
    decreases n - i
  {
    if i >= n then []
    else (if ParamRef(at, i) in located then [ParamRef(at, i)] else []) + Located(at, i + 1, n, located)
  }

  predicate AllAnswered(at: Address, n: nat, failing: set<ParamRef>) {
    forall i :: 0 <= i < n ==> ParamRef(at, i) !in failing
  }

  // ----- Steps

  /** Linking the current shaders: reads whatever memory their addresses now hold. */
  function Linked(s: State, link: Link): Option<Entry>
    requires Loaded(s)
  {
    var v, p := s.memory[s.curVertex.value], s.memory[s.curPixel.value];
    if link.linked && AllAnswered(s.curVertex.value, v.numParams, link.failing)
                   && AllAnswered(s.curPixel.value, p.numParams, link.failing)
    then Some(Entry(s.curVertex.value, s.curPixel.value,
                    Located(s.curVertex.value, 0, v.numParams, link.located)
                    + Located(s.curPixel.value, 0, p.numParams, link.located),
                    v.serial, p.serial))
    else None
  }

  predicate Loaded(s: State) {
    s.curVertex.Some? && s.curPixel.Some? && s.curVertex.value in s.memory && s.curPixel.value in s.memory
  }

  function Drawn(s: State, link: Link): State
    requires Loaded(s)
  {
    var found := Find(s.entries, s.curVertex.value, s.curPixel.value);
    if found.Some? then s.(current := found)
    else
      var made := Linked(s, link);
      if made.Some? then s.(entries := [made.value] + s.entries, current := made) else s
  }

  predicate Allowed(s: State, op: Op) {
    match op
    case CreateShader(at, _, _) => at !in s.live
    case DestroyShader(at) => at in s.live
    case LoadVertexShader(shader) => shader.Some? ==> shader.value in s.live
    case LoadPixelShader(shader) => shader.Some? ==> shader.value in s.live
    case Draw(_, _) => true
  }

  function Next(s: State, op: Op): State
    requires Allowed(s, op) && Basic(s)
  {
    match op
    case CreateShader(at, kind, numParams) =>
      s.(memory := s.memory[at := Shader(kind, numParams, s.nextSerial)], live := s.live + {at},
         nextSerial := s.nextSerial + 1)
    case DestroyShader(at) =>
      var kind := s.memory[at].kind;
      s.(entries := Without(s.entries, at, kind), live := s.live - {at},
         current := if s.current.Some? && Uses(s.current.value, at, kind) then None else s.current)
    case LoadVertexShader(shader) =>
      if s.curVertex == shader || (shader.Some? && s.memory[shader.value].kind != Vertex) then s
      else s.(curVertex := shader)
    case LoadPixelShader(shader) =>
      if s.curPixel == shader || (shader.Some? && s.memory[shader.value].kind != Pixel) then s
      else s.(curPixel := shader)
    case Draw(ready, link) =>
      if ready && s.curVertex.Some? && s.curPixel.Some? then Drawn(s, link) else s
  }

  /** Addresses in use have been handed out at some time. */
  predicate Basic(s: State) {
    && s.live <= s.memory.Keys
    && (s.curVertex.Some? ==> s.curVertex.value in s.memory)
    && (s.curPixel.Some? ==> s.curPixel.value in s.memory)
  }

  // ----- The invariant

  predicate UniqueKeys(es: seq<Entry>) {
    forall i, j :: 0 <= i < j < |es| ==> es[i].vs != es[j].vs || es[i].ps != es[j].ps
  }

  predicate IsLive(s: State, at: Address, kind: Kind) {
    at in s.live && at in s.memory && s.memory[at].kind == kind
  }

  /** Both shaders are alive, are the ones the program was linked from, and own every stored parameter. */
  predicate Sound(s: State, e: Entry) {
    && IsLive(s, e.vs, Vertex) && s.memory[e.vs].serial == e.vsSerial
    && IsLive(s, e.ps, Pixel) && s.memory[e.ps].serial == e.psSerial
    && forall i :: 0 <= i < |e.params| ==> Owned(s, e, e.params[i])
  }

  predicate Owned(s: State, e: Entry, r: ParamRef) {
    (r.owner == e.vs || r.owner == e.ps) && r.owner in s.memory && r.index < s.memory[r.owner].numParams
  }

  predicate Inv(s: State) {
    && Basic(s)
    && UniqueKeys(s.entries)
    && (forall i :: 0 <= i < |s.entries| ==> Sound(s, s.entries[i]))
    && (s.current.Some? ==> s.current.value in s.entries)
  }

  // ----- Facts about the list

  lemma {:induction false} FindIsLookup(es: seq<Entry>, vs: Address, ps: Address)
    ensures Find(es, vs, ps).Some? <==> exists i :: 0 <= i < |es| && es[i].vs == vs && es[i].ps == ps
    ensures Find(es, vs, ps).Some? ==>
              var e := Find(es, vs, ps).value; e in es && e.vs == vs && e.ps == ps
  {
    if es != [] {
      FindIsLookup(es[1..], vs, ps);
      assert forall i :: 1 <= i < |es| ==> es[i] == es[1..][i - 1];
    }
  }

  /** The list as a map from shader pairs to programs. */
  function Cache(es: seq<Entry>): (m: map<(Address, Address), Entry>)
  {
    if es == [] then map[] else Cache(es[1..])[(es[0].vs, es[0].ps) := es[0]]
  }

  lemma {:induction false} FindIsCache(es: seq<Entry>, vs: Address, ps: Address)
    ensures Find(es, vs, ps).Some? <==> (vs, ps) in Cache(es)
    ensures (vs, ps) in Cache(es) ==> Find(es, vs, ps) == Some(Cache(es)[(vs, ps)])
  {
    if es != [] { FindIsCache(es[1..], vs, ps); }
  }

  /** No program is hidden behind another: the map has as many keys as the list has programs. */
  lemma {:induction false} CacheSize(es: seq<Entry>)
    requires UniqueKeys(es)
    ensures |Cache(es)| == |es|
  {
    if es != [] {
      CacheSize(es[1..]);
      FindIsLookup(es[1..], es[0].vs, es[0].ps);
      FindIsCache(es[1..], es[0].vs, es[0].ps);
    }
  }

  /** Removal keeps exactly the programs not built from the shader ... */
  lemma {:induction false} WithoutIsExact(es: seq<Entry>, at: Address, kind: Kind, e: Entry)
    ensures e in Without(es, at, kind) <==> e in es && !Uses(e, at, kind)
  {
    if es != [] { WithoutIsExact(es[1..], at, kind, e); }
  }

  /** ... in the order they had: entry `i` of the result stood at some index, later entries further on. */
  lemma {:induction false} WithoutKeepsOrder(es: seq<Entry>, at: Address, kind: Kind, i: nat, j: nat)
      returns (i': nat, j': nat)
    requires i < j < |Without(es, at, kind)|
    ensures i' < j' < |es| && es[i'] == Without(es, at, kind)[i] && es[j'] == Without(es, at, kind)[j]
  {
    if Uses(es[0], at, kind) {
      i', j' := WithoutKeepsOrder(es[1..], at, kind, i, j);
      i', j' := i' + 1, j' + 1;
    } else if i > 0 {
      i', j' := WithoutKeepsOrder(es[1..], at, kind, i - 1, j - 1);
      i', j' := i' + 1, j' + 1;
    } else {
      assert Without(es, at, kind)[j] == Without(es[1..], at, kind)[j - 1];
      WithoutIsExact(es[1..], at, kind, Without(es, at, kind)[j]);
      j' :| 0 <= j' < |es[1..]| && es[1..][j'] == Without(es, at, kind)[j];
      i', j' := 0, j' + 1;
    }
  }

  lemma WithoutUnique(es: seq<Entry>, at: Address, kind: Kind)
    requires UniqueKeys(es)
    ensures UniqueKeys(Without(es, at, kind))
  {
    var ws := Without(es, at, kind);
    forall i, j | 0 <= i < j < |ws| ensures ws[i].vs != ws[j].vs || ws[i].ps != ws[j].ps {
      var i', j' := WithoutKeepsOrder(es, at, kind, i, j);
    }
  }

  lemma {:induction false} LocatedOwned(at: Address, i: nat, n: nat, located: set<ParamRef>, k: nat)
    requires k < |Located(at, i, n, located)|
    ensures var r := Located(at, i, n, located)[k]; r.owner == at && r.index < n && r in located
    decreases n - i
  {
    var here := if ParamRef(at, i) in located then 1 else 0;
    if k >= here { LocatedOwned(at, i + 1, n, located, k - here); }
  }

  // ----- What every step keeps

  /** A draw that links a program does so from live shaders of the right kinds. */
  predicate Safe(s: State, op: Op)
    requires Basic(s)
  {
    op.Draw? && op.ready && Loaded(s)
    && Find(s.entries, s.curVertex.value, s.curPixel.value).None? && Linked(s, op.link).Some?
    ==> IsLive(s, s.curVertex.value, Vertex) && IsLive(s, s.curPixel.value, Pixel)
  }

  lemma DestroyKeepsInv(s: State, at: Address)
    requires Inv(s) && at in s.live
    ensures Inv(Next(s, DestroyShader(at)))
  {
    var s' := Next(s, DestroyShader(at));
    var kind := s.memory[at].kind;
    WithoutUnique(s.entries, at, kind);
    forall i | 0 <= i < |s'.entries| ensures Sound(s', s'.entries[i]) {
      var e := s'.entries[i];
      WithoutIsExact(s.entries, at, kind, e);
      assert Sound(s, e);
      assert forall k :: 0 <= k < |e.params| ==> Owned(s, e, e.params[k]);
    }
    if s'.current.Some? { WithoutIsExact(s.entries, at, kind, s.current.value); }
  }

  lemma CreateKeepsInv(s: State, at: Address, kind: Kind, numParams: nat)
    requires Inv(s) && at !in s.live
    ensures Inv(Next(s, CreateShader(at, kind, numParams)))
  {
    var s' := Next(s, CreateShader(at, kind, numParams));
    forall i | 0 <= i < |s.entries| ensures Sound(s', s.entries[i]) {
      var e := s.entries[i];
      assert Sound(s, e);
      assert forall k :: 0 <= k < |e.params| ==> Owned(s, e, e.params[k]);
    }
  }

  lemma LinkedSound(s: State, link: Link)
    requires Basic(s) && Loaded(s) && Linked(s, link).Some?
    ensures Sound(s, Linked(s, link).value)
            <==> IsLive(s, s.curVertex.value, Vertex) && IsLive(s, s.curPixel.value, Pixel)
  {
    var e := Linked(s, link).value;
    var n, m := s.memory[e.vs].numParams, s.memory[e.ps].numParams;
    var vps, pps := Located(e.vs, 0, n, link.located), Located(e.ps, 0, m, link.located);
    forall i | 0 <= i < |e.params| ensures Owned(s, e, e.params[i]) {
      if i < |vps| {
        LocatedOwned(e.vs, 0, n, link.located, i);
      } else {
        LocatedOwned(e.ps, 0, m, link.located, i - |vps|);
      }
    }
  }

  lemma DrawKeepsInv(s: State, link: Link)
    requires Inv(s) && Loaded(s)
    ensures Inv(Drawn(s, link)) <==> Safe(s, Draw(true, link))
  {
    var vs, ps := s.curVertex.value, s.curPixel.value;
    FindIsLookup(s.entries, vs, ps);
    var made := Linked(s, link);
    if Find(s.entries, vs, ps).None? && made.Some? {
      var s' := Drawn(s, link);
      LinkedSound(s, link);
      assert s'.entries[0] == made.value && forall i :: 1 <= i < |s'.entries| ==> s'.entries[i] == s.entries[i - 1];
      assert Sound(s', made.value) <==> Sound(s, made.value) by { SameShaders(s, s', made.value); }
      forall i | 1 <= i < |s'.entries| ensures Sound(s', s'.entries[i]) {
        assert Sound(s, s.entries[i - 1]);
        SameShaders(s, s', s'.entries[i]);
      }
      assert UniqueKeys(s'.entries);
    }
  }

  lemma SameShaders(s: State, s': State, e: Entry)
    requires s'.memory == s.memory && s'.live == s.live
    ensures Sound(s', e) <==> Sound(s, e)
  {
    assert forall i :: 0 <= i < |e.params| ==> (Owned(s', e, e.params[i]) <==> Owned(s, e, e.params[i]));
  }

  /** Every step keeps the invariant, except exactly the draws that link a dead or mistyped shader. */
  lemma NextKeepsInv(s: State, op: Op)
    requires Inv(s) && Allowed(s, op)
    ensures Inv(Next(s, op)) <==> Safe(s, op)
  {
    match op
    case CreateShader(at, kind, numParams) => CreateKeepsInv(s, at, kind, numParams);
    case DestroyShader(at) => DestroyKeepsInv(s, at);
    case LoadVertexShader(_) =>
      assert forall i :: 0 <= i < |s.entries| ==> (Sound(Next(s, op), s.entries[i]) <==> Sound(s, s.entries[i])) by {
        forall i | 0 <= i < |s.entries| ensures Sound(Next(s, op), s.entries[i]) <==> Sound(s, s.entries[i]) {
          SameShaders(s, Next(s, op), s.entries[i]);
        }
      }
    case LoadPixelShader(_) =>
      assert forall i :: 0 <= i < |s.entries| ==> (Sound(Next(s, op), s.entries[i]) <==> Sound(s, s.entries[i])) by {
        forall i | 0 <= i < |s.entries| ensures Sound(Next(s, op), s.entries[i]) <==> Sound(s, s.entries[i]) {
          SameShaders(s, Next(s, op), s.entries[i]);
        }
      }
    case Draw(ready, link) => if ready && Loaded(s) { DrawKeepsInv(s, link); }
  }

  /** A hit in a sound cache is a program linked from the very shaders that are current. */
  lemma HitIsNotStale(s: State)
    requires Inv(s) && Loaded(s) && Find(s.entries, s.curVertex.value, s.curPixel.value).Some?
    ensures var e := Find(s.entries, s.curVertex.value, s.curPixel.value).value;
            && e.vsSerial == s.memory[s.curVertex.value].serial && s.curVertex.value in s.live
            && e.psSerial == s.memory[s.curPixel.value].serial && s.curPixel.value in s.live
  {
    FindIsLookup(s.entries, s.curVertex.value, s.curPixel.value);
    var e := Find(s.entries, s.curVertex.value, s.curPixel.value).value;
    var i :| 0 <= i < |s.entries| && s.entries[i] == e;
    assert Sound(s, s.entries[i]);
  }

  // ----- What every step does

  /** A listed program for the pair of shaders that is loaded. */
  predicate HasProgram(s: State, e: Entry)
    requires Loaded(s)
  {
    e in s.entries && e.vs == s.curVertex.value && e.ps == s.curPixel.value
  }

  /** The driver links the loaded pair and answers for each of their uniforms. */
  predicate Answers(s: State, link: Link)
    requires Loaded(s)
  {
    && link.linked
    && (forall i :: 0 <= i < s.memory[s.curVertex.value].numParams ==> ParamRef(s.curVertex.value, i) !in link.failing)
    && (forall i :: 0 <= i < s.memory[s.curPixel.value].numParams ==> ParamRef(s.curPixel.value, i) !in link.failing)
  }

  /** The program was linked from the two shaders that stand at the loaded addresses now. */
  predicate OfLoaded(s: State, e: Entry)
    requires Loaded(s)
  {
    && e.vs == s.curVertex.value && e.vsSerial == s.memory[e.vs].serial
    && e.ps == s.curPixel.value && e.psSerial == s.memory[e.ps].serial
  }

  /**
   * The program in use after a draw: the listed one for the loaded pair, else a new one at the front
   * of the list, else the one before. In the first two cases it is linked from the loaded shaders.
   */
  lemma {:induction false} DrawUsesLoaded(s: State, link: Link)
    requires Inv(s) && Loaded(s)
    ensures var s' := Next(s, Draw(true, link));
            && s' == s.(entries := s'.entries, current := s'.current)
            && if exists e :: HasProgram(s, e)
               then s'.entries == s.entries && s'.current.Some? && HasProgram(s, s'.current.value) && OfLoaded(s, s'.current.value)
               else if Answers(s, link)
               then s'.current.Some? && s'.entries == [s'.current.value] + s.entries && OfLoaded(s, s'.current.value)
               else s' == s
  {
    hide Sound;
    var vs, ps := s.curVertex.value, s.curPixel.value;
    FindIsLookup(s.entries, vs, ps);
    if e :| HasProgram(s, e) {
      var i :| 0 <= i < |s.entries| && s.entries[i] == e;
      HitIsNotStale(s);
      assert HasProgram(s, Find(s.entries, vs, ps).value);
    } else {
      assert forall i :: 0 <= i < |s.entries| ==> !HasProgram(s, s.entries[i]);
    }
  }

  /** The uniforms a new program updates: exactly the located ones of its two shaders. */
  lemma {:induction false} LinkedUniforms(s: State, link: Link, r: ParamRef)
    requires Loaded(s) && Linked(s, link).Some?
    ensures r in Linked(s, link).value.params <==>
            r in link.located
            && ((r.owner == s.curVertex.value && r.index < s.memory[r.owner].numParams)
                || (r.owner == s.curPixel.value && r.index < s.memory[r.owner].numParams))
  {
    var v, p := s.curVertex.value, s.curPixel.value;
    LocatedIff(v, 0, s.memory[v].numParams, link.located, r);
    LocatedIff(p, 0, s.memory[p].numParams, link.located, r);
  }

  lemma {:induction false} LocatedIff(at: Address, i: nat, n: nat, located: set<ParamRef>, r: ParamRef)
    ensures r in Located(at, i, n, located) <==> r in located && r.owner == at && i <= r.index < n
    decreases n - i
  {
    if i < n { LocatedIff(at, i + 1, n, located, r); }
  }

  /** ... each once, in the order of the shader's parameters. */
  lemma {:induction false} LocatedAscending(at: Address, i: nat, n: nat, located: set<ParamRef>, j: nat, k: nat)
    requires j < k < |Located(at, i, n, located)|
    ensures Located(at, i, n, located)[j].index < Located(at, i, n, located)[k].index
    decreases n - i
  {
    var here := if ParamRef(at, i) in located then 1 else 0;
    var rest := Located(at, i + 1, n, located);
    if j >= here {
      LocatedAscending(at, i + 1, n, located, j - here, k - here);
    } else {
      LocatedIff(at, i + 1, n, located, rest[k - 1]);
    }
  }

  /** Loading takes a shader of the right kind, or none, and refuses one of the wrong kind. */
  lemma {:induction false} LoadSelects(s: State, shader: Option<Address>)
    requires Basic(s) && (shader.Some? ==> shader.value in s.live)
    ensures var kind := if shader.Some? then Some(s.memory[shader.value].kind) else None;
            && Next(s, LoadVertexShader(shader)) == s.(curVertex := if kind == Some(Pixel) then s.curVertex else shader)
            && Next(s, LoadPixelShader(shader)) == s.(curPixel := if kind == Some(Vertex) then s.curPixel else shader)
  {
  }

  /** A new shader lives at its address under a serial of its own; all else stays. */
  lemma {:induction false} CreateAllocates(s: State, at: Address, kind: Kind, n: nat)
    requires Basic(s) && at !in s.live
    ensures var s' := Next(s, CreateShader(at, kind, n));
            && s'.live == s.live + {at} && at in s'.memory && s'.memory[at] == Shader(kind, n, s.nextSerial)
            && s.nextSerial < s'.nextSerial && (forall a :: a in s.memory && a != at ==> a in s'.memory && s'.memory[a] == s.memory[a])
            && s' == s.(memory := s'.memory, live := s'.live, nextSerial := s'.nextSerial)
  {
  }

  /** Destroying a shader drops exactly its programs, the one in use only if it is among them. */
  lemma {:induction false} DestroyDrops(s: State, at: Address, e: Entry)
    requires Inv(s) && at in s.live
    ensures var s', mine := Next(s, DestroyShader(at)), if s.memory[at].kind == Vertex then e.vs == at else e.ps == at;
            && s'.live == s.live - {at} && s' == s.(entries := s'.entries, current := s'.current, live := s'.live)
            && (e in s'.entries <==> e in s.entries && !mine)
            && (s'.current == Some(e) <==> s.current == Some(e) && !mine)
  {
    WithoutIsExact(s.entries, at, s.memory[at].kind, e);
  }

  // ----- Whole runs

  /** Callers destroy a shader only while it is not loaded. */
  predicate Disciplined(s: State, op: Op) {
    op.DestroyShader? ==> s.curVertex != Some(op.at) && s.curPixel != Some(op.at)
  }

  predicate CurrentLive(s: State) {
    && (s.curVertex.Some? ==> IsLive(s, s.curVertex.value, Vertex))
    && (s.curPixel.Some? ==> IsLive(s, s.curPixel.value, Pixel))
  }

  predicate DisciplinedRun(s: State, ops: seq<Op>)
    requires Basic(s)
    decreases |ops|
  {
    ops == [] ||
    (Allowed(s, ops[0]) && Disciplined(s, ops[0]) && Basic(Next(s, ops[0]))
     && DisciplinedRun(Next(s, ops[0]), ops[1..]))
  }

  function Run(s: State, ops: seq<Op>): State
    requires Basic(s) && DisciplinedRun(s, ops)
    decreases |ops|
  {
    if ops == [] then s else Run(Next(s, ops[0]), ops[1..])
  }

  lemma DisciplineIsEnough(s: State, op: Op)
    requires Inv(s) && CurrentLive(s) && Allowed(s, op) && Disciplined(s, op)
    ensures Inv(Next(s, op)) && CurrentLive(Next(s, op))
  {
    NextKeepsInv(s, op);
  }

  /** Under that discipline the cache is sound in every reachable state, whatever addresses are reused. */
  lemma {:induction false} RunKeepsInv(s: State, ops: seq<Op>)
    requires Inv(s) && CurrentLive(s) && DisciplinedRun(s, ops)
    ensures Inv(Run(s, ops)) && CurrentLive(Run(s, ops))
    decreases |ops|
  {
    if ops != [] {
      DisciplineIsEnough(s, ops[0]);
      RunKeepsInv(Next(s, ops[0]), ops[1..]);
    }
  }

  /** Every draw of such a run that gets a program uses one linked from the shaders loaded at that moment. */
  lemma {:induction false} EveryDrawUsesLoaded(s: State, ops: seq<Op>, link: Link)
    requires Inv(s) && CurrentLive(s) && DisciplinedRun(s, ops) && Loaded(Run(s, ops))
    ensures var t := Run(s, ops);
            && Inv(t)
            && var t' := Next(t, Draw(true, link));
            && ((exists e :: HasProgram(t, e)) || Answers(t, link) ==>
                  t'.current.Some? && OfLoaded(t, t'.current.value) && t'.current.value in t'.entries)
            && (!((exists e :: HasProgram(t, e)) || Answers(t, link)) ==> t' == t)
  {
    RunKeepsInv(s, ops);
    DrawUsesLoaded(Run(s, ops), link);
  }

  /**
   * Without it: destroy the loaded vertex shader, draw, and let a new vertex shader take the
   * address. Loading it hits the program linked from the dead one. The driver freed the deleted
   * shader object's name, so the draw links only if that name was handed out again before.
   */
  lemma StaleHit(s: State, v: Address, n: nat, link: Link)
    requires Inv(s) && CurrentLive(s) && s.curVertex == Some(v) && s.curPixel.Some?
    requires s.memory[v].serial < s.nextSerial && Linked(s, link).Some?
    ensures var s1 := Next(s, DestroyShader(v));
            Inv(s1) &&
            var s2 := Next(s1, Draw(true, link));
            Basic(s2) && !Inv(s2) &&
            var s3 := Next(s2, CreateShader(v, Vertex, n));
            var hit := Find(s3.entries, v, s3.curPixel.value);
            hit.Some? && hit.value.vsSerial != s3.memory[v].serial
  {
    var s1 := Next(s, DestroyShader(v));
    DestroyKeepsInv(s, v);
    var p := s.curPixel.value;
    FindIsLookup(s1.entries, v, p);
    if s1.entries != [] {
      forall i | 0 <= i < |s1.entries| ensures s1.entries[i].vs != v {
        WithoutIsExact(s.entries, v, Vertex, s1.entries[i]);
      }
    }
    NextKeepsInv(s1, Draw(true, link));
  }
}

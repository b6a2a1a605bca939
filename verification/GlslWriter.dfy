/**
 * The token rewriter that turns shader function bodies into GLSL.
 *
 * The functions below say what the writer emits and where it stops; class `Writer` is the
 * imperative form, with the one cursor that all nested handlers overwrite. The emitted text
 * is kept as a sequence of tokens: a literal such as ") * (" stands for its five tokens.
 */
module GlslWriter {
  import opened Wrappers
  import opened ShaderTokens

  /** The uniform types the writer tells apart: names starting with "texture", and "texture3d". */
  datatype ParamType = Texture3D | OtherTexture | NotTexture

  datatype Param = Param(name: Word, ty: ParamType)

  /** Global declarations the writer consults. */
  datatype Env = Env(params: seq<Param>, samplers: seq<Word>)

  /** Writer state: the text so far, the sincos counter and the sampler bound to each texture. */
  datatype State = State(text: seq<Token>, counter: nat, samplerOf: map<Word, nat>) {
    function Emit(ts: seq<Token>): State { this.(text := text + ts) }
  }

  datatype Ctx = Ctx(env: Env, toks: seq<Token>)

  /** Position of the last token consumed, and the state there. */
  datatype Out = Out(pos: nat, st: State)

  /** Outcome of a handler that may decline; a declining handler may already have emitted text. */
  datatype Tried = Tried(written: bool, out: Out)

  function FindParam(params: seq<Param>, name: Word): (p: Option<Param>)
    ensures p.Some? ==> p.value.name == name && exists i :: 0 <= i < |params| && params[i] == p.value && NotNamed(params[..i], name)
    ensures p.None? ==> NotNamed(params, name)
  {
    if params == [] then None
    else if params[0].name == name then Some(params[0])
    else
      var p := FindParam(params[1..], name);
      assert p.Some? ==> exists i :: 1 <= i < |params| && params[i] == p.value && NotNamed(params[..i], name) by {
        if p.Some? {
          var i :| 0 <= i < |params| - 1 && params[1..][i] == p.value && NotNamed(params[1..][..i], name);
          assert params[..i + 1] == [params[0]] + params[1..][..i];
          assert params[i + 1] == p.value;
        }
      }
      p
  }

  predicate NotNamed(params: seq<Param>, name: Word) { forall i :: 0 <= i < |params| ==> params[i].name != name }

  /** Type of the first uniform of that name. */
  function TextureType(env: Env, name: Word): ParamType {
    var p := FindParam(env.params, name);
    if p.Some? then p.value.ty else NotTexture
  }

  predicate IsTexture(env: Env, name: Word) { TextureType(env, name) != NotTexture }

  function FindSampler(samplers: seq<Word>, name: Word): (r: Option<nat>)
    ensures r.Some? ==> r.value < |samplers| && samplers[r.value] == name && name !in samplers[..r.value]
    ensures r.None? ==> name !in samplers
  {
    if samplers == [] then None
    else if samplers[0] == name then Some(0)
    else
      var r := FindSampler(samplers[1..], name);
      assert r.Some? ==> samplers[..r.value + 1] == [samplers[0]] + samplers[1..][..r.value];
      if r.Some? then Some(r.value + 1) else None
  }

  /** Type names and their GLSL spelling. */
  const TYPE_NAMES: seq<(string, string)> := [
    ("float2", "vec2"), ("float3", "vec3"), ("float4", "vec4"), ("int2", "ivec2"), ("int3", "ivec3"),
    ("int4", "ivec4"), ("uint2", "uvec2"), ("uint3", "uvec3"), ("uint4", "uvec4"), ("float3x3", "mat3x3"),
    ("float3x4", "mat3x4"), ("float4x4", "mat4x4"), ("texture2d", "sampler2D"), ("texture3d", "sampler3D"),
    ("texture_cube", "samplerCube"), ("texture_rect", "sampler2DRect")
  ]

  function Lookup(table: seq<(string, string)>, s: string): Option<string> {
    if table == [] then None
    else if table[0].0 == s then Some(table[0].1)
    else Lookup(table[1..], s)
  }

  function TypeName(w: Word): (r: Option<string>)
    ensures r.Some? ==> w.Spelled?
  {
    if w.Spelled? then Lookup(TYPE_NAMES, w.text) else None
  }

  /** Names with a handler of their own. */
  predicate IsHandled(w: Word) { w == MulName || w == MadName || w == SaturateName || w == SinCosName }

  /** Intrinsics that only change their name. */
  function Renamed(w: Word): (r: Option<Word>)
    ensures r.Some? ==> TypeName(w).None? && !IsHandled(w)
  {
    match w
    case Atan2Name => Some(Spelled("atan"))
    case DdxName => Some(Spelled("dFdx"))
    case DdyName => Some(Spelled("dFdy"))
    case FmodName => Some(ModName)
    case FracName => Some(Spelled("fract"))
    case LerpName => Some(MixName)
    case RsqrtName => Some(Spelled("inversesqrt"))
    case _ => None
  }

  /** GLSL function that stands for a texture method; `Load` depends on the texture's type. */
  function SampleCall(texMethod: Word, ty: ParamType): Option<string> {
    match texMethod
    case SampleName => Some("texture")
    case SampleBiasName => Some("texture")
    case SampleGradName => Some("textureGrad")
    case SampleLevelName => Some("textureLod")
    case LoadName => Some(if ty == Texture3D then "obs_load_3d" else "obs_load_2d")
    case _ => None
  }

  const TimesParen: seq<Token> := [Punct(RParen), Blank, Punct(Star), Blank, Punct(LParen)]
  const PlusParen: seq<Token> := [Punct(RParen), Blank, Punct(Plus), Blank, Punct(LParen)]
  const CloseClose: seq<Token> := [Punct(RParen), Punct(RParen)]
  const ClampTail: seq<Token> :=
    [Punct(Comma), Blank, Token(Num, Spelled("0.0")), Punct(Comma), Blank, Token(Num, Spelled("1.0")), Punct(RParen)]

  function SinCosHead(n: nat): seq<Token> {
    [Ident(Spelled("float")), Blank, Ident(SinCosVar(n)), Blank, Punct(Equals), Blank]
  }

  function SinCosAssign(f: string, n: nat): seq<Token> {
    [Blank, Punct(Equals), Blank, Ident(Spelled(f)), Punct(LParen), Ident(SinCosVar(n)), Punct(RParen)]
  }

  const StatementBreak: seq<Token> := [Punct(Semicolon), Blank]

  function SampleHead(call: string, tex: Word): seq<Token> {
    [Ident(Spelled(call)), Punct(LParen), Ident(tex), Punct(Comma), Blank]
  }

  /** A token's own text; the sentinel has none. */
  function Raw(t: Token): seq<Token> { if t.kind == End then [] else [t] }

  /** Writes from token `i` until a token spelled `end`; the token at `i` opens no group. */
  function Contents(c: Ctx, i: nat, end: Word, st: State): (o: Out)
    requires Stream(c.toks) && i < |c.toks|
    ensures i <= o.pos < |c.toks|
    decreases |c.toks| - i, 3
  {
    var first := if c.toks[i].kind == Name then NameStep(c, i, st) else Out(i, st.Emit(Raw(c.toks[i])));
    Loop(c, first.pos, end, first.st)
  }

  /** The rest of the writer loop once the token at `i` has been dealt with. */
  function Loop(c: Ctx, i: nat, end: Word, st: State): (o: Out)
    requires Stream(c.toks) && i < |c.toks|
    ensures i <= o.pos < |c.toks|
    decreases |c.toks| - i, 2
  {
    if c.toks[i].kind == End then Out(i, st)
    else if c.toks[i + 1].word == end then Out(i + 1, st)
    else
      var step := Step(c, i + 1, st);
      Loop(c, step.pos, end, step.st)
  }

  /** One turn of the loop on the token at `i`. */
  function Step(c: Ctx, i: nat, st: State): (o: Out)
    requires Stream(c.toks) && i < |c.toks|
    ensures i <= o.pos < |c.toks|
    decreases |c.toks| - i, 4
  {
    var t := c.toks[i];
    if t.kind == Name then NameStep(c, i, st)
    else if t == Punct(LBrace) then
      var o := Contents(c, i, RBrace, st); Out(o.pos, o.st.Emit(Raw(c.toks[o.pos])))
    else if t == Punct(LParen) then
      var o := Contents(c, i, RParen, st); Out(o.pos, o.st.Emit(Raw(c.toks[o.pos])))
    else Out(i, st.Emit(Raw(t)))
  }

  /** A name: a type, else an intrinsic, else itself. */
  function NameStep(c: Ctx, i: nat, st: State): (o: Out)
    requires Stream(c.toks) && i < |c.toks| && c.toks[i].kind == Name
    ensures i <= o.pos < |c.toks|
    decreases |c.toks| - i, 2
  {
    var t := c.toks[i];
    if TypeName(t.word).Some? then Out(i, st.Emit([Ident(Spelled(TypeName(t.word).value))]))
    else
      var r := Intrinsic(c, i, st);
      if r.written then r.out else Out(i, r.out.st.Emit([t]))
  }

  function Intrinsic(c: Ctx, i: nat, st: State): (r: Tried)
    requires Stream(c.toks) && i < |c.toks| && c.toks[i].kind == Name
    ensures i <= r.out.pos < |c.toks|
    decreases |c.toks| - i, 1
  {
    var s := c.toks[i].word;
    if Renamed(s).Some? then Tried(true, Out(i, st.Emit([Ident(Renamed(s).value)])))
    else if s == MadName then Mad(c, i, st)
    else if s == MulName then Mul(c, i, st)
    else if s == SaturateName then Saturate(c, i, st)
    else if s == SinCosName then SinCos(c, i, st)
    else if IsTexture(c.env, s) then TextureCode(c, i, st)
    else Tried(false, Out(i, st))
  }

  predicate OpensCall(c: Ctx, i: nat)
    requires Stream(c.toks) && i < |c.toks|
  {
    c.toks[NextPos(c.toks, i)].word == LParen
  }

  function Mad(c: Ctx, i: nat, st: State): (r: Tried)
    requires Stream(c.toks) && i < |c.toks| && c.toks[i].kind == Name
    ensures i <= r.out.pos < |c.toks|
    decreases |c.toks| - i, 0
  {
    if !OpensCall(c, i) then Tried(false, Out(i, st))
    else
      var x := Contents(c, NextPos(c.toks, i), Comma, st.Emit([Punct(LParen)]));
      var y := Contents(c, NextPos(c.toks, x.pos), Comma, x.st.Emit(TimesParen));
      var z := Contents(c, NextPos(c.toks, y.pos), RParen, y.st.Emit(PlusParen));
      Tried(true, Out(z.pos, z.st.Emit(CloseClose)))
  }

  function Mul(c: Ctx, i: nat, st: State): (r: Tried)
    requires Stream(c.toks) && i < |c.toks| && c.toks[i].kind == Name
    ensures i <= r.out.pos < |c.toks|
    decreases |c.toks| - i, 0
  {
    if !OpensCall(c, i) then Tried(false, Out(i, st))
    else
      var x := Contents(c, NextPos(c.toks, i), Comma, st.Emit([Punct(LParen)]));
      var y := Contents(c, NextPos(c.toks, x.pos), RParen, x.st.Emit(TimesParen));
      Tried(true, Out(y.pos, y.st.Emit(CloseClose)))
  }

  function Saturate(c: Ctx, i: nat, st: State): (r: Tried)
    requires Stream(c.toks) && i < |c.toks| && c.toks[i].kind == Name
    ensures i <= r.out.pos < |c.toks|
    decreases |c.toks| - i, 0
  {
    if !OpensCall(c, i) then Tried(false, Out(i, st))
    else
      var x := Contents(c, NextPos(c.toks, i), RParen, st.Emit([Ident(ClampName)]));
      Tried(true, Out(x.pos, x.st.Emit(ClampTail)))
  }

  /** Declines half-way, keeping the text already emitted, when the tokens run out. */
  function SinCos(c: Ctx, i: nat, st: State): (r: Tried)
    requires Stream(c.toks) && i < |c.toks| && c.toks[i].kind == Name
    ensures i <= r.out.pos < |c.toks|
    decreases |c.toks| - i, 0
  {
    if !OpensCall(c, i) then Tried(false, Out(i, st))
    else
      var n := st.counter;
      var x := Contents(c, NextPos(c.toks, i), Comma, st.(counter := n + 1).Emit(SinCosHead(n)));
      SinCosTargets(c, x.pos, n, x.st.Emit([Punct(RParen)] + StatementBreak))
  }

  /** The two assignments of a sincos whose angle ended at `i`. */
  function SinCosTargets(c: Ctx, i: nat, n: nat, st: State): (r: Tried)
    requires Stream(c.toks) && i < |c.toks|
    ensures i <= r.out.pos < |c.toks|
    decreases |c.toks| - i, 4
  {
    var p := NextPos(c.toks, i);
    if c.toks[p].kind == End then Tried(false, Out(p, st))
    else
      var y := Contents(c, p, Comma, st);
      var st2 := y.st.Emit(SinCosAssign("sin", n) + StatementBreak);
      var q := NextPos(c.toks, y.pos);
      if c.toks[q].kind == End then Tried(false, Out(q, st2))
      else
        var z := Contents(c, q, RParen, st2);
        Tried(true, Out(z.pos, z.st.Emit(SinCosAssign("cos", n))))
  }

  /**
   * Position of the first coordinate token of `tex.Method(sampler, ...)` or `tex.Load(...)`,
   * when the tokens from `i` have that shape, with the call to emit and the sampler named.
   */
  function TextureShape(c: Ctx, i: nat): (r: Option<(string, Option<nat>, nat)>)
    requires Stream(c.toks) && i < |c.toks| && c.toks[i].kind == Name && IsTexture(c.env, c.toks[i].word)
    ensures r.Some? ==> i < r.value.2 < |c.toks|
  {
    var dot := NextPos(c.toks, i);
    if c.toks[dot].word != Dot then None
    else
      var m := NextPos(c.toks, dot);
      var call := SampleCall(c.toks[m].word, TextureType(c.env, c.toks[i].word));
      if call.None? then None
      else
        var open := NextPos(c.toks, m);
        if c.toks[open].word != LParen then None
        else if c.toks[m].word == LoadName then Some((call.value, None, NextPos(c.toks, open)))
        else
          var s := NextPos(c.toks, open);
          var comma := NextPos(c.toks, s);
          var id := FindSampler(c.env.samplers, c.toks[s].word);
          if c.toks[s].kind == End || id.None? || c.toks[comma].word != Comma then None
          else Some((call.value, Some(id.value), NextPos(c.toks, comma)))
  }

  function BindSampler(st: State, tex: Word, id: Option<nat>): State {
    if id.Some? then st.(samplerOf := st.samplerOf[tex := id.value]) else st
  }

  function TextureCode(c: Ctx, i: nat, st: State): (r: Tried)
    requires Stream(c.toks) && i < |c.toks| && c.toks[i].kind == Name && IsTexture(c.env, c.toks[i].word)
    ensures i <= r.out.pos < |c.toks|
    decreases |c.toks| - i, 0
  {
    var tex := c.toks[i].word;
    var shape := TextureShape(c, i);
    if shape.None? then Tried(false, Out(i, st))
    else
      var (call, id, p) := shape.value;
      var st' := BindSampler(st, tex, id).Emit(SampleHead(call, tex));
      if c.toks[p].kind == End then Tried(false, Out(i, st'))
      else
        var x := Contents(c, p, RParen, st');
        Tried(true, Out(x.pos, x.st.Emit([Punct(RParen)])))
  }

  lemma ContentsUnfold(c: Ctx, i: nat, end: Word, st: State)
    requires Stream(c.toks) && i < |c.toks|
    ensures c.toks[i].kind == Name ==>
              var o := NameStep(c, i, st); Contents(c, i, end, st) == Loop(c, o.pos, end, o.st)
    ensures c.toks[i].kind != Name ==> Contents(c, i, end, st) == Loop(c, i, end, st.Emit(Raw(c.toks[i])))
  {
    hide NameStep, Loop, Stream;
  }

  lemma LoopUnfold(c: Ctx, i: nat, end: Word, st: State)
    requires Stream(c.toks) && i < |c.toks|
    ensures c.toks[i].kind == End ==> Loop(c, i, end, st) == Out(i, st)
    ensures c.toks[i].kind != End ==> i + 1 < |c.toks|
    ensures c.toks[i].kind != End && c.toks[i + 1].word == end ==> Loop(c, i, end, st) == Out(i + 1, st)
    ensures c.toks[i].kind != End && c.toks[i + 1].word != end ==>
              var o := Step(c, i + 1, st); Loop(c, i, end, st) == Loop(c, o.pos, end, o.st)
  {
    hide Step;
  }

  lemma {:induction false} EndHasNoText(toks: seq<Token>, i: nat)
    requires Stream(toks) && i < |toks|
    ensures toks[i].kind == End <==> toks[i].word == Nothing
  {
  }

  /** The parser state that all handlers share, including the one cursor. */
  class Writer {
    const env: Env
    const toks: seq<Token>
    var text: seq<Token>
    var cur: nat
    var counter: nat
    var samplerOf: map<Word, nat>

    constructor (env: Env, toks: seq<Token>)
      requires Stream(toks)
      ensures this.env == env && this.toks == toks
      ensures text == [] && cur == 0 && counter == 1 && samplerOf == map[]
    {
      this.env, this.toks := env, toks;
      text, cur, counter, samplerOf := [], 0, 1, map[];
    }

    ghost function Context(): Ctx { Ctx(env, toks) }

    /** Everything but the cursor, which nested handlers clobber. */
    ghost function St(): State
      reads this
    {
      State(text, counter, samplerOf)
    }

    method NextToken() returns (more: bool)
      requires Stream(toks) && cur < |toks|
      modifies `cur
      ensures cur == NextPos(toks, old(cur))
      ensures more == (toks[cur].kind != End)
    {
      if toks[cur].kind != Space && toks[cur].kind != Newline && toks[cur].kind != End {
        cur := cur + 1;
      }
      while toks[cur].kind == Space || toks[cur].kind == Newline
        invariant cur < |toks|
        invariant SkipWhite(toks, cur) == NextPos(toks, old(cur))
        decreases |toks| - cur
      {
        cur := cur + 1;
      }
      more := toks[cur].kind != End;
    }

    method WriteContents(start: nat, end: Word) returns (stop: nat)
      requires Stream(toks) && start < |toks|
      modifies this
      ensures Out(stop, St()) == Contents(Context(), start, end, old(St()))
      decreases |toks| - start, 3
    {
      hide Contents, Loop, Step, NameStep;
      var token := start;
      ghost var c, goal := Context(), Contents(Context(), start, end, St());
      ContentsUnfold(c, start, end, St());
      if toks[token].kind == Name {
        token := WriteName(token);
      } else {
        text := text + Raw(toks[token]);
      }
      while toks[token].kind != End
        invariant start <= token < |toks|
        invariant Loop(c, token, end, St()) == goal
        decreases |toks| - token
      {
        LoopUnfold(c, token, end, St());
        token := token + 1;
        if toks[token].word == end {
          break;
        }
        token := WriteToken(token);
      }
      stop := token;
      LoopUnfold(c, token, end, St());
    }

    /** The body of the loop. */
    method WriteToken(token: nat) returns (stop: nat)
      requires Stream(toks) && token < |toks|
      modifies this
      ensures Out(stop, St()) == Step(Context(), token, old(St()))
      decreases |toks| - token, 4
    {
      hide Loop, NameStep, Contents;
      stop := token;
      if toks[token].kind == Name {
        stop := WriteName(token);
      } else if toks[token].kind == Other {
        if toks[token].word == LBrace {
          stop := WriteContents(token, RBrace);
        } else if toks[token].word == LParen {
          stop := WriteContents(token, RParen);
        }
        text := text + Raw(toks[stop]);
      } else {
        text := text + Raw(toks[token]);
      }
    }

    method WriteName(token: nat) returns (stop: nat)
      requires Stream(toks) && token < |toks| && toks[token].kind == Name
      modifies this
      ensures Out(stop, St()) == NameStep(Context(), token, old(St()))
      decreases |toks| - token, 2
    {
      hide Intrinsic, TypeName;
      var ty := TypeName(toks[token].word);
      if ty.Some? {
        text := text + [Ident(Spelled(ty.value))];
        stop := token;
      } else {
        var written;
        written, stop := WriteIntrinsic(token);
        if !written {
          text := text + [toks[token]];
        }
      }
    }

    method WriteIntrinsic(token: nat) returns (written: bool, stop: nat)
      requires Stream(toks) && token < |toks| && toks[token].kind == Name
      modifies this
      ensures var r := Intrinsic(Context(), token, old(St()));
              written == r.written && St() == r.out.st && stop == if written then r.out.pos else token
      decreases |toks| - token, 1
    {
      hide Mad, Mul, Saturate, SinCos, TextureCode, Renamed;
      var s := toks[token].word;
      written, stop := true, token;
      var plain := Renamed(s);
      if plain.Some? {
        text := text + [Ident(plain.value)];
      } else if s == MadName {
        written := WriteMad(token);
      } else if s == MulName {
        written := WriteMul(token);
      } else if s == SaturateName {
        written := WriteSaturate(token);
      } else if s == SinCosName {
        written := WriteSinCos(token);
      } else if IsTexture(env, s) {
        written := WriteTextureCode(token);
      } else {
        written := false;
      }
      if written && plain.None? {
        stop := cur;
      }
    }

    method WriteMad(token: nat) returns (written: bool)
      requires Stream(toks) && token < |toks| && toks[token].kind == Name
      modifies this
      ensures var r := Mad(Context(), token, old(St()));
              written == r.written && St() == r.out.st && (written ==> cur == r.out.pos)
      decreases |toks| - token, 0
    {
      hide Contents, NextPos;
      cur := token;
      var more := NextToken();
      if !more || toks[cur].word != LParen {
        return false;
      }
      text := text + [Punct(LParen)];
      cur := WriteContents(cur, Comma);
      text := text + TimesParen;
      more := NextToken();
      cur := WriteContents(cur, Comma);
      text := text + PlusParen;
      more := NextToken();
      cur := WriteContents(cur, RParen);
      text := text + CloseClose;
      written := true;
    }

    method WriteMul(token: nat) returns (written: bool)
      requires Stream(toks) && token < |toks| && toks[token].kind == Name
      modifies this
      ensures var r := Mul(Context(), token, old(St()));
              written == r.written && St() == r.out.st && (written ==> cur == r.out.pos)
      decreases |toks| - token, 0
    {
      hide Contents, NextPos;
      cur := token;
      var more := NextToken();
      if !more || toks[cur].word != LParen {
        return false;
      }
      text := text + [Punct(LParen)];
      cur := WriteContents(cur, Comma);
      text := text + TimesParen;
      more := NextToken();
      cur := WriteContents(cur, RParen);
      text := text + CloseClose;
      written := true;
    }

    method WriteSaturate(token: nat) returns (written: bool)
      requires Stream(toks) && token < |toks| && toks[token].kind == Name
      modifies this
      ensures var r := Saturate(Context(), token, old(St()));
              written == r.written && St() == r.out.st && (written ==> cur == r.out.pos)
      decreases |toks| - token, 0
    {
      hide Contents, NextPos;
      cur := token;
      var more := NextToken();
      if !more || toks[cur].word != LParen {
        return false;
      }
      text := text + [Ident(ClampName)];
      cur := WriteContents(cur, RParen);
      text := text + ClampTail;
      written := true;
    }

    method WriteSinCos(token: nat) returns (written: bool)
      requires Stream(toks) && token < |toks| && toks[token].kind == Name
      modifies this
      ensures var r := SinCos(Context(), token, old(St()));
              written == r.written && St() == r.out.st && (written ==> cur == r.out.pos)
      decreases |toks| - token, 0
    {
      hide Contents, NextPos, SinCosTargets, SinCosHead;
      cur := token;
      var more := NextToken();
      if !more || toks[cur].word != LParen {
        return false;
      }
      var n := counter;
      counter := counter + 1;
      text := text + SinCosHead(n);
      cur := WriteContents(cur, Comma);
      text := text + ([Punct(RParen)] + StatementBreak);
      written := WriteSinCosTargets(n);
    }

    /** Expects the cursor on the comma after the angle. */
    method WriteSinCosTargets(n: nat) returns (written: bool)
      requires Stream(toks) && cur < |toks|
      modifies this
      ensures var r := SinCosTargets(Context(), old(cur), n, old(St()));
              written == r.written && St() == r.out.st && (written ==> cur == r.out.pos)
      decreases |toks| - cur, 4
    {
      hide Contents, NextPos;
      var more := NextToken();
      if !more {
        return false;
      }
      cur := WriteContents(cur, Comma);
      text := text + (SinCosAssign("sin", n) + StatementBreak);
      more := NextToken();
      if !more {
        return false;
      }
      cur := WriteContents(cur, RParen);
      text := text + SinCosAssign("cos", n);
      written := true;
    }

    /** Consumes `(` and, for sampling methods, `sampler ,`; emits the head of the GLSL call. */
    method WriteTextureCall(tex: Word, call: string, sampler: bool) returns (written: bool)
      requires Stream(toks) && cur < |toks|
      modifies this
      ensures cur < |toks|
      ensures !written ==> St() == old(St())
      ensures var open := NextPos(toks, old(cur));
              if toks[open].word != LParen then !written
              else if !sampler then written && cur == open && St() == old(St()).Emit(SampleHead(call, tex))
              else
                var s := NextPos(toks, open);
                var comma := NextPos(toks, s);
                var id := FindSampler(env.samplers, toks[s].word);
                if toks[s].kind == End || id.None? || toks[comma].word != Comma then !written
                else written && cur == comma && St() == BindSampler(old(St()), tex, id).Emit(SampleHead(call, tex))
    {
      written := false;
      var more := NextToken();
      if !more || toks[cur].word != LParen {
        return;
      }
      if sampler {
        more := NextToken();
        if !more {
          return;
        }
        var id := FindSampler(env.samplers, toks[cur].word);
        if id.None? {
          return;
        }
        more := NextToken();
        if !more || toks[cur].word != Comma {
          return;
        }
        samplerOf := samplerOf[tex := id.value];
      }
      text := text + SampleHead(call, tex);
      written := true;
    }

    method WriteTextureCode(token: nat) returns (written: bool)
      requires Stream(toks) && token < |toks| && toks[token].kind == Name && IsTexture(env, toks[token].word)
      modifies this
      ensures var r := TextureCode(Context(), token, old(St()));
              written == r.written && St() == r.out.st && (written ==> cur == r.out.pos)
      decreases |toks| - token, 0
    {
      hide Contents, NextPos, FindSampler, TextureType, SampleHead, Stream;
      var tex := toks[token].word;
      cur := token;
      var more := NextToken();
      EndHasNoText(toks, cur);
      if !more || toks[cur].word != Dot {
        return false;
      }
      more := NextToken();
      EndHasNoText(toks, cur);
      if !more {
        return false;
      }
      var call := SampleCall(toks[cur].word, TextureType(env, tex));
      if call.None? {
        return false;
      }
      written := WriteTextureCall(tex, call.value, toks[cur].word != LoadName);
      if !written {
        return;
      }
      more := NextToken();
      if !more {
        return false;
      }
      cur := WriteContents(cur, RParen);
      text := text + [Punct(RParen)];
    }
  }
}

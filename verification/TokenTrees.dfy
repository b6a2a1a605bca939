/**
 * Function bodies as bracket-balanced token trees, with whitespace kept wherever the lexer leaves
 * it: their source text, their GLSL text, and which of them are well formed.
 */
module TokenTrees {
  import opened Wrappers
  import opened ShaderTokens
  import opened GlslWriter

  datatype Item =
    | Leaf(t: Token)
    | Group(brace: bool, body: seq<Item>)
    | MulCall(ws0: seq<Token>, a: seq<Item>, ws1: seq<Token>, b: seq<Item>)
    | MadCall(ws0: seq<Token>, a: seq<Item>, ws1: seq<Token>, b: seq<Item>, ws2: seq<Token>, c: seq<Item>)
    | SaturateCall(ws0: seq<Token>, a: seq<Item>)
    | SinCosCall(ws0: seq<Token>, a: seq<Item>, ws1: seq<Token>, b: seq<Item>, ws2: seq<Token>, c: seq<Item>)
    | Sampling(tex: Word, ws0: seq<Token>, ws1: seq<Token>, texMethod: Word, ws2: seq<Token>,
               sampler: Option<SamplerArg>, ws3: seq<Token>, args: seq<Item>)

  /** `ws sampler ws' ,` as it stands in a sampling call. */
  datatype SamplerArg = SamplerArg(before: seq<Token>, name: Word, after: seq<Token>)

  const Open := Punct(LParen)
  const Close := Punct(RParen)
  const CommaTok := Punct(Comma)
  const DotTok := Punct(Dot)

  function OpenOf(brace: bool): Token { if brace then Punct(LBrace) else Open }

  function CloseOf(brace: bool): Token { if brace then Punct(RBrace) else Close }

  // ----- The source text of a tree

  function Print(its: seq<Item>): seq<Token>
    decreases its, 0
  {
    if its == [] then [] else PrintItem(its[0]) + Print(its[1..])
  }

  function PrintItem(it: Item): (ts: seq<Token>)
    ensures |ts| > 0 && (it.Leaf? ==> ts == [it.t])
    decreases it, 1
  {
    match it
    case Leaf(t) => [t]
    case Group(brace, body) => [OpenOf(brace)] + Print(body) + [CloseOf(brace)]
    case MulCall(ws0, a, ws1, b) =>
      [Ident(MulName)] + ws0 + [Open] + Print(a) + [CommaTok] + ws1 + Print(b) + [Close]
    case MadCall(ws0, a, ws1, b, ws2, c) =>
      [Ident(MadName)] + ws0 + [Open] + Print(a) + [CommaTok] + ws1 + Print(b) + [CommaTok] + ws2 + Print(c) + [Close]
    case SaturateCall(ws0, a) => [Ident(SaturateName)] + ws0 + [Open] + Print(a) + [Close]
    case SinCosCall(ws0, a, ws1, b, ws2, c) =>
      [Ident(SinCosName)] + ws0 + [Open] + Print(a) + [CommaTok] + ws1 + Print(b) + [CommaTok] + ws2 + Print(c) + [Close]
    case Sampling(tex, ws0, ws1, m, ws2, s, ws3, args) =>
      [Ident(tex)] + ws0 + [DotTok] + ws1 + [Ident(m)] + ws2 + [Open] + PrintSampler(s) + ws3 + Print(args) + [Close]
  }

  function PrintSampler(s: Option<SamplerArg>): (ts: seq<Token>)
    ensures |ts| == if s.None? then 0 else |s.value.before| + |s.value.after| + 2
  {
    if s.None? then [] else s.value.before + [Ident(s.value.name)] + s.value.after + [CommaTok]
  }

  // ----- The GLSL text of a tree, written part by part without any cursor

  function WriteItems(env: Env, its: seq<Item>, st: State): State
    decreases its, 0
  {
    if its == [] then st else WriteItems(env, its[1..], WriteItem(env, its[0], st))
  }

  function LeafText(t: Token): Token {
    if t.kind != Name then t
    else if TypeName(t.word).Some? then Ident(Spelled(TypeName(t.word).value))
    else if Renamed(t.word).Some? then Ident(Renamed(t.word).value)
    else t
  }

  function WriteItem(env: Env, it: Item, st: State): State
    decreases it, 1
  {
    match it
    case Leaf(t) => st.Emit([LeafText(t)])
    case Group(brace, body) => WriteItems(env, body, st.Emit([OpenOf(brace)])).Emit([CloseOf(brace)])
    case MulCall(_, a, _, b) =>
      var x := WriteItems(env, a, st.Emit([Open]).Emit([Open]));
      WriteItems(env, b, x.Emit(TimesParen)).Emit(CloseClose)
    case MadCall(_, a, _, b, _, c) =>
      var x := WriteItems(env, a, st.Emit([Open]).Emit([Open]));
      var y := WriteItems(env, b, x.Emit(TimesParen));
      WriteItems(env, c, y.Emit(PlusParen)).Emit(CloseClose)
    case SaturateCall(_, a) => WriteItems(env, a, st.Emit([Ident(ClampName)]).Emit([Open])).Emit(ClampTail)
    case SinCosCall(_, _, _, _, _, _) => WriteSinCos(env, it, st)
    case Sampling(_, _, _, _, _, _, _, args) =>
      WriteItems(env, args, SamplingStart(env, it.tex, it.texMethod, it.sampler, st)).Emit([Close])
  }

  function WriteSinCos(env: Env, it: Item, st: State): State
    requires it.SinCosCall?
    decreases it, 0
  {
    var n := st.counter;
    var x := WriteItems(env, it.a, st.(counter := n + 1).Emit(SinCosHead(n)).Emit([Open]));
    var y := WriteItems(env, it.b, x.Emit([Close] + StatementBreak));
    WriteItems(env, it.c, y.Emit(SinCosAssign("sin", n) + StatementBreak)).Emit(SinCosAssign("cos", n))
  }

  /** The sampler is bound to the texture and the head of the GLSL call is written. */
  function SamplingStart(env: Env, tex: Word, m: Word, s: Option<SamplerArg>, st: State): State {
    var id := if s.None? then None else FindSampler(env.samplers, s.value.name);
    var call := SampleCall(m, TextureType(env, tex));
    if call.None? then st else BindSampler(st, tex, id).Emit(SampleHead(call.value, tex))
  }

  // ----- Which trees are well formed

  predicate White(ws: seq<Token>) { forall i :: 0 <= i < |ws| ==> IsWhite(ws[i]) && WellFormed(ws[i]) }

  /** First token that is not whitespace. */
  function SigHead(ts: seq<Token>): Option<Token> {
    if ts == [] then None else if IsWhite(ts[0]) then SigHead(ts[1..]) else Some(ts[0])
  }

  predicate NoDot(ts: seq<Token>) { SigHead(ts) != Some(DotTok) && (SigHead(ts).Some? ==> SigHead(ts).value.word != Dot) }

  /** A token that opens or closes nothing; a comma is punctuation. */
  predicate PlainToken(t: Token) {
    && t.kind != End && WellFormed(t)
    && t.word != RParen && t.word != RBrace && (t.word == Comma ==> t.kind == Other)
    && t != Punct(LParen) && t != Punct(LBrace)
    && (t.kind == Name ==> !IsHandled(t.word))
  }

  predicate TopLevelComma(its: seq<Item>) { exists i :: 0 <= i < |its| && its[i] == Leaf(CommaTok) }

  predicate StartsSolid(its: seq<Item>) { its != [] && !(its[0].Leaf? && IsWhite(its[0].t)) }

  /** An argument that its call closes with ")": it must not open with a bracket. */
  predicate LastArg(its: seq<Item>) { StartsSolid(its) && !its[0].Group? }

  /** An argument between two commas: it may open with a bracket that holds no bare comma. */
  predicate MiddleArg(its: seq<Item>) {
    && StartsSolid(its) && !TopLevelComma(its)
    && (its[0].Group? ==> !its[0].brace && !TopLevelComma(its[0].body))
  }

  predicate Wf(env: Env, its: seq<Item>)
    decreases its, 0
  {
    its == [] ||
    (&& WfItem(env, its[0]) && Wf(env, its[1..])
     && (its[0].Leaf? && its[0].t.kind == Name && IsTexture(env, its[0].t.word) ==> NoDot(Print(its[1..]))))
  }

  predicate WfItem(env: Env, it: Item)
    decreases it, 1
  {
    match it
    case Leaf(t) => PlainToken(t)
    case Group(_, body) => Wf(env, body)
    case MulCall(ws0, a, ws1, b) =>
      White(ws0) && White(ws1) && Wf(env, a) && Wf(env, b) && !TopLevelComma(a) && LastArg(b)
    case MadCall(ws0, a, ws1, b, ws2, c) =>
      && White(ws0) && White(ws1) && White(ws2) && Wf(env, a) && Wf(env, b) && Wf(env, c)
      && !TopLevelComma(a) && MiddleArg(b) && LastArg(c)
    case SaturateCall(ws0, a) => White(ws0) && Wf(env, a)
    case SinCosCall(ws0, a, ws1, b, ws2, c) =>
      && White(ws0) && White(ws1) && White(ws2) && Wf(env, a) && Wf(env, b) && Wf(env, c)
      && !TopLevelComma(a) && MiddleArg(b) && LastArg(c)
    case Sampling(tex, ws0, ws1, m, ws2, s, ws3, args) =>
      && White(ws0) && White(ws1) && White(ws2) && White(ws3) && Wf(env, args) && LastArg(args)
      && WfSampling(env, tex, m, s)
  }

  predicate WfSampling(env: Env, tex: Word, m: Word, s: Option<SamplerArg>) {
    && IsTexture(env, tex) && TypeName(tex).None? && Renamed(tex).None? && !IsHandled(tex)
    && tex != Nothing && tex != Comma && tex != RParen && tex != RBrace
    && SampleCall(m, TextureType(env, tex)).Some?
    && (m == LoadName <==> s.None?)
    && (s.Some? ==> s.value.name in env.samplers && s.value.name != Nothing && White(s.value.before) && White(s.value.after))
  }

  // ----- The writer follows the tree

  /** No token of the tree at bracket depth zero is spelled `end`. */
  predicate Passes(its: seq<Item>, end: Word) {
    (end == RParen || end == RBrace || end == Comma) && (end == Comma ==> !TopLevelComma(its))
  }

  lemma {:induction false} SigHeadConcat(x: seq<Token>, y: seq<Token>)
    ensures SigHead(x + y) == if SigHead(x).Some? then SigHead(x) else SigHead(y)
  {
    if x == [] {
      assert x + y == y;
    } else {
      assert (x + y)[1..] == x[1..] + y;
      SigHeadConcat(x[1..], y);
    }
  }

  lemma {:induction false} SkipWhiteIsSigHead(toks: seq<Token>, i: nat)
    requires Stream(toks) && i < |toks|
    ensures SigHead(toks[i..]) == Some(toks[SkipWhite(toks, i)])
    decreases |toks| - i
  {
    if IsWhite(toks[i]) {
      assert toks[i..][1..] == toks[i + 1..];
      SkipWhiteIsSigHead(toks, i + 1);
    }
  }

  /** Unless it opens a group, the first token is written just as the loop would write it. */
  lemma ContentsIsLoop(c: Ctx, k: nat, end: Word, st: State)
    requires Stream(c.toks) && 0 < k < |c.toks|
    requires c.toks[k - 1].kind != End && c.toks[k].word != end
    requires c.toks[k] != Punct(LParen) && c.toks[k] != Punct(LBrace)
    ensures Contents(c, k, end, st) == Loop(c, k - 1, end, st)
  {
  }

  /** The first token of a well-formed item: never a closer, and an opener only for a group. */
  lemma HeadToken(env: Env, it: Item)
    requires WfItem(env, it)
    ensures var t := PrintItem(it)[0];
            && t.kind != End && WellFormed(t) && t.word != RParen && t.word != RBrace
            && (t.word == Comma ==> it == Leaf(CommaTok))
            && (!it.Group? ==> t != Punct(LParen) && t != Punct(LBrace))
            && (IsWhite(t) ==> it.Leaf? && it.t == t)
  {
  }
}

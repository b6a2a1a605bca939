/**
 * The text that comes out when the last argument of a call opens with a bracket. The handler stops
 * on that bracket's closer and finishes its own text there; the loop around it copies the rest of
 * the argument and the call's closer. Whether that is the right text depends on the handler's tail.
 */
module ParenTexts {
  import opened Wrappers
  import opened ShaderTokens
  import opened GlslWriter
  import opened TokenTrees
  import opened WriterCorrectness
  import opened Translation
  import opened TranslationSoundness
  import opened ParenArguments

  // ----- Writing only appends

  function Under(p: seq<Token>, st: State): State { st.(text := p + st.text) }

  lemma {:induction false} UnderEmit(p: seq<Token>, st: State, ts: seq<Token>)
    ensures Under(p, st).Emit(ts) == Under(p, st.Emit(ts))
  {
    assert p + st.text + ts == p + (st.text + ts);
  }

  /** What is written does not depend on the text already there. */
  lemma {:induction false} PrefixKept(env: Env, its: seq<Item>, p: seq<Token>, st: State)
    ensures WriteItems(env, its, Under(p, st)) == Under(p, WriteItems(env, its, st))
    decreases its, 1
  {
    hide WriteItem, Under;
    if its != [] {
      PrefixKeptItem(env, its[0], p, st);
      PrefixKept(env, its[1..], p, WriteItem(env, its[0], st));
    }
  }

  /** The same for a piece of text, a tree and another piece. */
  lemma {:induction false} PieceKept(env: Env, x: seq<Token>, a: seq<Item>, y: seq<Token>, p: seq<Token>, st: State)
    ensures WriteItems(env, a, Under(p, st).Emit(x)).Emit(y) == Under(p, WriteItems(env, a, st.Emit(x)).Emit(y))
    decreases a, 2
  {
    hide WriteItems, Under;
    UnderEmit(p, st, x);
    PrefixKept(env, a, p, st.Emit(x));
    UnderEmit(p, WriteItems(env, a, st.Emit(x)), y);
  }

  lemma {:induction false} PrefixKeptItem(env: Env, it: Item, p: seq<Token>, st: State)
    ensures WriteItem(env, it, Under(p, st)) == Under(p, WriteItem(env, it, st))
    decreases it, 3
  {
    hide WriteItems, Under, WriteSinCos, SamplingStart, LeafText;
    match it
    case Leaf(t) => UnderEmit(p, st, [LeafText(t)]);
    case Group(brace, body) => PieceKept(env, [OpenOf(brace)], body, [CloseOf(brace)], p, st);
    case MulCall(_, a, _, b) =>
      UnderEmit(p, st, [Open]);
      PieceKept(env, [Open], a, TimesParen, p, st.Emit([Open]));
      var x := WriteItems(env, a, st.Emit([Open]).Emit([Open])).Emit(TimesParen);
      PrefixKept(env, b, p, x);
      UnderEmit(p, WriteItems(env, b, x), CloseClose);
    case MadCall(_, a, _, b, _, c) =>
      UnderEmit(p, st, [Open]);
      PieceKept(env, [Open], a, TimesParen, p, st.Emit([Open]));
      var x := WriteItems(env, a, st.Emit([Open]).Emit([Open])).Emit(TimesParen);
      PrefixKept(env, b, p, x);
      var y := WriteItems(env, b, x);
      PieceKept(env, PlusParen, c, CloseClose, p, y);
    case SaturateCall(_, a) =>
      UnderEmit(p, st, [Ident(ClampName)]);
      PieceKept(env, [Open], a, ClampTail, p, st.Emit([Ident(ClampName)]));
    case SinCosCall(_, _, _, _, _, _) => PrefixKeptSinCos(env, it, p, st);
    case Sampling(_, _, _, _, _, _, _, args) =>
      StartKept(env, it, p, st);
      PrefixKept(env, args, p, SamplingStart(env, it.tex, it.texMethod, it.sampler, st));
      UnderEmit(p, WriteItems(env, args, SamplingStart(env, it.tex, it.texMethod, it.sampler, st)), [Close]);
  }

  lemma {:induction false} PrefixKeptSinCos(env: Env, it: Item, p: seq<Token>, st: State)
    requires it.SinCosCall?
    ensures WriteSinCos(env, it, Under(p, st)) == Under(p, WriteSinCos(env, it, st))
    decreases it, 2
  {
    hide WriteItems, SinCosHead, SinCosAssign;
    var n := st.counter;
    var s0 := st.(counter := n + 1);
    assert Under(p, st).(counter := n + 1) == Under(p, s0);
    UnderEmit(p, s0, SinCosHead(n));
    PieceKept(env, [Open], it.a, [Close] + StatementBreak, p, s0.Emit(SinCosHead(n)));
    var x := WriteItems(env, it.a, s0.Emit(SinCosHead(n)).Emit([Open])).Emit([Close] + StatementBreak);
    PrefixKept(env, it.b, p, x);
    var y := WriteItems(env, it.b, x);
    PieceKept(env, SinCosAssign("sin", n) + StatementBreak, it.c, SinCosAssign("cos", n), p, y);
  }

  lemma {:induction false} StartKept(env: Env, it: Item, p: seq<Token>, st: State)
    requires it.Sampling?
    ensures SamplingStart(env, it.tex, it.texMethod, it.sampler, Under(p, st))
         == Under(p, SamplingStart(env, it.tex, it.texMethod, it.sampler, st))
  {
    hide SampleCall, TextureType, FindSampler;
    var id := if it.sampler.None? then None else FindSampler(env.samplers, it.sampler.value.name);
    var call := SampleCall(it.texMethod, TextureType(env, it.tex));
    assert BindSampler(Under(p, st), it.tex, id) == Under(p, BindSampler(st, it.tex, id));
    if call.Some? { UnderEmit(p, BindSampler(st, it.tex, id), SampleHead(call.value, it.tex)); }
  }

  // ----- What a tree's text begins with

  lemma {:induction false} Appends(env: Env, its: seq<Item>, st: State)
    ensures st.text <= WriteItems(env, its, st).text
  {
    hide WriteItems;
    assert Under(st.text, st.(text := [])) == st by { assert st.text + [] == st.text; }
    PrefixKept(env, its, st.text, st.(text := []));
  }

  predicate WhiteItem(it: Item) { it.Leaf? && IsWhite(it.t) }

  predicate BlankItems(its: seq<Item>) { forall i :: 0 <= i < |its| ==> WhiteItem(its[i]) }

  /** A text that begins with a solid token other than ")". */
  predicate Begun(ts: seq<Token>) { ts != [] && !IsWhite(ts[0]) && ts[0] != Close }

  lemma {:induction false} ItemBegins(env: Env, it: Item, st: State)
    requires WfItem(env, it) && !WhiteItem(it) && st.text == []
    ensures Begun(WriteItem(env, it, st).text)
  {
    hide WriteItems, TypeName, Renamed, Wf, White, SampleCall, TextureType;
    match it
    case Leaf(t) => assert WriteItem(env, it, st).text == [LeafText(t)];
    case Group(brace, body) => Appends(env, body, st.Emit([OpenOf(brace)]));
    case MulCall(_, a, _, b) =>
      var x := WriteItems(env, a, st.Emit([Open]).Emit([Open]));
      Appends(env, a, st.Emit([Open]).Emit([Open]));
      Appends(env, b, x.Emit(TimesParen));
    case MadCall(_, a, _, b, _, c) =>
      var x := WriteItems(env, a, st.Emit([Open]).Emit([Open]));
      Appends(env, a, st.Emit([Open]).Emit([Open]));
      Appends(env, b, x.Emit(TimesParen));
      Appends(env, c, WriteItems(env, b, x.Emit(TimesParen)).Emit(PlusParen));
    case SaturateCall(_, a) => Appends(env, a, st.Emit([Ident(ClampName)]).Emit([Open]));
    case SinCosCall(_, _, _, _, _, _) => SinCosBegins(env, it, st);
    case Sampling(_, _, _, _, _, _, _, args) =>
      Appends(env, args, SamplingStart(env, it.tex, it.texMethod, it.sampler, st));
  }

  lemma {:induction false} SinCosBegins(env: Env, it: Item, st: State)
    requires it.SinCosCall? && st.text == []
    ensures Begun(WriteSinCos(env, it, st).text)
  {
    hide WriteItems;
    var n := st.counter;
    var x := WriteItems(env, it.a, st.(counter := n + 1).Emit(SinCosHead(n)).Emit([Open]));
    var y := WriteItems(env, it.b, x.Emit([Close] + StatementBreak));
    Appends(env, it.a, st.(counter := n + 1).Emit(SinCosHead(n)).Emit([Open]));
    Appends(env, it.b, x.Emit([Close] + StatementBreak));
    Appends(env, it.c, y.Emit(SinCosAssign("sin", n) + StatementBreak));
  }

  /** The solid text of a tree is empty, if there is nothing but whitespace in it, or does not begin with ")". */
  lemma {:induction false} TextBegins(env: Env, its: seq<Item>, st: State)
    requires Wf(env, its) && st.text == []
    ensures BlankItems(its) ==> Solid(WriteItems(env, its, st).text) == []
    ensures !BlankItems(its) ==> Begun(Solid(WriteItems(env, its, st).text))
    decreases |its|
  {
    hide WriteItem, WfItem, NoDot, TextureType;
    if its != [] {
      var it, rest := its[0], its[1..];
      var s := WriteItem(env, it, st);
      var s0 := s.(text := []);
      assert Under(s.text, s0) == s by { assert s.text + [] == s.text; }
      PrefixKept(env, rest, s.text, s0);
      SolidConcat(s.text, WriteItems(env, rest, s0).text);
      if WhiteItem(it) {
        WhiteText(env, it, st);
        TextBegins(env, rest, s0);
        assert BlankItems(its) <==> BlankItems(rest) by { assert its == [it] + rest; }
      } else {
        ItemBegins(env, it, st);
        SolidCons(s.text[0], s.text[1..]);
        assert s.text == [s.text[0]] + s.text[1..];
      }
    }
  }

  lemma {:induction false} WhiteText(env: Env, it: Item, st: State)
    requires WhiteItem(it) && st.text == []
    ensures Solid(WriteItem(env, it, st).text) == []
  {
    assert WriteItem(env, it, st).text == [it.t];
  }

  // ----- Calls whose last argument opens with a bracket

  predicate HasLast(it: Item) { it.MulCall? || it.MadCall? || it.SinCosCall? || it.Sampling? }

  function Last(it: Item): seq<Item>
    requires HasLast(it)
  {
    match it
    case MulCall(_, _, _, b) => b
    case MadCall(_, _, _, _, _, c) => c
    case SinCosCall(_, _, _, _, _, c) => c
    case Sampling(_, _, _, _, _, _, _, args) => args
  }

  predicate OpensBracket(its: seq<Item>) { its != [] && its[0].Group? && !its[0].brace }

  /** Well formed but for the bracket that opens the last argument. */
  predicate WfButLast(env: Env, it: Item) {
    HasLast(it) && OpensBracket(Last(it)) && Wf(env, Last(it)) &&
    match it
    case MulCall(ws0, a, ws1, _) => White(ws0) && White(ws1) && Wf(env, a) && !TopLevelComma(a)
    case MadCall(ws0, a, ws1, b, ws2, _) =>
      White(ws0) && White(ws1) && White(ws2) && Wf(env, a) && Wf(env, b) && !TopLevelComma(a) && MiddleArg(b)
    case SinCosCall(ws0, a, ws1, b, ws2, _) =>
      White(ws0) && White(ws1) && White(ws2) && Wf(env, a) && Wf(env, b) && !TopLevelComma(a) && MiddleArg(b)
    case Sampling(tex, ws0, ws1, m, ws2, s, ws3, _) =>
      White(ws0) && White(ws1) && White(ws2) && White(ws3) && WfSampling(env, tex, m, s)
  }

  /** Everything written before the last argument, and what the handler writes after it. */
  function BeforeLast(env: Env, it: Item, st: State): State
    requires HasLast(it)
  {
    match it
    case MulCall(_, a, _, _) => WriteItems(env, a, st.Emit([Open]).Emit([Open])).Emit(TimesParen)
    case MadCall(_, a, _, b, _, _) =>
      WriteItems(env, b, WriteItems(env, a, st.Emit([Open]).Emit([Open])).Emit(TimesParen)).Emit(PlusParen)
    case SinCosCall(_, a, _, b, _, _) =>
      var n := st.counter;
      var x := WriteItems(env, a, st.(counter := n + 1).Emit(SinCosHead(n)).Emit([Open])).Emit([Close] + StatementBreak);
      WriteItems(env, b, x).Emit(SinCosAssign("sin", n) + StatementBreak)
    case Sampling(_, _, _, _, _, _, _, _) => SamplingStart(env, it.tex, it.texMethod, it.sampler, st)
  }

  function Tail(it: Item, st: State): seq<Token>
    requires HasLast(it)
  {
    match it
    case MulCall(_, _, _, _) => CloseClose
    case MadCall(_, _, _, _, _, _) => CloseClose
    case SinCosCall(_, _, _, _, _, _) => SinCosAssign("cos", st.counter)
    case Sampling(_, _, _, _, _, _, _, _) => [Close]
  }

  /** The state when the bracket's own closer is reached. */
  function AtCloser(env: Env, it: Item, st: State): State
    requires HasLast(it) && OpensBracket(Last(it))
  {
    WriteItems(env, Last(it)[0].body, BeforeLast(env, it, st).Emit([Open]))
  }

  /** What is written, and what should be. */
  function Got(env: Env, it: Item, st: State): State
    requires HasLast(it) && OpensBracket(Last(it))
  {
    WriteItems(env, Last(it)[1..], AtCloser(env, it, st).Emit(Tail(it, st))).Emit([Close])
  }

  lemma {:induction false} Wanted(env: Env, it: Item, st: State)
    requires HasLast(it) && OpensBracket(Last(it))
    ensures WriteItem(env, it, st)
         == WriteItems(env, Last(it)[1..], AtCloser(env, it, st).Emit([Close])).Emit(Tail(it, st))
  {
    WantedWhole(env, it, st);
    hide WriteItems, BeforeLast, Tail;
    Unfold(env, Last(it), BeforeLast(env, it, st));
  }

  lemma {:induction false} WantedWhole(env: Env, it: Item, st: State)
    requires HasLast(it)
    ensures WriteItem(env, it, st) == WriteItems(env, Last(it), BeforeLast(env, it, st)).Emit(Tail(it, st))
  {
    hide WriteItems, SamplingStart, SinCosHead, SinCosAssign;
  }

  // ----- The handlers stop on the bracket's closer

  lemma {:induction false} BracketArg(c: Ctx, i: nat, ws: seq<Token>, b: seq<Item>, st: State)
    requires Stream(c.toks) && ArgAt(c.toks, i, ws, Print(b), Close) && White(ws) && c.toks[i].kind == Other
    requires Wf(c.env, b) && OpensBracket(b)
    ensures NextPos(c.toks, i) == i + 1 + |ws| && i + 1 + |ws| < |c.toks| && c.toks[i + 1 + |ws|].kind != End
    ensures Contents(c, i + 1 + |ws|, RParen, st)
         == Out(i + 2 + |ws| + |Print(b[0].body)|, WriteItems(c.env, b[0].body, st.Emit([Open])))
  {
    hide Contents, Loop, NextPos, At, WriteItems, Stream, Wf, PrintItem;
    ArgHead(c, i, ws, b);
    LastArgumentStops(c, i, ws, b, st);
  }

  predicate Stopped(c: Ctx, i: nat, it: Item, st: State)
    requires Stream(c.toks) && i < |c.toks| && HasLast(it) && OpensBracket(Last(it))
  {
    var k := i + |PrintItem(it)| - 2 - |Print(Last(it)[1..])|;
    0 <= k && Step(c, i, st) == Out(k, AtCloser(c.env, it, st).Emit(Tail(it, st)))
  }

  lemma {:induction false} PrintLast(b: seq<Item>)
    requires OpensBracket(b)
    ensures |Print(b)| == 2 + |Print(b[0].body)| + |Print(b[1..])|
  {
  }

  lemma {:induction false} MulStops(c: Ctx, i: nat, it: Item, st: State)
    requires Stream(c.toks) && it.MulCall? && At(c.toks, i, PrintItem(it)) && WfButLast(c.env, it)
    ensures Stopped(c, i, it, st)
  {
    hide Stream, Step, Print, Wf, At, White, TopLevelComma, AtCloser;
    TwoShape(c.toks, i, Ident(MulName), it.ws0, Print(it.a), it.ws1, Print(it.b));
    MulReads(c, i, it, st);
    PrintLast(it.b);
  }

  lemma {:induction false} MulReads(c: Ctx, i: nat, it: Item, st: State)
    requires Stream(c.toks) && it.MulCall? && CallAt(c.toks, i, it.ws0, Print(it.a), CommaTok) && WfButLast(c.env, it)
    requires ArgAt(c.toks, i + 2 + |it.ws0| + |Print(it.a)|, it.ws1, Print(it.b), Close) && c.toks[i] == Ident(MulName)
    ensures Step(c, i, st)
         == Out(i + 4 + |it.ws0| + |Print(it.a)| + |it.ws1| + |Print(it.b[0].body)|, AtCloser(c.env, it, st).Emit(CloseClose))
  {
    hide TypeName, Renamed, Stream, Contents, Mul, Step, Intrinsic, Print, Wf, WriteItems, WriteItem, NextPos, At, White,
         TopLevelComma;
    var p := i + 2 + |it.ws0| + |Print(it.a)|;
    OpenArg(c, i, it.ws0, it.a, CommaTok, st.Emit([Open]));
    var x := WriteItems(c.env, it.a, st.Emit([Open]).Emit([Open]));
    BracketArg(c, p, it.ws1, it.b, x.Emit(TimesParen));
    MulUnfold(c, i, Out(p, x), st);
    IntrinsicHandler(c, i, st);
    StepIntrinsic(c, i, st);
  }

  /** The parts of a three-argument call stand from `i` on. */
  predicate PartsAt(c: Ctx, i: nat, it: Item)
    requires it.MadCall? || it.SinCosCall?
  {
    && CallAt(c.toks, i, it.ws0, Print(it.a), CommaTok)
    && ArgAt(c.toks, i + 2 + |it.ws0| + |Print(it.a)|, it.ws1, Print(it.b), CommaTok)
    && ArgAt(c.toks, i + 3 + |it.ws0| + |Print(it.a)| + |it.ws1| + |Print(it.b)|, it.ws2, Print(it.c), Close)
  }

  function ThirdCloser(i: nat, it: Item): nat
    requires (it.MadCall? || it.SinCosCall?) && OpensBracket(it.c)
  {
    i + 5 + |it.ws0| + |Print(it.a)| + |it.ws1| + |Print(it.b)| + |it.ws2| + |Print(it.c[0].body)|
  }

  lemma {:induction false} ThreeStops(c: Ctx, i: nat, it: Item, st: State)
    requires Stream(c.toks) && (it.MadCall? || it.SinCosCall?) && At(c.toks, i, PrintItem(it)) && WfButLast(c.env, it)
    ensures Stopped(c, i, it, st)
  {
    hide Stream, Step, Print, Wf, At, White, TopLevelComma, AtCloser, MiddleArg, Tail;
    var name := if it.MadCall? then MadName else SinCosName;
    ThreeShape(c.toks, i, Ident(name), it.ws0, Print(it.a), it.ws1, Print(it.b), it.ws2, Print(it.c));
    if it.MadCall? { MadReads(c, i, it, st); } else { SinCosReads(c, i, it, st); }
    PrintLast(it.c);
  }

  lemma {:induction false} MadReads(c: Ctx, i: nat, it: Item, st: State)
    requires Stream(c.toks) && it.MadCall? && PartsAt(c, i, it) && WfButLast(c.env, it) && c.toks[i] == Ident(MadName)
    ensures Step(c, i, st) == Out(ThirdCloser(i, it), AtCloser(c.env, it, st).Emit(Tail(it, st)))
  {
    hide TypeName, Renamed, Stream, Contents, Mad, Step, Intrinsic, Print, Wf, WriteItems, WriteItem, NextPos, At, White,
         TopLevelComma, MiddleArg;
    var p := i + 2 + |it.ws0| + |Print(it.a)|;
    var q := p + 1 + |it.ws1| + |Print(it.b)|;
    OpenArg(c, i, it.ws0, it.a, CommaTok, st.Emit([Open]));
    var x := WriteItems(c.env, it.a, st.Emit([Open]).Emit([Open]));
    MidArg(c, p, it.ws1, it.b, x.Emit(TimesParen));
    var y := WriteItems(c.env, it.b, x.Emit(TimesParen));
    BracketArg(c, q, it.ws2, it.c, y.Emit(PlusParen));
    MadUnfold(c, i, Out(p, x), Out(q, y), st);
    IntrinsicHandler(c, i, st);
    StepIntrinsic(c, i, st);
  }

  lemma {:induction false} SinCosReads(c: Ctx, i: nat, it: Item, st: State)
    requires Stream(c.toks) && it.SinCosCall? && PartsAt(c, i, it) && WfButLast(c.env, it) && c.toks[i] == Ident(SinCosName)
    ensures Step(c, i, st) == Out(ThirdCloser(i, it), AtCloser(c.env, it, st).Emit(Tail(it, st)))
  {
    hide TypeName, Renamed, Stream, Contents, SinCos, Step, Intrinsic, Print, Wf, WriteItems, WriteItem, NextPos, At, White,
         TopLevelComma, MiddleArg, SinCosHead, SinCosAssign;
    var p, n := i + 2 + |it.ws0| + |Print(it.a)|, st.counter;
    var st0 := st.(counter := n + 1).Emit(SinCosHead(n));
    OpenArg(c, i, it.ws0, it.a, CommaTok, st0);
    var x := WriteItems(c.env, it.a, st0.Emit([Open])).Emit([Close] + StatementBreak);
    MidArg(c, p, it.ws1, it.b, x);
    var y := WriteItems(c.env, it.b, x).Emit(SinCosAssign("sin", n) + StatementBreak);
    var q := p + 1 + |it.ws1| + |Print(it.b)|;
    BracketArg(c, q, it.ws2, it.c, y);
    SinCosUnfold(c, i, Out(p, WriteItems(c.env, it.a, st0.Emit([Open]))), Out(q, WriteItems(c.env, it.b, x)), st);
    IntrinsicHandler(c, i, st);
    StepIntrinsic(c, i, st);
  }

  lemma {:induction false} SamplingStops(c: Ctx, i: nat, it: Item, st: State)
    requires Stream(c.toks) && it.Sampling? && At(c.toks, i, PrintItem(it)) && WfButLast(c.env, it)
    ensures Stopped(c, i, it, st)
  {
    hide TypeName, Renamed, Stream, Step, Print, Wf, At, White, WfSampling, SamplingAt, AtCloser;
    ArgShape(c.toks, i, SamplingHead(it), it.ws3, Print(it.args), Close);
    HeadShape(c.toks, i, it);
    SamplingReads(c, i, it, st);
    PrintLast(it.args);
  }

  lemma {:induction false} SamplingReads(c: Ctx, i: nat, it: Item, st: State)
    requires Stream(c.toks) && it.Sampling? && SamplingAt(c.toks, i, it) && WfButLast(c.env, it)
    requires ArgAt(c.toks, HeadEnd(i, it), it.ws3, Print(it.args), Close)
    ensures Step(c, i, st)
         == Out(HeadEnd(i, it) + 2 + |it.ws3| + |Print(it.args[0].body)|, AtCloser(c.env, it, st).Emit([Close]))
  {
    hide TypeName, Renamed, Stream, Contents, Step, Intrinsic, TextureCode, Print, Wf, WriteItems, NextPos, At, White,
         TextureShape, TextureType, FindSampler, HeadEnd, SampleCall, SamplingStart, SamplingAt;
    ShapeOf(c, i, it);
    HeadEndToken(c, i, it);
    BracketArg(c, HeadEnd(i, it), it.ws3, it.args, SamplingStart(c.env, it.tex, it.texMethod, it.sampler, st));
    TextureUnfold(c, i, it, st);
    IntrinsicHandler(c, i, st);
    StepIntrinsic(c, i, st);
  }

  lemma {:induction false} CallStops(c: Ctx, i: nat, it: Item, st: State)
    requires Stream(c.toks) && i < |c.toks| && WfButLast(c.env, it) && At(c.toks, i, PrintItem(it))
    ensures Stopped(c, i, it, st)
  {
    hide Stream, At, PrintItem, Stopped, Wf, White, MiddleArg, WfSampling;
    match it
    case MulCall(_, _, _, _) => MulStops(c, i, it, st);
    case MadCall(_, _, _, _, _, _) => ThreeStops(c, i, it, st);
    case SinCosCall(_, _, _, _, _, _) => ThreeStops(c, i, it, st);
    case Sampling(_, _, _, _, _, _, _, _) => SamplingStops(c, i, it, st);
  }

  /** Inside a loop that does not end on ")", the rest of the argument and the call's closer are then copied. */
  lemma {:induction false} BracketCopied(c: Ctx, i: nat, it: Item, end: Word, st: State)
    requires Stream(c.toks) && 0 < i && At(c.toks, i, PrintItem(it)) && c.toks[i - 1].kind != End
    requires WfButLast(c.env, it) && end != RParen && Passes(Last(it)[1..], end)
    ensures i + |PrintItem(it)| - 1 < |c.toks|
    ensures Loop(c, i - 1, end, st) == Loop(c, i + |PrintItem(it)| - 1, end, Got(c.env, it, st))
  {
    hide Loop, Step, WriteItems, At, Print, PrintItem, Stream, Wf, BeforeLast, Tail, AtCloser, TopLevelComma, White, MiddleArg,
         WfSampling;
    var rest, n := Last(it)[1..], i + |PrintItem(it)| - 1;
    CallHead(c, i, it, end);
    LoopUnfold(c, i - 1, end, st);
    CallStops(c, i, it, st);
    RestAt(c, i, it);
    var k := n - 1 - |Print(rest)|;
    var s := AtCloser(c.env, it, st).Emit(Tail(it, st));
    SolidNoDot(c.toks, n);
    LoopItems(c, k + 1, rest, end, s);
    LoopUnfold(c, n - 1, end, WriteItems(c.env, rest, s));
    CloseStep(c, n, WriteItems(c.env, rest, s));
  }

  lemma {:induction false} CallHead(c: Ctx, i: nat, it: Item, end: Word)
    requires At(c.toks, i, PrintItem(it)) && WfButLast(c.env, it) && (end == RBrace || end == Comma)
    ensures i < |c.toks| && c.toks[i].kind == Name && c.toks[i].word != end
  {
    hide Print, Wf, White, PrintSampler, TextureType, SampleCall, TypeName, Renamed;
    var t := PrintItem(it)[0];
    AtSplit(c.toks, i, [t], PrintItem(it)[1..]);
    assert PrintItem(it) == [t] + PrintItem(it)[1..];
    AtOne(c.toks, i, t);
  }

  lemma {:induction false} PrintEnds(it: Item) returns (head: seq<Token>)
    requires HasLast(it)
    ensures PrintItem(it) == head + Print(Last(it)) + [Close]
  {
    hide Print, PrintSampler;
    head := PrintItem(it)[..|PrintItem(it)| - 1 - |Print(Last(it))|];
  }

  lemma {:induction false} RestAt(c: Ctx, i: nat, it: Item)
    requires At(c.toks, i, PrintItem(it)) && WfButLast(c.env, it)
    ensures var rest, n := Last(it)[1..], i + |PrintItem(it)| - 1;
            && Wf(c.env, rest) && n < |c.toks| && c.toks[n] == Close
            && i < n - 1 - |Print(rest)| && At(c.toks, n - |Print(rest)|, Print(rest)) && c.toks[n - 1 - |Print(rest)|] == Close
  {
    hide At, PrintItem, White, MiddleArg, WfSampling, TopLevelComma;
    var b := Last(it);
    var head := PrintEnds(it);
    BodyOf(c.env, b);
    var h := head + ([Open] + Print(b[0].body));
    var rest := Print(b[1..]);
    Regroup(head, [Open] + Print(b[0].body), rest);
    ClosersAt(c.toks, i, h, rest);
    RestWf(c.env, it);
    assert |PrintItem(it)| == |h| + 2 + |rest|;
  }

  lemma {:induction false} ClosersAt(toks: seq<Token>, i: nat, h: seq<Token>, rest: seq<Token>)
    requires At(toks, i, h + [Close] + (rest + [Close]))
    ensures i + |h| + 1 + |rest| < |toks| && toks[i + |h|] == Close && toks[i + |h| + 1 + |rest|] == Close
    ensures At(toks, i + |h| + 1, rest)
  {
    hide At;
    AtSplit(toks, i, h + [Close], rest + [Close]);
    AtSplit(toks, i, h, [Close]);
    AtOne(toks, i + |h|, Close);
    AtSplit(toks, i + |h| + 1, rest, [Close]);
    AtOne(toks, i + |h| + 1 + |rest|, Close);
  }

  lemma {:induction false} Regroup(head: seq<Token>, x: seq<Token>, rest: seq<Token>)
    ensures head + (x + [Close] + rest) + [Close] == (head + x) + [Close] + (rest + [Close])
  {
  }

  // ----- When the text is right

  /**
   * `mul` and `mad` write two closers, so the text is right exactly if nothing follows the bracket;
   * a sampling call writes one, and copying makes no difference; `sincos` writes an assignment.
   */
  predicate CopyIsHarmless(it: Item)
    requires HasLast(it) && OpensBracket(Last(it))
  {
    it.Sampling? || ((it.MulCall? || it.MadCall?) && BlankItems(Last(it)[1..]))
  }

  lemma {:induction false} TextRightIff(env: Env, it: Item, st: State)
    requires WfButLast(env, it)
    ensures Same(Got(env, it, st), WriteItem(env, it, st)) <==> CopyIsHarmless(it)
  {
    hide WriteItems, WriteItem, BeforeLast, Wf, Tail, Same, BlankItems;
    Wanted(env, it, st);
    var rest, s, tail := Last(it)[1..], AtCloser(env, it, st), Tail(it, st);
    var r := WriteItems(env, rest, s.(text := []));
    RestWf(env, it);
    TextBegins(env, rest, s.(text := []));
    Appended(env, rest, s, tail, [Close]);
    Appended(env, rest, s, [Close], tail);
    SolidFixed([Close]);
    Compare(Solid(s.text), Solid(tail), Solid(r.text));
    TailCases(it, st);
    SameParts(Got(env, it, st), WriteItem(env, it, st));
  }

  lemma {:induction false} SameParts(s: State, t: State)
    ensures s.counter == t.counter && s.samplerOf == t.samplerOf ==> (Same(s, t) <==> Solid(s.text) == Solid(t.text))
  {
  }

  lemma {:induction false} RestWf(env: Env, it: Item)
    requires WfButLast(env, it)
    ensures Wf(env, Last(it)[1..])
  {
  }

  lemma {:induction false} Appended(env: Env, its: seq<Item>, s: State, x: seq<Token>, y: seq<Token>)
    ensures var r, t := WriteItems(env, its, s.(text := [])), WriteItems(env, its, s.Emit(x)).Emit(y);
            && t.counter == r.counter && t.samplerOf == r.samplerOf
            && Solid(t.text) == Solid(s.text) + Solid(x) + Solid(r.text) + Solid(y)
  {
    hide WriteItems;
    var p, s0 := s.text + x, s.(text := []);
    assert Under(p, s0) == s.Emit(x) by { assert p + [] == p; }
    PrefixKept(env, its, p, s0);
    var r := WriteItems(env, its, s0);
    SolidConcat(p + r.text, y);
    SolidConcat(p, r.text);
    SolidConcat(s.text, x);
  }

  lemma {:induction false} TailCases(it: Item, st: State)
    requires HasLast(it)
    ensures it.Sampling? ==> Solid(Tail(it, st)) == [Close]
    ensures it.MulCall? || it.MadCall? ==> Solid(Tail(it, st)) == [Close, Close]
    ensures it.SinCosCall? ==> Begun(Solid(Tail(it, st)))
  {
    SolidFixed([Close]);
    SolidFixed(CloseClose);
    if it.SinCosCall? {
      var a := SinCosAssign("cos", st.counter);
      assert a == [Blank] + a[1..] && a[1..] == [Punct(Equals)] + a[2..];
      SolidCons(Blank, a[1..]);
      SolidCons(Punct(Equals), a[2..]);
    }
  }

  lemma {:induction false} Compare(s: seq<Token>, t: seq<Token>, r: seq<Token>)
    ensures t == [Close] ==> s + t + r + [Close] == s + [Close] + r + t
    ensures r == [] && t == [Close, Close] ==> s + t + r + [Close] == s + [Close] + r + t
    ensures Begun(r) && t == [Close, Close] ==> s + t + r + [Close] != s + [Close] + r + t
    ensures Begun(t) ==> s + t + r + [Close] != s + [Close] + r + t
  {
    var x, y := s + t + r + [Close], s + [Close] + r + t;
    if Begun(t) { assert x[|s|] == t[0] && y[|s|] == Close; }
    if Begun(r) && t == [Close, Close] { assert x[|s| + 1] == Close && y[|s| + 1] == r[0]; }
  }
}

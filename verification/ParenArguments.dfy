/**
 * The two shapes of argument the writer gets wrong. The first token of an argument is written
 * without opening a group, so an argument read up to ")" must not itself begin with "(", and one
 * read up to "," must not begin with a bracket that holds a bare comma.
 */
module ParenArguments {
  import opened Wrappers
  import opened ShaderTokens
  import opened ShaderExpr
  import opened GlslWriter
  import opened TokenTrees
  import opened WriterCorrectness
  import opened Translation
  import opened TranslationSoundness
  import opened ShaderMeaning
  import opened ShaderValues

  /** Where the last argument of any call ends: on the call's closer exactly when it opens with no bracket. */
  lemma {:induction false} LastArgumentStops(c: Ctx, i: nat, ws: seq<Token>, b: seq<Item>, st: State)
    requires Stream(c.toks) && ArgAt(c.toks, i, ws, Print(b), Close) && White(ws) && c.toks[i].kind == Other
    requires Wf(c.env, b) && StartsSolid(b) && (b[0].Group? ==> !b[0].brace)
    ensures NextPos(c.toks, i) == i + 1 + |ws|
    ensures Contents(c, i + 1 + |ws|, RParen, st).pos == i + 1 + |ws| + |Print(b)| <==> !b[0].Group?
    ensures b[0].Group? ==>
              Contents(c, i + 1 + |ws|, RParen, st)
              == Out(i + 2 + |ws| + |Print(b[0].body)|, WriteItems(c.env, b[0].body, st.Emit([Open])))
  {
    hide Contents, Loop, NextPos, At, WriteItems, Stream, Wf, PrintItem;
    var k := i + 1 + |ws|;
    ArgHead(c, i, ws, b);
    if !b[0].Group? {
      NextArg(c, i, ws, b, Close, st);
    } else {
      var body := b[0].body;
      BodyOf(c.env, b);
      AtSplit(c.toks, k, [Open] + Print(body) + [Close], Print(b[1..]));
      TokenShape(c.toks, k, [Open], Print(body), Close);
      AtOne(c.toks, k, Open);
      ContentsOpens(c, k, RParen, st);
      BodyTo(c, k + 1, body, Close, st.Emit([Open]));
    }
  }

  /** Where the first bare comma of a bracket stands among its items. */
  function FirstComma(its: seq<Item>): (n: nat)
    requires TopLevelComma(its)
    ensures n < |its| && its[n] == Leaf(CommaTok) && !TopLevelComma(its[..n])
  {
    if its[0] == Leaf(CommaTok) then 0
    else
      assert TopLevelComma(its[1..]) by {
        var i :| 0 <= i < |its| && its[i] == Leaf(CommaTok);
        assert its[1..][i - 1] == its[i];
      }
      var n := FirstComma(its[1..]);
      assert its[..n + 1] == [its[0]] + its[1..][..n];
      n + 1
  }

  lemma {:induction false} PrintSplit(its: seq<Item>, n: nat)
    requires n <= |its|
    ensures Print(its) == Print(its[..n]) + Print(its[n..])
    decreases |its|
  {
    hide PrintItem;
    if n > 0 {
      PrintSplit(its[1..], n - 1);
      assert its[1..][..n - 1] == its[..n][1..] && its[1..][n - 1..] == its[n..];
    } else {
      assert its[..0] == [] && its[0..] == its;
    }
  }

  lemma {:induction false} WfTake(env: Env, its: seq<Item>, n: nat)
    requires Wf(env, its) && n <= |its|
    ensures Wf(env, its[..n])
    decreases |its|
  {
    hide PrintItem, WfItem, TextureType;
    if n > 0 {
      WfTake(env, its[1..], n - 1);
      assert its[1..][..n - 1] == its[..n][1..];
      PrintSplit(its[1..], n - 1);
      SigHeadConcat(Print(its[1..][..n - 1]), Print(its[1..][n - 1..]));
    }
  }

  /**
   * Where an argument between two commas ends: on its own comma exactly when it does not open with
   * a bracket holding a bare comma. Otherwise it ends on that comma, inside the bracket.
   */
  lemma {:induction false} MiddleArgumentStops(c: Ctx, i: nat, ws: seq<Token>, b: seq<Item>, st: State)
    requires Stream(c.toks) && ArgAt(c.toks, i, ws, Print(b), CommaTok) && White(ws) && c.toks[i].kind == Other
    requires Wf(c.env, b) && StartsSolid(b) && !TopLevelComma(b) && (b[0].Group? ==> !b[0].brace)
    ensures NextPos(c.toks, i) == i + 1 + |ws|
    ensures Contents(c, i + 1 + |ws|, Comma, st).pos == i + 1 + |ws| + |Print(b)|
            <==> !(b[0].Group? && TopLevelComma(b[0].body))
    ensures b[0].Group? && TopLevelComma(b[0].body) ==>
              var cut := b[0].body[..FirstComma(b[0].body)];
              Contents(c, i + 1 + |ws|, Comma, st)
              == Out(i + 2 + |ws| + |Print(cut)|, WriteItems(c.env, cut, st.Emit([Open])))
  {
    hide Contents, Loop, NextPos, At, WriteItems, Stream, TopLevelComma, Wf, Print, White;
    if !(b[0].Group? && TopLevelComma(b[0].body)) {
      MidArg(c, i, ws, b, st);
    } else {
      ArgHead(c, i, ws, b);
      CutAtComma(c, i + 1 + |ws|, b, st);
    }
  }

  lemma {:induction false} CutAtComma(c: Ctx, k: nat, b: seq<Item>, st: State)
    requires Stream(c.toks) && 0 < k && At(c.toks, k, Print(b)) && Wf(c.env, b) && b != []
    requires b[0].Group? && !b[0].brace && TopLevelComma(b[0].body)
    ensures var cut := b[0].body[..FirstComma(b[0].body)];
            && Contents(c, k, Comma, st) == Out(k + 1 + |Print(cut)|, WriteItems(c.env, cut, st.Emit([Open])))
            && k + 1 + |Print(cut)| < k + |Print(b)|
  {
    hide Contents, Loop, At, WriteItems, Stream, TopLevelComma, Wf;
    var body := b[0].body;
    var n := FirstComma(body);
    var cut := body[..n];
    PrintUpTo(body, n);
    BodyOf(c.env, b);
    WfTake(c.env, body, n);
    assert Print(b) == [Open] + (Print(cut) + ([CommaTok] + Print(body[n + 1..]))) + [Close] + Print(b[1..]);
    var rest := Print(body[n + 1..]) + [Close] + Print(b[1..]);
    Grouping(Open, Print(cut), CommaTok, Print(body[n + 1..]), Close, Print(b[1..]));
    AtSplit(c.toks, k, [Open] + Print(cut) + [CommaTok], rest);
    TokenShape(c.toks, k, [Open], Print(cut), CommaTok);
    AtOne(c.toks, k, Open);
    ContentsOpens(c, k, Comma, st);
    BodyTo(c, k + 1, cut, CommaTok, st.Emit([Open]));
  }

  lemma {:induction false} Grouping(o: Token, x: seq<Token>, m: Token, y: seq<Token>, e: Token, z: seq<Token>)
    ensures [o] + (x + ([m] + y)) + [e] + z == [o] + x + [m] + (y + [e] + z)
  {
  }

  lemma {:induction false} BodyOf(env: Env, b: seq<Item>)
    requires b != [] && Wf(env, b) && b[0].Group? && !b[0].brace
    ensures Wf(env, b[0].body) && Print(b) == [Open] + Print(b[0].body) + [Close] + Print(b[1..])
  {
  }

  lemma {:induction false} PrintUpTo(its: seq<Item>, n: nat)
    requires n < |its| && its[n] == Leaf(CommaTok)
    ensures Print(its) == Print(its[..n]) + ([CommaTok] + Print(its[n + 1..]))
  {
    PrintSplit(its, n);
    assert its[n..][1..] == its[n + 1..];
  }

  /** The tokens of `mul(x, (y) + z)`. */
  function ParenProduct(x: Word, y: Word, z: Word): seq<Token> {
    [Ident(MulName), Open, Ident(x), CommaTok, Open, Ident(y), Close, Punct(Plus), Ident(z), Close]
  }

  function Intended(x: Word, y: Word, z: Word): Expr {
    Call(MulName, [Var(x), Bin(AddOp, Paren(Var(y)), Var(z))])
  }

  /** What the emitted text denotes instead: (x) * ((y)) + z in brackets. */
  function Emitted(x: Word, y: Word, z: Word): Expr {
    Paren(Bin(AddOp, Bin(MulOp, Paren(Var(x)), Paren(Paren(Var(y)))), Var(z)))
  }

  lemma EmittedGrouped(x: Word, y: Word, z: Word)
    ensures IsGlsl(Emitted(x, y, z)) && Grouped(Emitted(x, y, z))
  {
    assert Grouped(Paren(Var(y))) && Grouped(Paren(Paren(Var(y)))) && Grouped(Paren(Var(x)));
    assert IsGlsl(Paren(Var(y))) && IsGlsl(Paren(Paren(Var(y)))) && IsGlsl(Paren(Var(x)));
    var p := Bin(MulOp, Paren(Var(x)), Paren(Paren(Var(y))));
    assert Grouped(p) && IsGlsl(p);
    assert Grouped(Bin(AddOp, p, Var(z))) && IsGlsl(Bin(AddOp, p, Var(z)));
  }

  predicate PlainName(env: Env, w: Word) { w.Spelled? && TypeName(w).None? && !IsTexture(env, w) }

  lemma PlainLeaf(c: Ctx, i: nat, st: State)
    requires Stream(c.toks) && i < |c.toks|
    requires c.toks[i].kind == Name && PlainName(c.env, c.toks[i].word)
    ensures Step(c, i, st) == Out(i, st.Emit([c.toks[i]]))
  {
    hide TypeName;
    LeafStep(c, i, st);
  }

  /** The handler stops on the closer of `(y)` and has already written both closers of the product. */
  lemma {:induction false} MulOnParen(c: Ctx, i: nat, x: Word, y: Word, z: Word, st: State)
    requires Stream(c.toks) && At(c.toks, i, ParenProduct(x, y, z))
    requires PlainName(c.env, x) && PlainName(c.env, y)
    ensures Step(c, i, st)
         == Out(i + 6, st.Emit([Open]).Emit([Open]).Emit([Ident(x)]).Emit(TimesParen).Emit([Open]).Emit([Ident(y)])
                         .Emit(CloseClose))
  {
    hide Contents, Loop, Intrinsic, NameStep, TypeName, TextureType, At, Stream, NextPos;
    Tokens(c.toks, i, x, y, z);
    var st1 := st.Emit([Open]);
    SolidNext(c.toks, i);
    SolidNext(c.toks, i + 3);
    // first argument: "(" x up to the comma
    ContentsOpens(c, i + 1, Comma, st1);
    LoopUnfold(c, i + 1, Comma, st1.Emit([Open]));
    PlainLeaf(c, i + 2, st1.Emit([Open]));
    LoopUnfold(c, i + 2, Comma, st1.Emit([Open]).Emit([Ident(x)]));
    // second argument: its "(" opens nothing, so the next ")" ends it
    var st2 := st1.Emit([Open]).Emit([Ident(x)]).Emit(TimesParen);
    ContentsOpens(c, i + 4, RParen, st2);
    LoopUnfold(c, i + 4, RParen, st2.Emit([Open]));
    PlainLeaf(c, i + 5, st2.Emit([Open]));
    LoopUnfold(c, i + 5, RParen, st2.Emit([Open]).Emit([Ident(y)]));
    IntrinsicHandler(c, i, st);
    StepIntrinsic(c, i, st);
  }

  lemma Tokens(toks: seq<Token>, i: nat, x: Word, y: Word, z: Word)
    requires At(toks, i, ParenProduct(x, y, z))
    ensures i + 10 <= |toks|
    ensures toks[i] == Ident(MulName) && toks[i + 1] == Open && toks[i + 2] == Ident(x) && toks[i + 3] == CommaTok
    ensures toks[i + 4] == Open && toks[i + 5] == Ident(y) && toks[i + 6] == Close && toks[i + 7] == Punct(Plus)
    ensures toks[i + 8] == Ident(z) && toks[i + 9] == Close
  {
    var s := toks[i..i + 10];
    assert s == ParenProduct(x, y, z);
    assert forall k :: 0 <= k < 10 ==> s[k] == toks[i + k];
  }

  lemma SolidNext(toks: seq<Token>, i: nat)
    requires Stream(toks) && i + 1 < |toks|
    requires toks[i].kind != End && !IsWhite(toks[i]) && !IsWhite(toks[i + 1])
    ensures NextPos(toks, i) == i + 1
  {
  }

  /** The loop then copies the rest of the call, so the text that comes out is balanced but wrong. */
  lemma {:induction false} WrongText(c: Ctx, i: nat, x: Word, y: Word, z: Word, st: State) returns (st': State)
    requires Stream(c.toks) && 0 < i && At(c.toks, i, ParenProduct(x, y, z)) && c.toks[i - 1].kind != End
    requires PlainName(c.env, x) && PlainName(c.env, y) && PlainName(c.env, z)
    ensures Loop(c, i - 1, RBrace, st) == Loop(c, i + 9, RBrace, st') && IsGlsl(Emitted(x, y, z))
    ensures Solid(st'.text) == Solid(st.text) + Text(Emitted(x, y, z))
    ensures ParseExpr(1, Text(Emitted(x, y, z))) == Ok(Emitted(x, y, z), [])
  {
    hide Contents, Loop, Step, TypeName, TextureType, At, Stream, Solid, Text, ParseExpr, Emitted, PlainName;
    Tokens(c.toks, i, x, y, z);
    MulOnParen(c, i, x, y, z, st);
    LoopUnfold(c, i - 1, RBrace, st);
    var a := st.Emit([Open]).Emit([Open]).Emit([Ident(x)]).Emit(TimesParen).Emit([Open]).Emit([Ident(y)])
               .Emit(CloseClose);
    st' := a.Emit([Punct(Plus)]).Emit([Ident(z)]).Emit([Close]);
    CopiedRest(c, i, x, y, z, a);
    EmittedGrouped(x, y, z);
    TextOf(x, y, z, st);
    UniqueReading(Emitted(x, y, z));
  }

  lemma {:induction false} CopiedRest(c: Ctx, i: nat, x: Word, y: Word, z: Word, a: State)
    requires Stream(c.toks) && At(c.toks, i, ParenProduct(x, y, z)) && PlainName(c.env, z) && i + 6 < |c.toks|
    ensures i + 9 < |c.toks|
    ensures Loop(c, i + 6, RBrace, a) == Loop(c, i + 9, RBrace, a.Emit([Punct(Plus)]).Emit([Ident(z)]).Emit([Close]))
  {
    hide Contents, Loop, Step, TypeName, TextureType, At, Stream;
    Tokens(c.toks, i, x, y, z);
    LoopUnfold(c, i + 6, RBrace, a);
    PlusStep(c, i + 7, a);
    LoopUnfold(c, i + 7, RBrace, a.Emit([Punct(Plus)]));
    PlainLeaf(c, i + 8, a.Emit([Punct(Plus)]));
    LoopUnfold(c, i + 8, RBrace, a.Emit([Punct(Plus)]).Emit([Ident(z)]));
    CloseStep(c, i + 9, a.Emit([Punct(Plus)]).Emit([Ident(z)]));
  }

  lemma {:induction false} PlusStep(c: Ctx, k: nat, st: State)
    requires Stream(c.toks) && k < |c.toks| && c.toks[k] == Punct(Plus)
    ensures Step(c, k, st) == Out(k, st.Emit([Punct(Plus)]))
  {
    hide NameStep, Contents, Stream;
  }

  lemma TextOf(x: Word, y: Word, z: Word, st: State)
    requires IsGlsl(Emitted(x, y, z))
    ensures Solid(st.Emit([Open]).Emit([Open]).Emit([Ident(x)]).Emit(TimesParen).Emit([Open]).Emit([Ident(y)])
                    .Emit(CloseClose).Emit([Punct(Plus)]).Emit([Ident(z)]).Emit([Close]).text)
         == Solid(st.text) + Text(Emitted(x, y, z))
  {
    hide Solid, Text, Emitted;
    var s1 := st.Emit([Open]).Emit([Open]).Emit([Ident(x)]);
    var s2 := s1.Emit(TimesParen);
    var s3 := s2.Emit([Open]).Emit([Ident(y)]);
    var s4 := s3.Emit(CloseClose);
    ThreeTokens(st, Open, Open, Ident(x));
    GrewEmit(s1, TimesParen);
    SolidSpaced(Punct(RParen), Punct(Star), Punct(LParen));
    TwoTokens(s2, Open, Ident(y));
    GrewEmit(s3, CloseClose);
    SolidFixed(CloseClose);
    ThreeTokens(s4, Punct(Plus), Ident(z), Close);
    EmittedText(x, y, z);
  }

  lemma TwoTokens(st: State, a: Token, b: Token)
    requires !IsWhite(a) && !IsWhite(b)
    ensures Grew(st, st.Emit([a]).Emit([b]), [a, b])
  {
    hide Solid;
    GrewOne(st, a);
    GrewOne(st.Emit([a]), b);
  }

  lemma ThreeTokens(st: State, a: Token, b: Token, c: Token)
    requires !IsWhite(a) && !IsWhite(b) && !IsWhite(c)
    ensures Grew(st, st.Emit([a]).Emit([b]).Emit([c]), [a, b, c])
  {
    hide Solid;
    TwoTokens(st, a, b);
    GrewOne(st.Emit([a]).Emit([b]), c);
  }

  lemma EmittedText(x: Word, y: Word, z: Word)
    requires IsGlsl(Emitted(x, y, z))
    ensures Text(Emitted(x, y, z))
         == [Open, Open, Ident(x), Close, Punct(Star), Open, Open, Ident(y), Close, Close, Punct(Plus), Ident(z), Close]
  {
    assert IsGlsl(Var(x)) && IsGlsl(Var(y)) && IsGlsl(Var(z)) && IsGlsl(Paren(Var(x))) && IsGlsl(Paren(Var(y)));
    assert IsGlsl(Paren(Paren(Var(y))));
    assert Text(Paren(Var(y))) == [Open, Ident(y), Close];
    assert Text(Paren(Paren(Var(y)))) == [Open, Open, Ident(y), Close, Close];
    assert Text(Paren(Var(x))) == [Open, Ident(x), Close];
    var p := Bin(MulOp, Paren(Var(x)), Paren(Paren(Var(y))));
    assert Text(p) == Text(Paren(Var(x))) + [Punct(Star)] + Text(Paren(Paren(Var(y))));
    assert Text(Bin(AddOp, p, Var(z))) == Text(p) + [Punct(Plus)] + [Ident(z)];
    assert Text(Emitted(x, y, z)) == [Open] + Text(Bin(AddOp, p, Var(z))) + [Close];
    hide Text, Emitted;
    Assembled(Ident(x), Ident(y), Ident(z));
  }

  lemma {:induction false} Assembled(x: Token, y: Token, z: Token)
    ensures [Open] + ([Open, x, Close] + [Punct(Star)] + [Open, Open, y, Close, Close] + [Punct(Plus)] + [z]) + [Close]
         == [Open, Open, x, Close, Punct(Star), Open, Open, y, Close, Close, Punct(Plus), z, Close]
  {
  }

  lemma {:induction false} EmittedValue<V>(m: Meaning<V>, x: Word, y: Word, z: Word)
    ensures IsGlsl(Emitted(x, y, z))
    ensures EvalGlsl(m, Emitted(x, y, z)) == m.add(m.glStar(m.value(x), m.value(y)), m.value(z))
  {
    hide TypeName;
    EmittedGrouped(x, y, z);
    var p := Bin(MulOp, Paren(Var(x)), Paren(Paren(Var(y))));
    assert IsGlsl(Var(y)) && IsGlsl(Paren(Var(y))) && IsGlsl(Paren(Paren(Var(y)))) && IsGlsl(Paren(Var(x))) && IsGlsl(p);
    assert EvalGlsl(m, Paren(Var(y))) == m.value(y) && EvalGlsl(m, Paren(Var(x))) == m.value(x);
    assert EvalGlsl(m, Paren(Paren(Var(y)))) == m.value(y);
    assert EvalGlsl(m, p) == m.glStar(m.value(x), m.value(y));
    assert EvalGlsl(m, Bin(AddOp, p, Var(z))) == m.add(m.glStar(m.value(x), m.value(y)), m.value(z));
  }

  lemma {:induction false} IntendedValue<V>(m: Meaning<V>, env: Env, x: Word, y: Word, z: Word)
    ensures EvalSource(m, env, Intended(x, y, z)) == m.linear(m.value(x), m.add(m.value(y), m.value(z)))
  {
    hide TypeName;
    var args := [Var(x), Bin(AddOp, Paren(Var(y)), Var(z))];
    TwoValues(m, env, args);
    assert EvalSource(m, env, Paren(Var(y))) == m.value(y) && EvalSource(m, env, Var(z)) == m.value(z);
    assert EvalSource(m, env, args[1]) == m.add(m.value(y), m.value(z));
  }

  /** The two values over any carrier. */
  lemma {:induction false} WrongValue<V>(m: Meaning<V>, env: Env, x: Word, y: Word, z: Word)
    ensures IsGlsl(Emitted(x, y, z))
    ensures EvalGlsl(m, Emitted(x, y, z)) == m.add(m.glStar(m.value(x), m.value(y)), m.value(z))
    ensures EvalSource(m, env, Intended(x, y, z)) == m.linear(m.value(x), m.add(m.value(y), m.value(z)))
  {
    EmittedValue(m, x, y, z);
    IntendedValue(m, env, x, y, z);
  }

  /** Over the reals, exactly when they happen to agree. */
  lemma {:induction false} WrongUnless(r: Reals, env: Env, x: Word, y: Word, z: Word)
    ensures IsGlsl(Emitted(x, y, z))
    ensures var got: real, wanted: real := EvalGlsl(OfReals(r), Emitted(x, y, z)), EvalSource(OfReals(r), env, Intended(x, y, z));
            got == wanted <==> r.value(x) == 1.0 || r.value(z) == 0.0
  {
    hide EvalGlsl, EvalSource, Emitted, Intended, OfReals;
    WrongValue(OfReals(r), env, x, y, z);
    RealArithmetic(r, x, y, z);
    Spread(r.value(x), r.value(y), r.value(z));
  }

  lemma {:induction false} RealArithmetic(r: Reals, x: Word, y: Word, z: Word)
    ensures var m, a, b, c := OfReals(r), r.value(x), r.value(y), r.value(z);
            && m.add(m.glStar(m.value(x), m.value(y)), m.value(z)) == a * b + c
            && m.linear(m.value(x), m.add(m.value(y), m.value(z))) == a * (b + c)
  {
  }

  lemma Spread(a: real, b: real, c: real)
    ensures a * b + c == a * (b + c) <==> a == 1.0 || c == 0.0
  {
    assert a * (b + c) - (a * b + c) == (a - 1.0) * c;
  }
}

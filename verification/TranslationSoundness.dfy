/**
 * The text emitted for a source expression is the printed translation, and whitespace in the
 * source changes it by whitespace only.
 */
module TranslationSoundness {
  import opened Wrappers
  import opened ShaderTokens
  import opened ShaderExpr
  import opened GlslWriter
  import opened TokenTrees
  import opened WriterCorrectness
  import opened Translation

  // ----- The text

  /** `ts` was appended, whitespace aside. */
  predicate Grew(st: State, st': State, ts: seq<Token>) { Solid(st'.text) == Solid(st.text) + ts }

  lemma GrewEmit(st: State, ts: seq<Token>)
    ensures Grew(st, st.Emit(ts), Solid(ts))
  {
    SolidConcat(st.text, ts);
  }

  lemma GrewOne(st: State, t: Token)
    requires !IsWhite(t)
    ensures Grew(st, st.Emit([t]), [t])
  {
    SolidFixed([t]);
    GrewEmit(st, [t]);
  }

  lemma GrewTwice(a: State, b: State, c: State, x: seq<Token>, y: seq<Token>)
    requires Grew(a, b, x) && Grew(b, c, y)
    ensures Grew(a, c, x + y)
  {
  }

  lemma SolidCons(t: Token, ts: seq<Token>)
    ensures Solid([t] + ts) == (if IsWhite(t) then [] else [t]) + Solid(ts)
  {
    assert ([t] + ts)[1..] == ts;
  }

  /** A piece of five tokens with two blanks, as in ") * (". */
  lemma SolidSpaced(a: Token, b: Token, c: Token)
    requires !IsWhite(a) && !IsWhite(b) && !IsWhite(c)
    ensures Solid([a, Blank, b, Blank, c]) == [a, b, c]
  {
    SolidCons(c, []);
    SolidCons(Blank, [c]);
    SolidCons(b, [Blank, c]);
    SolidCons(Blank, [b, Blank, c]);
    SolidCons(a, [Blank, b, Blank, c]);
    assert [a, Blank, b, Blank, c] == [a] + ([Blank] + ([b] + ([Blank] + ([c] + []))));
  }

  lemma SolidClamp()
    ensures Solid(ClampTail) == [Punct(Comma), Token(Num, Zero.w), Punct(Comma), Token(Num, One.w), Punct(RParen)]
  {
    var x := [Punct(Comma), Blank, Token(Num, Zero.w)];
    var y := [Punct(Comma), Blank, Token(Num, One.w)];
    SolidComma(Token(Num, Zero.w));
    SolidComma(Token(Num, One.w));
    SolidCons(Punct(RParen), []);
    SolidConcat(x, y + [Punct(RParen)]);
    SolidConcat(y, [Punct(RParen)]);
    assert ClampTail == x + (y + [Punct(RParen)]);
    assert [Punct(RParen)] + [] == [Punct(RParen)];
  }

  lemma SolidComma(t: Token)
    requires !IsWhite(t)
    ensures Solid([Punct(Comma), Blank, t]) == [Punct(Comma), t]
  {
    SolidCons(t, []);
    SolidCons(Blank, [t]);
    SolidCons(Punct(Comma), [Blank, t]);
    assert [Punct(Comma), Blank, t] == [Punct(Comma)] + ([Blank] + ([t] + []));
  }

  lemma SolidSampleHead(call: string, tex: Word)
    ensures Solid(SampleHead(call, tex)) == [Ident(Spelled(call)), Punct(LParen), Ident(tex), Punct(Comma)]
  {
    var x := [Ident(Spelled(call)), Punct(LParen), Ident(tex), Punct(Comma)];
    SolidFixed(x);
    SolidCons(Blank, []);
    SolidConcat(x, [Blank]);
    assert SampleHead(call, tex) == x + [Blank];
    assert [Blank] + [] == [Blank];
  }

  // ----- Writing a flattened expression appends its translation

  lemma {:induction false} WriteExpr(env: Env, e: Expr, st: State)
    requires Source(env, e)
    ensures Grew(st, WriteItems(env, Flatten(e), st), Text(Translate(env, e)))
    decreases e, 2
  {
    hide TypeName, TextureType, Grew, WriteItems, Text, Flatten, Translate;
    match e
    case Literal(_) => WriteAtom(env, e, st);
    case Var(_) => WriteAtom(env, e, st);
    case Paren(_) => WriteParen(env, e, st);
    case Neg(_) => WriteNeg(env, e, st);
    case Bin(_, _, _) => WriteBin(env, e, st);
    case Member(_, _) => WriteMember(env, e, st);
    case Call(_, _) => WriteCall(env, e, st);
    case Sample(_, _, _, _) => WriteSample(env, e, st);
  }

  lemma {:induction false} WriteAtom(env: Env, e: Expr, st: State)
    requires (e.Literal? || e.Var?) && Source(env, e)
    ensures Grew(st, WriteItems(env, Flatten(e), st), Text(Translate(env, e)))
  {
    hide TypeName, TextureType, Solid;
    match e
    case Literal(w) => WriteLeaf(env, Token(Num, w), st);
    case Var(name) => WriteLeaf(env, Ident(name), st);
  }

  lemma {:induction false} WriteNeg(env: Env, e: Expr, st: State)
    requires e.Neg? && Source(env, e)
    ensures Grew(st, WriteItems(env, Flatten(e), st), Text(Translate(env, e)))
    decreases e, 1
  {
    hide TypeName, TextureType, Solid;
    var st1 := WriteItems(env, [Leaf(Punct(Minus))], st);
    WriteLeaf(env, Punct(Minus), st);
    WriteConcat(env, [Leaf(Punct(Minus))], Flatten(e.e), st);
    WriteExpr(env, e.e, st1);
  }

  lemma WriteLeaf(env: Env, t: Token, st: State)
    requires !IsWhite(t)
    ensures Grew(st, WriteItems(env, [Leaf(t)], st), [Token(t.kind, if t.kind == Name then GlWord(t.word) else t.word)])
  {
    hide TypeName;
    assert WriteItems(env, [Leaf(t)], st) == WriteItem(env, Leaf(t), st);
    GrewOne(st, LeafText(t));
  }

  lemma {:induction false} WriteParen(env: Env, e: Expr, st: State)
    requires e.Paren? && Source(env, e)
    ensures Grew(st, WriteItems(env, Flatten(e), st), Text(Translate(env, e)))
    decreases e, 1
  {
    hide TypeName, TextureType, Solid;
    var st1 := st.Emit([Open]);
    var st2 := WriteItems(env, Flatten(e.e), st1);
    assert WriteItems(env, Flatten(e), st) == WriteItem(env, Group(false, Flatten(e.e)), st);
    GrewOne(st, Open);
    WriteExpr(env, e.e, st1);
    GrewOne(st2, Close);
  }

  lemma {:induction false} WriteBin(env: Env, e: Expr, st: State)
    requires e.Bin? && Source(env, e)
    ensures Grew(st, WriteItems(env, Flatten(e), st), Text(Translate(env, e)))
    decreases e, 1
  {
    hide TypeName, TextureType, Solid;
    var mid := [Leaf(Punct(OpWord(e.op)))];
    var st1 := WriteItems(env, Flatten(e.l), st);
    var st2 := WriteItems(env, mid, st1);
    WriteConcat(env, Flatten(e.l) + mid, Flatten(e.r), st);
    WriteConcat(env, Flatten(e.l), mid, st);
    WriteExpr(env, e.l, st);
    WriteLeaf(env, Punct(OpWord(e.op)), st1);
    WriteExpr(env, e.r, st2);
  }

  lemma {:induction false} WriteMember(env: Env, e: Expr, st: State)
    requires e.Member? && Source(env, e)
    ensures Grew(st, WriteItems(env, Flatten(e), st), Text(Translate(env, e)))
    decreases e, 1
  {
    hide TypeName, TextureType, Solid;
    var st1 := WriteItems(env, Flatten(e.e), st);
    var st2 := WriteItems(env, [Leaf(DotTok)], st1);
    var tail := [Leaf(DotTok)] + [Leaf(Ident(e.field))];
    assert tail == [Leaf(DotTok), Leaf(Ident(e.field))];
    WriteConcat(env, Flatten(e.e), tail, st);
    WriteConcat(env, [Leaf(DotTok)], [Leaf(Ident(e.field))], st1);
    WriteExpr(env, e.e, st);
    WriteLeaf(env, DotTok, st1);
    WriteLeaf(env, Ident(e.field), st2);
  }

  lemma {:induction false} WriteCall(env: Env, e: Expr, st: State)
    requires e.Call? && Source(env, e)
    ensures Grew(st, WriteItems(env, Flatten(e), st), Text(Translate(env, e)))
    decreases e, 1
  {
    hide TypeName, TextureType, Grew, WriteItems, Text, Flatten, Translate, FreeName;
    if e.f == MulName && |e.args| == 2 {
      WriteMul(env, e, st);
    } else if e.f == MadName && |e.args| == 3 {
      WriteMad(env, e, st);
    } else if e.f == SaturateName && |e.args| == 1 {
      WriteSaturate(env, e, st);
    } else {
      WritePlainCall(env, e, st);
    }
  }

  lemma {:induction false} WriteMul(env: Env, e: Expr, st: State)
    requires e.Call? && e.f == MulName && |e.args| == 2 && Source(env, e)
    ensures Grew(st, WriteItems(env, Flatten(e), st), Text(Translate(env, e)))
    decreases e, 0
  {
    hide TypeName, TextureType, Solid, Grew, WriteItems, Text, Flatten, Product, FreeName;
    var a, b := e.args[0], e.args[1];
    var x, y := Translate(env, a), Translate(env, b);
    var st2 := st.Emit([Open]).Emit([Open]);
    var st3 := WriteItems(env, Flatten(a), st2);
    var st5 := WriteItems(env, Flatten(b), st3.Emit(TimesParen));
    MulWritten(env, e, st);
    WriteExpr(env, a, st2);
    WriteExpr(env, b, st3.Emit(TimesParen));
    Opened(st, st3, Text(x));
    SolidSpaced(Punct(RParen), Punct(Star), Punct(LParen));
    Bridged(st, st3, st5, TimesParen, Open2(Text(x)), Text(y));
    Closed(st, st5, CloseClose, Open2(Text(x)) + Solid(TimesParen) + Text(y));
    SolidFixed(CloseClose);
    ProductText(x, y);
  }

  lemma MulWritten(env: Env, e: Expr, st: State)
    requires e.Call? && e.f == MulName && |e.args| == 2
    ensures var st3 := WriteItems(env, Flatten(e.args[0]), st.Emit([Open]).Emit([Open]));
            WriteItems(env, Flatten(e), st) == WriteItems(env, Flatten(e.args[1]), st3.Emit(TimesParen)).Emit(CloseClose)
  {
    var its := Flatten(e);
    assert its == [MulCall([], Flatten(e.args[0]), [], Flatten(e.args[1]))];
    assert WriteItems(env, its, st) == WriteItem(env, its[0], st);
  }

  // Text steps, kept apart so that each concatenation is reassociated once.

  function Open2(ts: seq<Token>): seq<Token> { [Open] + [Open] + ts }

  lemma Opened(st: State, st3: State, ts: seq<Token>)
    requires Grew(st.Emit([Open]).Emit([Open]), st3, ts)
    ensures Grew(st, st3, Open2(ts))
  {
    hide Solid;
    GrewOne(st, Open);
    GrewOne(st.Emit([Open]), Open);
  }

  lemma Bridged(st: State, st3: State, st5: State, piece: seq<Token>, x: seq<Token>, y: seq<Token>)
    requires Grew(st, st3, x) && Grew(st3.Emit(piece), st5, y)
    ensures Grew(st, st5, x + Solid(piece) + y)
  {
    hide Solid;
    GrewEmit(st3, piece);
  }

  lemma Closed(st: State, st5: State, piece: seq<Token>, x: seq<Token>)
    requires Grew(st, st5, x)
    ensures Grew(st, st5.Emit(piece), x + Solid(piece))
  {
    hide Solid;
    GrewEmit(st5, piece);
  }

  lemma ProductText(x: Expr, y: Expr)
    requires IsGlsl(x) && IsGlsl(y)
    ensures Text(Paren(Product(x, y)))
         == Open2(Text(x)) + [Punct(RParen), Punct(Star), Punct(LParen)] + Text(y) + CloseClose
    ensures Text(Product(x, y)) == [Open] + Text(x) + [Punct(RParen), Punct(Star), Punct(LParen)] + Text(y) + [Close]
  {
    var t := [Open] + Text(x) + [Close] + [Punct(Star)] + ([Open] + Text(y) + [Close]);
    assert Text(Product(x, y)) == Text(Paren(x)) + [Punct(Star)] + Text(Paren(y)) == t;
    assert Text(Paren(Product(x, y))) == [Open] + t + [Close];
    ProductTokens(Text(x), Text(y));
  }

  lemma ProductTokens(x: seq<Token>, y: seq<Token>)
    ensures var t := [Open] + x + [Close] + [Punct(Star)] + ([Open] + y + [Close]);
            && t == [Open] + x + [Punct(RParen), Punct(Star), Punct(LParen)] + y + [Close]
            && [Open] + t + [Close] == Open2(x) + [Punct(RParen), Punct(Star), Punct(LParen)] + y + CloseClose
  {
  }

  lemma {:induction false} WriteMad(env: Env, e: Expr, st: State)
    requires e.Call? && e.f == MadName && |e.args| == 3 && Source(env, e)
    ensures Grew(st, WriteItems(env, Flatten(e), st), Text(Translate(env, e)))
    decreases e, 0
  {
    hide TypeName, TextureType, Solid, Grew, WriteItems, Text, Flatten, SumOfProduct, FreeName;
    var a, b, c := e.args[0], e.args[1], e.args[2];
    var x, y, z := Translate(env, a), Translate(env, b), Translate(env, c);
    var st2 := st.Emit([Open]).Emit([Open]);
    var st3 := WriteItems(env, Flatten(a), st2);
    var st5 := WriteItems(env, Flatten(b), st3.Emit(TimesParen));
    var st7 := WriteItems(env, Flatten(c), st5.Emit(PlusParen));
    MadWritten(env, e, st);
    WriteExpr(env, a, st2);
    WriteExpr(env, b, st3.Emit(TimesParen));
    WriteExpr(env, c, st5.Emit(PlusParen));
    Opened(st, st3, Text(x));
    SolidSpaced(Punct(RParen), Punct(Star), Punct(LParen));
    Bridged(st, st3, st5, TimesParen, Open2(Text(x)), Text(y));
    SolidSpaced(Punct(RParen), Punct(Plus), Punct(LParen));
    var upToB := Open2(Text(x)) + Solid(TimesParen) + Text(y);
    Bridged(st, st5, st7, PlusParen, upToB, Text(z));
    Closed(st, st7, CloseClose, upToB + Solid(PlusParen) + Text(z));
    SolidFixed(CloseClose);
    SumText(x, y, z);
  }

  lemma MadWritten(env: Env, e: Expr, st: State)
    requires e.Call? && e.f == MadName && |e.args| == 3
    ensures var st3 := WriteItems(env, Flatten(e.args[0]), st.Emit([Open]).Emit([Open]));
            var st5 := WriteItems(env, Flatten(e.args[1]), st3.Emit(TimesParen));
            WriteItems(env, Flatten(e), st) == WriteItems(env, Flatten(e.args[2]), st5.Emit(PlusParen)).Emit(CloseClose)
  {
    var its := Flatten(e);
    assert its == [MadCall([], Flatten(e.args[0]), [], Flatten(e.args[1]), [], Flatten(e.args[2]))];
    assert WriteItems(env, its, st) == WriteItem(env, its[0], st);
  }

  lemma SumText(x: Expr, y: Expr, z: Expr)
    requires IsGlsl(x) && IsGlsl(y) && IsGlsl(z)
    ensures Text(Paren(SumOfProduct(x, y, z)))
         == Open2(Text(x)) + [Punct(RParen), Punct(Star), Punct(LParen)] + Text(y)
            + [Punct(RParen), Punct(Plus), Punct(LParen)] + Text(z) + CloseClose
  {
    var t := Text(Product(x, y));
    assert Text(SumOfProduct(x, y, z)) == t + [Punct(Plus)] + Text(Paren(z));
    assert Text(Paren(SumOfProduct(x, y, z))) == [Open] + (t + [Punct(Plus)] + ([Open] + Text(z) + [Close])) + [Close];
    ProductText(x, y);
    SumTokens(Text(x), Text(y), Text(z));
  }

  lemma SumTokens(x: seq<Token>, y: seq<Token>, z: seq<Token>)
    ensures var t := [Open] + x + [Punct(RParen), Punct(Star), Punct(LParen)] + y + [Close];
            [Open] + (t + [Punct(Plus)] + ([Open] + z + [Close])) + [Close]
            == Open2(x) + [Punct(RParen), Punct(Star), Punct(LParen)] + y
               + [Punct(RParen), Punct(Plus), Punct(LParen)] + z + CloseClose
  {
  }

  lemma {:induction false} WriteSaturate(env: Env, e: Expr, st: State)
    requires e.Call? && e.f == SaturateName && |e.args| == 1 && Source(env, e)
    ensures Grew(st, WriteItems(env, Flatten(e), st), Text(Translate(env, e)))
    decreases e, 0
  {
    hide TypeName, TextureType, Solid, Grew, WriteItems, Text, Flatten, FreeName;
    var a := e.args[0];
    var st2 := st.Emit([Ident(ClampName)]).Emit([Open]);
    var st3 := WriteItems(env, Flatten(a), st2);
    SaturateWritten(env, e, st);
    GrewOne(st, Ident(ClampName));
    GrewOne(st.Emit([Ident(ClampName)]), Open);
    GrewTwice(st, st.Emit([Ident(ClampName)]), st2, [Ident(ClampName)], [Open]);
    WriteExpr(env, a, st2);
    GrewTwice(st, st2, st3, [Ident(ClampName)] + [Open], Text(Translate(env, a)));
    Closed(st, st3, ClampTail, [Ident(ClampName)] + [Open] + Text(Translate(env, a)));
    SolidClamp();
    ClampText(Translate(env, a));
  }

  lemma SaturateWritten(env: Env, e: Expr, st: State)
    requires e.Call? && e.f == SaturateName && |e.args| == 1
    ensures var st3 := WriteItems(env, Flatten(e.args[0]), st.Emit([Ident(ClampName)]).Emit([Open]));
            WriteItems(env, Flatten(e), st) == st3.Emit(ClampTail)
  {
    var its := Flatten(e);
    assert its == [SaturateCall([], Flatten(e.args[0]))];
    assert WriteItems(env, its, st) == WriteItem(env, its[0], st);
  }

  lemma ClampText(x: Expr)
    requires IsGlsl(x)
    ensures Text(Call(ClampName, [x, Zero, One]))
         == [Ident(ClampName)] + [Open] + Text(x)
            + [Punct(Comma), Token(Num, Zero.w), Punct(Comma), Token(Num, One.w), Punct(RParen)]
  {
    var args := [x, Zero, One];
    assert args[1..] == [Zero, One] && args[1..][1..] == [One];
    assert ArgsText([One]) == [Token(Num, One.w)];
    assert ArgsText([Zero, One]) == [Token(Num, Zero.w), Punct(Comma), Token(Num, One.w)];
  }

  lemma {:induction false} WritePlainCall(env: Env, e: Expr, st: State)
    requires e.Call? && Source(env, e) && FreeName(env, e.f)
    ensures Grew(st, WriteItems(env, Flatten(e), st), Text(Translate(env, e)))
    decreases e, 0
  {
    hide TypeName, TextureType, Solid;
    var items := FlattenArgs(e.args);
    var st1 := WriteItems(env, [Leaf(Ident(e.f))], st);
    var st2 := st1.Emit([Open]);
    var st3 := WriteItems(env, items, st2);
    assert Flatten(e) == [Leaf(Ident(e.f))] + [Group(false, items)];
    WriteConcat(env, [Leaf(Ident(e.f))], [Group(false, items)], st);
    assert WriteItems(env, [Group(false, items)], st1) == WriteItem(env, Group(false, items), st1);
    WriteLeaf(env, Ident(e.f), st);
    GrewOne(st1, Open);
    WriteArgs(env, e.args, st2);
    GrewOne(st3, Close);
    assert Text(Translate(env, e))
        == [Ident(GlWord(e.f))] + [Open] + ArgsText(TranslateArgs(env, e.args)) + [Close];
  }

  lemma {:induction false} WriteArgs(env: Env, args: seq<Expr>, st: State)
    requires forall i :: 0 <= i < |args| ==> Source(env, args[i])
    ensures Grew(st, WriteItems(env, FlattenArgs(args), st), ArgsText(TranslateArgs(env, args)))
    decreases args, 3
  {
    hide TypeName, TextureType, Solid, Source, Flatten, Translate, Text;
    if args == [] {
    } else {
      var rest := args[1..];
      WriteExpr(env, args[0], st);
      var st1 := WriteItems(env, Flatten(args[0]), st);
      assert TranslateArgs(env, args)[1..] == TranslateArgs(env, rest);
      if |args| > 1 {
        var st2 := WriteItems(env, [Leaf(CommaTok)], st1);
        WriteConcat(env, Flatten(args[0]) + [Leaf(CommaTok)], FlattenArgs(rest), st);
        WriteConcat(env, Flatten(args[0]), [Leaf(CommaTok)], st);
        WriteLeaf(env, CommaTok, st1);
        WriteArgs(env, rest, st2);
      }
    }
  }

  lemma {:induction false} WriteSample(env: Env, e: Expr, st: State)
    requires e.Sample? && Source(env, e)
    ensures Grew(st, WriteItems(env, Flatten(e), st), Text(Translate(env, e)))
    decreases e, 1
  {
    hide TypeName, Renamed, TextureType, Solid, Grew, FindSampler, SampleCall, WriteItems, Text, Flatten, FlattenArgs,
         ArgsText, TranslateArgs;
    var call := SampleCall(e.texMethod, TextureType(env, e.tex)).value;
    var st1 := SamplingStart(env, e.tex, e.texMethod, ToSamplerArg(e.sampler), st);
    var st2 := WriteItems(env, FlattenArgs(e.args), st1);
    var args := TranslateArgs(env, e.args);
    SampleWritten(env, e, st);
    SampleStarted(env, e, st);
    WriteArgs(env, e.args, st1);
    GrewTwice(st, st1, st2, Solid(SampleHead(call, e.tex)), ArgsText(args));
    SolidSampleHead(call, e.tex);
    SolidFixed([Close]);
    Closed(st, st2, [Close], Solid(SampleHead(call, e.tex)) + ArgsText(args));
    SampleText(Spelled(call), e.tex, args);
  }

  lemma SampleStarted(env: Env, e: Expr, st: State)
    requires e.Sample? && SampleCall(e.texMethod, TextureType(env, e.tex)).Some?
    ensures var call := SampleCall(e.texMethod, TextureType(env, e.tex)).value;
            Grew(st, SamplingStart(env, e.tex, e.texMethod, ToSamplerArg(e.sampler), st), Solid(SampleHead(call, e.tex)))
  {
    hide TextureType, FindSampler, SampleCall;
    GrewEmit(st, SampleHead(SampleCall(e.texMethod, TextureType(env, e.tex)).value, e.tex));
  }

  lemma SampleWritten(env: Env, e: Expr, st: State)
    requires e.Sample?
    ensures var st1 := SamplingStart(env, e.tex, e.texMethod, ToSamplerArg(e.sampler), st);
            WriteItems(env, Flatten(e), st) == WriteItems(env, FlattenArgs(e.args), st1).Emit([Close])
  {
    hide TextureType, FindSampler, SamplingStart;
    var its := Flatten(e);
    assert WriteItems(env, its, st) == WriteItem(env, its[0], st);
  }

  lemma SampleText(f: Word, tex: Word, args: seq<Expr>)
    requires args != [] && forall i :: 0 <= i < |args| ==> IsGlsl(args[i])
    ensures Text(Call(f, [Var(tex)] + args))
         == [Ident(f), Punct(LParen), Ident(tex), Punct(Comma)] + ArgsText(args) + [Close]
  {
    var all := [Var(tex)] + args;
    assert all[0] == Var(tex) && all[1..] == args && Text(Var(tex)) == [Ident(tex)];
    assert ArgsText(all) == [Ident(tex)] + [Punct(Comma)] + ArgsText(args);
    assert Text(Call(f, all)) == [Ident(f), Punct(LParen)] + ArgsText(all) + [Close];
    HeadJoins(Ident(f), Ident(tex), ArgsText(args));
  }

  lemma HeadJoins(f: Token, tex: Token, args: seq<Token>)
    ensures [f, Punct(LParen)] + ([tex] + [Punct(Comma)] + args) + [Close]
         == [f, Punct(LParen), tex, Punct(Comma)] + args + [Close]
  {
  }

  // ----- Whitespace

  function Strip(its: seq<Item>): seq<Item>
    decreases its, 0
  {
    if its == [] then []
    else if its[0].Leaf? && IsWhite(its[0].t) then Strip(its[1..])
    else [StripItem(its[0])] + Strip(its[1..])
  }

  /** The same item with no whitespace anywhere inside. */
  function StripItem(it: Item): Item
    decreases it, 1
  {
    match it
    case Leaf(_) => it
    case Group(brace, body) => Group(brace, Strip(body))
    case MulCall(_, a, _, b) => MulCall([], Strip(a), [], Strip(b))
    case MadCall(_, a, _, b, _, c) => MadCall([], Strip(a), [], Strip(b), [], Strip(c))
    case SaturateCall(_, a) => SaturateCall([], Strip(a))
    case SinCosCall(_, a, _, b, _, c) => SinCosCall([], Strip(a), [], Strip(b), [], Strip(c))
    case Sampling(tex, _, _, m, _, s, _, args) =>
      var s' := if s.None? then None else Some(SamplerArg([], s.value.name, []));
      Sampling(tex, [], [], m, [], s', [], Strip(args))
  }

  /** Equal but for whitespace in the text. */
  predicate Same(s: State, t: State) {
    Solid(s.text) == Solid(t.text) && s.counter == t.counter && s.samplerOf == t.samplerOf
  }

  lemma SameEmit(s: State, t: State, ts: seq<Token>)
    requires Same(s, t)
    ensures Same(s.Emit(ts), t.Emit(ts))
  {
    SolidConcat(s.text, ts);
    SolidConcat(t.text, ts);
  }

  /** Whitespace in the source never changes what is written, other than by whitespace. */
  lemma {:induction false} WhitespaceIrrelevant(env: Env, its: seq<Item>, s: State, t: State)
    requires Same(s, t)
    ensures Same(WriteItems(env, its, s), WriteItems(env, Strip(its), t))
    decreases its, 1
  {
    hide WriteItem, StripItem, Same;
    if its == [] {
    } else if its[0].Leaf? && IsWhite(its[0].t) {
      WhiteLeaf(env, its[0], s, t);
      WhitespaceIrrelevant(env, its[1..], WriteItem(env, its[0], s), t);
    } else {
      var it := its[0];
      ItemIrrelevant(env, it, s, t);
      assert Strip(its)[0] == StripItem(it) && Strip(its)[1..] == Strip(its[1..]);
      WhitespaceIrrelevant(env, its[1..], WriteItem(env, it, s), WriteItem(env, StripItem(it), t));
    }
  }

  lemma WhiteLeaf(env: Env, it: Item, s: State, t: State)
    requires it.Leaf? && IsWhite(it.t) && Same(s, t)
    ensures Same(WriteItem(env, it, s), t)
  {
    SolidConcat(s.text, [it.t]);
    SolidCons(it.t, []);
    assert [it.t] + [] == [it.t];
  }

  lemma {:induction false} ItemIrrelevant(env: Env, it: Item, s: State, t: State)
    requires Same(s, t)
    ensures Same(WriteItem(env, it, s), WriteItem(env, StripItem(it), t))
    decreases it, 2
  {
    hide Same, TypeName, Strip, WriteItems;
    match it
    case Leaf(tok) => SameEmit(s, t, [LeafText(tok)]);
    case Group(brace, body) =>
      SameEmit(s, t, [OpenOf(brace)]);
      WhitespaceIrrelevant(env, body, s.Emit([OpenOf(brace)]), t.Emit([OpenOf(brace)]));
      SameEmit(WriteItems(env, body, s.Emit([OpenOf(brace)])), WriteItems(env, Strip(body), t.Emit([OpenOf(brace)])),
               [CloseOf(brace)]);
    case MulCall(_, a, _, b) =>
      var s1, t1 := SameOpen(env, a, s, t);
      Piece(env, TimesParen, b, CloseClose, s1, t1);
    case MadCall(_, a, _, b, _, c) =>
      var s1, t1 := SameOpen(env, a, s, t);
      Piece(env, TimesParen, b, PlusParen, s1, t1);
      var s2 := WriteItems(env, b, s1.Emit(TimesParen)).Emit(PlusParen);
      var t2 := WriteItems(env, Strip(b), t1.Emit(TimesParen)).Emit(PlusParen);
      WhitespaceIrrelevant(env, c, s2, t2);
      SameEmit(WriteItems(env, c, s2), WriteItems(env, Strip(c), t2), CloseClose);
    case SaturateCall(_, a) =>
      SameEmit(s, t, [Ident(ClampName)]);
      Piece(env, [Open], a, ClampTail, s.Emit([Ident(ClampName)]), t.Emit([Ident(ClampName)]));
    case SinCosCall(_, a, _, b, _, c) => SinCosIrrelevant(env, it, s, t);
    case Sampling(tex, _, _, m, _, sm, _, args) =>
      var s1 := SamplingStart(env, tex, m, sm, s);
      var t1 := SamplingStart(env, tex, m, StripItem(it).sampler, t);
      StartIrrelevant(env, it, s, t);
      WhitespaceIrrelevant(env, args, s1, t1);
      SameEmit(WriteItems(env, args, s1), WriteItems(env, Strip(args), t1), [Close]);
  }

  lemma {:induction false} SameOpen(env: Env, a: seq<Item>, s: State, t: State) returns (s1: State, t1: State)
    requires Same(s, t)
    ensures s1 == WriteItems(env, a, s.Emit([Open]).Emit([Open]))
    ensures t1 == WriteItems(env, Strip(a), t.Emit([Open]).Emit([Open]))
    ensures Same(s1, t1)
    decreases a, 2
  {
    hide Same;
    SameEmit(s, t, [Open]);
    SameEmit(s.Emit([Open]), t.Emit([Open]), [Open]);
    WhitespaceIrrelevant(env, a, s.Emit([Open]).Emit([Open]), t.Emit([Open]).Emit([Open]));
    s1 := WriteItems(env, a, s.Emit([Open]).Emit([Open]));
    t1 := WriteItems(env, Strip(a), t.Emit([Open]).Emit([Open]));
  }

  /** A fixed piece, a tree, another fixed piece. */
  lemma {:induction false} Piece(env: Env, x: seq<Token>, b: seq<Item>, y: seq<Token>, s: State, t: State)
    requires Same(s, t)
    ensures Same(WriteItems(env, b, s.Emit(x)).Emit(y), WriteItems(env, Strip(b), t.Emit(x)).Emit(y))
    decreases b, 2
  {
    hide Same;
    SameEmit(s, t, x);
    WhitespaceIrrelevant(env, b, s.Emit(x), t.Emit(x));
    SameEmit(WriteItems(env, b, s.Emit(x)), WriteItems(env, Strip(b), t.Emit(x)), y);
  }

  lemma {:induction false} SinCosIrrelevant(env: Env, it: Item, s: State, t: State)
    requires it.SinCosCall? && Same(s, t)
    ensures Same(WriteSinCos(env, it, s), WriteSinCos(env, StripItem(it), t))
    decreases it, 1
  {
    hide Strip, WriteItems, Solid;
    var n := s.counter;
    var s0, t0 := s.(counter := n + 1), t.(counter := n + 1);
    SameEmit(s0, t0, SinCosHead(n));
    Piece(env, [Open], it.a, [Close] + StatementBreak, s0.Emit(SinCosHead(n)), t0.Emit(SinCosHead(n)));
    var s1 := WriteItems(env, it.a, s0.Emit(SinCosHead(n)).Emit([Open])).Emit([Close] + StatementBreak);
    var t1 := WriteItems(env, Strip(it.a), t0.Emit(SinCosHead(n)).Emit([Open])).Emit([Close] + StatementBreak);
    WhitespaceIrrelevant(env, it.b, s1, t1);
    var s2, t2 := WriteItems(env, it.b, s1), WriteItems(env, Strip(it.b), t1);
    Piece(env, SinCosAssign("sin", n) + StatementBreak, it.c, SinCosAssign("cos", n), s2, t2);
  }

  lemma StartIrrelevant(env: Env, it: Item, s: State, t: State)
    requires it.Sampling? && Same(s, t)
    ensures Same(SamplingStart(env, it.tex, it.texMethod, it.sampler, s),
                 SamplingStart(env, it.tex, it.texMethod, StripItem(it).sampler, t))
  {
    hide Strip, Solid, TextureType, FindSampler;
    var call := SampleCall(it.texMethod, TextureType(env, it.tex));
    var id := if it.sampler.None? then None else FindSampler(env.samplers, it.sampler.value.name);
    if call.Some? {
      SameEmit(BindSampler(s, it.tex, id), BindSampler(t, it.tex, id), SampleHead(call.value, it.tex));
    }
  }
}

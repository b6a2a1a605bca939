/**
 * Source expressions: the token tree each prints as, which of them the writer handles, and the
 * GLSL expression each is translated to.
 */
module Translation {
  import opened Wrappers
  import opened ShaderTokens
  import opened ShaderExpr
  import opened GlslWriter
  import opened TokenTrees
  import opened WriterCorrectness

  // ----- Source expressions as token trees

  function ToSamplerArg(s: Sampler): Option<SamplerArg> {
    match s case NoSampler => None case Named(n) => Some(SamplerArg([], n, []))
  }

  /** The token tree of a source expression, without whitespace. */
  function Flatten(e: Expr): (its: seq<Item>)
    ensures |its| > 0
    decreases e, 1
  {
    match e
    case Literal(w) => [Leaf(Token(Num, w))]
    case Var(name) => [Leaf(Ident(name))]
    case Paren(x) => [Group(false, Flatten(x))]
    case Neg(x) => [Leaf(Punct(Minus))] + Flatten(x)
    case Bin(op, l, r) => Flatten(l) + [Leaf(Punct(OpWord(op)))] + Flatten(r)
    case Member(x, field) => Flatten(x) + [Leaf(DotTok), Leaf(Ident(field))]
    case Call(f, args) =>
      if f == MulName && |args| == 2 then [MulCall([], Flatten(args[0]), [], Flatten(args[1]))]
      else if f == MadName && |args| == 3 then
        [MadCall([], Flatten(args[0]), [], Flatten(args[1]), [], Flatten(args[2]))]
      else if f == SaturateName && |args| == 1 then [SaturateCall([], Flatten(args[0]))]
      else [Leaf(Ident(f)), Group(false, FlattenArgs(args))]
    case Sample(tex, m, s, args) => [Sampling(tex, [], [], m, [], ToSamplerArg(s), [], FlattenArgs(args))]
  }

  function FlattenArgs(args: seq<Expr>): seq<Item>
    decreases args, 0
  {
    if args == [] then []
    else if |args| == 1 then Flatten(args[0])
    else Flatten(args[0]) + [Leaf(CommaTok)] + FlattenArgs(args[1..])
  }

  // ----- The GLSL expression

  function GlWord(w: Word): Word {
    if TypeName(w).Some? then Spelled(TypeName(w).value)
    else if Renamed(w).Some? then Renamed(w).value
    else w
  }

  const Zero := Literal(Spelled("0.0"))
  const One := Literal(Spelled("1.0"))

  function SamplingFunction(env: Env, tex: Word, m: Word): Word {
    var call := SampleCall(m, TextureType(env, tex));
    if call.Some? then Spelled(call.value) else m
  }

  function Product(x: Expr, y: Expr): (g: Expr)
    requires IsGlsl(x) && IsGlsl(y)
    ensures IsGlsl(g) && Prec(g) == 2
  {
    Bin(MulOp, Paren(x), Paren(y))
  }

  function SumOfProduct(x: Expr, y: Expr, z: Expr): (g: Expr)
    requires IsGlsl(x) && IsGlsl(y) && IsGlsl(z)
    ensures IsGlsl(g) && Prec(g) == 1
  {
    Bin(AddOp, Product(x, y), Paren(z))
  }

  function Translate(env: Env, e: Expr): (g: Expr)
    ensures IsGlsl(g) && Prec(g) == Prec(e)
    decreases e, 1
  {
    match e
    case Literal(_) => e
    case Var(name) => Var(GlWord(name))
    case Paren(x) => Paren(Translate(env, x))
    case Neg(x) => Neg(Translate(env, x))
    case Bin(op, l, r) => Bin(op, Translate(env, l), Translate(env, r))
    case Member(x, field) => Member(Translate(env, x), GlWord(field))
    case Call(f, args) =>
      if f == MulName && |args| == 2 then
        Paren(Product(Translate(env, args[0]), Translate(env, args[1])))
      else if f == MadName && |args| == 3 then
        Paren(SumOfProduct(Translate(env, args[0]), Translate(env, args[1]), Translate(env, args[2])))
      else if f == SaturateName && |args| == 1 then
        Call(ClampName, [Translate(env, args[0]), Zero, One])
      else Call(GlWord(f), TranslateArgs(env, args))
    case Sample(tex, m, _, args) => Call(SamplingFunction(env, tex, m), [Var(tex)] + TranslateArgs(env, args))
  }

  function TranslateArgs(env: Env, args: seq<Expr>): (gs: seq<Expr>)
    ensures |gs| == |args|
    ensures forall i :: 0 <= i < |gs| ==> IsGlsl(gs[i]) && gs[i] == Translate(env, args[i])
    decreases args, 0
  {
    if args == [] then [] else [Translate(env, args[0])] + TranslateArgs(env, args[1..])
  }

  // ----- Which source expressions

  /** The printed expression begins with "(". */
  predicate OpensParen(e: Expr) {
    match e
    case Paren(_) => true
    case Bin(_, l, _) => OpensParen(l)
    case Member(x, _) => OpensParen(x)
    case _ => false
  }

  /** Usable as a variable, field or function of no special meaning to the writer. */
  predicate FreeName(env: Env, w: Word) {
    (w.Spelled? || Renamed(w).Some? || w == ClampName) && !IsTexture(env, w)
  }

  /**
   * Expressions the writer handles: brackets are explicit, the calls with a handler have their
   * arity, and no argument that its call closes with ")" after a comma opens with "(".
   */
  predicate Source(env: Env, e: Expr)
    decreases e
  {
    match e
    case Literal(w) => w.Spelled?
    case Var(name) => FreeName(env, name) && GlWord(name) == name
    case Paren(x) => Source(env, x)
    case Neg(x) => Source(env, x)
    case Bin(_, l, r) => Source(env, l) && Source(env, r)
    case Member(x, field) => Source(env, x) && FreeName(env, field) && GlWord(field) == field
    case Call(f, args) =>
      && (forall i :: 0 <= i < |args| ==> Source(env, args[i]))
      && (|| (f == MulName && |args| == 2 && !OpensParen(args[1]))
          || (f == MadName && |args| == 3 && !OpensParen(args[2]))
          || (f == SaturateName && |args| == 1)
          || FreeName(env, f))
    case Sample(tex, m, s, args) =>
      && (forall i :: 0 <= i < |args| ==> Source(env, args[i]))
      && |args| > 0 && !OpensParen(args[0]) && WfSampling(env, tex, m, ToSamplerArg(s))
  }

  // ----- The token tree of a source expression is one the writer translates

  predicate NoTextureLeaf(env: Env, its: seq<Item>) {
    forall i :: 0 <= i < |its| && its[i].Leaf? && its[i].t.kind == Name ==> !IsTexture(env, its[i].t.word)
  }

  lemma {:induction false} WfConcat(env: Env, x: seq<Item>, y: seq<Item>)
    requires Wf(env, x) && Wf(env, y) && NoTextureLeaf(env, x)
    ensures Wf(env, x + y)
  {
    hide WfItem, TextureType, NoDot, Print;
    if x == [] {
      assert x + y == y;
    } else {
      assert (x + y)[1..] == x[1..] + y;
      WfConcat(env, x[1..], y);
    }
  }

  /** What every flattened expression guarantees to the text around it. */
  predicate Embeddable(env: Env, its: seq<Item>) {
    its != [] && Wf(env, its) && NoTextureLeaf(env, its) && StartsSolid(its)
  }

  lemma FlatConcat(env: Env, x: seq<Item>, y: seq<Item>)
    requires Embeddable(env, x) && Wf(env, y) && NoTextureLeaf(env, y)
    ensures Embeddable(env, x + y)
  {
    hide Wf;
    WfConcat(env, x, y);
  }

  lemma OneItem(env: Env, it: Item)
    requires WfItem(env, it) && (it.Leaf? && it.t.kind == Name ==> !IsTexture(env, it.t.word))
    ensures Wf(env, [it]) && NoTextureLeaf(env, [it])
  {
    hide WfItem, TextureType, NoDot;
    assert [it][1..] == [];
  }

  lemma {:induction false} FlattenWf(env: Env, e: Expr)
    requires Source(env, e)
    ensures Embeddable(env, Flatten(e)) && !TopLevelComma(Flatten(e))
    ensures var head := Flatten(e)[0];
            (head.Group? <==> OpensParen(e)) && (head.Group? ==> !head.brace && !TopLevelComma(head.body))
    decreases e, 2
  {
    hide TypeName, TextureType, WfItem, Wf, NoDot, TopLevelComma;
    match e
    case Literal(w) => LeafWf(env, Token(Num, w));
    case Var(name) => LeafWf(env, Ident(name));
    case Paren(x) =>
      FlattenWf(env, x);
      GroupWf(env, Flatten(x));
    case Neg(_) => NegWf(env, e);
    case Bin(_, _, _) => BinWf(env, e);
    case Member(_, _) => MemberWf(env, e);
    case Call(f, args) => CallWf(env, e);
    case Sample(_, _, _, _) =>
      ArgsWf(env, e.args);
      SampleWf(env, e);
  }

  lemma {:induction false} NegWf(env: Env, e: Expr)
    requires e.Neg? && Source(env, e)
    ensures Embeddable(env, Flatten(e)) && !TopLevelComma(Flatten(e)) && !Flatten(e)[0].Group?
    decreases e, 0
  {
    hide TypeName, TextureType, WfItem, Wf, NoDot;
    LeafWf(env, Punct(Minus));
    FlattenWf(env, e.e);
    FlatConcat(env, [Leaf(Punct(Minus))], Flatten(e.e));
  }

  lemma {:induction false} BinWf(env: Env, e: Expr)
    requires e.Bin? && Source(env, e)
    ensures Embeddable(env, Flatten(e)) && !TopLevelComma(Flatten(e)) && Flatten(e)[0] == Flatten(e.l)[0]
    ensures var head := Flatten(e)[0];
            (head.Group? <==> OpensParen(e.l)) && (head.Group? ==> !head.brace && !TopLevelComma(head.body))
    decreases e, 0
  {
    hide TypeName, TextureType, WfItem, Wf, NoDot;
    var mid := [Leaf(Punct(OpWord(e.op)))];
    FlattenWf(env, e.l);
    FlattenWf(env, e.r);
    LeafWf(env, Punct(OpWord(e.op)));
    FlatConcat(env, Flatten(e.l), mid);
    FlatConcat(env, Flatten(e.l) + mid, Flatten(e.r));
  }

  lemma {:induction false} MemberWf(env: Env, e: Expr)
    requires e.Member? && Source(env, e)
    ensures Embeddable(env, Flatten(e)) && !TopLevelComma(Flatten(e)) && Flatten(e)[0] == Flatten(e.e)[0]
    ensures var head := Flatten(e)[0];
            (head.Group? <==> OpensParen(e.e)) && (head.Group? ==> !head.brace && !TopLevelComma(head.body))
    decreases e, 0
  {
    hide TypeName, TextureType, WfItem, Wf, NoDot;
    var x, field := e.e, e.field;
    FlattenWf(env, x);
    LeafWf(env, DotTok);
    LeafWf(env, Ident(field));
    FlatConcat(env, [Leaf(DotTok)], [Leaf(Ident(field))]);
    assert [Leaf(DotTok)] + [Leaf(Ident(field))] == [Leaf(DotTok), Leaf(Ident(field))];
    FlatConcat(env, Flatten(x), [Leaf(DotTok), Leaf(Ident(field))]);
  }

  lemma LeafWf(env: Env, t: Token)
    requires PlainToken(t) && !IsWhite(t) && t != CommaTok && (t.kind == Name ==> !IsTexture(env, t.word))
    ensures Embeddable(env, [Leaf(t)]) && !TopLevelComma([Leaf(t)])
  {
    hide TextureType;
    OneItem(env, Leaf(t));
  }

  lemma GroupWf(env: Env, body: seq<Item>)
    requires Wf(env, body)
    ensures Embeddable(env, [Group(false, body)]) && !TopLevelComma([Group(false, body)])
  {
    hide Wf, TextureType;
    assert WfItem(env, Group(false, body));
    OneItem(env, Group(false, body));
  }

  predicate Handled(e: Expr)
    requires e.Call?
  {
    (e.f == MulName && |e.args| == 2) || (e.f == MadName && |e.args| == 3) || (e.f == SaturateName && |e.args| == 1)
  }

  lemma {:induction false} CallWf(env: Env, e: Expr)
    requires e.Call? && Source(env, e)
    ensures Embeddable(env, Flatten(e)) && !TopLevelComma(Flatten(e)) && !Flatten(e)[0].Group?
    decreases e, 1
  {
    hide TypeName, TextureType, Wf, WfItem, NoDot;
    if Handled(e) {
      ArgumentsWf(env, e);
      OneItem(env, Flatten(e)[0]);
    } else {
      var f, args := e.f, e.args;
      ArgsWf(env, args);
      LeafWf(env, Ident(f));
      GroupWf(env, FlattenArgs(args));
      var x, y := [Leaf(Ident(f))], [Group(false, FlattenArgs(args))];
      FlatConcat(env, x, y);
      assert x + y == [Leaf(Ident(f)), Group(false, FlattenArgs(args))];
    }
  }

  lemma {:induction false} ArgumentsWf(env: Env, e: Expr)
    requires e.Call? && Source(env, e) && Handled(e)
    ensures |Flatten(e)| == 1 && WfItem(env, Flatten(e)[0]) && !Flatten(e)[0].Group? && !Flatten(e)[0].Leaf?
    decreases e, 0
  {
    hide TypeName, TextureType, Wf, NoDot;
    var args := e.args;
    FlattenWf(env, args[0]);
    if e.f != SaturateName { FlattenWf(env, args[1]); }
    if e.f == MadName { FlattenWf(env, args[2]); }
  }

  lemma SampleWf(env: Env, e: Expr)
    requires e.Sample? && Source(env, e) && Wf(env, FlattenArgs(e.args)) && LastArg(FlattenArgs(e.args))
    ensures Embeddable(env, Flatten(e)) && !TopLevelComma(Flatten(e)) && !Flatten(e)[0].Group?
  {
    hide TypeName, TextureType, Wf, NoDot, LastArg, WfSampling;
    OneItem(env, Sampling(e.tex, [], [], e.texMethod, [], ToSamplerArg(e.sampler), [], FlattenArgs(e.args)));
  }

  lemma {:induction false} ArgsWf(env: Env, args: seq<Expr>)
    requires forall i :: 0 <= i < |args| ==> Source(env, args[i])
    ensures Wf(env, FlattenArgs(args)) && NoTextureLeaf(env, FlattenArgs(args))
    ensures args != [] ==> Embeddable(env, FlattenArgs(args)) && (FlattenArgs(args)[0].Group? <==> OpensParen(args[0]))
    decreases args, 0
  {
    hide TypeName, TextureType, WfItem, NoDot;
    if args != [] {
      FlattenWf(env, args[0]);
      if |args| > 1 {
        ArgsWf(env, args[1..]);
        CommaWf(env);
        var x := Flatten(args[0]);
        FlatConcat(env, x, [Leaf(CommaTok)]);
        FlatConcat(env, x + [Leaf(CommaTok)], FlattenArgs(args[1..]));
      }
    }
  }

  lemma CommaWf(env: Env)
    ensures Wf(env, [Leaf(CommaTok)]) && NoTextureLeaf(env, [Leaf(CommaTok)])
  {
    OneItem(env, Leaf(CommaTok));
  }

  // ----- The text written for it

  /** Text without its whitespace, which means nothing to a GLSL reader. */
  function Solid(ts: seq<Token>): seq<Token> {
    if ts == [] then [] else (if IsWhite(ts[0]) then [] else [ts[0]]) + Solid(ts[1..])
  }

  lemma {:induction false} SolidConcat(x: seq<Token>, y: seq<Token>)
    ensures Solid(x + y) == Solid(x) + Solid(y)
  {
    if x == [] {
      assert x + y == y;
    } else {
      assert (x + y)[1..] == x[1..] + y;
      SolidConcat(x[1..], y);
    }
  }

  lemma {:induction false} SolidFixed(ts: seq<Token>)
    requires forall i :: 0 <= i < |ts| ==> !IsWhite(ts[i])
    ensures Solid(ts) == ts
  {
    if ts != [] {
      SolidFixed(ts[1..]);
      assert ts == [ts[0]] + ts[1..];
    }
  }

  lemma {:induction false} WriteConcat(env: Env, x: seq<Item>, y: seq<Item>, st: State)
    ensures WriteItems(env, x + y, st) == WriteItems(env, y, WriteItems(env, x, st))
  {
    hide WriteItem;
    if x == [] {
      assert x + y == y;
    } else {
      assert (x + y)[0] == x[0] && (x + y)[1..] == x[1..] + y;
      WriteConcat(env, x[1..], y, WriteItem(env, x[0], st));
    }
  }
}

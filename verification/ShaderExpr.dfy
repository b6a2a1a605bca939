/**
 * Expressions of both languages, how they are printed, and a parser for GLSL expressions.
 * Source expressions use every constructor; GLSL expressions use no `Sample`.
 */
module ShaderExpr {
  import opened ShaderTokens

  datatype Op = AddOp | SubOp | MulOp | DivOp

  datatype Expr =
    | Literal(w: Word)
    | Var(name: Word)
    | Paren(e: Expr)
    | Neg(e: Expr)
    | Bin(op: Op, l: Expr, r: Expr)
    | Member(e: Expr, field: Word)
    | Call(f: Word, args: seq<Expr>)
    | Sample(tex: Word, texMethod: Word, sampler: Sampler, args: seq<Expr>)

  datatype Sampler = NoSampler | Named(name: Word)

  function OpWord(op: Op): Word {
    match op case AddOp => Plus case SubOp => Minus case MulOp => Star case DivOp => Slash
  }

  function OpPrec(op: Op): (p: nat)
    ensures 1 <= p <= 2
  {
    match op case AddOp => 1 case SubOp => 1 case MulOp => 2 case DivOp => 2
  }

  /** Binding strength: sums 1, products 2, unary minus 3, everything else 4. */
  function Prec(e: Expr): (p: nat)
    ensures 1 <= p <= 4
  {
    match e case Bin(op, _, _) => OpPrec(op) case Neg(_) => 3 case _ => 4
  }

  /** The tree is the one that its own printing denotes: brackets are explicit nodes. */
  predicate Grouped(e: Expr) {
    match e
    case Literal(_) => true
    case Var(_) => true
    case Paren(x) => Grouped(x)
    case Neg(x) => Grouped(x) && Prec(x) == 4
    case Bin(op, l, r) => Grouped(l) && Grouped(r) && Prec(l) >= OpPrec(op) && Prec(r) > OpPrec(op)
    case Member(x, _) => Grouped(x) && Prec(x) == 4
    case Call(_, args) => forall i :: 0 <= i < |args| ==> Grouped(args[i])
    case Sample(_, _, _, args) => forall i :: 0 <= i < |args| ==> Grouped(args[i])
  }

  predicate IsGlsl(e: Expr) {
    match e
    case Literal(_) => true
    case Var(_) => true
    case Paren(x) => IsGlsl(x)
    case Neg(x) => IsGlsl(x)
    case Bin(_, l, r) => IsGlsl(l) && IsGlsl(r)
    case Member(x, _) => IsGlsl(x)
    case Call(_, args) => forall i :: 0 <= i < |args| ==> IsGlsl(args[i])
    case Sample(_, _, _, _) => false
  }

  function Text(e: Expr): (ts: seq<Token>)
    requires IsGlsl(e)
    ensures |ts| > 0
    decreases e, 1
  {
    match e
    case Literal(w) => [Token(Num, w)]
    case Var(name) => [Ident(name)]
    case Paren(x) => [Punct(LParen)] + Text(x) + [Punct(RParen)]
    case Neg(x) => [Punct(Minus)] + Text(x)
    case Bin(op, l, r) => Text(l) + [Punct(OpWord(op))] + Text(r)
    case Member(x, field) => Text(x) + [Punct(Dot), Ident(field)]
    case Call(f, args) => [Ident(f), Punct(LParen)] + ArgsText(args) + [Punct(RParen)]
  }

  function ArgsText(args: seq<Expr>): seq<Token>
    requires forall i :: 0 <= i < |args| ==> IsGlsl(args[i])
    decreases args, 0
  {
    if args == [] then []
    else if |args| == 1 then Text(args[0])
    else Text(args[0]) + [Punct(Comma)] + ArgsText(args[1..])
  }

  // ----- A GLSL expression parser: precedence climbing, left associative

  datatype Parsed<T> = Fail | Ok(value: T, rest: seq<Token>)

  datatype MaybeOp = NoOp | SomeOp(op: Op)

  function BinOp(ts: seq<Token>): MaybeOp {
    if ts == [] || ts[0].kind != Other then NoOp
    else match ts[0].word
         case Plus => SomeOp(AddOp)
         case Minus => SomeOp(SubOp)
         case Star => SomeOp(MulOp)
         case Slash => SomeOp(DivOp)
         case _ => NoOp
  }

  predicate StartsWith(ts: seq<Token>, t: Token) { ts != [] && ts[0] == t }

  function ParseExpr(min: nat, ts: seq<Token>): (p: Parsed<Expr>)
    ensures p.Ok? ==> |p.rest| < |ts|
    decreases |ts|, 4
  {
    match ParseUnary(ts)
    case Fail => Fail
    case Ok(e, rest) => ParseRest(e, min, rest)
  }

  function ParseRest(lhs: Expr, min: nat, ts: seq<Token>): (p: Parsed<Expr>)
    ensures p.Ok? ==> |p.rest| <= |ts|
    decreases |ts|, 5
  {
    match BinOp(ts)
    case NoOp => Ok(lhs, ts)
    case SomeOp(op) =>
      if OpPrec(op) < min then Ok(lhs, ts)
      else match ParseExpr(OpPrec(op) + 1, ts[1..])
           case Fail => Fail
           case Ok(r, rest) => ParseRest(Bin(op, lhs, r), min, rest)
  }

  function ParseUnary(ts: seq<Token>): (p: Parsed<Expr>)
    ensures p.Ok? ==> |p.rest| < |ts|
    decreases |ts|, 3
  {
    if !StartsWith(ts, Punct(Minus)) then ParsePostfix(ts)
    else match ParsePostfix(ts[1..])
         case Fail => Fail
         case Ok(e, rest) => Ok(Neg(e), rest)
  }

  function ParsePostfix(ts: seq<Token>): (p: Parsed<Expr>)
    ensures p.Ok? ==> |p.rest| < |ts|
    decreases |ts|, 2
  {
    match ParseAtom(ts)
    case Fail => Fail
    case Ok(e, rest) => ParseFields(e, rest)
  }

  function ParseFields(e: Expr, ts: seq<Token>): (p: Parsed<Expr>)
    ensures p.Ok? && |p.rest| <= |ts|
    decreases |ts|
  {
    if |ts| >= 2 && ts[0] == Punct(Dot) && ts[1].kind == Name then ParseFields(Member(e, ts[1].word), ts[2..])
    else Ok(e, ts)
  }

  function ParseAtom(ts: seq<Token>): (p: Parsed<Expr>)
    ensures p.Ok? ==> |p.rest| < |ts|
    decreases |ts|, 1
  {
    if ts == [] then Fail
    else if ts[0].kind == Num then Ok(Literal(ts[0].word), ts[1..])
    else if ts[0] == Punct(LParen) then
      match ParseExpr(1, ts[1..])
      case Fail => Fail
      case Ok(e, rest) => if StartsWith(rest, Punct(RParen)) then Ok(Paren(e), rest[1..]) else Fail
    else if ts[0].kind != Name then Fail
    else if !StartsWith(ts[1..], Punct(LParen)) then Ok(Var(ts[0].word), ts[1..])
    else if StartsWith(ts[2..], Punct(RParen)) then Ok(Call(ts[0].word, []), ts[3..])
    else match ParseArgs(ts[2..])
         case Fail => Fail
         case Ok(args, rest) => Ok(Call(ts[0].word, args), rest)
  }

  /** One or more arguments, up to and including the closing bracket. */
  function ParseArgs(ts: seq<Token>): (p: Parsed<seq<Expr>>)
    ensures p.Ok? ==> |p.rest| < |ts|
    decreases |ts|, 5
  {
    match ParseExpr(1, ts)
    case Fail => Fail
    case Ok(e, rest) =>
      if StartsWith(rest, Punct(RParen)) then Ok([e], rest[1..])
      else if StartsWith(rest, Punct(Comma)) then
        match ParseArgs(rest[1..])
        case Fail => Fail
        case Ok(more, rest') => Ok([e] + more, rest')
      else Fail
  }

  // ----- Parsing inverts printing

  /** What follows an expression of strength `p` neither extends it nor turns it into a call. */
  predicate Follows(ts: seq<Token>, p: nat) {
    && !StartsWith(ts, Punct(LParen)) && !StartsWith(ts, Punct(Dot))
    && (BinOp(ts).SomeOp? ==> OpPrec(BinOp(ts).op) <= p)
  }

  /** Printing then parsing gives the tree back, whatever may legally follow. */
  lemma {:induction false} ParseInverts(e: Expr, min: nat, rest: seq<Token>)
    requires IsGlsl(e) && Grouped(e) && min <= Prec(e) && Follows(rest, Prec(e))
    ensures ParseExpr(min, Text(e) + rest) == ParseRest(e, min, rest)
    decreases e, 3
  {
    hide ParseAtom, ParseArgs;
    match e
    case Bin(_, _, _) => BinInverts(e, min, rest);
    case Neg(x) =>
      assert Text(e) + rest == [Punct(Minus)] + (Text(x) + rest);
      assert (Text(e) + rest)[1..] == Text(x) + rest;
      PostfixInverts(x, rest);
      FieldsStop(x, rest);
    case _ =>
      PostfixInverts(e, rest);
      AtomHead(e);
      FieldsStop(e, rest);
  }

  lemma {:induction false} BinInverts(e: Expr, min: nat, rest: seq<Token>)
    requires e.Bin? && IsGlsl(e) && Grouped(e) && min <= Prec(e) && Follows(rest, Prec(e))
    ensures ParseExpr(min, Text(e) + rest) == ParseRest(e, min, rest)
    decreases e, 2
  {
    hide ParseAtom, ParseArgs, ParsePostfix, ParseExpr;
    var op, l, r := e.op, e.l, e.r;
    var tail := [Punct(OpWord(op))] + (Text(r) + rest);
    assert Text(e) + rest == Text(l) + tail;
    assert tail[1..] == Text(r) + rest;
    assert BinOp(tail) == SomeOp(op);
    ParseInverts(l, min, tail);
    ParseInverts(r, OpPrec(op) + 1, rest);
    RestStops(r, OpPrec(op) + 1, rest);
  }

  lemma RestStops(e: Expr, min: nat, rest: seq<Token>)
    requires BinOp(rest).SomeOp? ==> OpPrec(BinOp(rest).op) < min
    ensures ParseRest(e, min, rest) == Ok(e, rest)
  {
  }

  lemma FieldsStop(e: Expr, rest: seq<Token>)
    requires !StartsWith(rest, Punct(Dot))
    ensures ParseFields(e, rest) == Ok(e, rest)
  {
  }

  lemma {:induction false} AtomHead(e: Expr)
    requires IsGlsl(e) && Grouped(e) && Prec(e) == 4
    ensures Text(e)[0] != Punct(Minus) && Text(e)[0] != Punct(RParen)
    decreases e
  {
    match e
    case Member(x, _) => AtomHead(x);
    case _ =>
  }

  lemma {:induction false} PostfixInverts(e: Expr, rest: seq<Token>)
    requires IsGlsl(e) && Grouped(e) && Prec(e) == 4 && !StartsWith(rest, Punct(LParen))
    ensures ParsePostfix(Text(e) + rest) == ParseFields(e, rest)
    decreases e, 2
  {
    hide ParseExpr, ParseArgs;
    var ts := Text(e) + rest;
    match e
    case Literal(w) =>
      assert ts[1..] == rest;
    case Var(name) =>
      assert ts[1..] == rest;
    case Paren(x) =>
      var tail := [Punct(RParen)] + rest;
      assert ts == [Punct(LParen)] + (Text(x) + tail);
      assert ts[1..] == Text(x) + tail;
      assert tail[1..] == rest;
      ParseInverts(x, 1, tail);
      RestStops(x, 1, tail);
    case Member(x, field) =>
      var tail := [Punct(Dot), Ident(field)] + rest;
      assert ts == Text(x) + tail;
      assert tail[2..] == rest;
      PostfixInverts(x, tail);
    case Call(_, _) => CallInverts(e, rest);
  }

  lemma {:induction false} CallInverts(e: Expr, rest: seq<Token>)
    requires e.Call? && IsGlsl(e) && Grouped(e) && !StartsWith(rest, Punct(LParen))
    ensures ParsePostfix(Text(e) + rest) == ParseFields(e, rest)
    decreases e, 1
  {
    hide ParseExpr, ParseArgs;
    var f, args := e.f, e.args;
    var ts := Text(e) + rest;
    var tail := ArgsText(args) + [Punct(RParen)] + rest;
    assert ts == [Ident(f), Punct(LParen)] + tail;
    assert ts[2..] == tail;
    if args == [] {
      assert tail == [Punct(RParen)] + rest;
      assert ts[3..] == rest;
    } else {
      ArgsInvert(args, rest);
      ArgsHead(args);
      assert ts[2] == ArgsText(args)[0];
    }
  }

  lemma {:induction false} ArgsHead(args: seq<Expr>)
    requires args != [] && forall i :: 0 <= i < |args| ==> IsGlsl(args[i]) && Grouped(args[i])
    ensures ArgsText(args) != [] && ArgsText(args)[0] != Punct(RParen)
  {
    ExprHead(args[0]);
  }

  lemma {:induction false} ExprHead(e: Expr)
    requires IsGlsl(e) && Grouped(e)
    ensures Text(e)[0] != Punct(RParen)
    decreases e
  {
    match e
    case Bin(_, l, _) => ExprHead(l);
    case Neg(_) =>
    case _ => AtomHead(e);
  }

  lemma {:induction false} ArgsInvert(args: seq<Expr>, rest: seq<Token>)
    requires args != [] && forall i :: 0 <= i < |args| ==> IsGlsl(args[i]) && Grouped(args[i])
    ensures ParseArgs(ArgsText(args) + [Punct(RParen)] + rest) == Ok(args, rest)
    decreases args, 4
  {
    hide ParseExpr;
    var e := args[0];
    if |args| == 1 {
      var tail := [Punct(RParen)] + rest;
      assert ArgsText(args) + [Punct(RParen)] + rest == Text(e) + tail;
      ParseInverts(e, 1, tail);
      RestStops(e, 1, tail);
      assert tail[1..] == rest && args == [e];
    } else {
      var more := ArgsText(args[1..]) + [Punct(RParen)] + rest;
      var tail := [Punct(Comma)] + more;
      assert ArgsText(args) + [Punct(RParen)] + rest == Text(e) + tail;
      ParseInverts(e, 1, tail);
      RestStops(e, 1, tail);
      assert tail[1..] == more;
      ArgsInvert(args[1..], rest);
      assert args == [e] + args[1..];
    }
  }

  /** A complete expression has exactly one reading. */
  lemma {:induction false} UniqueReading(e: Expr)
    requires IsGlsl(e) && Grouped(e)
    ensures ParseExpr(1, Text(e)) == Ok(e, [])
  {
    ParseInverts(e, 1, []);
    RestStops(e, 1, []);
    assert Text(e) + [] == Text(e);
  }
}

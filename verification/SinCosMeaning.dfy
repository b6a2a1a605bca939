/**
 * The meaning of `sincos`, which is a statement: it assigns sine and cosine of an angle to two
 * variables. The writer turns it into three GLSL statements around a temporary of its own.
 */
module SinCosMeaning {
  import opened Wrappers
  import opened ShaderTokens
  import opened ShaderExpr
  import opened GlslWriter
  import opened TokenTrees
  import opened WriterCorrectness
  import opened Translation
  import opened TranslationSoundness
  import opened ShaderMeaning

  // ----- GLSL statements

  datatype Stmt = Declare(name: Word, e: Expr) | Assign(name: Word, e: Expr)

  const FloatType := Ident(Spelled("float"))

  function StmtText(s: Stmt): seq<Token>
    requires IsGlsl(s.e)
  {
    (if s.Declare? then [FloatType] else []) + [Ident(s.name), Punct(Equals)] + Text(s.e)
  }

  predicate Readable(ss: seq<Stmt>) {
    forall i :: 0 <= i < |ss| ==> IsGlsl(ss[i].e) && Grouped(ss[i].e) && (ss[i].Assign? ==> Ident(ss[i].name) != FloatType)
  }

  /** Statements with semicolons between them. */
  function StmtsText(ss: seq<Stmt>): seq<Token>
    requires Readable(ss)
  {
    if ss == [] then []
    else StmtText(ss[0]) + (if |ss| == 1 then [] else [Punct(Semicolon)] + StmtsText(ss[1..]))
  }

  /** Reads a non-empty list of statements. */
  function ParseStmts(ts: seq<Token>): Option<seq<Stmt>>
    decreases |ts|
  {
    if StartsWith(ts, FloatType) && |ts| >= 3 && ts[1].kind == Name && ts[2] == Punct(Equals) then ParseTail(true, ts[1].word, ts[3..])
    else if |ts| >= 2 && ts[0].kind == Name && ts[1] == Punct(Equals) then ParseTail(false, ts[0].word, ts[2..])
    else None
  }

  function ParseTail(declares: bool, name: Word, ts: seq<Token>): Option<seq<Stmt>>
    decreases |ts| + 1
  {
    match ParseExpr(1, ts)
    case Fail => None
    case Ok(e, rest) =>
      var s := if declares then Declare(name, e) else Assign(name, e);
      if rest == [] then Some([s])
      else if rest[0] != Punct(Semicolon) then None
      else
        var more := ParseStmts(rest[1..]);
        if more.None? then None else Some([s] + more.value)
  }

  /** Statements are read back from their text. */
  lemma {:induction false} StmtsInvert(ss: seq<Stmt>)
    requires Readable(ss) && ss != []
    ensures ParseStmts(StmtsText(ss)) == Some(ss)
    decreases |ss|
  {
    hide Text, IsGlsl, Grouped, ParseStmts, StmtText;
    var s := ss[0];
    if |ss| == 1 {
      LastParsed(s);
      assert StmtText(s) + [] == StmtText(s) && [s] == ss;
    } else {
      assert Readable(ss[1..]);
      StmtsInvert(ss[1..]);
      OneParsed(s, StmtsText(ss[1..]));
      assert [s] + ss[1..] == ss;
    }
  }

  lemma {:induction false} Lead(s: Stmt, tail: seq<Token>)
    requires IsGlsl(s.e) && (s.Assign? ==> Ident(s.name) != FloatType)
    ensures ParseStmts(StmtText(s) + tail) == ParseTail(s.Declare?, s.name, Text(s.e) + tail)
  {
    hide Text, IsGlsl, ParseTail;
    var ts := StmtText(s) + tail;
    if s.Declare? {
      assert ts == [FloatType, Ident(s.name), Punct(Equals)] + (Text(s.e) + tail);
      assert ts[3..] == Text(s.e) + tail;
    } else {
      assert ts == [Ident(s.name), Punct(Equals)] + (Text(s.e) + tail);
      assert ts[2..] == Text(s.e) + tail;
    }
  }

  lemma {:induction false} LastParsed(s: Stmt)
    requires IsGlsl(s.e) && Grouped(s.e) && (s.Assign? ==> Ident(s.name) != FloatType)
    ensures ParseStmts(StmtText(s) + []) == Some([s])
  {
    hide Text, IsGlsl, Grouped, ParseStmts, StmtText, ParseExpr;
    Lead(s, []);
    ExprThen(s.e, []);
  }

  lemma {:induction false} OneParsed(s: Stmt, rest: seq<Token>)
    requires IsGlsl(s.e) && Grouped(s.e) && (s.Assign? ==> Ident(s.name) != FloatType) && ParseStmts(rest).Some?
    ensures ParseStmts(StmtText(s) + ([Punct(Semicolon)] + rest)) == Some([s] + ParseStmts(rest).value)
  {
    hide Text, IsGlsl, Grouped, ParseStmts, StmtText, ParseExpr;
    var tail := [Punct(Semicolon)] + rest;
    assert tail[1..] == rest;
    Lead(s, tail);
    ExprThen(s.e, tail);
  }

  lemma {:induction false} ExprThen(e: Expr, tail: seq<Token>)
    requires IsGlsl(e) && Grouped(e) && (tail == [] || tail[0] == Punct(Semicolon))
    ensures ParseExpr(1, Text(e) + tail) == Ok(e, tail)
  {
    hide ParseExpr, Text, Grouped, IsGlsl;
    assert BinOp(tail) == NoOp && Follows(tail, Prec(e));
    ParseInverts(e, 1, tail);
    RestStops(e, 1, tail);
  }

  // ----- Values of variables

  function Assigned<V>(m: Meaning<V>, name: Word, v: V): Meaning<V> {
    m.(value := w => if w == name then v else m.value(w))
  }

  /** What the variables are after the statements. */
  function Exec<V>(m: Meaning<V>, ss: seq<Stmt>): Meaning<V>
    requires forall i :: 0 <= i < |ss| ==> IsGlsl(ss[i].e)
    decreases |ss|
  {
    if ss == [] then m else Exec(Assigned(m, ss[0].name, EvalGlsl(m, ss[0].e)), ss[1..])
  }

  /** What `sincos` does in the source language: the angle first, then its sine, then its cosine. */
  function SourceSinCos<V>(m: Meaning<V>, env: Env, x: Expr, s: Word, c: Word): Meaning<V> {
    var angle := EvalSource(m, env, x);
    Assigned(Assigned(m, s, m.sine(angle)), c, m.cosine(angle))
  }

  // ----- The statements the writer emits

  function OfTemp(f: string, n: nat): (e: Expr)
    ensures IsGlsl(e) && Grouped(e)
  {
    assert IsGlsl(Var(SinCosVar(n))) && Grouped(Var(SinCosVar(n)));
    Call(Spelled(f), [Var(SinCosVar(n))])
  }

  function Emitted(env: Env, x: Expr, s: Word, c: Word, n: nat): (ss: seq<Stmt>)
    ensures |ss| == 3 && forall i :: 0 <= i < 3 ==> IsGlsl(ss[i].e)
  {
    [Declare(SinCosVar(n), Paren(Translate(env, x))), Assign(s, OfTemp("sin", n)), Assign(c, OfTemp("cos", n))]
  }

  lemma {:induction false} EmittedReadable(env: Env, x: Expr, s: Word, c: Word, n: nat)
    requires Grouped(x) && Ident(s) != FloatType && Ident(c) != FloatType
    ensures Readable(Emitted(env, x, s, c, n))
  {
    hide Translate;
    TranslateGrouped(env, x);
    assert Grouped(Paren(Translate(env, x)));
  }

  /** Running them assigns what the source assigns; besides, only the temporary changes. */
  lemma {:induction false} SameAssignments<V(!new)>(m: Meaning<V>, env: Env, x: Expr, s: Word, c: Word, n: nat, w: Word)
    requires Standard(m) && Source(env, x) && Agrees(m, env, x) && s.Spelled? && c.Spelled? && w != SinCosVar(n)
    ensures Exec(m, Emitted(env, x, s, c, n)).value(w) == SourceSinCos(m, env, x, s, c).value(w)
  {
    hide Source, Agrees, Translate, EvalSource, EvalGlsl, Standard, OfTemp;
    var v := EvalSource(m, env, x);
    SameValue(m, env, x);
    InBrackets(m, Translate(env, x));
    var m1 := Assigned(m, SinCosVar(n), v);
    var m2 := Assigned(m1, s, m.sine(v));
    TempValue(m1, "sin", n);
    TempValue(m2, "cos", n);
    SineCosine(m, v);
    ThreeSteps(m, Emitted(env, x, s, c, n));
  }

  lemma {:induction false} InBrackets<V>(m: Meaning<V>, g: Expr)
    requires IsGlsl(g)
    ensures IsGlsl(Paren(g)) && EvalGlsl(m, Paren(g)) == EvalGlsl(m, g)
  {
  }

  lemma {:induction false} ThreeSteps<V>(m: Meaning<V>, ss: seq<Stmt>)
    requires |ss| == 3 && forall i :: 0 <= i < 3 ==> IsGlsl(ss[i].e)
    ensures var m1 := Assigned(m, ss[0].name, EvalGlsl(m, ss[0].e));
            var m2 := Assigned(m1, ss[1].name, EvalGlsl(m1, ss[1].e));
            Exec(m, ss) == Assigned(m2, ss[2].name, EvalGlsl(m2, ss[2].e))
  {
    hide EvalGlsl, Assigned, IsGlsl;
    var m1 := Assigned(m, ss[0].name, EvalGlsl(m, ss[0].e));
    var m2 := Assigned(m1, ss[1].name, EvalGlsl(m1, ss[1].e));
    var two, one := ss[1..], ss[1..][1..];
    assert two[0] == ss[1] && one[0] == ss[2] && one[1..] == [];
    assert Exec(m2, one) == Assigned(m2, ss[2].name, EvalGlsl(m2, ss[2].e));
    assert Exec(m1, two) == Exec(m2, one);
  }

  lemma {:induction false} SineCosine<V(!new)>(m: Meaning<V>, v: V)
    requires Standard(m)
    ensures m.apply(Spelled("sin"), [v]) == m.sine(v) && m.apply(Spelled("cos"), [v]) == m.cosine(v)
  {
    hide StandardSampling;
  }

  lemma {:induction false} TempValue<V>(m: Meaning<V>, f: string, n: nat)
    ensures EvalGlsl(m, OfTemp(f, n)) == m.apply(Spelled(f), [m.value(SinCosVar(n))])
  {
    var args := [Var(SinCosVar(n))];
    assert args[1..] == [];
    assert EvalGlslArgs(m, args) == [m.value(SinCosVar(n))];
  }

  // ----- Their text

  function SinCosTree(x: Expr, s: Word, c: Word): seq<Item> {
    [SinCosCall([], Flatten(x), [], [Leaf(Ident(s))], [], [Leaf(Ident(c))])]
  }

  lemma {:induction false} SolidAssign(f: string, n: nat)
    ensures Solid(SinCosAssign(f, n)) == [Punct(Equals), Ident(Spelled(f)), Punct(LParen), Ident(SinCosVar(n)), Punct(RParen)]
  {
    var call := [Ident(Spelled(f)), Punct(LParen), Ident(SinCosVar(n)), Punct(RParen)];
    SolidFixed(call);
    SolidCons(Blank, call);
    SolidCons(Punct(Equals), [Blank] + call);
    SolidCons(Blank, [Punct(Equals)] + ([Blank] + call));
    assert SinCosAssign(f, n) == [Blank] + ([Punct(Equals)] + ([Blank] + call));
  }

  lemma {:induction false} SolidHead(n: nat)
    ensures Solid(SinCosHead(n)) == [FloatType, Ident(SinCosVar(n)), Punct(Equals)]
  {
    var v, q := Ident(SinCosVar(n)), Punct(Equals);
    SolidCons(Blank, []);
    SolidCons(q, [Blank]);
    SolidCons(Blank, [q, Blank]);
    SolidCons(v, [Blank, q, Blank]);
    SolidCons(Blank, [v, Blank, q, Blank]);
    SolidCons(FloatType, [Blank, v, Blank, q, Blank]);
    assert SinCosHead(n) == [FloatType] + ([Blank] + ([v] + ([Blank] + ([q] + ([Blank] + [])))));
  }

  lemma {:induction false} SolidBreak(ts: seq<Token>)
    ensures Solid(ts + StatementBreak) == Solid(ts) + [Punct(Semicolon)]
  {
    SolidCons(Blank, []);
    SolidCons(Punct(Semicolon), [Blank]);
    assert StatementBreak == [Punct(Semicolon)] + ([Blank] + []);
    SolidConcat(ts, StatementBreak);
  }

  lemma {:induction false} NameWritten(env: Env, w: Word, st: State)
    requires GlWord(w) == w
    ensures Grew(st, WriteItems(env, [Leaf(Ident(w))], st), [Ident(w)])
  {
    hide GlWord, Solid;
    WriteLeaf(env, Ident(w), st);
  }

  lemma {:induction false} SinCosWritten(env: Env, x: Expr, s: Word, c: Word, st: State)
    requires Source(env, x) && Grouped(x) && GlWord(s) == s && GlWord(c) == c && Ident(s) != FloatType && Ident(c) != FloatType
    ensures Readable(Emitted(env, x, s, c, st.counter))
    ensures Grew(st, WriteItems(env, SinCosTree(x, s, c), st), StmtsText(Emitted(env, x, s, c, st.counter)))
  {
    hide Source, Grouped, GlWord, Solid, WriteItems, Text, Translate, Flatten, SinCosHead, SinCosAssign, Grew, StmtsText;
    var n := st.counter;
    EmittedReadable(env, x, s, c, n);
    var s0 := st.(counter := n + 1);
    var s1 := s0.Emit(SinCosHead(n));
    var s2 := s1.Emit([Open]);
    var s3 := WriteItems(env, Flatten(x), s2);
    var s4 := s3.Emit([Close] + StatementBreak);
    var s5 := WriteItems(env, [Leaf(Ident(s))], s4);
    var s6 := s5.Emit(SinCosAssign("sin", n) + StatementBreak);
    var s7 := WriteItems(env, [Leaf(Ident(c))], s6);
    var s8 := s7.Emit(SinCosAssign("cos", n));
    OneWritten(env, SinCosTree(x, s, c)[0], st);
    var a, b := Solid(SinCosAssign("sin", n)), Solid(SinCosAssign("cos", n));
    var t := Text(Translate(env, x));
    HeadWritten(st, s0, s1, s2, n);
    WriteExpr(env, x, s2);
    BreakWritten(s3, [Close]);
    NameWritten(env, s, s4);
    BreakWritten(s5, SinCosAssign("sin", n));
    NameWritten(env, c, s6);
    GrewEmit(s7, SinCosAssign("cos", n));
    SolidFixed([Close]);
    var u := [FloatType, Ident(SinCosVar(n)), Punct(Equals), Open];
    Chain(st, s2, s3, s4, s5, u, t, [Close] + [Punct(Semicolon)], [Ident(s)]);
    var v := u + t + ([Close] + [Punct(Semicolon)]) + [Ident(s)];
    Chain(st, s5, s6, s7, s8, v, a + [Punct(Semicolon)], [Ident(c)], b);
    SolidAssign("sin", n);
    SolidAssign("cos", n);
    ThreeTexts(env, x, s, c, n);
    Joined(FloatType, Ident(SinCosVar(n)), t, Ident(s), a, Ident(c), b);
  }

  lemma {:induction false} Chain(st: State, s1: State, s2: State, s3: State, s4: State, a: seq<Token>, b: seq<Token>, c: seq<Token>, d: seq<Token>)
    requires Grew(st, s1, a) && Grew(s1, s2, b) && Grew(s2, s3, c) && Grew(s3, s4, d)
    ensures Grew(st, s4, a + b + c + d)
  {
    hide Grew;
    GrewTwice(st, s1, s2, a, b);
    GrewTwice(st, s2, s3, a + b, c);
    GrewTwice(st, s3, s4, a + b + c, d);
  }

  lemma {:induction false} HeadWritten(st: State, s0: State, s1: State, s2: State, n: nat)
    requires s0.text == st.text && s1 == s0.Emit(SinCosHead(n)) && s2 == s1.Emit([Open])
    ensures Grew(st, s2, [FloatType, Ident(SinCosVar(n)), Punct(Equals), Open])
  {
    hide Solid, SinCosHead;
    SolidHead(n);
    GrewEmit(s0, SinCosHead(n));
    GrewOne(s1, Open);
  }

  lemma {:induction false} BreakWritten(st: State, ts: seq<Token>)
    ensures Grew(st, st.Emit(ts + StatementBreak), Solid(ts) + [Punct(Semicolon)])
  {
    hide Solid;
    SolidBreak(ts);
    GrewEmit(st, ts + StatementBreak);
  }

  lemma {:induction false} OneWritten(env: Env, it: Item, st: State)
    requires it.SinCosCall?
    ensures WriteItems(env, [it], st) == WriteSinCos(env, it, st)
  {
    hide WriteSinCos;
    assert WriteItems(env, [it], st) == WriteItem(env, it, st);
  }

  lemma {:induction false} Joined(f: Token, v: Token, t: seq<Token>, s: Token, a: seq<Token>, c: Token, b: seq<Token>)
    ensures [f, v, Punct(Equals), Open] + t + ([Close] + [Punct(Semicolon)]) + [s] + (a + [Punct(Semicolon)]) + [c] + b
         == ([f, v, Punct(Equals)] + ([Open] + t + [Close])) + ([Punct(Semicolon)] + (([s] + a) + ([Punct(Semicolon)] + ([c] + b))))
  {
  }

  lemma {:induction false} TempText(f: string, n: nat)
    ensures Text(OfTemp(f, n)) == [Ident(Spelled(f)), Punct(LParen), Ident(SinCosVar(n)), Punct(RParen)]
  {
    assert IsGlsl(Var(SinCosVar(n)));
    assert Text(Var(SinCosVar(n))) == [Ident(SinCosVar(n))];
    assert ArgsText([Var(SinCosVar(n))]) == [Ident(SinCosVar(n))];
  }

  lemma {:induction false} ThreeTexts(env: Env, x: Expr, s: Word, c: Word, n: nat)
    requires Readable(Emitted(env, x, s, c, n))
    ensures StmtsText(Emitted(env, x, s, c, n))
         == ([FloatType, Ident(SinCosVar(n)), Punct(Equals)] + ([Open] + Text(Translate(env, x)) + [Close]))
            + ([Punct(Semicolon)]
               + (([Ident(s)] + [Punct(Equals), Ident(Spelled("sin")), Punct(LParen), Ident(SinCosVar(n)), Punct(RParen)])
                  + ([Punct(Semicolon)]
                     + ([Ident(c)] + [Punct(Equals), Ident(Spelled("cos")), Punct(LParen), Ident(SinCosVar(n)), Punct(RParen)]))))
  {
    hide Translate, IsGlsl, Grouped;
    var ss := Emitted(env, x, s, c, n);
    TempText("sin", n);
    TempText("cos", n);
    assert Text(ss[0].e) == [Open] + Text(Translate(env, x)) + [Close];
    hide Text;
    assert ss[1..][0] == ss[1] && ss[1..][1..][0] == ss[2] && |ss[1..][1..]| == 1;
    assert StmtText(ss[0]) == [FloatType, Ident(SinCosVar(n)), Punct(Equals)] + ([Open] + Text(Translate(env, x)) + [Close]);
    assert StmtText(ss[1]) == [Ident(s)] + [Punct(Equals), Ident(Spelled("sin")), Punct(LParen), Ident(SinCosVar(n)), Punct(RParen)];
    assert StmtText(ss[2]) == [Ident(c)] + [Punct(Equals), Ident(Spelled("cos")), Punct(LParen), Ident(SinCosVar(n)), Punct(RParen)];
    hide StmtText;
    assert StmtsText(ss[1..][1..]) == StmtText(ss[2]);
    assert StmtsText(ss[1..]) == StmtText(ss[1]) + ([Punct(Semicolon)] + StmtText(ss[2]));
  }

  /**
   * Wherever `sincos` of a source expression and two variables stands, with whatever whitespace, the
   * loop appends a text with one reading as statements, and running those gives every variable the
   * value the source gives it.
   */
  lemma {:induction false} SinCosCorrect<V(!new)>(
      m: Meaning<V>, c: Ctx, i: nat, x: Expr, s: Word, k: Word, its: seq<Item>, end: Word, st: State)
    returns (out: seq<Token>, ss: seq<Stmt>)
    requires Standard(m) && Source(c.env, x) && Grouped(x) && Agrees(m, c.env, x)
    requires s.Spelled? && k.Spelled? && GlWord(s) == s && GlWord(k) == k && Ident(s) != FloatType && Ident(k) != FloatType
    requires Strip(its) == SinCosTree(x, s, k) && Wf(c.env, its) && Passes(its, end)
    requires Stream(c.toks) && 0 < i && At(c.toks, i, Print(its)) && c.toks[i - 1].kind != End
    requires NoDotAt(c.toks, i + |Print(its)|)
    ensures var st' := WriteItems(c.env, its, st);
            && Loop(c, i - 1, end, st) == Loop(c, i + |Print(its)| - 1, end, st')
            && Solid(st'.text) == Solid(st.text) + out
    ensures ParseStmts(out) == Some(ss) && Readable(ss)
    ensures forall w :: w != SinCosVar(st.counter) ==> Exec(m, ss).value(w) == SourceSinCos(m, c.env, x, s, k).value(w)
  {
    hide Stream, Source, Grouped, Agrees, Standard, Strip, Wf, Passes, At, Print, NoDotAt, Loop, WriteItems, Solid, GlWord,
         StmtsText, ParseStmts, Exec, SourceSinCos, SinCosTree, Emitted, Readable, Grew;
    ss := Emitted(c.env, x, s, k, st.counter);
    SinCosWritten(c.env, x, s, k, st);
    out := StmtsText(ss);
    LoopItems(c, i, its, end, st);
    WhitespaceIrrelevant(c.env, its, st, st);
    GrewIs(st, WriteItems(c.env, SinCosTree(x, s, k), st), out);
    StmtsInvert(ss);
    forall w | w != SinCosVar(st.counter) ensures Exec(m, ss).value(w) == SourceSinCos(m, c.env, x, s, k).value(w) {
      SameAssignments(m, c.env, x, s, k, st.counter, w);
    }
  }

  lemma {:induction false} GrewIs(st: State, st': State, ts: seq<Token>)
    ensures Grew(st, st', ts) <==> Solid(st'.text) == Solid(st.text) + ts
  {
  }
}

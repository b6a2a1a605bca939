/**
 * The translator theorem with its samplers: the program puts into each texture the sampler that the
 * writer recorded last, and an expression keeps its value if it samples each texture through one
 * sampler only.
 */
module ShaderSamplers {
  import opened Wrappers
  import opened ShaderTokens
  import opened ShaderExpr
  import opened GlslWriter
  import opened TokenTrees
  import opened WriterCorrectness
  import opened Translation
  import opened TranslationSoundness
  import opened ShaderMeaning
  import opened SamplerBindings

  // ----- Sampling calls of an expression

  lemma {:induction false} CallsConcat(x: seq<Item>, y: seq<Item>)
    ensures Calls(x + y) == Calls(x) + Calls(y)
  {
    hide CallsOf;
    if x == [] {
      assert x + y == y;
    } else {
      assert (x + y)[0] == x[0] && (x + y)[1..] == x[1..] + y;
      CallsConcat(x[1..], y);
    }
  }

  lemma {:induction false} LeafCalls(ts: seq<Item>)
    requires forall i :: 0 <= i < |ts| ==> ts[i].Leaf?
    ensures Calls(ts) == []
  {
    if ts != [] { LeafCalls(ts[1..]); }
  }

  /** Whitespace holds no calls. */
  lemma {:induction false} CallsStripped(its: seq<Item>)
    ensures Calls(Strip(its)) == Calls(its)
    decreases its, 0
  {
    hide CallsOf, StripItem;
    if its != [] {
      CallsStripped(its[1..]);
      var it := its[0];
      CallsOfStripped(it);
      if !(it.Leaf? && IsWhite(it.t)) {
        assert Strip(its)[0] == StripItem(it) && Strip(its)[1..] == Strip(its[1..]);
      } else {
        LeafCalls([it]);
        assert its == [it] + its[1..];
        CallsConcat([it], its[1..]);
      }
    }
  }

  lemma {:induction false} CallsOfStripped(it: Item)
    ensures CallsOf(StripItem(it)) == CallsOf(it)
    decreases it, 1
  {
    hide Calls, Strip;
    match it
    case Leaf(_) =>
    case Group(_, body) => CallsStripped(body);
    case MulCall(_, a, _, b) =>
      CallsStripped(a);
      CallsStripped(b);
    case MadCall(_, a, _, b, _, c) =>
      CallsStripped(a);
      CallsStripped(b);
      CallsStripped(c);
    case SaturateCall(_, a) => CallsStripped(a);
    case SinCosCall(_, a, _, b, _, c) =>
      CallsStripped(a);
      CallsStripped(b);
      CallsStripped(c);
    case Sampling(_, _, _, _, _, _, _, args) => CallsStripped(args);
  }

  // ----- Textures that have the samplers named

  /** In GLSL each texture's name stands for the texture with the sampler bound to it, or without one. */
  ghost predicate SamplersPut<V>(m: Meaning<V>, env: Env, bound: map<Word, nat>) {
    && (forall t :: t in bound ==>
          bound[t] < |env.samplers| && m.value(t) == m.through(m.texture(t), env.samplers[bound[t]]))
    && (forall t :: t !in bound ==> m.value(t) == m.texture(t))
  }

  /** Each texture is sampled through one sampler. */
  predicate OneEach(calls: seq<Call>) {
    forall j, k :: 0 <= j < |calls| && 0 <= k < |calls| && calls[j].tex == calls[k].tex ==> calls[j].sampler == calls[k].sampler
  }

  ghost predicate Served<V>(m: Meaning<V>, calls: seq<Call>) {
    forall k :: 0 <= k < |calls| ==> m.value(calls[k].tex) == m.through(m.texture(calls[k].tex), calls[k].sampler)
  }

  lemma {:induction false} OneEachServed<V>(m: Meaning<V>, env: Env, its: seq<Item>, st: State)
    requires Wf(env, its) && OneEach(Calls(its)) && SamplersPut(m, env, WriteItems(env, its, st).samplerOf)
    ensures Served(m, Calls(its))
  {
    hide Calls, Wf, WriteItems;
    var calls := Calls(its);
    forall k | 0 <= k < |calls| ensures m.value(calls[k].tex) == m.through(m.texture(calls[k].tex), calls[k].sampler) {
      var l := LastFrom(calls, k);
      OwnSamplerIff(env, its, st, k, l);
    }
  }

  lemma {:induction false} ServedParts<V>(m: Meaning<V>, x: seq<Call>, y: seq<Call>)
    requires Served(m, x + y)
    ensures Served(m, x) && Served(m, y)
  {
    var z := x + y;
    assert forall k :: 0 <= k < |x| ==> z[k] == x[k];
    assert forall k :: 0 <= k < |y| ==> z[|x| + k] == y[k];
  }

  /** Every texture is something the program can have put there. */
  ghost predicate AllPut<V>(m: Meaning<V>) { forall t: Word :: SameTexture(m, t, NoSampler) }

  lemma {:induction false} ServedTextured<V>(m: Meaning<V>, env: Env, e: Expr)
    requires Source(env, e) && AllPut(m) && Served(m, Calls(Flatten(e)))
    ensures Textured(m, e)
    decreases e, 1
  {
    hide TypeName, TextureType, Served, SameTexture, AllPut, Calls, FreeName, GlWord, WfSampling;
    match e
    case Literal(_) =>
    case Var(_) =>
    case Paren(x) =>
      GroupCalls(false, Flatten(x));
      ServedTextured(m, env, x);
    case Neg(x) =>
      LeadCalls(Punct(Minus), Flatten(x));
      ServedTextured(m, env, x);
    case Bin(op, l, r) =>
      JoinCalls(Flatten(l), Punct(OpWord(op)), Flatten(r));
      ServedParts(m, Calls(Flatten(l)), Calls(Flatten(r)));
      ServedTextured(m, env, l);
      ServedTextured(m, env, r);
    case Member(x, field) =>
      CallsConcat(Flatten(x), [Leaf(DotTok), Leaf(Ident(field))]);
      LeafCalls([Leaf(DotTok), Leaf(Ident(field))]);
      assert Calls(Flatten(e)) == Calls(Flatten(x)) + [] == Calls(Flatten(x));
      ServedTextured(m, env, x);
    case Call(f, args) => CallTextured(m, env, e);
    case Sample(tex, tm, s, args) => SampleTextured(m, env, e);
  }

  lemma {:induction false} OneItemCalls(it: Item)
    ensures Calls([it]) == CallsOf(it)
  {
    hide CallsOf;
    assert [it][1..] == [];
  }

  lemma {:induction false} GroupCalls(brace: bool, body: seq<Item>)
    ensures Calls([Group(brace, body)]) == Calls(body)
  {
    OneItemCalls(Group(brace, body));
  }

  lemma {:induction false} LeadCalls(t: Token, x: seq<Item>)
    ensures Calls([Leaf(t)] + x) == Calls(x)
  {
    LeafCalls([Leaf(t)]);
    CallsConcat([Leaf(t)], x);
  }

  lemma {:induction false} JoinCalls(x: seq<Item>, t: Token, y: seq<Item>)
    ensures Calls(x + [Leaf(t)] + y) == Calls(x) + Calls(y)
  {
    LeafCalls([Leaf(t)]);
    CallsConcat(x + [Leaf(t)], y);
    CallsConcat(x, [Leaf(t)]);
  }

  lemma {:induction false} ArgsTextured<V>(m: Meaning<V>, env: Env, args: seq<Expr>)
    requires AllPut(m) && Served(m, Calls(FlattenArgs(args))) && forall i :: 0 <= i < |args| ==> Source(env, args[i])
    ensures forall i :: 0 <= i < |args| ==> Textured(m, args[i])
    decreases args, 0
  {
    hide Source, Served, AllPut, Calls, Textured, Flatten;
    if |args| == 1 {
      ServedTextured(m, env, args[0]);
    } else if |args| > 1 {
      JoinCalls(Flatten(args[0]), CommaTok, FlattenArgs(args[1..]));
      ServedParts(m, Calls(Flatten(args[0])), Calls(FlattenArgs(args[1..])));
      ServedTextured(m, env, args[0]);
      ArgsTextured(m, env, args[1..]);
      assert forall i :: 1 <= i < |args| ==> args[i] == args[1..][i - 1];
    }
  }

  lemma {:induction false} CallTextured<V>(m: Meaning<V>, env: Env, e: Expr)
    requires e.Call? && Source(env, e) && AllPut(m) && Served(m, Calls(Flatten(e)))
    ensures Textured(m, e)
    decreases e, 0
  {
    hide TypeName, TextureType, Served, AllPut, Calls, FreeName, OpensParen, SameTexture, WfSampling;
    var f, args := e.f, e.args;
    if f == MulName && |args| == 2 {
      OneItemCalls(MulCall([], Flatten(args[0]), [], Flatten(args[1])));
      ServedParts(m, Calls(Flatten(args[0])), Calls(Flatten(args[1])));
      ServedTextured(m, env, args[0]);
      ServedTextured(m, env, args[1]);
    } else if f == MadName && |args| == 3 {
      MadCalls(m, args[0], args[1], args[2]);
      ServedTextured(m, env, args[0]);
      ServedTextured(m, env, args[1]);
      ServedTextured(m, env, args[2]);
    } else if f == SaturateName && |args| == 1 {
      OneItemCalls(SaturateCall([], Flatten(args[0])));
      ServedTextured(m, env, args[0]);
    } else {
      PlainCalls(f, args);
      ArgsTextured(m, env, args);
    }
  }

  lemma {:induction false} MadCalls<V>(m: Meaning<V>, x: Expr, y: Expr, z: Expr)
    requires Served(m, Calls([MadCall([], Flatten(x), [], Flatten(y), [], Flatten(z))]))
    ensures Served(m, Calls(Flatten(x))) && Served(m, Calls(Flatten(y))) && Served(m, Calls(Flatten(z)))
  {
    hide Calls, Flatten, Served;
    OneItemCalls(MadCall([], Flatten(x), [], Flatten(y), [], Flatten(z)));
    ServedParts(m, Calls(Flatten(x)) + Calls(Flatten(y)), Calls(Flatten(z)));
    ServedParts(m, Calls(Flatten(x)), Calls(Flatten(y)));
  }

  lemma {:induction false} PlainCalls(f: Word, args: seq<Expr>)
    ensures Calls([Leaf(Ident(f)), Group(false, FlattenArgs(args))]) == Calls(FlattenArgs(args))
  {
    hide Calls, FlattenArgs;
    var g := [Group(false, FlattenArgs(args))];
    assert [Leaf(Ident(f)), Group(false, FlattenArgs(args))] == [Leaf(Ident(f))] + g;
    LeadCalls(Ident(f), g);
    GroupCalls(false, FlattenArgs(args));
  }

  lemma {:induction false} SampleTextured<V>(m: Meaning<V>, env: Env, e: Expr)
    requires e.Sample? && Source(env, e) && AllPut(m) && Served(m, Calls(Flatten(e)))
    ensures Textured(m, e)
    decreases e, 0
  {
    hide TypeName, TextureType, Calls, WfSampling, OpensParen;
    var own := if e.sampler.Named? then [Call.Call(e.tex, e.sampler.name)] else [];
    OneItemCalls(Flatten(e)[0]);
    assert Calls(Flatten(e)) == own + Calls(FlattenArgs(e.args));
    ServedParts(m, own, Calls(FlattenArgs(e.args)));
    assert e.sampler.Named? ==> own[0] == Call.Call(e.tex, e.sampler.name);
    hide Served;
    ArgsTextured(m, env, e.args);
  }

  lemma {:induction false} PutEverywhere<V>(m: Meaning<V>, env: Env, bound: map<Word, nat>)
    requires SamplersPut(m, env, bound)
    ensures AllPut(m)
  {
    forall t: Word ensures SameTexture(m, t, NoSampler) {
      if t in bound { assert m.value(t) == m.through(m.texture(t), env.samplers[bound[t]]); }
    }
  }

  /** Then every sampling call of the expression finds its own sampler. */
  lemma {:induction false} SamplersFound<V>(m: Meaning<V>, env: Env, e: Expr, its: seq<Item>, st: State)
    requires Source(env, e) && Wf(env, its) && Strip(its) == Flatten(e) && OneEach(Calls(its))
    requires SamplersPut(m, env, WriteItems(env, its, st).samplerOf)
    ensures Textured(m, e)
  {
    hide Calls, Wf, WriteItems, Strip, Flatten, Source, Textured, Served, SamplersPut, OneEach, AllPut;
    CallsStripped(its);
    OneEachServed(m, env, its, st);
    PutEverywhere(m, env, WriteItems(env, its, st).samplerOf);
    ServedTextured(m, env, e);
  }

  /**
   * The translator theorem without assumptions on single operands: a source expression with harmless
   * operations that samples each texture through one sampler, wherever it stands and with whatever
   * whitespace, becomes a text with exactly one reading, and that reading has the value of the source
   * expression once the program puts into each texture the sampler the writer has recorded for it.
   */
  lemma {:induction false} HarmlessTranslated<V(!new)>(m: Meaning<V>, c: Ctx, i: nat, e: Expr, its: seq<Item>, end: Word, st: State)
    returns (out: seq<Token>, g: Expr, st': State)
    requires Standard(m) && Source(c.env, e) && Grouped(e) && Harmless(m, c.env, e) && OneEach(Calls(its))
    requires Strip(its) == Flatten(e) && Wf(c.env, its) && Passes(its, end)
    requires Stream(c.toks) && 0 < i && At(c.toks, i, Print(its)) && c.toks[i - 1].kind != End
    requires NoDotAt(c.toks, i + |Print(its)|)
    ensures Loop(c, i - 1, end, st) == Loop(c, i + |Print(its)| - 1, end, st') && Solid(st'.text) == Solid(st.text) + out
    ensures ParseExpr(1, out) == Ok(g, []) && IsGlsl(g)
    ensures SamplersPut(m, c.env, st'.samplerOf) ==> EvalGlsl(m, g) == EvalSource(m, c.env, e)
  {
    hide Stream, Source, Grouped, Agrees, Harmless, Standard, Strip, Flatten, Wf, Passes, At, Print, NoDotAt, Loop, WriteItems,
         Solid, EvalGlsl, EvalSource, Translate, Text, TypeName, TextureType, Calls, OneEach, Textured, SamplersPut;
    st' := WriteItems(c.env, its, st);
    out, g := TextRead(c, i, e, its, end, st);
    if SamplersPut(m, c.env, st'.samplerOf) {
      SamplersFound(m, c.env, e, its, st);
      HarmlessAgrees(m, c.env, e);
      SameValue(m, c.env, e);
    }
  }

  lemma {:induction false} TextRead(c: Ctx, i: nat, e: Expr, its: seq<Item>, end: Word, st: State) returns (out: seq<Token>, g: Expr)
    requires Source(c.env, e) && Grouped(e) && Strip(its) == Flatten(e) && Wf(c.env, its) && Passes(its, end)
    requires Stream(c.toks) && 0 < i && At(c.toks, i, Print(its)) && c.toks[i - 1].kind != End
    requires NoDotAt(c.toks, i + |Print(its)|)
    ensures var st' := WriteItems(c.env, its, st);
            && Loop(c, i - 1, end, st) == Loop(c, i + |Print(its)| - 1, end, st')
            && Solid(st'.text) == Solid(st.text) + out
    ensures ParseExpr(1, out) == Ok(g, []) && g == Translate(c.env, e)
  {
    hide Stream, Source, Grouped, Strip, Flatten, Wf, Passes, At, Print, NoDotAt, Loop, WriteItems, Solid, Translate, Text,
         TypeName, TextureType;
    g := Translate(c.env, e);
    out := Text(g);
    LoopItems(c, i, its, end, st);
    WhitespaceIrrelevant(c.env, its, st, st);
    WriteExpr(c.env, e, st);
    TranslateGrouped(c.env, e);
    UniqueReading(g);
  }
}

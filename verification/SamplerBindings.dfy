/**
 * The sampler each texture ends up with. GLSL knows one sampler per texture, so every sampling call
 * that names a sampler binds it to its texture, and the last such call is the one that counts.
 */
module SamplerBindings {
  import opened Wrappers
  import opened ShaderTokens
  import opened GlslWriter
  import opened TokenTrees
  import opened WriterCorrectness

  /** A sampling call that names a sampler. */
  datatype Call = Call(tex: Word, sampler: Word)

  /** All of them in a tree, in the order in which they begin. */
  function Calls(its: seq<Item>): seq<Call>
    decreases its, 0
  {
    if its == [] then [] else CallsOf(its[0]) + Calls(its[1..])
  }

  function CallsOf(it: Item): seq<Call>
    decreases it, 1
  {
    match it
    case Leaf(_) => []
    case Group(_, body) => Calls(body)
    case MulCall(_, a, _, b) => Calls(a) + Calls(b)
    case MadCall(_, a, _, b, _, c) => Calls(a) + Calls(b) + Calls(c)
    case SaturateCall(_, a) => Calls(a)
    case SinCosCall(_, a, _, b, _, c) => Calls(a) + Calls(b) + Calls(c)
    case Sampling(tex, _, _, _, _, s, _, args) => (if s.Some? then [Call(tex, s.value.name)] else []) + Calls(args)
  }

  /** The sampler of that name declared first. */
  predicate FirstNamed(samplers: seq<Word>, name: Word, k: nat) {
    k < |samplers| && samplers[k] == name && forall j :: 0 <= j < k ==> samplers[j] != name
  }

  /** The `k`-th call is the last one to sample its texture with a sampler. */
  predicate LastOf(calls: seq<Call>, k: nat) {
    k < |calls| && forall j :: k < j < |calls| ==> calls[j].tex != calls[k].tex
  }

  predicate Unsampled(calls: seq<Call>, t: Word) { forall j :: 0 <= j < |calls| ==> calls[j].tex != t }

  /** What a run of calls makes of the textures' samplers. */
  ghost predicate Bound(samplers: seq<Word>, calls: seq<Call>, was: map<Word, nat>, now: map<Word, nat>) {
    && (forall k :: 0 <= k < |calls| && LastOf(calls, k) ==> calls[k].tex in now && FirstNamed(samplers, calls[k].sampler, now[calls[k].tex]))
    && (forall t :: Unsampled(calls, t) ==> (t in now <==> t in was) && (t in was ==> t in now && now[t] == was[t]))
  }

  lemma {:induction false} BoundNone(samplers: seq<Word>, was: map<Word, nat>)
    ensures Bound(samplers, [], was, was)
  {
  }

  lemma {:induction false} BoundOne(samplers: seq<Word>, c: Call, k: nat, was: map<Word, nat>)
    requires FirstNamed(samplers, c.sampler, k)
    ensures Bound(samplers, [c], was, was[c.tex := k])
  {
    assert [c][0] == c;
  }

  lemma {:induction false} BoundConcat(samplers: seq<Word>, x: seq<Call>, y: seq<Call>, a: map<Word, nat>, b: map<Word, nat>, c: map<Word, nat>)
    requires Bound(samplers, x, a, b) && Bound(samplers, y, b, c)
    ensures Bound(samplers, x + y, a, c)
  {
    hide FirstNamed, LastOf, Unsampled;
    var z := x + y;
    forall k | 0 <= k < |z| && LastOf(z, k) ensures z[k].tex in c && FirstNamed(samplers, z[k].sampler, c[z[k].tex]) {
      if k >= |x| { LastInTail(x, y, k); } else { LastInHead(x, y, k); }
    }
    forall t | Unsampled(z, t) ensures (t in c <==> t in a) && (t in a ==> t in c && c[t] == a[t]) { UnsampledParts(x, y, t); }
  }

  lemma {:induction false} LastInTail(x: seq<Call>, y: seq<Call>, k: nat)
    requires LastOf(x + y, k) && k >= |x|
    ensures k < |x + y| && LastOf(y, k - |x|) && (x + y)[k] == y[k - |x|]
  {
    var z := x + y;
    forall j | k - |x| < j < |y| ensures y[j].tex != y[k - |x|].tex { assert z[j + |x|] == y[j] && z[k] == y[k - |x|]; }
  }

  lemma {:induction false} LastInHead(x: seq<Call>, y: seq<Call>, k: nat)
    requires LastOf(x + y, k) && k < |x|
    ensures LastOf(x, k) && Unsampled(y, x[k].tex) && (x + y)[k] == x[k]
  {
    var z := x + y;
    forall j | 0 <= j < |y| ensures y[j].tex != x[k].tex { assert z[j + |x|] == y[j]; }
    forall j | k < j < |x| ensures x[j].tex != x[k].tex { assert z[j] == x[j]; }
  }

  lemma {:induction false} UnsampledParts(x: seq<Call>, y: seq<Call>, t: Word)
    requires Unsampled(x + y, t)
    ensures Unsampled(x, t) && Unsampled(y, t)
  {
    var z := x + y;
    forall j | 0 <= j < |y| ensures y[j].tex != t { assert z[j + |x|] == y[j]; }
    forall j | 0 <= j < |x| ensures x[j].tex != t { assert z[j] == x[j]; }
  }

  // ----- The writer binds so

  ghost predicate Binds(env: Env, calls: seq<Call>, st: State, st': State) {
    Bound(env.samplers, calls, st.samplerOf, st'.samplerOf)
  }

  lemma {:induction false} ItemsBind(env: Env, its: seq<Item>, st: State)
    requires Wf(env, its)
    ensures Binds(env, Calls(its), st, WriteItems(env, its, st))
    decreases its, 1
  {
    hide WriteItem, WfItem, CallsOf, Bound, NoDot, TextureType;
    if its == [] {
      BoundNone(env.samplers, st.samplerOf);
    } else {
      ItemBinds(env, its[0], st);
      ItemsBind(env, its[1..], WriteItem(env, its[0], st));
      var st1 := WriteItem(env, its[0], st);
      BoundConcat(env.samplers, CallsOf(its[0]), Calls(its[1..]), st.samplerOf, st1.samplerOf, WriteItems(env, its[1..], st1).samplerOf);
    }
  }

  lemma {:induction false} ThenBinds(env: Env, a: seq<Call>, b: seq<Call>, x: State, y: State, z: State)
    requires Binds(env, a, x, y) && Binds(env, b, y, z)
    ensures Binds(env, a + b, x, z)
  {
    hide Bound;
    BoundConcat(env.samplers, a, b, x.samplerOf, y.samplerOf, z.samplerOf);
  }

  lemma {:induction false} ItemBinds(env: Env, it: Item, st: State)
    requires WfItem(env, it)
    ensures Binds(env, CallsOf(it), st, WriteItem(env, it, st))
    decreases it, 2
  {
    hide WriteItems, WriteSinCos, SamplingStart, Wf, White, Bound, Calls, WfSampling, PlainToken, MiddleArg, LastArg, TopLevelComma;
    match it
    case Leaf(_) => BoundNone(env.samplers, st.samplerOf);
    case Group(brace, body) => ItemsBind(env, body, st.Emit([OpenOf(brace)]));
    case MulCall(_, a, _, b) =>
      var x := st.Emit([Open]).Emit([Open]);
      var y := WriteItems(env, a, x).Emit(TimesParen);
      ItemsBind(env, a, x);
      ItemsBind(env, b, y);
      ThenBinds(env, Calls(a), Calls(b), st, y, WriteItems(env, b, y));
    case MadCall(_, a, _, b, _, c) =>
      var x := st.Emit([Open]).Emit([Open]);
      var y := WriteItems(env, a, x).Emit(TimesParen);
      var z := WriteItems(env, b, y).Emit(PlusParen);
      ItemsBind(env, a, x);
      ItemsBind(env, b, y);
      ItemsBind(env, c, z);
      ThenBinds(env, Calls(a), Calls(b), st, y, z);
      ThenBinds(env, Calls(a) + Calls(b), Calls(c), st, z, WriteItems(env, c, z));
    case SaturateCall(_, a) => ItemsBind(env, a, st.Emit([Ident(ClampName)]).Emit([Open]));
    case SinCosCall(_, _, _, _, _, _) => SinCosBinds(env, it, st);
    case Sampling(_, _, _, _, _, _, _, _) => SamplingBinds(env, it, st);
  }

  lemma {:induction false} SinCosBinds(env: Env, it: Item, st: State)
    requires it.SinCosCall? && Wf(env, it.a) && Wf(env, it.b) && Wf(env, it.c)
    ensures Binds(env, Calls(it.a) + Calls(it.b) + Calls(it.c), st, WriteSinCos(env, it, st))
    decreases it, 1
  {
    hide WriteItems, Wf, Calls, Bound, SinCosHead, SinCosAssign;
    var n := st.counter;
    var x := st.(counter := n + 1).Emit(SinCosHead(n)).Emit([Open]);
    var y := WriteItems(env, it.a, x).Emit([Close] + StatementBreak);
    var z := WriteItems(env, it.b, y).Emit(SinCosAssign("sin", n) + StatementBreak);
    ItemsBind(env, it.a, x);
    ItemsBind(env, it.b, y);
    ItemsBind(env, it.c, z);
    ThenBinds(env, Calls(it.a), Calls(it.b), st, y, z);
    ThenBinds(env, Calls(it.a) + Calls(it.b), Calls(it.c), st, z, WriteItems(env, it.c, z));
  }

  lemma {:induction false} SamplingBinds(env: Env, it: Item, st: State)
    requires it.Sampling? && Wf(env, it.args) && WfSampling(env, it.tex, it.texMethod, it.sampler)
    ensures Binds(env, CallsOf(it), st, WriteItem(env, it, st))
    decreases it, 1
  {
    hide WriteItems, Wf, Calls, Bound, SampleHead;
    var own := if it.sampler.Some? then [Call(it.tex, it.sampler.value.name)] else [];
    var st1 := SamplingStart(env, it.tex, it.texMethod, it.sampler, st);
    if it.sampler.Some? {
      BoundOne(env.samplers, own[0], FindSampler(env.samplers, it.sampler.value.name).value, st.samplerOf);
    } else {
      BoundNone(env.samplers, st.samplerOf);
    }
    ItemsBind(env, it.args, st1);
    BoundConcat(env.samplers, own, Calls(it.args), st.samplerOf, st1.samplerOf, WriteItems(env, it.args, st1).samplerOf);
  }

  /**
   * The loop over any tree: each texture ends with the sampler named in the last sampling call that
   * names one, as the first of that name among the declared samplers, and textures without such a
   * call keep the sampler they had.
   */
  lemma {:induction false} LoopBinds(c: Ctx, i: nat, its: seq<Item>, end: Word, st: State) returns (st': State)
    requires Stream(c.toks) && 0 < i && At(c.toks, i, Print(its)) && c.toks[i - 1].kind != End
    requires Wf(c.env, its) && Passes(its, end) && NoDotAt(c.toks, i + |Print(its)|)
    ensures Loop(c, i - 1, end, st) == Loop(c, i + |Print(its)| - 1, end, st')
    ensures forall k: nat :: LastOf(Calls(its), k) ==>
              var call := Calls(its)[k];
              call.tex in st'.samplerOf && FirstNamed(c.env.samplers, call.sampler, st'.samplerOf[call.tex])
    ensures forall t :: Unsampled(Calls(its), t) ==>
              (t in st'.samplerOf <==> t in st.samplerOf) && (t in st.samplerOf ==> st'.samplerOf[t] == st.samplerOf[t])
  {
    hide Loop, Print, Wf, WriteItems, NoDotAt, At, Passes, Stream, Calls, FirstNamed;
    LoopItems(c, i, its, end, st);
    ItemsBind(c.env, its, st);
    st' := WriteItems(c.env, its, st);
  }

  /** Every call has a last one for its texture at or behind it. */
  lemma {:induction false} LastFrom(calls: seq<Call>, k: nat) returns (l: nat)
    requires k < |calls|
    ensures k <= l && LastOf(calls, l) && calls[l].tex == calls[k].tex
    decreases |calls| - k
  {
    if j :| k < j < |calls| && calls[j].tex == calls[k].tex {
      l := LastFrom(calls, j);
    } else {
      l := k;
    }
  }

  /** A call samples with the sampler it names exactly if the last call for its texture names the same one. */
  lemma {:induction false} OwnSamplerIff(env: Env, its: seq<Item>, st: State, k: nat, l: nat)
    requires Wf(env, its) && k < |Calls(its)| && LastOf(Calls(its), l) && Calls(its)[l].tex == Calls(its)[k].tex
    ensures var call, now := Calls(its)[k], WriteItems(env, its, st).samplerOf;
            && call.tex in now
            && (FirstNamed(env.samplers, call.sampler, now[call.tex]) <==> call.sampler == Calls(its)[l].sampler)
  {
    hide WriteItems, Wf, Calls;
    ItemsBind(env, its, st);
  }

  /** A texture sampled through two samplers: the first call gets the second one's. */
  lemma {:induction false} TwoSamplers(env: Env, t: Word, p: Word, q: Word, x: Word, y: Word, m: Word, st: State)
    requires p != q && WfSampling(env, t, m, Some(SamplerArg([], p, []))) && WfSampling(env, t, m, Some(SamplerArg([], q, [])))
    requires LastArg([Leaf(Ident(x))]) && Wf(env, [Leaf(Ident(x))]) && LastArg([Leaf(Ident(y))]) && Wf(env, [Leaf(Ident(y))])
    ensures var its := [Sampling(t, [], [], m, [], Some(SamplerArg([], p, [])), [], [Leaf(Ident(x))]),
                        Sampling(t, [], [], m, [], Some(SamplerArg([], q, [])), [], [Leaf(Ident(y))])];
            && Wf(env, its) && Calls(its) == [Call(t, p), Call(t, q)]
            && var now := WriteItems(env, its, st).samplerOf;
            && t in now && FirstNamed(env.samplers, q, now[t]) && !FirstNamed(env.samplers, p, now[t])
  {
    hide WriteItems, WfSampling, FirstNamed;
    var a := Sampling(t, [], [], m, [], Some(SamplerArg([], p, [])), [], [Leaf(Ident(x))]);
    var b := Sampling(t, [], [], m, [], Some(SamplerArg([], q, [])), [], [Leaf(Ident(y))]);
    var its := [a, b];
    TwoCalls(env, a, b);
    assert LastOf(Calls(its), 1);
    OwnSamplerIff(env, its, st, 0, 1);
    OwnSamplerIff(env, its, st, 1, 1);
  }

  lemma {:induction false} TwoCalls(env: Env, a: Item, b: Item)
    requires WfItem(env, a) && WfItem(env, b) && a.Sampling? && b.Sampling? && a.sampler.Some? && b.sampler.Some?
    requires |a.args| == |b.args| == 1 && a.args[0].Leaf? && b.args[0].Leaf?
    ensures Wf(env, [a, b]) && Calls([a, b]) == [Call(a.tex, a.sampler.value.name), Call(b.tex, b.sampler.value.name)]
  {
    hide WfItem;
    assert [a, b][1..] == [b] && [b][1..] == [];
    assert Wf(env, [b]);
    assert a.args[1..] == [] && b.args[1..] == [];
    assert Calls(a.args) == [] && Calls(b.args) == [];
    assert Calls([b]) == CallsOf(b) + [];
    assert Calls([a, b]) == CallsOf(a) + Calls([b]);
  }
}

/**
 * The order of extra arguments. A call lists the callee's textures and samplers as the callee first
 * uses them, a signature as they are declared, and Metal binds the one to the other by position.
 */
module ArgumentOrder {
  import opened UsageAnalysis

  // ----- Lists of names

  predicate Before(decl: seq<Name>, a: Name, b: Name) {
    exists p, q :: 0 <= p < q < |decl| && decl[p] == a && decl[q] == b
  }

  /** Names come in the order of their declarations. */
  predicate Ordered(decl: seq<Name>, xs: seq<Name>) {
    forall i, j :: 0 <= i < j < |xs| ==> Before(decl, xs[i], xs[j])
  }

  function Selected(decl: seq<Name>, xs: seq<Name>): (r: seq<Name>)
    ensures forall n :: n in r <==> n in decl && n in xs
  {
    if decl == [] then [] else (if decl[0] in xs then [decl[0]] else []) + Selected(decl[1..], xs)
  }

  lemma {:induction false} SelectedOrdered(decl: seq<Name>, xs: seq<Name>)
    ensures Ordered(decl, Selected(decl, xs))
  {
    if decl != [] {
      var t, r := Selected(decl[1..], xs), Selected(decl, xs);
      SelectedOrdered(decl[1..], xs);
      forall i, j | 0 <= i < j < |r| ensures Before(decl, r[i], r[j]) {
        if decl[0] in xs && i == 0 {
          assert r[j] in decl[1..];
          var q :| 0 <= q < |decl[1..]| && decl[1..][q] == r[j];
          assert decl[0] == r[0] && decl[q + 1] == r[j];
        } else {
          var o := if decl[0] in xs then 1 else 0;
          assert r[i] == t[i - o] && r[j] == t[j - o];
          LaterBefore(decl, r[i], r[j]);
        }
      }
    }
  }

  lemma {:induction false} LaterBefore(decl: seq<Name>, a: Name, b: Name)
    requires decl != [] && Before(decl[1..], a, b)
    ensures Before(decl, a, b)
  {
    var p, q :| 0 <= p < q < |decl[1..]| && decl[1..][p] == a && decl[1..][q] == b;
    assert decl[p + 1] == a && decl[q + 1] == b;
  }

  lemma {:induction false} NotTheFirst(decl: seq<Name>, a: Name, b: Name)
    requires NoDuplicates(decl) && decl != [] && Before(decl, a, b)
    ensures b != decl[0] && (a != decl[0] ==> Before(decl[1..], a, b))
  {
    var p, q :| 0 <= p < q < |decl| && decl[p] == a && decl[q] == b;
    if p > 0 { assert decl[1..][p - 1] == a && decl[1..][q - 1] == b; }
  }

  lemma {:induction false} SameSelection(decl: seq<Name>, xs: seq<Name>, ys: seq<Name>)
    requires forall n :: n in decl ==> (n in xs <==> n in ys)
    ensures Selected(decl, xs) == Selected(decl, ys)
  {
    if decl != [] { SameSelection(decl[1..], xs, ys); }
  }

  /** If the first declaration is among ordered names it is the first of them, and only that one. */
  lemma {:induction false} FirstOnly(decl: seq<Name>, xs: seq<Name>)
    requires NoDuplicates(decl) && decl != [] && Ordered(decl, xs) && decl[0] in xs
    ensures xs[0] == decl[0] && decl[0] !in xs[1..]
  {
    hide Before;
    forall j | 0 < j < |xs| ensures xs[j] != decl[0] { NotTheFirst(decl, xs[0], xs[j]); }
    var k :| 0 <= k < |xs| && xs[k] == decl[0];
    assert k == 0;
  }

  lemma {:induction false} OrderedTail(decl: seq<Name>, xs: seq<Name>)
    requires NoDuplicates(decl) && decl != [] && Ordered(decl, xs) && decl[0] !in xs
    ensures Ordered(decl[1..], xs)
  {
    hide Before;
    forall i, j | 0 <= i < j < |xs| ensures Before(decl[1..], xs[i], xs[j]) { NotTheFirst(decl, xs[i], xs[j]); }
  }

  lemma {:induction false} OrderedRest(decl: seq<Name>, xs: seq<Name>)
    requires xs != [] && Ordered(decl, xs)
    ensures Ordered(decl, xs[1..])
  {
    hide Before;
  }

  lemma {:induction false} SelectFirst(decl: seq<Name>, xs: seq<Name>)
    requires NoDuplicates(decl) && decl != [] && xs != [] && xs[0] == decl[0]
    ensures Selected(decl, xs) == [xs[0]] + Selected(decl[1..], xs[1..])
  {
    assert forall n :: n in decl[1..] ==> n != decl[0];
    assert xs == [xs[0]] + xs[1..];
    SameSelection(decl[1..], xs, xs[1..]);
  }

  lemma {:induction false} InTail(decl: seq<Name>, xs: seq<Name>)
    requires decl != [] && decl[0] !in xs && forall n :: n in xs ==> n in decl
    ensures forall n :: n in xs ==> n in decl[1..]
  {
    assert decl == [decl[0]] + decl[1..];
  }

  lemma {:induction false} OrderedIsSelected(decl: seq<Name>, xs: seq<Name>)
    requires NoDuplicates(decl) && Ordered(decl, xs) && forall n :: n in xs ==> n in decl
    ensures Selected(decl, xs) == xs
    decreases |decl|
  {
    hide Ordered;
    if decl == [] {
      HasMember(xs);
    } else if decl[0] in xs {
      FirstOnly(decl, xs);
      OrderedRest(decl, xs);
      OrderedTail(decl, xs[1..]);
      InTail(decl, xs[1..]);
      OrderedIsSelected(decl[1..], xs[1..]);
      SelectFirst(decl, xs);
    } else {
      OrderedTail(decl, xs);
      InTail(decl, xs);
      OrderedIsSelected(decl[1..], xs);
    }
  }

  lemma {:induction false} HasMember(s: seq<Name>)
    ensures s != [] ==> exists n :: n in s
  {
    if s != [] { assert s[0] in s; }
  }

  /** Listing names without repetition gives the declarations' own order exactly when they come in it. */
  lemma {:induction false} SelectedIff(decl: seq<Name>, xs: seq<Name>)
    requires NoDuplicates(decl) && forall n :: n in xs ==> n in decl
    ensures Selected(decl, xs) == xs <==> Ordered(decl, xs)
  {
    hide Ordered;
    SelectedOrdered(decl, xs);
    if Ordered(decl, xs) { OrderedIsSelected(decl, xs); }
  }

  // ----- Arguments and parameters as such lists

  function Textures(ns: seq<Name>): (r: seq<Need>)
    ensures |r| == |ns| && forall i :: 0 <= i < |r| ==> r[i] == Texture(ns[i])
  {
    seq(|ns|, i requires 0 <= i < |ns| => Texture(ns[i]))
  }

  function Samplers(ns: seq<Name>): (r: seq<Need>)
    ensures |r| == |ns| && forall i :: 0 <= i < |r| ==> r[i] == Sampler(ns[i])
  {
    seq(|ns|, i requires 0 <= i < |ns| => Sampler(ns[i]))
  }

  function TextureNames(us: seq<Uniform>): (r: seq<Name>)
    ensures forall n :: n in r <==> Uniform(n, true) in us
  {
    if us == [] then [] else (if us[0].texture then [us[0].name] else []) + TextureNames(us[1..])
  }

  lemma {:induction false} TextureNamesDistinct(us: seq<Uniform>)
    requires forall i, j :: 0 <= i < j < |us| ==> us[i].name != us[j].name
    ensures NoDuplicates(TextureNames(us))
  {
    if us != [] {
      TextureNamesDistinct(us[1..]);
      assert forall n :: n in TextureNames(us[1..]) ==> n != us[0].name;
    }
  }

  lemma {:induction false} TextureArgumentList(env: Env, ts: seq<Name>)
    requires forall t :: t in ts ==> IsTexture(env, t)
    ensures TextureArguments(env, ts) == Textures(ts)
  {
    hide IsTexture;
    if ts != [] {
      assert ts[0] in ts && forall t :: t in ts[1..] ==> t in ts;
      TextureArgumentList(env, ts[1..]);
    }
  }

  lemma {:induction false} SamplerArgumentList(env: Env, ss: seq<Name>)
    requires forall t :: t in ss ==> t in env.samplers
    ensures SamplerArguments(env, ss) == Samplers(ss)
  {
    if ss != [] { SamplerArgumentList(env, ss[1..]); }
  }

  lemma {:induction false} SelectCons(n: Name, decl: seq<Name>, xs: seq<Name>)
    ensures Selected([n] + decl, xs) == (if n in xs then [n] else []) + Selected(decl, xs)
  {
    assert ([n] + decl)[1..] == decl;
  }

  lemma {:induction false} TextureParameterList(us: seq<Uniform>, d: Usage)
    ensures TextureParameters(us, d, false) == Textures(Selected(TextureNames(us), d.textures))
  {
    hide Selected;
    if us == [] {
      assert Selected([], d.textures) == [] by { HasMember(Selected([], d.textures)); }
    } else {
      TextureParameterList(us[1..], d);
      SelectCons(us[0].name, TextureNames(us[1..]), d.textures);
      assert !us[0].texture ==> TextureNames(us) == TextureNames(us[1..]);
    }
  }

  lemma {:induction false} SamplerParameterList(ss: seq<Name>, d: Usage)
    ensures SamplerParameters(ss, d, false) == Samplers(Selected(ss, d.samplers))
  {
    if ss != [] { SamplerParameterList(ss[1..], d); }
  }

  lemma {:induction false} DifferentSplit(u: seq<Need>, ts: seq<Name>, ss: seq<Name>, ts': seq<Name>, ss': seq<Name>)
    ensures |ts| < |ts'| ==> u + Textures(ts) + Samplers(ss) != u + Textures(ts') + Samplers(ss')
  {
    var l, r, k := u + Textures(ts) + Samplers(ss), u + Textures(ts') + Samplers(ss'), |u| + |ts|;
    if |ts| < |ts'| && |l| == |r| {
      assert r[k] == Texture(ts'[k - |u|]);
      assert l[k] == Sampler(ss[0]);
    }
  }

  lemma {:induction false} SameLists(u: seq<Need>, ts: seq<Name>, ss: seq<Name>, ts': seq<Name>, ss': seq<Name>)
    ensures u + Textures(ts) + Samplers(ss) == u + (Textures(ts') + Samplers(ss')) <==> ts == ts' && ss == ss'
  {
    var l, r := u + Textures(ts) + Samplers(ss), u + Textures(ts') + Samplers(ss');
    assert u + (Textures(ts') + Samplers(ss')) == r;
    DifferentSplit(u, ts, ss, ts', ss');
    DifferentSplit(u, ts', ss', ts, ss);
    if l == r {
      forall i | 0 <= i < |ts| ensures ts[i] == ts'[i] {
        assert l[|u| + i] == Texture(ts[i]) && r[|u| + i] == Texture(ts'[i]);
      }
      forall i | 0 <= i < |ss| ensures ss[i] == ss'[i] {
        assert l[|u| + |ts| + i] == Sampler(ss[i]) && r[|u| + |ts| + i] == Sampler(ss'[i]);
      }
    }
  }

  // ----- By position

  lemma {:induction false} BoundByPosition(env: Env, d: Usage)
    requires Grounded(env, d) && DistinctDeclarations(env)
    ensures Arguments(env, d) == Parameters(env, d, false)
            <==> Ordered(TextureNames(env.uniforms), d.textures) && Ordered(env.samplers, d.samplers)
  {
    hide Ordered, Selected, Textures, Samplers, TextureNames, TextureArguments, SamplerArguments, TextureParameters,
         SamplerParameters;
    var ts, ss := TextureNames(env.uniforms), env.samplers;
    TextureArgumentList(env, d.textures);
    SamplerArgumentList(env, d.samplers);
    UniformsListed(env, d);
    var u := if d.uniforms then [Uniforms] else [];
    if env.fragment {
      TextureParameterList(env.uniforms, d);
      SamplerParameterList(ss, d);
      TextureNamesDistinct(env.uniforms);
      SelectedIff(ts, d.textures);
      SelectedIff(ss, d.samplers);
      SameLists(u, d.textures, d.samplers, Selected(ts, d.textures), Selected(ss, d.samplers));
    } else {
      NoneListed(env, d);
      SameLists(u, d.textures, d.samplers, [], []);
      assert u + (Textures([]) + Samplers([])) == u;
    }
  }

  lemma {:induction false} UniformsListed(env: Env, d: Usage)
    requires Grounded(env, d)
    ensures d.uniforms ==> HasValues(env)
  {
    if d.uniforms {
      var n :| IsValue(env, n);
    }
  }

  lemma {:induction false} NoneListed(env: Env, d: Usage)
    requires Grounded(env, d) && !env.fragment
    ensures d.textures == [] && d.samplers == []
    ensures Ordered(TextureNames(env.uniforms), d.textures) && Ordered(env.samplers, d.samplers)
  {
    HasMember(d.textures);
    HasMember(d.samplers);
  }

  /**
   * A call passes the callee's textures and samplers in the places where the callee expects them
   * exactly when the callee's first uses, its own callees' included, come in declaration order.
   */
  lemma {:induction false} CallBindsByPosition(env: Env, fs: seq<Func>, i: nat)
    requires DistinctNames(fs) && DistinctDeclarations(env) && i < |fs|
    ensures var d := Result(env, fs, i);
            Arguments(env, d) == Parameters(env, d, false)
            <==> Ordered(TextureNames(env.uniforms), d.textures) && Ordered(env.samplers, d.samplers)
  {
    hide Result;
    ResultGrounded(env, fs, i);
    BoundByPosition(env, Result(env, fs, i));
  }

  /** Two textures used in the other order than declared: each parameter is given the other's texture. */
  lemma {:induction false} TexturesSwapped(a: Name, b: Name, f: Name)
    requires a != b && f != a && f != b
    ensures var env, fs := Env([Uniform(a, true), Uniform(b, true)], [], true), [Func(f, [b, a])];
            && Parameters(env, Result(env, fs, 0), false) == [Texture(a), Texture(b)]
            && Arguments(env, Result(env, fs, 0)) == [Texture(b), Texture(a)]
  {
    var env, fs := Env([Uniform(a, true), Uniform(b, true)], [], true), [Func(f, [b, a])];
    SwappedResult(env, fs, a, b, f);
    hide Result;
    var d := Result(env, fs, 0);
    TextureArgumentList(env, d.textures);
    assert env.uniforms[1..] == [Uniform(b, true)];
    assert TextureParameters([Uniform(b, true)], d, false) == [Texture(b)];
    assert TextureParameters(env.uniforms, d, false) == [Texture(a), Texture(b)];
  }

  lemma {:induction false} SwappedResult(env: Env, fs: seq<Func>, a: Name, b: Name, f: Name)
    requires a != b && f != a && f != b && fs == [Func(f, [b, a])]
    requires env == Env([Uniform(a, true), Uniform(b, true)], [], true)
    ensures Result(env, fs, 0) == Usage(false, [b, a], [])
    ensures IsTexture(env, a) && IsTexture(env, b)
  {
    hide Absorb, IsTexture;
    var m := Declared(fs);
    assert fs[0] in fs;
    assert m[f] == Nothing && a !in m && b !in m;
    assert env.uniforms[0] == Uniform(a, true) && env.uniforms[1] == Uniform(b, true);
    TextureMention(env, m, Nothing, b);
    TextureMention(env, m, Usage(false, [b], []), a);
    assert Absorb(env, m, Nothing, b) == Usage(false, [b], []);
    assert Absorb(env, m, Usage(false, [b], []), a) == Usage(false, [b, a], []);
    assert [b, a][1..] == [a] && [a][1..] == [];
    assert AbsorbAll(env, m, Usage(false, [b, a], []), []) == Usage(false, [b, a], []);
    assert AbsorbAll(env, m, Usage(false, [b], []), [a]) == Usage(false, [b, a], []);
    assert AbsorbAll(env, m, Nothing, [b, a]) == Usage(false, [b, a], []);
    assert Unique([b]) == [b] && [b, a][..1] == [b] && Unique([b, a]) == [b, a];
    assert Analysed(env, fs, 0) == m;
  }

  lemma {:induction false} TextureMention(env: Env, m: map<Name, Usage>, d: Usage, n: Name)
    requires env.fragment && env.samplers == [] && Uniform(n, true) in env.uniforms && n !in m
    requires forall i :: 0 <= i < |env.uniforms| ==> env.uniforms[i].texture
    ensures IsTexture(env, n) && Absorb(env, m, d, n) == d.(textures := d.textures + [n])
  {
    var i :| 0 <= i < |env.uniforms| && env.uniforms[i] == Uniform(n, true);
  }
}

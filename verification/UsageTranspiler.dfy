/** The transpiler's passes over the token array, shown to compute what the usage analysis specifies. */
module UsageTranspiler {
  import opened UsageAnalysis

  /** A parsed function: its name and the position of its opening brace. */
  datatype Declaration = Declaration(name: Name, start: nat)

  ghost function Functions(toks: seq<Token>, decls: seq<Declaration>): (fs: seq<Func>)
    requires forall i :: 0 <= i < |decls| ==> decls[i].start < |toks|
    ensures |fs| == |decls|
    ensures forall i :: 0 <= i < |fs| ==> fs[i] == Func(decls[i].name, Scan(toks, decls[i].start, RBrace).0)
  {
    seq(|decls|, i requires 0 <= i < |decls| => Func(decls[i].name, Scan(toks, decls[i].start, RBrace).0))
  }

  lemma {:induction false} AbsorbConcat(env: Env, fs: map<Name, Usage>, d: Usage, a: seq<Name>, b: seq<Name>)
    ensures AbsorbAll(env, fs, d, a + b) == AbsorbAll(env, fs, AbsorbAll(env, fs, d, a), b)
    decreases |a|
  {
    if a == [] {
      assert a + b == b;
    } else {
      assert (a + b)[1..] == a[1..] + b;
      AbsorbConcat(env, fs, Absorb(env, fs, d, a[0]), a[1..], b);
    }
  }

  lemma AbsorbOne(env: Env, fs: map<Name, Usage>, d: Usage, n: Name)
    ensures AbsorbAll(env, fs, d, [n]) == Absorb(env, fs, d, n)
  {
    assert [n][1..] == [];
  }

  class Transpiler {
    const env: Env
    var functions: map<Name, Usage>
    var functionsOrder: seq<Name>

    constructor (env: Env, functions: map<Name, Usage>)
      ensures this.env == env && this.functions == functions && functionsOrder == []
    {
      this.env, this.functions, functionsOrder := env, functions, [];
    }

    /** One name in a body: every table is asked in turn. */
    method Collect(d: Usage, n: Name) returns (d': Usage)
      ensures d' == Absorb(env, functions, d, n)
    {
      d' := d;
      if IsValue(env, n) && !d'.uniforms {
        d' := d'.(uniforms := true);
      }
      if n in functions {
        var callee := functions[n];
        if callee.uniforms && !d'.uniforms {
          d' := d'.(uniforms := true);
        }
        d' := d'.(textures := d'.textures + callee.textures, samplers := d'.samplers + callee.samplers);
      }
      if env.fragment {
        if IsTexture(env, n) {
          d' := d'.(textures := d'.textures + [n]);
        }
        if n in env.samplers {
          d' := d'.(samplers := d'.samplers + [n]);
        }
      }
    }

    /** Walks a body or bracket with one cursor that nested calls move forward. */
    method AnalyzeFunction(toks: seq<Token>, i: nat, end: Token, d: Usage) returns (d': Usage, token: nat)
      requires i < |toks|
      ensures token == Scan(toks, i, end).1
      ensures d' == AbsorbAll(env, functions, d, Scan(toks, i, end).0)
      decreases |toks| - i
    {
      hide AbsorbAll, Absorb, Scan;
      ghost var total := Scan(toks, i, end);
      ghost var seen: seq<Name> := [];
      d', token := d, i;
      NothingSeen(env, functions, d, total.0);
      while token < |toks|
        invariant i <= token <= |toks|
        invariant total == (seen + Scan(toks, token, end).0, Scan(toks, token, end).1)
        invariant d' == AbsorbAll(env, functions, d, seen)
        decreases |toks| - token
      {
        ScanUnfold(toks, token, end);
        ghost var was := token;
        token := token + 1;
        if token < |toks| {
          var t := toks[token];
          if t == end {
            assert total == (seen + [], token) && seen + [] == seen;
            return;
          }
          if t.Name? {
            AbsorbConcat(env, functions, d, seen, [t.text]);
            AbsorbOne(env, functions, d', t.text);
            d' := Collect(d', t.text);
            assert seen + ([t.text] + Scan(toks, token, end).0) == seen + [t.text] + Scan(toks, token, end).0;
            seen := seen + [t.text];
          } else if t == LBrace || t == LParen {
            var close := if t == LBrace then RBrace else RParen;
            ghost var inner := Scan(toks, token, close);
            AbsorbConcat(env, functions, d, seen, inner.0);
            d', token := AnalyzeFunction(toks, token, close, d');
            assert seen + (inner.0 + Scan(toks, token, end).0) == seen + inner.0 + Scan(toks, token, end).0;
            seen := seen + inner.0;
          }
        }
      }
      ScanPastEnd(toks, end);
      assert seen + [] == seen;
    }

    /** Functions in declaration order; each result is in the table before the next body is read. */
    method AnalyzeFunctions(toks: seq<Token>, decls: seq<Declaration>)
      requires forall i :: 0 <= i < |decls| ==> decls[i].start < |toks|
      requires functions == Declared(Functions(toks, decls)) && functionsOrder == []
      modifies this
      ensures functions == Analysed(env, Functions(toks, decls), |decls|)
      ensures |functionsOrder| == |decls| && forall i :: 0 <= i < |decls| ==> functionsOrder[i] == decls[i].name
    {
      hide AbsorbAll, Scan, Analysed, Unique, Declared;
      ghost var fs := Functions(toks, decls);
      var i := 0;
      assert functions == Analysed(env, fs, 0) by { NotStartedYet(env, fs); }
      while i < |decls|
        invariant 0 <= i <= |decls|
        invariant functions == Analysed(env, fs, i)
        invariant |functionsOrder| == i && forall k :: 0 <= k < i ==> functionsOrder[k] == decls[k].name
      {
        var name := decls[i].name;
        AnalysedStep(env, fs, i);
        var d, token := AnalyzeFunction(toks, decls[i].start, RBrace, functions[name]);
        d := d.(textures := Unique(d.textures), samplers := Unique(d.samplers));
        functions := functions[name := d];
        functionsOrder := functionsOrder + [name];
        i := i + 1;
      }
    }

    /** Extra arguments for a call, gathered list by list. */
    method GenerateAdditionalArguments(name: Name) returns (output: seq<Need>)
      ensures output == if name in functions then Arguments(env, functions[name]) else []
    {
      output := [];
      if name !in functions {
        return;
      }
      var d := functions[name];
      if d.uniforms {
        output := output + [Uniforms];
      }
      var textures := PassTextures(d.textures);
      var samplers := PassSamplers(d.samplers);
      output := output + textures + samplers;
    }

    method PassTextures(ts: seq<Name>) returns (output: seq<Need>)
      ensures output == TextureArguments(env, ts)
    {
      output := [];
      var i := 0;
      while i < |ts|
        invariant 0 <= i <= |ts|
        invariant output + TextureArguments(env, ts[i..]) == TextureArguments(env, ts)
      {
        if IsTexture(env, ts[i]) {
          output := output + [Texture(ts[i])];
        }
        i := i + 1;
      }
    }

    method PassSamplers(ss: seq<Name>) returns (output: seq<Need>)
      ensures output == SamplerArguments(env, ss)
    {
      output := [];
      var i := 0;
      while i < |ss|
        invariant 0 <= i <= |ss|
        invariant output + SamplerArguments(env, ss[i..]) == SamplerArguments(env, ss)
      {
        if ss[i] in env.samplers {
          output := output + [Sampler(ss[i])];
        }
        i := i + 1;
      }
    }

    /** Extra parameters in a function's signature. */
    method SignatureParameters(d: Usage, isMain: bool) returns (variables: seq<Need>)
      ensures variables == Parameters(env, d, isMain)
    {
      variables := [];
      if HasValues(env) {
        if isMain || d.uniforms {
          variables := variables + [Uniforms];
        }
      }
      if env.fragment {
        var textures := TakeTextures(d, isMain);
        var samplers := TakeSamplers(d, isMain);
        variables := variables + (textures + samplers);
      } else {
        assert variables + [] == variables;
      }
    }

    method TakeTextures(d: Usage, isMain: bool) returns (variables: seq<Need>)
      ensures variables == TextureParameters(env.uniforms, d, isMain)
    {
      hide TextureParameters;
      TextureStep(env.uniforms, d, isMain, |env.uniforms|);
      variables := [];
      var i := 0;
      while i < |env.uniforms|
        invariant 0 <= i <= |env.uniforms|
        invariant variables + TextureParameters(env.uniforms[i..], d, isMain) == TextureParameters(env.uniforms, d, isMain)
      {
        TextureStep(env.uniforms, d, isMain, i);
        var u := env.uniforms[i];
        if u.texture && (isMain || u.name in d.textures) {
          variables := variables + [Texture(u.name)];
        }
        i := i + 1;
      }
    }

    method TakeSamplers(d: Usage, isMain: bool) returns (variables: seq<Need>)
      ensures variables == SamplerParameters(env.samplers, d, isMain)
    {
      variables := [];
      var i := 0;
      while i < |env.samplers|
        invariant 0 <= i <= |env.samplers|
        invariant variables + SamplerParameters(env.samplers[i..], d, isMain) == SamplerParameters(env.samplers, d, isMain)
      {
        if isMain || env.samplers[i] in d.samplers {
          variables := variables + [Sampler(env.samplers[i])];
        }
        i := i + 1;
      }
    }
  }

  lemma {:induction false} TextureStep(us: seq<Uniform>, d: Usage, isMain: bool, i: nat)
    requires i <= |us|
    ensures us[0..] == us && us[|us|..] == [] && TextureParameters([], d, isMain) == []
    ensures i < |us| ==>
      TextureParameters(us[i..], d, isMain) ==
      (if us[i].texture && (isMain || us[i].name in d.textures) then [Texture(us[i].name)] else [])
      + TextureParameters(us[i + 1..], d, isMain)
  {
    if i < |us| { assert us[i..][1..] == us[i + 1..]; }
  }

  lemma AnalysedStep(env: Env, fs: seq<Func>, i: nat)
    requires i < |fs|
    ensures var m := Analysed(env, fs, i);
            Analysed(env, fs, i + 1) == m[fs[i].name := Trimmed(AbsorbAll(env, m, m[fs[i].name], fs[i].names))]
  {
    hide AbsorbAll, Trimmed;
  }

  lemma NotStartedYet(env: Env, fs: seq<Func>)
    ensures Analysed(env, fs, 0) == Declared(fs)
  {
  }

  lemma NothingSeen(env: Env, fs: map<Name, Usage>, d: Usage, names: seq<Name>)
    ensures AbsorbAll(env, fs, d, []) == d && [] + names == names
  {
  }

  lemma ScanPastEnd(toks: seq<Token>, end: Token)
    ensures Scan(toks, |toks|, end) == ([], |toks|)
  {
  }

  lemma ScanUnfold(toks: seq<Token>, i: nat, end: Token)
    requires i < |toks|
    ensures i + 1 == |toks| ==> Scan(toks, i, end) == Scan(toks, i + 1, end)
    ensures i + 1 < |toks| ==>
      var t := toks[i + 1];
      Scan(toks, i, end) ==
        if t == end then ([], i + 1)
        else if t.Name? then ([t.text] + Scan(toks, i + 1, end).0, Scan(toks, i + 1, end).1)
        else if t == LBrace || t == LParen then
          var inner := Scan(toks, i + 1, if t == LBrace then RBrace else RParen);
          (inner.0 + Scan(toks, inner.1, end).0, Scan(toks, inner.1, end).1)
        else Scan(toks, i + 1, end)
  {
  }

  // ----- From token bodies to the closure

  /** Each declaration's brace is followed by its balanced body and the closing brace. */
  predicate BodiesAt(toks: seq<Token>, decls: seq<Declaration>, bodies: seq<seq<Item>>) {
    |bodies| == |decls| &&
    forall i :: 0 <= i < |decls| ==>
      decls[i].start < |toks| && Balanced(bodies[i]) && At(toks, decls[i].start + 1, Print(bodies[i]) + [RBrace])
  }

  /** The functions with every name written in their bodies. */
  function Written(decls: seq<Declaration>, bodies: seq<seq<Item>>): (fs: seq<Func>)
    requires |bodies| == |decls|
    ensures |fs| == |decls| && forall i :: 0 <= i < |fs| ==> fs[i] == Func(decls[i].name, NamesIn(Print(bodies[i])))
  {
    seq(|decls|, i requires 0 <= i < |decls| => Func(decls[i].name, NamesIn(Print(bodies[i]))))
  }

  lemma {:induction false} ScannedIsWritten(toks: seq<Token>, decls: seq<Declaration>, bodies: seq<seq<Item>>)
    requires BodiesAt(toks, decls, bodies)
    ensures Functions(toks, decls) == Written(decls, bodies)
  {
    hide Scan, NamesIn, Print, At, Balanced;
    forall i | 0 <= i < |decls| ensures Functions(toks, decls)[i] == Written(decls, bodies)[i] {
      ScanBalanced(toks, decls[i].start, bodies[i], RBrace);
    }
  }

  /**
   * From tokens to result: where bodies are balanced and callees come first, the table the pass
   * leaves gives a function a need exactly if some function reachable from it writes the name.
   */
  lemma {:induction false} TableIsClosure(env: Env, toks: seq<Token>, decls: seq<Declaration>, bodies: seq<seq<Item>>,
                                          i: nat, need: Need)
    requires BodiesAt(toks, decls, bodies) && i < |decls|
    requires DistinctNames(Written(decls, bodies)) && CalleesFirst(Written(decls, bodies))
    ensures var fs := Written(decls, bodies);
            var table := Analysed(env, Functions(toks, decls), |decls|);
            && decls[i].name in table
            && (Has(table[decls[i].name], need) <==> exists path :: AnyPathTo(env, fs, i, need, path))
  {
    hide Scan, Analysed, AnyPathTo, DistinctNames, CalleesFirst, Has;
    ScannedIsWritten(toks, decls, bodies);
    assert Written(decls, bodies)[i].name == decls[i].name;
    UsageIsFullClosure(env, Written(decls, bodies), i, need);
  }
}

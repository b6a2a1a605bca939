/**
 * Values of expressions in both languages, over any carrier of scalars, vectors and matrices. Names
 * that both languages share denote the same thing in both. Whatever the languages call differently
 * has a meaning of its own in the source language: `*`, `mul`, `mad`, `saturate`, `lerp`, `fmod`,
 * constructors, the functions GLSL has under another name, sine and cosine of `sincos`, and sampling.
 */
module ShaderMeaning {
  import opened Wrappers
  import opened ShaderTokens
  import opened ShaderExpr
  import opened GlslWriter
  import opened TokenTrees
  import opened WriterCorrectness
  import opened Translation
  import opened TranslationSoundness

  /**
   * `star` is the source language's `*`, which is componentwise also on matrices, and `glStar` that
   * of GLSL; `linear` is the source language's `mul`, which on two vectors is their dot product.
   * `construct` and `intrinsic` give the source language's constructors and functions, `apply` GLSL's.
   * The source language samples a `texture` `through` a sampler named in the call; in GLSL the
   * texture's own name has a `value`, into which the program has put the sampler.
   */
  datatype Meaning<!V> = Meaning(
    num: Word -> V,
    value: Word -> V,
    field: (Word, V) -> V,
    negate: V -> V,
    add: (V, V) -> V,
    subtract: (V, V) -> V,
    divide: (V, V) -> V,
    star: (V, V) -> V,
    glStar: (V, V) -> V,
    linear: (V, V) -> V,
    saturate: V -> V,
    lerp: (V, V, V) -> V,
    fmod: (V, V) -> V,
    sine: V -> V,
    cosine: V -> V,
    construct: (Word, seq<V>) -> V,
    intrinsic: (Word, seq<V>) -> V,
    texture: Word -> V,
    through: (V, Word) -> V,
    sample: (Word, V, seq<V>) -> V,
    load: (ParamType, V, seq<V>) -> V,
    apply: (Word, seq<V>) -> V,
    isVector: V -> bool,
    isMatrix: V -> bool)

  // ----- What the two languages call the same thing

  /** Functions of the source language that GLSL has under another name. */
  function Counterpart(f: Word): Option<Word> {
    match f
    case Atan2Name => Some(Spelled("atan"))
    case DdxName => Some(Spelled("dFdx"))
    case DdyName => Some(Spelled("dFdy"))
    case FracName => Some(Spelled("fract"))
    case RsqrtName => Some(Spelled("inversesqrt"))
    case _ => None
  }

  /** Vector types: a base type and the number of components. */
  function GlVector(f: Word): Option<Word> {
    if !f.Spelled? || f.text == "" then None
    else
      var n := |f.text| - 1;
      var base, size := f.text[..n], f.text[n];
      if size != '2' && size != '3' && size != '4' then None
      else if base == "float" then Some(Spelled("vec" + [size]))
      else if base == "int" then Some(Spelled("ivec" + [size]))
      else if base == "uint" then Some(Spelled("uvec" + [size]))
      else None
  }

  /** Matrix types: their constructors fill rows in the source language and columns in GLSL. */
  predicate MatrixType(w: Word) { w == Spelled("float3x3") || w == Spelled("float3x4") || w == Spelled("float4x4") }

  /** Texture types, which construct nothing. */
  predicate TextureTypeName(w: Word) {
    w == Spelled("texture2d") || w == Spelled("texture3d") || w == Spelled("texture_cube") || w == Spelled("texture_rect")
  }

  predicate Constructor(f: Word) { GlVector(f).Some? || MatrixType(f) || TextureTypeName(f) }

  /**
   * What the two languages define: GLSL's product is the linear one unless both factors are vectors,
   * and the componentwise one unless a factor is a matrix; functions and vector constructors are the
   * same under their two names; so is sampling, and loading a texel ignores the sampler.
   */
  ghost predicate Standard<V(!new)>(m: Meaning<V>) {
    && (forall a, b :: !(m.isVector(a) && m.isVector(b)) ==> m.linear(a, b) == m.glStar(a, b))
    && (forall a, b :: !m.isMatrix(a) && !m.isMatrix(b) ==> m.star(a, b) == m.glStar(a, b))
    && (forall f, xs :: GlVector(f).Some? ==> m.construct(f, xs) == m.apply(GlVector(f).value, xs))
    && (forall f, xs :: Counterpart(f).Some? ==> m.intrinsic(f, xs) == m.apply(Counterpart(f).value, xs))
    && (forall x :: m.apply(ClampName, [x, m.num(Zero.w), m.num(One.w)]) == m.saturate(x))
    && (forall x, y, s :: m.apply(MixName, [x, y, s]) == m.lerp(x, y, s))
    && (forall x :: m.apply(Spelled("sin"), [x]) == m.sine(x))
    && (forall x :: m.apply(Spelled("cos"), [x]) == m.cosine(x))
    && StandardSampling(m)
  }

  ghost predicate StandardSampling<V(!new)>(m: Meaning<V>) {
    && (forall x, xs :: m.sample(SampleName, x, xs) == m.apply(Spelled("texture"), [x] + xs))
    && (forall x, xs :: m.sample(SampleBiasName, x, xs) == m.apply(Spelled("texture"), [x] + xs))
    && (forall x, xs :: m.sample(SampleGradName, x, xs) == m.apply(Spelled("textureGrad"), [x] + xs))
    && (forall x, xs :: m.sample(SampleLevelName, x, xs) == m.apply(Spelled("textureLod"), [x] + xs))
    && (forall t, xs :: m.load(Texture3D, t, xs) == m.apply(Spelled("obs_load_3d"), [t] + xs))
    && (forall t, xs :: m.load(OtherTexture, t, xs) == m.apply(Spelled("obs_load_2d"), [t] + xs))
    && (forall ty, t, s, xs :: m.load(ty, m.through(t, s), xs) == m.load(ty, t, xs))
  }

  function SourceCall<V>(m: Meaning<V>, f: Word, xs: seq<V>): V {
    if f == MulName && |xs| == 2 then m.linear(xs[0], xs[1])
    else if f == MadName && |xs| == 3 then m.add(m.star(xs[0], xs[1]), xs[2])
    else if f == SaturateName && |xs| == 1 then m.saturate(xs[0])
    else if f == LerpName && |xs| == 3 then m.lerp(xs[0], xs[1], xs[2])
    else if f == FmodName && |xs| == 2 then m.fmod(xs[0], xs[1])
    else if Constructor(f) then m.construct(f, xs)
    else if Counterpart(f).Some? then m.intrinsic(f, xs)
    else m.apply(GlOther(f), xs)
  }

  /** With a wrong number of arguments these two are errors in both languages. */
  function GlOther(f: Word): Word { if f == LerpName then MixName else if f == FmodName then ModName else f }

  function SourceSample<V>(m: Meaning<V>, env: Env, tex: Word, tm: Word, s: Sampler, xs: seq<V>): V {
    match s
    case Named(n) => m.sample(tm, m.through(m.texture(tex), n), xs)
    case NoSampler => m.load(TextureType(env, tex), m.texture(tex), xs)
  }

  function EvalGlsl<V>(m: Meaning<V>, e: Expr): V
    requires IsGlsl(e)
    decreases e, 1
  {
    match e
    case Literal(w) => m.num(w)
    case Var(name) => m.value(name)
    case Paren(x) => EvalGlsl(m, x)
    case Neg(x) => m.negate(EvalGlsl(m, x))
    case Bin(op, l, r) => GlslBin(m, op, EvalGlsl(m, l), EvalGlsl(m, r))
    case Member(x, field) => m.field(field, EvalGlsl(m, x))
    case Call(f, args) => m.apply(f, EvalGlslArgs(m, args))
  }

  function GlslBin<V>(m: Meaning<V>, op: Op, x: V, y: V): V {
    match op case AddOp => m.add(x, y) case SubOp => m.subtract(x, y) case MulOp => m.glStar(x, y) case DivOp => m.divide(x, y)
  }

  function SourceBin<V>(m: Meaning<V>, op: Op, x: V, y: V): V {
    if op == MulOp then m.star(x, y) else GlslBin(m, op, x, y)
  }

  function EvalGlslArgs<V>(m: Meaning<V>, args: seq<Expr>): (xs: seq<V>)
    requires forall i :: 0 <= i < |args| ==> IsGlsl(args[i])
    ensures |xs| == |args|
    decreases args, 0
  {
    if args == [] then [] else [EvalGlsl(m, args[0])] + EvalGlslArgs(m, args[1..])
  }

  function EvalSource<V>(m: Meaning<V>, env: Env, e: Expr): V
    decreases e, 1
  {
    match e
    case Literal(w) => m.num(w)
    case Var(name) => m.value(name)
    case Paren(x) => EvalSource(m, env, x)
    case Neg(x) => m.negate(EvalSource(m, env, x))
    case Bin(op, l, r) => SourceBin(m, op, EvalSource(m, env, l), EvalSource(m, env, r))
    case Member(x, field) => m.field(field, EvalSource(m, env, x))
    case Call(f, args) => SourceCall(m, f, EvalSourceArgs(m, env, args))
    case Sample(tex, tm, s, args) => SourceSample(m, env, tex, tm, s, EvalSourceArgs(m, env, args))
  }

  function EvalSourceArgs<V>(m: Meaning<V>, env: Env, args: seq<Expr>): (xs: seq<V>)
    ensures |xs| == |args|
    decreases args, 0
  {
    if args == [] then [] else [EvalSource(m, env, args[0])] + EvalSourceArgs(m, env, args[1..])
  }

  // ----- Where the languages can differ

  /**
   * At every `*` and `mad` the componentwise product, at every `mul` the linear one, is GLSL's on the
   * operands; at every `fmod` the two remainders agree, at every constructor of a matrix the two
   * constructors, and at every sampling call the texture has the sampler that the call names.
   */
  ghost predicate Agrees<V>(m: Meaning<V>, env: Env, e: Expr) {
    match e
    case Literal(_) => true
    case Var(_) => true
    case Paren(x) => Agrees(m, env, x)
    case Neg(x) => Agrees(m, env, x)
    case Bin(op, l, r) =>
      Agrees(m, env, l) && Agrees(m, env, r) && (op == MulOp ==> SameProduct(m, EvalSource(m, env, l), EvalSource(m, env, r)))
    case Member(x, _) => Agrees(m, env, x)
    case Call(f, args) =>
      && (forall i :: 0 <= i < |args| ==> Agrees(m, env, args[i]))
      && (f == MulName && |args| == 2 ==> SameLinear(m, EvalSource(m, env, args[0]), EvalSource(m, env, args[1])))
      && (f == MadName && |args| == 3 ==> SameProduct(m, EvalSource(m, env, args[0]), EvalSource(m, env, args[1])))
      && (f == FmodName && |args| == 2 ==> SameRemainder(m, EvalSource(m, env, args[0]), EvalSource(m, env, args[1])))
      && (Constructor(f) && GlVector(f).None? ==> SameConstructor(m, f, EvalSourceArgs(m, env, args)))
    case Sample(tex, _, s, args) =>
      (forall i :: 0 <= i < |args| ==> Agrees(m, env, args[i])) && SameTexture(m, tex, s)
  }

  ghost predicate SameProduct<V>(m: Meaning<V>, a: V, b: V) { m.star(a, b) == m.glStar(a, b) }

  ghost predicate SameLinear<V>(m: Meaning<V>, a: V, b: V) { m.linear(a, b) == m.glStar(a, b) }

  ghost predicate SameConstructor<V>(m: Meaning<V>, f: Word, xs: seq<V>) { m.construct(f, xs) == m.apply(GlWord(f), xs) }

  /** The texture's name stands for the texture with this sampler, or, where none is named, with any or none. */
  ghost predicate SameTexture<V>(m: Meaning<V>, tex: Word, s: Sampler) {
    match s
    case Named(n) => m.value(tex) == m.through(m.texture(tex), n)
    case NoSampler => m.value(tex) == m.texture(tex) || exists n :: m.value(tex) == m.through(m.texture(tex), n)
  }

  ghost predicate SameRemainder<V>(m: Meaning<V>, a: V, b: V) { m.fmod(a, b) == m.apply(ModName, [a, b]) }

  /**
   * No `*` or `mad` has a matrix among its factors, no `mul` two vectors, no matrix is built from its
   * entries, and `fmod`, documented as inexact, is not called.
   */
  predicate Harmless<V>(m: Meaning<V>, env: Env, e: Expr) {
    match e
    case Literal(_) => true
    case Var(_) => true
    case Paren(x) => Harmless(m, env, x)
    case Neg(x) => Harmless(m, env, x)
    case Bin(op, l, r) =>
      && Harmless(m, env, l) && Harmless(m, env, r)
      && (op == MulOp ==> !m.isMatrix(EvalSource(m, env, l)) && !m.isMatrix(EvalSource(m, env, r)))
    case Member(x, _) => Harmless(m, env, x)
    case Call(f, args) =>
      && (forall i :: 0 <= i < |args| ==> Harmless(m, env, args[i]))
      && (f == MadName && |args| == 3 ==> !m.isMatrix(EvalSource(m, env, args[0])) && !m.isMatrix(EvalSource(m, env, args[1])))
      && (f == MulName && |args| == 2 ==> !(m.isVector(EvalSource(m, env, args[0])) && m.isVector(EvalSource(m, env, args[1]))))
      && !MatrixType(f) && !TextureTypeName(f) && f != FmodName
    case Sample(_, _, _, args) => forall i :: 0 <= i < |args| ==> Harmless(m, env, args[i])
  }

  /** At every sampling call the texture has the sampler that the call names. */
  ghost predicate Textured<V>(m: Meaning<V>, e: Expr) {
    match e
    case Literal(_) => true
    case Var(_) => true
    case Paren(x) => Textured(m, x)
    case Neg(x) => Textured(m, x)
    case Bin(_, l, r) => Textured(m, l) && Textured(m, r)
    case Member(x, _) => Textured(m, x)
    case Call(_, args) => forall i :: 0 <= i < |args| ==> Textured(m, args[i])
    case Sample(tex, _, s, args) => (forall i :: 0 <= i < |args| ==> Textured(m, args[i])) && SameTexture(m, tex, s)
  }

  lemma {:induction false} HarmlessAgrees<V(!new)>(m: Meaning<V>, env: Env, e: Expr)
    requires Standard(m) && Harmless(m, env, e) && Textured(m, e)
    ensures Agrees(m, env, e)
    decreases e
  {
    hide EvalSource, TypeName, MatrixType, TextureTypeName, GlVector, GlWord, SameTexture;
    match e
    case Literal(_) =>
    case Var(_) =>
    case Paren(x) => HarmlessAgrees(m, env, x);
    case Neg(x) => HarmlessAgrees(m, env, x);
    case Bin(_, l, r) =>
      HarmlessAgrees(m, env, l);
      HarmlessAgrees(m, env, r);
    case Member(x, _) => HarmlessAgrees(m, env, x);
    case Call(_, args) =>
      forall i | 0 <= i < |args| ensures Agrees(m, env, args[i]) { HarmlessAgrees(m, env, args[i]); }
    case Sample(_, _, _, args) =>
      forall i | 0 <= i < |args| ensures Agrees(m, env, args[i]) { HarmlessAgrees(m, env, args[i]); }
  }

  // ----- Translation preserves values

  lemma {:induction false} SameValue<V(!new)>(m: Meaning<V>, env: Env, e: Expr)
    requires Standard(m) && Source(env, e) && Agrees(m, env, e)
    ensures EvalGlsl(m, Translate(env, e)) == EvalSource(m, env, e)
    decreases e, 1
  {
    hide TypeName, TextureType, SampleCall, WfSampling, SourceSample, Standard, SamplingFunction;
    match e
    case Literal(_) =>
    case Var(_) =>
    case Paren(x) => SameValue(m, env, x);
    case Neg(x) => SameValue(m, env, x);
    case Bin(_, l, r) =>
      SameValue(m, env, l);
      SameValue(m, env, r);
    case Member(x, _) => SameValue(m, env, x);
    case Call(_, _) => CallValue(m, env, e);
    case Sample(tex, tm, s, args) =>
      SameValues(m, env, args);
      SampleValue(m, env, tex, tm, s, EvalSourceArgs(m, env, args));
      var gs := [Var(tex)] + TranslateArgs(env, args);
      assert gs[1..] == TranslateArgs(env, args);
      assert EvalGlslArgs(m, gs) == [m.value(tex)] + EvalSourceArgs(m, env, args);
  }

  lemma {:induction false} SameValues<V(!new)>(m: Meaning<V>, env: Env, args: seq<Expr>)
    requires Standard(m) && forall i :: 0 <= i < |args| ==> Source(env, args[i]) && Agrees(m, env, args[i])
    ensures EvalGlslArgs(m, TranslateArgs(env, args)) == EvalSourceArgs(m, env, args)
    decreases args, 0
  {
    hide TypeName, TextureType, Source, Agrees, Translate, EvalGlsl, EvalSource, Standard;
    if args != [] {
      SameValue(m, env, args[0]);
      SameValues(m, env, args[1..]);
      assert TranslateArgs(env, args)[1..] == TranslateArgs(env, args[1..]);
    }
  }

  /** A sampling call is written as the GLSL function for its method and the texture's type. */
  lemma {:induction false} SampleValue<V(!new)>(m: Meaning<V>, env: Env, tex: Word, tm: Word, s: Sampler, xs: seq<V>)
    requires Standard(m) && WfSampling(env, tex, tm, ToSamplerArg(s)) && SameTexture(m, tex, s)
    ensures m.apply(SamplingFunction(env, tex, tm), [m.value(tex)] + xs) == SourceSample(m, env, tex, tm, s, xs)
  {
    hide TypeName, Renamed, TextureType, GlVector, Counterpart;
    if tm == LoadName {
      assert m.load(TextureType(env, tex), m.value(tex), xs) == m.load(TextureType(env, tex), m.texture(tex), xs);
    }
  }

  lemma {:induction false} CallValue<V(!new)>(m: Meaning<V>, env: Env, e: Expr)
    requires Standard(m) && e.Call? && Source(env, e) && Agrees(m, env, e)
    ensures EvalGlsl(m, Translate(env, e)) == EvalSource(m, env, e)
    decreases e, 0
  {
    hide TypeName, TextureType, EvalGlsl, SourceCall, Standard, Constructor, GlVector;
    var f, args := e.f, e.args;
    forall i | 0 <= i < |args| ensures EvalGlsl(m, Translate(env, args[i])) == EvalSource(m, env, args[i]) {
      SameValue(m, env, args[i]);
    }
    if f == MulName && |args| == 2 {
      MulValue(m, env, args);
    } else if f == MadName && |args| == 3 {
      MadValue(m, env, args);
    } else if f == SaturateName && |args| == 1 {
      SaturateValue(m, env, args);
    } else {
      SameValues(m, env, args);
      PlainValue(m, env, f, args);
    }
  }

  lemma {:induction false} MulValue<V(!new)>(m: Meaning<V>, env: Env, args: seq<Expr>)
    requires |args| == 2 && SameLinear(m, EvalSource(m, env, args[0]), EvalSource(m, env, args[1]))
    requires forall i :: 0 <= i < 2 ==> EvalGlsl(m, Translate(env, args[i])) == EvalSource(m, env, args[i])
    ensures EvalGlsl(m, Paren(Product(Translate(env, args[0]), Translate(env, args[1]))))
         == SourceCall(m, MulName, EvalSourceArgs(m, env, args))
  {
    hide Translate, EvalSource;
    var x, y := Translate(env, args[0]), Translate(env, args[1]);
    assert EvalGlsl(m, Product(x, y)) == m.glStar(EvalGlsl(m, Paren(x)), EvalGlsl(m, Paren(y)));
    TwoValues(m, env, args);
  }

  lemma {:induction false} MadValue<V(!new)>(m: Meaning<V>, env: Env, args: seq<Expr>)
    requires |args| == 3 && SameProduct(m, EvalSource(m, env, args[0]), EvalSource(m, env, args[1]))
    requires forall i :: 0 <= i < 3 ==> EvalGlsl(m, Translate(env, args[i])) == EvalSource(m, env, args[i])
    ensures EvalGlsl(m, Paren(SumOfProduct(Translate(env, args[0]), Translate(env, args[1]), Translate(env, args[2]))))
         == SourceCall(m, MadName, EvalSourceArgs(m, env, args))
  {
    hide Translate, EvalSource;
    var x, y, z := Translate(env, args[0]), Translate(env, args[1]), Translate(env, args[2]);
    assert EvalGlsl(m, Product(x, y)) == m.glStar(EvalGlsl(m, Paren(x)), EvalGlsl(m, Paren(y)));
    assert EvalGlsl(m, SumOfProduct(x, y, z)) == m.add(EvalGlsl(m, Product(x, y)), EvalGlsl(m, Paren(z)));
    TwoValues(m, env, args);
    TwoValues(m, env, args[1..]);
  }

  lemma {:induction false} SaturateValue<V(!new)>(m: Meaning<V>, env: Env, args: seq<Expr>)
    requires Standard(m) && |args| == 1 && EvalGlsl(m, Translate(env, args[0])) == EvalSource(m, env, args[0])
    ensures EvalGlsl(m, Call(ClampName, [Translate(env, args[0]), Zero, One]))
         == SourceCall(m, SaturateName, EvalSourceArgs(m, env, args))
  {
    hide Translate, EvalSource;
    ClampValues(m, Translate(env, args[0]));
    assert EvalSourceArgs(m, env, args)[0] == EvalSource(m, env, args[0]);
  }

  lemma {:induction false} PlainValue<V(!new)>(m: Meaning<V>, env: Env, f: Word, args: seq<Expr>)
    requires Standard(m) && !IsHandled(f) && EvalGlslArgs(m, TranslateArgs(env, args)) == EvalSourceArgs(m, env, args)
    requires f == FmodName && |args| == 2 ==> SameRemainder(m, EvalSource(m, env, args[0]), EvalSource(m, env, args[1]))
    requires Constructor(f) && GlVector(f).None? ==> SameConstructor(m, f, EvalSourceArgs(m, env, args))
    ensures EvalGlsl(m, Call(GlWord(f), TranslateArgs(env, args))) == SourceCall(m, f, EvalSourceArgs(m, env, args))
  {
    hide TypeName, EvalSource, Translate, SourceCall, Standard, GlWord, Constructor, GlVector;
    if |args| == 2 { TwoValues(m, env, args); }
    RenamedCall(m, f, EvalSourceArgs(m, env, args));
  }

  lemma {:induction false} RenamedCall<V(!new)>(m: Meaning<V>, f: Word, xs: seq<V>)
    requires Standard(m) && !IsHandled(f) && (f == FmodName && |xs| == 2 ==> SameRemainder(m, xs[0], xs[1]))
    requires Constructor(f) && GlVector(f).None? ==> SameConstructor(m, f, xs)
    ensures m.apply(GlWord(f), xs) == SourceCall(m, f, xs)
  {
    hide StandardSampling, GlWord, GlVector, Constructor;
    TypeNameIff(f);
    GlWordOf(f);
    if f == LerpName && |xs| == 3 {
      assert xs == [xs[0], xs[1], xs[2]];
    } else if f == FmodName && |xs| == 2 {
      assert xs == [xs[0], xs[1]];
    }
  }

  /** What a word becomes that is no type. */
  lemma {:induction false} GlWordOf(f: Word)
    requires !IsHandled(f)
    ensures !f.Spelled? ==> !Constructor(f)
    ensures f == LerpName ==> GlWord(f) == MixName
    ensures f == FmodName ==> GlWord(f) == ModName
    ensures Counterpart(f).Some? ==> GlWord(f) == Counterpart(f).value && !f.Spelled?
    ensures !Constructor(f) && Counterpart(f).None? ==> GlWord(f) == GlOther(f)
  {
    hide TypeName, GlVector;
    TypeNameIff(f);
    assert !f.Spelled? ==> TypeName(f).None? by { SpelledOnly(f); }
  }

  lemma {:induction false} SpelledOnly(f: Word)
    ensures TypeName(f).Some? ==> f.Spelled?
  {
    hide Lookup;
  }

  // ----- The writer's table of types is the languages' own

  lemma {:induction false} LookupFinds(table: seq<(string, string)>, s: string, i: nat)
    requires i < |table| && table[i].0 == s
    ensures Lookup(table, s).Some?
  {
    if i > 0 { LookupFinds(table[1..], s, i - 1); }
  }

  lemma {:induction false} LookupMember(table: seq<(string, string)>, s: string) returns (i: nat)
    requires Lookup(table, s).Some?
    ensures i < |table| && table[i] == (s, Lookup(table, s).value)
  {
    if table[0].0 == s {
      i := 0;
    } else {
      i := LookupMember(table[1..], s);
      i := i + 1;
    }
  }

  lemma {:induction false} VectorName(base: string, size: char, gl: string)
    requires size == '2' || size == '3' || size == '4'
    requires (base == "float" && gl == "vec") || (base == "int" && gl == "ivec") || (base == "uint" && gl == "uvec")
    ensures GlVector(Spelled(base + [size])) == Some(Spelled(gl + [size]))
  {
    var t := base + [size];
    assert t[..|t| - 1] == base && t[|t| - 1] == size;
  }

  /** Every entry of the table is a type of the languages, and names it correctly. */
  lemma {:induction false} EntryRight(i: nat)
    requires i < |TYPE_NAMES|
    ensures var f := Spelled(TYPE_NAMES[i].0);
            Constructor(f) && (GlVector(f).Some? ==> GlVector(f).value == Spelled(TYPE_NAMES[i].1))
  {
    hide GlVector;
    if i < 9 { VectorEntry(i); } else { OtherEntry(i); }
  }

  /** The table's first nine entries, by base type and size. */
  function VectorParts(i: nat): (string, char, string)
    requires i < 9
  {
    var size := if i % 3 == 0 then '2' else if i % 3 == 1 then '3' else '4';
    if i < 3 then ("float", size, "vec") else if i < 6 then ("int", size, "ivec") else ("uint", size, "uvec")
  }

  lemma {:induction false} VectorEntry(i: nat)
    requires i < 9
    ensures var (base, size, gl) := VectorParts(i);
            TYPE_NAMES[i] == (base + [size], gl + [size]) && GlVector(Spelled(base + [size])) == Some(Spelled(gl + [size]))
  {
    hide GlVector;
    var (base, size, gl) := VectorParts(i);
    VectorName(base, size, gl);
    assert "float" + "2" == "float2" && "float" + "3" == "float3" && "float" + "4" == "float4";
    assert "int" + "2" == "int2" && "int" + "3" == "int3" && "int" + "4" == "int4";
    assert "uint" + "2" == "uint2" && "uint" + "3" == "uint3" && "uint" + "4" == "uint4";
    assert "vec" + "2" == "vec2" && "vec" + "3" == "vec3" && "vec" + "4" == "vec4";
    assert "ivec" + "2" == "ivec2" && "ivec" + "3" == "ivec3" && "ivec" + "4" == "ivec4";
    assert "uvec" + "2" == "uvec2" && "uvec" + "3" == "uvec3" && "uvec" + "4" == "uvec4";
  }

  lemma {:induction false} OtherEntry(i: nat)
    requires 9 <= i < |TYPE_NAMES|
    ensures var f := Spelled(TYPE_NAMES[i].0); (MatrixType(f) || TextureTypeName(f)) && GlVector(f).None?
  {
    OtherNames(Spelled(TYPE_NAMES[i].0));
  }

  lemma {:induction false} OtherNames(f: Word)
    requires MatrixType(f) || TextureTypeName(f)
    ensures GlVector(f).None?
  {
    var t := f.text;
    assert f == Spelled("float3x3") ==> |t[..|t| - 1]| == 7;
    assert f == Spelled("float3x4") ==> |t[..|t| - 1]| == 7;
    assert f == Spelled("float4x4") ==> |t[..|t| - 1]| == 7;
    assert TextureTypeName(f) ==> t[|t| - 1] == 'd' || t[|t| - 1] == 'e' || t[|t| - 1] == 't';
  }

  lemma {:induction false} Listed(f: Word) returns (i: nat)
    requires Constructor(f)
    ensures f.Spelled? && i < |TYPE_NAMES| && TYPE_NAMES[i].0 == f.text
  {
    if GlVector(f).Some? {
      i := VectorListed(f);
    } else {
      i := if f.text == "float3x3" then 9 else if f.text == "float3x4" then 10 else if f.text == "float4x4" then 11
           else if f.text == "texture2d" then 12 else if f.text == "texture3d" then 13 else if f.text == "texture_cube" then 14 else 15;
    }
  }

  lemma {:induction false} VectorListed(f: Word) returns (i: nat)
    requires GlVector(f).Some?
    ensures i < 9 && f == Spelled(TYPE_NAMES[i].0)
  {
    var n := |f.text| - 1;
    var base, size := f.text[..n], f.text[n];
    i := (if base == "float" then 0 else if base == "int" then 3 else 6) + (if size == '2' then 0 else if size == '3' then 1 else 2);
    assert f.text == base + [size];
    assert VectorParts(i).0 == base && VectorParts(i).1 == size;
    VectorEntry(i);
  }

  /** The names the writer replaces as types are the vector, matrix and texture types, vectors under GLSL's name for them. */
  lemma {:induction false} TypeNameIff(f: Word)
    ensures TypeName(f).Some? <==> Constructor(f)
    ensures GlVector(f).Some? ==> GlWord(f) == GlVector(f).value
  {
    hide Constructor, GlVector, Lookup, Renamed;
    if Constructor(f) {
      var i := Listed(f);
      LookupFinds(TYPE_NAMES, f.text, i);
    }
    if TypeName(f).Some? {
      var j := LookupMember(TYPE_NAMES, f.text);
      EntryRight(j);
    }
    assert GlVector(f).Some? ==> Constructor(f) by { VectorConstructs(f); }
  }

  lemma {:induction false} VectorConstructs(f: Word)
    ensures GlVector(f).Some? ==> Constructor(f)
  {
  }

  lemma {:induction false} TwoValues<V>(m: Meaning<V>, env: Env, args: seq<Expr>)
    requires |args| >= 2
    ensures EvalSourceArgs(m, env, args)[0] == EvalSource(m, env, args[0])
    ensures EvalSourceArgs(m, env, args)[1] == EvalSource(m, env, args[1])
    ensures EvalSourceArgs(m, env, args)[1..] == EvalSourceArgs(m, env, args[1..])
  {
    assert EvalSourceArgs(m, env, args[1..])[0] == EvalSource(m, env, args[1]);
  }

  lemma {:induction false} ClampValues<V>(m: Meaning<V>, x: Expr)
    requires IsGlsl(x)
    ensures EvalGlslArgs(m, [x, Zero, One]) == [EvalGlsl(m, x), m.num(Zero.w), m.num(One.w)]
  {
    assert [x, Zero, One][1..] == [Zero, One] && [Zero, One][1..] == [One];
    assert EvalGlslArgs(m, [One]) == [m.num(One.w)];
    assert EvalGlslArgs(m, [Zero, One]) == [m.num(Zero.w), m.num(One.w)];
  }

  // ----- Exactly when a single operation keeps its value

  /** The writer copies `*`: on two variables the values agree exactly when the componentwise product is GLSL's. */
  lemma {:induction false} StarIsCopied<V>(m: Meaning<V>, env: Env, a: Word, b: Word)
    requires GlWord(a) == a && GlWord(b) == b
    ensures var e := Bin(MulOp, Var(a), Var(b));
            EvalGlsl(m, Translate(env, e)) == EvalSource(m, env, e) <==> SameProduct(m, m.value(a), m.value(b))
  {
    hide TypeName;
    assert EvalGlsl(m, Var(a)) == m.value(a) && EvalGlsl(m, Var(b)) == m.value(b);
    assert Translate(env, Bin(MulOp, Var(a), Var(b))) == Bin(MulOp, Var(a), Var(b));
  }

  /** `mul` is written as `*`: on two variables the values agree exactly when the linear product is GLSL's. */
  lemma {:induction false} MulIsStar<V>(m: Meaning<V>, env: Env, a: Word, b: Word)
    requires GlWord(a) == a && GlWord(b) == b
    ensures var e := Call(MulName, [Var(a), Var(b)]);
            EvalGlsl(m, Translate(env, e)) == EvalSource(m, env, e) <==> SameLinear(m, m.value(a), m.value(b))
  {
    hide TypeName;
    var args := [Var(a), Var(b)];
    TwoValues(m, env, args);
    assert EvalSource(m, env, args[0]) == m.value(a) && EvalSource(m, env, args[1]) == m.value(b);
    assert Translate(env, Var(a)) == Var(a) && Translate(env, Var(b)) == Var(b);
    var p := Product(Var(a), Var(b));
    assert Translate(env, Call(MulName, args)) == Paren(p);
    assert EvalGlsl(m, Paren(Var(a))) == m.value(a) && EvalGlsl(m, Paren(Var(b))) == m.value(b);
    assert EvalGlsl(m, p) == m.glStar(m.value(a), m.value(b));
  }

  /** A constructor keeps its arguments in order: the values agree exactly when the two constructors do. */
  lemma {:induction false} ConstructorIsRenamed<V(!new)>(m: Meaning<V>, env: Env, f: Word, args: seq<Expr>)
    requires Standard(m) && Constructor(f) && forall i :: 0 <= i < |args| ==> Source(env, args[i]) && Agrees(m, env, args[i])
    ensures var e := Call(f, args);
            EvalGlsl(m, Translate(env, e)) == EvalSource(m, env, e)
            <==> SameConstructor(m, f, EvalSourceArgs(m, env, args))
  {
    hide TypeName, Source, Agrees, Standard, GlWord, Constructor;
    ConstructorNotHandled(f);
    SameValues(m, env, args);
    assert Translate(env, Call(f, args)) == Call(GlWord(f), TranslateArgs(env, args));
  }

  lemma {:induction false} ConstructorNotHandled(f: Word)
    requires Constructor(f)
    ensures f.Spelled?
  {
  }

  // ----- Grouping

  /** The translation is the tree that its own text denotes. */
  lemma {:induction false} TranslateGrouped(env: Env, e: Expr)
    requires Grouped(e)
    ensures Grouped(Translate(env, e))
    decreases e, 1
  {
    hide TypeName, TextureType;
    match e
    case Literal(_) =>
    case Var(_) =>
    case Paren(x) => TranslateGrouped(env, x);
    case Neg(x) => TranslateGrouped(env, x);
    case Bin(_, l, r) =>
      TranslateGrouped(env, l);
      TranslateGrouped(env, r);
    case Member(x, _) => TranslateGrouped(env, x);
    case Call(f, args) =>
      forall i | 0 <= i < |args| ensures Grouped(Translate(env, args[i])) { TranslateGrouped(env, args[i]); }
      if f == MulName && |args| == 2 {
        ProductGrouped(Translate(env, args[0]), Translate(env, args[1]));
      } else if f == MadName && |args| == 3 {
        ProductGrouped(Translate(env, args[0]), Translate(env, args[1]));
        assert Grouped(Paren(Translate(env, args[2])));
      }
    case Sample(tex, _, _, args) =>
      forall i | 0 <= i < |args| ensures Grouped(Translate(env, args[i])) { TranslateGrouped(env, args[i]); }
  }

  lemma ProductGrouped(x: Expr, y: Expr)
    requires IsGlsl(x) && IsGlsl(y) && Grouped(x) && Grouped(y)
    ensures Grouped(Product(x, y))
  {
    assert Grouped(Paren(x)) && Grouped(Paren(y));
  }

  // ----- The theorem

  /**
   * Wherever a source expression stands in the token stream, with whatever whitespace, the loop
   * appends a text that has exactly one reading as a GLSL expression, and that reading has the
   * value of the source expression.
   */
  lemma {:induction false} TranslatorCorrect<V(!new)>(m: Meaning<V>, c: Ctx, i: nat, e: Expr, its: seq<Item>, end: Word, st: State)
    returns (out: seq<Token>, g: Expr)
    requires Standard(m) && Source(c.env, e) && Grouped(e) && Agrees(m, c.env, e)
    requires Strip(its) == Flatten(e) && Wf(c.env, its) && Passes(its, end)
    requires Stream(c.toks) && 0 < i && At(c.toks, i, Print(its)) && c.toks[i - 1].kind != End
    requires NoDotAt(c.toks, i + |Print(its)|)
    ensures var st' := WriteItems(c.env, its, st);
            && Loop(c, i - 1, end, st) == Loop(c, i + |Print(its)| - 1, end, st')
            && Solid(st'.text) == Solid(st.text) + out
    ensures ParseExpr(1, out) == Ok(g, []) && IsGlsl(g)
    ensures EvalGlsl(m, g) == EvalSource(m, c.env, e)
  {
    hide Stream, Source, Grouped, Agrees, Standard, Strip, Flatten, Wf, Passes, At, Print, NoDotAt, Loop, WriteItems, Solid,
         EvalGlsl, EvalSource, Translate, Text, TypeName, TextureType;
    g := Translate(c.env, e);
    out := Text(g);
    LoopItems(c, i, its, end, st);
    WhitespaceIrrelevant(c.env, its, st, st);
    WriteExpr(c.env, e, st);
    TranslateGrouped(c.env, e);
    UniqueReading(g);
    SameValue(m, c.env, e);
  }
}

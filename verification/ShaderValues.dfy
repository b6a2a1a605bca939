/**
 * Two carriers for expression values: exact real numbers, on which the renamed functions can be
 * compared, and scalars with three-dimensional vectors and matrices, on which products and matrix
 * constructors differ between the languages.
 */
module ShaderValues {
  import opened ShaderTokens
  import opened ShaderExpr
  import opened GlslWriter
  import opened TokenTrees
  import opened Translation
  import opened ShaderMeaning

  // ----- What the languages share

  function SampledBy(tm: Word): Word {
    match tm
    case SampleGradName => Spelled("textureGrad")
    case SampleLevelName => Spelled("textureLod")
    case _ => Spelled("texture")
  }

  /** Any interpretation of GLSL, with the source language's functions, vectors and sampling given GLSL's meaning. */
  function WithShared<V>(m: Meaning<V>): Meaning<V> {
    m.(sine := x => m.apply(Spelled("sin"), [x]), cosine := x => m.apply(Spelled("cos"), [x]),
       construct := (f, xs) => if GlVector(f).Some? then m.apply(GlVector(f).value, xs) else m.construct(f, xs),
       intrinsic := (f, xs) => if Counterpart(f).Some? then m.apply(Counterpart(f).value, xs) else m.intrinsic(f, xs),
       through := (t, s) => t, sample := (tm, x, xs) => m.apply(SampledBy(tm), [x] + xs),
       load := (ty, t, xs) => m.apply(Spelled(if ty == Texture3D then "obs_load_3d" else "obs_load_2d"), [t] + xs))
  }

  lemma {:induction false} SharedIsStandard<V(!new)>(m: Meaning<V>)
    requires forall a, b :: !(m.isVector(a) && m.isVector(b)) ==> m.linear(a, b) == m.glStar(a, b)
    requires forall a, b :: !m.isMatrix(a) && !m.isMatrix(b) ==> m.star(a, b) == m.glStar(a, b)
    requires forall x :: m.apply(ClampName, [x, m.num(Zero.w), m.num(One.w)]) == m.saturate(x)
    requires forall x, y, s :: m.apply(MixName, [x, y, s]) == m.lerp(x, y, s)
    ensures Standard(WithShared(m))
  {
    hide GlVector, Counterpart;
    SharedSampling(m);
    hide StandardSampling;
    var w := WithShared(m);
    forall f, xs ensures GlVector(f).Some? ==> w.construct(f, xs) == w.apply(GlVector(f).value, xs) { }
    forall f, xs ensures Counterpart(f).Some? ==> w.intrinsic(f, xs) == w.apply(Counterpart(f).value, xs) { }
  }

  lemma {:induction false} SharedSampling<V(!new)>(m: Meaning<V>)
    ensures StandardSampling(WithShared(m))
  {
    var w := WithShared(m);
    assert SampledBy(SampleName) == SampledBy(SampleBiasName) == Spelled("texture");
    assert SampledBy(SampleGradName) == Spelled("textureGrad") && SampledBy(SampleLevelName) == Spelled("textureLod");
    hide SampledBy;
    forall tm, x, xs ensures w.sample(tm, x, xs) == w.apply(SampledBy(tm), [x] + xs) { }
    forall t, xs ensures w.load(Texture3D, t, xs) == w.apply(Spelled("obs_load_3d"), [t] + xs) { }
    forall t, xs ensures w.load(OtherTexture, t, xs) == w.apply(Spelled("obs_load_2d"), [t] + xs) { }
    forall ty, t, s, xs ensures w.load(ty, w.through(t, s), xs) == w.load(ty, t, xs) { }
  }

  // ----- Real numbers

  function Min(x: real, y: real): real { if x < y then x else y }

  function Max(x: real, y: real): real { if x < y then y else x }

  function Trunc(q: real): real { if q < 0.0 then -((-q).Floor as real) else q.Floor as real }

  /** The source language's remainder, which takes the sign of the dividend. */
  function Fmod(x: real, y: real): real
    requires y != 0.0
  {
    x - y * Trunc(x / y)
  }

  /** GLSL's remainder, which takes the sign of the divisor. */
  function Mod(x: real, y: real): real
    requires y != 0.0
  {
    x - y * ((x / y).Floor as real)
  }

  /** Free choices of an interpretation over the reals. */
  datatype Reals = Reals(
    num: Word -> real,
    value: Word -> real,
    field: (Word, real) -> real,
    divide: (real, real) -> real,
    apply: (Word, seq<real>) -> real)

  function RealCall(r: Reals, f: Word, xs: seq<real>): real {
    if f == ClampName && |xs| == 3 then Min(Max(xs[0], xs[1]), xs[2])
    else if f == MixName && |xs| == 3 then xs[0] * (1.0 - xs[2]) + xs[1] * xs[2]
    else if f == ModName && |xs| == 2 && xs[1] != 0.0 then Mod(xs[0], xs[1])
    else r.apply(f, xs)
  }

  function RealNum(r: Reals, w: Word): real { if w == Zero.w then 0.0 else if w == One.w then 1.0 else r.num(w) }

  function OfReals(r: Reals): Meaning<real> {
    WithShared(RealMeaning(r))
  }

  function RealMeaning(r: Reals): Meaning<real> {
    Meaning(
      w => RealNum(r, w), r.value, r.field, x => -x, (x, y) => x + y, (x, y) => x - y, r.divide,
      (x, y) => x * y, (x, y) => x * y, (x, y) => x * y,
      x => if x < 0.0 then 0.0 else if 1.0 < x then 1.0 else x,
      (x, y, s) => x + s * (y - x),
      (x, y) => if y != 0.0 then Fmod(x, y) else r.apply(ModName, [x, y]),
      x => x, x => x, r.apply, r.apply, r.value, (t, s) => t, (tm, x, xs) => x, (ty, x, xs) => x,
      (f, xs) => RealCall(r, f, xs), x => false, x => false)
  }

  lemma {:induction false} RealsAreStandard(r: Reals)
    ensures Standard(OfReals(r))
  {
    hide RealCall;
    var m := RealMeaning(r);
    assert Zero.w != One.w;
    assert m.num(Zero.w) == 0.0 && m.num(One.w) == 1.0;
    forall x ensures m.apply(ClampName, [x, m.num(Zero.w), m.num(One.w)]) == m.saturate(x) { ClampIsSaturate(r, x); }
    forall x, y, s ensures m.apply(MixName, [x, y, s]) == m.lerp(x, y, s) {
      MixCall(r, x, y, s);
      LerpIsMix(x, y, s);
    }
    SharedIsStandard(m);
  }

  lemma {:induction false} ClampIsSaturate(r: Reals, x: real)
    ensures RealCall(r, ClampName, [x, 0.0, 1.0]) == if x < 0.0 then 0.0 else if 1.0 < x then 1.0 else x
  {
  }

  lemma {:induction false} MixCall(r: Reals, x: real, y: real, s: real)
    ensures RealCall(r, MixName, [x, y, s]) == x * (1.0 - s) + y * s
  {
  }

  lemma LerpIsMix(x: real, y: real, s: real)
    ensures x + s * (y - x) == x * (1.0 - s) + y * s
  {
  }

  /** The two remainders agree exactly when the quotient is not negative or is whole. */
  lemma FmodIsMod(x: real, y: real)
    requires y != 0.0
    ensures Fmod(x, y) == Mod(x, y) <==> x / y >= 0.0 || (x / y).Floor as real == x / y
  {
    hide Trunc;
    var q := x / y;
    TruncIsFloor(q);
    if Trunc(q) != q.Floor as real {
      Cancel(y, Trunc(q), q.Floor as real);
    }
  }

  lemma TruncIsFloor(q: real)
    ensures Trunc(q) == q.Floor as real <==> q >= 0.0 || q.Floor as real == q
  {
    if q < 0.0 && q.Floor as real == q {
      assert -q == (-(q.Floor)) as real;
    }
  }

  lemma Cancel(y: real, a: real, b: real)
    requires y != 0.0 && a != b
    ensures y * a != y * b
  {
    assert y * a - y * b == y * (a - b);
  }

  // ----- Scalars, vectors and matrices

  /** A matrix is given by its nine entries, row by row. */
  datatype Value = Scalar(s: real) | Vector(x: real, y: real, z: real) | Matrix(e: seq<real>)

  function Entry(e: seq<real>, row: nat, column: nat): real {
    if 3 * row + column < |e| then e[3 * row + column] else 0.0
  }

  function Row(e: seq<real>, r: nat): Value { Vector(Entry(e, r, 0), Entry(e, r, 1), Entry(e, r, 2)) }

  function Column(e: seq<real>, c: nat): Value { Vector(Entry(e, 0, c), Entry(e, 1, c), Entry(e, 2, c)) }

  function Dot(u: Value, v: Value): real
    requires u.Vector? && v.Vector?
  {
    u.x * v.x + u.y * v.y + u.z * v.z
  }

  function Scaled(k: real, p: Value): Value {
    match p
    case Scalar(s) => Scalar(k * s)
    case Vector(x, y, z) => Vector(k * x, k * y, k * z)
    case Matrix(e) => Matrix(seq(|e|, i requires 0 <= i < |e| => k * e[i]))
  }

  /** The linear product: dot product of vectors, rows times columns of matrices. */
  function Linear(p: Value, q: Value): Value {
    match (p, q)
    case (Scalar(k), _) => Scaled(k, q)
    case (_, Scalar(k)) => Scaled(k, p)
    case (Vector(_, _, _), Vector(_, _, _)) => Scalar(Dot(p, q))
    case (Vector(_, _, _), Matrix(e)) => Vector(Dot(p, Column(e, 0)), Dot(p, Column(e, 1)), Dot(p, Column(e, 2)))
    case (Matrix(e), Vector(_, _, _)) => Vector(Dot(Row(e, 0), q), Dot(Row(e, 1), q), Dot(Row(e, 2), q))
    case (Matrix(e), Matrix(f)) => Matrix(seq(9, i requires 0 <= i < 9 => Dot(Row(e, i / 3), Column(f, i % 3))))
  }

  /** The source language's `*`: componentwise wherever both sides have components. */
  function Componentwise(p: Value, q: Value): Value {
    match (p, q)
    case (Vector(a, b, c), Vector(d, e, f)) => Vector(a * d, b * e, c * f)
    case (Matrix(e), Matrix(f)) => Matrix(seq(9, i requires 0 <= i < 9 => Entry(e, i / 3, i % 3) * Entry(f, i / 3, i % 3)))
    case _ => Linear(p, q)
  }

  /** GLSL's `*`: componentwise on two vectors, linear otherwise. */
  function GlslProduct(p: Value, q: Value): Value {
    if p.Vector? && q.Vector? then Componentwise(p, q) else Linear(p, q)
  }

  predicate NineScalars(xs: seq<Value>) { |xs| == 9 && forall i :: 0 <= i < 9 ==> xs[i].Scalar? }

  function ByRows(xs: seq<Value>): Value
    requires NineScalars(xs)
  {
    Matrix(seq(9, i requires 0 <= i < 9 => xs[i].s))
  }

  function ByColumns(xs: seq<Value>): Value
    requires NineScalars(xs)
  {
    Matrix(seq(9, i requires 0 <= i < 9 => xs[3 * (i % 3) + i / 3].s))
  }

  const Float3x3 := Spelled("float3x3")

  function Apply(m: Meaning<Value>, f: Word, xs: seq<Value>): Value {
    if f == ClampName && |xs| == 3 then m.saturate(xs[0])
    else if f == MixName && |xs| == 3 then m.lerp(xs[0], xs[1], xs[2])
    else if f == GlWord(Float3x3) && NineScalars(xs) then ByColumns(xs)
    else m.apply(f, xs)
  }

  function Construct(m: Meaning<Value>, f: Word, xs: seq<Value>): Value {
    if f == Float3x3 && NineScalars(xs) then ByRows(xs) else m.construct(f, xs)
  }

  /** Any interpretation, with the products and matrix constructors of the two languages put in. */
  function WithMatrices(m: Meaning<Value>): Meaning<Value> {
    WithShared(Matrices(m))
  }

  function Matrices(m: Meaning<Value>): Meaning<Value> {
    m.(star := Componentwise, glStar := GlslProduct, linear := Linear,
       isVector := (p: Value) => p.Vector?, isMatrix := (p: Value) => p.Matrix?,
       construct := (f, xs) => Construct(m, f, xs), apply := (f, xs) => Apply(m, f, xs))
  }

  lemma {:induction false} MatricesAreStandard(m: Meaning<Value>)
    ensures Standard(WithMatrices(m))
  {
    hide TypeName, Linear, GlWord, ByColumns, ByRows, WithShared;
    var w := Matrices(m);
    forall a: Value, b: Value ensures !(a.Vector? && b.Vector?) ==> w.linear(a, b) == w.glStar(a, b) { }
    forall a: Value, b: Value ensures !a.Matrix? && !b.Matrix? ==> w.star(a, b) == w.glStar(a, b) { }
    forall x ensures w.apply(ClampName, [x, w.num(Zero.w), w.num(One.w)]) == w.saturate(x) { }
    forall x, y, s ensures w.apply(MixName, [x, y, s]) == w.lerp(x, y, s) { }
    SharedIsStandard(w);
  }

  /** A nilpotent matrix times itself: zero after translation, itself in the source language. */
  lemma {:induction false} MatrixStarDiffers(m: Meaning<Value>, env: Env, a: Word)
    requires GlWord(a) == a && m.value(a) == Matrix([0.0, 1.0, 0.0, 0.0, 0.0, 0.0, 0.0, 0.0, 0.0])
    ensures var e, w := Bin(MulOp, Var(a), Var(a)), WithMatrices(m);
            EvalGlsl(w, Translate(env, e)) != EvalSource(w, env, e)
  {
    var n := [0.0, 1.0, 0.0, 0.0, 0.0, 0.0, 0.0, 0.0, 0.0];
    NilpotentProducts(n);
    StarIsCopied(WithMatrices(m), env, a, a);
  }

  lemma {:induction false} NilpotentProducts(n: seq<real>)
    requires n == [0.0, 1.0, 0.0, 0.0, 0.0, 0.0, 0.0, 0.0, 0.0]
    ensures Componentwise(Matrix(n), Matrix(n)) != Linear(Matrix(n), Matrix(n))
  {
    assert Componentwise(Matrix(n), Matrix(n)).e[1] == 1.0;
    assert Linear(Matrix(n), Matrix(n)).e[1] == Dot(Row(n, 0), Column(n, 1)) == 0.0;
  }

  /** `mul` of two vectors is a number in the source language and a vector after translation. */
  lemma {:induction false} VectorMulDiffers(m: Meaning<Value>, env: Env, u: Word, v: Word)
    requires GlWord(u) == u && GlWord(v) == v && m.value(u).Vector? && m.value(v).Vector?
    ensures var e, w := Call(MulName, [Var(u), Var(v)]), WithMatrices(m);
            EvalGlsl(w, Translate(env, e)) != EvalSource(w, env, e)
  {
    MulIsStar(WithMatrices(m), env, u, v);
  }

  /** A matrix written out entry by entry keeps its value exactly when it is symmetric. */
  lemma {:induction false} ConstructorTransposes(m: Meaning<Value>, env: Env, args: seq<Expr>)
    requires forall i :: 0 <= i < |args| ==> Source(env, args[i]) && Agrees(WithMatrices(m), env, args[i])
    requires NineScalars(EvalSourceArgs(WithMatrices(m), env, args))
    ensures var e, w := Call(Float3x3, args), WithMatrices(m);
            var xs := EvalSourceArgs(w, env, args);
            EvalGlsl(w, Translate(env, e)) == EvalSource(w, env, e)
            <==> xs[1] == xs[3] && xs[2] == xs[6] && xs[5] == xs[7]
  {
    hide TypeName, Source, Agrees, Standard, WithMatrices, EvalGlsl, EvalSource, NineScalars, Constructor, GlWord;
    var w := WithMatrices(m);
    MatricesAreStandard(m);
    Float3x3IsType();
    ConstructorIsRenamed(w, env, Float3x3, args);
    RowsOrColumns(m, EvalSourceArgs(w, env, args));
  }

  lemma {:induction false} RowsOrColumns(m: Meaning<Value>, xs: seq<Value>)
    requires NineScalars(xs)
    ensures SameConstructor(WithMatrices(m), Float3x3, xs) <==> xs[1] == xs[3] && xs[2] == xs[6] && xs[5] == xs[7]
  {
    hide TypeName, GlWord, GlVector, Counterpart, ByRows, ByColumns;
    Float3x3IsType();
    Transposed(xs);
  }

  lemma {:induction false} Transposed(xs: seq<Value>)
    requires NineScalars(xs)
    ensures ByRows(xs) == ByColumns(xs) <==> xs[1] == xs[3] && xs[2] == xs[6] && xs[5] == xs[7]
  {
    var r, c := ByRows(xs).e, ByColumns(xs).e;
    assert forall i :: 0 <= i < 9 ==> r[i] == xs[i].s;
    assert c[0] == xs[0].s && c[1] == xs[3].s && c[2] == xs[6].s && c[3] == xs[1].s && c[4] == xs[4].s;
    assert c[5] == xs[7].s && c[6] == xs[2].s && c[7] == xs[5].s && c[8] == xs[8].s;
    if r == c {
      assert r[1] == c[1] && r[2] == c[2] && r[5] == c[5];
    } else {
      var i :| 0 <= i < 9 && r[i] != c[i];
    }
  }

  lemma {:induction false} Float3x3IsType()
    ensures Constructor(Float3x3) && GlVector(Float3x3).None?
    ensures GlWord(Float3x3) != ClampName && GlWord(Float3x3) != MixName
  {
    hide TypeName, GlVector;
    OtherNames(Float3x3);
    TypeNameIff(Float3x3);
  }
}

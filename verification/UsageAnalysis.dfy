/**
 * Usage analysis of the Metal shader transpiler. Metal has no globals, so each function must be
 * given, as extra parameters, the uniform buffer, textures and samplers that it or anything it
 * calls mentions. One pass over the functions in declaration order collects them; signatures and
 * call sites are then generated from the result, separately.
 */
module UsageAnalysis {

  type Name = string

  datatype Token = Name(text: Name) | LBrace | RBrace | LParen | RParen | Other

  datatype Uniform = Uniform(name: Name, texture: bool)

  datatype Env = Env(uniforms: seq<Uniform>, samplers: seq<Name>, fragment: bool)

  /** What is known of a function. */
  datatype Usage = Usage(uniforms: bool, textures: seq<Name>, samplers: seq<Name>)

  const Nothing: Usage := Usage(false, [], [])

  /** One thing a function may have to be given. */
  datatype Need = Uniforms | Texture(name: Name) | Sampler(name: Name)

  // ----- The walk over a body

  /**
   * The names met from the token after `i` up to the closing `end`, entering every bracket, and
   * the position at which the walk stops.
   */
  function Scan(toks: seq<Token>, i: nat, end: Token): (r: (seq<Name>, nat))
    requires i <= |toks|
    ensures i <= r.1 <= |toks|
    decreases |toks| - i
  {
    if i == |toks| || i + 1 == |toks| then ([], |toks|)
    else
      var t := toks[i + 1];
      if t == end then ([], i + 1)
      else if t.Name? then
        var rest := Scan(toks, i + 1, end);
        ([t.text] + rest.0, rest.1)
      else if t == LBrace || t == LParen then
        var inner := Scan(toks, i + 1, if t == LBrace then RBrace else RParen);
        var rest := Scan(toks, inner.1, end);
        (inner.0 + rest.0, rest.1)
      else Scan(toks, i + 1, end)
  }

  /** Bodies with balanced brackets. */
  datatype Item = Plain(token: Token) | Braces(items: seq<Item>) | Parens(items: seq<Item>)

  predicate Balanced(items: seq<Item>) {
    forall i :: 0 <= i < |items| ==>
      match items[i]
      case Plain(t) => t.Name? || t == Other
      case Braces(inner) => Balanced(inner)
      case Parens(inner) => Balanced(inner)
  }

  function Print(items: seq<Item>): seq<Token> {
    if items == [] then [] else PrintItem(items[0]) + Print(items[1..])
  }

  function PrintItem(item: Item): seq<Token> {
    match item
    case Plain(t) => [t]
    case Braces(inner) => [LBrace] + Print(inner) + [RBrace]
    case Parens(inner) => [LParen] + Print(inner) + [RParen]
  }

  function NamesIn(toks: seq<Token>): seq<Name> {
    if toks == [] then [] else (if toks[0].Name? then [toks[0].text] else []) + NamesIn(toks[1..])
  }

  lemma {:induction false} NamesConcat(a: seq<Token>, b: seq<Token>)
    ensures NamesIn(a + b) == NamesIn(a) + NamesIn(b)
    ensures NamesIn([]) == []
  {
    if a == [] {
      assert a + b == b;
    } else {
      assert (a + b)[1..] == a[1..] + b;
      NamesConcat(a[1..], b);
    }
  }

  predicate At(toks: seq<Token>, pos: nat, s: seq<Token>) { pos + |s| <= |toks| && toks[pos..pos + |s|] == s }

  lemma AtSplit(toks: seq<Token>, pos: nat, a: seq<Token>, b: seq<Token>)
    requires At(toks, pos, a + b)
    ensures At(toks, pos, a) && At(toks, pos + |a|, b)
  {
    var s := toks[pos..pos + |a + b|];
    assert s[..|a|] == a && s[|a|..] == b;
  }

  lemma AtOne(toks: seq<Token>, pos: nat, t: Token)
    requires At(toks, pos, [t])
    ensures pos < |toks| && toks[pos] == t
  {
    assert toks[pos..pos + 1][0] == t;
  }

  lemma ScanName(toks: seq<Token>, i: nat, end: Token, t: Token)
    requires i + 1 < |toks| && toks[i + 1] == t && t != end && (t.Name? || t == Other)
    ensures Scan(toks, i, end) == (NamesIn([t]) + Scan(toks, i + 1, end).0, Scan(toks, i + 1, end).1)
  {
    assert NamesIn([t]) == if t.Name? then [t.text] else [];
    assert [] + Scan(toks, i + 1, end).0 == Scan(toks, i + 1, end).0;
  }

  lemma ScanOpen(toks: seq<Token>, i: nat, end: Token, open: Token, close: Token)
    requires i + 1 < |toks| && toks[i + 1] == open && (end == RBrace || end == RParen)
    requires (open == LBrace && close == RBrace) || (open == LParen && close == RParen)
    ensures var inner := Scan(toks, i + 1, close);
            var rest := Scan(toks, inner.1, end);
            Scan(toks, i, end) == (inner.0 + rest.0, rest.1)
  {
  }

  lemma ScanEnd(toks: seq<Token>, i: nat, end: Token)
    requires i + 1 < |toks| && toks[i + 1] == end
    ensures Scan(toks, i, end) == ([], i + 1)
  {
  }

  lemma GroupNames(open: Token, inner: seq<Token>, close: Token)
    requires !open.Name? && !close.Name?
    ensures NamesIn([open] + inner + [close]) == NamesIn(inner)
  {
    NamesConcat([open] + inner, [close]);
    NamesConcat([open], inner);
    assert NamesIn([open]) == [] && NamesIn([close]) == [];
  }

  /** In a balanced body the walk meets every name, in order, and stops at the body's own bracket. */
  lemma {:induction false} ScanBalanced(toks: seq<Token>, i: nat, items: seq<Item>, end: Token)
    requires Balanced(items) && (end == RBrace || end == RParen)
    requires At(toks, i + 1, Print(items) + [end])
    ensures i <= |toks| && Scan(toks, i, end) == (NamesIn(Print(items)), i + 1 + |Print(items)|)
    decreases |Print(items)|
  {
    hide Scan, NamesIn, At;
    if items == [] {
      assert Print(items) + [end] == [end];
      AtOne(toks, i + 1, end);
      ScanEnd(toks, i, end);
      NamesConcat([], []);
    } else {
      var item, rest := items[0], items[1..];
      assert Print(items) + [end] == PrintItem(item) + (Print(rest) + [end]);
      AtSplit(toks, i + 1, PrintItem(item), Print(rest) + [end]);
      NamesConcat(PrintItem(item), Print(rest));
      match item
      case Plain(t) =>
        AtOne(toks, i + 1, t);
        ScanBalanced(toks, i + 1, rest, end);
        ScanName(toks, i, end, t);
      case Braces(inner) => ScanGroup(toks, i, inner, LBrace, RBrace, rest, end);
      case Parens(inner) => ScanGroup(toks, i, inner, LParen, RParen, rest, end);
    }
  }

  lemma {:induction false} ScanGroup(toks: seq<Token>, i: nat, inner: seq<Item>, open: Token, close: Token,
                                     rest: seq<Item>, end: Token)
    requires Balanced(inner) && Balanced(rest) && (end == RBrace || end == RParen)
    requires (open == LBrace && close == RBrace) || (open == LParen && close == RParen)
    requires At(toks, i + 1, [open] + Print(inner) + [close])
    requires At(toks, i + 3 + |Print(inner)|, Print(rest) + [end])
    ensures var group := [open] + Print(inner) + [close];
            i <= |toks| &&
            Scan(toks, i, end) == (NamesIn(group) + NamesIn(Print(rest)), i + 1 + |group| + |Print(rest)|)
    decreases |Print(inner)| + |Print(rest)| + 1
  {
    hide Scan, NamesIn, At, Print, Balanced;
    assert [open] + Print(inner) + [close] == [open] + (Print(inner) + [close]);
    AtSplit(toks, i + 1, [open], Print(inner) + [close]);
    AtOne(toks, i + 1, open);
    ScanBalanced(toks, i + 1, inner, close);
    ScanBalanced(toks, i + 2 + |Print(inner)|, rest, end);
    ScanOpen(toks, i, end, open, close);
    GroupNames(open, Print(inner), close);
  }

  // ----- Collecting

  predicate IsTexture(env: Env, n: Name) {
    env.fragment && exists i :: 0 <= i < |env.uniforms| && env.uniforms[i] == Uniform(n, true)
  }

  predicate IsValue(env: Env, n: Name) {
    exists i :: 0 <= i < |env.uniforms| && env.uniforms[i].name == n && !(env.fragment && env.uniforms[i].texture)
  }

  function Absorb(env: Env, fs: map<Name, Usage>, d: Usage, n: Name): Usage {
    var d1 := if IsValue(env, n) then d.(uniforms := true) else d;
    var d2 := if n in fs then Usage(d1.uniforms || fs[n].uniforms, d1.textures + fs[n].textures, d1.samplers + fs[n].samplers)
              else d1;
    var d3 := if IsTexture(env, n) then d2.(textures := d2.textures + [n]) else d2;
    if env.fragment && n in env.samplers then d3.(samplers := d3.samplers + [n]) else d3
  }

  function AbsorbAll(env: Env, fs: map<Name, Usage>, d: Usage, names: seq<Name>): Usage
    decreases |names|
  {
    if names == [] then d else AbsorbAll(env, fs, Absorb(env, fs, d, names[0]), names[1..])
  }

  predicate Has(d: Usage, need: Need) {
    match need
    case Uniforms => d.uniforms
    case Texture(n) => n in d.textures
    case Sampler(n) => n in d.samplers
  }

  /** The body itself names it. */
  predicate Mentions(env: Env, names: seq<Name>, need: Need) {
    match need
    case Uniforms => exists k :: 0 <= k < |names| && IsValue(env, names[k])
    case Texture(n) => n in names && IsTexture(env, n)
    case Sampler(n) => n in names && env.fragment && n in env.samplers
  }

  predicate Inherits(fs: map<Name, Usage>, names: seq<Name>, need: Need) {
    exists k :: 0 <= k < |names| && names[k] in fs && Has(fs[names[k]], need)
  }

  lemma {:induction false} AbsorbAllHas(env: Env, fs: map<Name, Usage>, d: Usage, names: seq<Name>, need: Need)
    ensures Has(AbsorbAll(env, fs, d, names), need) <==>
            Has(d, need) || Mentions(env, names, need) || Inherits(fs, names, need)
    decreases |names|
  {
    if names != [] {
      var n, rest := names[0], names[1..];
      var e := Absorb(env, fs, d, n);
      AbsorbAllHas(env, fs, e, rest, need);
      AbsorbHas(env, fs, d, n, need);
      assert names == [n] + rest;
      assert Mentions(env, names, need) <==> Mentions(env, [n], need) || Mentions(env, rest, need) by {
        assert forall k :: 1 <= k < |names| ==> names[k] == rest[k - 1];
        assert need.Uniforms? && Mentions(env, rest, need) ==> exists k :: 1 <= k < |names| && IsValue(env, names[k]) by {
          if need.Uniforms? && Mentions(env, rest, need) {
            var k :| 0 <= k < |rest| && IsValue(env, rest[k]);
            assert names[k + 1] == rest[k];
          }
        }
      }
      assert Inherits(fs, names, need) <==> Inherits(fs, [n], need) || Inherits(fs, rest, need) by {
        assert forall k :: 1 <= k < |names| ==> names[k] == rest[k - 1];
        if Inherits(fs, rest, need) {
          var k :| 0 <= k < |rest| && rest[k] in fs && Has(fs[rest[k]], need);
          assert names[k + 1] == rest[k];
        }
      }
    }
  }

  lemma AbsorbHas(env: Env, fs: map<Name, Usage>, d: Usage, n: Name, need: Need)
    ensures Has(Absorb(env, fs, d, n), need) <==>
            Has(d, need) || Mentions(env, [n], need) || Inherits(fs, [n], need)
  {
    assert [n][0] == n;
  }

  function Unique(s: seq<Name>): (r: seq<Name>)
    ensures forall n :: n in r <==> n in s
    ensures NoDuplicates(r)
  {
    if s == [] then []
    else
      var front, n := Unique(s[..|s| - 1]), s[|s| - 1];
      assert s == s[..|s| - 1] + [n];
      if n in front then front else front + [n]
  }

  /** Names are collected in the order in which they are met: what is there stays in front. */
  lemma {:induction false} CollectedInOrder(env: Env, fs: map<Name, Usage>, d: Usage, names: seq<Name>)
    ensures d.textures <= AbsorbAll(env, fs, d, names).textures && d.samplers <= AbsorbAll(env, fs, d, names).samplers
    ensures names != [] && names[0] in fs ==>
              var e := AbsorbAll(env, fs, d, names);
              d.textures + fs[names[0]].textures <= e.textures && d.samplers + fs[names[0]].samplers <= e.samplers
    decreases |names|
  {
    if names != [] {
      var e := Absorb(env, fs, d, names[0]);
      CollectedInOrder(env, fs, e, names[1..]);
      assert d.textures <= e.textures && d.samplers <= e.samplers;
    }
  }

  /** Repetitions go, first mentions stay in order. */
  lemma {:induction false} FirstMentions(a: seq<Name>, b: seq<Name>)
    ensures Unique(a) <= Unique(a + b)
    decreases |b|
  {
    if b == [] {
      assert a + b == a;
    } else {
      var n := |b| - 1;
      FirstMentions(a, b[..n]);
      assert (a + b)[..|a + b| - 1] == a + b[..n];
    }
  }

  predicate NoDuplicates<T(==)>(s: seq<T>) { forall i, j :: 0 <= i < j < |s| ==> s[i] != s[j] }

  function Trimmed(d: Usage): Usage { d.(textures := Unique(d.textures), samplers := Unique(d.samplers)) }

  // ----- All functions, in declaration order

  /** A function and the names its body mentions. */
  datatype Func = Func(name: Name, names: seq<Name>)

  predicate DistinctNames(fs: seq<Func>) { forall i, j :: 0 <= i < j < |fs| ==> fs[i].name != fs[j].name }

  function Declared(fs: seq<Func>): map<Name, Usage> { map f | f in fs :: f.name := Nothing }

  /** The table after the first `k` functions have been analysed. */
  function Analysed(env: Env, fs: seq<Func>, k: nat): (m: map<Name, Usage>)
    requires k <= |fs|
    ensures forall i :: 0 <= i < |fs| ==> fs[i].name in m
    ensures forall n :: n in m ==> exists i :: 0 <= i < |fs| && fs[i].name == n
  {
    if k == 0 then
      assert forall i :: 0 <= i < |fs| ==> fs[i] in fs;
      Declared(fs)
    else
      var m, f := Analysed(env, fs, k - 1), fs[k - 1];
      m[f.name := Trimmed(AbsorbAll(env, m, m[f.name], f.names))]
  }

  function Result(env: Env, fs: seq<Func>, i: nat): Usage
    requires i < |fs|
  {
    Analysed(env, fs, |fs|)[fs[i].name]
  }

  lemma NotStarted(env: Env, fs: seq<Func>, i: nat)
    requires i < |fs|
    ensures Analysed(env, fs, 0)[fs[i].name] == Nothing
  {
    assert fs[i] in fs;
  }

  lemma OthersKept(env: Env, fs: seq<Func>, k: nat, i: nat)
    requires 0 < k <= |fs| && i < |fs| && fs[i].name != fs[k - 1].name
    ensures Analysed(env, fs, k)[fs[i].name] == Analysed(env, fs, k - 1)[fs[i].name]
  {
    hide AbsorbAll, Trimmed;
  }

  /** An entry is empty until its function's turn and final afterwards. */
  lemma {:induction false} EntryAt(env: Env, fs: seq<Func>, k: nat, i: nat)
    requires DistinctNames(fs) && k <= |fs| && i < |fs|
    ensures i >= k ==> Analysed(env, fs, k)[fs[i].name] == Nothing
    ensures i < k ==> Analysed(env, fs, k)[fs[i].name] == Analysed(env, fs, i + 1)[fs[i].name]
  {
    hide Analysed;
    if k == 0 {
      NotStarted(env, fs, i);
    } else if i != k - 1 {
      EntryAt(env, fs, k - 1, i);
      OthersKept(env, fs, k, i);
    }
  }

  lemma ResultIs(env: Env, fs: seq<Func>, i: nat)
    requires DistinctNames(fs) && i < |fs|
    ensures Result(env, fs, i) == Trimmed(AbsorbAll(env, Analysed(env, fs, i), Nothing, fs[i].names))
  {
    EntryAt(env, fs, |fs|, i);
    EntryAt(env, fs, i, i);
  }

  // ----- Closure over the call graph

  /** `a` mentions `b`, which is declared no later. */
  predicate Calls(fs: seq<Func>, a: nat, b: nat) {
    a < |fs| && b <= a && fs[b].name in fs[a].names
  }

  predicate CallPath(fs: seq<Func>, path: seq<nat>) {
    path != [] && path[0] < |fs| && forall i :: 0 <= i < |path| - 1 ==> Calls(fs, path[i], path[i + 1])
  }

  predicate PathTo(env: Env, fs: seq<Func>, i: nat, need: Need, path: seq<nat>) {
    && CallPath(fs, path) && path[0] == i
    && path[|path| - 1] < |fs| && Mentions(env, fs[path[|path| - 1]].names, need)
  }

  lemma LongerPath(env: Env, fs: seq<Func>, i: nat, j: nat, need: Need, path: seq<nat>)
    requires Calls(fs, i, j) && PathTo(env, fs, j, need, path)
    ensures PathTo(env, fs, i, need, [i] + path)
  {
    hide Mentions;
    var longer := [i] + path;
    assert forall t :: 1 <= t < |longer| ==> longer[t] == path[t - 1];
  }

  lemma ResultHas(env: Env, fs: seq<Func>, i: nat, need: Need)
    requires DistinctNames(fs) && i < |fs|
    ensures Has(Result(env, fs, i), need) <==>
            Mentions(env, fs[i].names, need) || Inherits(Analysed(env, fs, i), fs[i].names, need)
    ensures !Has(Nothing, need)
  {
    hide Analysed, AbsorbAll, Mentions, Inherits;
    ResultIs(env, fs, i);
    AbsorbAllHas(env, Analysed(env, fs, i), Nothing, fs[i].names, need);
  }

  lemma {:induction false} UsageHasPath(env: Env, fs: seq<Func>, i: nat, need: Need) returns (path: seq<nat>)
    requires DistinctNames(fs) && i < |fs| && Has(Result(env, fs, i), need)
    ensures PathTo(env, fs, i, need, path)
    decreases i
  {
    hide Analysed, AbsorbAll, Mentions, Has;
    var m := Analysed(env, fs, i);
    ResultHas(env, fs, i, need);
    if Mentions(env, fs[i].names, need) {
      path := [i];
    } else {
      var k :| 0 <= k < |fs[i].names| && fs[i].names[k] in m && Has(m[fs[i].names[k]], need);
      var j :| 0 <= j < |fs| && fs[j].name == fs[i].names[k];
      EntryAt(env, fs, i, j);
      EntryAt(env, fs, |fs|, j);
      var rest := UsageHasPath(env, fs, j, need);
      path := [i] + rest;
      LongerPath(env, fs, i, j, need, rest);
    }
  }

  lemma {:induction false} PathIsUsed(env: Env, fs: seq<Func>, i: nat, need: Need, path: seq<nat>)
    requires DistinctNames(fs) && PathTo(env, fs, i, need, path)
    ensures Has(Result(env, fs, i), need)
    decreases |path|
  {
    hide Analysed;
    var m := Analysed(env, fs, i);
    ResultHas(env, fs, i, need);
    if |path| > 1 {
      var j, rest := path[1], path[1..];
      assert Calls(fs, path[0], path[0 + 1]);
      assert forall t :: 0 <= t < |rest| ==> rest[t] == path[t + 1];
      assert CallPath(fs, rest) by {
        forall t | 0 <= t < |rest| - 1 ensures Calls(fs, rest[t], rest[t + 1]) {
          var u := t + 1;
          assert Calls(fs, path[u], path[u + 1]);
        }
      }
      PathIsUsed(env, fs, j, need, rest);
      if j < i {
        EntryAt(env, fs, i, j);
        EntryAt(env, fs, |fs|, j);
        var k :| 0 <= k < |fs[i].names| && fs[i].names[k] == fs[j].name;
        assert Inherits(m, fs[i].names, need);
      }
    }
  }

  /**
   * What the single pass finds for a function is exactly what is mentioned by some function
   * reachable from it through calls to functions declared no later than their caller.
   */
  lemma UsageIsClosure(env: Env, fs: seq<Func>, i: nat, need: Need)
    requires DistinctNames(fs) && i < |fs|
    ensures Has(Result(env, fs, i), need) <==> exists path :: PathTo(env, fs, i, need, path)
  {
    if Has(Result(env, fs, i), need) {
      var path := UsageHasPath(env, fs, i, need);
    }
    if path :| PathTo(env, fs, i, need, path) {
      PathIsUsed(env, fs, i, need, path);
    }
  }

  /** Every function mentioned is declared no later than the function mentioning it. */
  predicate CalleesFirst(fs: seq<Func>) {
    forall a, b :: 0 <= a < |fs| && 0 <= b < |fs| && fs[b].name in fs[a].names ==> b <= a
  }

  predicate AnyPathTo(env: Env, fs: seq<Func>, i: nat, need: Need, path: seq<nat>) {
    && path != [] && path[0] == i && (forall t :: 0 <= t < |path| ==> path[t] < |fs|)
    && (forall t :: 0 <= t < |path| - 1 ==> fs[path[t + 1]].name in fs[path[t]].names)
    && Mentions(env, fs[path[|path| - 1]].names, need)
  }

  /** With callees first, that is the closure over the whole call graph. */
  lemma UsageIsFullClosure(env: Env, fs: seq<Func>, i: nat, need: Need)
    requires DistinctNames(fs) && CalleesFirst(fs) && i < |fs|
    ensures Has(Result(env, fs, i), need) <==> exists path :: AnyPathTo(env, fs, i, need, path)
  {
    if Has(Result(env, fs, i), need) {
      var path := UsageHasPath(env, fs, i, need);
      PathBounded(fs, path);
      assert AnyPathTo(env, fs, i, need, path) by {
        forall t | 0 <= t < |path| - 1 ensures fs[path[t + 1]].name in fs[path[t]].names {
          assert Calls(fs, path[t], path[t + 1]);
        }
      }
    }
    if path :| AnyPathTo(env, fs, i, need, path) {
      forall t | 0 <= t < |path| - 1 ensures Calls(fs, path[t], path[t + 1]) {
        assert path[t] < |fs| && path[t + 1] < |fs|;
      }
      PathIsUsed(env, fs, i, need, path);
    }
  }

  lemma PathBounded(fs: seq<Func>, path: seq<nat>)
    requires CallPath(fs, path)
    ensures forall t :: 0 <= t < |path| ==> path[t] < |fs|
  {
    forall t | 0 <= t < |path| ensures path[t] < |fs| {
      if t > 0 { assert Calls(fs, path[t - 1], path[t - 1 + 1]); }
    }
  }

  // ----- Signatures and call sites

  /** Extra arguments of a call, from what is known of the callee: in order of first use. */
  function Arguments(env: Env, d: Usage): seq<Need> {
    (if d.uniforms then [Uniforms] else []) + TextureArguments(env, d.textures) + SamplerArguments(env, d.samplers)
  }

  function TextureArguments(env: Env, ts: seq<Name>): seq<Need> {
    if ts == [] then []
    else (if IsTexture(env, ts[0]) then [Texture(ts[0])] else []) + TextureArguments(env, ts[1..])
  }

  function SamplerArguments(env: Env, ss: seq<Name>): seq<Need> {
    if ss == [] then [] else (if ss[0] in env.samplers then [Sampler(ss[0])] else []) + SamplerArguments(env, ss[1..])
  }

  /** Extra parameters of a function: in order of declaration; `main` is given everything. */
  function Parameters(env: Env, d: Usage, isMain: bool): seq<Need> {
    (if (isMain || d.uniforms) && HasValues(env) then [Uniforms] else [])
    + if env.fragment then TextureParameters(env.uniforms, d, isMain) + SamplerParameters(env.samplers, d, isMain) else []
  }

  predicate HasValues(env: Env) {
    exists i :: 0 <= i < |env.uniforms| && !(env.fragment && env.uniforms[i].texture)
  }

  function TextureParameters(us: seq<Uniform>, d: Usage, isMain: bool): seq<Need> {
    if us == [] then []
    else (if us[0].texture && (isMain || us[0].name in d.textures) then [Texture(us[0].name)] else [])
         + TextureParameters(us[1..], d, isMain)
  }

  function SamplerParameters(ss: seq<Name>, d: Usage, isMain: bool): seq<Need> {
    if ss == [] then []
    else (if isMain || ss[0] in d.samplers then [Sampler(ss[0])] else []) + SamplerParameters(ss[1..], d, isMain)
  }

  lemma {:induction false} InTextureArguments(env: Env, ts: seq<Name>, need: Need)
    ensures need in TextureArguments(env, ts) <==> need.Texture? && need.name in ts && IsTexture(env, need.name)
  {
    if ts != [] { InTextureArguments(env, ts[1..], need); }
  }

  lemma {:induction false} InSamplerArguments(env: Env, ss: seq<Name>, need: Need)
    ensures need in SamplerArguments(env, ss) <==> need.Sampler? && need.name in ss && need.name in env.samplers
  {
    if ss != [] { InSamplerArguments(env, ss[1..], need); }
  }

  lemma {:induction false} InTextureParameters(us: seq<Uniform>, d: Usage, isMain: bool, need: Need)
    ensures need in TextureParameters(us, d, isMain) <==>
            need.Texture? && (exists i :: 0 <= i < |us| && us[i] == Uniform(need.name, true))
            && (isMain || need.name in d.textures)
  {
    if us != [] {
      InTextureParameters(us[1..], d, isMain, need);
      assert forall i :: 1 <= i < |us| ==> us[i] == us[1..][i - 1];
    }
  }

  lemma {:induction false} InSamplerParameters(ss: seq<Name>, d: Usage, isMain: bool, need: Need)
    ensures need in SamplerParameters(ss, d, isMain) <==>
            need.Sampler? && need.name in ss && (isMain || need.name in d.samplers)
  {
    if ss != [] { InSamplerParameters(ss[1..], d, isMain, need); }
  }

  /** Whatever the analysis found is a uniform value, texture or sampler that exists. */
  ghost predicate Grounded(env: Env, d: Usage) {
    && (d.uniforms ==> exists n :: IsValue(env, n))
    && (forall t :: t in d.textures ==> IsTexture(env, t))
    && (forall t :: t in d.samplers ==> env.fragment && t in env.samplers)
  }

  lemma ResultGrounded(env: Env, fs: seq<Func>, i: nat)
    requires DistinctNames(fs) && i < |fs|
    ensures Grounded(env, Result(env, fs, i))
  {
    hide Result;
    var d := Result(env, fs, i);
    if d.uniforms {
      var path := UsageHasPath(env, fs, i, Uniforms);
    }
    forall t | t in d.textures ensures IsTexture(env, t) {
      var path := UsageHasPath(env, fs, i, Texture(t));
    }
    forall t | t in d.samplers ensures env.fragment && t in env.samplers {
      var path := UsageHasPath(env, fs, i, Sampler(t));
    }
  }

  lemma ArgumentIff(env: Env, d: Usage, need: Need)
    requires Grounded(env, d)
    ensures need in Arguments(env, d) <==> Has(d, need)
  {
    InTextureArguments(env, d.textures, need);
    InSamplerArguments(env, d.samplers, need);
  }

  lemma ParameterIff(env: Env, d: Usage, isMain: bool, need: Need)
    requires Grounded(env, d)
    ensures Has(d, need) ==> need in Parameters(env, d, isMain)
    ensures !isMain && need in Parameters(env, d, isMain) ==> Has(d, need)
  {
    InTextureParameters(env.uniforms, d, isMain, need);
    InSamplerParameters(env.samplers, d, isMain, need);
    if d.uniforms {
      var n :| IsValue(env, n);
    }
  }

  /** A call to a function passes exactly what the function takes. */
  lemma CallMatchesSignature(env: Env, fs: seq<Func>, i: nat, need: Need)
    requires DistinctNames(fs) && i < |fs|
    ensures need in Arguments(env, Result(env, fs, i)) <==> need in Parameters(env, Result(env, fs, i), false)
  {
    hide Arguments, Parameters;
    ResultGrounded(env, fs, i);
    ArgumentIff(env, Result(env, fs, i), need);
    ParameterIff(env, Result(env, fs, i), false, need);
  }

  /** Everything passed to a callee declared no later is a parameter of the caller. */
  lemma ArgumentsInScope(env: Env, fs: seq<Func>, caller: nat, callee: nat, isMain: bool, need: Need)
    requires DistinctNames(fs) && Calls(fs, caller, callee) && need in Arguments(env, Result(env, fs, callee))
    ensures need in Parameters(env, Result(env, fs, caller), isMain)
  {
    hide Arguments, Parameters, Result, Mentions;
    ResultGrounded(env, fs, caller);
    ResultGrounded(env, fs, callee);
    ArgumentIff(env, Result(env, fs, callee), need);
    var path := UsageHasPath(env, fs, callee, need);
    LongerPath(env, fs, caller, callee, need, path);
    PathIsUsed(env, fs, caller, need, [caller] + path);
    ParameterIff(env, Result(env, fs, caller), isMain, need);
  }

  /** A call ahead of the declaration can be left without what it must pass on. */
  lemma ForwardCallOutOfScope(f: Name, g: Name, u: Name)
    requires f != g && u != f && u != g
    ensures var env, fs := Env([Uniform(u, false)], [], true), [Func(f, [g]), Func(g, [u])];
            && DistinctNames(fs) && fs[1].name in fs[0].names
            && Uniforms in Arguments(env, Result(env, fs, 1))
            && Uniforms !in Parameters(env, Result(env, fs, 0), false)
  {
    hide Arguments, Parameters, Result;
    var env, fs := Env([Uniform(u, false)], [], true), [Func(f, [g]), Func(g, [u])];
    assert env.uniforms[0].name == u;
    assert fs[1].names[0] == u && IsValue(env, u);
    PathIsUsed(env, fs, 1, Uniforms, [1]);
    ResultGrounded(env, fs, 1);
    ArgumentIff(env, Result(env, fs, 1), Uniforms);
    if Has(Result(env, fs, 0), Uniforms) {
      NoCallsNoInheritance(env, fs, 0, Uniforms);
    }
    ResultGrounded(env, fs, 0);
    ParameterIff(env, Result(env, fs, 0), false, Uniforms);
  }

  /** A function that mentions only functions declared after it is credited with its own mentions alone. */
  lemma NoCallsNoInheritance(env: Env, fs: seq<Func>, i: nat, need: Need)
    requires DistinctNames(fs) && i < |fs| && forall j :: 0 <= j <= i ==> fs[j].name !in fs[i].names
    ensures Has(Result(env, fs, i), need) <==> Mentions(env, fs[i].names, need)
  {
    if Has(Result(env, fs, i), need) {
      var path := UsageHasPath(env, fs, i, need);
      assert |path| > 1 ==> Calls(fs, path[0], path[0 + 1]);
    }
    if Mentions(env, fs[i].names, need) { PathIsUsed(env, fs, i, need, [i]); }
  }

  /** `main` is given everything that is declared, used or not. */
  lemma {:induction false} MainTakesAll(env: Env, d: Usage, need: Need)
    ensures need in Parameters(env, d, true) <==>
            match need
            case Uniforms => exists u :: u in env.uniforms && !(env.fragment && u.texture)
            case Texture(n) => env.fragment && Uniform(n, true) in env.uniforms
            case Sampler(n) => env.fragment && n in env.samplers
  {
    InTextureParameters(env.uniforms, d, true, need);
    InSamplerParameters(env.samplers, d, true, need);
    assert HasValues(env) <==> exists u :: u in env.uniforms && !(env.fragment && u.texture);
  }

  // ----- No duplicates

  predicate DistinctDeclarations(env: Env) {
    NoDuplicates(env.samplers) &&
    forall i, j :: 0 <= i < j < |env.uniforms| ==> env.uniforms[i].name != env.uniforms[j].name
  }

  lemma {:induction false} TextureArgumentsDistinct(env: Env, ts: seq<Name>)
    requires NoDuplicates(ts)
    ensures NoDuplicates(TextureArguments(env, ts))
  {
    if ts != [] {
      TextureArgumentsDistinct(env, ts[1..]);
      InTextureArguments(env, ts[1..], Texture(ts[0]));
    }
  }

  lemma {:induction false} SamplerArgumentsDistinct(env: Env, ss: seq<Name>)
    requires NoDuplicates(ss)
    ensures NoDuplicates(SamplerArguments(env, ss))
  {
    if ss != [] {
      SamplerArgumentsDistinct(env, ss[1..]);
      InSamplerArguments(env, ss[1..], Sampler(ss[0]));
    }
  }

  lemma {:induction false} TextureParametersDistinct(us: seq<Uniform>, d: Usage, isMain: bool)
    requires forall i, j :: 0 <= i < j < |us| ==> us[i].name != us[j].name
    ensures NoDuplicates(TextureParameters(us, d, isMain))
  {
    if us != [] {
      TextureParametersDistinct(us[1..], d, isMain);
      InTextureParameters(us[1..], d, isMain, Texture(us[0].name));
    }
  }

  lemma {:induction false} SamplerParametersDistinct(ss: seq<Name>, d: Usage, isMain: bool)
    requires NoDuplicates(ss)
    ensures NoDuplicates(SamplerParameters(ss, d, isMain))
  {
    if ss != [] {
      SamplerParametersDistinct(ss[1..], d, isMain);
      InSamplerParameters(ss[1..], d, isMain, Sampler(ss[0]));
    }
  }

  lemma JoinDistinct(u: seq<Need>, ts: seq<Need>, ss: seq<Need>)
    requires NoDuplicates(ts) && NoDuplicates(ss) && (u == [] || u == [Uniforms])
    requires forall x :: x in ts ==> x.Texture?
    requires forall x :: x in ss ==> x.Sampler?
    ensures NoDuplicates(u + ts + ss)
  {
    var all := u + ts + ss;
    forall i, j | 0 <= i < j < |all| ensures all[i] != all[j] {
      assert |u| <= i < |u| + |ts| ==> all[i] in ts;
      assert |u| <= j < |u| + |ts| ==> all[j] in ts;
      assert i >= |u| + |ts| ==> all[i] in ss;
      assert j >= |u| + |ts| ==> all[j] in ss;
    }
  }

  /** Neither a call nor a signature lists anything twice. */
  lemma NothingTwice(env: Env, fs: seq<Func>, i: nat, isMain: bool)
    requires DistinctNames(fs) && DistinctDeclarations(env) && i < |fs|
    ensures NoDuplicates(Arguments(env, Result(env, fs, i)))
    ensures NoDuplicates(Parameters(env, Result(env, fs, i), isMain))
  {
    var d := Result(env, fs, i);
    ResultIs(env, fs, i);
    hide Result, Unique, AbsorbAll;
    TextureArgumentsDistinct(env, d.textures);
    SamplerArgumentsDistinct(env, d.samplers);
    TextureParametersDistinct(env.uniforms, d, isMain);
    SamplerParametersDistinct(env.samplers, d, isMain);
    forall x ensures x in TextureArguments(env, d.textures) ==> x.Texture? { InTextureArguments(env, d.textures, x); }
    forall x ensures x in SamplerArguments(env, d.samplers) ==> x.Sampler? { InSamplerArguments(env, d.samplers, x); }
    forall x ensures x in TextureParameters(env.uniforms, d, isMain) ==> x.Texture? {
      InTextureParameters(env.uniforms, d, isMain, x);
    }
    forall x ensures x in SamplerParameters(env.samplers, d, isMain) ==> x.Sampler? {
      InSamplerParameters(env.samplers, d, isMain, x);
    }
    var u := if d.uniforms then [Uniforms] else [];
    JoinDistinct(u, TextureArguments(env, d.textures), SamplerArguments(env, d.samplers));
    JoinDistinct([Uniforms], TextureParameters(env.uniforms, d, isMain), SamplerParameters(env.samplers, d, isMain));
    JoinDistinct([], TextureParameters(env.uniforms, d, isMain), SamplerParameters(env.samplers, d, isMain));
    ParametersShape(env, d, isMain);
  }

  lemma ParametersShape(env: Env, d: Usage, isMain: bool)
    ensures var ts, ss := TextureParameters(env.uniforms, d, isMain), SamplerParameters(env.samplers, d, isMain);
            var ps := Parameters(env, d, isMain);
            if env.fragment then ps == [Uniforms] + ts + ss || ps == [] + ts + ss else ps == [Uniforms] || ps == []
  {
    var ts, ss := TextureParameters(env.uniforms, d, isMain), SamplerParameters(env.samplers, d, isMain);
    assert [Uniforms] + ts + ss == [Uniforms] + (ts + ss) && [] + ts + ss == [] + (ts + ss);
  }
}

/**
 * Stage inputs and outputs of a GLSL shader: the structs of `main`'s parameters and result are
 * flattened twice, once into `in`/`out` declarations and once into the assignments of the generated
 * `main`, and the flattened variables are then numbered so that vertex and pixel stage link up.
 */
module StorageStructs {
  import opened Wrappers

  datatype Stage = Vertex | Pixel

  datatype Mapping = VertexId | Position | Other(text: string)

  datatype Type = Struct(fields: seq<Var>) | Plain(name: string)

  datatype Var = Var(name: string, ty: Type, mapping: Mapping)

  /** A declared stage variable. */
  datatype Attrib = Attrib(name: string, ty: string, mapping: Mapping, input: bool)

  datatype Source = VertexIdValue | FragCoordValue | Variable(name: string)

  datatype Stmt = Assign(target: string, source: Source) | SetPosition(name: string)

  // ----- The two flattenings, as the writer performs them

  predicate Skipped(stage: Stage, mapping: Mapping, input: bool) {
    (input && mapping == VertexId) || (mapping == Position && input == (stage == Pixel))
  }

  function Declare(stage: Stage, v: Var, input: bool, prefix: string): seq<Attrib> {
    match v.ty
    case Struct(fields) => DeclareAll(stage, fields, input, prefix + v.name + "_")
    case Plain(t) => if Skipped(stage, v.mapping, input) then [] else [Attrib(prefix + v.name, t, v.mapping, input)]
  }

  function DeclareAll(stage: Stage, vs: seq<Var>, input: bool, prefix: string): seq<Attrib> {
    if vs == [] then [] else Declare(stage, vs[0], input, prefix) + DeclareAll(stage, vs[1..], input, prefix)
  }

  function Left(input: bool): string { if input then "." else "_" }

  function Right(input: bool): string { if input then "_" else "." }

  function Target(v: Var, dst: Option<string>, input: bool): string {
    (if dst.Some? then dst.value + Left(input) else "\t") + v.name
  }

  function SourceFor(stage: Stage, v: Var, src: string, input: bool): Source {
    if input && v.mapping == VertexId then VertexIdValue
    else if input && stage == Pixel && v.mapping == Position then FragCoordValue
    else Variable(src + v.name)
  }

  function Transfer(stage: Stage, v: Var, dst: Option<string>, src: string, input: bool): seq<Stmt> {
    match v.ty
    case Struct(fields) => TransferAll(stage, fields, Target(v, dst, input), src + v.name + Right(input), input)
    case Plain(_) =>
      (if input || stage != Vertex || v.mapping != Position
       then [Assign(Target(v, dst, input), SourceFor(stage, v, src, input))] else [])
      + if !input && stage == Vertex && v.mapping == Position then [SetPosition(src + v.name)] else []
  }

  function TransferAll(stage: Stage, vs: seq<Var>, dst: string, src: string, input: bool): seq<Stmt> {
    if vs == [] then []
    else Transfer(stage, vs[0], Some(dst), src, input) + TransferAll(stage, vs[1..], dst, src, input)
  }

  // ----- Reference: the leaves of a variable, each with its path

  datatype Leaf = Leaf(path: seq<string>, ty: string, mapping: Mapping)

  function Leaves(v: Var, path: seq<string>): seq<Leaf> {
    match v.ty
    case Struct(fields) => AllLeaves(fields, path + [v.name])
    case Plain(t) => [Leaf(path + [v.name], t, v.mapping)]
  }

  function AllLeaves(vs: seq<Var>, path: seq<string>): seq<Leaf> {
    if vs == [] then [] else Leaves(vs[0], path) + AllLeaves(vs[1..], path)
  }

  /** Path components, each followed by the separator. */
  function Spread(path: seq<string>, sep: string): string {
    if path == [] then "" else Spread(path[..|path| - 1], sep) + path[|path| - 1] + sep
  }

  /** Path components with the separator between them. */
  function Joined(path: seq<string>, sep: string): string {
    if path == [] then "" else Spread(path[..|path| - 1], sep) + path[|path| - 1]
  }

  function DeclareLeaves(stage: Stage, ls: seq<Leaf>, input: bool, prefix: string): seq<Attrib> {
    if ls == [] then []
    else (if Skipped(stage, ls[0].mapping, input) then []
          else [Attrib(prefix + Joined(ls[0].path, "_"), ls[0].ty, ls[0].mapping, input)])
         + DeclareLeaves(stage, ls[1..], input, prefix)
  }

  function TransferLeaf(stage: Stage, l: Leaf, src: string, input: bool): Stmt {
    if !input && Skipped(stage, l.mapping, false) then SetPosition(src + Joined(l.path, Right(input)))
    else Assign("\t" + Joined(l.path, Left(input)),
                if input && l.mapping == VertexId then VertexIdValue
                else if input && l.mapping == Position && stage == Pixel then FragCoordValue
                else Variable(src + Joined(l.path, Right(input))))
  }

  function TransferLeaves(stage: Stage, ls: seq<Leaf>, src: string, input: bool): seq<Stmt> {
    if ls == [] then [] else [TransferLeaf(stage, ls[0], src, input)] + TransferLeaves(stage, ls[1..], src, input)
  }

  lemma {:induction false} SpreadSnoc(path: seq<string>, name: string, sep: string)
    ensures Spread(path + [name], sep) == Spread(path, sep) + name + sep
    ensures Joined(path + [name], sep) == Spread(path, sep) + name
  {
    assert (path + [name])[..|path|] == path;
  }

  lemma {:induction false} DeclareConcat(stage: Stage, a: seq<Leaf>, b: seq<Leaf>, input: bool, prefix: string)
    ensures DeclareLeaves(stage, a + b, input, prefix) ==
            DeclareLeaves(stage, a, input, prefix) + DeclareLeaves(stage, b, input, prefix)
  {
    if a == [] {
      assert a + b == b;
    } else {
      assert (a + b)[1..] == a[1..] + b;
      DeclareConcat(stage, a[1..], b, input, prefix);
    }
  }

  lemma {:induction false} TransferConcat(stage: Stage, a: seq<Leaf>, b: seq<Leaf>, src: string, input: bool)
    ensures TransferLeaves(stage, a + b, src, input) ==
            TransferLeaves(stage, a, src, input) + TransferLeaves(stage, b, src, input)
  {
    if a == [] {
      assert a + b == b;
    } else {
      assert (a + b)[1..] == a[1..] + b;
      TransferConcat(stage, a[1..], b, src, input);
    }
  }

  /** The declarations are those of the surviving leaves, in order, named by their paths. */
  lemma {:induction false} DeclareIsLeaves(stage: Stage, v: Var, input: bool, prefix: string, path: seq<string>)
    ensures Declare(stage, v, input, prefix + Spread(path, "_")) == DeclareLeaves(stage, Leaves(v, path), input, prefix)
    decreases v
  {
    SpreadSnoc(path, v.name, "_");
    match v.ty
    case Struct(fields) =>
      assert prefix + Spread(path, "_") + v.name + "_" == prefix + Spread(path + [v.name], "_");
      DeclareAllIsLeaves(stage, fields, input, prefix, path + [v.name]);
    case Plain(t) =>
      assert prefix + Spread(path, "_") + v.name == prefix + Joined(path + [v.name], "_");
      assert [Leaf(path + [v.name], t, v.mapping)][1..] == [];
  }

  lemma {:induction false} DeclareAllIsLeaves(stage: Stage, vs: seq<Var>, input: bool, prefix: string, path: seq<string>)
    ensures DeclareAll(stage, vs, input, prefix + Spread(path, "_")) ==
            DeclareLeaves(stage, AllLeaves(vs, path), input, prefix)
    decreases vs
  {
    if vs != [] {
      DeclareIsLeaves(stage, vs[0], input, prefix, path);
      DeclareAllIsLeaves(stage, vs[1..], input, prefix, path);
      DeclareConcat(stage, Leaves(vs[0], path), AllLeaves(vs[1..], path), input, prefix);
    }
  }

  /** What stands left of a nested variable once its own path has been written. */
  function Into(path: seq<string>, sep: string): Option<string> {
    if path == [] then None else Some("\t" + Joined(path, sep))
  }

  lemma {:induction false} TargetIsPath(v: Var, path: seq<string>, input: bool)
    ensures Target(v, Into(path, Left(input)), input) == "\t" + Joined(path + [v.name], Left(input))
    ensures Into(path + [v.name], Left(input)) == Some(Target(v, Into(path, Left(input)), input))
  {
    hide Spread;
    var sep := Left(input);
    hide Left;
    SpreadSnoc(path, v.name, sep);
    if path == [] {
      EmptySpread(sep);
      assert "" + v.name == v.name;
    } else {
      var n := |path| - 1;
      var front, last := path[..n], path[n];
      assert path == front + [last];
      SpreadSnoc(front, last, sep);
      Regroup("\t", Spread(front, sep) + last, sep, v.name);
    }
  }

  lemma {:induction false} EmptySpread(sep: string)
    ensures Spread([], sep) == ""
  {
  }

  lemma {:induction false} Regroup(a: string, b: string, c: string, d: string)
    ensures a + b + c + d == a + (b + c + d)
  {
  }

  /** The generated `main` transfers every leaf exactly once, in order. */
  lemma {:induction false} TransferIsLeaves(stage: Stage, v: Var, src: string, input: bool, path: seq<string>)
    ensures Transfer(stage, v, Into(path, Left(input)), src + Spread(path, Right(input)), input) ==
            TransferLeaves(stage, Leaves(v, path), src, input)
    decreases v
  {
    hide Joined, Spread, Target, Left, Right;
    TargetIsPath(v, path, input);
    SpreadSnoc(path, v.name, Right(input));
    match v.ty
    case Struct(fields) =>
      assert src + Spread(path, Right(input)) + v.name + Right(input) == src + Spread(path + [v.name], Right(input));
      TransferAllIsLeaves(stage, fields, src, input, path + [v.name]);
    case Plain(t) =>
      assert src + Spread(path, Right(input)) + v.name == src + Joined(path + [v.name], Right(input));
      assert [Leaf(path + [v.name], t, v.mapping)][1..] == [];
  }

  lemma {:induction false} TransferAllIsLeaves(stage: Stage, vs: seq<Var>, src: string, input: bool, path: seq<string>)
    requires path != []
    ensures TransferAll(stage, vs, Into(path, Left(input)).value, src + Spread(path, Right(input)), input) ==
            TransferLeaves(stage, AllLeaves(vs, path), src, input)
    decreases vs
  {
    hide Joined, Spread, Left, Right;
    if vs != [] {
      TransferIsLeaves(stage, vs[0], src, input, path);
      TransferAllIsLeaves(stage, vs[1..], src, input, path);
      TransferConcat(stage, Leaves(vs[0], path), AllLeaves(vs[1..], path), src, input);
    }
  }

  // ----- Agreement

  function Names(attribs: seq<Attrib>): seq<string> {
    if attribs == [] then [] else [attribs[0].name] + Names(attribs[1..])
  }

  /** Variables read by the statements. */
  function Reads(stmts: seq<Stmt>): seq<string> {
    if stmts == [] then []
    else (if stmts[0].Assign? && stmts[0].source.Variable? then [stmts[0].source.name] else []) + Reads(stmts[1..])
  }

  /** Variables written by the statements. */
  function Targets(stmts: seq<Stmt>): seq<string> {
    if stmts == [] then [] else (if stmts[0].Assign? then [stmts[0].target] else []) + Targets(stmts[1..])
  }

  function Indented(names: seq<string>): seq<string> {
    if names == [] then [] else ["\t" + names[0]] + Indented(names[1..])
  }

  lemma {:induction false} ReadsCons(s: Stmt, rest: seq<Stmt>)
    ensures Reads([s] + rest) == (if s.Assign? && s.source.Variable? then [s.source.name] else []) + Reads(rest)
    ensures Targets([s] + rest) == (if s.Assign? then [s.target] else []) + Targets(rest)
  {
    assert ([s] + rest)[1..] == rest;
  }

  lemma {:induction false} NamesCons(a: Attrib, rest: seq<Attrib>)
    ensures Names([a] + rest) == [a.name] + Names(rest)
    ensures Indented(Names([a] + rest)) == ["\t" + a.name] + Indented(Names(rest))
  {
    assert ([a] + rest)[1..] == rest && ([a.name] + Names(rest))[1..] == Names(rest);
  }

  lemma {:induction false} LeavesAgreeIn(stage: Stage, ls: seq<Leaf>, prefix: string)
    ensures Reads(TransferLeaves(stage, ls, prefix, true)) == Names(DeclareLeaves(stage, ls, true, prefix))
  {
    hide Joined, Reads, Names;
    if ls == [] {
      NothingRead();
    } else {
      var l := ls[0];
      LeavesAgreeIn(stage, ls[1..], prefix);
      ReadsCons(TransferLeaf(stage, l, prefix, true), TransferLeaves(stage, ls[1..], prefix, true));
      NamesCons(Attrib(prefix + Joined(l.path, "_"), l.ty, l.mapping, true), DeclareLeaves(stage, ls[1..], true, prefix));
      NoneSkipped(DeclareLeaves(stage, ls[1..], true, prefix), Names(DeclareLeaves(stage, ls[1..], true, prefix)));
    }
  }

  lemma {:induction false} NothingRead()
    ensures Reads([]) == [] && Names([]) == [] && Targets([]) == [] && Indented([]) == []
  {
  }

  lemma {:induction false} NoneSkipped(a: seq<Attrib>, n: seq<string>)
    ensures [] + a == a && [] + n == n
  {
  }

  lemma {:induction false} LeavesAgreeOut(stage: Stage, ls: seq<Leaf>)
    ensures Targets(TransferLeaves(stage, ls, "", false)) == Indented(Names(DeclareLeaves(stage, ls, false, "")))
  {
    hide Joined, Targets, Names, Indented;
    if ls == [] {
      NothingRead();
    } else {
      var l := ls[0];
      LeavesAgreeOut(stage, ls[1..]);
      var rest := DeclareLeaves(stage, ls[1..], false, "");
      ReadsCons(TransferLeaf(stage, l, "", false), TransferLeaves(stage, ls[1..], "", false));
      NamesCons(Attrib("" + Joined(l.path, "_"), l.ty, l.mapping, false), rest);
      NoneSkipped(rest, Indented(Names(rest)));
      assert "" + Joined(l.path, "_") == Joined(l.path, "_");
    }
  }

  /** `main` reads exactly the input variables declared for a parameter, in the order of declaration. */
  lemma {:induction false} InputsAgree(stage: Stage, v: Var)
    ensures Reads(Transfer(stage, v, None, "inputval_", true)) == Names(Declare(stage, v, true, "inputval_"))
  {
    DeclareIsLeaves(stage, v, true, "inputval_", []);
    TransferIsLeaves(stage, v, "inputval_", true, []);
    assert "inputval_" + Spread([], "_") == "inputval_";
    LeavesAgreeIn(stage, Leaves(v, []), "inputval_");
  }

  /** ... and writes exactly the output variables declared for the result. */
  lemma {:induction false} OutputsAgree(stage: Stage, v: Var)
    ensures Targets(Transfer(stage, v, None, "", false)) == Indented(Names(Declare(stage, v, false, "")))
  {
    DeclareIsLeaves(stage, v, false, "", []);
    TransferIsLeaves(stage, v, "", false, []);
    assert "" + Spread([], "_") == "" && "" + Spread([], ".") == "";
    LeavesAgreeOut(stage, Leaves(v, []));
  }

  /** Every leaf is served once: from its variable, or from the built-in its mapping names. */
  lemma {:induction false} LeafServed(stage: Stage, v: Var, k: nat, src: string, input: bool)
    requires k < |Leaves(v, [])|
    ensures var stmts := Transfer(stage, v, None, src, input);
            |stmts| == |Leaves(v, [])| && stmts[k] == TransferLeaf(stage, Leaves(v, [])[k], src, input)
  {
    TransferIsLeaves(stage, v, src, input, []);
    assert src + Spread([], Right(input)) == src;
    TransferLeavesAt(stage, Leaves(v, []), src, input, k);
  }

  /**
   * The text of the statement for a leaf: members are joined by dots in the struct and by underscores
   * in the stage variables; vertex id, fragment position and vertex position have their built-ins.
   */
  lemma {:induction false} LeafServedText(stage: Stage, v: Var, k: nat, src: string)
    requires k < |Leaves(v, [])|
    ensures var l, stmts := Leaves(v, [])[k], Transfer(stage, v, None, src, true);
            && k < |stmts| && stmts[k].Assign? && stmts[k].target == "\t" + Joined(l.path, ".")
            && stmts[k].source == (if l.mapping == VertexId then VertexIdValue
                                   else if l.mapping == Position && stage == Pixel then FragCoordValue
                                   else Variable(src + Joined(l.path, "_")))
    ensures var l, stmts := Leaves(v, [])[k], Transfer(stage, v, None, src, false);
            && k < |stmts|
            && stmts[k] == if l.mapping == Position && stage == Vertex then SetPosition(src + Joined(l.path, "."))
                           else Assign("\t" + Joined(l.path, "_"), Variable(src + Joined(l.path, ".")))
  {
    LeafServed(stage, v, k, src, true);
    LeafServed(stage, v, k, src, false);
  }

  lemma {:induction false} TransferLeavesAt(stage: Stage, ls: seq<Leaf>, src: string, input: bool, k: nat)
    requires k < |ls|
    ensures |TransferLeaves(stage, ls, src, input)| == |ls|
    ensures TransferLeaves(stage, ls, src, input)[k] == TransferLeaf(stage, ls[k], src, input)
  {
    if |ls| > 1 { TransferLeavesAt(stage, ls[1..], src, input, if k > 0 then k - 1 else 0); }
  }
}

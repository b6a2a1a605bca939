/**
 * The names the linker sees: what the textual replacement makes of every stage variable of a shader,
 * when that is the variable's own number, and that two stages still agree where it is not.
 */
module StageNames {
  import opened Wrappers
  import opened StorageStructs
  import opened TextReplace
  import opened StageLinkage

  // ----- Flattened names under a prefix

  lemma {:induction false} ShiftPrefix(stage: Stage, v: Var, input: bool, p: string, q: string, k: nat)
    ensures |Declare(stage, v, input, p + q)| == |Declare(stage, v, input, q)|
    ensures k < |Declare(stage, v, input, q)| ==>
              Declare(stage, v, input, p + q)[k].name == p + Declare(stage, v, input, q)[k].name
    decreases v
  {
    match v.ty
    case Struct(fields) =>
      assert p + q + v.name + "_" == p + (q + v.name + "_");
      ShiftAll(stage, fields, input, p, q + v.name + "_", k);
    case Plain(_) =>
      assert p + q + v.name == p + (q + v.name);
  }

  lemma {:induction false} ShiftAll(stage: Stage, vs: seq<Var>, input: bool, p: string, q: string, k: nat)
    ensures |DeclareAll(stage, vs, input, p + q)| == |DeclareAll(stage, vs, input, q)|
    ensures k < |DeclareAll(stage, vs, input, q)| ==>
              DeclareAll(stage, vs, input, p + q)[k].name == p + DeclareAll(stage, vs, input, q)[k].name
    decreases vs
  {
    if vs != [] {
      var n := |Declare(stage, vs[0], input, q)|;
      ShiftPrefix(stage, vs[0], input, p, q, k);
      ShiftAll(stage, vs[1..], input, p, q, if k >= n then k - n else 0);
    }
  }

  /** A flattened name without any prefix. */
  function Rel(stage: Stage, vs: seq<Var>, input: bool, k: nat): string
    requires k < |DeclareAll(stage, vs, input, "")|
  {
    DeclareAll(stage, vs, input, "")[k].name
  }

  lemma {:induction false} NameIsRel(stage: Stage, vs: seq<Var>, input: bool, p: string, k: nat)
    requires k < |DeclareAll(stage, vs, input, p)|
    ensures k < |DeclareAll(stage, vs, input, "")|
    ensures DeclareAll(stage, vs, input, p)[k].name == p + Rel(stage, vs, input, k)
  {
    assert p + "" == p;
    ShiftAll(stage, vs, input, p, "", k);
  }

  // ----- Members free of the stems

  predicate FreeVar(v: Var) {
    Free(v.name) && (v.ty.Struct? ==> forall i :: 0 <= i < |v.ty.fields| ==> FreeVar(v.ty.fields[i]))
  }

  predicate FreeVars(vs: seq<Var>) { forall i :: 0 <= i < |vs| ==> FreeVar(vs[i]) }

  /** No parameter or member of the shader's structs has "inputval" or "outputval" in its name. */
  predicate FreeFunc(f: Func) { FreeVars(f.params) && (f.result.Struct? ==> FreeVars(f.result.fields)) }

  lemma {:induction false} FreeRel(stage: Stage, v: Var, input: bool, k: nat)
    requires FreeVar(v) && k < |Declare(stage, v, input, "")|
    ensures Free(Declare(stage, v, input, "")[k].name)
    decreases v
  {
    hide Free;
    match v.ty
    case Struct(fields) =>
      assert "" + v.name + "_" == v.name + "_";
      NameIsRel(stage, fields, input, v.name + "_", k);
      FreeRels(stage, fields, input, k);
      FreeJoin(v.name, Rel(stage, fields, input, k));
    case Plain(_) =>
      assert "" + v.name == v.name;
  }

  lemma {:induction false} FreeRels(stage: Stage, vs: seq<Var>, input: bool, k: nat)
    requires FreeVars(vs) && k < |DeclareAll(stage, vs, input, "")|
    ensures Free(DeclareAll(stage, vs, input, "")[k].name)
    decreases vs
  {
    hide Free;
    var n := |Declare(stage, vs[0], input, "")|;
    if k < n {
      FreeRel(stage, vs[0], input, k);
    } else {
      FreeRels(stage, vs[1..], input, k - n);
    }
  }

  // ----- The renaming of a shader

  function Before(stage: Stage, f: Func): seq<string> { Names(Attribs(stage, f)) }

  function After(stage: Stage, f: Func): seq<string> { NewNames(stage, Attribs(stage, f)) }

  lemma {:induction false} InputName(stage: Stage, f: Func, k: nat)
    requires FreeVars(f.params) && k < |DeclareAll(stage, f.params, true, "inputval_")|
    ensures Regular(DeclareAll(stage, f.params, true, "inputval_")[k].name)
  {
    hide Free, Regular;
    NameIsRel(stage, f.params, true, "inputval_", k);
    FreeRels(stage, f.params, true, k);
    assert InputStem + "_" == "inputval_";
    StemmedRegular(InputStem, Rel(stage, f.params, true, k));
  }

  lemma {:induction false} OutputName(stage: Stage, f: Func, k: nat)
    requires FreeFunc(f) && k < |Declare(stage, ResultVar(f), false, "")|
    ensures Regular(Declare(stage, ResultVar(f), false, "")[k].name)
  {
    hide Free, Regular;
    match f.result
    case Struct(fields) =>
      assert "" + "outputval" + "_" == "outputval_" == OutputStem + "_";
      NameIsRel(stage, fields, false, "outputval_", k);
      FreeRels(stage, fields, false, k);
      StemmedRegular(OutputStem, Rel(stage, fields, false, k));
    case Plain(_) =>
      assert "" + "outputval" == OutputStem;
      NoInnerStem();
  }

  lemma {:induction false} SpellFree(n: Numbered)
    ensures |Spell(n)| > 0 && IsDigit(Spell(n)[|Spell(n)| - 1]) && Free(Spell(n))
  {
    PrefixNoVa(n.family);
    var p, d := Prefix(n.family), Decimal(n.number);
    assert forall i :: |p| <= i < |p + d| ==> (p + d)[i] == d[i - |p|] && IsDigit(d[i - |p|]);
    assert forall i :: 0 <= i < |p| ==> (p + d)[i] == p[i];
    NoVaFree(p + d);
  }

  lemma {:induction false} PrefixNoVa(f: Family)
    ensures NoVa(Prefix(f))
  {
  }

  /** The names and numbered names of any such shader are as the replacement needs them. */
  lemma {:induction false} ShaderRenaming(stage: Stage, f: Func)
    requires FreeFunc(f)
    ensures Renaming(Before(stage, f), After(stage, f)) && |Before(stage, f)| == |Attribs(stage, f)|
  {
    hide Regular, Free, Spell, FreeFunc;
    var attribs := Attribs(stage, f);
    NamesLength(attribs);
    forall i | 0 <= i < |attribs| ensures Before(stage, f)[i] != "" && Regular(Before(stage, f)[i]) {
      AttribName(stage, f, i);
      RegularNotEmpty(attribs[i].name);
    }
    forall i | 0 <= i < |attribs|
      ensures var n := After(stage, f)[i]; |n| > 0 && IsDigit(n[|n| - 1]) && Free(n)
    {
      SpellFree(NewName(stage, attribs, i));
    }
  }

  lemma {:induction false} AttribName(stage: Stage, f: Func, i: nat)
    requires FreeFunc(f) && i < |Attribs(stage, f)|
    ensures Regular(Attribs(stage, f)[i].name)
  {
    hide Regular, Free;
    var n := |DeclareAll(stage, f.params, true, "inputval_")|;
    if i < n {
      InputName(stage, f, i);
    } else {
      OutputName(stage, f, i - n);
    }
  }

  lemma {:induction false} RegularNotEmpty(s: string)
    requires Regular(s)
    ensures s != ""
  {
    StemsAreLike();
  }

  /** The text in which the `k`-th stage variable ends up. */
  function Final(stage: Stage, f: Func, k: nat): string
    requires FreeFunc(f) && k < |Attribs(stage, f)|
  {
    ShaderRenaming(stage, f);
    RenameFrom(Before(stage, f)[k], Before(stage, f), After(stage, f), 0)
  }

  /**
   * For every shader: exactly when a stage variable is declared and used under the name that the
   * attribute list has for it, and under which name otherwise.
   */
  lemma {:induction false} NameExact(stage: Stage, f: Func, k: nat)
    requires FreeFunc(f) && k < |Attribs(stage, f)|
    ensures |Before(stage, f)| == |After(stage, f)| == |Attribs(stage, f)|
    ensures var before, after := Before(stage, f), After(stage, f);
            var i := FirstPrefix(before, k, 0);
            && Final(stage, f, k) == after[i] + before[k][|before[i]|..]
            && (Final(stage, f, k) == after[k]
                <==> (forall j :: 0 <= j < k ==> !(before[j] <= before[k])) || after[i] + before[k][|before[i]|..] == after[k])
  {
    hide Renaming, FreeFunc, Attribs;
    ShaderRenaming(stage, f);
    RenamedExactly(Before(stage, f), After(stage, f), k);
  }

  /** The numbered names in full: inputs of either stage, then outputs, each counted from zero. */
  lemma {:induction false} NumberedTexts(stage: Stage, f: Func, i: nat)
    requires i < |Attribs(stage, f)|
    ensures var inputs := |DeclareAll(stage, f.params, true, "inputval_")|;
            && |After(stage, f)| == |Attribs(stage, f)|
            && After(stage, f)[i] ==
               if stage == Vertex
               then if i < inputs then "_input_attrib" + Decimal(i) else "_vertex_shader_attrib" + Decimal(i - inputs)
               else if i < inputs then "_vertex_shader_attrib" + Decimal(i) else "_pixel_shader_attrib" + Decimal(i - inputs)
  {
    hide Attribs, Decimal, NewName, DeclareAll;
    NumbersFollowOrder(stage, f, i);
  }

  // ----- Two members, one name beginning with the other

  /** A vertex shader with one struct parameter of two members. */
  function TwoMembers(a: string, b: string, t: string): Func {
    Func([Var("v", Struct([Var(a, Plain(t), Other("TEXCOORD0")), Var(b, Plain(t), Other("TEXCOORD1"))]), Other(""))],
         Struct([Var("pos", Plain("float4"), Position)]), None)
  }

  lemma {:induction false} TwoMemberNames(a: string, b: string, t: string)
    ensures var attribs := Attribs(Vertex, TwoMembers(a, b, t));
            && |attribs| == 2 && attribs[0].name == "inputval_v_" + a && attribs[1].name == "inputval_v_" + b
            && attribs[0].input && attribs[1].input
  {
    var x, y := Var(a, Plain(t), Other("TEXCOORD0")), Var(b, Plain(t), Other("TEXCOORD1"));
    var f := TwoMembers(a, b, t);
    assert [x, y][1..] == [y] && [y][1..] == [] && f.params[1..] == [];
    assert "inputval_" + "v" + "_" == "inputval_v_";
    assert DeclareAll(Vertex, [y], true, "inputval_v_") == [Attrib("inputval_v_" + b, t, Other("TEXCOORD1"), true)];
    assert DeclareAll(Vertex, [x, y], true, "inputval_v_") ==
           [Attrib("inputval_v_" + a, t, Other("TEXCOORD0"), true)] + [Attrib("inputval_v_" + b, t, Other("TEXCOORD1"), true)];
    assert f.params[0].ty == Struct([x, y]) && f.params[0].name == "v";
    assert Declare(Vertex, f.params[0], true, "inputval_") == DeclareAll(Vertex, [x, y], true, "inputval_v_");
    assert DeclareAll(Vertex, f.params[1..], true, "inputval_") == [];
    NoOutputs(f.result.fields[0], ResultVar(f));
  }

  lemma {:induction false} NoOutputs(p: Var, r: Var)
    requires p.ty.Plain? && p.mapping == Position && r.ty == Struct([p])
    ensures Declare(Vertex, r, false, "") == []
  {
    var q := "" + r.name + "_";
    assert [p][0] == p && [p][1..] == [] && DeclareAll(Vertex, [], false, q) == [];
    assert Declare(Vertex, p, false, q) == [];
    assert DeclareAll(Vertex, [p], false, q) == [];
  }

  /**
   * Members such as `uv` and `uv2`: the second is declared as the first's number with the rest of
   * its own name behind it, which is not the name by which the program looks it up.
   */
  lemma {:induction false} ExtendedMember(a: string, tail: string, t: string)
    requires Free(a) && Free(a + tail) && tail != ""
    ensures var f := TwoMembers(a, a + tail, t);
            && FreeFunc(f) && |Attribs(Vertex, f)| == 2 == |After(Vertex, f)|
            && Final(Vertex, f, 1) == "_input_attrib0" + tail
            && After(Vertex, f)[1] == "_input_attrib1" && Final(Vertex, f, 1) != After(Vertex, f)[1]
  {
    var f := TwoMembers(a, a + tail, t);
    TwoMembersFree(a, a + tail, t);
    TwoMemberNames(a, a + tail, t);
    hide Attribs, TwoMembers, FreeFunc, Free;
    var attribs := Attribs(Vertex, f);
    NamesLength(attribs);
    ShaderRenaming(Vertex, f);
    var x, y := "inputval_v_" + a, "inputval_v_" + (a + tail);
    assert y == x + tail && x <= y && y[|x|..] == tail;
    FinalText(Before(Vertex, f), After(Vertex, f), 1, 0);
    FirstTwoNames(attribs);
    assert ("_input_attrib0" + tail)[13] == '0' && "_input_attrib1"[13] == '1';
  }

  lemma {:induction false} UvAndUv2()
    ensures var f := TwoMembers("uv", "uv2", "float2");
            && FreeFunc(f) && |Attribs(Vertex, f)| == 2 == |After(Vertex, f)|
            && Final(Vertex, f, 1) == "_input_attrib02" && After(Vertex, f)[1] == "_input_attrib1"
  {
    ShortFree("uv");
    ShortFree("uv2");
    assert "uv" + "2" == "uv2" && "_input_attrib0" + "2" == "_input_attrib02";
    ExtendedMember("uv", "2", "float2");
  }

  lemma {:induction false} TwoMembersFree(a: string, b: string, t: string)
    requires Free(a) && Free(b)
    ensures FreeFunc(TwoMembers(a, b, t))
  {
    ShortFree("v");
    ShortFree("pos");
    var x, y := Var(a, Plain(t), Other("TEXCOORD0")), Var(b, Plain(t), Other("TEXCOORD1"));
    assert FreeVar(x) && FreeVar(y);
    var v := Var("v", Struct([x, y]), Other(""));
    assert FreeVar(v);
    assert FreeVar(Var("pos", Plain("float4"), Position));
  }

  lemma {:induction false} ShortFree(s: string)
    requires |s| < 8
    ensures Free(s)
  {
    StemsAreLike();
  }

  lemma {:induction false} FirstTwoNames(attribs: seq<Attrib>)
    requires |attribs| == 2 && attribs[0].input && attribs[1].input
    ensures NewNames(Vertex, attribs)[0] == "_input_attrib0" && NewNames(Vertex, attribs)[1] == "_input_attrib1"
  {
    assert Earlier(attribs, 0, true) == 0 && Earlier(attribs, 1, true) == 1;
    assert Decimal(0) == "0" && Decimal(1) == "1";
  }

  // ----- Linkage in the text

  /** Without a vertex-id member, vertex outputs and pixel inputs of a struct flatten to the same names. */
  lemma {:induction false} SameRel(v: Var, q: string, k: nat)
    requires !MentionsVertexId(v.ty, v.mapping)
    ensures |Declare(Vertex, v, false, q)| == |Declare(Pixel, v, true, q)|
    ensures k < |Declare(Vertex, v, false, q)| ==>
              Declare(Vertex, v, false, q)[k].name == Declare(Pixel, v, true, q)[k].name
    decreases v.ty
  {
    if v.ty.Struct? { SameRels(v.ty.fields, q + v.name + "_", k); }
  }

  lemma {:induction false} SameRels(vs: seq<Var>, q: string, k: nat)
    requires forall i :: 0 <= i < |vs| ==> !MentionsVertexId(vs[i].ty, vs[i].mapping)
    ensures |DeclareAll(Vertex, vs, false, q)| == |DeclareAll(Pixel, vs, true, q)|
    ensures k < |DeclareAll(Vertex, vs, false, q)| ==>
              DeclareAll(Vertex, vs, false, q)[k].name == DeclareAll(Pixel, vs, true, q)[k].name
    decreases vs
  {
    if vs != [] {
      var n := |Declare(Vertex, vs[0], false, q)|;
      SameRel(vs[0], q, k);
      SameRels(vs[1..], q, if k >= n then k - n else 0);
    }
  }

  lemma {:induction false} PrefixUnder(p: string, a: string, b: string)
    ensures p + a <= p + b <==> a <= b
    ensures a <= b ==> (p + b)[|p + a|..] == b[|a|..]
  {
    var x, y := p + a, p + b;
    if a <= b { assert y[..|x|] == x; }
    if x <= y { assert b[..|a|] == y[|p|..|x|] == x[|p|..] == a; }
  }

  /** Vertex outputs of a struct result, and pixel inputs of a struct parameter, by name. */
  lemma {:induction false} OutName(f: Func, k: nat)
    requires f.result.Struct? && k < |Declare(Vertex, ResultVar(f), false, "")|
    ensures k < |DeclareAll(Vertex, f.result.fields, false, "")|
    ensures Declare(Vertex, ResultVar(f), false, "")[k].name == "outputval_" + Rel(Vertex, f.result.fields, false, k)
  {
    assert "" + "outputval" + "_" == "outputval_";
    NameIsRel(Vertex, f.result.fields, false, "outputval_", k);
  }

  lemma {:induction false} InName(v: Var, k: nat)
    requires v.ty.Struct? && k < |Declare(Pixel, v, true, "inputval_")|
    ensures k < |DeclareAll(Pixel, v.ty.fields, true, "")|
    ensures Declare(Pixel, v, true, "inputval_")[k].name == "inputval_" + v.name + "_" + Rel(Pixel, v.ty.fields, true, k)
  {
    NameIsRel(Pixel, v.ty.fields, true, "inputval_" + v.name + "_", k);
  }

  predicate Linking(vertex: Func, pixel: Func) {
    && FreeFunc(vertex) && FreeFunc(pixel)
    && vertex.result.Struct? && vertex.mapping.None? && !MentionsVertexId(vertex.result, Other(""))
    && pixel.params != [] && pixel.params[0].ty == vertex.result
  }

  /** Names of the struct's leaves, without prefix; they are the same in both stages. */
  function Rels(vertex: Func): (rs: seq<string>)
    requires vertex.result.Struct?
    ensures |rs| == |DeclareAll(Vertex, vertex.result.fields, false, "")|
    ensures forall j :: 0 <= j < |rs| ==> rs[j] == Rel(Vertex, vertex.result.fields, false, j)
  {
    var n := |DeclareAll(Vertex, vertex.result.fields, false, "")|;
    seq(n, j requires 0 <= j < n => Rel(Vertex, vertex.result.fields, false, j))
  }

  lemma {:induction false} OutCount(f: Func)
    requires f.result.Struct?
    ensures |Declare(Vertex, ResultVar(f), false, "")| == |Rels(f)|
  {
    assert "" + "outputval" + "_" == "outputval_" + "";
    ShiftAll(Vertex, f.result.fields, false, "outputval_", "", 0);
  }

  lemma {:induction false} VertexBefore(vertex: Func, k: nat)
    requires vertex.result.Struct? && k < |Rels(vertex)|
    ensures var nv := |DeclareAll(Vertex, vertex.params, true, "inputval_")|;
            && nv + k < |Before(Vertex, vertex)| == |Attribs(Vertex, vertex)| == |After(Vertex, vertex)|
            && Before(Vertex, vertex)[nv + k] == "outputval_" + Rels(vertex)[k]
            && After(Vertex, vertex)[nv + k] == Spell(Numbered(VertexShaderAttrib, k))
  {
    hide Declare, DeclareAll, Spell;
    OutCount(vertex);
    OutName(vertex, k);
    OutputNumber(vertex, k);
    NamesLength(Attribs(Vertex, vertex));
  }

  lemma {:induction false} VertexInputs(vertex: Func, j: nat)
    requires j < |DeclareAll(Vertex, vertex.params, true, "inputval_")|
    ensures j < |Before(Vertex, vertex)| && "inputval_" <= Before(Vertex, vertex)[j]
  {
    hide Declare, DeclareAll;
    NamesLength(Attribs(Vertex, vertex));
    NameIsRel(Vertex, vertex.params, true, "inputval_", j);
  }

  lemma {:induction false} PixelBefore(vertex: Func, pixel: Func, k: nat)
    requires Linking(vertex, pixel) && k < |Rels(vertex)|
    ensures k < |Before(Pixel, pixel)| == |Attribs(Pixel, pixel)| == |After(Pixel, pixel)|
    ensures Before(Pixel, pixel)[k] == "inputval_" + pixel.params[0].name + "_" + Rels(vertex)[k]
    ensures After(Pixel, pixel)[k] == Spell(Numbered(VertexShaderAttrib, k))
  {
    hide Spell, FreeFunc;
    var v := pixel.params[0];
    SameRels(vertex.result.fields, "", k);
    assert "inputval_" + v.name + "_" == "inputval_" + v.name + "_" + "";
    ShiftAll(Pixel, v.ty.fields, true, "inputval_" + v.name + "_", "", k);
    InName(v, k);
    InputNumber(pixel, k);
    NamesLength(Attribs(Pixel, pixel));
  }

  /** The final text of a vertex output: the number of the first leaf whose name it begins with, and the tail. */
  lemma {:induction false} VertexFinal(vertex: Func, k: nat, i: nat)
    requires FreeFunc(vertex) && vertex.result.Struct? && i <= k < |Rels(vertex)|
    requires Rels(vertex)[i] <= Rels(vertex)[k] && forall j :: 0 <= j < i ==> !(Rels(vertex)[j] <= Rels(vertex)[k])
    ensures var nv := |DeclareAll(Vertex, vertex.params, true, "inputval_")|;
            && nv + k < |Attribs(Vertex, vertex)|
            && Final(Vertex, vertex, nv + k) == Spell(Numbered(VertexShaderAttrib, i)) + Rels(vertex)[k][|Rels(vertex)[i]|..]
  {
    hide Declare, DeclareAll, Spell, FreeFunc, Renaming, Attribs, Before, After;
    var nv := |DeclareAll(Vertex, vertex.params, true, "inputval_")|;
    var before, rels := Before(Vertex, vertex), Rels(vertex);
    ShaderRenaming(Vertex, vertex);
    VertexBefore(vertex, k);
    VertexBefore(vertex, i);
    PrefixUnder("outputval_", rels[i], rels[k]);
    forall j | 0 <= j < nv + i ensures !(before[j] <= before[nv + k]) {
      if j < nv {
        VertexInputs(vertex, j);
        InputNotOutput(before[j], before[nv + k]);
      } else {
        VertexBefore(vertex, j - nv);
        PrefixUnder("outputval_", rels[j - nv], rels[k]);
      }
    }
    FinalText(before, After(Vertex, vertex), nv + k, nv + i);
  }

  lemma {:induction false} InputNotOutput(a: string, b: string)
    requires "inputval_" <= a && "outputval_" <= b
    ensures !(a <= b)
  {
    assert a[0] == "inputval_"[0] && b[0] == "outputval_"[0];
  }

  lemma {:induction false} PixelFinal(vertex: Func, pixel: Func, k: nat, i: nat)
    requires Linking(vertex, pixel) && i <= k < |Rels(vertex)|
    requires Rels(vertex)[i] <= Rels(vertex)[k] && forall j :: 0 <= j < i ==> !(Rels(vertex)[j] <= Rels(vertex)[k])
    ensures k < |Attribs(Pixel, pixel)|
    ensures Final(Pixel, pixel, k) == Spell(Numbered(VertexShaderAttrib, i)) + Rels(vertex)[k][|Rels(vertex)[i]|..]
  {
    hide Declare, DeclareAll, Spell, FreeFunc, Renaming, Attribs, Before, After;
    var p := "inputval_" + pixel.params[0].name + "_";
    var before, rels := Before(Pixel, pixel), Rels(vertex);
    ShaderRenaming(Pixel, pixel);
    PixelBefore(vertex, pixel, k);
    PixelBefore(vertex, pixel, i);
    PrefixUnder(p, rels[i], rels[k]);
    forall j | 0 <= j < i ensures !(before[j] <= before[k]) {
      PixelBefore(vertex, pixel, j);
      PrefixUnder(p, rels[j], rels[k]);
    }
    FinalText(before, After(Pixel, pixel), k, i);
  }

  /**
   * What the linker sees: for a struct without a vertex-id member that the vertex shader returns and
   * the pixel shader takes first, the k-th output and the k-th input have the same text, also where
   * the replacement gave them another variable's number.
   */
  lemma {:induction false} StagesLinkInText(vertex: Func, pixel: Func, k: nat)
    requires Linking(vertex, pixel) && k < |Declare(Vertex, ResultVar(vertex), false, "")|
    ensures var nv := |DeclareAll(Vertex, vertex.params, true, "inputval_")|;
            && nv + k < |Attribs(Vertex, vertex)| && k < |Attribs(Pixel, pixel)|
            && Attribs(Vertex, vertex)[nv + k] == Declare(Vertex, ResultVar(vertex), false, "")[k]
            && Attribs(Pixel, pixel)[k].ty == Attribs(Vertex, vertex)[nv + k].ty
            && Final(Vertex, vertex, nv + k) == Final(Pixel, pixel, k)
  {
    hide Declare, DeclareAll, Spell, FreeFunc, Attribs, Final, MentionsVertexId;
    OutCount(vertex);
    var i := FirstPrefix(Rels(vertex), k, 0);
    VertexFinal(vertex, k, i);
    PixelFinal(vertex, pixel, k, i);
    SameTypes(vertex, pixel, k);
  }

  lemma {:induction false} SameTypes(vertex: Func, pixel: Func, k: nat)
    requires Linking(vertex, pixel) && k < |Declare(Vertex, ResultVar(vertex), false, "")|
    ensures var nv := |DeclareAll(Vertex, vertex.params, true, "inputval_")|;
            && nv + k < |Attribs(Vertex, vertex)| && k < |Attribs(Pixel, pixel)|
            && Attribs(Vertex, vertex)[nv + k] == Declare(Vertex, ResultVar(vertex), false, "")[k]
            && Attribs(Pixel, pixel)[k].ty == Attribs(Vertex, vertex)[nv + k].ty
  {
    hide Declare, DeclareAll, NewName, FreeFunc;
    PairedIff(ResultVar(vertex), pixel.params[0]);
    OutputNumber(vertex, k);
    InputNumber(pixel, k);
  }
}

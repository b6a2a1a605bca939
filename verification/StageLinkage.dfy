/**
 * The writer that emits both flattenings, the numbering of stage variables, and what it takes for
 * the vertex stage's outputs to meet the pixel stage's inputs.
 */
module StageLinkage {
  import opened Wrappers
  import opened StorageStructs
  import opened TextReplace

  /** Name families of stage variables; vertex outputs and pixel inputs share one. */
  datatype Family = InputAttrib | VertexShaderAttrib | PixelShaderAttrib

  datatype Numbered = Numbered(family: Family, number: nat)

  function Prefix(f: Family): string {
    match f
    case InputAttrib => "_input_attrib"
    case VertexShaderAttrib => "_vertex_shader_attrib"
    case PixelShaderAttrib => "_pixel_shader_attrib"
  }

  function Spell(n: Numbered): string { Prefix(n.family) + Decimal(n.number) }

  function FamilyOf(stage: Stage, input: bool): Family {
    match stage
    case Vertex => if input then InputAttrib else VertexShaderAttrib
    case Pixel => if input then VertexShaderAttrib else PixelShaderAttrib
  }

  /** Attributes before the `i`-th that go the same way. */
  function Earlier(attribs: seq<Attrib>, i: nat, input: bool): nat
    requires i <= |attribs|
  {
    if i == 0 then 0 else Earlier(attribs, i - 1, input) + if attribs[i - 1].input == input then 1 else 0
  }

  function NewName(stage: Stage, attribs: seq<Attrib>, i: nat): Numbered
    requires i < |attribs|
  {
    Numbered(FamilyOf(stage, attribs[i].input), Earlier(attribs, i, attribs[i].input))
  }

  /** The numbered names as they are spelled, in the order of the attributes. */
  function NewNames(stage: Stage, attribs: seq<Attrib>): (ns: seq<string>)
    ensures |ns| == |attribs| && forall i :: 0 <= i < |ns| ==> ns[i] == Spell(NewName(stage, attribs, i))
  {
    seq(|attribs|, i requires 0 <= i < |attribs| => Spell(NewName(stage, attribs, i)))
  }

  lemma {:induction false} NamesLength(a: seq<Attrib>)
    ensures |Names(a)| == |a| && forall i :: 0 <= i < |a| ==> Names(a)[i] == a[i].name
  {
    if a != [] {
      NamesLength(a[1..]);
      assert forall i :: 1 <= i < |a| ==> a[i] == a[1..][i - 1];
    }
  }

  /** A shader's `main`: parameters, and a result that is a struct or carries a mapping itself. */
  datatype Func = Func(params: seq<Var>, result: Type, mapping: Option<Mapping>)

  function ResultVar(f: Func): Var { Var("outputval", f.result, if f.mapping.Some? then f.mapping.value else Other("")) }

  function Attribs(stage: Stage, f: Func): seq<Attrib> {
    DeclareAll(stage, f.params, true, "inputval_") + Declare(stage, ResultVar(f), false, "")
  }

  class Writer {
    const stage: Stage
    var attribs: seq<Attrib>
    var body: seq<Stmt>
    var names: seq<string>
    var text: seq<string>

    constructor (stage: Stage)
      ensures this.stage == stage && attribs == [] && body == [] && names == [] && text == []
    {
      this.stage, attribs, body, names, text := stage, [], [], [], [];
    }

    method UnwrapStorageStruct(fields: seq<Var>, name: string, input: bool, prefix: string)
      modifies this`attribs
      ensures attribs == old(attribs) + DeclareAll(stage, fields, input, prefix + name + "_")
      decreases fields, 0
    {
      var inner := prefix + name + "_";
      var i := 0;
      while i < |fields|
        invariant 0 <= i <= |fields|
        invariant attribs + DeclareAll(stage, fields[i..], input, inner) ==
                  old(attribs) + DeclareAll(stage, fields, input, inner)
      {
        WriteStorageVar(fields[i], input, inner);
        i := i + 1;
      }
    }

    method WriteStorageVar(v: Var, input: bool, prefix: string)
      modifies this`attribs
      ensures attribs == old(attribs) + Declare(stage, v, input, prefix)
      decreases v, 1
    {
      match v.ty {
        case Struct(fields) =>
          UnwrapStorageStruct(fields, v.name, input, prefix);
        case Plain(t) =>
          if input && v.mapping == VertexId {
            return;
          }
          if v.mapping == Position {
            if !input && stage == Vertex {
              return;
            }
            if input && stage == Pixel {
              return;
            }
          }
          attribs := attribs + [Attrib(prefix + v.name, t, v.mapping, input)];
      }
    }

    method WriteInputs(f: Func)
      modifies this`attribs
      ensures attribs == old(attribs) + DeclareAll(stage, f.params, true, "inputval_")
    {
      var i := 0;
      while i < |f.params|
        invariant 0 <= i <= |f.params|
        invariant attribs + DeclareAll(stage, f.params[i..], true, "inputval_") ==
                  old(attribs) + DeclareAll(stage, f.params, true, "inputval_")
      {
        WriteStorageVar(f.params[i], true, "inputval_");
        i := i + 1;
      }
    }

    method WriteMainStorageAssign(v: Var, dst: Option<string>, src: string, input: bool)
      modifies this`body
      ensures body == old(body) + Transfer(stage, v, dst, src, input)
      decreases v
    {
      var left, right := if input then "." else "_", if input then "_" else ".";
      var target := (if dst.Some? then dst.value + left else "\t") + v.name;
      match v.ty {
        case Struct(fields) =>
          var inner := src + v.name + right;
          var i := 0;
          while i < |fields|
            invariant 0 <= i <= |fields|
            invariant body + TransferAll(stage, fields[i..], target, inner, input) ==
                      old(body) + TransferAll(stage, fields, target, inner, input)
          {
            WriteMainStorageAssign(fields[i], Some(target), inner, input);
            i := i + 1;
          }
        case Plain(_) =>
          if input || stage != Vertex || v.mapping != Position {
            body := body + [Assign(target, SourceFor(stage, v, src, input))];
          }
          if !input && stage == Vertex && v.mapping == Position {
            body := body + [SetPosition(src + v.name)];
          }
      }
    }

    /** `text` are the identifiers of the shader; each attribute's name is replaced in all of them. */
    method RenameAttributes()
      requires names == [] && forall i :: 0 <= i < |attribs| ==> attribs[i].name != ""
      modifies this`names, this`text
      ensures names == NewNames(stage, attribs) && |text| == |old(text)|
      ensures |Names(attribs)| == |attribs| && forall i :: 0 <= i < |attribs| ==> Names(attribs)[i] != ""
      ensures forall j :: 0 <= j < |text| ==> text[j] == RenameFrom(old(text)[j], Names(attribs), names, 0)
    {
      hide ReplaceAll, Spell, NewName;
      ghost var before, after := Names(attribs), NewNames(stage, attribs);
      NamesLength(attribs);
      var inputIdx, outputIdx := 0, 0;
      var i := 0;
      while i < |attribs|
        invariant 0 <= i <= |attribs| && attribs == old(attribs) && |text| == |old(text)|
        invariant inputIdx == Earlier(attribs, i, true) && outputIdx == Earlier(attribs, i, false)
        invariant names == after[..i]
        invariant forall j :: 0 <= j < |text| ==> RenameFrom(text[j], before, after, i) == RenameFrom(old(text)[j], before, after, 0)
      {
        var val;
        if attribs[i].input {
          val := inputIdx;
          inputIdx := inputIdx + 1;
        } else {
          val := outputIdx;
          outputIdx := outputIdx + 1;
        }
        var newName := Spell(Numbered(FamilyOf(stage, attribs[i].input), val));
        assert newName == after[i] by { SpelledName(stage, attribs, i); }
        Replace(attribs[i].name, newName);
        names := names + [newName];
        i := i + 1;
      }
    }

    /** One replacement throughout the text. */
    method Replace(find: string, replacement: string)
      requires find != ""
      modifies this`text
      ensures |text| == |old(text)| && forall j :: 0 <= j < |text| ==> text[j] == ReplaceAll(old(text)[j], find, replacement)
    {
      var j := 0;
      while j < |text|
        invariant 0 <= j <= |text| == |old(text)|
        invariant forall k :: 0 <= k < j ==> text[k] == ReplaceAll(old(text)[k], find, replacement)
        invariant forall k :: j <= k < |text| ==> text[k] == old(text)[k]
      {
        text := text[j := ReplaceAll(text[j], find, replacement)];
        j := j + 1;
      }
    }
  }

  lemma {:induction false} SpelledName(stage: Stage, attribs: seq<Attrib>, i: nat)
    requires i < |attribs|
    ensures NewNames(stage, attribs)[i] == Spell(Numbered(FamilyOf(stage, attribs[i].input), Earlier(attribs, i, attribs[i].input)))
  {
  }

  // ----- Numbers

  lemma {:induction false} DeclareDirection(stage: Stage, v: Var, input: bool, prefix: string, i: nat)
    requires i < |Declare(stage, v, input, prefix)|
    ensures Declare(stage, v, input, prefix)[i].input == input
    decreases v
  {
    if v.ty.Struct? { DeclareAllDirection(stage, v.ty.fields, input, prefix + v.name + "_", i); }
  }

  lemma {:induction false} DeclareAllDirection(stage: Stage, vs: seq<Var>, input: bool, prefix: string, i: nat)
    requires i < |DeclareAll(stage, vs, input, prefix)|
    ensures DeclareAll(stage, vs, input, prefix)[i].input == input
    decreases vs
  {
    var n := |Declare(stage, vs[0], input, prefix)|;
    if i < n {
      DeclareDirection(stage, vs[0], input, prefix, i);
    } else {
      DeclareAllDirection(stage, vs[1..], input, prefix, i - n);
    }
  }

  lemma {:induction false} EarlierCounts(attribs: seq<Attrib>, inputs: nat, i: nat)
    requires i <= |attribs| && inputs <= |attribs|
    requires forall k :: 0 <= k < |attribs| ==> attribs[k].input == (k < inputs)
    ensures Earlier(attribs, i, true) == if i < inputs then i else inputs
    ensures Earlier(attribs, i, false) == if i < inputs then 0 else i - inputs
    decreases i
  {
    if i > 0 { EarlierCounts(attribs, inputs, i - 1); }
  }

  /** Inputs are numbered from zero in the order of declaration, and so are outputs. */
  lemma {:induction false} NumbersFollowOrder(stage: Stage, f: Func, i: nat)
    requires i < |Attribs(stage, f)|
    ensures var inputs := |DeclareAll(stage, f.params, true, "inputval_")|;
            NewName(stage, Attribs(stage, f), i) ==
            if i < inputs then Numbered(FamilyOf(stage, true), i) else Numbered(FamilyOf(stage, false), i - inputs)
  {
    var ins, outs := DeclareAll(stage, f.params, true, "inputval_"), Declare(stage, ResultVar(f), false, "");
    var all := Attribs(stage, f);
    forall k | 0 <= k < |all| ensures all[k].input == (k < |ins|) {
      if k < |ins| {
        DeclareAllDirection(stage, f.params, true, "inputval_", k);
      } else {
        DeclareDirection(stage, ResultVar(f), false, "", k - |ins|);
      }
    }
    EarlierCounts(all, |ins|, i);
  }

  // ----- Linkage

  predicate MentionsVertexId(t: Type, m: Mapping) {
    match t
    case Struct(fields) => exists i :: 0 <= i < |fields| && MentionsVertexId(fields[i].ty, fields[i].mapping)
    case Plain(_) => m == VertexId
  }

  /** Declarations of one struct as vertex output and as pixel input have the same types at the same places. */
  predicate Paired(outs: seq<Attrib>, ins: seq<Attrib>) {
    |outs| == |ins| && forall k :: 0 <= k < |outs| ==> outs[k].ty == ins[k].ty && outs[k].mapping == ins[k].mapping
  }

  lemma {:induction false} PairedConcat(a: seq<Attrib>, b: seq<Attrib>, c: seq<Attrib>, d: seq<Attrib>)
    requires Paired(a, c) && Paired(b, d)
    ensures Paired(a + b, c + d)
  {
  }

  lemma {:induction false} SameStructPairs(v: Var, w: Var, p: string, q: string)
    requires v.ty == w.ty && v.mapping == w.mapping && !MentionsVertexId(v.ty, v.mapping)
    ensures Paired(Declare(Vertex, v, false, p), Declare(Pixel, w, true, q))
    decreases v.ty
  {
    if v.ty.Struct? { SameFieldsPair(v.ty.fields, p + v.name + "_", q + w.name + "_"); }
  }

  lemma {:induction false} SameFieldsPair(vs: seq<Var>, p: string, q: string)
    requires forall i :: 0 <= i < |vs| ==> !MentionsVertexId(vs[i].ty, vs[i].mapping)
    ensures Paired(DeclareAll(Vertex, vs, false, p), DeclareAll(Pixel, vs, true, q))
    decreases vs
  {
    if vs != [] {
      SameStructPairs(vs[0], vs[0], p, q);
      SameFieldsPair(vs[1..], p, q);
      PairedConcat(Declare(Vertex, vs[0], false, p), DeclareAll(Vertex, vs[1..], false, p),
                   Declare(Pixel, vs[0], true, q), DeclareAll(Pixel, vs[1..], true, q));
    }
  }

  /** A vertex-id member is declared as an output but never as an input, so it breaks the pairing. */
  lemma {:induction false} VertexIdUnpairs(v: Var, w: Var, p: string, q: string)
    requires v.ty == w.ty && v.mapping == w.mapping
    ensures |Declare(Pixel, w, true, q)| <= |Declare(Vertex, v, false, p)|
    ensures MentionsVertexId(v.ty, v.mapping) ==> |Declare(Pixel, w, true, q)| < |Declare(Vertex, v, false, p)|
    decreases v.ty
  {
    if v.ty.Struct? { VertexIdUnpairsAll(v.ty.fields, p + v.name + "_", q + w.name + "_"); }
  }

  lemma {:induction false} VertexIdUnpairsAll(vs: seq<Var>, p: string, q: string)
    ensures |DeclareAll(Pixel, vs, true, q)| <= |DeclareAll(Vertex, vs, false, p)|
    ensures (exists i :: 0 <= i < |vs| && MentionsVertexId(vs[i].ty, vs[i].mapping)) ==>
              |DeclareAll(Pixel, vs, true, q)| < |DeclareAll(Vertex, vs, false, p)|
    decreases vs
  {
    if vs != [] {
      VertexIdUnpairs(vs[0], vs[0], p, q);
      VertexIdUnpairsAll(vs[1..], p, q);
      if i :| 1 <= i < |vs| && MentionsVertexId(vs[i].ty, vs[i].mapping) {
        assert vs[1..][i - 1] == vs[i];
      }
    }
  }

  /** The `i`-th stage variable of a shader is `a`, renamed to `n`. */
  predicate Carries(stage: Stage, f: Func, i: nat, a: Attrib, n: Numbered) {
    i < |Attribs(stage, f)| && Attribs(stage, f)[i] == a && NewName(stage, Attribs(stage, f), i) == n
  }

  /**
   * A struct returned by the vertex shader and taken first by the pixel shader links up, variable
   * by variable, under the same numbered name and type, exactly when it has no vertex-id member.
   */
  lemma {:induction false} StagesLink(vertex: Func, pixel: Func)
    requires vertex.result.Struct? && vertex.mapping.None? && pixel.params != []
    requires pixel.params[0].ty == vertex.result
    ensures var nv := |DeclareAll(Vertex, vertex.params, true, "inputval_")|;
            var outs := Declare(Vertex, ResultVar(vertex), false, "");
            var ins := Declare(Pixel, pixel.params[0], true, "inputval_");
            && (Paired(outs, ins) <==> !MentionsVertexId(vertex.result, Other("")))
            && (forall k :: 0 <= k < |outs| ==> Carries(Vertex, vertex, nv + k, outs[k], Numbered(VertexShaderAttrib, k)))
            && (forall k :: 0 <= k < |ins| ==> Carries(Pixel, pixel, k, ins[k], Numbered(VertexShaderAttrib, k)))
  {
    hide Declare, DeclareAll, Carries, Paired;
    PairedIff(ResultVar(vertex), pixel.params[0]);
    forall k | 0 <= k < |Declare(Vertex, ResultVar(vertex), false, "")|
      ensures var nv := |DeclareAll(Vertex, vertex.params, true, "inputval_")|;
              var outs := Declare(Vertex, ResultVar(vertex), false, "");
              Carries(Vertex, vertex, nv + k, outs[k], Numbered(VertexShaderAttrib, k))
    {
      OutputNumber(vertex, k);
    }
    forall k | 0 <= k < |Declare(Pixel, pixel.params[0], true, "inputval_")|
      ensures var ins := Declare(Pixel, pixel.params[0], true, "inputval_");
              Carries(Pixel, pixel, k, ins[k], Numbered(VertexShaderAttrib, k))
    {
      InputNumber(pixel, k);
    }
  }

  lemma {:induction false} PairedIff(v: Var, w: Var)
    requires v.ty == w.ty && v.ty.Struct?
    ensures Paired(Declare(Vertex, v, false, ""), Declare(Pixel, w, true, "inputval_"))
            <==> !MentionsVertexId(v.ty, v.mapping)
  {
    var w' := w.(mapping := v.mapping);
    assert Declare(Pixel, w', true, "inputval_") == Declare(Pixel, w, true, "inputval_");
    if MentionsVertexId(v.ty, v.mapping) {
      VertexIdUnpairs(v, w', "", "inputval_");
    } else {
      SameStructPairs(v, w', "", "inputval_");
    }
  }

  lemma {:induction false} OutputNumber(f: Func, k: nat)
    requires k < |Declare(Vertex, ResultVar(f), false, "")|
    ensures var nv := |DeclareAll(Vertex, f.params, true, "inputval_")|;
            var outs := Declare(Vertex, ResultVar(f), false, "");
            Carries(Vertex, f, nv + k, outs[k], Numbered(VertexShaderAttrib, k))
  {
    hide Declare, DeclareAll, NewName;
    NumbersFollowOrder(Vertex, f, |DeclareAll(Vertex, f.params, true, "inputval_")| + k);
  }

  lemma {:induction false} InputNumber(f: Func, k: nat)
    requires f.params != [] && k < |Declare(Pixel, f.params[0], true, "inputval_")|
    ensures var ins := Declare(Pixel, f.params[0], true, "inputval_");
            Carries(Pixel, f, k, ins[k], Numbered(VertexShaderAttrib, k))
  {
    hide Declare, NewName;
    NumbersFollowOrder(Pixel, f, k);
  }

  // ----- Where the two flattenings part

  /** What `main` reads: only the first parameter is transferred. */
  function MainReads(stage: Stage, f: Func): seq<string> {
    if f.params == [] then [] else Reads(Transfer(stage, f.params[0], None, "inputval_", true))
  }

  /** Every declared input is read exactly when the parameters after the first declare none. */
  lemma {:induction false} AllInputsRead(stage: Stage, f: Func)
    requires f.params != []
    ensures MainReads(stage, f) == Names(DeclareAll(stage, f.params, true, "inputval_"))
            <==> DeclareAll(stage, f.params[1..], true, "inputval_") == []
  {
    var first, rest := Declare(stage, f.params[0], true, "inputval_"), DeclareAll(stage, f.params[1..], true, "inputval_");
    InputsAgree(stage, f.params[0]);
    assert DeclareAll(stage, f.params, true, "inputval_") == first + rest;
    NamesLength(first);
    NamesLength(first + rest);
    if rest == [] { assert first + rest == first; }
  }

  /** A result without a struct is assigned by name; it is declared unless it is a vertex position. */
  lemma {:induction false} PlainResultDeclared(stage: Stage, t: string, m: Mapping)
    ensures Names(Declare(stage, ResultVar(Func([], Plain(t), Some(m))), false, "")) == ["outputval"]
            <==> !(stage == Vertex && m == Position)
  {
    var d := Declare(stage, ResultVar(Func([], Plain(t), Some(m))), false, "");
    assert "" + "outputval" == "outputval";
    NamesLength(d);
    if !(stage == Vertex && m == Position) { NamesCons(d[0], []); }
  }
}

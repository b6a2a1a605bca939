/**
 * When two stage variables of a shader end under one text: a numbered name with the rest of a name
 * behind it can spell a longer number.
 */
module StageCollisions {
  import opened Wrappers
  import opened StorageStructs
  import opened TextReplace
  import opened StageLinkage
  import opened StageNames

  // ----- A number with a tail

  /** The tail goes on with the digits by which `m` is longer than `n`, and then like the other tail. */
  predicate SpellsOut(n: nat, t: string, m: nat, u: string) {
    var d, e := Decimal(n), Decimal(m);
    |d| < |e| && d <= e && t == e[|d|..] + u
  }

  lemma {:induction false} SameNumberText(n: nat, t: string, m: nat, u: string)
    ensures Decimal(n) + t == Decimal(m) + u <==> (n == m && t == u) || SpellsOut(n, t, m, u) || SpellsOut(m, u, n, t)
  {
    hide Decimal;
    if |Decimal(n)| < |Decimal(m)| {
      LongerNumber(Decimal(n), t, Decimal(m), u);
    } else if |Decimal(m)| < |Decimal(n)| {
      LongerNumber(Decimal(m), u, Decimal(n), t);
    } else {
      SameLength(Decimal(n), t, Decimal(m), u);
      if Decimal(n) == Decimal(m) { DecimalInjective(n, m); }
    }
  }

  lemma {:induction false} LongerNumber(d: string, t: string, e: string, u: string)
    requires |d| < |e|
    ensures d + t == e + u <==> d <= e && t == e[|d|..] + u
  {
    if d + t == e + u {
      assert d == (d + t)[..|d|] == (e + u)[..|d|] == e[..|d|];
      assert t == (d + t)[|d|..] == (e + u)[|d|..] == e[|d|..] + u;
    }
    if d <= e && t == e[|d|..] + u { assert d + (e[|d|..] + u) == (d + e[|d|..]) + u == e + u; }
  }

  lemma {:induction false} SameLength(d: string, t: string, e: string, u: string)
    requires |d| == |e|
    ensures d + t == e + u <==> d == e && t == u
  {
    if d + t == e + u {
      assert d == (d + t)[..|d|] && e == (e + u)[..|e|];
      assert t == (d + t)[|d|..] && u == (e + u)[|e|..];
    }
  }

  /** The three families of numbered names differ in their second character. */
  lemma {:induction false} FamiliesDiffer(f: Family, x: string, g: Family, y: string)
    ensures Prefix(f) + x == Prefix(g) + y <==> f == g && x == y
  {
    assert (Prefix(f) + x)[1] == Prefix(f)[1] && (Prefix(g) + y)[1] == Prefix(g)[1];
    assert Prefix(f)[1] == Prefix(g)[1] ==> f == g;
    if f == g { SameLength(Prefix(f), x, Prefix(g), y); }
  }

  // ----- Two variables of a shader

  /** The variable whose number the `k`-th one ends with, and what stands behind that number. */
  function Owner(stage: Stage, f: Func, k: nat): (i: nat)
    requires k < |Before(stage, f)|
    ensures i <= k && Before(stage, f)[i] <= Before(stage, f)[k]
  {
    FirstPrefix(Before(stage, f), k, 0)
  }

  function Tail(stage: Stage, f: Func, k: nat): (t: string)
    requires k < |Before(stage, f)|
    ensures Before(stage, f)[k] == Before(stage, f)[Owner(stage, f, k)] + t
  {
    Before(stage, f)[k][|Before(stage, f)[Owner(stage, f, k)]|..]
  }

  function NumberOf(stage: Stage, f: Func, i: nat): Numbered
    requires i < |Before(stage, f)|
  {
    NamesLength(Attribs(stage, f));
    NewName(stage, Attribs(stage, f), i)
  }

  lemma {:induction false} FinalSpelled(stage: Stage, f: Func, k: nat)
    requires FreeFunc(f) && k < |Attribs(stage, f)|
    ensures k < |Before(stage, f)|
    ensures var o := NumberOf(stage, f, Owner(stage, f, k));
            Final(stage, f, k) == Prefix(o.family) + (Decimal(o.number) + Tail(stage, f, k))
  {
    hide Attribs, Prefix, Decimal, Final, FreeFunc, NewName, FirstPrefix, Names;
    NamesLength(Attribs(stage, f));
    NameExact(stage, f, k);
    var o := NumberOf(stage, f, Owner(stage, f, k));
    assert After(stage, f)[Owner(stage, f, k)] == Spell(o);
    assert Prefix(o.family) + Decimal(o.number) + Tail(stage, f, k) == Prefix(o.family) + (Decimal(o.number) + Tail(stage, f, k));
  }

  lemma {:induction false} NumbersDiffer(stage: Stage, f: Func, i: nat, j: nat)
    requires i < |Before(stage, f)| && j < |Before(stage, f)|
    ensures NumberOf(stage, f, i) == NumberOf(stage, f, j) ==> i == j
  {
    hide Attribs, NewName;
    NamesLength(Attribs(stage, f));
    NumbersFollowOrder(stage, f, i);
    NumbersFollowOrder(stage, f, j);
  }

  /**
   * Two variables with different flattened names end under the same text exactly when they end with
   * numbers of the same family, and one number followed by its tail spells the other with its own.
   */
  lemma {:induction false} SameTextIff(stage: Stage, f: Func, j: nat, k: nat)
    requires FreeFunc(f) && j < |Attribs(stage, f)| && k < |Attribs(stage, f)|
    ensures |Before(stage, f)| == |Attribs(stage, f)|
    ensures Before(stage, f)[j] != Before(stage, f)[k] ==>
              var o, p := NumberOf(stage, f, Owner(stage, f, j)), NumberOf(stage, f, Owner(stage, f, k));
              var t, u := Tail(stage, f, j), Tail(stage, f, k);
              Final(stage, f, j) == Final(stage, f, k)
              <==> o.family == p.family && (SpellsOut(o.number, t, p.number, u) || SpellsOut(p.number, u, o.number, t))
  {
    hide Attribs, Prefix, Decimal, Final, FreeFunc, NumberOf, Owner, Tail, SpellsOut, Before;
    ShaderRenaming(stage, f);
    FinalSpelled(stage, f, j);
    FinalSpelled(stage, f, k);
    var o, p := NumberOf(stage, f, Owner(stage, f, j)), NumberOf(stage, f, Owner(stage, f, k));
    var t, u := Tail(stage, f, j), Tail(stage, f, k);
    FamiliesDiffer(o.family, Decimal(o.number) + t, p.family, Decimal(p.number) + u);
    SameNumberText(o.number, t, p.number, u);
    NumbersDiffer(stage, f, Owner(stage, f, j), Owner(stage, f, k));
  }

  /** No flattened name goes on with a digit where an earlier one ends. */
  predicate NoDigitTails(stage: Stage, f: Func) {
    forall k :: 0 <= k < |Before(stage, f)| ==> var t := Tail(stage, f, k); t != "" ==> !IsDigit(t[0])
  }

  lemma {:induction false} SpellsWithDigit(n: nat, t: string, m: nat, u: string)
    requires SpellsOut(n, t, m, u)
    ensures t != "" && IsDigit(t[0])
  {
    var d, e := Decimal(n), Decimal(m);
    assert t[0] == e[|d|];
  }

  /** Then different names end as different texts, even where a number is another variable's. */
  lemma {:induction false} DistinctTexts(stage: Stage, f: Func, j: nat, k: nat)
    requires FreeFunc(f) && NoDigitTails(stage, f) && j < |Attribs(stage, f)| && k < |Attribs(stage, f)|
    ensures |Before(stage, f)| == |Attribs(stage, f)|
    ensures Final(stage, f, j) == Final(stage, f, k) <==> Before(stage, f)[j] == Before(stage, f)[k]
  {
    hide Attribs, Final, FreeFunc, NumberOf, Owner, Tail, SpellsOut;
    SameTextIff(stage, f, j, k);
    if Before(stage, f)[j] != Before(stage, f)[k] {
      var o, p := NumberOf(stage, f, Owner(stage, f, j)), NumberOf(stage, f, Owner(stage, f, k));
      var t, u := Tail(stage, f, j), Tail(stage, f, k);
      if SpellsOut(o.number, t, p.number, u) { SpellsWithDigit(o.number, t, p.number, u); }
      if SpellsOut(p.number, u, o.number, t) { SpellsWithDigit(p.number, u, o.number, t); }
    } else {
      SameNameSameText(stage, f, j, k);
    }
  }

  lemma {:induction false} SameNameSameText(stage: Stage, f: Func, j: nat, k: nat)
    requires FreeFunc(f) && j < |Before(stage, f)| == |Attribs(stage, f)| && k < |Before(stage, f)|
    requires Before(stage, f)[j] == Before(stage, f)[k]
    ensures Final(stage, f, j) == Final(stage, f, k)
  {
    hide FreeFunc, Attribs;
  }

  // ----- Twelve members

  const Letters := "abcdefghijk"

  /** Members a, b, .., k and b0. */
  function MemberName(i: nat): (s: string)
    requires i < 12
    ensures 0 < |s| < 8
  {
    if i < 11 then [Letters[i]] else "b0"
  }

  function Members(n: nat): (vs: seq<Var>)
    requires n <= 12
    ensures |vs| == n && forall i :: 0 <= i < n ==> vs[i] == Var(MemberName(i), Plain("float4"), Other("TEXCOORD"))
  {
    seq(n, i requires 0 <= i < n => Var(MemberName(i), Plain("float4"), Other("TEXCOORD")))
  }

  function Twelve(): Func {
    Func([Var("v", Struct(Members(12)), Other(""))], Struct([Var("pos", Plain("float4"), Position)]), None)
  }

  lemma {:induction false} FlatMembers(vs: seq<Var>, prefix: string)
    requires forall i :: 0 <= i < |vs| ==> vs[i].ty.Plain? && vs[i].mapping.Other?
    ensures var ds := DeclareAll(Vertex, vs, true, prefix);
            |ds| == |vs| && forall i :: 0 <= i < |vs| ==> ds[i].name == prefix + vs[i].name && ds[i].input
  {
    if vs != [] {
      FlatMembers(vs[1..], prefix);
      assert DeclareAll(Vertex, vs, true, prefix) == Declare(Vertex, vs[0], true, prefix) + DeclareAll(Vertex, vs[1..], true, prefix);
      assert |Declare(Vertex, vs[0], true, prefix)| == 1;
    }
  }

  lemma {:induction false} TwelveFree()
    ensures FreeFunc(Twelve())
  {
    hide MemberName, Free;
    var f, vs := Twelve(), Members(12);
    ShortFree("v");
    ShortFree("pos");
    forall i | 0 <= i < 12 ensures FreeVar(vs[i]) { ShortFree(vs[i].name); }
    assert f.params[0].ty == Struct(vs) && f.params[0].name == "v";
    assert FreeVar(f.params[0]);
    assert FreeVar(Var("pos", Plain("float4"), Position));
  }

  lemma {:induction false} TwelveInputs()
    ensures Attribs(Vertex, Twelve()) == DeclareAll(Vertex, Members(12), true, "inputval_v_")
    ensures |DeclareAll(Vertex, Twelve().params, true, "inputval_")| == |Attribs(Vertex, Twelve())|
  {
    hide Members;
    var f, vs := Twelve(), Members(12);
    assert "inputval_" + "v" + "_" == "inputval_v_";
    assert f.params[0].ty == Struct(vs) && f.params[0].name == "v" && f.params[1..] == [];
    assert Declare(Vertex, f.params[0], true, "inputval_") == DeclareAll(Vertex, vs, true, "inputval_v_");
    assert DeclareAll(Vertex, f.params[1..], true, "inputval_") == [];
    NoOutputs(f.result.fields[0], ResultVar(f));
  }

  lemma {:induction false} TwelveNames()
    ensures |Attribs(Vertex, Twelve())| == 12 == |Before(Vertex, Twelve())|
    ensures |DeclareAll(Vertex, Twelve().params, true, "inputval_")| == 12
    ensures forall i :: 0 <= i < 12 ==> Before(Vertex, Twelve())[i] == "inputval_v_" + MemberName(i)
  {
    hide MemberName, Attribs, DeclareAll, Names, Twelve;
    TwelveInputs();
    FlatMembers(Members(12), "inputval_v_");
    NamesLength(Attribs(Vertex, Twelve()));
  }

  lemma {:induction false} NoPrefixes()
    ensures forall j :: 0 <= j < 10 ==> !(MemberName(j) <= MemberName(10))
    ensures !(MemberName(0) <= MemberName(11)) && MemberName(11) == MemberName(1) + "0"
  {
    assert Letters[10] == 'k' && Letters[0] == 'a' && Letters[1] == 'b';
    assert forall j :: 0 <= j < 10 ==> Letters[j] != 'k';
    assert forall j :: 0 <= j < 10 ==> MemberName(j)[0] == Letters[j];
    assert "b0"[0] == 'b';
  }

  lemma {:induction false} TwelveNumbers(i: nat)
    requires i < 12
    ensures |After(Vertex, Twelve())| == 12 && After(Vertex, Twelve())[i] == "_input_attrib" + Decimal(i)
  {
    hide Attribs, DeclareAll, Twelve, MemberName, Decimal, NewName;
    TwelveNames();
    NumbersFollowOrder(Vertex, Twelve(), i);
  }

  lemma {:induction false} TwelveFinal(i: nat, k: nat, tail: string)
    requires i <= k < 12 && MemberName(k) == MemberName(i) + tail && forall j :: 0 <= j < i ==> !(MemberName(j) <= MemberName(k))
    ensures FreeFunc(Twelve()) && |Attribs(Vertex, Twelve())| == 12
    ensures Final(Vertex, Twelve(), k) == "_input_attrib" + Decimal(i) + tail
  {
    hide Attribs, FreeFunc, Twelve, Final, MemberName, Before, After, Decimal;
    TwelveFree();
    TwelveNames();
    TwelveNumbers(i);
    UnderPrefix(Before(Vertex, Twelve()), "inputval_v_", i, k, tail);
    FinalIs(Twelve(), k, i, tail);
  }

  lemma {:induction false} UnderPrefix(before: seq<string>, p: string, i: nat, k: nat, tail: string)
    requires i <= k < |before| == 12 && forall j :: 0 <= j < 12 ==> before[j] == p + MemberName(j)
    requires MemberName(k) == MemberName(i) + tail && forall j :: 0 <= j < i ==> !(MemberName(j) <= MemberName(k))
    ensures before[k] == before[i] + tail && forall j :: 0 <= j < i ==> !(before[j] <= before[k])
  {
    hide MemberName;
    forall j | 0 <= j < i ensures !(before[j] <= before[k]) { PrefixUnder(p, MemberName(j), MemberName(k)); }
  }

  /** The second member with "0" behind it, and the eleventh: both are declared as `_input_attrib10`. */
  lemma {:induction false} ElevenMembersCollide()
    ensures var f := Twelve();
            && FreeFunc(f) && |Attribs(Vertex, f)| == 12
            && Final(Vertex, f, 10) == "_input_attrib10" && Final(Vertex, f, 11) == "_input_attrib10"
  {
    hide Attribs, FreeFunc, Twelve, Final, MemberName, Decimal;
    NoPrefixes();
    assert MemberName(10) == MemberName(10) + "";
    TwelveFinal(10, 10, "");
    TwelveFinal(1, 11, "0");
    TenIsOneZero();
  }

  lemma {:induction false} TenIsOneZero()
    ensures "_input_attrib" + Decimal(10) + "" == "_input_attrib10" == "_input_attrib" + Decimal(1) + "0"
  {
    assert Decimal(1) == "1" && Decimal(10) == Decimal(1) + "0";
    assert "_input_attrib" + "1" + "0" == "_input_attrib10" && "_input_attrib" + "10" + "" == "_input_attrib10";
  }

  lemma {:induction false} FinalIs(f: Func, k: nat, i: nat, tail: string)
    requires FreeFunc(f) && i <= k < |Before(Vertex, f)| == |Attribs(Vertex, f)| && Before(Vertex, f)[k] == Before(Vertex, f)[i] + tail
    requires forall j :: 0 <= j < i ==> !(Before(Vertex, f)[j] <= Before(Vertex, f)[k])
    ensures i < |After(Vertex, f)| && Final(Vertex, f, k) == After(Vertex, f)[i] + tail
  {
    hide Attribs, FreeFunc, Renaming, RenameFrom;
    ShaderRenaming(Vertex, f);
    FinalText(Before(Vertex, f), After(Vertex, f), k, i);
  }
}

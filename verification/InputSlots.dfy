/**
 * Direct3D 11 vertex input: the shader's input layout numbers its slots by searching for semantics
 * in a fixed order, the vertex buffer lists its sub-buffers by the shader's feature flags. The two
 * must give every element the buffer of its own semantic.
 */
module InputSlots {
  import opened Wrappers
  import opened TextReplace

  datatype Name = Position | Normal | Color | Tangent | TexCoord | VertexId

  /** A semantic with its index, as in TEXCOORD1. */
  datatype Semantic = Semantic(name: Name, index: nat)

  datatype Element = Element(semantic: Semantic, slot: nat)

  /** A parameter or struct member: one with a mapping, one of a struct type, or anything else. */
  datatype Var = Mapped(mapping: string) | StructVar(fields: seq<Var>) | PlainVar

  // ----- Reading a mapping

  /** Length of the part before the first digit. */
  function NameLength(s: string): (n: nat)
    ensures n <= |s| && (n < |s| ==> IsDigit(s[n])) && forall i :: 0 <= i < n ==> !IsDigit(s[i])
  {
    if s == "" || IsDigit(s[0]) then 0
    else
      var n := NameLength(s[1..]);
      assert forall i :: 1 <= i < n + 1 ==> s[i] == s[1..][i - 1];
      n + 1
  }

  function DigitValue(c: char): nat
    requires IsDigit(c)
  {
    c as int - '0' as int
  }

  /** Value of the digits at the start of a text, continuing from `n`. */
  function Number(s: string, n: nat): nat {
    if s == "" || !IsDigit(s[0]) then n else Number(s[1..], 10 * n + DigitValue(s[0]))
  }

  function NameText(name: Name): string {
    match name
    case Position => "POSITION"
    case Normal => "NORMAL"
    case Color => "COLOR"
    case Tangent => "TANGENT"
    case TexCoord => "TEXCOORD"
    case VertexId => "VERTEXID"
  }

  function NameOf(s: string): (name: Option<Name>)
    ensures name.Some? ==> NameText(name.value) == s
  {
    if s == "POSITION" then Some(Position)
    else if s == "NORMAL" then Some(Normal)
    else if s == "COLOR" then Some(Color)
    else if s == "TANGENT" then Some(Tangent)
    else if s == "TEXCOORD" then Some(TexCoord)
    else if s == "VERTEXID" then Some(VertexId)
    else None
  }

  /** The semantic a mapping names: a known name, then an index that is zero when there are no digits. */
  function Parsed(mapping: string): Option<Semantic> {
    var n := NameLength(mapping);
    var name := NameOf(mapping[..n]);
    if name.None? then None else Some(Semantic(name.value, Number(mapping[n..], 0)))
  }

  lemma {:induction false} NumberConcat(s: string, t: string, n: nat)
    requires forall i :: 0 <= i < |s| ==> IsDigit(s[i])
    ensures Number(s + t, n) == Number(t, Number(s, n))
    decreases |s|
  {
    if s == "" {
      assert s + t == t;
    } else {
      assert (s + t)[1..] == s[1..] + t && (s + t)[0] == s[0];
      NumberConcat(s[1..], t, 10 * n + DigitValue(s[0]));
    }
  }

  lemma {:induction false} DecimalValue(n: nat)
    ensures Number(Decimal(n), 0) == n
  {
    DigitOf(n % 10);
    if n < 10 {
      assert Decimal(n)[1..] == "";
    } else {
      DecimalValue(n / 10);
      NumberConcat(Decimal(n / 10), [Digits[n % 10]], 0);
      assert [Digits[n % 10]][1..] == "";
    }
  }

  lemma {:induction false} DigitOf(d: nat)
    requires d < 10
    ensures IsDigit(Digits[d]) && DigitValue(Digits[d]) == d
  {
  }

  /** Every semantic, written as its name with or without its index, is read back. */
  lemma {:induction false} ParsedBack(s: Semantic)
    ensures Parsed(NameText(s.name) + Decimal(s.index)) == Some(s)
    ensures s.index == 0 ==> Parsed(NameText(s.name)) == Some(s)
  {
    hide NameText, NameOf, Decimal;
    var text, digits := NameText(s.name), Decimal(s.index);
    NameTextFacts(s.name);
    NameLengthIs(text, digits);
    assert (text + digits)[..|text|] == text && (text + digits)[|text|..] == digits;
    DecimalValue(s.index);
    NameLengthIs(text, "");
    assert text + "" == text && text[..|text|] == text && text[|text|..] == "";
  }

  lemma {:induction false} NameTextFacts(name: Name)
    ensures NameOf(NameText(name)) == Some(name)
    ensures forall i :: 0 <= i < |NameText(name)| ==> !IsDigit(NameText(name)[i])
  {
  }

  lemma {:induction false} NameLengthIs(text: string, digits: string)
    requires forall i :: 0 <= i < |text| ==> !IsDigit(text[i])
    requires digits == "" || IsDigit(digits[0])
    ensures NameLength(text + digits) == |text|
  {
    var s := text + digits;
    assert forall i :: 0 <= i < |text| ==> s[i] == text[i];
    assert digits != "" ==> s[|text|] == digits[0];
  }

  /** Reads a mapping; an unknown name is an error. */
  method GetSemanticInfo(mapping: string) returns (r: Option<Semantic>)
    ensures r == Parsed(mapping)
  {
    hide NameOf;
    var i := 0;
    while i < |mapping| && !IsDigit(mapping[i])
      invariant 0 <= i <= |mapping| && i <= NameLength(mapping)
    {
      i := i + 1;
    }
    var name := NameOf(mapping[..i]);
    if name.None? {
      return None;
    }
    var index := ParseIndex(mapping[i..]);
    return Some(Semantic(name.value, index));
  }

  method ParseIndex(digits: string) returns (index: nat)
    ensures index == Number(digits, 0)
  {
    index := 0;
    var i := 0;
    while i < |digits| && IsDigit(digits[i])
      invariant 0 <= i <= |digits| && Number(digits[i..], index) == Number(digits, 0)
    {
      index := 10 * index + DigitValue(digits[i]);
      i := i + 1;
    }
  }

  // ----- Collecting the elements

  function Collected(vars: seq<Var>): seq<Semantic> {
    if vars == [] then [] else CollectedVar(vars[0]) + Collected(vars[1..])
  }

  function CollectedVar(v: Var): seq<Semantic> {
    match v
    case Mapped(mapping) =>
      if mapping == "VERTEXID" || Parsed(mapping).None? then [] else [Parsed(mapping).value]
    case StructVar(fields) => Collected(fields)
    case PlainVar => []
  }

  predicate AllKnown(vars: seq<Var>) { forall i :: 0 <= i < |vars| ==> KnownVar(vars[i]) }

  predicate KnownVar(v: Var) {
    match v
    case Mapped(mapping) => mapping == "VERTEXID" || Parsed(mapping).Some?
    case StructVar(fields) => AllKnown(fields)
    case PlainVar => true
  }

  function Semantics(layout: seq<Element>): (s: seq<Semantic>)
    ensures |s| == |layout| && forall i :: 0 <= i < |s| ==> s[i] == layout[i].semantic
  {
    seq(|layout|, i requires 0 <= i < |layout| => layout[i].semantic)
  }

  // ----- Numbering the slots

  /** Where a semantic first stands, or the length. */
  function First(layout: seq<Element>, s: Semantic): (k: nat)
    ensures k <= |layout|
    ensures k < |layout| ==> layout[k].semantic == s
    ensures forall i :: 0 <= i < k ==> layout[i].semantic != s
  {
    if layout == [] || layout[0].semantic == s then 0
    else
      var k := First(layout[1..], s);
      assert forall i :: 1 <= i <= k ==> layout[i] == layout[1..][i - 1];
      k + 1
  }

  predicate Present(layout: seq<Element>, s: Semantic) { exists i :: 0 <= i < |layout| && layout[i].semantic == s }

  /** The first element of the semantic, if any, takes the slot. */
  function Place(layout: seq<Element>, s: Semantic, slot: nat): (r: seq<Element>)
    ensures Semantics(r) == Semantics(layout)
  {
    var k := First(layout, s);
    if k < |layout| then layout[k := layout[k].(slot := slot)] else layout
  }

  function After(layout: seq<Element>, s: Semantic, slot: nat): nat { if First(layout, s) < |layout| then slot + 1 else slot }

  function Remaining(layout: seq<Element>, index: nat): set<nat> {
    set i | 0 <= i < |layout| && layout[i].semantic.name == TexCoord && layout[i].semantic.index >= index
  }

  lemma {:induction false} RemainingShrinks(layout: seq<Element>, layout': seq<Element>, index: nat)
    requires Semantics(layout) == Semantics(layout') && First(layout, Semantic(TexCoord, index)) < |layout|
    ensures |Remaining(layout', index + 1)| < |Remaining(layout, index)|
  {
    var k := First(layout, Semantic(TexCoord, index));
    assert k in Remaining(layout, index) && k !in Remaining(layout', index + 1) by {
      assert Semantics(layout')[k] == Semantics(layout)[k];
    }
    forall i | i in Remaining(layout', index + 1) ensures i in Remaining(layout, index) {
      assert Semantics(layout')[i] == Semantics(layout)[i];
    }
    Smaller(Remaining(layout', index + 1), Remaining(layout, index), k);
  }

  lemma {:induction false} Smaller(a: set<nat>, b: set<nat>, x: nat)
    requires a <= b && x in b && x !in a
    ensures |a| < |b|
  {
    assert a <= b - {x};
    SubsetSize(a, b - {x});
  }

  lemma {:induction false} SubsetSize(a: set<nat>, b: set<nat>)
    requires a <= b
    ensures |a| <= |b|
  {
    if x :| x in a { SubsetSize(a - {x}, b - {x}); }
  }

  /** Texture coordinates take slots until the first index that is missing. */
  function PlaceTexCoords(layout: seq<Element>, index: nat, slot: nat): (r: seq<Element>)
    ensures Semantics(r) == Semantics(layout)
    decreases |Remaining(layout, index)|
  {
    var s := Semantic(TexCoord, index);
    if First(layout, s) == |layout| then layout
    else
      RemainingShrinks(layout, Place(layout, s, slot), index);
      PlaceTexCoords(Place(layout, s, slot), index + 1, slot + 1)
  }

  function Numbered(layout: seq<Element>): (r: seq<Element>)
    ensures Semantics(r) == Semantics(layout)
  {
    var l1, s1 := Place(layout, Semantic(Position, 0), 0), After(layout, Semantic(Position, 0), 0);
    var l2, s2 := Place(l1, Semantic(Normal, 0), s1), After(l1, Semantic(Normal, 0), s1);
    var l3, s3 := Place(l2, Semantic(Color, 0), s2), After(l2, Semantic(Color, 0), s2);
    var l4, s4 := Place(l3, Semantic(Tangent, 0), s3), After(l3, Semantic(Tangent, 0), s3);
    PlaceTexCoords(l4, 0, s4)
  }

  method SetSlot(layout: seq<Element>, s: Semantic, slotIdx: nat) returns (layout': seq<Element>, slotIdx': nat, found: bool)
    ensures layout' == Place(layout, s, slotIdx) && slotIdx' == After(layout, s, slotIdx)
    ensures found == (First(layout, s) < |layout|)
  {
    layout', slotIdx' := layout, slotIdx;
    var i := 0;
    while i < |layout|
      invariant 0 <= i <= |layout| && layout' == layout && slotIdx' == slotIdx
      invariant forall k :: 0 <= k < i ==> layout[k].semantic != s
    {
      if layout[i].semantic == s {
        assert First(layout, s) == i;
        layout' := layout[i := layout[i].(slot := slotIdx)];
        slotIdx' := slotIdx + 1;
        return layout', slotIdx', true;
      }
      i := i + 1;
    }
    return layout', slotIdx', false;
  }

  method AssignSlots(layout: seq<Element>) returns (r: seq<Element>)
    ensures r == Numbered(layout)
  {
    hide Place, After;
    r := layout;
    var slot, found := 0, false;
    r, slot, found := SetSlot(r, Semantic(Position, 0), slot);
    r, slot, found := SetSlot(r, Semantic(Normal, 0), slot);
    r, slot, found := SetSlot(r, Semantic(Color, 0), slot);
    r, slot, found := SetSlot(r, Semantic(Tangent, 0), slot);
    r := AssignTexCoords(r, slot);
  }

  /** The search ends: every index found leaves fewer elements with a larger one. */
  method AssignTexCoords(layout: seq<Element>, first: nat) returns (r: seq<Element>)
    ensures r == PlaceTexCoords(layout, 0, first)
  {
    var slot, found, index := first, true, 0;
    r := layout;
    while found
      invariant found ==> PlaceTexCoords(layout, 0, first) == PlaceTexCoords(r, index, slot)
      invariant !found ==> r == PlaceTexCoords(layout, 0, first)
      decreases found, |Remaining(r, index)|
    {
      ghost var was, n := r, index;
      r, slot, found := SetSlot(r, Semantic(TexCoord, index), slot);
      index := index + 1;
      if found {
        RemainingShrinks(was, r, n);
      }
    }
  }

  /** Walks parameters and nested structs; every level renumbers what has been collected so far. */
  method BuildInputLayout(vars: seq<Var>, layout: seq<Element>) returns (r: seq<Element>, ok: bool)
    ensures ok == AllKnown(vars)
    ensures ok ==> exists l :: Semantics(l) == Semantics(layout) + Collected(vars) && r == Numbered(l)
    decreases vars
  {
    hide Numbered, Parsed;
    r := layout;
    var i := 0;
    assert vars[..0] == [];
    while i < |vars|
      invariant 0 <= i <= |vars|
      invariant Semantics(r) == Semantics(layout) + Collected(vars[..i])
      invariant AllKnown(vars[..i])
    {
      ghost var before := r;
      CollectedSnoc(vars, i);
      KnownSnoc(vars, i);
      match vars[i] {
        case Mapped(mapping) =>
          if mapping != "VERTEXID" {
            var semantic := GetSemanticInfo(mapping);
            if semantic.None? {
              return r, false;
            }
            r := r + [Element(semantic.value, 0)];
          }
        case StructVar(fields) =>
          var ok';
          r, ok' := BuildInputLayout(fields, r);
          if !ok' {
            return r, false;
          }
        case PlainVar =>
      }
      assert Semantics(r) == Semantics(before) + CollectedVar(vars[i]);
      i := i + 1;
    }
    assert vars[..|vars|] == vars;
    ghost var l := r;
    r := AssignSlots(r);
    ok := true;
  }

  lemma {:induction false} CollectedConcat(a: seq<Var>, b: seq<Var>)
    ensures Collected(a + b) == Collected(a) + Collected(b)
    decreases |a|
  {
    if a == [] {
      assert a + b == b;
    } else {
      assert (a + b)[1..] == a[1..] + b;
      CollectedConcat(a[1..], b);
    }
  }

  /** Some mapping in the variable, at whatever depth, reads as the semantic; vertex ids come from the driver. */
  predicate Maps(v: Var, s: Semantic) {
    match v
    case Mapped(mapping) => mapping != "VERTEXID" && Parsed(mapping) == Some(s)
    case StructVar(fields) => exists i :: 0 <= i < |fields| && Maps(fields[i], s)
    case PlainVar => false
  }

  /** No mapped variable is left out and none invented, however deep the structs are nested. */
  lemma {:induction false} CollectedIff(vars: seq<Var>, s: Semantic)
    ensures s in Collected(vars) <==> exists i :: 0 <= i < |vars| && Maps(vars[i], s)
    decreases vars, 0
  {
    hide Parsed;
    if vars != [] {
      CollectedVarIff(vars[0], s);
      CollectedIff(vars[1..], s);
      if i :| 0 <= i < |vars[1..]| && Maps(vars[1..][i], s) { assert Maps(vars[i + 1], s); }
      assert forall i :: 1 <= i < |vars| ==> vars[i] == vars[1..][i - 1];
    }
  }

  lemma {:induction false} CollectedVarIff(v: Var, s: Semantic)
    ensures s in CollectedVar(v) <==> Maps(v, s)
    decreases v, 1
  {
    hide Parsed;
    if v.StructVar? { CollectedIff(v.fields, s); }
  }

  lemma {:induction false} CollectedSnoc(vars: seq<Var>, i: nat)
    requires i < |vars|
    ensures Collected(vars[..i + 1]) == Collected(vars[..i]) + CollectedVar(vars[i])
  {
    assert vars[..i + 1] == vars[..i] + [vars[i]];
    CollectedConcat(vars[..i], [vars[i]]);
    assert [vars[i]][1..] == [];
    assert Collected([vars[i]]) == CollectedVar(vars[i]) + Collected([]);
  }

  lemma {:induction false} KnownSnoc(vars: seq<Var>, i: nat)
    requires i < |vars|
    ensures AllKnown(vars[..i + 1]) <==>
            AllKnown(vars[..i]) && KnownVar(vars[i])
    ensures AllKnown(vars) ==> AllKnown(vars[..i + 1])
  {
    assert forall k :: 0 <= k <= i ==> vars[..i + 1][k] == vars[k];
    assert forall k :: 0 <= k < i ==> vars[..i][k] == vars[k];
  }

  // ----- What the numbering comes to

  predicate Distinct(sems: seq<Semantic>) { forall i, j :: 0 <= i < j < |sems| ==> sems[i] != sems[j] }

  /** What a shader that can be fed declares: positions, and texture coordinates without a gap. */
  predicate WellFormed(sems: seq<Semantic>) {
    && Distinct(sems)
    && Semantic(Position, 0) in sems
    && (forall i :: 0 <= i < |sems| && sems[i].name != TexCoord ==> sems[i].index == 0 && sems[i].name != VertexId)
    && (forall i :: 0 <= i < |sems| && sems[i].name == TexCoord && sems[i].index > 0 ==>
          Semantic(TexCoord, sems[i].index - 1) in sems)
  }

  function Has(sems: seq<Semantic>, name: Name): nat { if Semantic(name, 0) in sems then 1 else 0 }

  /** Slot of a semantic: points, normals, colours, tangents, then texture coordinates by index. */
  function SlotOf(sems: seq<Semantic>, s: Semantic): nat {
    match s.name
    case Position => 0
    case Normal => 1
    case Color => 1 + Has(sems, Normal)
    case Tangent => 1 + Has(sems, Normal) + Has(sems, Color)
    case _ => 1 + Has(sems, Normal) + Has(sems, Color) + Has(sems, Tangent) + s.index
  }

  lemma {:induction false} PlaceAt(layout: seq<Element>, s: Semantic, slot: nat, i: nat)
    requires Distinct(Semantics(layout)) && i < |layout|
    ensures Place(layout, s, slot)[i] ==
            if layout[i].semantic == s then Element(s, slot) else layout[i]
    ensures After(layout, s, slot) == slot + if s in Semantics(layout) then 1 else 0
  {
    var k := First(layout, s);
    assert forall j :: 0 <= j < |layout| ==> Semantics(layout)[j] == layout[j].semantic;
    if k < |layout| {
      assert Semantics(layout)[k] == s;
    } else {
      assert s !in Semantics(layout);
    }
  }

  /** Every texture coordinate below the first gap takes the slot that far from the start. */
  lemma {:induction false} TexCoordAt(layout: seq<Element>, index: nat, slot: nat, i: nat)
    requires Distinct(Semantics(layout)) && i < |layout|
    requires layout[i].semantic.name == TexCoord && layout[i].semantic.index >= index ==>
               forall k :: index <= k <= layout[i].semantic.index ==> Semantic(TexCoord, k) in Semantics(layout)
    ensures PlaceTexCoords(layout, index, slot)[i].slot ==
            if layout[i].semantic.name == TexCoord && layout[i].semantic.index >= index
            then slot + layout[i].semantic.index - index else layout[i].slot
    decreases |Remaining(layout, index)|
  {
    var s := Semantic(TexCoord, index);
    if First(layout, s) < |layout| {
      var next := Place(layout, s, slot);
      RemainingShrinks(layout, next, index);
      PlaceAt(layout, s, slot, i);
      TexCoordAt(next, index + 1, slot + 1, i);
    } else {
      assert s !in Semantics(layout);
    }
  }

  lemma {:induction false} GapStep(sems: seq<Semantic>, n: nat)
    requires WellFormed(sems) && n > 0 && Semantic(TexCoord, n) in sems
    ensures Semantic(TexCoord, n - 1) in sems
  {
    var i :| 0 <= i < |sems| && sems[i] == Semantic(TexCoord, n);
    assert sems[i].index > 0;
  }

  lemma {:induction false} NoGap(sems: seq<Semantic>, n: nat, k: nat)
    requires WellFormed(sems) && Semantic(TexCoord, n) in sems && k <= n
    ensures Semantic(TexCoord, k) in sems
    decreases n - k
  {
    hide WellFormed;
    if k < n {
      GapStep(sems, n);
      NoGap(sems, n - 1, k);
    }
  }

  /** The numbering gives every element the slot of its semantic, whatever slots it had before. */
  lemma {:induction false} NumberedAt(layout: seq<Element>, i: nat)
    requires WellFormed(Semantics(layout)) && i < |layout|
    ensures Numbered(layout)[i].slot == SlotOf(Semantics(layout), layout[i].semantic)
  {
    hide Place, After, PlaceTexCoords, First, WellFormed;
    var sems := Semantics(layout);
    var l1, s1 := Place(layout, Semantic(Position, 0), 0), After(layout, Semantic(Position, 0), 0);
    var l2, s2 := Place(l1, Semantic(Normal, 0), s1), After(l1, Semantic(Normal, 0), s1);
    var l3, s3 := Place(l2, Semantic(Color, 0), s2), After(l2, Semantic(Color, 0), s2);
    var l4, s4 := Place(l3, Semantic(Tangent, 0), s3), After(l3, Semantic(Tangent, 0), s3);
    FormFacts(sems, i);
    PlaceAt(layout, Semantic(Position, 0), 0, i);
    PlaceAt(l1, Semantic(Normal, 0), s1, i);
    PlaceAt(l2, Semantic(Color, 0), s2, i);
    PlaceAt(l3, Semantic(Tangent, 0), s3, i);
    assert Semantics(l4)[i] == sems[i];
    TexCoordAt(l4, 0, s4, i);
  }

  lemma {:induction false} FormFacts(sems: seq<Semantic>, i: nat)
    requires WellFormed(sems) && i < |sems|
    ensures Distinct(sems) && Semantic(Position, 0) in sems
    ensures sems[i].name != TexCoord ==> sems[i].index == 0 && sems[i].name != VertexId
    ensures sems[i].name == TexCoord ==> forall k :: 0 <= k <= sems[i].index ==> Semantic(TexCoord, k) in sems
  {
    if sems[i].name == TexCoord {
      forall k | 0 <= k <= sems[i].index ensures Semantic(TexCoord, k) in sems { NoGap(sems, sems[i].index, k); }
    }
  }

  // ----- The vertex buffer's list

  datatype Buffer = Buffer(id: nat, stride: nat)

  /** Sub-buffers of a vertex buffer; only points are always there. */
  datatype VertexBuffer = VertexBuffer(
    points: nat, normals: Option<nat>, colors: Option<nat>, tangents: Option<nat>, uvs: seq<Buffer>)

  /** What the vertex shader remembers of its inputs. */
  datatype Inputs = Inputs(normals: bool, colors: bool, tangents: bool, texUnits: nat)

  function TexUnits(sems: seq<Semantic>): nat {
    if sems == [] then 0
    else TexUnits(sems[..|sems| - 1]) + if sems[|sems| - 1].name == TexCoord then 1 else 0
  }

  predicate HasName(sems: seq<Semantic>, name: Name) { exists i :: 0 <= i < |sems| && sems[i].name == name }

  function Expected(sems: seq<Semantic>): Inputs {
    Inputs(HasName(sems, Normal), HasName(sems, Color), HasName(sems, Tangent), TexUnits(sems))
  }

  function NumBuffersExpected(f: Inputs): nat {
    f.texUnits + 1 + (if f.normals then 1 else 0) + (if f.colors then 1 else 0) + (if f.tangents then 1 else 0)
  }

  method GetBuffersExpected(layout: seq<Element>) returns (f: Inputs)
    ensures f == Expected(Semantics(layout))
  {
    ghost var sems := Semantics(layout);
    f := Inputs(false, false, false, 0);
    var i := 0;
    while i < |layout|
      invariant 0 <= i <= |layout|
      invariant f == Expected(sems[..i])
    {
      ExpectedSnoc(sems, i);
      match layout[i].semantic.name {
        case Normal => f := f.(normals := true);
        case Tangent => f := f.(tangents := true);
        case Color => f := f.(colors := true);
        case TexCoord => f := f.(texUnits := f.texUnits + 1);
        case _ =>
      }
      i := i + 1;
    }
    assert sems[..i] == sems;
  }

  lemma {:induction false} ExpectedSnoc(sems: seq<Semantic>, i: nat)
    requires i < |sems|
    ensures forall name :: HasName(sems[..i + 1], name) <==> HasName(sems[..i], name) || sems[i].name == name
    ensures TexUnits(sems[..i + 1]) == TexUnits(sems[..i]) + if sems[i].name == TexCoord then 1 else 0
  {
    assert sems[..i + 1][..i] == sems[..i];
    forall name ensures HasName(sems[..i + 1], name) <==> HasName(sems[..i], name) || sems[i].name == name {
      assert forall k :: 0 <= k < i ==> sems[..i + 1][k] == sems[..i][k];
      assert sems[..i + 1][i] == sems[i];
    }
  }

  function Pushed(list: seq<Buffer>, buffer: Option<nat>, size: nat): seq<Buffer> {
    if buffer.Some? then list + [Buffer(buffer.value, size)] else list
  }

  /** Points and the rest are vectors of sixteen bytes, colours four; a missing sub-buffer is skipped. */
  function BufferList(f: Inputs, vb: VertexBuffer): seq<Buffer> {
    var l1 := Pushed([], Some(vb.points), 16);
    var l2 := if f.normals then Pushed(l1, vb.normals, 16) else l1;
    var l3 := if f.colors then Pushed(l2, vb.colors, 4) else l2;
    var l4 := if f.tangents then Pushed(l3, vb.tangents, 16) else l3;
    if f.texUnits <= |vb.uvs| then l4 + vb.uvs[..f.texUnits] else l4
  }

  method PushBuffer(numBuffers: nat, buffers: array<nat>, strides: array<nat>, buffer: Option<nat>, size: nat,
                    ghost list: seq<Buffer>) returns (n: nat)
    requires buffers != strides && Filled(buffers, strides, numBuffers, list)
    requires numBuffers < buffers.Length && numBuffers < strides.Length
    modifies buffers, strides
    ensures n == |Pushed(list, buffer, size)| && Filled(buffers, strides, n, Pushed(list, buffer, size))
  {
    n := numBuffers;
    if buffer.Some? {
      buffers[n] := buffer.value;
      strides[n] := size;
      n := n + 1;
    }
  }

  /** The first `n` entries of the two arrays hold the list. */
  ghost predicate Filled(buffers: array<nat>, strides: array<nat>, n: nat, list: seq<Buffer>)
    reads buffers, strides
  {
    && n == |list| <= buffers.Length && n <= strides.Length
    && forall i :: 0 <= i < n ==> buffers[i] == list[i].id && strides[i] == list[i].stride
  }

  method MakeBufferList(f: Inputs, vb: VertexBuffer, buffers: array<nat>, strides: array<nat>) returns (n: nat)
    requires buffers != strides && NumBuffersExpected(f) <= buffers.Length && NumBuffersExpected(f) <= strides.Length
    modifies buffers, strides
    ensures Filled(buffers, strides, n, BufferList(f, vb))
  {
    ghost var list: seq<Buffer> := [];
    n := PushBuffer(0, buffers, strides, Some(vb.points), 16, list);
    list := Pushed(list, Some(vb.points), 16);
    if f.normals {
      n := PushBuffer(n, buffers, strides, vb.normals, 16, list);
      list := Pushed(list, vb.normals, 16);
    }
    if f.colors {
      n := PushBuffer(n, buffers, strides, vb.colors, 4, list);
      list := Pushed(list, vb.colors, 4);
    }
    if f.tangents {
      n := PushBuffer(n, buffers, strides, vb.tangents, 16, list);
      list := Pushed(list, vb.tangents, 16);
    }
    if f.texUnits <= |vb.uvs| {
      n := PushTexCoords(n, f.texUnits, vb, buffers, strides, list);
    }
  }

  method PushTexCoords(numBuffers: nat, units: nat, vb: VertexBuffer, buffers: array<nat>, strides: array<nat>,
                       ghost list: seq<Buffer>) returns (n: nat)
    requires buffers != strides && Filled(buffers, strides, numBuffers, list) && units <= |vb.uvs|
    requires numBuffers + units <= buffers.Length && numBuffers + units <= strides.Length
    modifies buffers, strides
    ensures Filled(buffers, strides, n, list + vb.uvs[..units])
  {
    n := numBuffers;
    var i := 0;
    while i < units
      invariant 0 <= i <= units && n == numBuffers + i
      invariant Filled(buffers, strides, n, list + vb.uvs[..i])
    {
      buffers[n] := vb.uvs[i].id;
      strides[n] := vb.uvs[i].stride;
      n := n + 1;
      i := i + 1;
    }
  }

  // ----- Agreement

  /** The vertex buffer has everything the shader asks for. */
  predicate Supplies(vb: VertexBuffer, f: Inputs) {
    && (f.normals ==> vb.normals.Some?) && (f.colors ==> vb.colors.Some?) && (f.tangents ==> vb.tangents.Some?)
    && f.texUnits <= |vb.uvs|
  }

  predicate IsSource(vb: VertexBuffer, s: Semantic, b: Buffer) {
    match s.name
    case Position => b == Buffer(vb.points, 16)
    case Normal => vb.normals.Some? && b == Buffer(vb.normals.value, 16)
    case Color => vb.colors.Some? && b == Buffer(vb.colors.value, 4)
    case Tangent => vb.tangents.Some? && b == Buffer(vb.tangents.value, 16)
    case TexCoord => s.index < |vb.uvs| && b == vb.uvs[s.index]
    case VertexId => false
  }

  function Indices(sems: seq<Semantic>): set<nat> {
    set i | 0 <= i < |sems| && sems[i].name == TexCoord :: sems[i].index
  }

  lemma {:induction false} TexUnitsCounts(sems: seq<Semantic>)
    requires Distinct(sems)
    ensures TexUnits(sems) == |Indices(sems)|
  {
    if sems == [] {
      assert Indices(sems) == {};
    } else {
      var n := |sems| - 1;
      var front, s := sems[..n], sems[n];
      TexUnitsCounts(front);
      if s.name == TexCoord {
        assert forall i :: 0 <= i < n ==> front[i] == sems[i] && sems[i] != sems[n];
        assert Indices(sems) == Indices(front) + {s.index} by { IndicesSnoc(sems); }
      } else {
        assert Indices(sems) == Indices(front) by { IndicesSnoc(sems); }
      }
    }
  }

  lemma {:induction false} IndicesSnoc(sems: seq<Semantic>)
    requires sems != []
    ensures var n := |sems| - 1;
            Indices(sems) == Indices(sems[..n]) + if sems[n].name == TexCoord then {sems[n].index} else {}
  {
    var n := |sems| - 1;
    forall x | x in Indices(sems)
      ensures x in Indices(sems[..n]) + if sems[n].name == TexCoord then {sems[n].index} else {}
    {
      var i :| 0 <= i < |sems| && sems[i].name == TexCoord && sems[i].index == x;
      if i < n { assert sems[..n][i] == sems[i]; }
    }
    forall x | x in Indices(sems[..n]) ensures x in Indices(sems) {
      var i :| 0 <= i < n && sems[..n][i].name == TexCoord && sems[..n][i].index == x;
      assert sems[i] == sems[..n][i];
    }
  }

  function UpTo(n: nat): (s: set<nat>)
    ensures |s| == n && forall x: nat :: x in s <==> x < n
  {
    if n == 0 then {} else UpTo(n - 1) + {n - 1}
  }

  /** A finite set of numbers without gaps below is an initial segment. */
  lemma {:induction false} Segment(s: set<nat>, n: nat)
    requires forall x, y :: x in s && 0 <= y <= x ==> y in s
    requires n <= |s|
    ensures UpTo(n) <= s
  {
    if n > 0 {
      Segment(s, n - 1);
      if s <= UpTo(n - 1) {
        SubsetSize(s, UpTo(n - 1));
      }
      var x :| x in s && x !in UpTo(n - 1);
      assert n - 1 in s;
    }
  }

  lemma {:induction false} IndicesAreSegment(sems: seq<Semantic>, k: nat)
    requires WellFormed(sems)
    ensures Semantic(TexCoord, k) in sems <==> k < TexUnits(sems)
  {
    var s := Indices(sems);
    TexUnitsCounts(sems);
    forall x, y | x in s && 0 <= y <= x ensures y in s {
      var i :| 0 <= i < |sems| && sems[i].name == TexCoord && sems[i].index == x;
      assert sems[i] == Semantic(TexCoord, x);
      NoGap(sems, x, y);
      var j :| 0 <= j < |sems| && sems[j] == Semantic(TexCoord, y);
    }
    Segment(s, |s|);
    EqualSize(UpTo(|s|), s);
    if k < |s| {
      assert k in s;
      var i :| 0 <= i < |sems| && sems[i].name == TexCoord && sems[i].index == k;
      assert sems[i] == Semantic(TexCoord, k);
    }
    if Semantic(TexCoord, k) in sems {
      var i :| 0 <= i < |sems| && sems[i] == Semantic(TexCoord, k);
      assert k in s;
    }
  }

  lemma {:induction false} EqualSize(a: set<nat>, b: set<nat>)
    requires a <= b && |a| == |b|
    ensures a == b
  {
    if x :| x in b && x !in a { Smaller(a, b, x); }
  }

  lemma {:induction false} NameIsIndexZero(sems: seq<Semantic>, name: Name)
    requires WellFormed(sems) && name != TexCoord && name != VertexId
    ensures HasName(sems, name) <==> Semantic(name, 0) in sems
  {
    if HasName(sems, name) {
      var i :| 0 <= i < |sems| && sems[i].name == name;
      assert sems[i] == Semantic(name, 0);
    }
  }

  /** Semantics of a well-formed layout get distinct slots below the number of buffers. */
  lemma {:induction false} SlotsInRange(sems: seq<Semantic>, i: nat)
    requires WellFormed(sems) && i < |sems|
    ensures SlotOf(sems, sems[i]) < NumBuffersExpected(Expected(sems))
  {
    FormFacts(sems, i);
    NameIsIndexZero(sems, Normal);
    NameIsIndexZero(sems, Color);
    NameIsIndexZero(sems, Tangent);
    if sems[i].name == TexCoord { IndicesAreSegment(sems, sems[i].index); }
  }

  /** ... and every one of those slots is somebody's. */
  lemma {:induction false} SlotsOnto(sems: seq<Semantic>, slot: nat) returns (i: nat)
    requires WellFormed(sems) && slot < NumBuffersExpected(Expected(sems))
    ensures i < |sems| && SlotOf(sems, sems[i]) == slot
  {
    NameIsIndexZero(sems, Normal);
    NameIsIndexZero(sems, Color);
    NameIsIndexZero(sems, Tangent);
    var n, c, t := Has(sems, Normal), Has(sems, Color), Has(sems, Tangent);
    var s: Semantic;
    if slot == 0 {
      s := Semantic(Position, 0);
    } else if slot < 1 + n {
      s := Semantic(Normal, 0);
    } else if slot < 1 + n + c {
      s := Semantic(Color, 0);
    } else if slot < 1 + n + c + t {
      s := Semantic(Tangent, 0);
    } else {
      s := Semantic(TexCoord, slot - 1 - n - c - t);
      IndicesAreSegment(sems, s.index);
    }
    assert s in sems;
    i :| 0 <= i < |sems| && sems[i] == s;
  }

  lemma {:induction false} SlotsInjective(sems: seq<Semantic>, i: nat, j: nat)
    requires WellFormed(sems) && i < |sems| && j < |sems| && SlotOf(sems, sems[i]) == SlotOf(sems, sems[j])
    ensures i == j
  {
    FormFacts(sems, i);
    FormFacts(sems, j);
    assert sems[i] in sems && sems[j] in sems;
    assert sems[i] == sems[j];
  }

  /**
   * For every layout without duplicate or missing semantics and every vertex buffer that supplies
   * them, the buffer standing at an element's slot is the one of its semantic, and there are as
   * many buffers as slots.
   */
  lemma {:induction false} SlotsAgree(layout: seq<Element>, vb: VertexBuffer, i: nat)
    requires WellFormed(Semantics(layout)) && Supplies(vb, Expected(Semantics(layout))) && i < |layout|
    ensures var list := BufferList(Expected(Semantics(layout)), vb);
            && |list| == NumBuffersExpected(Expected(Semantics(layout)))
            && Numbered(layout)[i].slot < |list|
            && IsSource(vb, layout[i].semantic, list[Numbered(layout)[i].slot])
  {
    hide Numbered, WellFormed;
    var sems := Semantics(layout);
    NumberedAt(layout, i);
    SlotsInRange(sems, i);
    FormFacts(sems, i);
    ListAt(sems, vb, i);
  }

  /**
   * From nested parameters to bound buffers: the layout built from them lists their semantics in
   * order, and in the buffer list made for it each element's slot holds its semantic's own buffer.
   */
  method BuildAndList(vars: seq<Var>, vb: VertexBuffer, buffers: array<nat>, strides: array<nat>)
      returns (layout: seq<Element>, n: nat, ok: bool)
    requires buffers != strides && |Collected(vars)| + 4 <= buffers.Length && |Collected(vars)| + 4 <= strides.Length
    modifies buffers, strides
    ensures ok == AllKnown(vars)
    ensures ok ==> Semantics(layout) == Collected(vars)
    ensures ok ==> Filled(buffers, strides, n, BufferList(Expected(Collected(vars)), vb))
    ensures ok && WellFormed(Collected(vars)) && Supplies(vb, Expected(Collected(vars))) ==>
              n == |layout| && Served(layout, BufferList(Expected(Collected(vars)), vb), vb)
  {
    hide WellFormed, Numbered, BufferList, Expected, IsSource, Collected, AllKnown, Filled, Served;
    layout, ok := BuildInputLayout(vars, []);
    n := 0;
    if !ok {
      return;
    }
    ghost var l :| Semantics(l) == Semantics([]) + Collected(vars) && layout == Numbered(l);
    assert Semantics(l) == Collected(vars);
    var f := GetBuffersExpected(layout);
    EnoughRoom(Collected(vars));
    n := MakeBufferList(f, vb, buffers, strides);
    FilledLength(buffers, strides, n, BufferList(f, vb));
    if WellFormed(Collected(vars)) && Supplies(vb, f) {
      CountsMatch(l, vb);
      AllServed(l, vb);
    }
  }

  /** Each element's slot holds the buffer of its semantic. */
  predicate Served(layout: seq<Element>, list: seq<Buffer>, vb: VertexBuffer) {
    forall i :: 0 <= i < |layout| ==> layout[i].slot < |list| && IsSource(vb, layout[i].semantic, list[layout[i].slot])
  }

  lemma {:induction false} AllServed(layout: seq<Element>, vb: VertexBuffer)
    requires WellFormed(Semantics(layout)) && Supplies(vb, Expected(Semantics(layout)))
    ensures Served(Numbered(layout), BufferList(Expected(Semantics(layout)), vb), vb)
  {
    hide WellFormed, Numbered, BufferList, Expected, IsSource;
    forall i | 0 <= i < |layout|
      ensures var list := BufferList(Expected(Semantics(layout)), vb);
              var e := Numbered(layout)[i];
              e.slot < |list| && IsSource(vb, e.semantic, list[e.slot])
    {
      SlotsAgree(layout, vb, i);
      assert Semantics(Numbered(layout))[i] == Semantics(layout)[i];
    }
  }

  lemma {:induction false} FilledLength(buffers: array<nat>, strides: array<nat>, n: nat, list: seq<Buffer>)
    requires Filled(buffers, strides, n, list)
    ensures n == |list|
  {
  }

  lemma {:induction false} EnoughRoom(sems: seq<Semantic>)
    ensures NumBuffersExpected(Expected(sems)) <= |sems| + 4
  {
    TexUnitsBounded(sems);
  }

  lemma {:induction false} TexUnitsBounded(sems: seq<Semantic>)
    ensures TexUnits(sems) <= |sems|
  {
    if sems != [] { TexUnitsBounded(sems[..|sems| - 1]); }
  }

  /** As many buffers as elements: the slots are a bijection. */
  lemma {:induction false} CountsMatch(layout: seq<Element>, vb: VertexBuffer)
    requires WellFormed(Semantics(layout)) && Supplies(vb, Expected(Semantics(layout)))
    ensures |BufferList(Expected(Semantics(layout)), vb)| == |layout|
  {
    hide BufferList, WellFormed, SlotOf, NumBuffersExpected, Expected;
    var sems := Semantics(layout);
    var total := NumBuffersExpected(Expected(sems));
    var slots := SlotList(sems);
    assert Members(slots) == UpTo(total) by {
      forall x: nat | x in slots ensures x < total {
        var i :| 0 <= i < |slots| && slots[i] == x;
        SlotsInRange(sems, i);
      }
      forall x: nat | x < total ensures x in slots {
        var i := SlotsOnto(sems, x);
        assert slots[i] == x;
      }
    }
    forall i, j | 0 <= i < j < |slots| ensures slots[i] != slots[j] {
      if slots[i] == slots[j] { SlotsInjective(sems, i, j); }
    }
    HasPosition(sems);
    ListAt(sems, vb, 0);
  }

  function SlotList(sems: seq<Semantic>): (r: seq<nat>)
    ensures |r| == |sems| && forall i :: 0 <= i < |r| ==> r[i] == SlotOf(sems, sems[i])
  {
    seq(|sems|, i requires 0 <= i < |sems| => SlotOf(sems, sems[i]))
  }

  /** The elements of a sequence; as many as its length if none is repeated. */
  function Members(s: seq<nat>): (m: set<nat>)
    ensures forall x :: x in m <==> x in s
    ensures (forall i, j :: 0 <= i < j < |s| ==> s[i] != s[j]) ==> |m| == |s|
  {
    if s == [] then {}
    else
      var n := |s| - 1;
      assert s == s[..n] + [s[n]];
      Members(s[..n]) + {s[n]}
  }

  lemma {:induction false} HasPosition(sems: seq<Semantic>)
    requires WellFormed(sems)
    ensures sems != []
  {
  }

  lemma {:induction false} ListShape(f: Inputs, vb: VertexBuffer)
    requires Supplies(vb, f)
    ensures var a := if f.normals then [Buffer(vb.normals.value, 16)] else [];
            var b := if f.colors then [Buffer(vb.colors.value, 4)] else [];
            var c := if f.tangents then [Buffer(vb.tangents.value, 16)] else [];
            BufferList(f, vb) == [Buffer(vb.points, 16)] + a + b + c + vb.uvs[..f.texUnits]
  {
  }

  lemma {:induction false} ListAt(sems: seq<Semantic>, vb: VertexBuffer, i: nat)
    requires WellFormed(sems) && Supplies(vb, Expected(sems)) && i < |sems|
    ensures var list := BufferList(Expected(sems), vb);
            && |list| == NumBuffersExpected(Expected(sems))
            && SlotOf(sems, sems[i]) < |list|
            && IsSource(vb, sems[i], list[SlotOf(sems, sems[i])])
  {
    hide WellFormed, BufferList, HasName, TexUnits;
    NameIsIndexZero(sems, Normal);
    NameIsIndexZero(sems, Color);
    NameIsIndexZero(sems, Tangent);
    SlotsInRange(sems, i);
    FormFacts(sems, i);
    assert sems[i] in sems;
    ListShape(Expected(sems), vb);
    if sems[i].name == TexCoord { IndicesAreSegment(sems, sems[i].index); }
  }
}

/**
 * Everything that is no call of a handled function is copied: a tree of plain tokens and brackets
 * comes out token by token, names under GLSL's name for them.
 */
module PlainTokens {
  import opened Wrappers
  import opened ShaderTokens
  import opened GlslWriter
  import opened TokenTrees
  import opened WriterCorrectness
  import opened ShaderMeaning

  /** No sampling call and no call of a function that is written in another form, at any depth. */
  predicate Plain(its: seq<Item>) {
    forall i :: 0 <= i < |its| ==>
      match its[i]
      case Leaf(_) => true
      case Group(_, body) => Plain(body)
      case _ => false
  }

  /** A token in GLSL: only names change. */
  function GlToken(t: Token): Token { if t.kind == Name then Ident(GlName(t.word)) else t }

  /** Vectors and functions under their other names, matrices and textures as GLSL's types, all else as it is. */
  function GlName(w: Word): Word {
    if GlVector(w).Some? then GlVector(w).value
    else if Counterpart(w).Some? then Counterpart(w).value
    else match w
         case LerpName => MixName
         case FmodName => ModName
         case Spelled(text) =>
           Spelled(if text == "float3x3" then "mat3x3" else if text == "float3x4" then "mat3x4" else if text == "float4x4" then "mat4x4"
                   else if text == "texture2d" then "sampler2D" else if text == "texture3d" then "sampler3D"
                   else if text == "texture_cube" then "samplerCube" else if text == "texture_rect" then "sampler2DRect" else text)
         case _ => w
  }

  function GlTokens(ts: seq<Token>): (r: seq<Token>)
    ensures |r| == |ts| && forall i :: 0 <= i < |r| ==> r[i] == GlToken(ts[i])
  {
    seq(|ts|, i requires 0 <= i < |ts| => GlToken(ts[i]))
  }

  lemma {:induction false} TableEntry(i: nat)
    requires 9 <= i < |TYPE_NAMES|
    ensures GlName(Spelled(TYPE_NAMES[i].0)) == Spelled(TYPE_NAMES[i].1)
  {
    hide GlVector;
    OtherNames(Spelled(TYPE_NAMES[i].0));
  }

  /** The writer's word for a name is GLSL's. */
  lemma {:induction false} NameRight(t: Token)
    requires t.kind == Name
    ensures LeafText(t) == GlToken(t)
  {
    hide GlVector, Constructor, Lookup, Renamed;
    var w := t.word;
    TypeNameIff(w);
    if TypeName(w).Some? {
      var i := LookupMember(TYPE_NAMES, w.text);
      if i < 9 { EntryRight(i); VectorEntry(i); } else { TableEntry(i); }
    } else {
      NoType(w);
    }
  }

  lemma {:induction false} NoType(w: Word)
    requires TypeName(w).None? && !Constructor(w)
    ensures GlName(w) == if Renamed(w).Some? then Renamed(w).value else w
  {
    hide GlVector, TypeName;
    VectorConstructs(w);
  }

  lemma {:induction false} CopiesPlain(env: Env, its: seq<Item>, st: State)
    requires Plain(its)
    ensures WriteItems(env, its, st) == st.Emit(GlTokens(Print(its)))
    decreases its, 1
  {
    hide GlToken, LeafText;
    if its == [] {
      assert GlTokens(Print(its)) == [] && st.text + [] == st.text;
    } else {
      var it, rest := its[0], its[1..];
      CopiesItem(env, it, st);
      CopiesPlain(env, rest, WriteItem(env, it, st));
      assert GlTokens(PrintItem(it) + Print(rest)) == GlTokens(PrintItem(it)) + GlTokens(Print(rest));
      assert st.text + GlTokens(PrintItem(it)) + GlTokens(Print(rest)) == st.text + (GlTokens(PrintItem(it)) + GlTokens(Print(rest)));
    }
  }

  lemma {:induction false} CopiesItem(env: Env, it: Item, st: State)
    requires (it.Leaf? || it.Group?) && (it.Group? ==> Plain(it.body))
    ensures WriteItem(env, it, st) == st.Emit(GlTokens(PrintItem(it)))
    decreases it, 0
  {
    match it
    case Leaf(t) =>
      LeafRight(t);
      hide GlToken, LeafText, GlName;
      assert GlTokens([t]) == [GlToken(t)];
    case Group(brace, body) =>
      var o, c := OpenOf(brace), CloseOf(brace);
      assert GlToken(o) == o && GlToken(c) == c;
      hide GlToken, WriteItems;
      CopiesPlain(env, body, st.Emit([o]));
      assert GlTokens([o] + Print(body) + [c]) == [o] + GlTokens(Print(body)) + [c];
      assert st.text + [o] + GlTokens(Print(body)) + [c] == st.text + ([o] + GlTokens(Print(body)) + [c]);
  }

  lemma {:induction false} LeafRight(t: Token)
    ensures LeafText(t) == GlToken(t)
  {
    hide GlName, TypeName, Renamed;
    if t.kind == Name { NameRight(t); }
  }

  /** The loop over such a tree appends exactly its tokens. */
  lemma {:induction false} LoopCopies(c: Ctx, i: nat, its: seq<Item>, end: Word, st: State)
    requires Stream(c.toks) && 0 < i && At(c.toks, i, Print(its)) && c.toks[i - 1].kind != End
    requires Wf(c.env, its) && Plain(its) && Passes(its, end) && NoDotAt(c.toks, i + |Print(its)|)
    ensures Loop(c, i - 1, end, st) == Loop(c, i + |Print(its)| - 1, end, st.Emit(GlTokens(Print(its))))
  {
    hide Loop, Wf, WriteItems, NoDotAt, At, Passes, Stream, Plain;
    LoopItems(c, i, its, end, st);
    CopiesPlain(c.env, its, st);
  }
}

/** Every well-formed token tree is translated part by part, and the cursor ends on its closer. */
module WriterCorrectness {
  import opened Wrappers
  import opened ShaderTokens
  import opened GlslWriter
  import opened TokenTrees

  /** `ts` stands in the stream from position `i` on. */
  predicate At(toks: seq<Token>, i: nat, ts: seq<Token>) {
    i + |ts| <= |toks| && toks[i..i + |ts|] == ts
  }

  lemma AtSplit(toks: seq<Token>, i: nat, x: seq<Token>, y: seq<Token>)
    requires At(toks, i, x + y)
    ensures At(toks, i, x) && At(toks, i + |x|, y)
  {
    var ts := x + y;
    assert toks[i..i + |ts|][..|x|] == toks[i..i + |x|];
    assert toks[i..i + |ts|][|x|..] == toks[i + |x|..i + |ts|];
  }

  lemma AtOne(toks: seq<Token>, i: nat, t: Token)
    requires At(toks, i, [t])
    ensures i < |toks| && toks[i] == t
  {
    assert toks[i..i + 1][0] == toks[i];
  }

  lemma AtWhite(toks: seq<Token>, i: nat, ws: seq<Token>)
    requires At(toks, i, ws) && White(ws)
    ensures forall k :: i <= k < i + |ws| ==> IsWhite(toks[k])
  {
    forall k | i <= k < i + |ws| ensures IsWhite(toks[k]) {
      assert toks[i..i + |ws|][k - i] == toks[k];
    }
  }

  /** After the name at `i`: whitespace, "(", the text `x` and the delimiter `d`. */
  predicate CallAt(toks: seq<Token>, i: nat, ws: seq<Token>, x: seq<Token>, d: Token) {
    && i + 2 + |ws| + |x| < |toks| && At(toks, i + 1, ws) && toks[i + 1 + |ws|] == Open
    && At(toks, i + 2 + |ws|, x) && toks[i + 2 + |ws| + |x|] == d
  }

  /** After the token at `i`: whitespace, the text `y` and the delimiter `d`. */
  predicate ArgAt(toks: seq<Token>, i: nat, ws: seq<Token>, y: seq<Token>, d: Token) {
    && i + 1 + |ws| + |y| < |toks| && At(toks, i + 1, ws) && At(toks, i + 1 + |ws|, y)
    && toks[i + 1 + |ws| + |y|] == d
  }

  lemma CallShape(toks: seq<Token>, i: nat, name: Token, ws: seq<Token>, x: seq<Token>, d: Token)
    requires At(toks, i, [name] + ws + [Open] + x + [d])
    ensures CallAt(toks, i, ws, x, d) && toks[i] == name
  {
    hide At;
    AtSplit(toks, i, [name] + ws + [Open] + x, [d]);
    AtSplit(toks, i, [name] + ws + [Open], x);
    TokenShape(toks, i, [name], ws, Open);
    AtOne(toks, i, name);
    AtOne(toks, i + 2 + |ws| + |x|, d);
  }

  /** The parts of an argument that ends the text, after the text `x` before it. */
  lemma ArgShape(toks: seq<Token>, i: nat, x: seq<Token>, ws: seq<Token>, y: seq<Token>, d: Token)
    requires x != [] && At(toks, i, x + ws + y + [d])
    ensures At(toks, i, x) && ArgAt(toks, i + |x| - 1, ws, y, d)
  {
    hide At;
    AtSplit(toks, i, x + ws + y, [d]);
    AtSplit(toks, i, x + ws, y);
    AtSplit(toks, i, x, ws);
    AtOne(toks, i + |x| + |ws| + |y|, d);
  }

  /** Where a token after whitespace stands, after the text `x` before it. */
  lemma TokenShape(toks: seq<Token>, i: nat, x: seq<Token>, ws: seq<Token>, d: Token)
    requires At(toks, i, x + ws + [d])
    ensures At(toks, i, x) && At(toks, i + |x|, ws) && i + |x| + |ws| < |toks| && toks[i + |x| + |ws|] == d
  {
    hide At;
    AtSplit(toks, i, x + ws, [d]);
    AtSplit(toks, i, x, ws);
    AtOne(toks, i + |x| + |ws|, d);
  }

  lemma TwoShape(toks: seq<Token>, i: nat, name: Token, ws0: seq<Token>, x: seq<Token>, ws1: seq<Token>, y: seq<Token>)
    requires At(toks, i, [name] + ws0 + [Open] + x + [CommaTok] + ws1 + y + [Close])
    ensures CallAt(toks, i, ws0, x, CommaTok) && toks[i] == name
    ensures ArgAt(toks, i + 2 + |ws0| + |x|, ws1, y, Close)
  {
    hide At;
    ArgShape(toks, i, [name] + ws0 + [Open] + x + [CommaTok], ws1, y, Close);
    CallShape(toks, i, name, ws0, x, CommaTok);
  }

  lemma ThreeShape(toks: seq<Token>, i: nat, name: Token, ws0: seq<Token>, x: seq<Token>, ws1: seq<Token>, y: seq<Token>,
                   ws2: seq<Token>, z: seq<Token>)
    requires At(toks, i, [name] + ws0 + [Open] + x + [CommaTok] + ws1 + y + [CommaTok] + ws2 + z + [Close])
    ensures CallAt(toks, i, ws0, x, CommaTok) && toks[i] == name
    ensures ArgAt(toks, i + 2 + |ws0| + |x|, ws1, y, CommaTok)
    ensures ArgAt(toks, i + 3 + |ws0| + |x| + |ws1| + |y|, ws2, z, Close)
  {
    hide At;
    var call := [name] + ws0 + [Open] + x + [CommaTok];
    ArgShape(toks, i, call + ws1 + y + [CommaTok], ws2, z, Close);
    ArgShape(toks, i, call, ws1, y, CommaTok);
    CallShape(toks, i, name, ws0, x, CommaTok);
  }

  // ----- Single turns of the writer

  /** The first token, when it is a bracket, is written without opening a group. */
  lemma ContentsOpens(c: Ctx, i: nat, end: Word, st: State)
    requires Stream(c.toks) && i < |c.toks| && c.toks[i].kind == Other
    ensures Contents(c, i, end, st) == Loop(c, i, end, st.Emit([c.toks[i]]))
  {
  }

  /** The cursor step from a solid token over whitespace. */
  lemma StepOver(toks: seq<Token>, i: nat, ws: seq<Token>)
    requires Stream(toks) && i + 1 + |ws| < |toks| && At(toks, i + 1, ws) && White(ws)
    requires toks[i].kind != End && !IsWhite(toks[i]) && !IsWhite(toks[i + 1 + |ws|])
    ensures NextPos(toks, i) == i + 1 + |ws|
  {
    AtWhite(toks, i + 1, ws);
    SkipRun(toks, i + 1, i + 1 + |ws|);
  }

  predicate NoDotAt(toks: seq<Token>, i: nat)
    requires Stream(toks)
  {
    i < |toks| && toks[SkipWhite(toks, i)].word != Dot
  }

  lemma SolidNoDot(toks: seq<Token>, i: nat)
    requires Stream(toks) && i < |toks| && !IsWhite(toks[i]) && toks[i].word != Dot
    ensures NoDotAt(toks, i)
  {
  }

  /** A name that is not a type is left to the intrinsics. */
  lemma StepIntrinsic(c: Ctx, i: nat, st: State)
    requires Stream(c.toks) && i < |c.toks| && c.toks[i].kind == Name && TypeName(c.toks[i].word).None?
    ensures var r := Intrinsic(c, i, st);
            Step(c, i, st) == if r.written then r.out else Out(i, r.out.st.Emit([c.toks[i]]))
  {
    hide TypeName, Renamed, Intrinsic;
    assert Step(c, i, st) == NameStep(c, i, st);
  }

  lemma IntrinsicHandler(c: Ctx, i: nat, st: State)
    requires Stream(c.toks) && i < |c.toks| && c.toks[i].kind == Name
    ensures c.toks[i].word == MulName ==> Intrinsic(c, i, st) == Mul(c, i, st)
    ensures c.toks[i].word == MadName ==> Intrinsic(c, i, st) == Mad(c, i, st)
    ensures c.toks[i].word == SaturateName ==> Intrinsic(c, i, st) == Saturate(c, i, st)
    ensures c.toks[i].word == SinCosName ==> Intrinsic(c, i, st) == SinCos(c, i, st)
    ensures !IsHandled(c.toks[i].word) && Renamed(c.toks[i].word).None? && IsTexture(c.env, c.toks[i].word) ==>
              Intrinsic(c, i, st) == TextureCode(c, i, st)
  {
    hide TypeName, Renamed, Mul, Mad, Saturate, SinCos, TextureCode;
  }

  // ----- The induction over trees

  /** The loop walks over a whole tree, leaving its translation behind. */
  lemma {:induction false} LoopItems(c: Ctx, i: nat, its: seq<Item>, end: Word, st: State)
    requires Stream(c.toks) && 0 < i && At(c.toks, i, Print(its)) && c.toks[i - 1].kind != End
    requires Wf(c.env, its) && Passes(its, end) && NoDotAt(c.toks, i + |Print(its)|)
    ensures c.toks[i + |Print(its)| - 1].kind != End
    ensures Loop(c, i - 1, end, st) == Loop(c, i + |Print(its)| - 1, end, WriteItems(c.env, its, st))
    decreases |Print(its)|, 3
  {
    hide Contents, Loop, Step, Print, Wf, WriteItems, PrintItem, WfItem, WriteItem, NoDot, NoDotAt, At, Passes,
         TextureType, Stream;
    if its == [] {
      NoItems(c.env, st);
    } else {
      var it, rest := its[0], its[1..];
      var n := |PrintItem(it)|;
      Unfold(c.env, its, st);
      AtSplit(c.toks, i, PrintItem(it), Print(rest));
      HeadAt(c, i, it);
      PassesTail(its, end);
      DotAfter(c, i + n, rest, it);
      StepItem(c, i, it, st);
      LoopUnfold(c, i - 1, end, st);
      LoopItems(c, i + n, rest, end, WriteItem(c.env, it, st));
    }
  }

  lemma NoItems(env: Env, st: State)
    ensures Print([]) == [] && WriteItems(env, [], st) == st
  {
  }

  lemma Unfold(env: Env, its: seq<Item>, st: State)
    requires its != []
    ensures Print(its) == PrintItem(its[0]) + Print(its[1..])
    ensures Wf(env, its) ==> WfItem(env, its[0]) && Wf(env, its[1..])
    ensures Wf(env, its) && its[0].Leaf? && its[0].t.kind == Name && IsTexture(env, its[0].t.word) ==> NoDot(Print(its[1..]))
    ensures WriteItems(env, its, st) == WriteItems(env, its[1..], WriteItem(env, its[0], st))
  {
    hide PrintItem, WfItem, WriteItem, NoDot;
  }

  lemma PassesTail(its: seq<Item>, end: Word)
    requires its != [] && Passes(its, end)
    ensures Passes(its[1..], end) && (end == Comma ==> its[0] != Leaf(CommaTok))
  {
    assert forall k :: 0 <= k < |its[1..]| ==> its[1..][k] == its[k + 1];
  }

  lemma HeadAt(c: Ctx, i: nat, it: Item)
    requires Stream(c.toks) && At(c.toks, i, PrintItem(it)) && WfItem(c.env, it)
    ensures i < |c.toks| && c.toks[i] == PrintItem(it)[0]
    ensures c.toks[i].kind != End && c.toks[i].word != RParen && c.toks[i].word != RBrace
    ensures c.toks[i].word == Comma ==> it == Leaf(CommaTok)
    ensures !it.Group? ==> c.toks[i] != Punct(LParen) && c.toks[i] != Punct(LBrace)
    ensures IsWhite(c.toks[i]) ==> it.Leaf? && it.t == c.toks[i]
  {
    hide TypeName, Renamed;
    HeadToken(c.env, it);
    assert c.toks[i..i + |PrintItem(it)|][0] == c.toks[i];
  }

  /** A texture name that stands alone is followed by no dot, whatever follows the tree. */
  lemma DotAfter(c: Ctx, k: nat, rest: seq<Item>, it: Item)
    requires Stream(c.toks) && At(c.toks, k, Print(rest)) && NoDotAt(c.toks, k + |Print(rest)|)
    ensures k < |c.toks|
    ensures NoDot(Print(rest)) ==> NoDotAt(c.toks, k)
  {
    hide Print, SigHead, SkipWhite, Stream;
    var ts := Print(rest);
    SkipWhiteIsSigHead(c.toks, k);
    SkipWhiteIsSigHead(c.toks, k + |ts|);
    assert c.toks[k..] == c.toks[k..k + |ts|] + c.toks[k + |ts|..];
    SigHeadConcat(ts, c.toks[k + |ts|..]);
  }

  /** A tree followed by the delimiter that ends the loop. */
  lemma {:induction false} BodyTo(c: Ctx, i: nat, body: seq<Item>, d: Token, st: State)
    requires Stream(c.toks) && 0 < i && At(c.toks, i, Print(body)) && c.toks[i - 1].kind != End
    requires i + |Print(body)| < |c.toks| && c.toks[i + |Print(body)|] == d
    requires Wf(c.env, body) && Passes(body, d.word) && d.kind == Other
    ensures Loop(c, i - 1, d.word, st) == Out(i + |Print(body)|, WriteItems(c.env, body, st))
    decreases |Print(body)|, 4
  {
    hide Contents, Loop, Step, Print, Wf, WriteItems;
    SolidNoDot(c.toks, i + |Print(body)|);
    LoopItems(c, i, body, d.word, st);
    LoopUnfold(c, i + |Print(body)| - 1, d.word, WriteItems(c.env, body, st));
  }

  /** The first argument: from the call's name over whitespace to "(" and up to the delimiter. */
  lemma {:induction false} OpenArg(c: Ctx, i: nat, ws: seq<Token>, a: seq<Item>, d: Token, st: State)
    requires Stream(c.toks) && CallAt(c.toks, i, ws, Print(a), d)
    requires White(ws) && c.toks[i].kind == Name
    requires Wf(c.env, a) && Passes(a, d.word) && d.kind == Other
    ensures NextPos(c.toks, i) == i + 1 + |ws|
    ensures Contents(c, i + 1 + |ws|, d.word, st) == Out(i + 2 + |ws| + |Print(a)|, WriteItems(c.env, a, st.Emit([Open])))
    decreases |Print(a)|, 5
  {
    hide Contents, Loop, Step, Print, Wf, WriteItems, NextPos, At;
    StepOver(c.toks, i, ws);
    ContentsOpens(c, i + 1 + |ws|, d.word, st);
    BodyTo(c, i + 2 + |ws|, a, d, st.Emit([Open]));
  }

  /** A later argument, from the comma or bracket at `i`, that does not open with a bracket. */
  lemma {:induction false} NextArg(c: Ctx, i: nat, ws: seq<Token>, b: seq<Item>, d: Token, st: State)
    requires Stream(c.toks) && ArgAt(c.toks, i, ws, Print(b), d) && White(ws) && c.toks[i].kind == Other
    requires Wf(c.env, b) && Passes(b, d.word) && LastArg(b) && d.kind == Other
    ensures NextPos(c.toks, i) == i + 1 + |ws| && c.toks[i + 1 + |ws|].kind != End
    ensures Contents(c, i + 1 + |ws|, d.word, st) == Out(i + 1 + |ws| + |Print(b)|, WriteItems(c.env, b, st))
    decreases |Print(b)|, 5
  {
    hide Contents, Loop, Step, Print, Wf, WriteItems, NextPos, At;
    ArgHead(c, i, ws, b);
    BodyTo(c, i + 1 + |ws|, b, d, st);
    ContentsIsLoop(c, i + 1 + |ws|, d.word, st);
  }

  lemma ArgHead(c: Ctx, i: nat, ws: seq<Token>, b: seq<Item>)
    requires Stream(c.toks) && i < |c.toks| && c.toks[i].kind == Other
    requires White(ws) && At(c.toks, i + 1, ws) && At(c.toks, i + 1 + |ws|, Print(b))
    requires Wf(c.env, b) && StartsSolid(b)
    ensures i + 1 + |ws| < |c.toks| && c.toks[i + 1 + |ws|] == PrintItem(b[0])[0]
    ensures NextPos(c.toks, i) == i + 1 + |ws| && c.toks[i + |ws|].kind != End
    ensures var t := c.toks[i + 1 + |ws|];
            && t.kind != End && t.word != RParen && t.word != RBrace && (t.word == Comma ==> b[0] == Leaf(CommaTok))
            && (!b[0].Group? ==> t != Punct(LParen) && t != Punct(LBrace))
  {
    hide PrintItem, WfItem, WriteItem, NextPos, At, NoDot;
    AtSplit(c.toks, i + 1 + |ws|, PrintItem(b[0]), Print(b[1..]));
    HeadAt(c, i + 1 + |ws|, b[0]);
    StepOver(c.toks, i, ws);
    AtWhite(c.toks, i + 1, ws);
  }

  /** A middle argument may open with "(": its closer cannot be mistaken for the delimiter ",". */
  lemma {:induction false} MidArg(c: Ctx, i: nat, ws: seq<Token>, b: seq<Item>, st: State)
    requires Stream(c.toks) && ArgAt(c.toks, i, ws, Print(b), CommaTok) && White(ws) && c.toks[i].kind == Other
    requires Wf(c.env, b) && MiddleArg(b)
    ensures NextPos(c.toks, i) == i + 1 + |ws| && c.toks[i + 1 + |ws|].kind != End
    ensures Contents(c, i + 1 + |ws|, Comma, st) == Out(i + 1 + |ws| + |Print(b)|, WriteItems(c.env, b, st))
    decreases |Print(b)|, 6
  {
    hide Contents, NextPos, At, NoDot;
    if !b[0].Group? {
      NextArg(c, i, ws, b, CommaTok, st);
    } else {
      ArgHead(c, i, ws, b);
      PassesTail(b, Comma);
      GroupArg(c, i + 1 + |ws|, b[0].body, b[1..], st);
    }
  }

  /** "(" body ")" rest "," read with delimiter ",": both brackets pass through as plain tokens. */
  lemma {:induction false} GroupArg(c: Ctx, i: nat, body: seq<Item>, rest: seq<Item>, st: State)
    requires Stream(c.toks) && At(c.toks, i, [Open] + Print(body) + [Close] + Print(rest))
    requires var n := i + 2 + |Print(body)| + |Print(rest)|; n < |c.toks| && c.toks[n] == CommaTok
    requires Wf(c.env, body) && Wf(c.env, rest) && Passes(body, Comma) && Passes(rest, Comma)
    ensures Contents(c, i, Comma, st)
         == Out(i + 2 + |Print(body)| + |Print(rest)|,
                WriteItems(c.env, rest, WriteItems(c.env, body, st.Emit([Open])).Emit([Close])))
    decreases |Print(body)| + |Print(rest)| + 2, 5
  {
    hide Contents, Loop, Step, NoDotAt, At, Print, Wf, WriteItems, Passes, Stream, NextPos;
    var k := i + 1 + |Print(body)|;
    AtSplit(c.toks, i, [Open] + Print(body) + [Close], Print(rest));
    TokenShape(c.toks, i, [Open], Print(body), Close);
    AtOne(c.toks, i, Open);
    ContentsOpens(c, i, Comma, st);
    SolidNoDot(c.toks, k);
    LoopItems(c, i + 1, body, Comma, st.Emit([Open]));
    var st1 := WriteItems(c.env, body, st.Emit([Open]));
    LoopUnfold(c, k - 1, Comma, st1);
    CloseStep(c, k, st1);
    BodyTo(c, k + 1, rest, CommaTok, st1.Emit([Close]));
  }

  lemma CloseStep(c: Ctx, k: nat, st: State)
    requires Stream(c.toks) && k < |c.toks| && c.toks[k] == Close
    ensures Step(c, k, st) == Out(k, st.Emit([Close]))
  {
    hide NameStep, Contents, Stream;
  }

  /** A handled function that is not called, and a texture that is not sampled, are copied. */
  lemma {:induction false} DeclinedCopied(c: Ctx, i: nat, st: State)
    requires Stream(c.toks) && i < |c.toks| && c.toks[i].kind == Name && TypeName(c.toks[i].word).None? && Renamed(c.toks[i].word).None?
    requires IsHandled(c.toks[i].word) ==> c.toks[NextPos(c.toks, i)].word != LParen
    requires !IsHandled(c.toks[i].word) && IsTexture(c.env, c.toks[i].word) ==> c.toks[NextPos(c.toks, i)].word != Dot
    ensures Step(c, i, st) == Out(i, st.Emit([c.toks[i]]))
  {
    hide TypeName, Renamed, Contents, Stream, NextPos, SinCosTargets, TextureType;
    StepIntrinsic(c, i, st);
    if IsTexture(c.env, c.toks[i].word) { NotSampled(c, i, st); }
  }

  lemma {:induction false} NotSampled(c: Ctx, i: nat, st: State)
    requires Stream(c.toks) && i < |c.toks| && c.toks[i].kind == Name && IsTexture(c.env, c.toks[i].word)
    ensures c.toks[NextPos(c.toks, i)].word != Dot ==> TextureCode(c, i, st) == Tried(false, Out(i, st))
  {
    hide TypeName, Renamed, Contents, Stream, NextPos, TextureType, SampleCall, FindSampler;
  }

  /** One turn of the loop consumes exactly one item and writes exactly its translation. */
  lemma {:induction false} StepItem(c: Ctx, i: nat, it: Item, st: State)
    requires Stream(c.toks) && At(c.toks, i, PrintItem(it)) && WfItem(c.env, it)
    requires it.Leaf? && it.t.kind == Name && IsTexture(c.env, it.t.word) ==> NoDotAt(c.toks, i + 1)
    ensures Stepped(c, i, it, st)
    decreases |PrintItem(it)|, 2
  {
    hide Stream, At, PrintItem, NoDotAt, Stepped;
    match it
    case Leaf(_) => LeafItem(c, i, it, st);
    case Group(_, _) => GroupItem(c, i, it, st);
    case MulCall(_, _, _, _) => MulItem(c, i, it, st);
    case MadCall(_, _, _, _, _, _) => MadItem(c, i, it, st);
    case SaturateCall(_, _) => SaturateItem(c, i, it, st);
    case SinCosCall(_, _, _, _, _, _) => SinCosItem(c, i, it, st);
    case Sampling(_, _, _, _, _, _, _, _) => SamplingItem(c, i, it, st);
  }

  predicate Stepped(c: Ctx, i: nat, it: Item, st: State)
    requires Stream(c.toks) && i < |c.toks|
  {
    && i + |PrintItem(it)| <= |c.toks| && c.toks[i + |PrintItem(it)| - 1].kind != End
    && Step(c, i, st) == Out(i + |PrintItem(it)| - 1, WriteItem(c.env, it, st))
  }

  lemma LeafItem(c: Ctx, i: nat, it: Item, st: State)
    requires Stream(c.toks) && it.Leaf? && At(c.toks, i, PrintItem(it)) && PlainToken(it.t)
    requires it.t.kind == Name && IsTexture(c.env, it.t.word) ==> NoDotAt(c.toks, i + 1)
    ensures Stepped(c, i, it, st)
  {
    hide TypeName, Renamed, Step, NoDotAt, At;
    AtOne(c.toks, i, it.t);
    LeafStep(c, i, st);
  }

  lemma {:induction false} MulItem(c: Ctx, i: nat, it: Item, st: State)
    requires Stream(c.toks) && it.MulCall? && At(c.toks, i, PrintItem(it)) && WfItem(c.env, it)
    ensures Stepped(c, i, it, st)
    decreases |PrintItem(it)|, 1
  {
    hide Stream, Step, Print, Wf, WriteItem, At, White, TopLevelComma, MiddleArg, LastArg;
    TwoShape(c.toks, i, Ident(MulName), it.ws0, Print(it.a), it.ws1, Print(it.b));
    MulStep(c, i, it, st);
  }

  lemma {:induction false} MadItem(c: Ctx, i: nat, it: Item, st: State)
    requires Stream(c.toks) && it.MadCall? && At(c.toks, i, PrintItem(it)) && WfItem(c.env, it)
    ensures Stepped(c, i, it, st)
    decreases |PrintItem(it)|, 1
  {
    hide Stream, Step, Print, Wf, WriteItem, At, White, TopLevelComma, MiddleArg, LastArg;
    ThreeShape(c.toks, i, Ident(MadName), it.ws0, Print(it.a), it.ws1, Print(it.b), it.ws2, Print(it.c));
    MadStep(c, i, it, st);
  }

  lemma {:induction false} SaturateItem(c: Ctx, i: nat, it: Item, st: State)
    requires Stream(c.toks) && it.SaturateCall? && At(c.toks, i, PrintItem(it)) && WfItem(c.env, it)
    ensures Stepped(c, i, it, st)
    decreases |PrintItem(it)|, 1
  {
    hide Stream, Step, Print, Wf, WriteItem, At, White, TopLevelComma, MiddleArg, LastArg;
    CallShape(c.toks, i, Ident(SaturateName), it.ws0, Print(it.a), Close);
    SaturateStep(c, i, it, st);
  }

  lemma {:induction false} SinCosItem(c: Ctx, i: nat, it: Item, st: State)
    requires Stream(c.toks) && it.SinCosCall? && At(c.toks, i, PrintItem(it)) && WfItem(c.env, it)
    ensures Stepped(c, i, it, st)
    decreases |PrintItem(it)|, 1
  {
    hide Stream, Step, Print, Wf, WriteItem, At, White, TopLevelComma, MiddleArg, LastArg;
    ThreeShape(c.toks, i, Ident(SinCosName), it.ws0, Print(it.a), it.ws1, Print(it.b), it.ws2, Print(it.c));
    SinCosStep(c, i, it, st);
  }

  lemma {:induction false} SamplingItem(c: Ctx, i: nat, it: Item, st: State)
    requires Stream(c.toks) && it.Sampling? && At(c.toks, i, PrintItem(it)) && WfItem(c.env, it)
    ensures Stepped(c, i, it, st)
    decreases |PrintItem(it)|, 1
  {
    hide TypeName, Renamed, Stream, Step, Print, Wf, WriteItem, At, White, TopLevelComma, MiddleArg, LastArg, WfSampling, SamplingAt;
    ArgShape(c.toks, i, SamplingHead(it), it.ws3, Print(it.args), Close);
    HeadShape(c.toks, i, it);
    SamplingStep(c, i, it, st);
  }

  lemma {:induction false} GroupItem(c: Ctx, i: nat, it: Item, st: State)
    requires Stream(c.toks) && it.Group? && At(c.toks, i, PrintItem(it)) && WfItem(c.env, it)
    ensures Stepped(c, i, it, st)
    decreases |PrintItem(it)|, 1
  {
    hide Stream, Step, Print, Wf, WriteItem, At, White, TopLevelComma, MiddleArg, LastArg;
    TokenShape(c.toks, i, [OpenOf(it.brace)], Print(it.body), CloseOf(it.brace));
    AtOne(c.toks, i, OpenOf(it.brace));
    GroupStep(c, i, it, st);
  }

  lemma {:induction false} GroupStep(c: Ctx, i: nat, it: Item, st: State)
    requires Stream(c.toks) && it.Group? && Wf(c.env, it.body)
    requires At(c.toks, i + 1, Print(it.body)) && i + 1 + |Print(it.body)| < |c.toks|
    requires c.toks[i] == OpenOf(it.brace) && c.toks[i + 1 + |Print(it.body)|] == CloseOf(it.brace)
    ensures Step(c, i, st) == Out(i + 1 + |Print(it.body)|, WriteItem(c.env, it, st))
    decreases |Print(it.body)| + 1, 0
  {
    hide Contents, Loop, NameStep, Print, Wf, WriteItems, At;
    var d := CloseOf(it.brace);
    ContentsOpens(c, i, d.word, st);
    BodyTo(c, i + 1, it.body, d, st.Emit([OpenOf(it.brace)]));
  }

  lemma LeafStep(c: Ctx, i: nat, st: State)
    requires Stream(c.toks) && i < |c.toks| && PlainToken(c.toks[i])
    requires c.toks[i].kind == Name && IsTexture(c.env, c.toks[i].word) ==> NoDotAt(c.toks, i + 1)
    ensures Step(c, i, st) == Out(i, st.Emit([LeafText(c.toks[i])]))
  {
    hide TypeName, Renamed;
    var t := c.toks[i];
    if t.kind == Name && TypeName(t.word).None? {
      StepIntrinsic(c, i, st);
      if Renamed(t.word).None? && IsTexture(c.env, t.word) {
        IntrinsicHandler(c, i, st);
        assert TextureShape(c, i).None?;
      }
    }
  }

  lemma {:induction false} SaturateStep(c: Ctx, i: nat, it: Item, st: State)
    requires Stream(c.toks) && it.SaturateCall? && CallAt(c.toks, i, it.ws0, Print(it.a), Close)
    requires c.toks[i] == Ident(SaturateName) && White(it.ws0) && Wf(c.env, it.a)
    ensures Step(c, i, st) == Out(i + 2 + |it.ws0| + |Print(it.a)|, WriteItem(c.env, it, st))
    decreases |Print(it.a)| + 1, 0
  {
    hide TypeName, Renamed, Stream, Contents, Saturate, Step, Intrinsic, Print, Wf, WriteItems, WriteItem, NextPos, At, White;
    SaturateText(c.env, it, st);
    OpenArg(c, i, it.ws0, it.a, Close, st.Emit([Ident(ClampName)]));
    SaturateUnfold(c, i, st);
    IntrinsicHandler(c, i, st);
    StepIntrinsic(c, i, st);
  }

  lemma SaturateText(env: Env, it: Item, st: State)
    requires it.SaturateCall?
    ensures WriteItem(env, it, st) == WriteItems(env, it.a, st.Emit([Ident(ClampName)]).Emit([Open])).Emit(ClampTail)
  {
    hide WriteItems;
  }

  lemma SaturateUnfold(c: Ctx, i: nat, st: State)
    requires Stream(c.toks) && i < |c.toks| && c.toks[i].kind == Name && OpensCall(c, i)
    ensures var x := Contents(c, NextPos(c.toks, i), RParen, st.Emit([Ident(ClampName)]));
            Saturate(c, i, st) == Tried(true, Out(x.pos, x.st.Emit(ClampTail)))
  {
    hide Stream, Contents, NextPos;
  }

  lemma {:induction false} MulStep(c: Ctx, i: nat, it: Item, st: State)
    requires Stream(c.toks) && it.MulCall? && CallAt(c.toks, i, it.ws0, Print(it.a), CommaTok)
    requires ArgAt(c.toks, i + 2 + |it.ws0| + |Print(it.a)|, it.ws1, Print(it.b), Close)
    requires c.toks[i] == Ident(MulName) && White(it.ws0) && White(it.ws1)
    requires Wf(c.env, it.a) && Wf(c.env, it.b) && !TopLevelComma(it.a) && LastArg(it.b)
    ensures Step(c, i, st)
         == Out(i + 3 + |it.ws0| + |Print(it.a)| + |it.ws1| + |Print(it.b)|, WriteItem(c.env, it, st))
    decreases |Print(it.a)| + |Print(it.b)| + 1, 0
  {
    hide TypeName, Renamed, Stream, Contents, Mul, Step, Intrinsic, Print, Wf, WriteItems, WriteItem, NextPos, At, White,
         TopLevelComma, LastArg;
    MulText(c.env, it, st);
    var p := i + 2 + |it.ws0| + |Print(it.a)|;
    OpenArg(c, i, it.ws0, it.a, CommaTok, st.Emit([Open]));
    var x := WriteItems(c.env, it.a, st.Emit([Open]).Emit([Open]));
    NextArg(c, p, it.ws1, it.b, Close, x.Emit(TimesParen));
    MulUnfold(c, i, Out(p, x), st);
    IntrinsicHandler(c, i, st);
    StepIntrinsic(c, i, st);
  }

  lemma MulText(env: Env, it: Item, st: State)
    requires it.MulCall?
    ensures var x := WriteItems(env, it.a, st.Emit([Open]).Emit([Open]));
            WriteItem(env, it, st) == WriteItems(env, it.b, x.Emit(TimesParen)).Emit(CloseClose)
  {
    hide WriteItems;
  }

  lemma MulUnfold(c: Ctx, i: nat, x: Out, st: State)
    requires Stream(c.toks) && i < |c.toks| && c.toks[i].kind == Name && OpensCall(c, i)
    requires x == Contents(c, NextPos(c.toks, i), Comma, st.Emit([Open]))
    ensures var y := Contents(c, NextPos(c.toks, x.pos), RParen, x.st.Emit(TimesParen));
            Mul(c, i, st) == Tried(true, Out(y.pos, y.st.Emit(CloseClose)))
  {
    hide Stream, Contents, NextPos;
  }

  lemma MadText(env: Env, it: Item, st: State)
    requires it.MadCall?
    ensures var x := WriteItems(env, it.a, st.Emit([Open]).Emit([Open]));
            var y := WriteItems(env, it.b, x.Emit(TimesParen));
            WriteItem(env, it, st) == WriteItems(env, it.c, y.Emit(PlusParen)).Emit(CloseClose)
  {
    hide WriteItems;
  }

  lemma SinCosText(env: Env, it: Item, st: State)
    requires it.SinCosCall?
    ensures WriteItem(env, it, st) == WriteSinCos(env, it, st)
  {
    hide WriteItems, WriteSinCos;
  }

  /** The parts of a three-argument call stand from `i` on. */
  predicate ThreeAt(c: Ctx, i: nat, it: Item)
    requires it.MadCall? || it.SinCosCall?
  {
    && CallAt(c.toks, i, it.ws0, Print(it.a), CommaTok)
    && ArgAt(c.toks, i + 2 + |it.ws0| + |Print(it.a)|, it.ws1, Print(it.b), CommaTok)
    && ArgAt(c.toks, i + 3 + |it.ws0| + |Print(it.a)| + |it.ws1| + |Print(it.b)|, it.ws2, Print(it.c), Close)
    && White(it.ws0) && White(it.ws1) && White(it.ws2) && Wf(c.env, it.a) && Wf(c.env, it.b) && Wf(c.env, it.c)
    && !TopLevelComma(it.a) && MiddleArg(it.b) && LastArg(it.c)
  }

  lemma {:induction false} MadStep(c: Ctx, i: nat, it: Item, st: State)
    requires Stream(c.toks) && it.MadCall? && ThreeAt(c, i, it) && c.toks[i] == Ident(MadName)
    ensures var n := |it.ws0| + |Print(it.a)| + |it.ws1| + |Print(it.b)| + |it.ws2| + |Print(it.c)|;
            Step(c, i, st) == Out(i + 4 + n, WriteItem(c.env, it, st))
    decreases |Print(it.a)| + |Print(it.b)| + |Print(it.c)| + 1, 0
  {
    hide TypeName, Renamed, Stream, Contents, Mad, Step, Intrinsic, Print, Wf, WriteItems, WriteItem, NextPos, At, White, TopLevelComma,
         MiddleArg, LastArg;
    MadText(c.env, it, st);
    var p := i + 2 + |it.ws0| + |Print(it.a)|;
    var q := p + 1 + |it.ws1| + |Print(it.b)|;
    OpenArg(c, i, it.ws0, it.a, CommaTok, st.Emit([Open]));
    var x := WriteItems(c.env, it.a, st.Emit([Open]).Emit([Open]));
    MidArg(c, p, it.ws1, it.b, x.Emit(TimesParen));
    var y := WriteItems(c.env, it.b, x.Emit(TimesParen));
    NextArg(c, q, it.ws2, it.c, Close, y.Emit(PlusParen));
    MadUnfold(c, i, Out(p, x), Out(q, y), st);
    IntrinsicHandler(c, i, st);
    StepIntrinsic(c, i, st);
  }

  lemma MadUnfold(c: Ctx, i: nat, x: Out, y: Out, st: State)
    requires Stream(c.toks) && i < |c.toks| && c.toks[i].kind == Name && OpensCall(c, i)
    requires x == Contents(c, NextPos(c.toks, i), Comma, st.Emit([Open]))
    requires y == Contents(c, NextPos(c.toks, x.pos), Comma, x.st.Emit(TimesParen))
    ensures var z := Contents(c, NextPos(c.toks, y.pos), RParen, y.st.Emit(PlusParen));
            Mad(c, i, st) == Tried(true, Out(z.pos, z.st.Emit(CloseClose)))
  {
    hide Stream, Contents, NextPos;
  }

  lemma {:induction false} SinCosStep(c: Ctx, i: nat, it: Item, st: State)
    requires Stream(c.toks) && it.SinCosCall? && ThreeAt(c, i, it) && c.toks[i] == Ident(SinCosName)
    ensures var n := |it.ws0| + |Print(it.a)| + |it.ws1| + |Print(it.b)| + |it.ws2| + |Print(it.c)|;
            Step(c, i, st) == Out(i + 4 + n, WriteItem(c.env, it, st))
    decreases |Print(it.a)| + |Print(it.b)| + |Print(it.c)| + 1, 0
  {
    hide TypeName, Renamed, Stream, Contents, SinCos, Step, Intrinsic, Print, Wf, WriteItems, WriteItem, NextPos, At,
         White, TopLevelComma, MiddleArg, LastArg, SinCosHead, SinCosAssign;
    SinCosText(c.env, it, st);
    var p, n := i + 2 + |it.ws0| + |Print(it.a)|, st.counter;
    var st0 := st.(counter := n + 1).Emit(SinCosHead(n));
    OpenArg(c, i, it.ws0, it.a, CommaTok, st0);
    var x := WriteItems(c.env, it.a, st0.Emit([Open])).Emit([Close] + StatementBreak);
    MidArg(c, p, it.ws1, it.b, x);
    var y := WriteItems(c.env, it.b, x).Emit(SinCosAssign("sin", n) + StatementBreak);
    var q := p + 1 + |it.ws1| + |Print(it.b)|;
    NextArg(c, q, it.ws2, it.c, Close, y);
    SinCosUnfold(c, i, Out(p, WriteItems(c.env, it.a, st0.Emit([Open]))), Out(q, WriteItems(c.env, it.b, x)), st);
    IntrinsicHandler(c, i, st);
    StepIntrinsic(c, i, st);
  }

  lemma SinCosUnfold(c: Ctx, i: nat, x: Out, y: Out, st: State)
    requires Stream(c.toks) && i < |c.toks| && c.toks[i].kind == Name && OpensCall(c, i)
    requires x == Contents(c, NextPos(c.toks, i), Comma, st.(counter := st.counter + 1).Emit(SinCosHead(st.counter)))
    requires c.toks[NextPos(c.toks, x.pos)].kind != End
    requires y == Contents(c, NextPos(c.toks, x.pos), Comma, x.st.Emit([Close] + StatementBreak))
    requires c.toks[NextPos(c.toks, y.pos)].kind != End
    ensures var st2 := y.st.Emit(SinCosAssign("sin", st.counter) + StatementBreak);
            var z := Contents(c, NextPos(c.toks, y.pos), RParen, st2);
            SinCos(c, i, st) == Tried(true, Out(z.pos, z.st.Emit(SinCosAssign("cos", st.counter))))
  {
    hide Stream, Contents, NextPos;
    assert SinCos(c, i, st) == SinCosTargets(c, x.pos, st.counter, x.st.Emit([Close] + StatementBreak));
  }

  lemma {:induction false} SamplingStep(c: Ctx, i: nat, it: Item, st: State)
    requires Stream(c.toks) && it.Sampling? && SamplingAt(c.toks, i, it)
    requires ArgAt(c.toks, HeadEnd(i, it), it.ws3, Print(it.args), Close)
    requires White(it.ws0) && White(it.ws1) && White(it.ws2) && White(it.ws3) && Wf(c.env, it.args) && LastArg(it.args)
    requires WfSampling(c.env, it.tex, it.texMethod, it.sampler)
    ensures Step(c, i, st) == Out(HeadEnd(i, it) + 1 + |it.ws3| + |Print(it.args)|, WriteItem(c.env, it, st))
    decreases |Print(it.args)| + 1, 0
  {
    hide TypeName, Renamed, Stream, Contents, Step, Intrinsic, TextureCode, Print, Wf, WriteItems, NextPos, At, White,
         TextureShape, TextureType, LastArg, FindSampler, HeadEnd, SampleCall, SamplingStart, SamplingAt, WriteItem;
    SamplingText(c.env, it, st);
    ShapeOf(c, i, it);
    HeadEndToken(c, i, it);
    NextArg(c, HeadEnd(i, it), it.ws3, it.args, Close, SamplingStart(c.env, it.tex, it.texMethod, it.sampler, st));
    TextureUnfold(c, i, it, st);
    IntrinsicHandler(c, i, st);
    StepIntrinsic(c, i, st);
  }

  lemma SamplingText(env: Env, it: Item, st: State)
    requires it.Sampling?
    ensures WriteItem(env, it, st) == WriteItems(env, it.args, SamplingStart(env, it.tex, it.texMethod, it.sampler, st)).Emit([Close])
  {
    hide WriteItems, SamplingStart;
  }

  lemma HeadEndToken(c: Ctx, i: nat, it: Item)
    requires it.Sampling? && SamplingAt(c.toks, i, it)
    ensures HeadEnd(i, it) < |c.toks| && c.toks[HeadEnd(i, it)] == (if it.sampler.None? then Open else CommaTok)
    ensures c.toks[i] == Ident(it.tex)
  {
    hide At;
  }

  lemma TextureUnfold(c: Ctx, i: nat, it: Item, st: State)
    requires Stream(c.toks) && it.Sampling? && i < |c.toks| && c.toks[i] == Ident(it.tex)
    requires WfSampling(c.env, it.tex, it.texMethod, it.sampler) && HeadEnd(i, it) < |c.toks|
    requires var call := SampleCall(it.texMethod, TextureType(c.env, it.tex)).value;
             var id := if it.sampler.None? then None else FindSampler(c.env.samplers, it.sampler.value.name);
             TextureShape(c, i) == Some((call, id, NextPos(c.toks, HeadEnd(i, it))))
    requires c.toks[NextPos(c.toks, HeadEnd(i, it))].kind != End
    ensures var x := Contents(c, NextPos(c.toks, HeadEnd(i, it)), RParen,
                              SamplingStart(c.env, it.tex, it.texMethod, it.sampler, st));
            TextureCode(c, i, st) == Tried(true, Out(x.pos, x.st.Emit([Close])))
  {
    hide TypeName, Renamed, Stream, Contents, NextPos, TextureShape, TextureType, FindSampler, SampleCall, HeadEnd;
  }

  /** The text of a sampling call up to its bracket or the comma after its sampler. */
  function SamplingHead(it: Item): (ts: seq<Token>)
    requires it.Sampling?
    ensures |ts| == 4 + |it.ws0| + |it.ws1| + |it.ws2| + |PrintSampler(it.sampler)|
  {
    [Ident(it.tex)] + it.ws0 + [DotTok] + it.ws1 + [Ident(it.texMethod)] + it.ws2 + [Open] + PrintSampler(it.sampler)
  }

  /** The parts of a sampling call's head stand from `i` on. */
  predicate SamplingAt(toks: seq<Token>, i: nat, it: Item)
    requires it.Sampling?
  {
    var dot := i + 1 + |it.ws0|;
    var name := dot + 1 + |it.ws1|;
    var open := name + 1 + |it.ws2|;
    && open < |toks| && toks[i] == Ident(it.tex) && At(toks, i + 1, it.ws0) && toks[dot] == DotTok
    && At(toks, dot + 1, it.ws1) && toks[name] == Ident(it.texMethod)
    && At(toks, name + 1, it.ws2) && toks[open] == Open
    && (it.sampler.Some? ==>
          var s := open + 1 + |it.sampler.value.before|;
          && s + 1 + |it.sampler.value.after| < |toks| && At(toks, open + 1, it.sampler.value.before)
          && toks[s] == Ident(it.sampler.value.name)
          && At(toks, s + 1, it.sampler.value.after) && toks[s + 1 + |it.sampler.value.after|] == CommaTok)
  }

  /** Position of the bracket or comma that ends a sampling call's head. */
  function HeadEnd(i: nat, it: Item): nat
    requires it.Sampling?
  {
    var open := i + 3 + |it.ws0| + |it.ws1| + |it.ws2|;
    if it.sampler.None? then open else open + 2 + |it.sampler.value.before| + |it.sampler.value.after|
  }

  /** What the cursor finds, once the positions of the parts are known. */
  lemma ShapeUnfold(c: Ctx, i: nat, dot: nat, m: nat, open: nat, s: nat, comma: nat)
    requires Stream(c.toks) && i < |c.toks| && c.toks[i].kind == Name && IsTexture(c.env, c.toks[i].word)
    requires dot == NextPos(c.toks, i) && c.toks[dot].word == Dot && m == NextPos(c.toks, dot)
    requires SampleCall(c.toks[m].word, TextureType(c.env, c.toks[i].word)).Some?
    requires open == NextPos(c.toks, m) && c.toks[open].word == LParen
    ensures var call := SampleCall(c.toks[m].word, TextureType(c.env, c.toks[i].word)).value;
            && (c.toks[m].word == LoadName ==> TextureShape(c, i) == Some((call, None, NextPos(c.toks, open))))
            && (c.toks[m].word != LoadName && s == NextPos(c.toks, open) && comma == NextPos(c.toks, s)
                && c.toks[s].kind != End && c.toks[s].word in c.env.samplers && c.toks[comma].word == Comma ==>
                  TextureShape(c, i)
                  == Some((call, FindSampler(c.env.samplers, c.toks[s].word), NextPos(c.toks, comma))))
  {
    hide TypeName, Renamed, Stream, NextPos, TextureType, FindSampler, SampleCall;
  }

  /** The cursor finds the dot, the method, the bracket and the sampler over any whitespace. */
  lemma ShapeOf(c: Ctx, i: nat, it: Item)
    requires Stream(c.toks) && it.Sampling? && SamplingAt(c.toks, i, it) && HeadEnd(i, it) < |c.toks|
    requires White(it.ws0) && White(it.ws1) && White(it.ws2) && WfSampling(c.env, it.tex, it.texMethod, it.sampler)
    ensures var call := SampleCall(it.texMethod, TextureType(c.env, it.tex)).value;
            var id := if it.sampler.None? then None else FindSampler(c.env.samplers, it.sampler.value.name);
            TextureShape(c, i) == Some((call, id, NextPos(c.toks, HeadEnd(i, it))))
  {
    hide TypeName, Renamed, Stream, NextPos, At, TextureType, FindSampler, SampleCall, White, TextureShape, SamplingAt,
         HeadEnd;
    if it.sampler.Some? {
      SamplerShapeOf(c, i, it);
    } else {
      LoadShapeOf(c, i, it);
    }
  }

  lemma LoadShapeOf(c: Ctx, i: nat, it: Item)
    requires Stream(c.toks) && it.Sampling? && it.sampler.None? && SamplingAt(c.toks, i, it)
    requires White(it.ws0) && White(it.ws1) && White(it.ws2) && WfSampling(c.env, it.tex, it.texMethod, it.sampler)
    ensures HeadEnd(i, it) < |c.toks|
    ensures var call := SampleCall(it.texMethod, TextureType(c.env, it.tex)).value;
            TextureShape(c, i) == Some((call, None, NextPos(c.toks, HeadEnd(i, it))))
  {
    hide TypeName, Renamed, Stream, NextPos, At, TextureType, FindSampler, SampleCall, White, TextureShape;
    var dot := i + 1 + |it.ws0|;
    var m := dot + 1 + |it.ws1|;
    MethodStep(c, i, it);
    ShapeUnfold(c, i, dot, m, m + 1 + |it.ws2|, 0, 0);
  }

  lemma SamplerShapeOf(c: Ctx, i: nat, it: Item)
    requires Stream(c.toks) && it.Sampling? && it.sampler.Some? && SamplingAt(c.toks, i, it)
    requires White(it.ws0) && White(it.ws1) && White(it.ws2) && WfSampling(c.env, it.tex, it.texMethod, it.sampler)
    ensures HeadEnd(i, it) < |c.toks|
    ensures var call := SampleCall(it.texMethod, TextureType(c.env, it.tex)).value;
            TextureShape(c, i)
            == Some((call, FindSampler(c.env.samplers, it.sampler.value.name), NextPos(c.toks, HeadEnd(i, it))))
  {
    hide TypeName, Renamed, Stream, NextPos, At, TextureType, FindSampler, SampleCall, White, TextureShape;
    var dot := i + 1 + |it.ws0|;
    var m := dot + 1 + |it.ws1|;
    var open := m + 1 + |it.ws2|;
    MethodStep(c, i, it);
    SamplerStep(c, open, it.sampler.value);
    ShapeUnfold(c, i, dot, m, open, open + 1 + |it.sampler.value.before|, HeadEnd(i, it));
  }

  lemma MethodStep(c: Ctx, i: nat, it: Item)
    requires Stream(c.toks) && it.Sampling? && SamplingAt(c.toks, i, it)
    requires White(it.ws0) && White(it.ws1) && White(it.ws2)
    ensures var dot := i + 1 + |it.ws0|;
            var name := dot + 1 + |it.ws1|;
            NextPos(c.toks, i) == dot && NextPos(c.toks, dot) == name && NextPos(c.toks, name) == name + 1 + |it.ws2|
  {
    hide Stream, NextPos, At, White;
    StepOver(c.toks, i, it.ws0);
    StepOver(c.toks, i + 1 + |it.ws0|, it.ws1);
    StepOver(c.toks, i + 2 + |it.ws0| + |it.ws1|, it.ws2);
  }

  lemma SamplerStep(c: Ctx, open: nat, s: SamplerArg)
    requires Stream(c.toks) && White(s.before) && White(s.after)
    requires var k := open + 1 + |s.before|;
             && k + 1 + |s.after| < |c.toks| && c.toks[open] == Open && At(c.toks, open + 1, s.before)
             && c.toks[k] == Ident(s.name) && At(c.toks, k + 1, s.after) && c.toks[k + 1 + |s.after|] == CommaTok
    ensures var k := open + 1 + |s.before|;
            NextPos(c.toks, open) == k && NextPos(c.toks, k) == k + 1 + |s.after|
  {
    hide Stream, NextPos, At, White;
    StepOver(c.toks, open, s.before);
    StepOver(c.toks, open + 1 + |s.before|, s.after);
  }

  lemma HeadShape(toks: seq<Token>, i: nat, it: Item)
    requires it.Sampling? && At(toks, i, SamplingHead(it))
    ensures SamplingAt(toks, i, it)
  {
    hide At, PrintSampler;
    var h1 := [Ident(it.tex)] + it.ws0 + [DotTok];
    var h3 := h1 + it.ws1 + [Ident(it.texMethod)] + it.ws2 + [Open];
    AtSplit(toks, i, h3, PrintSampler(it.sampler));
    TokenShape(toks, i, h1 + it.ws1 + [Ident(it.texMethod)], it.ws2, Open);
    TokenShape(toks, i, h1, it.ws1, Ident(it.texMethod));
    TokenShape(toks, i, [Ident(it.tex)], it.ws0, DotTok);
    AtOne(toks, i, Ident(it.tex));
    if it.sampler.Some? {
      SamplerShape(toks, i + |h3|, it.sampler.value);
    }
  }

  lemma SamplerShape(toks: seq<Token>, i: nat, s: SamplerArg)
    requires At(toks, i, PrintSampler(Some(s)))
    ensures var k := i + |s.before|;
            && k + 1 + |s.after| < |toks| && At(toks, i, s.before) && toks[k] == Ident(s.name)
            && At(toks, k + 1, s.after) && toks[k + 1 + |s.after|] == CommaTok
  {
    hide At;
    TokenShape(toks, i, s.before + [Ident(s.name)], s.after, CommaTok);
    AtSplit(toks, i, s.before, [Ident(s.name)]);
    AtOne(toks, i + |s.before|, Ident(s.name));
  }

  /**
   * A whole function body: from its "{" the writer emits the translation of the tree, stops on
   * the matching "}", and everything it needed was inside the brackets.
   */
  lemma {:induction false} FunctionBody(c: Ctx, i: nat, body: seq<Item>, st: State)
    requires Stream(c.toks) && At(c.toks, i, PrintItem(Group(true, body))) && Wf(c.env, body)
    ensures Contents(c, i, RBrace, st)
         == Out(i + |PrintItem(Group(true, body))| - 1, WriteItems(c.env, body, st.Emit([Punct(LBrace)])))
  {
    hide Contents, Loop, Step, Print, Wf, WriteItems;
    var o, d := Punct(LBrace), Punct(RBrace);
    AtSplit(c.toks, i, [o] + Print(body), [d]);
    AtSplit(c.toks, i, [o], Print(body));
    AtOne(c.toks, i, o);
    AtOne(c.toks, i + 1 + |Print(body)|, d);
    ContentsOpens(c, i, RBrace, st);
    BodyTo(c, i + 1, body, d, st.Emit([o]));
  }
}

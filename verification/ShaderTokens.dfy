/** Tokens produced by the C-family lexer, and the cursor step shared by every reader. */
module ShaderTokens {

  /** `End` is the sentinel that terminates every token array (CFTOKEN_NONE). */
  datatype Kind = End | Name | Num | Space | Newline | Str | Other

  /**
   * The text of a token. Spellings that readers compare against or emit have a constructor of
   * their own; `Spelled` is any other text and `SinCosVar(n)` is "sincos_var_internal_<n>".
   */
  datatype Word =
    | Nothing
    | LParen | RParen | LBrace | RBrace | Comma | Dot | Semicolon | Equals | Plus | Minus | Star | Slash
    | MulName | MadName | SaturateName | SinCosName
    | Atan2Name | DdxName | DdyName | FmodName | FracName | LerpName | RsqrtName
    | ClampName | MixName | ModName
    | SampleName | SampleBiasName | SampleGradName | SampleLevelName | LoadName
    | SinCosVar(n: nat)
    | Spelled(text: string)

  datatype Token = Token(kind: Kind, word: Word)

  function Punct(w: Word): Token { Token(Other, w) }

  function Ident(w: Word): Token { Token(Name, w) }

  const Blank := Token(Space, Spelled(" "))

  predicate IsWhite(t: Token) { t.kind == Space || t.kind == Newline }

  /** The sentinel is the only token without text. */
  predicate WellFormed(t: Token) { t.kind == End <==> t.word == Nothing }

  /** What the lexer hands over: a non-empty array that ends with the sentinel. */
  predicate Stream(toks: seq<Token>) {
    && |toks| > 0
    && toks[|toks| - 1].kind == End
    && forall i :: 0 <= i < |toks| ==> WellFormed(toks[i])
  }

  /** First position at or after `i` that holds no whitespace. */
  function SkipWhite(toks: seq<Token>, i: nat): (j: nat)
    requires Stream(toks) && i < |toks|
    ensures i <= j < |toks| && !IsWhite(toks[j])
    ensures forall k :: i <= k < j ==> IsWhite(toks[k])
    decreases |toks| - i
  {
    if IsWhite(toks[i]) then SkipWhite(toks, i + 1) else i
  }

  /** The cursor step: leave the current token, then skip whitespace; stays put on the sentinel. */
  function NextPos(toks: seq<Token>, i: nat): (j: nat)
    requires Stream(toks) && i < |toks|
    ensures i <= j < |toks| && !IsWhite(toks[j])
    ensures toks[i].kind != End ==> i < j
  {
    if toks[i].kind == End then i
    else if IsWhite(toks[i]) then SkipWhite(toks, i)
    else SkipWhite(toks, i + 1)
  }

  /** Whitespace between two positions does not matter to the cursor step. */
  lemma {:induction false} SkipRun(toks: seq<Token>, i: nat, j: nat)
    requires Stream(toks) && i <= j < |toks|
    requires forall k :: i <= k < j ==> IsWhite(toks[k])
    requires !IsWhite(toks[j])
    ensures SkipWhite(toks, i) == j
    decreases j - i
  {
    if i < j { SkipRun(toks, i + 1, j); }
  }
}

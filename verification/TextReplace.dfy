/**
 * Replacing names in text, one name after the other, and what becomes of an identifier when the
 * names all begin with one of two stems that occur nowhere else in them.
 */
module TextReplace {

  predicate Occurs(find: string, s: string) { exists i :: 0 <= i <= |s| && find <= s[i..] }

  /** Replaces occurrences from left to right. */
  function ReplaceAll(s: string, find: string, replacement: string): string
    requires find != ""
  {
    if s == "" then ""
    else if find <= s then replacement + ReplaceAll(s[|find|..], find, replacement)
    else [s[0]] + ReplaceAll(s[1..], find, replacement)
  }

  /** Replaces the names from the `k`-th on, in order. */
  function RenameFrom(s: string, before: seq<string>, after: seq<string>, k: nat): string
    requires |before| == |after| && k <= |before| && forall i :: 0 <= i < |before| ==> before[i] != ""
    decreases |before| - k
  {
    if k == |before| then s else RenameFrom(ReplaceAll(s, before[k], after[k]), before, after, k + 1)
  }

  lemma {:induction false} NothingToReplace(s: string, find: string, replacement: string)
    requires find != "" && !Occurs(find, s)
    ensures ReplaceAll(s, find, replacement) == s
  {
    if s != "" {
      assert s[0..] == s;
      assert !Occurs(find, s[1..]) by {
        assert forall i :: 0 <= i <= |s| - 1 ==> s[1..][i..] == s[i + 1..];
      }
      NothingToReplace(s[1..], find, replacement);
    }
  }

  /** A text that begins with the name has that part replaced; the rest stays if the name is not in it. */
  lemma {:induction false} PrefixReplaced(s: string, name: string, replacement: string)
    requires name != "" && name <= s && !Occurs(name, s[|name|..])
    ensures ReplaceAll(s, name, replacement) == replacement + s[|name|..]
  {
    NothingToReplace(s[|name|..], name, replacement);
  }

  function Join(parts: seq<string>, sep: string): string
    requires parts != []
  {
    if |parts| == 1 then parts[0] else parts[0] + sep + Join(parts[1..], sep)
  }

  /** Reading on from inside `p`, the name is met no earlier than behind it. */
  predicate NotBefore(p: string, name: string) { forall j :: 0 <= j < |p| ==> !(name <= (p + name)[j..]) }

  /** Every occurrence is replaced: pieces joined by the name become the same pieces joined by its replacement. */
  lemma {:induction false} JoinReplaced(parts: seq<string>, name: string, replacement: string)
    requires parts != [] && name != "" && !Occurs(name, parts[|parts| - 1])
    requires forall i :: 0 <= i < |parts| - 1 ==> NotBefore(parts[i], name)
    ensures ReplaceAll(Join(parts, name), name, replacement) == Join(parts, replacement)
    decreases |parts|
  {
    hide Occurs, NotBefore, ReplaceAll;
    if |parts| == 1 {
      NothingToReplace(parts[0], name, replacement);
    } else {
      var rest := Join(parts[1..], name);
      JoinReplaced(parts[1..], name, replacement);
      FirstReplaced(parts[0], rest, name, replacement);
    }
  }

  lemma {:induction false} FirstReplaced(p: string, rest: string, name: string, replacement: string)
    requires name != "" && NotBefore(p, name)
    ensures ReplaceAll(p + name + rest, name, replacement) == p + replacement + ReplaceAll(rest, name, replacement)
    decreases |p|
  {
    var s := p + name + rest;
    if p == "" {
      assert s == name + rest && s[|name|..] == rest;
    } else {
      NotYet(p, rest, name);
      assert s[1..] == p[1..] + name + rest && s[0] == p[0];
      assert NotBefore(p[1..], name) by {
        forall j | 0 <= j < |p| - 1 ensures !(name <= (p[1..] + name)[j..]) {
          assert (p[1..] + name)[j..] == (p + name)[j + 1..];
        }
      }
      FirstReplaced(p[1..], rest, name, replacement);
      assert [p[0]] + (p[1..] + replacement + ReplaceAll(rest, name, replacement)) == p + replacement + ReplaceAll(rest, name, replacement);
    }
  }

  lemma {:induction false} NotYet(p: string, rest: string, name: string)
    requires p != "" && NotBefore(p, name)
    ensures !(name <= p + name + rest)
  {
    assert (p + name)[0..] == p + name;
    PrefixOfLonger(name, p + name, rest);
  }

  lemma {:induction false} PrefixOfLonger(name: string, a: string, b: string)
    requires |name| <= |a|
    ensures name <= a + b <==> name <= a
  {
    assert (a + b)[..|name|] == a[..|name|];
  }

  lemma {:induction false} Untouched(s: string, before: seq<string>, after: seq<string>, j: nat, k: nat)
    requires |before| == |after| && j <= k <= |before| && forall i :: 0 <= i < |before| ==> before[i] != ""
    requires forall i :: j <= i < k ==> !Occurs(before[i], s)
    ensures RenameFrom(s, before, after, j) == RenameFrom(s, before, after, k)
    decreases k - j
  {
    hide ReplaceAll, Occurs;
    if j < k {
      NothingToReplace(s, before[j], after[j]);
      Untouched(s, before, after, j + 1, k);
    }
  }

  // ----- Numbers in decimal

  const Digits := "0123456789"

  predicate IsDigit(c: char) { '0' <= c <= '9' }

  function Decimal(n: nat): (s: string)
    ensures |s| > 0 && forall i :: 0 <= i < |s| ==> IsDigit(s[i])
  {
    if n < 10 then [Digits[n]] else Decimal(n / 10) + [Digits[n % 10]]
  }

  lemma {:induction false} DecimalInjective(m: nat, n: nat)
    requires Decimal(m) == Decimal(n)
    ensures m == n
  {
    DigitsDiffer(m % 10, n % 10);
    LastDigit(m);
    LastDigit(n);
    if m >= 10 && n >= 10 {
      var s, t := Decimal(m / 10), Decimal(n / 10);
      assert s == (s + [Digits[m % 10]])[..|s|] == (t + [Digits[n % 10]])[..|t|] == t;
      DecimalInjective(m / 10, n / 10);
    }
  }

  lemma {:induction false} LastDigit(n: nat)
    ensures Decimal(n)[|Decimal(n)| - 1] == Digits[n % 10]
    ensures n >= 10 ==> |Decimal(n)| > 1
    ensures n < 10 ==> |Decimal(n)| == 1
  {
  }

  lemma {:induction false} DigitsDiffer(a: nat, b: nat)
    requires a < 10 && b < 10
    ensures Digits[a] == Digits[b] ==> a == b
  {
  }

  // ----- Stems

  const InputStem := "inputval"
  const OutputStem := "outputval"

  predicate Begins(s: string, q: nat) { q <= |s| && (InputStem <= s[q..] || OutputStem <= s[q..]) }

  /** No stem anywhere. */
  predicate Free(s: string) { forall q :: 0 <= q <= |s| ==> !Begins(s, q) }

  /** A stem at the start and nowhere else. */
  predicate Regular(s: string) { Begins(s, 0) && forall q :: 0 < q <= |s| ==> !Begins(s, q) }

  /** What all stems have in common: letters only, and a "va" in the middle. */
  predicate StemLike(t: string) {
    && (forall i :: 0 <= i < |t| ==> t[i] != '_' && !IsDigit(t[i]))
    && exists p :: 0 <= p < |t| - 1 && t[p] == 'v' && t[p + 1] == 'a'
  }

  lemma {:induction false} StemsAreLike()
    ensures StemLike(InputStem) && StemLike(OutputStem) && |InputStem| == 8 && |OutputStem| == 9
  {
    assert InputStem[5] == 'v' && InputStem[5 + 1] == 'a';
    assert OutputStem[6] == 'v' && OutputStem[6 + 1] == 'a';
  }

  lemma {:induction false} BeginsAt(s: string, q: nat, t: string)
    requires q <= |s| && t <= s[q..]
    ensures q + |t| <= |s| && forall p :: q <= p < q + |t| ==> s[p] == t[p - q]
  {
    forall p | q <= p < q + |t| ensures s[p] == t[p - q] { assert s[q..][p - q] == s[p]; }
  }

  lemma {:induction false} PrefixFrom(s: string, q: nat, t: string)
    requires q + |t| <= |s| && forall p :: q <= p < q + |t| ==> s[p] == t[p - q]
    ensures t <= s[q..]
  {
    assert s[q..][..|t|] == t;
  }

  /** A name with a stem at its start occurs only where a stem begins. */
  lemma {:induction false} OccursAtStem(name: string, s: string)
    requires Regular(name) && forall q :: 0 <= q <= |s| ==> !Begins(s, q)
    ensures !Occurs(name, s)
  {
    assert name[0..] == name;
    forall i | 0 <= i <= |s| ensures !(name <= s[i..]) {
      if name <= s[i..] { StemCarries(name, s, i); }
    }
  }

  lemma {:induction false} StemCarries(name: string, s: string, i: nat)
    requires Begins(name, 0) && i <= |s| && name <= s[i..]
    ensures Begins(s, i)
  {
    assert name[0..] == name;
  }

  /** Two parts without stems, joined by anything no stem contains, have none. */
  lemma {:induction false} JoinHasNoStem(a: string, c: char, b: string, t: string, q: nat)
    requires StemLike(t) && (c == '_' || IsDigit(c)) && q <= |a + [c] + b| && t <= (a + [c] + b)[q..]
    ensures (q + |t| <= |a| && t <= a[q..]) || (q > |a| && t <= b[q - |a| - 1..])
  {
    var s := a + [c] + b;
    BeginsAt(s, q, t);
    assert s[|a|] == c;
    if q + |t| <= |a| {
      forall p | q <= p < q + |t| ensures a[p] == t[p - q] { assert a[p] == s[p]; }
      PrefixFrom(a, q, t);
    } else if q > |a| {
      var r := q - |a| - 1;
      forall p | r <= p < r + |t| ensures b[p] == t[p - r] { assert b[p] == s[p + |a| + 1]; }
      PrefixFrom(b, r, t);
    }
  }

  lemma {:induction false} BeginsJoin(a: string, c: char, b: string, q: nat)
    requires (c == '_' || IsDigit(c)) && Begins(a + [c] + b, q)
    ensures (q + 8 <= |a| && Begins(a, q)) || (q > |a| && Begins(b, q - |a| - 1))
  {
    StemsAreLike();
    var s := a + [c] + b;
    if InputStem <= s[q..] {
      JoinHasNoStem(a, c, b, InputStem, q);
    } else {
      JoinHasNoStem(a, c, b, OutputStem, q);
    }
  }

  lemma {:induction false} FreeJoin(a: string, b: string)
    requires Free(a) && Free(b)
    ensures Free(a + "_" + b)
  {
    forall q | 0 <= q <= |a + "_" + b| ensures !Begins(a + "_" + b, q) {
      if Begins(a + "_" + b, q) { BeginsJoin(a, '_', b, q); }
    }
  }

  /** A stem, an underscore and a free text make a regular name. */
  lemma {:induction false} StemmedRegular(stem: string, b: string)
    requires (stem == InputStem || stem == OutputStem) && Free(b)
    ensures Regular(stem + "_" + b)
  {
    StemsAreLike();
    var s := stem + "_" + b;
    PrefixFrom(s, 0, stem);
    forall q | 0 < q <= |s| ensures !Begins(s, q) {
      if Begins(s, q) {
        BeginsJoin(stem, '_', b, q);
        if q <= |stem| { NoInnerStem(); }
      }
    }
  }

  lemma {:induction false} NoInnerStem()
    ensures Regular(OutputStem)
  {
    StemsAreLike();
    assert OutputStem[0..] == OutputStem;
    forall q | 0 < q <= |OutputStem| ensures !Begins(OutputStem, q) {
      if q == 1 { assert OutputStem[1..][0] == 'u'; }
    }
  }

  /** Texts in which every 'v' is followed by an 'e', like the numbered names, hold no stem. */
  predicate NoVa(s: string) { forall i :: 0 <= i < |s| && s[i] == 'v' ==> i + 1 < |s| && s[i + 1] == 'e' }

  lemma {:induction false} NoVaFree(s: string)
    requires NoVa(s)
    ensures Free(s)
  {
    StemsAreLike();
    forall q | 0 <= q <= |s| ensures !Begins(s, q) {
      if InputStem <= s[q..] { VaOccurs(s, q, InputStem); }
      if OutputStem <= s[q..] { VaOccurs(s, q, OutputStem); }
    }
  }

  lemma {:induction false} VaOccurs(s: string, q: nat, t: string)
    requires StemLike(t) && q <= |s| && t <= s[q..]
    ensures !NoVa(s)
  {
    BeginsAt(s, q, t);
    var p :| 0 <= p < |t| - 1 && t[p] == 'v' && t[p + 1] == 'a';
    assert s[q + p] == t[p] && s[q + p + 1] == t[p + 1];
  }

  /** A numbered name with the rest of another name behind it holds no stem either. */
  lemma {:induction false} NumberedTailFree(name: string, tail: string)
    requires |name| > 0 && IsDigit(name[|name| - 1]) && Free(name) && Free(tail)
    ensures Free(name + tail)
  {
    var n := |name| - 1;
    assert name + tail == name[..n] + [name[n]] + tail;
    forall q | 0 <= q <= |name + tail| ensures !Begins(name + tail, q) {
      if Begins(name + tail, q) {
        BeginsJoin(name[..n], name[n], tail, q);
        if q + 8 <= n { ShorterBegins(name, n, q); }
      }
    }
  }

  lemma {:induction false} ShorterBegins(s: string, n: nat, q: nat)
    requires q <= n <= |s| && Begins(s[..n], q)
    ensures Begins(s, q)
  {
    var t := if InputStem <= s[..n][q..] then InputStem else OutputStem;
    BeginsAt(s[..n], q, t);
    PrefixFrom(s, q, t);
  }

  // ----- What an identifier becomes

  /** Names to be replaced, and the numbered names that replace them. */
  predicate Renaming(before: seq<string>, after: seq<string>) {
    && |before| == |after|
    && (forall i :: 0 <= i < |before| ==> before[i] != "" && Regular(before[i]))
    && (forall i :: 0 <= i < |after| ==> |after[i]| > 0 && IsDigit(after[i][|after[i]| - 1]) && Free(after[i]))
  }

  /** The first name that the `k`-th begins with. */
  function FirstPrefix(before: seq<string>, k: nat, start: nat): (i: nat)
    requires start <= k < |before|
    ensures start <= i <= k && before[i] <= before[k] && forall j :: start <= j < i ==> !(before[j] <= before[k])
    decreases k - start
  {
    if before[start] <= before[k] then start else FirstPrefix(before, k, start + 1)
  }

  /** The text an identifier ends with: the number of the first name it begins with, and its own tail. */
  lemma {:induction false} FinalText(before: seq<string>, after: seq<string>, k: nat, i: nat)
    requires Renaming(before, after) && i <= k < |before| && before[i] <= before[k]
    requires forall j :: 0 <= j < i ==> !(before[j] <= before[k])
    ensures RenameFrom(before[k], before, after, 0) == after[i] + before[k][|before[i]|..]
  {
    hide ReplaceAll, Regular, Occurs, Free;
    var s, tail := before[k], before[k][|before[i]|..];
    forall j | 0 <= j < i ensures !Occurs(before[j], s) { OnlyAsPrefix(before[j], s); }
    Untouched(s, before, after, 0, i);
    TailFree(s, |before[i]|);
    NotInFree(before[i], tail);
    PrefixReplaced(s, before[i], after[i]);
    NumberedTailFree(after[i], tail);
    forall j | i < j < |before| ensures !Occurs(before[j], after[i] + tail) { NotInFree(before[j], after[i] + tail); }
    Untouched(after[i] + tail, before, after, i + 1, |before|);
  }

  lemma {:induction false} NotInFree(name: string, s: string)
    requires Regular(name) && Free(s)
    ensures !Occurs(name, s)
  {
    OccursAtStem(name, s);
  }

  lemma {:induction false} OnlyAsPrefix(name: string, s: string)
    requires Regular(name) && Regular(s) && !(name <= s)
    ensures !Occurs(name, s)
  {
    assert s[0..] == s;
    forall i | 0 <= i <= |s| ensures !(name <= s[i..]) {
      if name <= s[i..] { StemCarries(name, s, i); }
    }
  }

  lemma {:induction false} TailFree(s: string, n: nat)
    requires Regular(s) && 0 < n <= |s|
    ensures Free(s[n..])
  {
    forall q | 0 <= q <= |s[n..]| ensures !Begins(s[n..], q) {
      assert s[n..][q..] == s[n + q..] && !Begins(s, n + q);
    }
  }

  /**
   * Exactly when an identifier ends as its own numbered name: no earlier name is a prefix of it, or
   * the number of the first such name followed by the tail happens to spell it.
   */
  lemma {:induction false} RenamedExactly(before: seq<string>, after: seq<string>, k: nat)
    requires Renaming(before, after) && k < |before|
    ensures var i := FirstPrefix(before, k, 0);
            && RenameFrom(before[k], before, after, 0) == after[i] + before[k][|before[i]|..]
            && (RenameFrom(before[k], before, after, 0) == after[k]
                <==> (forall j :: 0 <= j < k ==> !(before[j] <= before[k])) || after[i] + before[k][|before[i]|..] == after[k])
  {
    var i := FirstPrefix(before, k, 0);
    FinalText(before, after, k, i);
    if forall j :: 0 <= j < k ==> !(before[j] <= before[k]) {
      assert i == k && before[k][|before[k]|..] == "" && after[k] + "" == after[k];
    }
  }
}

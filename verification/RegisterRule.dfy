/**
 * The shader compiler's own rule for constant registers, in which every array starts a register and
 * each of its elements starts one too, against the positions the code computes for whole arrays.
 */
module RegisterRule {
  import opened Wrappers
  import opened ConstantBuffer

  predicate IsArray(p: Param) { p.arrayCount > 0 }

  /** Elements of an array stand a whole number of registers apart. */
  function RuleSize(p: Param): nat {
    if IsArray(p) && ElementSize(p.ty) <= 16 then 16 * (p.arrayCount - 1) + ElementSize(p.ty) else Size(p)
  }

  /** Arrays start a register; anything else goes to the least place that is legal for it. */
  function RuleStart(p: Param, at: nat): nat { if IsArray(p) then AlignUp(at) else Place(Size(p), at) }

  function RuleEnd(ps: seq<Param>): nat {
    if ps == [] then 0
    else
      var at, p := RuleEnd(ps[..|ps| - 1]), ps[|ps| - 1];
      if IsConstant(p) then RuleStart(p, at) + RuleSize(p) else at
  }

  /** The code puts this constant where the compiler expects it. */
  predicate AgreesAt(ps: seq<Param>, i: nat)
    requires i < |ps|
  {
    IsConstant(ps[i]) ==> Place(Size(ps[i]), End(ps[..i])) == RuleStart(ps[i], RuleEnd(ps[..i]))
  }

  predicate Agree(ps: seq<Param>) { forall i :: 0 <= i < |ps| ==> AgreesAt(ps, i) }

  // ----- A condition on the code's own positions

  function LastConstant(ps: seq<Param>): (r: Option<Param>)
    ensures r.Some? ==> IsConstant(r.value)
  {
    if ps == [] then None
    else if IsConstant(ps[|ps| - 1]) then Some(ps[|ps| - 1])
    else LastConstant(ps[..|ps| - 1])
  }

  /** An array that the code packs tighter than the compiler does. */
  predicate Tight(p: Param) { p.arrayCount >= 2 && ElementSize(p.ty) < 16 }

  predicate StartsRegister(size: nat, at: nat) { at % 16 == 0 || size + at > AlignUp(at) }

  /**
   * An array must come to start a register by itself. Right after a tight array the gap to the
   * compiler's position closes only if that array is two or three triples and the next constant
   * does not fit into the register where it ends.
   */
  predicate Fits(before: Option<Param>, p: Param, at: nat) {
    if before.Some? && Tight(before.value)
    then before.value.ty == Triple && before.value.arrayCount <= 3 && Size(p) + at > AlignUp(at)
    else IsArray(p) ==> StartsRegister(Size(p), at)
  }

  predicate FitsAt(ps: seq<Param>, i: nat)
    requires i < |ps|
  {
    IsConstant(ps[i]) ==> Fits(LastConstant(ps[..i]), ps[i], End(ps[..i]))
  }

  // ----- One constant

  lemma {:induction false} SameSize(p: Param)
    requires IsConstant(p)
    ensures RuleSize(p) == Size(p) <==> !Tight(p)
  {
  }

  /** Where both agree on all so far, the last constant stands at the same place for both. */
  ghost predicate Aligned(before: Option<Param>, at: nat, ruleAt: nat, s: nat) {
    match before
    case None => at == ruleAt == 0
    case Some(q) => at == s + Size(q) && ruleAt == s + RuleSize(q) && (IsArray(q) ==> s % 16 == 0)
  }

  lemma {:induction false} StepIff(before: Option<Param>, p: Param, at: nat, ruleAt: nat, s: nat)
    requires IsConstant(p) && (before.Some? ==> IsConstant(before.value)) && Aligned(before, at, ruleAt, s)
    ensures Place(Size(p), at) == RuleStart(p, ruleAt) <==> Fits(before, p, at)
  {
    if before.Some? && Tight(before.value) {
      AfterTight(before.value, p, s);
    } else {
      if before.Some? { SameSize(before.value); }
      SameStart(p, at);
    }
  }

  lemma {:induction false} SameStart(p: Param, at: nat)
    requires IsConstant(p)
    ensures Place(Size(p), at) == RuleStart(p, at) <==> (IsArray(p) ==> StartsRegister(Size(p), at))
  {
    hide Size;
    assert at % 16 == 0 <==> AlignUp(at) == at;
  }

  lemma {:induction false} AfterTight(q: Param, p: Param, s: nat)
    requires IsConstant(q) && Tight(q) && IsConstant(p) && s % 16 == 0
    ensures var at := s + Size(q);
            Place(Size(p), at) == RuleStart(p, s + RuleSize(q))
            <==> q.ty == Triple && q.arrayCount <= 3 && Size(p) + at > AlignUp(at)
  {
    var at, ruleAt := s + Size(q), s + RuleSize(q);
    if q.ty == Triple && q.arrayCount <= 3 {
      SameRegister(q, s);
      AfterTriples(p, at, ruleAt);
    } else {
      TooFarBack(q, s);
      assert Place(Size(p), at) <= AlignUp(at) < ruleAt <= RuleStart(p, ruleAt);
    }
  }

  lemma {:induction false} SameRegister(q: Param, s: nat)
    requires q.ty == Triple && 2 <= q.arrayCount <= 3 && s % 16 == 0
    ensures var at, ruleAt := s + Size(q), s + RuleSize(q);
            at < ruleAt < AlignUp(at) && AlignUp(ruleAt) == AlignUp(at) && at % 16 != 0 && ruleAt % 16 != 0
  {
  }

  lemma {:induction false} AfterTriples(p: Param, at: nat, ruleAt: nat)
    requires IsConstant(p) && at < ruleAt < AlignUp(at) && AlignUp(ruleAt) == AlignUp(at) && at % 16 != 0 && ruleAt % 16 != 0
    ensures Place(Size(p), at) == RuleStart(p, ruleAt) <==> Size(p) + at > AlignUp(at)
  {
    hide Size, AlignUp;
  }

  lemma {:induction false} TooFarBack(q: Param, s: nat)
    requires IsConstant(q) && Tight(q) && s % 16 == 0 && !(q.ty == Triple && q.arrayCount <= 3)
    ensures AlignUp(s + Size(q)) < s + RuleSize(q)
  {
    var n := q.arrayCount;
    match q.ty
    case Scalar => assert Size(q) == 4 * n;
    case Pair => assert Size(q) == 8 * n;
    case Triple => assert Size(q) == 12 * n;
    case _ =>
  }

  // ----- All of them

  lemma {:induction false} EndsAligned(ps: seq<Param>) returns (s: nat)
    requires Agree(ps)
    ensures Aligned(LastConstant(ps), End(ps), RuleEnd(ps), s)
  {
    hide Size, RuleSize, AlignUp;
    s := 0;
    if ps != [] {
      var n := |ps| - 1;
      AgreePrefix(ps, n);
      assert AgreesAt(ps, n);
      if IsConstant(ps[n]) {
        s := Place(Size(ps[n]), End(ps[..n]));
        assert IsArray(ps[n]) ==> s == AlignUp(RuleEnd(ps[..n]));
      } else {
        s := EndsAligned(ps[..n]);
      }
    }
  }

  lemma {:induction false} AgreePrefix(ps: seq<Param>, k: nat)
    requires k <= |ps| && Agree(ps)
    ensures Agree(ps[..k])
  {
    hide AgreesAt;
    forall i | 0 <= i < k ensures AgreesAt(ps[..k], i) {
      assert AgreesAt(ps, i);
      AgreesInPrefix(ps, k, i);
    }
  }

  lemma {:induction false} AgreesInPrefix(ps: seq<Param>, k: nat, i: nat)
    requires i < k <= |ps|
    ensures AgreesAt(ps[..k], i) == AgreesAt(ps, i)
  {
    assert ps[..k][..i] == ps[..i];
  }

  lemma {:induction false} OneMore(ps: seq<Param>, k: nat)
    requires k < |ps| && Agree(ps[..k])
    ensures AgreesAt(ps, k) <==> FitsAt(ps, k)
  {
    hide Fits, Size, RuleSize, RuleStart, Place;
    var s := EndsAligned(ps[..k]);
    if IsConstant(ps[k]) { StepIff(LastConstant(ps[..k]), ps[k], End(ps[..k]), RuleEnd(ps[..k]), s); }
  }

  /** The code's positions are the compiler's exactly when every constant fits as above. */
  lemma {:induction false} PositionsAgreeIff(ps: seq<Param>)
    ensures Agree(ps) <==> forall i :: 0 <= i < |ps| ==> FitsAt(ps, i)
  {
    hide AgreesAt, FitsAt;
    if Agree(ps) {
      forall i | 0 <= i < |ps| ensures FitsAt(ps, i) {
        AgreePrefix(ps, i);
        OneMore(ps, i);
        assert AgreesAt(ps, i);
      }
    }
    if forall i :: 0 <= i < |ps| ==> FitsAt(ps, i) { FitAgrees(ps, |ps|); }
  }

  lemma {:induction false} FitAgrees(ps: seq<Param>, k: nat)
    requires k <= |ps| && forall i :: 0 <= i < |ps| ==> FitsAt(ps, i)
    ensures forall i :: 0 <= i < k ==> AgreesAt(ps, i)
  {
    hide AgreesAt, FitsAt;
    if k > 0 {
      FitAgrees(ps, k - 1);
      var front := ps[..k - 1];
      forall i | 0 <= i < |front| ensures AgreesAt(front, i) { AgreesInPrefix(ps, k - 1, i); }
      OneMore(ps, k - 1);
    }
  }

  /** Without arrays the code computes the compiler's positions. */
  lemma {:induction false} NoArraysAgree(ps: seq<Param>)
    requires forall p :: p in ps ==> !IsArray(p)
    ensures Agree(ps)
  {
    hide Agree, End;
    forall i | 0 <= i < |ps| ensures FitsAt(ps, i) {
      LastIsMember(ps[..i]);
      assert ps[i] in ps && forall p :: p in ps[..i] ==> p in ps;
    }
    PositionsAgreeIff(ps);
  }

  lemma {:induction false} LastIsMember(ps: seq<Param>)
    ensures LastConstant(ps).Some? ==> LastConstant(ps).value in ps
  {
    if ps != [] { LastIsMember(ps[..|ps| - 1]); }
  }

  // ----- Elements of arrays

  /** Bytes from the start of an array to its `k`-th element, for the code and for the compiler. */
  function ElementOffset(p: Param, k: nat): nat { ElementSize(p.ty) * k }

  function RuleElementOffset(p: Param, k: nat): nat { if ElementSize(p.ty) <= 16 then 16 * k else ElementSize(p.ty) * k }

  predicate ElementsAgree(p: Param) {
    forall k :: 0 <= k < p.arrayCount ==> ElementOffset(p, k) == RuleElementOffset(p, k)
  }

  lemma {:induction false} ElementsAgreeIff(p: Param)
    requires IsConstant(p)
    ensures ElementsAgree(p) <==> !Tight(p)
  {
    if p.arrayCount >= 2 {
      assert ElementOffset(p, 1) == ElementSize(p.ty);
      assert ElementsAgree(p) ==> ElementOffset(p, 1) == RuleElementOffset(p, 1);
    }
  }

  /**
   * Every constant and every element of every array stands where the compiler expects it exactly
   * when no array is tight and each comes to start a register by itself.
   */
  lemma {:induction false} LayoutAgreesIff(ps: seq<Param>)
    ensures Agree(ps) && (forall i :: 0 <= i < |ps| && IsConstant(ps[i]) ==> ElementsAgree(ps[i]))
            <==> forall i :: 0 <= i < |ps| && IsConstant(ps[i]) ==>
                   !Tight(ps[i]) && (IsArray(ps[i]) ==> StartsRegister(Size(ps[i]), End(ps[..i])))
  {
    hide Agree, Tight, ElementsAgree, StartsRegister, IsConstant, Size, End;
    PositionsAgreeIff(ps);
    forall i | 0 <= i < |ps| && IsConstant(ps[i]) ensures ElementsAgree(ps[i]) <==> !Tight(ps[i]) { ElementsAgreeIff(ps[i]); }
    if forall j :: 0 <= j < |ps| && IsConstant(ps[j]) ==> !Tight(ps[j]) {
      forall i | 0 <= i < |ps| && IsConstant(ps[i])
        ensures FitsAt(ps, i) <==> (IsArray(ps[i]) ==> StartsRegister(Size(ps[i]), End(ps[..i])))
      {
        LastIsMember(ps[..i]);
      }
    }
  }

  /** An array of three floats after a float: byte 4 for the code, byte 16 for the compiler. */
  lemma {:induction false} FloatThenArray(p: Param, q: Param)
    requires p.ty == q.ty == Scalar && p.arrayCount == 0 && q.arrayCount == 3
    ensures var ps := [p, q]; Place(Size(q), End(ps[..1])) == 4 && RuleStart(q, RuleEnd(ps[..1])) == 16 && !Agree(ps)
  {
    var ps := [p, q];
    assert ps[..1] == [p] && [p][..0] == [];
    assert End([p]) == 4 && RuleEnd([p]) == 4;
    assert !AgreesAt(ps, 1);
  }
}

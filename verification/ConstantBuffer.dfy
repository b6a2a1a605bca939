/**
 * The Direct3D 11 constant buffer: packing of parameters into 16-byte registers, serialization
 * of their values, and the upload that is skipped while no parameter is marked changed.
 */
module ConstantBuffer {

  newtype byte = x: int | 0 <= x < 256

  /** Parameter types by size; string and unknown parameters never reach a constant buffer. */
  datatype ParamType = Scalar | Pair | Triple | Quad | Matrix | Texture

  datatype Param = Param(
    ty: ParamType, arrayCount: nat, pos: nat,
    curValue: seq<byte>, defaultValue: seq<byte>, changed: bool)

  predicate IsConstant(p: Param) { p.ty != Texture }

  function ElementSize(ty: ParamType): nat {
    match ty case Scalar => 4 case Pair => 8 case Triple => 12 case Quad => 16 case Matrix => 64 case Texture => 0
  }

  /** Components of four bytes each, as many as the type has; only textures take no room. */
  lemma {:induction false} ElementSizes(ty: ParamType)
    ensures ElementSize(ty) % 4 == 0 && (ElementSize(ty) == 0 <==> ty == Texture)
    ensures ElementSize(Pair) == 2 * ElementSize(Scalar) && ElementSize(Triple) == 3 * ElementSize(Scalar)
    ensures ElementSize(Quad) == 4 * ElementSize(Scalar) && ElementSize(Matrix) == 4 * ElementSize(Quad) == 64
  {
  }

  function Size(p: Param): (n: nat)
    ensures IsConstant(p) ==> n > 0
  {
    if p.arrayCount > 0 then ElementSize(p.ty) * p.arrayCount else ElementSize(p.ty)
  }

  function AlignUp(n: nat): (m: nat)
    ensures n <= m < n + 16 && m % 16 == 0
  {
    (n + 15) / 16 * 16
  }

  /** Where a constant of `size` bytes goes when the buffer is filled up to `at`. */
  function Place(size: nat, at: nat): (pos: nat)
    ensures at <= pos
  {
    if size > 0 && at % 16 != 0 && size + at > AlignUp(at) then AlignUp(at) else at
  }

  /** End of the buffer once all of `ps` have been placed. */
  function End(ps: seq<Param>): nat {
    if ps == [] then 0
    else
      var at, p := End(ps[..|ps| - 1]), ps[|ps| - 1];
      if IsConstant(p) then Place(Size(p), at) + Size(p) else at
  }

  /** Every constant stands where the packing puts it. */
  predicate Packed(ps: seq<Param>) {
    forall i :: 0 <= i < |ps| && IsConstant(ps[i]) ==> ps[i].pos == Place(Size(ps[i]), End(ps[..i]))
  }

  // ----- The rule for one block of bytes, without the allocator

  /** Small constants stay within one register; larger ones begin a register. */
  predicate Legal(pos: nat, size: nat) {
    size > 0 ==> if size <= 16 then pos / 16 == (pos + size - 1) / 16 else pos % 16 == 0
  }

  lemma PlaceIsLegal(size: nat, at: nat)
    requires size > 0
    ensures Legal(Place(size, at), size)
  {
    var up := AlignUp(at);
    if Place(size, at) == up {
      assert up % 16 == 0;
    } else if size <= 16 && at % 16 != 0 {
      assert at / 16 == (at + size - 1) / 16 by {
        assert up == at / 16 * 16 + 16;
        assert at / 16 * 16 <= at + size - 1 < at / 16 * 16 + 16;
      }
    }
  }

  /** No earlier position would do. */
  lemma PlaceIsLeast(size: nat, at: nat, off: nat)
    requires size > 0 && at <= off && Legal(off, size)
    ensures Place(size, at) <= off
  {
  }

  lemma {:induction false} EndMonotone(ps: seq<Param>, i: nat, j: nat)
    requires i <= j <= |ps|
    ensures End(ps[..i]) <= End(ps[..j])
    decreases j
  {
    if i < j {
      assert ps[..j][..j - 1] == ps[..j - 1];
      EndMonotone(ps, i, j - 1);
    }
  }

  /** Slots are legal, least, in order, disjoint and inside the buffer. */
  lemma {:induction false} PackingSound(ps: seq<Param>, i: nat)
    requires Packed(ps) && i < |ps| && IsConstant(ps[i])
    ensures Legal(ps[i].pos, Size(ps[i]))
    ensures forall off :: End(ps[..i]) <= off && Legal(off, Size(ps[i])) ==> ps[i].pos <= off
    ensures ps[i].pos + Size(ps[i]) <= End(ps)
    ensures forall j :: i < j < |ps| && IsConstant(ps[j]) ==> ps[i].pos + Size(ps[i]) <= ps[j].pos
  {
    var size := Size(ps[i]);
    PlaceIsLegal(size, End(ps[..i]));
    forall off | End(ps[..i]) <= off && Legal(off, size) ensures ps[i].pos <= off {
      PlaceIsLeast(size, End(ps[..i]), off);
    }
    assert ps[..i + 1][..i] == ps[..i];
    EndMonotone(ps, i + 1, |ps|);
    assert ps[..|ps|] == ps;
    forall j | i < j < |ps| && IsConstant(ps[j]) ensures ps[i].pos + size <= ps[j].pos {
      EndMonotone(ps, i + 1, j);
    }
  }

  // ----- Serialization

  function Zeros(n: nat): (z: seq<byte>)
    ensures |z| == n && forall i :: 0 <= i < n ==> z[i] == 0
  {
    seq(n, i => 0)
  }

  /** Pad up to the constant's position, then append its value. */
  function Append(data: seq<byte>, p: Param): seq<byte> {
    if !IsConstant(p) then data
    else (if p.pos > |data| then data + Zeros(p.pos - |data|) else data) + p.curValue
  }

  function Serialize(ps: seq<Param>): seq<byte> {
    if ps == [] then [] else Append(Serialize(ps[..|ps| - 1]), ps[|ps| - 1])
  }

  /** Every constant has a value of its declared size. */
  predicate Sized(ps: seq<Param>) {
    forall i :: 0 <= i < |ps| && IsConstant(ps[i]) ==> |ps[i].curValue| == Size(ps[i])
  }

  lemma {:induction false} SerializeGrows(ps: seq<Param>, i: nat)
    requires i <= |ps|
    ensures Serialize(ps[..i]) <= Serialize(ps)
    decreases |ps|
  {
    if i == |ps| {
      assert ps[..i] == ps;
    } else {
      var front := ps[..|ps| - 1];
      assert front[..i] == ps[..i];
      SerializeGrows(front, i);
    }
  }

  lemma PackedPrefix(ps: seq<Param>, k: nat)
    requires Packed(ps) && Sized(ps) && k <= |ps|
    ensures Packed(ps[..k]) && Sized(ps[..k])
  {
    forall i | 0 <= i < k ensures ps[..k][..i] == ps[..i] { }
  }

  /** With values of the declared sizes, the serialization has exactly the buffer's size. */
  lemma {:induction false} SerializeLength(ps: seq<Param>)
    requires Packed(ps) && Sized(ps)
    ensures |Serialize(ps)| == End(ps)
  {
    if ps != [] {
      var n := |ps| - 1;
      PackedPrefix(ps, n);
      SerializeLength(ps[..n]);
    }
  }

  /** ... and every value lands at its own position. */
  lemma {:induction false} SerializePlaces(ps: seq<Param>, i: nat)
    requires Packed(ps) && Sized(ps) && i < |ps| && IsConstant(ps[i])
    ensures ps[i].pos + Size(ps[i]) <= |Serialize(ps)|
    ensures Serialize(ps)[ps[i].pos..ps[i].pos + Size(ps[i])] == ps[i].curValue
  {
    var p, upTo := ps[i], Serialize(ps[..i + 1]);
    assert ps[..i + 1][..i] == ps[..i];
    PackedPrefix(ps, i);
    SerializeLength(ps[..i]);
    assert upTo == Append(Serialize(ps[..i]), p);
    assert |upTo| == p.pos + Size(p);
    assert upTo[p.pos..] == p.curValue;
    SerializeGrows(ps, i + 1);
    assert Serialize(ps)[..|upTo|] == upTo;
    assert Serialize(ps)[p.pos..|upTo|] == upTo[p.pos..];
  }

  predicate InSlot(ps: seq<Param>, k: int) {
    exists i :: 0 <= i < |ps| && IsConstant(ps[i]) && ps[i].pos <= k < ps[i].pos + |ps[i].curValue|
  }

  /** Bytes outside every slot are zero. */
  lemma {:induction false} PaddingIsZero(ps: seq<Param>, k: nat)
    requires Packed(ps) && Sized(ps) && k < |Serialize(ps)| && !InSlot(ps, k)
    ensures Serialize(ps)[k] == 0
  {
    var n := |ps| - 1;
    var front, p := Serialize(ps[..n]), ps[n];
    PackedPrefix(ps, n);
    SerializeLength(ps[..n]);
    if k < |front| {
      assert forall i :: 0 <= i < n ==> ps[..n][i] == ps[i];
      PaddingIsZero(ps[..n], k);
      SerializeGrows(ps, n);
    } else {
      assert IsConstant(p) && p.pos >= |front| && (k < p.pos || k >= p.pos + |p.curValue|);
    }
  }

  // ----- Marks and values

  predicate AnyChanged(ps: seq<Param>) { exists i :: 0 <= i < |ps| && IsConstant(ps[i]) && ps[i].changed }

  predicate AllSet(ps: seq<Param>) { forall i :: 0 <= i < |ps| && IsConstant(ps[i]) ==> ps[i].curValue != [] }

  /** The same constants with the same values; only their marks may differ. */
  predicate SameConstants(ps: seq<Param>, qs: seq<Param>) {
    |ps| == |qs| && forall i :: 0 <= i < |ps| ==> SameConstant(ps[i], qs[i])
  }

  predicate SameConstant(p: Param, q: Param) {
    IsConstant(p) == IsConstant(q) && (IsConstant(p) ==> q == p.(changed := q.changed))
  }

  lemma {:induction false} SameSerialization(ps: seq<Param>, qs: seq<Param>)
    requires SameConstants(ps, qs)
    ensures Serialize(ps) == Serialize(qs)
    decreases |ps|
  {
    if ps != [] {
      var n := |ps| - 1;
      SameSerialization(ps[..n], qs[..n]);
      assert SameConstant(ps[n], qs[n]);
      assert Append(Serialize(ps[..n]), ps[n]) == Append(Serialize(qs[..n]), qs[n]);
    }
  }

  lemma SameReady(s: State, qs: seq<Param>)
    requires SameConstants(s.params, qs)
    ensures Ready(s) <==> Ready(s.(params := qs))
  {
    SameSerialization(s.params, qs);
    assert forall i :: 0 <= i < |qs| ==> SameConstant(s.params[i], qs[i]);
  }

  function Unmarked(p: Param): Param { if IsConstant(p) then p.(changed := false) else p }

  /** The first `k` constants lose their mark. */
  function ClearMarks(ps: seq<Param>, k: nat): (qs: seq<Param>)
    requires k <= |ps|
    ensures SameConstants(ps, qs)
    ensures forall i :: k <= i < |ps| ==> qs[i] == ps[i]
    ensures forall i :: 0 <= i < k && IsConstant(ps[i]) ==> !qs[i].changed
    ensures forall i :: 0 <= i < k && !IsConstant(ps[i]) ==> qs[i] == ps[i]
  {
    seq(|ps|, i requires 0 <= i < |ps| =>
      if i < k then Unmarked(ps[i]) else ps[i])
  }

  // ----- Steps of a shader's life

  datatype Outcome = Done | Unset | WrongSize | MapFailed

  /**
   * `gpu` is the part of the device buffer the shader reads; `mapFailed` records that the last
   * attempt to write it failed, and `failed` the bytes it was to write.
   */
  datatype State = State(params: seq<Param>, constantSize: nat, gpu: seq<byte>, mapFailed: bool, failed: seq<byte>)

  predicate Ready(s: State) { AllSet(s.params) && |Serialize(s.params)| == s.constantSize }

  /** Index of the first constant without a value. */
  function FirstUnset(ps: seq<Param>): (k: nat)
    requires !AllSet(ps)
    ensures k < |ps| && IsConstant(ps[k]) && ps[k].curValue == [] && AllSet(ps[..k])
  {
    if IsConstant(ps[0]) && ps[0].curValue == [] then 0
    else
      assert !AllSet(ps[1..]) by {
        var i :| 0 <= i < |ps| && IsConstant(ps[i]) && ps[i].curValue == [];
        assert ps[1..][i - 1] == ps[i];
      }
      var k := FirstUnset(ps[1..]);
      assert AllSet(ps[..k + 1]) by {
        forall i | 0 <= i < k + 1 && IsConstant(ps[i]) ensures ps[i].curValue != [] {
          if i > 0 { assert ps[i] == ps[1..][..k][i - 1]; }
        }
      }
      k + 1
  }

  function AfterUpload(s: State, mapOk: bool): State {
    if !AllSet(s.params) then s.(params := ClearMarks(s.params, FirstUnset(s.params)))
    else
      var cleared := s.(params := ClearMarks(s.params, |s.params|));
      if !Ready(s) || !AnyChanged(s.params) then cleared
      else if mapOk then cleared.(gpu := Serialize(s.params), mapFailed := false)
      else cleared.(mapFailed := true, failed := Serialize(s.params))
  }

  function UploadOutcome(s: State, mapOk: bool): Outcome {
    if !AllSet(s.params) then Unset
    else if !Ready(s) then WrongSize
    else if AnyChanged(s.params) && !mapOk then MapFailed
    else Done
  }

  function WithValue(p: Param, data: seq<byte>): Param {
    if p.curValue == data then p else p.(curValue := data, changed := true)
  }

  function WithDefault(p: Param): Param { if p.defaultValue == [] then p else WithValue(p, p.defaultValue) }

  function Rebuilt(p: Param): Param { WithDefault(p.(curValue := [])) }

  function RebuiltAll(ps: seq<Param>): (qs: seq<Param>)
    ensures |qs| == |ps| && forall i :: 0 <= i < |ps| ==> qs[i] == Rebuilt(ps[i])
  {
    seq(|ps|, i requires 0 <= i < |ps| => Rebuilt(ps[i]))
  }

  datatype Op =
    | SetVal(i: nat, data: seq<byte>)
    | SetDefault(i: nat)
    | Upload(mapOk: bool)
    | Rebuild(garbage: seq<byte>)  // contents of the new buffer before its first write

  predicate Allowed(s: State, op: Op) {
    match op
    case SetVal(i, _) => i < |s.params|
    case SetDefault(i) => i < |s.params|
    case Upload(_) => true
    case Rebuild(garbage) => |garbage| == s.constantSize
  }

  function Next(s: State, op: Op): State
    requires Allowed(s, op)
  {
    match op
    case SetVal(i, data) => s.(params := s.params[i := WithValue(s.params[i], data)])
    case SetDefault(i) => s.(params := s.params[i := WithDefault(s.params[i])])
    case Upload(mapOk) => AfterUpload(s, mapOk)
    case Rebuild(garbage) => s.(params := RebuiltAll(s.params), gpu := garbage, mapFailed := false)
  }

  predicate Valid(s: State) {
    && |s.gpu| == s.constantSize
    && ((exists i :: 0 <= i < |s.params| && IsConstant(s.params[i])) || s.constantSize == 0)
  }

  /**
   * If an upload would succeed without writing, the device already holds the current values, or
   * the values are those of the last write, which failed.
   */
  predicate Coherent(s: State) {
    && Valid(s)
    && (Ready(s) && !AnyChanged(s.params) ==> Serialize(s.params) == if s.mapFailed then s.failed else s.gpu)
  }

  predicate AllAllowed(s: State, ops: seq<Op>)
    decreases |ops|
  {
    ops == [] || (Allowed(s, ops[0]) && AllAllowed(Next(s, ops[0]), ops[1..]))
  }

  function Run(s: State, ops: seq<Op>): State
    requires AllAllowed(s, ops)
    decreases |ops|
  {
    if ops == [] then s else Run(Next(s, ops[0]), ops[1..])
  }

  // ----- What every step does

  /** Only the value and the mark of one parameter may differ. */
  predicate OnlyValue(s: State, s': State, i: nat)
    requires i < |s.params|
  {
    && |s'.params| == |s.params| && s' == s.(params := s'.params)
    && (forall j :: 0 <= j < |s.params| && j != i ==> s'.params[j] == s.params[j])
    && s'.params[i] == s.params[i].(curValue := s'.params[i].curValue, changed := s'.params[i].changed)
  }

  /** A set gives the parameter the bytes and marks it if they are new. */
  lemma {:induction false} SetSets(s: State, i: nat, data: seq<byte>)
    requires i < |s.params|
    ensures var s' := Next(s, SetVal(i, data));
            && OnlyValue(s, s', i) && s'.params[i].curValue == data
            && (s'.params[i].changed <==> s.params[i].changed || s.params[i].curValue != data)
  {
  }

  /** A default becomes the value, marked if that is new; without a default nothing happens. */
  lemma {:induction false} DefaultSets(s: State, i: nat)
    requires i < |s.params|
    ensures var s', p := Next(s, SetDefault(i)), s.params[i];
            && OnlyValue(s, s', i)
            && s'.params[i].curValue == (if p.defaultValue == [] then p.curValue else p.defaultValue)
            && (s'.params[i].changed <==> p.changed || (p.defaultValue != [] && p.curValue != p.defaultValue))
  {
  }

  /** After a rebuild every parameter has its default, or no value; whatever has a default is marked. */
  lemma {:induction false} RebuildSetsDefaults(s: State, garbage: seq<byte>)
    requires |garbage| == s.constantSize
    ensures var s' := Next(s, Rebuild(garbage));
            && |s'.params| == |s.params| && s' == s.(params := s'.params, gpu := garbage, mapFailed := false)
            && forall i :: 0 <= i < |s.params| ==>
                 && s'.params[i] == s.params[i].(curValue := s'.params[i].curValue, changed := s'.params[i].changed)
                 && s'.params[i].curValue == s.params[i].defaultValue
                 && (s'.params[i].changed <==> s.params[i].changed || s.params[i].defaultValue != [])
  {
  }

  predicate HasUnset(ps: seq<Param>, n: nat)
    requires n <= |ps|
  {
    exists j :: 0 <= j < n && ps[j].ty != Texture && ps[j].curValue == []
  }

  predicate HasChanged(ps: seq<Param>) { exists j :: 0 <= j < |ps| && ps[j].ty != Texture && ps[j].changed }

  /**
   * What an upload reports and leaves: values stay; marks go up to the first constant without a
   * value, or all of them; the device is written exactly if all goes well and something was marked.
   */
  lemma {:induction false} UploadEffect(s: State, mapOk: bool)
    ensures var o := UploadOutcome(s, mapOk);
            && (o == Unset <==> HasUnset(s.params, |s.params|))
            && (o == WrongSize <==> !HasUnset(s.params, |s.params|) && |Serialize(s.params)| != s.constantSize)
            && (o == MapFailed <==>
                  !HasUnset(s.params, |s.params|) && |Serialize(s.params)| == s.constantSize && HasChanged(s.params) && !mapOk)
    ensures var s', o := Next(s, Upload(mapOk)), UploadOutcome(s, mapOk);
            && |s'.params| == |s.params| && s'.constantSize == s.constantSize
            && s'.gpu == (if o == Done && HasChanged(s.params) then Serialize(s.params) else s.gpu)
            && (s'.mapFailed <==> o == MapFailed || (s.mapFailed && !(o == Done && HasChanged(s.params))))
    ensures var s' := Next(s, Upload(mapOk));
            forall i :: 0 <= i < |s.params| ==>
              && s'.params[i] == s.params[i].(changed := s'.params[i].changed)
              && (s'.params[i].changed <==> s.params[i].changed && (s.params[i].ty == Texture || HasUnset(s.params, i + 1)))
  {
    hide Serialize, ClearMarks;
    var s' := Next(s, Upload(mapOk));
    if HasUnset(s.params, |s.params|) {
      var k := FirstUnset(s.params);
      AllSetUpTo(s.params, k);
      MarksUpTo(s.params, k);
    } else {
      MarksUpTo(s.params, |s.params|);
    }
  }

  lemma {:induction false} MarksUpTo(ps: seq<Param>, k: nat)
    requires k <= |ps|
    ensures |ClearMarks(ps, k)| == |ps|
    ensures forall i :: 0 <= i < |ps| ==>
              && ClearMarks(ps, k)[i] == ps[i].(changed := ClearMarks(ps, k)[i].changed)
              && (ClearMarks(ps, k)[i].changed <==> ps[i].changed && (ps[i].ty == Texture || i >= k))
  {
  }

  /** Every constant has been given a default of its declared size. */
  predicate SizedDefaults(ps: seq<Param>) {
    forall i :: 0 <= i < |ps| && IsConstant(ps[i]) ==> |ps[i].defaultValue| == Size(ps[i])
  }

  predicate AtDefaults(ps: seq<Param>) {
    forall i :: 0 <= i < |ps| && IsConstant(ps[i]) ==> ps[i].curValue == ps[i].defaultValue && ps[i].changed
  }

  /** The first upload of a shader that stands at its defaults puts each of them in its place on the device. */
  lemma {:induction false} FirstUpload(s: State)
    requires Packed(s.params) && s.constantSize == End(s.params) == |s.gpu|
    requires SizedDefaults(s.params) && AtDefaults(s.params)
    ensures UploadOutcome(s, true) == Done
    ensures var t := Next(s, Upload(true));
            forall i :: 0 <= i < |s.params| && IsConstant(s.params[i]) ==>
              && s.params[i].pos + Size(s.params[i]) <= |t.gpu|
              && t.gpu[s.params[i].pos..s.params[i].pos + Size(s.params[i])] == s.params[i].defaultValue
  {
    hide Serialize, Append, End, Size, Place;
    SerializeLength(s.params);
    assert forall i :: 0 <= i < |s.params| && IsConstant(s.params[i]) ==> s.params[i].curValue != [];
    forall i | 0 <= i < |s.params| && IsConstant(s.params[i])
      ensures s.params[i].pos + Size(s.params[i]) <= |Serialize(s.params)|
      ensures Serialize(s.params)[s.params[i].pos..s.params[i].pos + Size(s.params[i])] == s.params[i].defaultValue
      ensures AnyChanged(s.params)
    {
      SerializePlaces(s.params, i);
    }
  }

  /** The same after a device loss. */
  lemma {:induction false} FirstUploadAfterRebuild(s: State, garbage: seq<byte>)
    requires Packed(s.params) && s.constantSize == End(s.params) == |garbage| && SizedDefaults(s.params)
    ensures var r := Next(s, Rebuild(garbage));
            && UploadOutcome(r, true) == Done
            && var t := Next(r, Upload(true));
            && |t.params| == |s.params|
            && forall i :: 0 <= i < |s.params| && IsConstant(s.params[i]) ==>
                 && t.params[i].curValue == s.params[i].defaultValue && t.params[i].pos == s.params[i].pos
                 && s.params[i].pos + Size(s.params[i]) <= |t.gpu|
                 && t.gpu[s.params[i].pos..s.params[i].pos + Size(s.params[i])] == s.params[i].defaultValue
  {
    hide Serialize, Append, Place, End, Size, Next, Packed, UploadOutcome, SizedDefaults, HasUnset, HasChanged;
    var r := Next(s, Rebuild(garbage));
    RebuiltLayout(s, garbage);
    FirstUpload(r);
    UploadKeepsValues(r);
  }

  lemma {:induction false} RebuiltLayout(s: State, garbage: seq<byte>)
    requires Packed(s.params) && s.constantSize == End(s.params) == |garbage| && SizedDefaults(s.params)
    ensures var r := Next(s, Rebuild(garbage));
            && Packed(r.params) && r.constantSize == End(r.params) == |r.gpu| && SizedDefaults(r.params) && AtDefaults(r.params)
            && |r.params| == |s.params|
            && forall i :: 0 <= i < |s.params| ==>
                 && r.params[i].pos == s.params[i].pos && r.params[i].defaultValue == s.params[i].defaultValue
                 && r.params[i].curValue == s.params[i].defaultValue
                 && IsConstant(r.params[i]) == IsConstant(s.params[i]) && Size(r.params[i]) == Size(s.params[i])
  {
    hide Place, End, Next, Packed;
    var r := Next(s, Rebuild(garbage));
    RebuildSetsDefaults(s, garbage);
    SameLayout(s.params, r.params);
    forall i | 0 <= i < |s.params| ensures IsConstant(r.params[i]) == IsConstant(s.params[i]) && Size(r.params[i]) == Size(s.params[i]) {
      SameDeclared(s.params[i], r.params[i]);
    }
  }

  lemma {:induction false} UploadKeepsValues(s: State)
    ensures var t := Next(s, Upload(true));
            |t.params| == |s.params|
            && forall i :: 0 <= i < |s.params| ==> t.params[i].curValue == s.params[i].curValue && t.params[i].pos == s.params[i].pos
  {
    hide Next, HasUnset, HasChanged, UploadOutcome, Serialize;
    UploadEffect(s, true);
  }

  lemma {:induction false} SameLayout(ps: seq<Param>, qs: seq<Param>)
    requires |ps| == |qs| && forall i :: 0 <= i < |ps| ==> SameDeclaration(ps[i], qs[i])
    ensures End(ps) == End(qs) && (Packed(ps) ==> Packed(qs)) && (SizedDefaults(ps) ==> SizedDefaults(qs))
  {
    hide Place, Size;
    forall i | 0 <= i <= |ps| ensures End(ps[..i]) == End(qs[..i]) { EndOfDeclarations(ps[..i], qs[..i]); }
    assert ps[..|ps|] == ps && qs[..|qs|] == qs;
    forall i | 0 <= i < |ps| ensures IsConstant(ps[i]) == IsConstant(qs[i]) && Size(ps[i]) == Size(qs[i]) { SameDeclared(ps[i], qs[i]); }
  }

  predicate SameDeclaration(p: Param, q: Param) {
    p.ty == q.ty && p.arrayCount == q.arrayCount && p.pos == q.pos && p.defaultValue == q.defaultValue
  }

  lemma {:induction false} SameDeclared(p: Param, q: Param)
    requires SameDeclaration(p, q)
    ensures IsConstant(p) == IsConstant(q) && Size(p) == Size(q)
  {
  }

  // ----- Over whole runs

  lemma {:induction false} SetKeepsCoherent(s: State, i: nat, data: seq<byte>)
    requires Coherent(s) && i < |s.params|
    ensures Coherent(s.(params := s.params[i := WithValue(s.params[i], data)]))
  {
    var p := s.params[i];
    var q := WithValue(p, data);
    var s' := s.(params := s.params[i := q]);
    assert forall k :: 0 <= k < |s.params| ==> IsConstant(s'.params[k]) == IsConstant(s.params[k]);
    if p.curValue == data {
      assert s'.params == s.params;
    } else if IsConstant(p) {
      assert s'.params[i].changed;
    } else {
      assert SameConstants(s.params, s'.params);
      SameReady(s, s'.params);
      SameSerialization(s.params, s'.params);
      if AnyChanged(s.params) {
        var k :| 0 <= k < |s.params| && IsConstant(s.params[k]) && s.params[k].changed;
        assert s'.params[k] == s.params[k];
      }
    }
  }

  lemma UploadKeepsCoherent(s: State, mapOk: bool)
    requires Coherent(s)
    ensures Coherent(AfterUpload(s, mapOk))
  {
    var s' := AfterUpload(s, mapOk);
    assert SameConstants(s.params, s'.params);
    assert forall k :: 0 <= k < |s.params| ==> SameConstant(s.params[k], s'.params[k]);
    SameReady(s, s'.params);
    SameSerialization(s.params, s'.params);
  }

  lemma RebuildKeepsCoherent(s: State, garbage: seq<byte>)
    requires Coherent(s) && |garbage| == s.constantSize
    ensures Coherent(Next(s, Rebuild(garbage)))
  {
    var qs := RebuiltAll(s.params);
    assert forall k :: 0 <= k < |qs| ==> IsConstant(qs[k]) == IsConstant(s.params[k]);
    if k :| 0 <= k < |qs| && IsConstant(qs[k]) {
      assert qs[k].curValue != [] ==> qs[k].changed;
    } else {
      NothingToSerialize(qs);
    }
  }

  lemma {:induction false} NothingToSerialize(ps: seq<Param>)
    requires forall i :: 0 <= i < |ps| ==> !IsConstant(ps[i])
    ensures Serialize(ps) == []
  {
    if ps != [] { NothingToSerialize(ps[..|ps| - 1]); }
  }

  lemma NextKeepsCoherent(s: State, op: Op)
    requires Coherent(s) && Allowed(s, op)
    ensures Coherent(Next(s, op))
  {
    match op
    case SetVal(i, data) => SetKeepsCoherent(s, i, data);
    case SetDefault(i) =>
      if s.params[i].defaultValue == [] {
        assert s.params[i := s.params[i]] == s.params;
      } else {
        SetKeepsCoherent(s, i, s.params[i].defaultValue);
      }
    case Upload(mapOk) => UploadKeepsCoherent(s, mapOk);
    case Rebuild(garbage) => RebuildKeepsCoherent(s, garbage);
  }

  lemma {:induction false} RunKeepsCoherent(s: State, ops: seq<Op>)
    requires Coherent(s) && AllAllowed(s, ops)
    ensures Coherent(Run(s, ops))
    decreases |ops|
  {
    if ops != [] {
      NextKeepsCoherent(s, ops[0]);
      RunKeepsCoherent(Next(s, ops[0]), ops[1..]);
    }
  }

  /**
   * Whatever sets, defaults, uploads and rebuilds came before, and however many of those uploads
   * threw: an upload that returns normally leaves the device with the current values exactly when
   * it wrote them, or no write is outstanding, or the write that failed was to change nothing.
   */
  lemma UploadSound(start: State, ops: seq<Op>, mapOk: bool)
    requires Coherent(start) && AllAllowed(start, ops)
    requires UploadOutcome(Run(start, ops), mapOk) == Done
    ensures var s := Run(start, ops);
            var s' := AfterUpload(s, mapOk);
            && SameConstants(s.params, s'.params) && !AnyChanged(s'.params)
            && (s'.gpu == Serialize(s'.params)
                <==> AnyChanged(s.params) || !s.mapFailed || s.gpu == s.failed)
  {
    var s := Run(start, ops);
    RunKeepsCoherent(start, ops);
    SameSerialization(s.params, AfterUpload(s, mapOk).params);
  }

  /** A call that changes no value: an upload, or a set or default of the value that is there. */
  predicate Idle(s: State, op: Op) {
    match op
    case SetVal(i, data) => i < |s.params| && s.params[i].curValue == data
    case SetDefault(i) => i < |s.params| && (s.params[i].defaultValue == [] || s.params[i].curValue == s.params[i].defaultValue)
    case Upload(_) => true
    case Rebuild(_) => false
  }

  /**
   * Once a write has failed the device stays as it is, through any number of uploads that report
   * success, until some value changes.
   */
  lemma {:induction false} StaleUntilChange(s: State, ops: seq<Op>)
    requires Ready(s) && !AnyChanged(s.params) && forall i :: 0 <= i < |ops| ==> Idle(s, ops[i])
    ensures AllAllowed(s, ops) && Run(s, ops) == s
    ensures forall mapOk :: UploadOutcome(s, mapOk) == Done && AfterUpload(s, mapOk).gpu == s.gpu
    decreases |ops|
  {
    if ops != [] {
      IdleKeeps(s, ops[0]);
      StaleUntilChange(s, ops[1..]);
    }
  }

  lemma {:induction false} IdleKeeps(s: State, op: Op)
    requires Ready(s) && !AnyChanged(s.params) && Idle(s, op)
    ensures Allowed(s, op) && Next(s, op) == s
  {
    match op
    case SetVal(i, _) => assert s.params[i := s.params[i]] == s.params;
    case SetDefault(i) => assert s.params[i := s.params[i]] == s.params;
    case Upload(_) => NothingToClear(s.params);
    case Rebuild(_) =>
  }

  lemma {:induction false} NothingToClear(ps: seq<Param>)
    requires !AnyChanged(ps)
    ensures ClearMarks(ps, |ps|) == ps
  {
    forall i | 0 <= i < |ps| ensures ClearMarks(ps, |ps|)[i] == ps[i] {
      assert SameConstant(ps[i], ClearMarks(ps, |ps|)[i]);
    }
  }

  predicate MapsSucceed(ops: seq<Op>) { forall i :: 0 <= i < |ops| ==> ops[i] != Upload(false) }

  /** When every Map succeeds, every upload that returns normally is sound. */
  lemma {:induction false} SoundWhenMapsSucceed(start: State, ops: seq<Op>)
    requires Coherent(start) && !start.mapFailed && AllAllowed(start, ops) && MapsSucceed(ops)
    ensures !Run(start, ops).mapFailed
    ensures var s := Run(start, ops);
            UploadOutcome(s, true) == Done ==> AfterUpload(s, true).gpu == Serialize(AfterUpload(s, true).params)
    decreases |ops|
  {
    if ops != [] {
      NextKeepsCoherent(start, ops[0]);
      SoundWhenMapsSucceed(Next(start, ops[0]), ops[1..]);
    } else {
      if UploadOutcome(start, true) == Done { UploadSound(start, [], true); }
    }
  }

  /** A failed Map has already cleared the marks, so the next upload reports success and writes nothing. */
  lemma MapFailureIsForgotten(s: State)
    requires UploadOutcome(s, false) == MapFailed
    ensures var s' := AfterUpload(s, false);
            && UploadOutcome(s', true) == Done && AfterUpload(s', true).gpu == s.gpu
            && Serialize(s'.params) == Serialize(s.params)
  {
    var s' := AfterUpload(s, false);
    SameReady(s, s'.params);
    SameSerialization(s.params, s'.params);
  }

  lemma SerializeOne(p: Param)
    requires IsConstant(p) && p.pos == 0
    ensures Serialize([p]) == p.curValue
  {
    assert [p][..0] == [];
  }

  /** A float changes while the device holds the old one and the Map fails: the old one stays. */
  lemma StaleBuffer(before: seq<byte>, after: seq<byte>) returns (start: State, ops: seq<Op>)
    requires |before| == |after| == 4 && before != after
    ensures Coherent(start) && AllAllowed(start, ops) && ops == [SetVal(0, after), Upload(false)]
    ensures var s := Run(start, ops);
            UploadOutcome(s, true) == Done && AfterUpload(s, true).gpu == before && Serialize(s.params) == after
  {
    hide Serialize;
    var p := Param(Scalar, 0, 0, before, [], false);
    var q := p.(curValue := after, changed := true);
    start := State([p], 4, before, false, []);
    ops := [SetVal(0, after), Upload(false)];
    SerializeOne(p);
    SerializeOne(q);
    var s1 := start.(params := [q]);
    assert start.params[0] == p && start.params[0 := q] == [q];
    assert s1.params[0].changed;
    assert UploadOutcome(s1, false) == MapFailed;
    TwoSteps(start, ops[0], ops[1]);
    MapFailureIsForgotten(s1);
  }

  lemma TwoSteps(s: State, op: Op, op2: Op)
    requires Allowed(s, op) && Allowed(Next(s, op), op2)
    ensures AllAllowed(s, [op, op2]) && Run(s, [op, op2]) == Next(Next(s, op), op2)
  {
    var s1, s2 := Next(s, op), Next(Next(s, op), op2);
    assert [op, op2][1..] == [op2] && [op2][1..] == [];
    assert AllAllowed(s2, []) && Run(s2, []) == s2;
    assert AllAllowed(s1, [op2]) && Run(s1, [op2]) == s2;
  }

  // ----- The shader object

  /** The declaration with its slot and its default value. */
  function Declared(decls: seq<Param>, i: nat): Param
    requires i < |decls|
  {
    WithDefault(Placed(decls, i))
  }

  function Placed(decls: seq<Param>, i: nat): Param
    requires i < |decls|
  {
    if IsConstant(decls[i]) then decls[i].(pos := Place(Size(decls[i]), End(decls[..i]))) else decls[i]
  }

  /** Packing looks at types and array counts only. */
  lemma {:induction false} EndOfDeclarations(ps: seq<Param>, qs: seq<Param>)
    requires |ps| == |qs|
    requires forall i :: 0 <= i < |ps| ==> ps[i].ty == qs[i].ty && ps[i].arrayCount == qs[i].arrayCount
    ensures End(ps) == End(qs)
    decreases |ps|
  {
    if ps != [] { EndOfDeclarations(ps[..|ps| - 1], qs[..|ps| - 1]); }
  }

  predicate Fresh(decls: seq<Param>) {
    forall i :: 0 <= i < |decls| ==> decls[i].curValue == [] && !decls[i].changed
  }

  predicate Built(decls: seq<Param>, ps: seq<Param>) {
    |ps| == |decls| && forall i :: 0 <= i < |decls| ==> ps[i] == Declared(decls, i)
  }

  /** Each declared parameter has its default as value, marked if there is one. */
  predicate DefaultsGiven(decls: seq<Param>, ps: seq<Param>) {
    |ps| == |decls| &&
    forall i :: 0 <= i < |decls| ==>
      && ps[i].ty == decls[i].ty && ps[i].arrayCount == decls[i].arrayCount && ps[i].defaultValue == decls[i].defaultValue
      && ps[i].curValue == decls[i].defaultValue && (ps[i].changed <==> decls[i].defaultValue != [])
  }

  lemma {:induction false} BuiltDefaults(decls: seq<Param>, ps: seq<Param>)
    requires Fresh(decls) && Built(decls, ps)
    ensures DefaultsGiven(decls, ps)
  {
    hide Place, End;
  }

  /** A shader just built, with a default for every constant, uploads them all. */
  lemma {:induction false} FirstUploadAfterBuild(decls: seq<Param>, s: State)
    requires DefaultsGiven(decls, s.params) && SizedDefaults(decls)
    requires Packed(s.params) && s.constantSize == End(s.params) == |s.gpu|
    ensures UploadOutcome(s, true) == Done
    ensures var t := Next(s, Upload(true));
            forall i :: 0 <= i < |decls| && IsConstant(decls[i]) ==>
              && s.params[i].pos + Size(decls[i]) <= |t.gpu|
              && t.gpu[s.params[i].pos..s.params[i].pos + Size(decls[i])] == decls[i].defaultValue
  {
    hide Serialize, End, Place, Packed, Next, UploadOutcome;
    assert forall i :: 0 <= i < |decls| ==> IsConstant(decls[i]) == IsConstant(s.params[i]) && Size(decls[i]) == Size(s.params[i]);
    FirstUpload(s);
  }

  lemma BuiltPacked(decls: seq<Param>, ps: seq<Param>)
    requires Built(decls, ps)
    ensures Packed(ps) && End(ps) == End(decls)
  {
    forall i | 0 <= i <= |decls| ensures End(ps[..i]) == End(decls[..i]) {
      EndOfDeclarations(ps[..i], decls[..i]);
    }
    assert ps[..|decls|] == ps && decls[..|decls|] == decls;
  }

  /** A buffer just built is coherent: whatever has a value is marked. */
  lemma BuiltCoherent(decls: seq<Param>, s: State)
    requires Fresh(decls) && Built(decls, s.params) && s.constantSize == End(decls) && |s.gpu| == s.constantSize
    requires !s.mapFailed
    ensures Coherent(s)
  {
    hide Place, End, Serialize;
    assert forall i :: 0 <= i < |decls| ==> IsConstant(s.params[i]) == IsConstant(decls[i]);
    if k :| 0 <= k < |decls| && IsConstant(decls[k]) {
      assert s.params[k].curValue != [] ==> s.params[k].changed;
    } else {
      NothingToSerialize(s.params);
      NoConstantsNoBuffer(decls);
    }
  }

  lemma {:induction false} NoConstantsNoBuffer(ps: seq<Param>)
    requires forall i :: 0 <= i < |ps| ==> !IsConstant(ps[i])
    ensures End(ps) == 0
  {
    if ps != [] { NoConstantsNoBuffer(ps[..|ps| - 1]); }
  }

  class Shader {
    var params: seq<Param>
    var constantSize: nat
    var gpu: seq<byte>
    ghost var mapFailed: bool
    ghost var failed: seq<byte>

    constructor (decls: seq<Param>)
      ensures params == decls && constantSize == 0 && gpu == [] && !mapFailed
    {
      params, constantSize, gpu, mapFailed := decls, 0, [], false;
    }

    ghost function St(): State
      reads this
    {
      State(params, constantSize, gpu, mapFailed, failed)
    }

    /** `garbage` is what the new device buffer happens to contain. */
    method BuildConstantBuffer(garbage: seq<byte>)
      requires Fresh(params) && constantSize == 0 && !mapFailed && |garbage| == End(params)
      modifies this
      ensures Built(old(params), params)
      ensures DefaultsGiven(old(params), params)
      ensures Packed(params) && constantSize == End(params) && gpu == garbage && Coherent(St()) && !mapFailed
    {
      hide Placed, Coherent, Packed, Serialize, DefaultsGiven;
      PlaceParams();
      gpu := garbage;
      var i := 0;
      while i < |params|
        invariant 0 <= i <= |params| == |old(params)|
        invariant constantSize == End(old(params)) && gpu == garbage && !mapFailed
        invariant forall k :: 0 <= k < i ==> params[k] == Declared(old(params), k)
        invariant forall k :: i <= k < |params| ==> params[k] == Placed(old(params), k)
      {
        SetDefaultValue(i);
        i := i + 1;
      }
      BuiltPacked(old(params), params);
      BuiltCoherent(old(params), St());
      BuiltDefaults(old(params), params);
    }

    /** The first loop: each constant gets its position and the buffer grows past it. */
    method PlaceParams()
      requires constantSize == 0
      modifies this`params, this`constantSize
      ensures |params| == |old(params)| && constantSize == End(params) == End(old(params))
      ensures forall k :: 0 <= k < |params| ==> params[k] == Placed(old(params), k)
    {
      ghost var decls := params;
      var i := 0;
      while i < |params|
        invariant 0 <= i <= |params| == |decls|
        invariant constantSize == End(decls[..i])
        invariant forall k :: 0 <= k < i ==> params[k] == Placed(decls, k)
        invariant forall k :: i <= k < |params| ==> params[k] == decls[k]
      {
        var param := params[i];
        assert decls[..i + 1][..i] == decls[..i];
        if IsConstant(param) {
          var size := ElementSize(param.ty);
          if param.arrayCount > 0 {
            size := size * param.arrayCount;
          }
          if size > 0 && constantSize % 16 != 0 {
            var alignMax := AlignUp(constantSize);
            if size + constantSize > alignMax {
              constantSize := alignMax;
            }
          }
          params := params[i := param.(pos := constantSize)];
          constantSize := constantSize + size;
        }
        i := i + 1;
      }
      assert decls[..|decls|] == decls;
      EndOfDeclarations(params, decls);
    }

    method SetValue(i: nat, data: seq<byte>)
      requires i < |params|
      modifies this`params
      ensures St() == Next(old(St()), SetVal(i, data))
    {
      var param := params[i];
      var sizeChanged := |param.curValue| != |data|;
      if sizeChanged || param.curValue != data {
        params := params[i := param.(curValue := data, changed := true)];
      } else {
        assert params[i := param] == params;
      }
    }

    method SetDefaultValue(i: nat)
      requires i < |params|
      modifies this`params
      ensures St() == Next(old(St()), SetDefault(i))
      ensures old(params)[i].defaultValue != [] ==> params[i].curValue == old(params)[i].defaultValue
    {
      if |params[i].defaultValue| > 0 {
        SetValue(i, params[i].defaultValue);
      } else {
        assert params[i := params[i]] == params;
      }
    }

    /**
     * One parameter's turn in an upload: its value is appended behind its padding and its mark
     * taken away, unless it has no value.
     */
    method UpdateParam(constData: seq<byte>, i: nat, upload: bool) returns (constData': seq<byte>, upload': bool, ok: bool)
      requires i < |params|
      modifies this`params
      ensures ok == (IsConstant(old(params)[i]) ==> old(params)[i].curValue != [])
      ensures !ok ==> params == old(params)
      ensures ok ==>
        && constData' == Append(constData, old(params)[i])
        && upload' == (upload || (IsConstant(old(params)[i]) && old(params)[i].changed))
        && params == old(params)[i := Unmarked(old(params)[i])]
    {
      constData', upload', ok := constData, upload, true;
      var param := params[i];
      if IsConstant(param) {
        if |param.curValue| == 0 {
          return constData', upload', false;
        }
        if param.pos > |constData'| {
          constData' := constData' + Zeros(param.pos - |constData'|);
        }
        constData' := constData' + param.curValue;
        if param.changed {
          upload' := true;
          params := params[i := param.(changed := false)];
        }
      }
    }

    /** Serializes and, if anything changed, writes the device buffer; `mapOk` is the driver's answer. */
    method UploadParams(mapOk: bool) returns (outcome: Outcome)
      modifies this
      ensures outcome == UploadOutcome(old(St()), mapOk)
      ensures St() == AfterUpload(old(St()), mapOk)
    {
      hide ClearMarks, AnyChanged, AllSet, IsConstant, Append, FirstUnset, Unmarked;
      ghost var was := params;
      var constData: seq<byte> := [];
      var upload := false;
      var i := 0;
      NothingYet(was);
      while i < |params|
        invariant 0 <= i <= |params| == |was|
        invariant params == ClearMarks(was, i)
        invariant constData == Serialize(was[..i])
        invariant upload == AnyChanged(was[..i])
        invariant AllSet(was[..i])
        invariant constantSize == old(constantSize) && gpu == old(gpu) && mapFailed == old(mapFailed) && failed == old(failed)
      {
        assert was[..i + 1][..i] == was[..i];
        PrefixFacts(was, i);
        ClearNext(was, i);
        var ok;
        constData, upload, ok := UpdateParam(constData, i, upload);
        if !ok {
          FirstUnsetIs(was, i);
          return Unset;
        }
        i := i + 1;
      }
      assert was[..i] == was;
      if |constData| != constantSize {
        return WrongSize;
      }
      if upload {
        if !mapOk {
          mapFailed, failed := true, constData;
          return MapFailed;
        }
        gpu, mapFailed := constData, false;
      }
      return Done;
    }

    /** Device loss: a new buffer, every value dropped, then the defaults. */
    method RebuildShader(garbage: seq<byte>)
      requires |garbage| == constantSize
      modifies this
      ensures St() == Next(old(St()), Rebuild(garbage))
      ensures forall i :: 0 <= i < |params| ==> params[i].curValue == old(params)[i].defaultValue
    {
      gpu, mapFailed := garbage, false;
      var i := 0;
      while i < |params|
        invariant 0 <= i <= |params| == |old(params)|
        invariant constantSize == old(constantSize) && gpu == garbage && !mapFailed && failed == old(failed)
        invariant forall k :: 0 <= k < i ==> params[k] == Rebuilt(old(params)[k])
        invariant forall k :: i <= k < |params| ==> params[k] == old(params)[k]
      {
        params := params[i := params[i].(curValue := [])];
        SetDefaultValue(i);
        i := i + 1;
      }
      assert params == RebuiltAll(old(params));
    }
  }

  lemma NothingYet(ps: seq<Param>)
    ensures ClearMarks(ps, 0) == ps && Serialize(ps[..0]) == [] && !AnyChanged(ps[..0]) && AllSet(ps[..0])
  {
    assert ps[..0] == [];
  }

  lemma ClearNext(ps: seq<Param>, i: nat)
    requires i < |ps|
    ensures ClearMarks(ps, i)[i] == ps[i]
    ensures ClearMarks(ps, i + 1) == ClearMarks(ps, i)[i := Unmarked(ps[i])]
  {
  }

  lemma PrefixFacts(ps: seq<Param>, i: nat)
    requires i < |ps|
    ensures AnyChanged(ps[..i + 1]) <==> AnyChanged(ps[..i]) || (IsConstant(ps[i]) && ps[i].changed)
    ensures AllSet(ps[..i + 1]) <==> AllSet(ps[..i]) && (IsConstant(ps[i]) ==> ps[i].curValue != [])
  {
    assert ps[..i + 1] == ps[..i] + [ps[i]];
  }

  lemma FirstUnsetIs(ps: seq<Param>, k: nat)
    requires k < |ps| && IsConstant(ps[k]) && ps[k].curValue == [] && AllSet(ps[..k])
    ensures !AllSet(ps) && FirstUnset(ps) == k
  {
    hide FirstUnset;
    assert !AllSet(ps);
    AllSetUpTo(ps, k);
    AllSetUpTo(ps, FirstUnset(ps));
  }

  lemma AllSetUpTo(ps: seq<Param>, k: nat)
    requires k <= |ps|
    ensures AllSet(ps[..k]) <==> forall i :: 0 <= i < k && IsConstant(ps[i]) ==> ps[i].curValue != []
  {
    assert forall i :: 0 <= i < k ==> ps[..k][i] == ps[i];
  }
}

/**
 * Uniforms of a Metal shader: offsets in the uniform struct, and the byte image that is updated
 * from the uniforms set since the last upload.
 */
module UniformImage {

  newtype byte = x: int | 0 <= x < 256

  /**
   * Uniform types by size. `Untyped` stands for strings and unknown types; textures are told apart
   * only in fragment shaders, and a `VertexTexture` is laid out like a value.
   */
  datatype Kind = Scalar | Pair | Triple | Quad | Matrix | Texture | VertexTexture | Untyped

  function Size(k: Kind): nat {
    match k
    case Scalar => 4 case Pair => 8 case Triple => 16 case Quad => 16 case Matrix => 64 case VertexTexture => 16
    case _ => 0
  }

  function Alignment(k: Kind): nat {
    match k case Scalar => 4 case Pair => 8 case Triple => 16 case Quad => 16 case Matrix => 16 case _ => 0
  }

  /** Components and columns of a value type. */
  function Components(k: Kind): nat {
    match k case Scalar => 1 case Pair => 2 case Triple => 3 case Quad => 4 case Matrix => 4 case _ => 0
  }

  function Columns(k: Kind): nat { if k == Matrix then 4 else if Numeric(k) then 1 else 0 }

  /** As in Metal: columns of four-byte components, three of which take the room of four, aligned to a column. */
  lemma {:induction false} KindLayout(k: Kind)
    requires Numeric(k)
    ensures var room := if Components(k) == 3 then 4 else Components(k);
            Alignment(k) == 4 * room && Size(k) == 4 * room * Columns(k)
  {
  }

  predicate Numeric(k: Kind) { Alignment(k) > 0 }

  predicate IsTexture(k: Kind) { k == Texture || k == VertexTexture }

  predicate Aligned(n: nat, a: nat) {
    match a case 4 => n % 4 == 0 case 8 => n % 8 == 0 case 16 => n % 16 == 0 case _ => true
  }

  /** Rounding up by masking: with no alignment at all the mask erases the whole offset. */
  function AlignUp(n: nat, a: nat): (r: nat)
    requires a == 0 || a == 4 || a == 8 || a == 16
    ensures a > 0 ==> n <= r < n + a && Aligned(r, a)
    ensures n == 0 ==> r == 0
    ensures n <= 16 ==> r <= 16
  {
    match a case 4 => (n + 3) / 4 * 4 case 8 => (n + 7) / 8 * 8 case 16 => (n + 15) / 16 * 16 case _ => 0
  }

  function OffsetAt(k: Kind, at: nat): nat { if k == Texture then at else AlignUp(at, Alignment(k)) }

  /** Size of the buffer after these uniforms. */
  function End(ks: seq<Kind>): nat {
    if ks == [] then 0
    else
      var k := ks[|ks| - 1];
      OffsetAt(k, End(ks[..|ks| - 1])) + Size(k)
  }

  function Offset(ks: seq<Kind>, i: nat): nat
    requires i < |ks|
  {
    OffsetAt(ks[i], End(ks[..i]))
  }

  function SlotEnd(ks: seq<Kind>, i: nat): nat
    requires i < |ks|
  {
    Offset(ks, i) + Size(ks[i])
  }

  // ----- Layout

  /** Uniforms without alignment are placed at zero, and the layout goes on behind them. */
  predicate Resets(k: Kind) { k == Untyped || k == VertexTexture }

  predicate Overlap(ks: seq<Kind>, i: nat, j: nat)
    requires i < |ks| && j < |ks|
  {
    Offset(ks, i) < SlotEnd(ks, j) && Offset(ks, j) < SlotEnd(ks, i)
  }

  predicate Disjoint(ks: seq<Kind>) {
    forall i, j :: 0 <= i < j < |ks| && Numeric(ks[i]) && Numeric(ks[j]) ==> !Overlap(ks, i, j)
  }

  predicate Within(ks: seq<Kind>) {
    forall i :: 0 <= i < |ks| && Numeric(ks[i]) ==> SlotEnd(ks, i) <= End(ks)
  }

  predicate TexturesBetween(ks: seq<Kind>, j: nat, k: nat)
    requires k <= |ks|
  {
    forall m :: j < m < k ==> ks[m] == Texture
  }

  /** The next value, or the end of the list, comes before any other reset. */
  predicate TakesEffect(ks: seq<Kind>, j: nat)
    requires j < |ks|
  {
    Resets(ks[j]) && exists k :: j < k <= |ks| && TexturesBetween(ks, j, k) && (k == |ks| || Numeric(ks[k]))
  }

  /** No reset takes the layout back to before the end of a value already placed. */
  predicate Sane(ks: seq<Kind>) {
    forall i, j :: 0 <= i < j < |ks| && Numeric(ks[i]) && TakesEffect(ks, j) ==> SlotEnd(ks, i) <= Size(ks[j])
  }

  lemma {:induction false} EndStep(ks: seq<Kind>, i: nat)
    requires i < |ks|
    ensures End(ks[..i + 1]) == SlotEnd(ks, i)
    ensures Resets(ks[i]) ==> End(ks[..i + 1]) == Size(ks[i])
    ensures !Resets(ks[i]) ==> End(ks[..i]) <= Offset(ks, i)
  {
    assert ks[..i + 1][..i] == ks[..i];
  }

  lemma {:induction false} EndGrows(ks: seq<Kind>, i: nat, j: nat)
    requires i <= j <= |ks| && forall k :: i <= k < j ==> !Resets(ks[k])
    ensures End(ks[..i]) <= End(ks[..j])
    decreases j - i
  {
    if i < j {
      EndGrows(ks, i, j - 1);
      EndStep(ks, j - 1);
    }
  }

  lemma {:induction false} TexturesKeepEnd(ks: seq<Kind>, j: nat, k: nat)
    requires j < k <= |ks| && TexturesBetween(ks, j, k)
    ensures End(ks[..j + 1]) == End(ks[..k])
    decreases k
  {
    if j + 1 < k {
      TexturesKeepEnd(ks, j, k - 1);
      EndStep(ks, k - 1);
    }
  }

  /** Values are aligned; later ones lie behind earlier ones if nothing resets the layout between them. */
  lemma {:induction false} InOrder(ks: seq<Kind>, i: nat, j: nat)
    requires i < j < |ks| && Numeric(ks[i]) && Numeric(ks[j]) && forall k :: i < k < j ==> !Resets(ks[k])
    ensures SlotEnd(ks, i) <= Offset(ks, j) && Aligned(Offset(ks, j), Alignment(ks[j]))
  {
    EndStep(ks, i);
    EndGrows(ks, i + 1, j);
  }

  // ----- A sane layout is sound

  function LastReset(ks: seq<Kind>, lo: nat, hi: nat): (j: nat)
    requires hi <= |ks| && exists k :: lo <= k < hi && Resets(ks[k])
    ensures lo <= j < hi && Resets(ks[j]) && forall k :: j < k < hi ==> !Resets(ks[k])
    decreases hi
  {
    if Resets(ks[hi - 1]) then hi - 1 else LastReset(ks, lo, hi - 1)
  }

  lemma {:induction false} LastTakesEffect(ks: seq<Kind>, j: nat, k: nat, hi: nat)
    requires j < k <= hi <= |ks| && Resets(ks[j]) && forall m :: j < m < hi ==> !Resets(ks[m])
    requires TexturesBetween(ks, j, k) && (hi == |ks| || Numeric(ks[hi]))
    ensures TakesEffect(ks, j)
    decreases hi - k
  {
    if k < hi && !Numeric(ks[k]) {
      LastTakesEffect(ks, j, k + 1, hi);
    }
  }

  lemma {:induction false} BehindIn(ks: seq<Kind>, i: nat, k: nat)
    requires Sane(ks) && i < k <= |ks| && Numeric(ks[i]) && (k == |ks| || Numeric(ks[k]))
    ensures SlotEnd(ks, i) <= End(ks[..k])
  {
    hide SlotEnd, Numeric, TakesEffect, LastReset, End, Size, Resets;
    if exists m :: i + 1 <= m < k && Resets(ks[m]) {
      var j := LastReset(ks, i + 1, k);
      LastTakesEffect(ks, j, j + 1, k);
      EndStep(ks, j);
      EndGrows(ks, j + 1, k);
    } else {
      EndStep(ks, i);
      EndGrows(ks, i + 1, k);
    }
  }

  /** In a sane layout every value lies behind all earlier ones. */
  lemma {:induction false} Behind(ks: seq<Kind>, i: nat, j: nat)
    requires Sane(ks) && i < j < |ks| && Numeric(ks[i]) && Numeric(ks[j])
    ensures SlotEnd(ks, i) <= Offset(ks, j)
  {
    hide SlotEnd, Sane, Offset;
    BehindIn(ks, i, j);
    EndStep(ks, j);
  }

  lemma {:induction false} WithinEnd(ks: seq<Kind>, i: nat)
    requires Sane(ks) && i < |ks| && Numeric(ks[i])
    ensures SlotEnd(ks, i) <= End(ks)
  {
    BehindIn(ks, i, |ks|);
    assert ks[..|ks|] == ks;
  }

  // ----- A sound layout is sane

  predicate Covers(ks: seq<Kind>, q: nat, b: nat)
    requires q < |ks|
  {
    Numeric(ks[q]) && Offset(ks, q) <= b < SlotEnd(ks, q)
  }

  /** Where the layout passes byte 16, a value stands on it. */
  lemma {:induction false} Crossing(ks: seq<Kind>, lo: nat, hi: nat) returns (q: nat)
    requires lo <= hi <= |ks| && End(ks[..lo]) <= 16 < End(ks[..hi])
    ensures lo <= q < hi && Covers(ks, q, 16)
    decreases hi - lo
  {
    if End(ks[..hi - 1]) > 16 {
      q := Crossing(ks, lo, hi - 1);
    } else {
      q := hi - 1;
      EndStep(ks, q);
    }
  }

  /** Where the layout ends before byte 16, or is that of a fragment shader, a value stands at zero. */
  lemma {:induction false} BelowSixteen(ks: seq<Kind>, n: nat) returns (q: nat)
    requires n <= |ks| && 0 < End(ks[..n]) && (End(ks[..n]) < 16 || VertexTexture !in ks)
    ensures q < n && Covers(ks, q, 0)
    decreases n
  {
    EndStep(ks, n - 1);
    if End(ks[..n - 1]) > 0 {
      q := BelowSixteen(ks, n - 1);
    } else {
      q := n - 1;
    }
  }

  lemma {:induction false} ZeroCovered(ks: seq<Kind>, i: nat) returns (q: nat)
    requires i < |ks| && Numeric(ks[i]) && (SlotEnd(ks, i) <= 16 || VertexTexture !in ks)
    ensures q <= i && Covers(ks, q, 0)
  {
    EndStep(ks, i);
    if End(ks[..i]) == 0 {
      q := i;
    } else {
      q := BelowSixteen(ks, i);
    }
  }

  lemma {:induction false} Clash(ks: seq<Kind>, p: nat, q: nat, b: nat)
    requires p < q < |ks| && Covers(ks, p, b) && Covers(ks, q, b)
    ensures !Disjoint(ks)
  {
    hide Offset, SlotEnd;
    assert Overlap(ks, p, q);
  }

  lemma {:induction false} ResetTooFar(ks: seq<Kind>, i: nat, j: nat)
    requires i < j < |ks| && Numeric(ks[i]) && TakesEffect(ks, j) && SlotEnd(ks, i) > Size(ks[j])
    ensures !(Disjoint(ks) && Within(ks))
  {
    hide Disjoint, SlotEnd, Numeric;
    if SlotEnd(ks, i) <= End(ks) {
      if SlotEnd(ks, i) > 16 { ClashAtSixteen(ks, i, j); } else { ClashAtZero(ks, i, j); }
    }
  }

  lemma {:induction false} ClashAtSixteen(ks: seq<Kind>, i: nat, j: nat)
    requires i < j < |ks| && Resets(ks[j]) && 16 < SlotEnd(ks, i) <= End(ks)
    ensures !Disjoint(ks)
  {
    hide Disjoint, SlotEnd, Offset, Covers;
    assert ks[..|ks|] == ks;
    EndStep(ks, i);
    EndStep(ks, j);
    var p := Crossing(ks, 0, i + 1);
    var q := Crossing(ks, j + 1, |ks|);
    Clash(ks, p, q, 16);
  }

  lemma {:induction false} ClashAtZero(ks: seq<Kind>, i: nat, j: nat)
    requires i < j < |ks| && Numeric(ks[i]) && TakesEffect(ks, j) && Size(ks[j]) < SlotEnd(ks, i) <= End(ks) && SlotEnd(ks, i) <= 16
    ensures !Disjoint(ks)
  {
    hide Disjoint, SlotEnd, Offset, Covers, Numeric;
    assert ks[..|ks|] == ks;
    EndStep(ks, j);
    var p := ZeroCovered(ks, i);
    var k :| j < k <= |ks| && TexturesBetween(ks, j, k) && (k == |ks| || Numeric(ks[k]));
    TexturesKeepEnd(ks, j, k);
    StartsAtZero(ks, k);
    Clash(ks, p, k, 0);
  }

  lemma {:induction false} StartsAtZero(ks: seq<Kind>, k: nat)
    requires k < |ks| && Numeric(ks[k]) && End(ks[..k]) == 0
    ensures Covers(ks, k, 0)
  {
  }

  /**
   * Values are disjoint and inside the buffer exactly when no reset takes the layout back to before
   * the end of a value: one followed by more values makes slots overlap or leaves values behind the
   * end, one that ends the list shrinks the buffer.
   */
  lemma {:induction false} SoundIff(ks: seq<Kind>)
    ensures Disjoint(ks) && Within(ks) <==> Sane(ks)
  {
    if Sane(ks) {
      hide Offset, Numeric, End, Sane, SlotEnd;
      forall i, j | 0 <= i < j < |ks| && Numeric(ks[i]) && Numeric(ks[j]) ensures !Overlap(ks, i, j) { Behind(ks, i, j); }
      forall i | 0 <= i < |ks| && Numeric(ks[i]) ensures SlotEnd(ks, i) <= End(ks) { WithinEnd(ks, i); }
    } else {
      hide TakesEffect, SlotEnd, Numeric;
      var i, j :| 0 <= i < j < |ks| && Numeric(ks[i]) && TakesEffect(ks, j) && SlotEnd(ks, i) > Size(ks[j]);
      ResetTooFar(ks, i, j);
    }
  }

  // ----- The two stages

  /** In a fragment shader: exactly when no untyped uniform stands after a value. */
  lemma {:induction false} FragmentSane(ks: seq<Kind>)
    requires VertexTexture !in ks
    ensures Sane(ks) <==> forall i, j :: 0 <= i < j < |ks| && Numeric(ks[i]) ==> ks[j] != Untyped
  {
    hide SlotEnd;
    if i, j :| 0 <= i < j < |ks| && Numeric(ks[i]) && ks[j] == Untyped {
      var j' := NextEffect(ks, j);
      Nonempty(ks, i);
      assert ks[j'] == Untyped;
    }
  }

  lemma {:induction false} Nonempty(ks: seq<Kind>, i: nat)
    requires i < |ks| && Numeric(ks[i])
    ensures SlotEnd(ks, i) > 0
  {
  }

  lemma {:induction false} NextEffect(ks: seq<Kind>, j: nat) returns (j': nat)
    requires j < |ks| && Resets(ks[j])
    ensures j <= j' < |ks| && TakesEffect(ks, j')
  {
    hide TakesEffect, LastReset;
    var hi := NextNumeric(ks, j + 1);
    j' := LastReset(ks, j, hi);
    LastTakesEffect(ks, j', j' + 1, hi);
  }

  function NextNumeric(ks: seq<Kind>, lo: nat): (k: nat)
    requires lo <= |ks|
    ensures lo <= k <= |ks| && (k == |ks| || Numeric(ks[k])) && forall m :: lo <= m < k ==> !Numeric(ks[m])
    decreases |ks| - lo
  {
    if lo == |ks| || Numeric(ks[lo]) then lo else NextNumeric(ks, lo + 1)
  }

  /** An untyped uniform stands between two values. */
  predicate Interrupted(ks: seq<Kind>) {
    exists i, j, k :: 0 <= i < j < k < |ks| && Numeric(ks[i]) && ks[j] == Untyped && Numeric(ks[k])
  }

  /** In a fragment shader values are disjoint exactly when no untyped uniform stands between two of them. */
  lemma {:induction false} DisjointIff(ks: seq<Kind>)
    requires VertexTexture !in ks
    ensures Disjoint(ks) <==> !Interrupted(ks)
  {
    hide SlotEnd, Offset, Numeric;
    if i, j, k :| 0 <= i < j < k < |ks| && Numeric(ks[i]) && ks[j] == Untyped && Numeric(ks[k]) {
      InterruptedClash(ks, i, j, k);
    } else {
      forall i, j | 0 <= i < j < |ks| && Numeric(ks[i]) && Numeric(ks[j]) ensures !Overlap(ks, i, j) {
        InOrder(ks, i, j);
      }
    }
  }

  lemma {:induction false} InterruptedClash(ks: seq<Kind>, i: nat, j: nat, k: nat)
    requires VertexTexture !in ks && i < j < k < |ks| && Numeric(ks[i]) && ks[j] == Untyped && Numeric(ks[k])
    ensures !Disjoint(ks)
  {
    hide Disjoint, SlotEnd, Offset, Covers, NextNumeric, LastReset;
    var p := ZeroCovered(ks, i);
    var hi := NextNumeric(ks, j + 1);
    var r := LastReset(ks, j, hi);
    EndStep(ks, r);
    TexturesKeepEnd(ks, r, hi);
    StartsAtZero(ks, hi);
    Clash(ks, p, hi, 0);
  }

  /** In a vertex shader without untyped uniforms: exactly when every value before a texture ends by byte 16. */
  lemma {:induction false} VertexSane(ks: seq<Kind>)
    requires Untyped !in ks
    ensures Sane(ks) <==>
            forall i, j :: 0 <= i < j < |ks| && Numeric(ks[i]) && ks[j] == VertexTexture ==> SlotEnd(ks, i) <= 16
  {
    hide SlotEnd;
    if Sane(ks) {
      forall i, j | 0 <= i < j < |ks| && Numeric(ks[i]) && ks[j] == VertexTexture ensures SlotEnd(ks, i) <= 16 {
        var j' := NextEffect(ks, j);
        assert ks[j'] == VertexTexture;
      }
    }
  }

  /** A float before a string uniform: the buffer has no room for it. */
  lemma {:induction false} StringLast()
    ensures var ks := [Scalar, Untyped]; Disjoint(ks) && End(ks) == 0 && SlotEnd(ks, 0) == 4
  {
    var ks := [Scalar, Untyped];
    EndStep(ks, 0);
    EndStep(ks, 1);
    assert ks[..2] == ks;
  }

  /** A matrix before a texture in a vertex shader: 64 bytes that start in a buffer of 16. */
  lemma {:induction false} MatrixThenTexture()
    ensures var ks := [Matrix, VertexTexture]; Disjoint(ks) && End(ks) == 16 && SlotEnd(ks, 0) == 64 && !Sane(ks)
  {
    var ks := [Matrix, VertexTexture];
    EndStep(ks, 0);
    EndStep(ks, 1);
    assert ks[..2] == ks;
    assert !Within(ks);
    SoundIff(ks);
  }

  // ----- The byte image

  /** A uniform's bytes as last set, if ever, and whether that happened since the last upload. */
  datatype Uniform = Uniform(value: seq<byte>, wasSet: bool, hasUpdates: bool)

  function Written(image: seq<byte>, at: nat, data: seq<byte>): (r: seq<byte>)
    requires at + |data| <= |image|
    ensures |r| == |image| && r[at..at + |data|] == data
    ensures forall k :: 0 <= k < |r| && !(at <= k < at + |data|) ==> r[k] == image[k]
  {
    image[..at] + data + image[at + |data|..]
  }

  predicate Shown(ks: seq<Kind>, u: Uniform, image: seq<byte>, i: nat)
    requires i < |ks|
  {
    Offset(ks, i) + |u.value| <= |image| && image[Offset(ks, i)..Offset(ks, i) + |u.value|] == u.value
  }

  /** A longer value runs out of its slot. */
  predicate FitsSlot(k: Kind, u: Uniform) { IsTexture(k) || |u.value| <= Size(k) }

  /** Every uniform that was set to a value of its size and has no updates outstanding is in the image. */
  predicate Current(ks: seq<Kind>, us: seq<Uniform>, image: seq<byte>)
    requires |us| == |ks|
  {
    forall i :: 0 <= i < |ks| && Numeric(ks[i]) && us[i].wasSet && !us[i].hasUpdates && FitsSlot(ks[i], us[i]) ==>
      Shown(ks, us[i], image, i)
  }

  /** Whether an update writes to the image, and whether the image has room for what it writes. */
  predicate Pending(k: Kind, u: Uniform) { !IsTexture(k) && u.hasUpdates }

  predicate HasRoom(ks: seq<Kind>, u: Uniform, image: seq<byte>, i: nat)
    requires i < |ks|
  {
    Pending(ks[i], u) ==> Offset(ks, i) + |u.value| <= |image|
  }

  function Unmarked(us: seq<Uniform>, i: nat): seq<Uniform>
    requires i < |us|
  {
    us[i := us[i].(hasUpdates := false)]
  }

  /** In a sane layout, writing a value that fits its slot shows it and disturbs no other. */
  lemma {:induction false} WriteSlot(ks: seq<Kind>, us: seq<Uniform>, image: seq<byte>, i: nat)
    requires Sane(ks) && |us| == |ks| && |image| >= End(ks) && Current(ks, us, image)
    requires i < |ks| && !IsTexture(ks[i]) && FitsSlot(ks[i], us[i])
    ensures Offset(ks, i) + |us[i].value| <= |image|
    ensures Current(ks, Unmarked(us, i), Written(image, Offset(ks, i), us[i].value))
  {
    SlotInside(ks, i);
    var us', image' := Unmarked(us, i), Written(image, Offset(ks, i), us[i].value);
    forall j | 0 <= j < |ks| && Numeric(ks[j]) && us'[j].wasSet && !us'[j].hasUpdates && FitsSlot(ks[j], us'[j])
      ensures Shown(ks, us'[j], image', j)
    {
      WithinEnd(ks, j);
      if j != i {
        OtherShown(ks, us, image, i, j);
      }
    }
  }

  lemma {:induction false} SlotInside(ks: seq<Kind>, i: nat)
    requires Sane(ks) && i < |ks| && !IsTexture(ks[i])
    ensures SlotEnd(ks, i) <= End(ks)
  {
    if Numeric(ks[i]) { WithinEnd(ks, i); }
  }

  lemma {:induction false} OtherShown(ks: seq<Kind>, us: seq<Uniform>, image: seq<byte>, i: nat, j: nat)
    requires Sane(ks) && |us| == |ks| && i < |ks| && j < |ks| && i != j && Numeric(ks[j]) && !IsTexture(ks[i])
    requires FitsSlot(ks[i], us[i]) && FitsSlot(ks[j], us[j]) && Shown(ks, us[j], image, j)
    requires Offset(ks, i) + |us[i].value| <= |image|
    ensures Shown(ks, us[j], Written(image, Offset(ks, i), us[i].value), j)
  {
    hide Offset, Sane;
    if Numeric(ks[i]) {
      if i < j { Behind(ks, i, j); } else { Behind(ks, j, i); }
    }
    OverwrittenIff(image, Offset(ks, i), us[i].value, Offset(ks, j), us[j].value);
  }

  // ----- Values longer than their slot

  predicate InRange(at: nat, data: seq<byte>, k: nat) { at <= k < at + |data| }

  function ByteAt(at: nat, data: seq<byte>, k: nat): byte
    requires InRange(at, data, k)
  {
    data[k - at]
  }

  lemma {:induction false} WrittenByte(image: seq<byte>, at: nat, data: seq<byte>, k: nat)
    requires at + |data| <= |image| && k < |image|
    ensures Written(image, at, data)[k] == if InRange(at, data, k) then ByteAt(at, data, k) else image[k]
  {
    var w := Written(image, at, data);
    if InRange(at, data, k) { assert w[k] == w[at..at + |data|][k - at]; }
  }

  ghost predicate AgreeWhereBothWrite(at: nat, data: seq<byte>, to: nat, value: seq<byte>) {
    forall k :: InRange(to, value, k) && InRange(at, data, k) ==> ByteAt(at, data, k) == ByteAt(to, value, k)
  }

  /**
   * In a sane layout a later value that stands in the image still stands there after any bytes are
   * written for an earlier one, exactly when these stop before its slot or bring the same bytes.
   */
  lemma {:induction false} SpillIff(ks: seq<Kind>, image: seq<byte>, i: nat, data: seq<byte>, j: nat, u: Uniform)
    requires Sane(ks) && i < j < |ks| && Numeric(ks[i]) && Numeric(ks[j]) && Shown(ks, u, image, j)
    requires Offset(ks, i) + |data| <= |image|
    ensures Shown(ks, u, Written(image, Offset(ks, i), data), j)
            <==> Offset(ks, i) + |data| <= Offset(ks, j)
                 || AgreeWhereBothWrite(Offset(ks, i), data, Offset(ks, j), u.value)
  {
    hide Offset, Sane;
    Behind(ks, i, j);
    OverwrittenIff(image, Offset(ks, i), data, Offset(ks, j), u.value);
  }

  lemma {:induction false} OverwrittenIff(image: seq<byte>, at: nat, data: seq<byte>, to: nat, value: seq<byte>)
    requires at + |data| <= |image| && to + |value| <= |image| && image[to..to + |value|] == value
    ensures Written(image, at, data)[to..to + |value|] == value <==> AgreeWhereBothWrite(at, data, to, value)
  {
    var w := Written(image, at, data);
    forall k | 0 <= k < |value|
      ensures image[to + k] == value[k]
      ensures w[to + k] == if InRange(at, data, to + k) then ByteAt(at, data, to + k) else value[k]
    {
      assert image[to + k] == image[to..to + |value|][k];
      WrittenByte(image, at, data, to + k);
    }
    if AgreeWhereBothWrite(at, data, to, value) {
      forall k | 0 <= k < |value| ensures w[to + k] == value[k] {
        if InRange(at, data, to + k) { assert ByteAt(to, value, to + k) == value[k]; }
      }
      assert w[to..to + |value|] == value;
    }
    forall k: nat | InRange(to, value, k) && InRange(at, data, k)
      ensures w[to..to + |value|] == value ==> ByteAt(at, data, k) == ByteAt(to, value, k)
    {
      assert w[to + (k - to)] == w[to..to + |value|][k - to];
    }
  }

  /** Two floats, the first set as an array of two: the second is overwritten unless it has the same bytes. */
  lemma {:induction false} ArraySpills(image: seq<byte>, data: seq<byte>, u: Uniform)
    requires |image| == 16 && |data| == 8 && |u.value| == 4 && Shown([Scalar, Scalar], u, image, 1)
    ensures Offset([Scalar, Scalar], 0) == 0
    ensures Shown([Scalar, Scalar], u, Written(image, 0, data), 1) <==> data[4..] == u.value
  {
    var ks := [Scalar, Scalar];
    EndStep(ks, 0);
    assert Offset(ks, 0) == 0 && Offset(ks, 1) == 4;
    OverwrittenIff(image, 0, data, 4, u.value);
    forall k | 0 <= k < 4 ensures AgreeWhereBothWrite(0, data, 4, u.value) ==> data[4..][k] == u.value[k] {
      assert InRange(4, u.value, 4 + k) && InRange(0, data, 4 + k);
      assert AgreeWhereBothWrite(0, data, 4, u.value) ==> ByteAt(0, data, 4 + k) == ByteAt(4, u.value, 4 + k);
    }
    forall k: nat | InRange(4, u.value, k) ensures data[4..] == u.value ==> ByteAt(0, data, k) == ByteAt(4, u.value, k) {
      assert data[k] == data[4..][k - 4];
    }
  }

  // ----- A whole upload

  predicate AllHaveRoom(ks: seq<Kind>, us: seq<Uniform>, image: seq<byte>, n: nat)
    requires n <= |ks| == |us|
  {
    forall i :: 0 <= i < n ==> HasRoom(ks, us[i], image, i)
  }

  /** The image after the first `n` uniforms have been updated in order. */
  function Uploaded(ks: seq<Kind>, us: seq<Uniform>, image: seq<byte>, n: nat): (r: seq<byte>)
    requires n <= |ks| == |us| && AllHaveRoom(ks, us, image, n)
    ensures |r| == |image|
  {
    if n == 0 then image
    else
      var r := Uploaded(ks, us, image, n - 1);
      assert HasRoom(ks, us[n - 1], image, n - 1);
      if Pending(ks[n - 1], us[n - 1]) then Written(r, Offset(ks, n - 1), us[n - 1].value) else r
  }

  predicate Writes(ks: seq<Kind>, us: seq<Uniform>, i: nat, k: nat)
    requires i < |ks| == |us|
  {
    Pending(ks[i], us[i]) && InRange(Offset(ks, i), us[i].value, k)
  }

  /** Bytes no uniform writes stay as they are. */
  lemma {:induction false} Unwritten(ks: seq<Kind>, us: seq<Uniform>, image: seq<byte>, lo: nat, n: nat, k: nat)
    requires lo <= n <= |ks| == |us| && AllHaveRoom(ks, us, image, n) && k < |image|
    requires forall j :: lo <= j < n ==> !Writes(ks, us, j, k)
    ensures AllHaveRoom(ks, us, image, lo)
    ensures Uploaded(ks, us, image, n)[k] == Uploaded(ks, us, image, lo)[k]
  {
    hide Offset;
    if lo < n {
      Unwritten(ks, us, image, lo, n - 1, k);
      OneUpdate(ks, us, image, n - 1, k);
    }
  }

  lemma {:induction false} OneUpdate(ks: seq<Kind>, us: seq<Uniform>, image: seq<byte>, i: nat, k: nat)
    requires i < |ks| == |us| && AllHaveRoom(ks, us, image, i + 1) && k < |image|
    ensures Uploaded(ks, us, image, i + 1)[k]
         == if Writes(ks, us, i, k) then ByteAt(Offset(ks, i), us[i].value, k) else Uploaded(ks, us, image, i)[k]
  {
    hide Offset;
    assert HasRoom(ks, us[i], image, i);
    if Pending(ks[i], us[i]) { WrittenByte(Uploaded(ks, us, image, i), Offset(ks, i), us[i].value, k); }
  }

  /** Each byte is that of the last uniform to write it, in any layout and with values of any length. */
  lemma {:induction false} LastWriterWins(ks: seq<Kind>, us: seq<Uniform>, image: seq<byte>, i: nat, k: nat)
    requires i < |ks| == |us| && AllHaveRoom(ks, us, image, |ks|) && k < |image|
    requires Writes(ks, us, i, k) && forall j :: i < j < |ks| ==> !Writes(ks, us, j, k)
    ensures Uploaded(ks, us, image, |ks|)[k] == ByteAt(Offset(ks, i), us[i].value, k)
  {
    hide Offset, Uploaded;
    Unwritten(ks, us, image, i + 1, |ks|, k);
    OneUpdate(ks, us, image, i, k);
  }

  class Shader {
    const kinds: seq<Kind>
    var uniforms: seq<Uniform>
    var uniformData: seq<byte>
    ghost var spilled: bool

    /** The image keeps its size; in a sane layout it is current unless a value has run out of its slot. */
    ghost predicate Valid()
      reads this
    {
      && |uniforms| == |kinds| && |uniformData| == AlignUp(End(kinds), 16)
      && (Sane(kinds) && !spilled ==> Current(kinds, uniforms, uniformData))
    }

    /** Defaults are remembered but not yet marked, so an upload does not write them. */
    constructor (kinds: seq<Kind>, defaults: seq<seq<byte>>)
      requires |defaults| == |kinds|
      ensures Valid() && this.kinds == kinds && !spilled
      ensures forall k :: 0 <= k < |uniformData| ==> uniformData[k] == 0
    {
      this.kinds := kinds;
      uniforms := seq(|kinds|, i requires 0 <= i < |kinds| => Uniform(defaults[i], false, false));
      uniformData := seq(AlignUp(End(kinds), 16), _ => 0);
      spilled := false;
    }

    /** Takes bytes of any number. */
    method SetParameter(i: nat, data: seq<byte>)
      requires Valid() && i < |kinds|
      modifies this`uniforms
      ensures Valid() && uniforms == old(uniforms)[i := Uniform(data, true, true)]
    {
      uniforms := uniforms[i := Uniform(data, true, true)];
    }

    /** Replacing bytes beyond the image's end stops the program; nothing has been written then. */
    method UpdateUniform(i: nat) returns (ok: bool)
      requires Valid() && i < |kinds|
      modifies this
      ensures Valid() && |uniformData| == |old(uniformData)|
      ensures ok == HasRoom(kinds, old(uniforms)[i], old(uniformData), i)
      ensures ok ==> uniforms == Unmarked(old(uniforms), i)
      ensures uniformData == if ok && Pending(kinds[i], old(uniforms)[i])
                             then Written(old(uniformData), Offset(kinds, i), old(uniforms)[i].value)
                             else old(uniformData)
      ensures !ok ==> uniforms == old(uniforms)
      ensures spilled == (old(spilled) || (ok && Pending(kinds[i], old(uniforms)[i]) && !FitsSlot(kinds[i], old(uniforms)[i])))
    {
      hide Offset, Current;
      if !IsTexture(kinds[i]) && uniforms[i].hasUpdates {
        if Offset(kinds, i) + |uniforms[i].value| > |uniformData| {
          return false;
        }
        if !FitsSlot(kinds[i], uniforms[i]) {
          spilled := true;
        } else if Sane(kinds) && !spilled {
          WriteSlot(kinds, uniforms, uniformData, i);
        }
        uniformData := Written(uniformData, Offset(kinds, i), uniforms[i].value);
      } else if Sane(kinds) && !spilled {
        UnmarkKeeps(kinds, uniforms, uniformData, i);
      }
      uniforms := uniforms[i := uniforms[i].(hasUpdates := false)];
      return true;
    }

    /**
     * An upload gets through exactly if the image has room for every value that is due, and has then
     * written them in order and cleared every mark. In a sane layout, as long as no value ran
     * out of its slot, every uniform ever set then stands in the image as it was last given.
     */
    method UploadShaderParameters() returns (ok: bool)
      requires Valid()
      modifies this
      ensures Valid() && |uniformData| == |old(uniformData)|
      ensures ok == AllHaveRoom(kinds, old(uniforms), old(uniformData), |kinds|)
      ensures ok ==> uniformData == Uploaded(kinds, old(uniforms), old(uniformData), |kinds|)
      ensures ok ==> forall i :: 0 <= i < |kinds| ==> uniforms[i] == old(uniforms)[i].(hasUpdates := false)
      ensures ok && Sane(kinds) && !spilled ==>
                forall i :: 0 <= i < |kinds| && Numeric(kinds[i]) && uniforms[i].wasSet && FitsSlot(kinds[i], uniforms[i]) ==>
                  Shown(kinds, uniforms[i], uniformData, i)
      ensures AllFit(kinds, old(uniforms)) ==> spilled == old(spilled) && (Sane(kinds) ==> ok)
    {
      hide Offset, Sane, FitsSlot;
      var i := 0;
      while i < |uniforms|
        invariant 0 <= i <= |uniforms| == |old(uniforms)| && Valid() && |uniformData| == |old(uniformData)|
        invariant AllHaveRoom(kinds, old(uniforms), old(uniformData), i)
        invariant uniformData == Uploaded(kinds, old(uniforms), old(uniformData), i)
        invariant forall k :: 0 <= k < i ==> uniforms[k] == old(uniforms)[k].(hasUpdates := false)
        invariant forall k :: i <= k < |uniforms| ==> uniforms[k] == old(uniforms)[k]
        invariant AllFit(kinds, old(uniforms)) ==> spilled == old(spilled)
      {
        if Sane(kinds) && AllFit(kinds, old(uniforms)) { RoomFor(kinds, uniforms[i], uniformData, i); }
        ok := UpdateUniform(i);
        if !ok {
          return false;
        }
        i := i + 1;
      }
      return true;
    }
  }

  predicate AllFit(ks: seq<Kind>, us: seq<Uniform>) {
    forall i :: 0 <= i < |ks| && i < |us| ==> FitsSlot(ks[i], us[i])
  }

  lemma {:induction false} RoomFor(ks: seq<Kind>, u: Uniform, image: seq<byte>, i: nat)
    requires Sane(ks) && i < |ks| && FitsSlot(ks[i], u) && |image| >= End(ks)
    ensures HasRoom(ks, u, image, i)
  {
    if !IsTexture(ks[i]) { SlotInside(ks, i); }
  }

  lemma {:induction false} UnmarkKeeps(ks: seq<Kind>, us: seq<Uniform>, image: seq<byte>, i: nat)
    requires |us| == |ks| && i < |ks| && Current(ks, us, image) && !Pending(ks[i], us[i])
    ensures Current(ks, Unmarked(us, i), image)
  {
    if !us[i].hasUpdates { assert Unmarked(us, i) == us; }
  }
}

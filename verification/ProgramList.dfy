/**
 * The cache as the device keeps it: an intrusive list in which every program also knows the slot
 * that points to it. Each operation is shown to take the step of the cache model.
 */
module ProgramList {
  import opened Wrappers
  import opened ProgramCache

  /** The pointer that leads to a program: none, the device's first pointer, or a program's next. */
  datatype Slot = Unlinked | First | NextOf(before: Program)

  class Program {
    const vertexShader: Address
    const pixelShader: Address
    ghost const vsSerial: nat
    ghost const psSerial: nat
    var params: seq<ParamRef>
    var prevNext: Slot
    var next: Program?

    constructor (vs: Address, ps: Address, ghost vsSerial: nat, ghost psSerial: nat)
      ensures vertexShader == vs && pixelShader == ps && this.vsSerial == vsSerial && this.psSerial == psSerial
      ensures params == [] && prevNext == Unlinked && next == null
    {
      vertexShader, pixelShader, this.vsSerial, this.psSerial := vs, ps, vsSerial, psSerial;
      params, prevNext, next := [], Unlinked, null;
    }

    predicate Is(e: Entry)
      reads this`params
    {
      e.vs == vertexShader && e.ps == pixelShader && e.params == params
    }

    ghost predicate Matches(e: Entry)
      reads this`params
    {
      Is(e) && e.vsSerial == vsSerial && e.psSerial == psSerial
    }

    /** Asks for each of a shader's uniforms; stops at the first query that fails. */
    method AssignParams(at: Address, n: nat, link: Link) returns (ok: bool)
      modifies this`params
      ensures ok == AllAnswered(at, n, link.failing)
      ensures ok ==> params == old(params) + Located(at, 0, n, link.located)
    {
      var i := 0;
      while i < n
        invariant 0 <= i <= n
        invariant AllAnswered(at, i, link.failing)
        invariant params + Located(at, i, n, link.located) == old(params) + Located(at, 0, n, link.located)
      {
        if ParamRef(at, i) in link.failing {
          return false;
        }
        if ParamRef(at, i) in link.located {
          params := params + [ParamRef(at, i)];
        }
        i := i + 1;
      }
      return true;
    }
  }

  class Device {
    var firstProgram: Program?
    var curProgram: Program?
    var curVertexShader: Option<Address>
    var curPixelShader: Option<Address>
    var memory: map<Address, Shader>
    var live: set<Address>
    var nextSerial: nat
    ghost var list: seq<Program>
    ghost var entries: seq<Entry>
    ghost var current: Option<Entry>

    ghost function Nodes(): set<Program>
      reads this`list
    {
      set p | p in list
    }

    /** Both chains of pointers spell out `list`, front to back and back to front. */
    ghost predicate Chained()
      reads this`list, this`firstProgram, Nodes()`next, Nodes()`prevNext
    {
      && firstProgram == At(0)
      && (forall i {:trigger list[i].next} :: 0 <= i < |list| ==> list[i].next == At(i + 1))
      && (forall i {:trigger list[i].prevNext} :: 0 <= i < |list| ==> list[i].prevNext == SlotOf(i))
      && (forall i, j :: 0 <= i < j < |list| ==> list[i] != list[j])
    }

    ghost function At(i: nat): Program?
      reads this`list
    {
      if i < |list| then list[i] else null
    }

    ghost function SlotOf(i: nat): Slot
      reads this`list
      requires i < |list|
    {
      if i == 0 then First else NextOf(list[i - 1])
    }

    ghost predicate Valid()
      reads this, Nodes()
    {
      && Chained()
      && Matching()
      && (curProgram == null <==> current.None?)
      && (curProgram != null ==> curProgram in list && curProgram.Matches(current.value))
    }

    ghost predicate Matching()
      reads this`list, this`entries, Nodes()`params
    {
      |entries| == |list| && forall i :: 0 <= i < |list| ==> list[i].Matches(entries[i])
    }

    ghost function Abs(): State
      reads this
    {
      State(entries, current, curVertexShader, curPixelShader, memory, live, nextSerial)
    }

    constructor ()
      ensures Valid() && Abs() == State([], None, None, None, map[], {}, 0)
    {
      firstProgram, curProgram, curVertexShader, curPixelShader := null, null, None, None;
      memory, live, nextSerial, list, entries, current := map[], {}, 0, [], [], None;
    }

    /** Takes a program out of both chains; `k` is its place in the list. */
    method Unlink(p: Program, ghost k: nat)
      requires Chained() && k < |list| && list[k] == p
      modifies this`firstProgram, this`list, Nodes()`next, Nodes()`prevNext
      ensures list == Cut(old(list), k) && Chained()
    {
      assert p.next == At(k + 1) && p.prevNext == SlotOf(k);
      if p.next != null {
        p.next.prevNext := p.prevNext;
      }
      match p.prevNext {
        case First => firstProgram := p.next;
        case NextOf(before) => before.next := p.next;
      }
      list := Cut(list, k);
    }

    /** Drops a program: a listed one leaves the list, one that was never linked leaves it as it is. */
    method DestroyProgram(p: Program)
      requires Valid() && (p in list || (p.prevNext == Unlinked && p.next == null))
      modifies this`firstProgram, this`curProgram, this`list, this`entries, this`current, Nodes()`next, Nodes()`prevNext
      ensures Valid()
      ensures curProgram == if old(curProgram) == p then null else old(curProgram)
      ensures p !in old(list) ==> list == old(list) && entries == old(entries) && current == old(current)
      ensures forall k :: 0 <= k < |old(list)| && old(list)[k] == p ==>
                list == Cut(old(list), k) && entries == Cut(old(entries), k)
                && current == if old(curProgram) == p then None else old(current)
    {
      hide Chained;
      ghost var k := if p in list then IndexOf(p) else 0;
      if p in list { OnlyAt(k); }
      if curProgram == p {
        curProgram := null;
        current := None;
      }
      if p.prevNext != Unlinked {
        Unlink(p, k);
        entries := Cut(entries, k);
      }
    }

    lemma OnlyAt(k: nat)
      requires Chained() && k < |list|
      ensures list[k].prevNext != Unlinked
      ensures forall i :: 0 <= i < |list| && i != k ==> list[i] != list[k]
    {
    }

    method PushFront(p: Program)
      requires Chained() && p !in list
      modifies this`firstProgram, this`list, Nodes()`prevNext, p`next, p`prevNext
      ensures list == [p] + old(list) && Chained()
    {
      ghost var was := list;
      assert firstProgram == At(0);
      p.next := firstProgram;
      p.prevNext := First;
      firstProgram := p;
      if p.next != null {
        p.next.prevNext := NextOf(p);
      }
      list := [p] + list;
      assert forall i :: 1 <= i < |list| ==> list[i] == was[i - 1];
    }

    ghost function IndexOf(p: Program): (k: nat)
      reads this`list
      requires p in list
      ensures k < |list| && list[k] == p
    {
      var k :| 0 <= k < |list| && list[k] == p;
      k
    }

    /** First program for the current pair of shaders, if any. */
    method FindProgram() returns (r: Program?)
      requires Valid() && curVertexShader.Some? && curPixelShader.Some?
      ensures var found := Find(entries, curVertexShader.value, curPixelShader.value);
              (r == null <==> found.None?) && (r != null ==> r in list && r.Matches(found.value))
    {
      var vs, ps := curVertexShader.value, curPixelShader.value;
      r := firstProgram;
      ghost var k := 0;
      while r != null
        invariant k <= |list| && r == At(k)
        invariant Find(entries, vs, ps) == Find(entries[k..], vs, ps)
        decreases |list| - k
      {
        if r.vertexShader == vs && r.pixelShader == ps {
          return;
        }
        r := r.next;
        k := k + 1;
      }
    }

    /** Everything the driver is asked for a new program. */
    method LinkProgram(p: Program, link: Link) returns (ok: bool)
      requires Loaded(Abs()) && p.vertexShader == curVertexShader.value && p.pixelShader == curPixelShader.value
      requires p.vsSerial == memory[p.vertexShader].serial && p.psSerial == memory[p.pixelShader].serial
      requires p.params == []
      modifies p`params
      ensures var made := Linked(Abs(), link); ok == made.Some? && (ok ==> p.Matches(made.value))
    {
      ok := link.linked;
      if ok {
        ok := p.AssignParams(p.vertexShader, memory[p.vertexShader].numParams, link);
      }
      if ok {
        ok := p.AssignParams(p.pixelShader, memory[p.pixelShader].numParams, link);
      }
    }

    /** Links the current shaders; only a program that got through everything enters the list. */
    method CreateProgram(link: Link) returns (r: Program?)
      requires Valid() && Loaded(Abs())
      modifies this`firstProgram, this`curProgram, this`list, this`entries, this`current, Nodes()`next, Nodes()`prevNext
      ensures Valid() && current == old(current) && curProgram == old(curProgram)
      ensures r != null ==> r.vertexShader == curVertexShader.value && r.pixelShader == curPixelShader.value
      ensures var made := Linked(old(Abs()), link);
              if made.Some?
              then r != null && r.Matches(made.value) && list == [r] + old(list) && entries == [made.value] + old(entries)
              else r == null && list == old(list) && entries == old(entries)
    {
      hide Chained, Linked;
      var vs, ps := curVertexShader.value, curPixelShader.value;
      var p := new Program(vs, ps, memory[vs].serial, memory[ps].serial);
      var ok := LinkProgram(p, link);
      assert Chained() && Matching() by { assert p !in list; }
      if !ok {
        DestroyProgram(p);
        return null;
      }
      PushFront(p);
      entries := [Linked(old(Abs()), link).value] + entries;
      return p;
    }

    /** If the program in use is to go, the walk has not reached it. */
    ghost predicate Ahead(k: nat, at: Address, kind: Kind)
      reads this`current, this`curProgram, this`list
    {
      current.Some? && Uses(current.value, at, kind) ==> exists i :: k <= i < |list| && list[i] == curProgram
    }

    /** One stop of the walk, at the program that is `k`-th in the list. */
    method Visit(program: Program, ghost k: nat, at: Address, kind: Kind) returns (next: Program?, ghost k': nat)
      requires Valid() && k < |list| && program == list[k] && Ahead(k, at, kind)
      modifies this`firstProgram, this`curProgram, this`list, this`entries, this`current, Nodes()`next, Nodes()`prevNext
      ensures Valid() && Nodes() <= old(Nodes()) && Ahead(k', at, kind) && k' <= |list| && next == At(k')
      ensures if Uses(old(entries)[k], at, kind) then entries == Cut(old(entries), k) && k' == k
              else entries == old(entries) && k' == k + 1
      ensures current == old(current) || (old(current).Some? && Uses(old(current).value, at, kind) && current.None?)
    {
      hide Chained;
      Step(k);
      OnlyAt(k);
      next := program.next;
      assert program.Matches(entries[k]);
      ghost var c: nat := k;
      if current.Some? && Uses(current.value, at, kind) {
        c :| k <= c < |list| && list[c] == curProgram;
      }
      if UsedBy(program, at, kind) {
        DestroyProgram(program);
        k' := k;
        assert c > k ==> list[c - 1] == old(list)[c];
      } else {
        k' := k + 1;
        assert current.Some? && Uses(current.value, at, kind) ==> list[c] != list[k];
      }
    }

    /** Walks the list and destroys every program built from the shader. */
    method RemoveReferences(at: Address, kind: Kind)
      requires Valid()
      modifies this`firstProgram, this`curProgram, this`list, this`entries, this`current, Nodes()`next, Nodes()`prevNext
      ensures Valid() && Nodes() <= old(Nodes())
      ensures entries == Without(old(entries), at, kind)
      ensures current == if old(current).Some? && Uses(old(current).value, at, kind) then None else old(current)
    {
      hide Chained, Midway, Without;
      var program := firstProgram;
      ghost var k: nat, n: nat := 0, 0;
      Front();
      Begun(entries, at, kind);
      while program != null
        invariant Valid() && Nodes() <= old(Nodes())
        invariant k <= |list| && program == At(k)
        invariant Midway(old(entries), entries, k, n, at, kind)
        invariant current == old(current) || (old(current).Some? && Uses(old(current).value, at, kind) && current.None?)
        invariant Ahead(k, at, kind)
        decreases |list| - k
      {
        Advance(old(entries), entries, k, n, at, kind);
        program, k := Visit(program, k, at, kind);
        n := n + 1;
      }
      Finished(old(entries), entries, n, at, kind);
    }

    // ----- Entry points

    method CreateShader(at: Address, kind: Kind, numParams: nat)
      requires Valid() && Basic(Abs()) && at !in live
      modifies this`memory, this`live, this`nextSerial
      ensures Valid() && Abs() == Next(old(Abs()), ProgramCache.CreateShader(at, kind, numParams))
    {
      memory, live := memory[at := Shader(kind, numParams, nextSerial)], live + {at};
      nextSerial := nextSerial + 1;
    }

    method DestroyShader(at: Address)
      requires Valid() && Basic(Abs()) && at in live
      modifies this, Nodes()
      ensures Valid() && Abs() == Next(old(Abs()), ProgramCache.DestroyShader(at))
    {
      RemoveReferences(at, memory[at].kind);
      live := live - {at};
    }

    method LoadVertexShader(shader: Option<Address>)
      requires Valid() && Basic(Abs()) && (shader.Some? ==> shader.value in live)
      modifies this`curVertexShader
      ensures Valid() && Abs() == Next(old(Abs()), ProgramCache.LoadVertexShader(shader))
    {
      if curVertexShader == shader {
        return;
      }
      if shader.Some? && memory[shader.value].kind != Vertex {
        return;
      }
      curVertexShader := shader;
    }

    method LoadPixelShader(shader: Option<Address>)
      requires Valid() && Basic(Abs()) && (shader.Some? ==> shader.value in live)
      modifies this`curPixelShader
      ensures Valid() && Abs() == Next(old(Abs()), ProgramCache.LoadPixelShader(shader))
    {
      if curPixelShader == shader {
        return;
      }
      if shader.Some? && memory[shader.value].kind != Pixel {
        return;
      }
      curPixelShader := shader;
    }

    /** The cached program for the current shaders, or a new one. */
    method GetProgram(link: Link) returns (program: Program?)
      requires Valid() && Loaded(Abs())
      modifies this`firstProgram, this`curProgram, this`list, this`entries, this`current, Nodes()`next, Nodes()`prevNext
      ensures Valid() && current == old(current) && curProgram == old(curProgram)
      ensures program == null ==> Abs() == Drawn(old(Abs()), link)
      ensures program != null ==>
        program.vertexShader == curVertexShader.value && program.pixelShader == curPixelShader.value
      ensures program != null ==>
        program in list && Abs().(current := Some(EntryOf(program))) == Drawn(old(Abs()), link)
    {
      hide Chained, Linked;
      FindIsLookup(entries, curVertexShader.value, curPixelShader.value);
      hide Find;
      program := FindProgram();
      if program == null {
        program := CreateProgram(link);
      }
    }

    /** The part of a draw that chooses the program; `ready` stands for the checks on buffers and targets. */
    method Draw(ready: bool, link: Link)
      requires Valid() && Basic(Abs())
      modifies this, Nodes()
      ensures Valid() && Abs() == Next(old(Abs()), ProgramCache.Draw(ready, link))
      ensures curProgram == old(curProgram)
              || (curProgram != null && Some(curProgram.vertexShader) == curVertexShader && Some(curProgram.pixelShader) == curPixelShader)
    {
      hide Chained, Drawn, Matching;
      if !ready || curVertexShader.None? || curPixelShader.None? {
        return;
      }
      var program := GetProgram(link);
      if program == null {
        return;
      }
      if program != curProgram {
        curProgram := program;
      }
      current := Some(EntryOf(program));
    }

    ghost function EntryOf(p: Program): Entry
      reads p`params
    {
      Entry(p.vertexShader, p.pixelShader, p.params, p.vsSerial, p.psSerial)
    }

    /** Destroying the device destroys the first program until none is left. */
    method DestroyAll()
      requires Valid()
      modifies this, Nodes()
      ensures Valid() && list == [] && firstProgram == null && curProgram == null
      ensures curVertexShader == old(curVertexShader) && curPixelShader == old(curPixelShader) && live == old(live)
    {
      hide Matching;
      while firstProgram != null
        invariant Valid() && Nodes() <= old(Nodes())
        invariant curVertexShader == old(curVertexShader) && curPixelShader == old(curPixelShader) && live == old(live)
        decreases |list|
      {
        assert firstProgram == list[0];
        DestroyProgram(firstProgram);
      }
    }

    lemma Front()
      requires Chained()
      ensures firstProgram == At(0)
    {
    }

    lemma Step(k: nat)
      requires Chained() && k < |list|
      ensures list[k].next == At(k + 1)
    {
    }
  }

  ghost function Cut<T>(s: seq<T>, k: nat): (r: seq<T>)
    requires k < |s|
    ensures |r| == |s| - 1
    ensures forall i :: 0 <= i < k ==> r[i] == s[i]
    ensures forall i :: k <= i < |r| ==> r[i] == s[i + 1]
  {
    s[..k] + s[k + 1..]
  }

  predicate UsedBy(p: Program, at: Address, kind: Kind) {
    (kind == Vertex && p.vertexShader == at) || (kind == Pixel && p.pixelShader == at)
  }

  lemma {:induction false} WithoutConcat(a: seq<Entry>, b: seq<Entry>, at: Address, kind: Kind)
    ensures Without(a + b, at, kind) == Without(a, at, kind) + Without(b, at, kind)
  {
    if a == [] {
      assert a + b == b;
    } else {
      assert (a + b)[1..] == a[1..] + b;
      WithoutConcat(a[1..], b, at, kind);
    }
  }

  /** `n` programs of the old list have been looked at, and `k` of them kept. */
  ghost predicate Midway(was: seq<Entry>, now: seq<Entry>, k: nat, n: nat, at: Address, kind: Kind) {
    && n <= |was| && k <= |now| && |now| - k == |was| - n
    && now[..k] == Without(was[..n], at, kind) && now[k..] == was[n..]
  }

  lemma Begun(was: seq<Entry>, at: Address, kind: Kind)
    ensures Midway(was, was, 0, 0, at, kind)
  {
    assert was[..0] == [];
  }

  lemma Advance(was: seq<Entry>, now: seq<Entry>, k: nat, n: nat, at: Address, kind: Kind)
    requires Midway(was, now, k, n, at, kind) && k < |now|
    ensures n < |was|
    ensures if Uses(now[k], at, kind) then Midway(was, Cut(now, k), k, n + 1, at, kind)
            else Midway(was, now, k + 1, n + 1, at, kind)
  {
    assert now[k] == now[k..][0] == was[n..][0] == was[n];
    WithoutSnoc(was, n, at, kind);
    assert now[..k + 1] == now[..k] + [now[k]];
    assert now[k + 1..] == now[k..][1..] == was[n..][1..] == was[n + 1..];
    assert Cut(now, k)[..k] == now[..k] && Cut(now, k)[k..] == now[k + 1..];
  }

  lemma Finished(was: seq<Entry>, now: seq<Entry>, n: nat, at: Address, kind: Kind)
    requires Midway(was, now, |now|, n, at, kind)
    ensures now == Without(was, at, kind)
  {
    assert was[..n] == was && now[..|now|] == now;
  }

  lemma WithoutSnoc(es: seq<Entry>, n: nat, at: Address, kind: Kind)
    requires n < |es|
    ensures Without(es[..n + 1], at, kind) ==
            Without(es[..n], at, kind) + if Uses(es[n], at, kind) then [] else [es[n]]
  {
    assert es[..n + 1] == es[..n] + [es[n]];
    WithoutConcat(es[..n], [es[n]], at, kind);
  }
}

/**
 * The filter over the DMA-BUF modifiers a driver reports: entries that only external textures can
 * use are moved out of the array in place, while the flags stay where they were.
 */
module ModifierFilter {

  /** The modifiers whose flag is not set, in order. */
  function Kept(modifiers: seq<nat>, external: seq<bool>): seq<nat>
    requires |modifiers| == |external|
  {
    if modifiers == [] then []
    else (if external[0] then [] else [modifiers[0]]) + Kept(modifiers[1..], external[1..])
  }

  /** Unmarked entries among the first `i`. */
  function Unmarked(external: seq<bool>, i: nat): nat
    requires i <= |external|
  {
    if i == 0 then 0 else Unmarked(external, i - 1) + if external[i - 1] then 0 else 1
  }

  lemma {:induction false} UnmarkedTail(external: seq<bool>, i: nat)
    requires 0 < i <= |external|
    ensures Unmarked(external, i) == (if external[0] then 0 else 1) + Unmarked(external[1..], i - 1)
  {
    if i > 1 { UnmarkedTail(external, i - 1); }
  }

  /** The `i`-th modifier, if unmarked, stands in the result behind exactly the unmarked ones before it. */
  lemma {:induction false} KeptPosition(modifiers: seq<nat>, external: seq<bool>, i: nat)
    requires |modifiers| == |external| && i <= |external|
    ensures |Kept(modifiers, external)| == Unmarked(external, |external|)
    ensures i < |external| && !external[i] ==>
              && Unmarked(external, i) < |Kept(modifiers, external)|
              && Kept(modifiers, external)[Unmarked(external, i)] == modifiers[i]
    decreases |modifiers|
  {
    if modifiers != [] {
      UnmarkedTail(external, |external|);
      KeptPosition(modifiers[1..], external[1..], if i > 0 then i - 1 else 0);
      if i > 0 { UnmarkedTail(external, i); }
    }
  }

  lemma {:induction false} KeptStep(was: seq<nat>, flags: seq<bool>, i: nat)
    requires |was| == |flags| && i < |was|
    ensures Kept(was[i..], flags[i..]) == (if flags[i] then [] else [was[i]]) + Kept(was[i + 1..], flags[i + 1..])
  {
    assert was[i..][1..] == was[i + 1..] && flags[i..][1..] == flags[i + 1..];
  }

  /** Removes element `j` of the first `n + 1` by moving the rest down. */
  method MoveDown(list: array<nat>, j: nat, n: nat)
    requires j <= n < list.Length
    modifies list
    ensures list[..n] == old(list[..j] + list[j + 1..n + 1])
  {
    var k := j;
    while k < n
      invariant j <= k <= n
      invariant forall i :: 0 <= i < j ==> list[i] == old(list[i])
      invariant forall i :: j <= i < k ==> list[i] == old(list[i + 1])
      invariant forall i :: k < i <= n ==> list[i] == old(list[i])
    {
      list[k] := list[k + 1];
      k := k + 1;
    }
  }

  /** `i` walks the flags, `j` the shrinking array. */
  method Filter(list: array<nat>, external: array<bool>, count: nat) returns (n: nat)
    requires count <= list.Length && count <= external.Length
    modifies list
    ensures n <= count && list[..n] == Kept(old(list[..count]), external[..count])
  {
    hide Kept;
    n := count;
    var i, j := 0, 0;
    ghost var was, flags := list[..count], external[..count];
    assert was[0..] == was && flags[0..] == flags && list[..0] == [];
    while j < n
      invariant 0 <= j <= n <= count && i - j == count - n && i <= count
      invariant list[j..n] == was[i..]
      invariant list[..j] + Kept(was[i..], flags[i..]) == Kept(was, flags)
      decreases n - j
    {
      ghost var done, rest := list[..j], list[j..n];
      KeptStep(was, flags, i);
      assert rest[0] == was[i] && rest[1..] == was[i + 1..];
      if external[i] {
        n := n - 1;
        MoveDown(list, j, n);
        assert list[..n] == done + rest[1..];
        assert list[..j] == done && list[j..n] == rest[1..];
        assert done + ([] + Kept(was[i + 1..], flags[i + 1..])) == done + Kept(was[i + 1..], flags[i + 1..]);
      } else {
        assert list[..j + 1] == done + [was[i]] && list[j + 1..n] == rest[1..];
        assert done + ([was[i]] + Kept(was[i + 1..], flags[i + 1..])) == done + [was[i]] + Kept(was[i + 1..], flags[i + 1..]);
        j := j + 1;
      }
      i := i + 1;
    }
    KeptNothing(was, flags, i);
    assert list[..j] + [] == list[..j];
  }

  lemma {:induction false} KeptNothing(was: seq<nat>, flags: seq<bool>, i: nat)
    requires i == |was| == |flags|
    ensures Kept(was[i..], flags[i..]) == []
  {
  }
}

/**
 * The Lister of the `visible` group command
 * (app/lib/commands/group/visible.js): the ordered list of the ids of the
 * visible layers, edited in place by insert, remove and up.
 */
module Visible {
  import opened Wrappers

  /** A layer id; the lister's values are the ids of layers. */
  type Id = string

  /** _.indexOf: the first index of x in s, or -1. */
  function IndexOf(s: seq<Id>, x: Id): (r: int)
    ensures -1 <= r < |s|
    ensures r == -1 <==> x !in s
    ensures 0 <= r ==> s[r] == x && forall j :: 0 <= j < r ==> s[j] != x
  {
    if |s| == 0 then -1
    else if s[0] == x then 0
    else var k := IndexOf(s[1..], x); if k == -1 then -1 else k + 1
  }

  /** _.without: s with every occurrence of x dropped, the rest in order. */
  function Without(s: seq<Id>, x: Id): (r: seq<Id>)
    ensures x !in r
    ensures forall y :: y in r ==> y in s
  {
    if |s| == 0 then []
    else if s[0] == x then Without(s[1..], x) else [s[0]] + Without(s[1..], x)
  }

  /** _.without keeps every other value as often as it occurs and drops every x. */
  lemma {:induction false} WithoutCounts(s: seq<Id>, x: Id)
    ensures forall y :: y != x ==> multiset(Without(s, x))[y] == multiset(s)[y]
    ensures |Without(s, x)| == |s| - multiset(s)[x]
  {
    if |s| > 0 {
      WithoutCounts(s[1..], x);
      assert s == [s[0]] + s[1..];
    }
  }

  /** The position Array.prototype.splice starts at for a given index. */
  function SpliceStart(idx: int, len: nat): (k: nat)
    ensures k <= len
    ensures 0 <= idx <= len ==> k == idx
  {
    if idx < 0 then (if len + idx >= 0 then len + idx else 0)
    else if idx <= len then idx else len
  }

  /** Where insert puts x: the end when idx is past it, splice's start otherwise. */
  function InsertPos(idx: int, len: nat): (k: nat)
    ensures k <= len
    ensures len < idx ==> k == len
    ensures 0 <= idx <= len ==> k == idx
  {
    if len < idx then len else SpliceStart(idx, len)
  }

  /** What insert leaves: x pushed when idx is past the end, spliced in otherwise. */
  function Inserted(s: seq<Id>, idx: int, x: Id): (r: seq<Id>)
    ensures |r| == |s| + 1 && multiset(r) == multiset(s) + multiset{x}
    ensures var k := InsertPos(idx, |s|); r[..k] == s[..k] && r[k] == x && r[k + 1..] == s[k..]
  {
    var k := InsertPos(idx, |s|);
    assert s == s[..k] + s[k..];
    s[..k] + [x] + s[k..]
  }

  /** Inserting and then removing x gives back the list, when x was absent. */
  lemma InsertThenRemove(s: seq<Id>, idx: int, x: Id)
    requires x !in s
    ensures Without(Inserted(s, idx, x), x) == s
  {
    var k := InsertPos(idx, |s|);
    assert Inserted(s, idx, x) == s[..k] + [x] + s[k..];
    WithoutAround(s[..k], s[k..], x);
    assert s[..k] + s[k..] == s;
  }

  /** Dropping the one x between a and b leaves a + b. */
  lemma {:induction false} WithoutAround(a: seq<Id>, b: seq<Id>, x: Id)
    requires x !in a && x !in b
    ensures Without(a + [x] + b, x) == a + b
  {
    if |a| == 0 {
      assert a + [x] + b == [x] + b;
      assert ([x] + b)[1..] == b;
      WithoutAbsent(b, x);
    } else {
      assert (a + [x] + b)[1..] == a[1..] + [x] + b;
      WithoutAround(a[1..], b, x);
      assert a + b == [a[0]] + (a[1..] + b);
    }
  }

  lemma WithoutAbsent(s: seq<Id>, x: Id)
    requires x !in s
    ensures Without(s, x) == s
  {
    if |s| > 0 {
      WithoutAbsent(s[1..], x);
      assert s == [s[0]] + s[1..];
    }
  }

  lemma {:induction false} WithoutConcat(a: seq<Id>, b: seq<Id>, x: Id)
    ensures Without(a + b, x) == Without(a, x) + Without(b, x)
  {
    if |a| > 0 {
      assert (a + b)[1..] == a[1..] + b;
      WithoutConcat(a[1..], b, x);
    } else {
      assert a + b == b;
    }
  }

  /**
   * What up leaves: an absent x changes nothing; a non-last x changes
   * places with its successor; the last x moves to the front.
   */
  function Upped(s: seq<Id>, x: Id): (r: seq<Id>)
    ensures |r| == |s| && multiset(r) == multiset(s)
    ensures x !in s ==> r == s
    ensures var i := IndexOf(s, x);
      0 <= i < |s| - 1 ==>
        r[i] == s[i + 1] && r[i + 1] == x &&
        forall j :: 0 <= j < |s| && j != i && j != i + 1 ==> r[j] == s[j]
    ensures IndexOf(s, x) == |s| - 1 >= 0 ==> r == [x] + s[..|s| - 1]
  {
    var i := IndexOf(s, x);
    if i < 0 then s
    else if i + 1 >= |s| then LastToFront(s)
    else SwapWithNext(s, i)
  }

  /** The last element moved to the front. */
  function LastToFront(s: seq<Id>): (r: seq<Id>)
    requires |s| > 0
    ensures |r| == |s| && multiset(r) == multiset(s)
  {
    assert s == s[..|s| - 1] + [s[|s| - 1]];
    [s[|s| - 1]] + s[..|s| - 1]
  }

  /** The elements at i and i + 1 exchanged. */
  function SwapWithNext(s: seq<Id>, i: nat): (r: seq<Id>)
    requires i + 1 < |s|
    ensures |r| == |s| && multiset(r) == multiset(s)
  {
    SwapMultiset(s, i, i + 1);
    s[i := s[i + 1]][i + 1 := s[i]]
  }

  lemma SwapMultiset(s: seq<Id>, i: int, j: int)
    requires 0 <= i < |s| && 0 <= j < |s|
    ensures multiset(s[i := s[j]][j := s[i]]) == multiset(s)
  {
    var t := s[i := s[j]];
    assert multiset(t) == multiset(s) - multiset{s[i]} + multiset{s[j]};
    assert multiset(t[j := s[i]]) == multiset(t) - multiset{t[j]} + multiset{s[i]};
  }

  /**
   * The list up builds when x is the last element, AS WRITTEN: slot 0 gets
   * the last element and the copy loop stops at length - 2, so the element
   * before the last is lost and the final slot stays undefined (None).
   */
  function WrapAsWritten(s: seq<Id>): (r: seq<Option<Id>>)
    requires |s| > 0
    ensures |r| == |s|
  {
    if |s| == 1 then [Some(s[0])]
    else [Some(s[|s| - 1])] + Somes(s[..|s| - 2]) + [None]
  }

  function Somes(s: seq<Id>): (r: seq<Option<Id>>)
    ensures |r| == |s| && forall i :: 0 <= i < |s| ==> r[i] == Some(s[i])
  {
    if |s| == 0 then [] else [Some(s[0])] + Somes(s[1..])
  }

  /** The loop of up for a last x, as written (bound length - 2). */
  method UpWrapAsWritten(s: seq<Id>) returns (list: seq<Option<Id>>)
    requires |s| > 0
    ensures list == WrapAsWritten(s)
  {
    var n := |s|;
    list := seq(n, _ => None);
    list := list[0 := Some(s[n - 1])];
    var i := 0;
    while i < n - 2
      invariant 0 <= i <= (if n >= 2 then n - 2 else 0)
      invariant |list| == n && list[0] == Some(s[n - 1])
      invariant forall j :: 0 <= j < i ==> list[j + 1] == Some(s[j])
      invariant forall j :: i + 1 <= j < n ==> j > 0 ==> list[j] == None
    {
      list := list[i + 1 := Some(s[i])];
      i := i + 1;
    }
    if n == 1 {
      assert list == [Some(s[0])];
    } else {
      assert list == [Some(s[n - 1])] + Somes(s[..n - 2]) + [None];
    }
  }

  /** Moving the last of ["a", "b"] up drops "a" and leaves a hole. */
  lemma WrapAsWrittenDropsElement()
    ensures WrapAsWritten(["a", "b"]) == [Some("b"), None]
    ensures Upped(["a", "b"], "b") == ["b", "a"]
  {
    assert Somes(["a", "b"][..0]) == [];
  }

  class Lister {
    var list: seq<Id>

    /**
     * new Lister(l): JSON.parse(JSON.stringify(l)) of a list of id strings
     * is an equal, unaliased list, and sequences are values.
     */
    constructor (l: seq<Id>)
      ensures list == l
    {
      list := l;
    }

    /** new Lister(): the parameter defaults to []. */
    constructor Empty()
      ensures list == []
    {
      list := [];
    }

    function Index(x: Id): (r: int)
      reads this
      ensures r == IndexOf(list, x)
    {
      IndexOf(list, x)
    }

    /** has(x) iff index(x) is not -1. */
    function Has(x: Id): (b: bool)
      reads this
      ensures b <==> Index(x) >= 0
      ensures b <==> x in list
    {
      Index(x) > -1
    }

    /** at(idx): undefined (None) outside the list. */
    function At(idx: int): (r: Option<Id>)
      reads this
      ensures 0 <= idx < |list| ==> r == Some(list[idx])
      ensures !(0 <= idx < |list|) ==> r == None
    {
      if 0 <= idx < |list| then Some(list[idx]) else None
    }

    method Insert(idx: int, x: Id)
      modifies this
      ensures list == Inserted(old(list), idx, x)
    {
      if |list| < idx {
        list := list + [x];
      } else {
        var k := SpliceStart(idx, |list|);
        list := list[..k] + [x] + list[k..];
      }
    }

    method Remove(x: Id)
      modifies this
      ensures list == Without(old(list), x)
    {
      list := Without(list, x);
    }

    method Swap(i0: int, i1: int)
      requires 0 <= i0 < |list| && 0 <= i1 < |list|
      modifies this
      ensures list == old(list)[i0 := old(list)[i1]][i1 := old(list)[i0]]
    {
      var tmp := list[i0];
      list := list[i0 := list[i1]];
      list := list[i1 := tmp];
    }

    /** up(x), with the wrap-around copy loop running to length - 1. */
    method Up(x: Id)
      modifies this
      ensures list == Upped(old(list), x)
    {
      var idx := Index(x);
      var newIdx := idx + 1;
      if idx < 0 {
        return;
      }
      if newIdx >= |list| {
        var n := |list|;
        var nl := [list[n - 1]];
        var i := 0;
        while i < n - 1
          invariant 0 <= i <= n - 1
          invariant nl == [list[n - 1]] + list[..i]
        {
          nl := nl + [list[i]];
          i := i + 1;
        }
        list := nl;
      } else {
        Swap(idx, newIdx);
      }
    }

    /** getList: a new array holding the list, never an alias of it. */
    method GetList() returns (a: array<Id>)
      ensures fresh(a) && a[..] == list
    {
      a := new Id[|list|](i requires 0 <= i < |list| reads this => list[i]);
    }
  }
}

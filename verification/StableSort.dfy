/** The stable in-place insertion sort the edit engine uses for matches and replacements. */
module StableSort {

  /** Puts `x` behind every element whose key is not larger, scanning from the back. */
  function Insert<T>(s: seq<T>, x: T, key: T -> nat): seq<T> {
    if s == [] || key(s[|s| - 1]) <= key(x) then s + [x]
    else Insert(s[..|s| - 1], x, key) + [s[|s| - 1]]
  }

  function Sorted<T>(s: seq<T>, key: T -> nat): seq<T> {
    if s == [] then [] else Insert(Sorted(s[..|s| - 1], key), s[|s| - 1], key)
  }

  ghost predicate Ascending<T>(s: seq<T>, key: T -> nat) {
    forall i, j :: 0 <= i < j < |s| ==> key(s[i]) <= key(s[j])
  }

  ghost predicate StrictlyAscending<T>(s: seq<T>, key: T -> nat) {
    forall i, j :: 0 <= i < j < |s| ==> key(s[i]) < key(s[j])
  }

  ghost predicate AtMost<T>(s: seq<T>, key: T -> nat, bound: nat) {
    forall x :: x in s ==> key(x) <= bound
  }

  lemma AscendingSnoc<T>(s: seq<T>, x: T, key: T -> nat)
    ensures Ascending(s + [x], key) <==> Ascending(s, key) && AtMost(s, key, key(x))
  {
    var t := s + [x];
    assert forall i :: 0 <= i < |s| ==> t[i] == s[i];
    if Ascending(t, key) {
      assert forall i :: 0 <= i < |s| ==> key(t[i]) <= key(t[|s|]);
    }
  }

  lemma AtMostOf<T>(s: seq<T>, t: seq<T>, x: T, key: T -> nat, bound: nat)
    requires AtMost(s, key, bound) && key(x) <= bound && multiset(t) == multiset(s) + multiset{x}
    ensures AtMost(t, key, bound)
  {
    forall y | y in t
      ensures key(y) <= bound
    {
      assert y in multiset(t);
    }
  }

  lemma AtMostWeaker<T>(s: seq<T>, key: T -> nat, low: nat, high: nat)
    requires AtMost(s, key, low) && low <= high
    ensures AtMost(s, key, high)
  {
  }

  lemma {:induction false} InsertIs<T>(s: seq<T>, x: T, key: T -> nat)
    requires Ascending(s, key)
    ensures Ascending(Insert(s, x, key), key)
    ensures multiset(Insert(s, x, key)) == multiset(s) + multiset{x}
  {
    assert s == [] ==> Insert(s, x, key) == [x];
    assert s == [] ==> AtMost(s, key, key(x)) && Ascending(s, key);
    hide Ascending, AtMost;
    if s == [] {
      AscendingSnoc(s, x, key);
    } else {
      var front, last := s[..|s| - 1], s[|s| - 1];
      assert s == front + [last];
      AscendingSnoc(front, last, key);
      if key(last) <= key(x) {
        AtMostWeaker(front, key, key(last), key(x));
        AtMostOf(front, s, last, key, key(x));
        AscendingSnoc(s, x, key);
      } else {
        InsertIs(front, x, key);
        AtMostOf(front, Insert(front, x, key), x, key, key(last));
        AscendingSnoc(Insert(front, x, key), last, key);
      }
    }
  }

  lemma {:induction false} SortedIs<T>(s: seq<T>, key: T -> nat)
    ensures Ascending(Sorted(s, key), key)
    ensures multiset(Sorted(s, key)) == multiset(s)
    ensures |Sorted(s, key)| == |s|
  {
    if s != [] {
      var front, last := s[..|s| - 1], s[|s| - 1];
      assert s == front + [last];
      SortedIs(front, key);
      InsertIs(Sorted(front, key), last, key);
    }
    assert |multiset(Sorted(s, key))| == |multiset(s)|;
  }

  /** The elements of one key, in order. */
  function WithKey<T>(s: seq<T>, key: T -> nat, k: nat): seq<T> {
    if s == [] then []
    else WithKey(s[..|s| - 1], key, k) + if key(s[|s| - 1]) == k then [s[|s| - 1]] else []
  }

  lemma {:induction false} InsertIsStable<T>(s: seq<T>, x: T, key: T -> nat, k: nat)
    ensures WithKey(Insert(s, x, key), key, k) == WithKey(s + [x], key, k)
  {
    if s != [] && key(s[|s| - 1]) > key(x) {
      var front, last := s[..|s| - 1], s[|s| - 1];
      assert s == front + [last];
      InsertIsStable(front, x, key, k);
    }
  }

  /** Elements with equal keys keep the order the caller gave them. */
  lemma {:induction false} SortedIsStable<T>(s: seq<T>, key: T -> nat, k: nat)
    ensures WithKey(Sorted(s, key), key, k) == WithKey(s, key, k)
  {
    if s != [] {
      var front, last := s[..|s| - 1], s[|s| - 1];
      assert s == front + [last];
      SortedIsStable(front, key, k);
      InsertIsStable(Sorted(front, key), last, key, k);
    }
  }

  lemma LastIsLargest<T>(s: seq<T>, t: seq<T>, key: T -> nat)
    requires StrictlyAscending(s, key) && Ascending(t, key) && multiset(s) == multiset(t) && |s| == |t| > 0
    ensures s[|s| - 1] == t[|t| - 1]
  {
    var x, y := s[|s| - 1], t[|t| - 1];
    assert x in multiset(s) && y in multiset(t);
    assert x in t && y in s;
    assert forall j :: 0 <= j < |s| - 1 ==> key(s[j]) < key(x);
    assert key(x) <= key(y);
  }

  lemma DropLast<T>(f: seq<T>, g: seq<T>, x: T, key: T -> nat)
    requires StrictlyAscending(f + [x], key) && Ascending(g + [x], key) && multiset(f + [x]) == multiset(g + [x])
    ensures StrictlyAscending(f, key) && Ascending(g, key) && multiset(f) == multiset(g)
  {
    AscendingSnoc(g, x, key);
    assert StrictlyAscending(f, key) by {
      assert forall i :: 0 <= i < |f| ==> (f + [x])[i] == f[i];
    }
    hide *;
    assert multiset(f) == multiset(f + [x]) - multiset{x};
    assert multiset(g) == multiset(g + [x]) - multiset{x};
  }

  lemma FrontAndLast<T>(s: seq<T>) returns (front: seq<T>, last: T)
    requires s != []
    ensures s == front + [last] && last == s[|s| - 1]
  {
    front, last := s[..|s| - 1], s[|s| - 1];
  }

  /** With distinct keys only one ascending order of the same elements exists. */
  lemma {:induction false} AscendingIsUnique<T>(s: seq<T>, t: seq<T>, key: T -> nat)
    requires StrictlyAscending(s, key) && Ascending(t, key) && multiset(s) == multiset(t)
    ensures s == t
    decreases |s|
  {
    hide *;
    assert |multiset(s)| == |s| && |multiset(t)| == |t|;
    if s != [] {
      LastIsLargest(s, t, key);
      var f, x := FrontAndLast(s);
      var g, y := FrontAndLast(t);
      DropLast(f, g, x, key);
      AscendingIsUnique(f, g, key);
    }
  }

  /** Moves the last element of the first `i + 1` down to its place, one swap at a time. */
  method SiftDown<T>(a: array<T>, i: nat, key: T -> nat)
    requires i < a.Length
    modifies a
    ensures a[..i + 1] == Insert(old(a[..i]), old(a[i]), key)
    ensures a[i + 1..] == old(a[i + 1..])
  {
    var j := i;
    ghost var x, rest, first := a[i], a[i + 1..], a[..i];
    hide *;
    assert a[j + 1..i + 1] == [];
    while j > 0 && key(a[j - 1]) > key(a[j])
      invariant 0 <= j <= i && a[j] == x
      invariant Insert(first, x, key) == Insert(a[..j], x, key) + a[j + 1..i + 1]
      invariant a[i + 1..] == rest
    {
      ghost var before, last, tail := a[..j - 1], a[j - 1], a[j + 1..i + 1];
      assert a[..j] == before + [last];
      InsertGoesOn(before, last, x, tail, key);
      SwapDown(a, i, j);
      j := j - 1;
    }
    RejoinAt(a, i, j);
  }

  lemma RejoinAt<T>(a: array<T>, i: nat, j: nat)
    requires j <= i < a.Length
    ensures a[..i + 1] == a[..j] + [a[j]] + a[j + 1..i + 1]
  {
  }

  method SwapDown<T>(a: array<T>, i: nat, j: nat)
    requires 0 < j <= i < a.Length
    modifies a
    ensures a[..j - 1] == old(a[..j - 1]) && a[j - 1] == old(a[j])
    ensures a[j..i + 1] == [old(a[j - 1])] + old(a[j + 1..i + 1])
    ensures a[i + 1..] == old(a[i + 1..])
  {
    a[j - 1], a[j] := a[j], a[j - 1];
  }

  lemma InsertGoesOn<T>(before: seq<T>, last: T, x: T, tail: seq<T>, key: T -> nat)
    requires key(last) > key(x)
    ensures Insert(before + [last], x, key) + tail == Insert(before, x, key) + ([last] + tail)
  {
    assert (before + [last])[..|before|] == before;
  }

  lemma SortedSnoc<T>(s: seq<T>, i: nat, key: T -> nat)
    requires i < |s|
    ensures Sorted(s[..i + 1], key) == Insert(Sorted(s[..i], key), s[i], key)
  {
    assert s[..i + 1][..i] == s[..i];
  }

  method InsertionSort<T>(a: array<T>, key: T -> nat)
    modifies a
    ensures a[..] == Sorted(old(a[..]), key)
  {
    hide *;
    ghost var was := old(a[..]);
    SortedNone(was, key);
    for i := 0 to a.Length
      invariant |was| == a.Length
      invariant a[..i] == Sorted(was[..i], key)
      invariant a[i..] == was[i..]
    {
      assert a[i] == a[i..][0] == was[i];
      SiftDown(a, i, key);
      assert a[i + 1..] == was[i..][1..] == was[i + 1..];
      SortedSnoc(was, i, key);
    }
    assert a[..a.Length] == a[..] && was[..a.Length] == was;
  }

  lemma SortedNone<T>(s: seq<T>, key: T -> nat)
    ensures Sorted(s[..0], key) == []
  {
  }

}

/** The line diff: a longest common subsequence table, walked into runs of kept, added and removed lines. */
module LineDiff {
  import opened Bytes
  import opened LineText

  datatype Part = Part(lines: seq<Text>, added: bool, removed: bool)

  /** `c` from `k` on can be found, in order, in `a` from `i` on. */
  predicate Within(c: seq<Text>, k: nat, a: seq<Text>, i: nat)
    requires k <= |c| && i <= |a|
    decreases |a| - i
  {
    k == |c| || (i < |a| && ((c[k] == a[i] && Within(c, k + 1, a, i + 1)) || Within(c, k, a, i + 1)))
  }

  ghost predicate CommonSubsequence(c: seq<Text>, a: seq<Text>, b: seq<Text>) {
    Within(c, 0, a, 0) && Within(c, 0, b, 0)
  }

  /** The table's recurrence. */
  function Best(a: seq<Text>, b: seq<Text>, i: nat, j: nat): nat
    requires i <= |a| && j <= |b|
    decreases |a| - i + |b| - j
  {
    if i == |a| || j == |b| then 0
    else if a[i] == b[j] then Best(a, b, i + 1, j + 1) + 1
    else if Best(a, b, i + 1, j) >= Best(a, b, i, j + 1) then Best(a, b, i + 1, j)
    else Best(a, b, i, j + 1)
  }

  lemma WithinLater(c: seq<Text>, k: nat, a: seq<Text>, i: nat)
    requires k < |c| && i <= |a| && Within(c, k, a, i)
    ensures i < |a| && Within(c, k + 1, a, i + 1)
    decreases |a| - i
  {
    if !(c[k] == a[i] && Within(c, k + 1, a, i + 1)) {
      WithinLater(c, k, a, i + 1);
    }
  }

  /** No common subsequence is longer than the table says. */
  lemma {:induction false} BestIsUpperBound(c: seq<Text>, k: nat, a: seq<Text>, b: seq<Text>, i: nat, j: nat)
    requires k <= |c| && i <= |a| && j <= |b|
    requires Within(c, k, a, i) && Within(c, k, b, j)
    ensures |c| - k <= Best(a, b, i, j)
    decreases |a| - i + |b| - j
  {
    if k < |c| {
      WithinLater(c, k, a, i);
      WithinLater(c, k, b, j);
      if a[i] == b[j] {
        BestIsUpperBound(c, k + 1, a, b, i + 1, j + 1);
      } else if c[k] != a[i] {
        BestIsUpperBound(c, k, a, b, i + 1, j);
      } else {
        BestIsUpperBound(c, k, a, b, i, j + 1);
      }
    }
  }

  /** The lines on one side of a diff: all but the parts of the other side. */
  function Side(parts: seq<Part>, ofOld: bool): seq<Text> {
    if parts == [] then []
    else
      var last := parts[|parts| - 1];
      Side(parts[..|parts| - 1], ofOld) + (if (if ofOld then last.added else last.removed) then [] else last.lines)
  }

  /** The lines both sides share. */
  function Unchanged(parts: seq<Part>): seq<Text> {
    if parts == [] then []
    else
      var last := parts[|parts| - 1];
      Unchanged(parts[..|parts| - 1]) + (if last.added || last.removed then [] else last.lines)
  }

  /** No part is empty or both added and removed, and neighbours differ in kind. */
  ghost predicate Alternating(parts: seq<Part>) {
    (forall p :: 0 <= p < |parts| ==> parts[p].lines != [] && !(parts[p].added && parts[p].removed))
    && forall p :: 0 < p < |parts| ==> parts[p - 1].added != parts[p].added || parts[p - 1].removed != parts[p].removed
  }

  /** Between unchanged lines the removed ones come before the added ones. */
  ghost predicate RemovedFirst(parts: seq<Part>) {
    forall p :: 0 < p < |parts| && parts[p].removed ==> !parts[p - 1].added
  }

  lemma RemovedFirstAppend(parts: seq<Part>, line: Text, added: bool, removed: bool)
    requires RemovedFirst(parts) && !(added && removed)
    requires removed && parts != [] ==> !parts[|parts| - 1].added
    ensures RemovedFirst(AppendPart(parts, line, added, removed))
    ensures var r := AppendPart(parts, line, added, removed);
            r != [] && r[|r| - 1].added == added && r[|r| - 1].removed == removed
  {
  }

  function AppendPart(parts: seq<Part>, line: Text, added: bool, removed: bool): seq<Part> {
    if |parts| > 0 && parts[|parts| - 1].added == added && parts[|parts| - 1].removed == removed then
      parts[..|parts| - 1] + [parts[|parts| - 1].(lines := parts[|parts| - 1].lines + [line])]
    else
      parts + [Part([line], added, removed)]
  }

  lemma SideAppend(parts: seq<Part>, line: Text, added: bool, removed: bool, ofOld: bool)
    ensures Side(AppendPart(parts, line, added, removed), ofOld) ==
            Side(parts, ofOld) + (if (if ofOld then added else removed) then [] else [line])
  {
    var r := AppendPart(parts, line, added, removed);
    if |r| == |parts| {
      assert r[..|r| - 1] == parts[..|parts| - 1];
    } else {
      assert r[..|r| - 1] == parts;
    }
  }

  lemma UnchangedAppend(parts: seq<Part>, line: Text, added: bool, removed: bool)
    ensures Unchanged(AppendPart(parts, line, added, removed)) ==
            Unchanged(parts) + (if added || removed then [] else [line])
  {
    var r := AppendPart(parts, line, added, removed);
    if |r| == |parts| {
      assert r[..|r| - 1] == parts[..|parts| - 1];
    } else {
      assert r[..|r| - 1] == parts;
    }
  }

  lemma AlternatingAppend(parts: seq<Part>, line: Text, added: bool, removed: bool)
    requires Alternating(parts) && !(added && removed)
    ensures Alternating(AppendPart(parts, line, added, removed))
  {
  }

  /** The shared lines can be found in either side. */
  lemma {:induction false} UnchangedWithin(parts: seq<Part>, ofOld: bool)
    ensures Within(Unchanged(parts), 0, Side(parts, ofOld), 0)
  {
    if parts != [] {
      var last := parts[|parts| - 1];
      var front := parts[..|parts| - 1];
      UnchangedWithin(front, ofOld);
      var kept := if last.added || last.removed then [] else last.lines;
      var all := if (if ofOld then last.added else last.removed) then [] else last.lines;
      WithinAppend(Unchanged(front), 0, Side(front, ofOld), 0, kept, all);
    }
  }

  /** What is found stays found when more, or the same more, is appended to both. */
  lemma {:induction false} WithinAppend(c: seq<Text>, k: nat, a: seq<Text>, i: nat, c': seq<Text>, a': seq<Text>)
    requires k <= |c| && i <= |a| && Within(c, k, a, i)
    requires c' == [] || c' == a'
    ensures Within(c + c', k, a + a', i)
    decreases |a| - i
  {
    if i == |a| {
      WithinTail(c, c', a, a', 0);
    } else if k < |c| && c[k] == a[i] && Within(c, k + 1, a, i + 1) {
      WithinAppend(c, k + 1, a, i + 1, c', a');
    } else {
      if k == |c| {
        assert Within(c, k, a, i + 1);
      }
      WithinAppend(c, k, a, i + 1, c', a');
    }
  }

  lemma {:induction false} WithinTail(c: seq<Text>, c': seq<Text>, a: seq<Text>, a': seq<Text>, n: nat)
    requires c' == [] || c' == a'
    requires n <= |c'|
    ensures Within(c + c', |c| + n, a + a', |a| + n)
    decreases |c'| - n
  {
    if n < |c'| {
      WithinTail(c, c', a, a', n + 1);
      assert (c + c')[|c| + n] == (a + a')[|a| + n];
    }
  }

  /** A line less on one side costs at most one shared line. */
  lemma {:induction false} BestShrinks(a: seq<Text>, b: seq<Text>, i: nat, j: nat)
    requires i <= |a| && j <= |b|
    ensures i < |a| ==> Best(a, b, i + 1, j) <= Best(a, b, i, j) <= Best(a, b, i + 1, j) + 1
    ensures j < |b| ==> Best(a, b, i, j + 1) <= Best(a, b, i, j) <= Best(a, b, i, j + 1) + 1
    decreases |a| - i + |b| - j
  {
    if i < |a| {
      BestShrinks(a, b, i + 1, j);
    }
    if j < |b| {
      BestShrinks(a, b, i, j + 1);
    }
  }

  lemma BestAtEdge(a: seq<Text>, b: seq<Text>)
    ensures forall x :: 0 <= x <= |a| ==> Best(a, b, x, |b|) == 0
    ensures forall y :: 0 <= y <= |b| ==> Best(a, b, |a|, y) == 0
  {
  }

  /** One cell, from the three after it. */
  method FillCell(dp: array2<nat>, a: seq<Text>, b: seq<Text>, i: nat, j: nat)
    requires dp.Length0 == |a| + 1 && dp.Length1 == |b| + 1 && i < |a| && j < |b|
    requires dp[i + 1, j + 1] == Best(a, b, i + 1, j + 1)
    requires dp[i + 1, j] == Best(a, b, i + 1, j) && dp[i, j + 1] == Best(a, b, i, j + 1)
    modifies dp
    ensures dp[i, j] == Best(a, b, i, j)
    ensures forall x, y :: 0 <= x <= |a| && 0 <= y <= |b| && (x != i || y != j) ==> dp[x, y] == old(dp[x, y])
  {
    if a[i] == b[j] {
      dp[i, j] := dp[i + 1, j + 1] + 1;
    } else if dp[i + 1, j] >= dp[i, j + 1] {
      dp[i, j] := dp[i + 1, j];
    } else {
      dp[i, j] := dp[i, j + 1];
    }
  }

  /** Fills the table from its far corner. */
  method FillTable(a: seq<Text>, b: seq<Text>) returns (dp: array2<nat>)
    ensures fresh(dp) && dp.Length0 == |a| + 1 && dp.Length1 == |b| + 1
    ensures forall x, y :: 0 <= x <= |a| && 0 <= y <= |b| ==> dp[x, y] == Best(a, b, x, y)
  {
    hide Best;
    BestAtEdge(a, b);
    var m, n := |a|, |b|;
    dp := new nat[m + 1, n + 1]((x, y) => 0);
    var i := m;
    while i > 0
      invariant 0 <= i <= m
      invariant forall x, y :: i <= x <= m && 0 <= y <= n ==> dp[x, y] == Best(a, b, x, y)
      invariant forall x :: 0 <= x <= m ==> dp[x, n] == 0
    {
      i := i - 1;
      var j := n;
      while j > 0
        invariant 0 <= j <= n
        invariant forall x, y :: i < x <= m && 0 <= y <= n ==> dp[x, y] == Best(a, b, x, y)
        invariant forall y :: j <= y <= n ==> dp[i, y] == Best(a, b, i, y)
        invariant forall x :: 0 <= x <= m ==> dp[x, n] == 0
      {
        j := j - 1;
        FillCell(dp, a, b, i, j);
      }
    }
  }

  /** What a walk that has reached line `i` of `a` and line `j` of `b` has recorded. */
  ghost predicate Walked(parts: seq<Part>, a: seq<Text>, b: seq<Text>, i: nat, j: nat) {
    i <= |a| && j <= |b|
    && Side(parts, true) == a[..i] && Side(parts, false) == b[..j]
    && Alternating(parts) && RemovedFirst(parts)
    && |Unchanged(parts)| + Best(a, b, i, j) == Best(a, b, 0, 0)
  }

  /** After an added line the next old line is one that must be shared. */
  ghost predicate AddsBeforeShared(parts: seq<Part>, a: seq<Text>, b: seq<Text>, i: nat, j: nat)
    requires i <= |a| && j <= |b|
  {
    parts != [] && parts[|parts| - 1].added ==> i < |a| && Best(a, b, i + 1, j) < Best(a, b, i, j)
  }

  lemma WalkKeep(parts: seq<Part>, a: seq<Text>, b: seq<Text>, i: nat, j: nat)
    requires Walked(parts, a, b, i, j) && i < |a| && j < |b| && a[i] == b[j]
    ensures Walked(AppendPart(parts, a[i], false, false), a, b, i + 1, j + 1)
    ensures AddsBeforeShared(AppendPart(parts, a[i], false, false), a, b, i + 1, j + 1)
  {
    hide AppendPart, Side, Unchanged, Alternating, RemovedFirst;
    RemovedFirstAppend(parts, a[i], false, false);
    assert Best(a, b, i, j) == Best(a, b, i + 1, j + 1) + 1;
    hide Best;
    SideAppend(parts, a[i], false, false, true);
    SideAppend(parts, a[i], false, false, false);
    UnchangedAppend(parts, a[i], false, false);
    AlternatingAppend(parts, a[i], false, false);
    assert a[..i + 1] == a[..i] + [a[i]] && b[..j + 1] == b[..j] + [b[j]];
  }

  lemma WalkRemove(parts: seq<Part>, a: seq<Text>, b: seq<Text>, i: nat, j: nat)
    requires Walked(parts, a, b, i, j) && i < |a| && Best(a, b, i, j) == Best(a, b, i + 1, j)
    requires AddsBeforeShared(parts, a, b, i, j)
    ensures Walked(AppendPart(parts, a[i], false, true), a, b, i + 1, j)
    ensures AddsBeforeShared(AppendPart(parts, a[i], false, true), a, b, i + 1, j)
  {
    hide AppendPart, Side, Unchanged, Alternating, RemovedFirst;
    RemovedFirstAppend(parts, a[i], false, true);
    SideAppend(parts, a[i], false, true, true);
    SideAppend(parts, a[i], false, true, false);
    UnchangedAppend(parts, a[i], false, true);
    AlternatingAppend(parts, a[i], false, true);
    assert a[..i + 1] == a[..i] + [a[i]];
  }

  lemma WalkAdd(parts: seq<Part>, a: seq<Text>, b: seq<Text>, i: nat, j: nat)
    requires Walked(parts, a, b, i, j) && j < |b| && Best(a, b, i, j) == Best(a, b, i, j + 1)
    ensures Walked(AppendPart(parts, b[j], true, false), a, b, i, j + 1)
    ensures i < |a| && Best(a, b, i + 1, j) < Best(a, b, i, j) ==>
              AddsBeforeShared(AppendPart(parts, b[j], true, false), a, b, i, j + 1)
  {
    hide AppendPart, Side, Unchanged, Alternating, RemovedFirst;
    if i < |a| {
      BestShrinks(a, b, i + 1, j);
    }
    RemovedFirstAppend(parts, b[j], true, false);
    SideAppend(parts, b[j], true, false, true);
    SideAppend(parts, b[j], true, false, false);
    UnchangedAppend(parts, b[j], true, false);
    AlternatingAppend(parts, b[j], true, false);
    assert b[..j + 1] == b[..j] + [b[j]];
  }

  /** The diff loses no line of either side, keeps as many lines as any common subsequence has, and shows what was
      removed before what was added in its place. */
  method DiffLines(oldContent: Text, newContent: Text) returns (parts: seq<Part>)
    ensures Side(parts, true) == Split(oldContent) && Side(parts, false) == Split(newContent)
    ensures Alternating(parts) && RemovedFirst(parts)
    ensures CommonSubsequence(Unchanged(parts), Split(oldContent), Split(newContent))
    ensures forall c :: CommonSubsequence(c, Split(oldContent), Split(newContent)) ==> |c| <= |Unchanged(parts)|
  {
    var a, b := Split(oldContent), Split(newContent);
    hide Split, Side, Unchanged, AppendPart, Alternating, RemovedFirst, Within;
    var m, n := |a|, |b|;
    var dp := FillTable(a, b);
    parts := [];
    var i, j := 0, 0;
    EmptyWalk(a, b);
    while i < m && j < n
      invariant 0 <= i <= m && 0 <= j <= n && Walked(parts, a, b, i, j) && AddsBeforeShared(parts, a, b, i, j)
      invariant forall x, y :: 0 <= x <= m && 0 <= y <= n ==> dp[x, y] == Best(a, b, x, y)
      decreases m - i + n - j
    {
      if a[i] == b[j] {
        WalkKeep(parts, a, b, i, j);
        parts := AppendPart(parts, a[i], false, false);
        i, j := i + 1, j + 1;
      } else if dp[i + 1, j] >= dp[i, j + 1] {
        WalkRemove(parts, a, b, i, j);
        parts := AppendPart(parts, a[i], false, true);
        i := i + 1;
      } else {
        WalkAdd(parts, a, b, i, j);
        parts := AppendPart(parts, b[j], true, false);
        j := j + 1;
      }
    }
    while i < m
      invariant 0 <= i <= m && 0 <= j <= n && (i == m || j == n) && Walked(parts, a, b, i, j)
      invariant AddsBeforeShared(parts, a, b, i, j)
    {
      WalkRemove(parts, a, b, i, j);
      parts := AppendPart(parts, a[i], false, true);
      i := i + 1;
    }
    while j < n
      invariant i == m && 0 <= j <= n && Walked(parts, a, b, i, j)
    {
      WalkAdd(parts, a, b, i, j);
      parts := AppendPart(parts, b[j], true, false);
      j := j + 1;
    }
    WalkedAll(parts, a, b);
  }

  lemma EmptyWalk(a: seq<Text>, b: seq<Text>)
    ensures Walked([], a, b, 0, 0)
  {
  }

  lemma WalkedAll(parts: seq<Part>, a: seq<Text>, b: seq<Text>)
    requires Walked(parts, a, b, |a|, |b|)
    ensures Side(parts, true) == a && Side(parts, false) == b && Alternating(parts) && RemovedFirst(parts)
    ensures CommonSubsequence(Unchanged(parts), a, b)
    ensures forall c :: CommonSubsequence(c, a, b) ==> |c| <= |Unchanged(parts)|
  {
    hide Within, Side, Unchanged, Alternating, RemovedFirst;
    assert a[..|a|] == a && b[..|b|] == b;
    UnchangedWithin(parts, true);
    UnchangedWithin(parts, false);
    forall c | CommonSubsequence(c, a, b)
      ensures |c| <= |Unchanged(parts)|
    {
      BestIsUpperBound(c, 0, a, b, 0, 0);
    }
  }
}

/** Replacing disjoint regions of a text, all at once and one by one from the back. */
module Splice {
  import opened Bytes

  datatype Replacement = Replacement(matchIndex: nat, matchLength: nat, newText: Text) {
    function End(): nat {
      matchIndex + matchLength
    }
  }

  /** The replacements from `lo` to `hi` lie between `pos` and `end`, in order, without overlap. */
  ghost predicate Ordered(reps: seq<Replacement>, lo: nat, hi: nat, pos: nat, end: nat) {
    lo <= hi <= |reps| && pos <= end
    && (forall i :: lo <= i < hi ==> pos <= reps[i].matchIndex && reps[i].End() <= end)
    && (forall i, j :: lo <= i < j < hi ==> reps[i].End() <= reps[j].matchIndex)
  }

  /** The text between `pos` and `end` with every region replaced: the meaning of a set of replacements. */
  ghost function Substitute(base: Text, reps: seq<Replacement>, lo: nat, hi: nat, pos: nat, end: nat): Text
    requires Ordered(reps, lo, hi, pos, end) && end <= |base|
    decreases hi - lo
  {
    if lo == hi then base[pos..end]
    else base[pos..reps[lo].matchIndex] + reps[lo].newText + Substitute(base, reps, lo + 1, hi, reps[lo].End(), end)
  }

  lemma OrderedHead(reps: seq<Replacement>, lo: nat, hi: nat, pos: nat, end: nat)
    requires Ordered(reps, lo, hi, pos, end)
    ensures lo <= hi <= |reps| && pos <= end
    ensures lo < hi ==>
            pos <= reps[lo].matchIndex && reps[lo].End() <= end && Ordered(reps, lo + 1, hi, reps[lo].End(), end)
  {
  }

  lemma OrderedLater(reps: seq<Replacement>, lo: nat, hi: nat, pos: nat, mid: nat, end: nat)
    requires Ordered(reps, lo, hi, pos, end) && pos <= mid <= end && (lo < hi ==> mid <= reps[lo].matchIndex)
    ensures Ordered(reps, lo, hi, mid, end)
  {
  }

  lemma SubstituteStep(base: Text, reps: seq<Replacement>, lo: nat, hi: nat, pos: nat, end: nat)
    requires Ordered(reps, lo, hi, pos, end) && end <= |base|
    ensures lo == hi ==> Substitute(base, reps, lo, hi, pos, end) == base[pos..end]
    ensures lo < hi ==>
              Ordered(reps, lo + 1, hi, reps[lo].End(), end)
              && Substitute(base, reps, lo, hi, pos, end) ==
                 base[pos..reps[lo].matchIndex] + reps[lo].newText
                 + Substitute(base, reps, lo + 1, hi, reps[lo].End(), end)
  {
  }

  /** Text before the first region stays as it is. */
  lemma SubstituteGap(base: Text, reps: seq<Replacement>, lo: nat, hi: nat, pos: nat, mid: nat, end: nat)
    requires Ordered(reps, lo, hi, pos, end) && end <= |base|
    requires pos <= mid <= end && (lo < hi ==> mid <= reps[lo].matchIndex)
    ensures Ordered(reps, lo, hi, mid, end)
    ensures Substitute(base, reps, lo, hi, pos, end) == base[pos..mid] + Substitute(base, reps, lo, hi, mid, end)
  {
    hide Substitute, Ordered;
    OrderedHead(reps, lo, hi, pos, end);
    OrderedLater(reps, lo, hi, pos, mid, end);
    SubstituteStep(base, reps, lo, hi, pos, end);
    SubstituteStep(base, reps, lo, hi, mid, end);
    if lo == hi {
      RejoinTwo(base, pos, mid, end);
    } else {
      RejoinGap(base, pos, mid, reps[lo].matchIndex, reps[lo].newText,
                Substitute(base, reps, lo + 1, hi, reps[lo].End(), end));
    }
  }

  lemma RejoinGap(s: Text, p: nat, q: nat, r: nat, t: Text, u: Text)
    requires p <= q <= r <= |s|
    ensures s[p..r] + t + u == s[p..q] + (s[q..r] + t + u)
  {
    RejoinTwo(s, p, q, r);
  }

  lemma RejoinTwo(s: Text, p: nat, q: nat, r: nat)
    requires p <= q <= r <= |s|
    ensures s[p..r] == s[p..q] + s[q..r]
  {
  }

  /** A cut that no region crosses cuts the result in two. */
  lemma {:induction false} SubstituteCut(base: Text, reps: seq<Replacement>, lo: nat, mid: nat, hi: nat, pos: nat,
                                         cut: nat, end: nat)
    requires Ordered(reps, lo, hi, pos, end) && end <= |base|
    requires Ordered(reps, lo, mid, pos, cut) && Ordered(reps, mid, hi, cut, end)
    ensures Substitute(base, reps, lo, hi, pos, end) ==
            Substitute(base, reps, lo, mid, pos, cut) + Substitute(base, reps, mid, hi, cut, end)
    decreases mid - lo
  {
    hide Substitute, Ordered;
    OrderedHead(reps, lo, mid, pos, cut);
    OrderedHead(reps, lo, hi, pos, end);
    OrderedHead(reps, mid, hi, cut, end);
    SubstituteStep(base, reps, lo, mid, pos, cut);
    if lo == mid {
      SubstituteGap(base, reps, lo, hi, pos, cut, end);
    } else {
      SubstituteStep(base, reps, lo, hi, pos, end);
      SubstituteCut(base, reps, lo + 1, mid, hi, reps[lo].End(), cut, end);
    }
  }

  /** Only the replaced stretch of the text and the replacements in use matter. */
  lemma {:induction false} SubstituteSlice(base: Text, reps: seq<Replacement>, lo: nat, hi: nat, pos: nat, end: nat,
                                           part: seq<Replacement>)
    requires Ordered(reps, lo, hi, pos, end) && end <= |base| && part == reps[lo..hi]
    ensures Ordered(part, 0, |part|, pos, end)
    ensures Substitute(base, part, 0, |part|, pos, end) == Substitute(base, reps, lo, hi, pos, end)
  {
    SubstituteShift(base, reps, lo, hi, pos, end, part, 0);
  }

  lemma {:induction false} SubstituteShift(base: Text, reps: seq<Replacement>, lo: nat, hi: nat, pos: nat, end: nat,
                                           part: seq<Replacement>, k: nat)
    requires Ordered(reps, lo, hi, pos, end) && end <= |base|
    requires |part| == k + hi - lo && forall i :: lo <= i < hi ==> part[k + i - lo] == reps[i]
    ensures Ordered(part, k, |part|, pos, end)
    ensures Substitute(base, part, k, |part|, pos, end) == Substitute(base, reps, lo, hi, pos, end)
    decreases hi - lo
  {
    assert Ordered(part, k, |part|, pos, end) by {
      assert forall i :: k <= i < |part| ==> part[i] == reps[lo + i - k];
    }
    assert lo < hi ==> part[k + lo - lo] == reps[lo];
    hide Substitute, Ordered;
    OrderedHead(reps, lo, hi, pos, end);
    SubstituteStep(base, reps, lo, hi, pos, end);
    SubstituteStep(base, part, k, |part|, pos, end);
    if lo < hi {
      SubstituteShift(base, reps, lo + 1, hi, reps[lo].End(), end, part, k + 1);
    }
  }

  /** Splices from the last replacement to the first, so the indices still to come stay right. */
  method ApplyReplacements(content: Text, replacements: seq<Replacement>, offset: nat, ghost base: Text)
    returns (result: Text)
    requires offset + |content| <= |base| && content == base[offset..offset + |content|]
    requires Ordered(replacements, 0, |replacements|, offset, offset + |content|)
    ensures result == Substitute(base, replacements, 0, |replacements|, offset, offset + |content|)
  {
    hide Substitute;
    ghost var n, end := |replacements|, offset + |content|;
    result := content;
    var i := |replacements|;
    ghost var start := end;
    assert result == base[offset..start] + Substitute(base, replacements, i, n, start, end) by {
      SubstituteNone(base, replacements, n, end, end);
    }
    while i > 0
      invariant 0 <= i <= n && offset <= start <= end
      invariant start == if i < n then replacements[i].matchIndex else end
      invariant Ordered(replacements, i, n, start, end)
      invariant result == base[offset..start] + Substitute(base, replacements, i, n, start, end)
    {
      i := i - 1;
      var r := replacements[i];
      var matchIndex := r.matchIndex - offset;
      SpliceStep(base, replacements, i, offset, start, end, result);
      result := result[..matchIndex] + r.newText + result[matchIndex + r.matchLength..];
      start := r.matchIndex;
    }
    SubstituteGap(base, replacements, 0, n, offset, start, end);
  }

  /** One splice: everything from the replacement on is substituted, and what is before it is still the base. */
  lemma SpliceStep(base: Text, reps: seq<Replacement>, i: nat, offset: nat, start: nat, end: nat, result: Text)
    requires i < |reps| && offset <= reps[i].matchIndex && reps[i].End() <= start <= end <= |base|
    requires start == if i + 1 < |reps| then reps[i + 1].matchIndex else end
    requires Ordered(reps, i + 1, |reps|, start, end)
    requires result == base[offset..start] + Substitute(base, reps, i + 1, |reps|, start, end)
    ensures Ordered(reps, i, |reps|, reps[i].matchIndex, end)
    ensures var at := reps[i].matchIndex - offset;
            result[..at] + reps[i].newText + result[at + reps[i].matchLength..] ==
            base[offset..reps[i].matchIndex] + Substitute(base, reps, i, |reps|, reps[i].matchIndex, end)
  {
    hide Substitute, Ordered;
    SubstituteFirst(base, reps, i, |reps|, start, end);
    var at, past := reps[i].matchIndex - offset, reps[i].matchIndex - offset + reps[i].matchLength;
    SpliceText(base[offset..start], Substitute(base, reps, i + 1, |reps|, start, end), at, past, reps[i].newText);
    SliceOfSlice(base, offset, start, at);
    SliceOfSlice(base, offset, start, past);
    assert offset + at == reps[i].matchIndex && offset + past == reps[i].End();
  }

  lemma SliceOfSlice(s: Text, lo: nat, hi: nat, k: nat)
    requires lo <= lo + k <= hi <= |s|
    ensures s[lo..hi][..k] == s[lo..lo + k] && s[lo..hi][k..] == s[lo + k..hi]
  {
  }

  lemma SpliceText(s: Text, t: Text, at: nat, past: nat, written: Text)
    requires at <= past <= |s|
    ensures (s + t)[..at] + written + (s + t)[past..] == s[..at] + (written + (s[past..] + t))
  {
    assert (s + t)[..at] == s[..at] && (s + t)[past..] == s[past..] + t;
  }

  lemma SubstituteNone(base: Text, reps: seq<Replacement>, n: nat, pos: nat, end: nat)
    requires n == |reps| && pos <= end <= |base|
    ensures Ordered(reps, n, n, pos, end) && Substitute(base, reps, n, n, pos, end) == base[pos..end]
  {
  }

  lemma SubstituteFirst(base: Text, reps: seq<Replacement>, i: nat, n: nat, start: nat, end: nat)
    requires i < n <= |reps| && end <= |base| && Ordered(reps, i + 1, n, start, end) && reps[i].End() <= start
    requires start == if i + 1 < n then reps[i + 1].matchIndex else end
    ensures Ordered(reps, i, n, reps[i].matchIndex, end)
    ensures Substitute(base, reps, i, n, reps[i].matchIndex, end) ==
            reps[i].newText + (base[reps[i].End()..start] + Substitute(base, reps, i + 1, n, start, end))
  {
    SubstituteGap(base, reps, i + 1, n, reps[i].End(), start, end);
    var s := base[reps[i].matchIndex..reps[i].matchIndex];
    assert s + reps[i].newText == reps[i].newText;
  }

  /** How far the text after the replacements before `k` has moved. */
  function Shift(reps: seq<Replacement>, k: nat): int
    requires k <= |reps|
  {
    if k == 0 then 0 else Shift(reps, k - 1) + |reps[k - 1].newText| - reps[k - 1].matchLength
  }

  /** The replacement that takes region `i` of the result back to what the base held there. */
  function Inverse(base: Text, reps: seq<Replacement>, i: nat): Replacement
    requires i < |reps| && reps[i].End() <= |base| && 0 <= reps[i].matchIndex + Shift(reps, i)
  {
    Replacement(reps[i].matchIndex + Shift(reps, i), |reps[i].newText|, base[reps[i].matchIndex..reps[i].End()])
  }

  /** `undo` holds the inverse of each replacement. */
  ghost predicate Inverts(base: Text, reps: seq<Replacement>, undo: seq<Replacement>) {
    |undo| == |reps| && forall i :: 0 <= i < |reps| ==> InvertsAt(base, reps, undo, i)
  }

  ghost predicate InvertsAt(base: Text, reps: seq<Replacement>, undo: seq<Replacement>, i: nat)
    requires i < |reps| == |undo|
  {
    && reps[i].End() <= |base| && 0 <= reps[i].matchIndex + Shift(reps, i)
    && undo[i] == Inverse(base, reps, i)
  }

  lemma ShiftFits(reps: seq<Replacement>, k: nat, end: nat)
    requires Ordered(reps, 0, |reps|, 0, end) && k < |reps|
    ensures 0 <= reps[k].matchIndex + Shift(reps, k)
    ensures k > 0 ==>
            reps[k - 1].matchIndex + Shift(reps, k - 1) + |reps[k - 1].newText| <= reps[k].matchIndex + Shift(reps, k)
  {
    if k > 0 {
      ShiftFits(reps, k - 1, end);
    }
  }

  lemma {:induction false} SubstituteLength(base: Text, reps: seq<Replacement>, k: nat, pos: nat)
    requires Ordered(reps, k, |reps|, pos, |base|)
    ensures |Substitute(base, reps, k, |reps|, pos, |base|)| == |base| - pos + Shift(reps, |reps|) - Shift(reps, k)
    decreases |reps| - k
  {
    hide Substitute, Ordered;
    OrderedHead(reps, k, |reps|, pos, |base|);
    SubstituteStep(base, reps, k, |reps|, pos, |base|);
    assert k < |reps| ==> Shift(reps, k + 1) == Shift(reps, k) + |reps[k].newText| - reps[k].matchLength;
    if k < |reps| {
      SubstituteLength(base, reps, k + 1, reps[k].End());
    }
  }

  lemma ShiftOrder(reps: seq<Replacement>, i: nat, j: nat, end: nat)
    requires Ordered(reps, 0, |reps|, 0, end) && i < j < |reps|
    ensures reps[i].matchIndex + Shift(reps, i) + |reps[i].newText| <= reps[j].matchIndex + Shift(reps, j)
  {
    ShiftFits(reps, j, end);
    if i < j - 1 {
      ShiftOrder(reps, i, j - 1, end);
    }
  }

  lemma ShiftEnd(reps: seq<Replacement>, k: nat, end: nat)
    requires Ordered(reps, 0, |reps|, 0, end) && k < |reps|
    ensures reps[k].matchIndex + Shift(reps, k) + |reps[k].newText| <= end + Shift(reps, |reps|)
  {
    hide *;
    var last := |reps| - 1;
    ShiftLast(reps, end);
    if k < last {
      ShiftOrder(reps, k, last, end);
    }
  }

  lemma ShiftLast(reps: seq<Replacement>, end: nat)
    requires Ordered(reps, 0, |reps|, 0, end) && reps != []
    ensures var last := |reps| - 1;
            reps[last].matchIndex + Shift(reps, last) + |reps[last].newText| <= end + Shift(reps, |reps|)
  {
    assert reps[|reps| - 1].End() <= end;
  }

  lemma UndoOrdered(base: Text, reps: seq<Replacement>, undo: seq<Replacement>)
    requires Ordered(reps, 0, |reps|, 0, |base|) && Inverts(base, reps, undo)
    ensures Ordered(undo, 0, |undo|, 0, |Substitute(base, reps, 0, |reps|, 0, |base|)|)
  {
    SubstituteLength(base, reps, 0, 0);
    var size := |Substitute(base, reps, 0, |reps|, 0, |base|)|;
    hide Substitute, Shift;
    forall i | 0 <= i < |undo|
      ensures undo[i].End() <= size
    {
      assert InvertsAt(base, reps, undo, i);
      assert Shift(reps, 0) == 0 by {
      }
      ShiftEnd(reps, i, |base|);
    }
    forall i, j | 0 <= i < j < |undo|
      ensures undo[i].End() <= undo[j].matchIndex
    {
      assert InvertsAt(base, reps, undo, i) && InvertsAt(base, reps, undo, j);
      ShiftOrder(reps, i, j, |base|);
    }
  }

  /** From position `pos` on, the result holds the text with the replacements from `k` on. */
  ghost predicate Undoing(base: Text, reps: seq<Replacement>, undo: seq<Replacement>, result: Text, k: nat, pos: nat) {
    |undo| == |reps| && k <= |reps|
    && Ordered(reps, k, |reps|, pos, |base|)
    && 0 <= pos + Shift(reps, k) <= |result|
    && Ordered(undo, k, |undo|, pos + Shift(reps, k), |result|)
    && result[pos + Shift(reps, k)..] == Substitute(base, reps, k, |reps|, pos, |base|)
  }

  lemma UndoStep(base: Text, reps: seq<Replacement>, undo: seq<Replacement>, result: Text, k: nat, pos: nat)
    requires Undoing(base, reps, undo, result, k, pos) && k < |reps| && reps[k].End() <= |base|
    requires 0 <= reps[k].matchIndex + Shift(reps, k) && undo[k] == Inverse(base, reps, k)
    ensures Undoing(base, reps, undo, result, k + 1, reps[k].End())
    ensures pos <= reps[k].matchIndex
    ensures undo[k].End() == reps[k].End() + Shift(reps, k + 1)
    ensures result[pos + Shift(reps, k)..undo[k].matchIndex] == base[pos..reps[k].matchIndex]
  {
    var r, u, at := reps[k], undo[k], pos + Shift(reps, k);
    assert Shift(reps, k + 1) == Shift(reps, k) + |r.newText| - r.matchLength;
    hide Substitute, Ordered, Shift;
    OrderedHead(reps, k, |reps|, pos, |base|);
    OrderedHead(undo, k, |undo|, at, |result|);
    SubstituteStep(base, reps, k, |reps|, pos, |base|);
    var before, tail := base[pos..r.matchIndex], Substitute(base, reps, k + 1, |reps|, r.End(), |base|);
    assert u.matchIndex == at + |before|;
    assert u.End() == r.End() + Shift(reps, k + 1);
  }

  /** Undoing the replacements from `k` on, from position `at` of the result, gives the base from `pos` on. */
  ghost predicate Restored(base: Text, undo: seq<Replacement>, result: Text, k: nat, pos: nat, at: int) {
    && 0 <= at && pos <= |base| && Ordered(undo, k, |undo|, at, |result|)
    && Substitute(result, undo, k, |undo|, at, |result|) == base[pos..]
  }

  lemma UndoDone(base: Text, reps: seq<Replacement>, undo: seq<Replacement>, result: Text, pos: nat)
    requires Undoing(base, reps, undo, result, |reps|, pos)
    ensures Restored(base, undo, result, |reps|, pos, pos + Shift(reps, |reps|))
  {
    WholeSlice(result, pos + Shift(reps, |reps|));
    WholeSlice(base, pos);
  }

  lemma UndoingHead(base: Text, reps: seq<Replacement>, undo: seq<Replacement>, result: Text, k: nat, pos: nat)
    requires Undoing(base, reps, undo, result, k, pos) && Inverts(base, reps, undo) && k < |reps|
    ensures |undo| == |reps| && reps[k].End() <= |base| && 0 <= reps[k].matchIndex + Shift(reps, k)
    ensures undo[k] == Inverse(base, reps, k) && undo[k].newText == base[reps[k].matchIndex..reps[k].End()]
    ensures 0 <= pos + Shift(reps, k) <= undo[k].matchIndex <= |result|
    ensures Ordered(undo, k, |undo|, pos + Shift(reps, k), |result|)
  {
    assert InvertsAt(base, reps, undo, k);
    hide Substitute, Shift, Inverts;
    OrderedHead(undo, k, |undo|, pos + Shift(reps, k), |result|);
  }

  lemma UndoingNext(base: Text, reps: seq<Replacement>, undo: seq<Replacement>, result: Text, k: nat, pos: nat)
    requires Undoing(base, reps, undo, result, k, pos) && Inverts(base, reps, undo) && k < |reps|
    ensures reps[k].End() <= |base| && Undoing(base, reps, undo, result, k + 1, reps[k].End())
    ensures Restored(base, undo, result, k + 1, reps[k].End(), reps[k].End() + Shift(reps, k + 1)) ==>
              Restored(base, undo, result, k, pos, pos + Shift(reps, k))
  {
    UndoingHead(base, reps, undo, result, k, pos);
    hide *;
    UndoStep(base, reps, undo, result, k, pos);
  }

  lemma {:induction false} UndoFrom(base: Text, reps: seq<Replacement>, undo: seq<Replacement>, result: Text, k: nat,
                                    pos: nat)
    requires k <= |reps| && Undoing(base, reps, undo, result, k, pos) && Inverts(base, reps, undo)
    ensures Restored(base, undo, result, k, pos, pos + Shift(reps, k))
    decreases |reps| - k
  {
    hide *;
    if k == |reps| {
      UndoDone(base, reps, undo, result, pos);
    } else {
      UndoingNext(base, reps, undo, result, k, pos);
      UndoFrom(base, reps, undo, result, k + 1, reps[k].End());
    }
  }

  lemma WholeSlice(s: Text, at: nat)
    requires at <= |s|
    ensures s[at..|s|] == s[at..]
  {
  }

  /** Putting back what each region held, where the region is now, restores the text exactly. */
  lemma UndoRestores(base: Text, reps: seq<Replacement>, undo: seq<Replacement>)
    requires Ordered(reps, 0, |reps|, 0, |base|) && Inverts(base, reps, undo)
    ensures var result := Substitute(base, reps, 0, |reps|, 0, |base|);
            && Ordered(undo, 0, |undo|, 0, |result|)
            && Substitute(result, undo, 0, |undo|, 0, |result|) == base
  {
    var result := Substitute(base, reps, 0, |reps|, 0, |base|);
    UndoOrdered(base, reps, undo);
    assert result[0..] == result && base[0..] == base;
    UndoFrom(base, reps, undo, result, 0, 0);
  }

  /** Every disjoint set of replacements has an undo. */
  lemma UndoExists(base: Text, reps: seq<Replacement>) returns (undo: seq<Replacement>)
    requires Ordered(reps, 0, |reps|, 0, |base|)
    ensures Inverts(base, reps, undo)
  {
    forall i | 0 <= i < |reps|
      ensures 0 <= reps[i].matchIndex + Shift(reps, i)
    {
      ShiftFits(reps, i, |base|);
    }
    undo := seq(|reps|, i requires 0 <= i < |reps|
                && 0 <= reps[i].matchIndex + Shift(reps, i) => Inverse(base, reps, i));
  }
}

/** Applying find-and-replace edits to a text: matching, overlap detection and splicing. The Unicode
    normalization used for tolerant matching is a parameter, of which only idempotence is assumed. */
module EditEngine {
  import opened Bytes
  import opened LinePreserving
  import opened Options
  import opened Splice
  import StableSort
  import Utf8

  datatype Edit = Edit(oldText: Text, newText: Text)

  datatype EditError =
    | EmptyOldText(edit: nat)
    | NotFound(edit: nat)
    | Duplicate(edit: nat, occurrences: nat)
    | Overlap(first: nat, second: nat)
    | LineCounts
    | Outside
    | NoChange

  datatype EditResult = Applied(newContent: Text) | Failed(error: EditError)

  datatype Matched = Matched(editIndex: nat, replacement: Replacement)

  datatype Matching = Matches(matched: seq<Matched>) | NoMatch(error: EditError)

  type Normalizer = Text -> Text

  ghost predicate Idempotent(normalize: Normalizer) {
    forall t {:trigger normalize(t)} :: normalize(normalize(t)) == normalize(t)
  }

  function ReplaceCrLf(t: Text): Text {
    if |t| < 2 then t
    else if t[0] == CARRIAGE_RETURN && t[1] == NEWLINE then [NEWLINE] + ReplaceCrLf(t[2..])
    else [t[0]] + ReplaceCrLf(t[1..])
  }

  function ReplaceCr(t: Text): Text {
    seq(|t|, i requires 0 <= i < |t| => if t[i] == CARRIAGE_RETURN then NEWLINE else t[i])
  }

  function NormalizeToLF(t: Text): Text {
    ReplaceCr(ReplaceCrLf(t))
  }

  lemma {:induction false} ReplaceCrLfKeepsLf(t: Text)
    requires CARRIAGE_RETURN !in t
    ensures ReplaceCrLf(t) == t
  {
    if |t| >= 2 {
      assert CARRIAGE_RETURN !in t[1..];
      ReplaceCrLfKeepsLf(t[1..]);
    }
  }

  /** Line-ending normalization leaves no carriage return and changes nothing the second time. */
  lemma NormalizeToLFIsLF(t: Text)
    ensures CARRIAGE_RETURN !in NormalizeToLF(t)
    ensures NormalizeToLF(NormalizeToLF(t)) == NormalizeToLF(t)
  {
    var lf := NormalizeToLF(t);
    ReplaceCrLfKeepsLf(lf);
    assert ReplaceCr(lf) == lf;
  }

  lemma {:induction false} ReplaceCrLfInTwo(a: Text, b: Text)
    requires a != [] && b != [] ==> !(a[|a| - 1] == CARRIAGE_RETURN && b[0] == NEWLINE)
    ensures ReplaceCrLf(a + b) == ReplaceCrLf(a) + ReplaceCrLf(b)
    decreases |a|
  {
    hide ReplaceCrLf;
    ReplaceCrLfStep(a + b);
    ReplaceCrLfStep(a);
    ReplaceCrLfStep([]);
    if a == [] {
      assert a + b == b && [] + ReplaceCrLf(b) == ReplaceCrLf(b);
    } else if b == [] {
      assert a + b == a && ReplaceCrLf(a) + [] == ReplaceCrLf(a);
    } else if |a| == 1 {
      assert (a + b)[1..] == b && (a + b)[0] == a[0];
    } else {
      var n := if a[0] == CARRIAGE_RETURN && a[1] == NEWLINE then 2 else 1;
      assert (a + b)[n..] == a[n..] + b && (a + b)[0] == a[0] && (a + b)[1] == a[1];
      ReplaceCrLfInTwo(a[n..], b);
    }
  }

  lemma ReplaceCrLfStep(t: Text)
    ensures |t| < 2 ==> ReplaceCrLf(t) == t
    ensures |t| >= 2 ==>
              if t[0] == CARRIAGE_RETURN && t[1] == NEWLINE then ReplaceCrLf(t) == [NEWLINE] + ReplaceCrLf(t[2..])
              else ReplaceCrLf(t) == [t[0]] + ReplaceCrLf(t[1..])
  {
  }

  /** What normalization does: a text without carriage returns stays, CR LF and a lone CR become LF, and a text in two
      pieces is normalized piece by piece unless the cut splits a CR LF. */
  lemma NormalizeToLFMeans(a: Text, b: Text)
    ensures CARRIAGE_RETURN !in a ==> NormalizeToLF(a) == a
    ensures NormalizeToLF([CARRIAGE_RETURN, NEWLINE]) == [NEWLINE] == NormalizeToLF([CARRIAGE_RETURN])
    ensures (a != [] && b != [] ==> !(a[|a| - 1] == CARRIAGE_RETURN && b[0] == NEWLINE)) ==>
              NormalizeToLF(a + b) == NormalizeToLF(a) + NormalizeToLF(b)
  {
    if CARRIAGE_RETURN !in a {
      ReplaceCrLfKeepsLf(a);
    }
    if a != [] && b != [] ==> !(a[|a| - 1] == CARRIAGE_RETURN && b[0] == NEWLINE) {
      ReplaceCrLfInTwo(a, b);
    }
    assert ReplaceCrLf([CARRIAGE_RETURN, NEWLINE]) == [NEWLINE] + ReplaceCrLf([]);
  }

  predicate OccursAt(content: Text, needle: Text, i: nat) {
    i + |needle| <= |content| && content[i..i + |needle|] == needle
  }

  /** The first occurrence at or after `from`. */
  function IndexFrom(content: Text, needle: Text, from: nat): (k: Option<nat>)
    ensures k.Some? ==> from <= k.value && OccursAt(content, needle, k.value)
    ensures forall j :: from <= j && (k.Some? ==> j < k.value) ==> !OccursAt(content, needle, j)
    decreases |content| - from
  {
    if from + |needle| > |content| then None
    else if OccursAt(content, needle, from) then Some(from)
    else IndexFrom(content, needle, from + 1)
  }

  function Index(content: Text, needle: Text): Option<nat> {
    IndexFrom(content, needle, 0)
  }

  function CountFrom(content: Text, needle: Text, from: nat): nat
    requires needle != []
    decreases |content| - from
  {
    var k := IndexFrom(content, needle, from);
    if k.None? then 0 else 1 + CountFrom(content, needle, k.value + |needle|)
  }

  /** Occurrences that do not overlap; the empty text occurs before and after every rune. */
  function Count(content: Text, needle: Text): nat {
    if needle == [] then |Utf8.Runes(content)| + 1 else CountFrom(content, needle, 0)
  }

  datatype FuzzyMatch = NoFuzzyMatch | FuzzyMatch(index: nat, matchLength: nat, fuzzy: bool)

  function FuzzyFindText(normalize: Normalizer, content: Text, oldText: Text): FuzzyMatch {
    var k := Index(content, oldText);
    if k.Some? then FuzzyMatch(k.value, |oldText|, false)
    else
      var f := Index(normalize(content), normalize(oldText));
      if f.None? then NoFuzzyMatch else FuzzyMatch(f.value, |normalize(oldText)|, true)
  }

  predicate IsFuzzy(normalize: Normalizer, content: Text, edit: Edit) {
    var m := FuzzyFindText(normalize, content, edit.oldText);
    m.FuzzyMatch? && m.fuzzy
  }

  predicate AnyFuzzy(normalize: Normalizer, content: Text, edits: seq<Edit>) {
    exists i :: 0 <= i < |edits| && IsFuzzy(normalize, content, edits[i])
  }

  function CountOccurrences(normalize: Normalizer, content: Text, needle: Text): nat {
    Count(normalize(content), normalize(needle))
  }

  function Needle(normalize: Normalizer, fuzzy: bool, edit: Edit): Text {
    if fuzzy then normalize(edit.oldText) else edit.oldText
  }

  /** Where the edit goes in `base`, if it is found and is the only one. */
  function Place(normalize: Normalizer, base: Text, fuzzy: bool, edit: Edit): Option<Replacement> {
    var m := FuzzyFindText(normalize, base, edit.oldText);
    if m.NoFuzzyMatch? || CountOccurrences(normalize, base, Needle(normalize, fuzzy, edit)) > 1 then None
    else Some(Replacement(m.index, m.matchLength, edit.newText))
  }

  function PlaceError(normalize: Normalizer, base: Text, fuzzy: bool, edit: Edit, i: nat): EditError {
    if FuzzyFindText(normalize, base, edit.oldText).NoFuzzyMatch? then NotFound(i)
    else Duplicate(i, CountOccurrences(normalize, base, Needle(normalize, fuzzy, edit)))
  }

  function PlaceAll(normalize: Normalizer, base: Text, fuzzy: bool, edits: seq<Edit>, k: nat): Matching
    requires k <= |edits|
  {
    if k == 0 then Matches([])
    else
      var before := PlaceAll(normalize, base, fuzzy, edits, k - 1);
      var place := Place(normalize, base, fuzzy, edits[k - 1]);
      if before.NoMatch? then before
      else if place.None? then NoMatch(PlaceError(normalize, base, fuzzy, edits[k - 1], k - 1))
      else Matches(before.matched + [Matched(k - 1, place.value)])
  }

  const MATCHED_INDEX: Matched -> nat := (m: Matched) => m.replacement.matchIndex

  function FirstEmpty(edits: seq<Edit>, i: nat): (k: nat)
    requires i <= |edits|
    ensures i <= k <= |edits| && (k < |edits| ==> edits[k].oldText == [])
    ensures forall j :: i <= j < k ==> edits[j].oldText != []
    decreases |edits| - i
  {
    if i == |edits| || edits[i].oldText == [] then i else FirstEmpty(edits, i + 1)
  }

  predicate OverlapAt(matched: seq<Matched>, i: nat)
    requires 0 < i < |matched|
  {
    matched[i - 1].replacement.End() > matched[i].replacement.matchIndex
  }

  /** The first match that starts before the one in front of it ends. */
  function FirstOverlap(matched: seq<Matched>, i: nat): (k: nat)
    requires 0 < i
    ensures i <= k && (k < |matched| ==> OverlapAt(matched, k))
    ensures forall j :: i <= j < k && j < |matched| ==> !OverlapAt(matched, j)
    decreases |matched| - i
  {
    if i >= |matched| || OverlapAt(matched, i) then i else FirstOverlap(matched, i + 1)
  }

  function Replacements(matched: seq<Matched>): seq<Replacement> {
    seq(|matched|, i requires 0 <= i < |matched| => matched[i].replacement)
  }

  function LfEdits(edits: seq<Edit>): seq<Edit> {
    seq(|edits|, i requires 0 <= i < |edits| => Edit(NormalizeToLF(edits[i].oldText), NormalizeToLF(edits[i].newText)))
  }

  function Base(normalize: Normalizer, content: Text, edits: seq<Edit>): Text {
    if AnyFuzzy(normalize, content, edits) then normalize(content) else content
  }

  /** What the sorted matches make of the content, before the check that something changed. */
  ghost function Written(normalize: Normalizer, content: Text, base: Text, fuzzy: bool,
                         reps: seq<Replacement>): EditResult
    requires StableSort.Ascending(reps, MATCH_INDEX) && Apart(reps) && (!fuzzy ==> Ordered(reps, 0, |reps|, 0, |base|))
  {
    if fuzzy then
      SortingSorted(reps);
      match Preserve(content, base, reps)
      case Preserved(text) => Applied(text)
      case LineCountMismatch => Failed(LineCounts)
      case OutsideBase => Failed(Outside)
    else Applied(Substitute(base, reps, 0, |reps|, 0, |base|))
  }

  lemma {:induction false} SortingSorted(reps: seq<Replacement>)
    requires StableSort.Ascending(reps, MATCH_INDEX)
    ensures StableSort.Sorted(reps, MATCH_INDEX) == reps
  {
    if reps != [] {
      var front := reps[..|reps| - 1];
      SortingSorted(front);
      assert reps == front + [reps[|reps| - 1]];
    }
  }

  /** What placing an edit means: the region lies in the base, and only a blank base can make it empty. */
  lemma PlaceFits(normalize: Normalizer, base: Text, fuzzy: bool, edit: Edit)
    requires Idempotent(normalize) && edit.oldText != [] && Place(normalize, base, fuzzy, edit).Some?
    requires if fuzzy then normalize(base) == base else !IsFuzzy(normalize, base, edit)
    ensures var r := Place(normalize, base, fuzzy, edit).value;
            && r.End() <= |base| && r.newText == edit.newText
            && (r.matchLength == 0 ==> fuzzy && base == [])
            && (!fuzzy ==> base[r.matchIndex..r.End()] == edit.oldText)
  {
    var needle := normalize(edit.oldText);
    assert normalize(needle) == needle;
    assert base != [] ==> |Utf8.Runes(base)| > 0;
  }

  ghost predicate PlacedAs(normalize: Normalizer, base: Text, fuzzy: bool, edits: seq<Edit>, matched: seq<Matched>,
                           k: nat) {
    && k <= |edits| && |matched| == k
    && forall i :: 0 <= i < k ==> PlacedAt(normalize, base, fuzzy, edits, matched, i)
  }

  ghost predicate PlacedAt(normalize: Normalizer, base: Text, fuzzy: bool, edits: seq<Edit>, matched: seq<Matched>,
                           i: nat)
    requires i < |edits| && i < |matched|
  {
    matched[i].editIndex == i && Place(normalize, base, fuzzy, edits[i]) == Some(matched[i].replacement)
  }

  ghost predicate AllPlaced(normalize: Normalizer, base: Text, fuzzy: bool, edits: seq<Edit>, k: nat) {
    forall i :: 0 <= i < k <= |edits| ==> Place(normalize, base, fuzzy, edits[i]).Some?
  }

  lemma {:induction false} PlaceAllIs(normalize: Normalizer, base: Text, fuzzy: bool, edits: seq<Edit>, k: nat)
    requires k <= |edits|
    ensures PlaceAll(normalize, base, fuzzy, edits, k).Matches? <==> AllPlaced(normalize, base, fuzzy, edits, k)
    ensures PlaceAll(normalize, base, fuzzy, edits, k).Matches? ==>
              PlacedAs(normalize, base, fuzzy, edits, PlaceAll(normalize, base, fuzzy, edits, k).matched, k)
  {
    hide Place, PlaceError;
    if k > 0 {
      PlaceAllIs(normalize, base, fuzzy, edits, k - 1);
      var before := PlaceAll(normalize, base, fuzzy, edits, k - 1);
      if before.Matches? && Place(normalize, base, fuzzy, edits[k - 1]).Some? {
        var after := PlaceAll(normalize, base, fuzzy, edits, k).matched;
        forall i | 0 <= i < k
          ensures PlacedAt(normalize, base, fuzzy, edits, after, i)
        {
          if i < k - 1 {
            assert PlacedAt(normalize, base, fuzzy, edits, before.matched, i);
          }
        }
      }
    }
  }

  ghost predicate AllFit(reps: seq<Replacement>, base: Text) {
    forall i :: 0 <= i < |reps| ==> reps[i].End() <= |base|
  }

  lemma {:induction false} NeighboursApart(matched: seq<Matched>, i: nat, j: nat)
    requires FirstOverlap(matched, 1) >= |matched| && i < j < |matched|
    ensures matched[i].replacement.End() <= matched[j].replacement.matchIndex
    decreases j - i
  {
    assert !OverlapAt(matched, j);
    if i + 1 < j {
      NeighboursApart(matched, i, j - 1);
    }
  }

  lemma ApartAre(matched: seq<Matched>)
    requires FirstOverlap(matched, 1) >= |matched|
    ensures Apart(Replacements(matched)) && StableSort.Ascending(Replacements(matched), MATCH_INDEX)
  {
    hide FirstOverlap;
    var reps := Replacements(matched);
    forall i, j | 0 <= i < j < |reps|
      ensures reps[i].End() <= reps[j].matchIndex
    {
      NeighboursApart(matched, i, j);
    }
  }

  lemma OrderedBecause(reps: seq<Replacement>, base: Text)
    requires Apart(reps) && AllFit(reps, base)
    ensures Ordered(reps, 0, |reps|, 0, |base|)
  {
  }

  /** Every match is some edit's place, in whatever order the matches stand. */
  ghost predicate FromEdits(normalize: Normalizer, base: Text, fuzzy: bool, edits: seq<Edit>, matched: seq<Matched>) {
    forall i :: 0 <= i < |matched| ==> FromEdit(normalize, base, fuzzy, edits, matched[i])
  }

  ghost predicate FromEdit(normalize: Normalizer, base: Text, fuzzy: bool, edits: seq<Edit>, m: Matched) {
    m.editIndex < |edits| && Place(normalize, base, fuzzy, edits[m.editIndex]) == Some(m.replacement)
  }

  lemma SortedFromEdits(normalize: Normalizer, base: Text, fuzzy: bool, edits: seq<Edit>, matched: seq<Matched>)
    requires PlacedAs(normalize, base, fuzzy, edits, matched, |edits|)
    ensures FromEdits(normalize, base, fuzzy, edits, StableSort.Sorted(matched, MATCHED_INDEX))
  {
    hide Place, StableSort.Sorted, StableSort.Ascending;
    var sorted := StableSort.Sorted(matched, MATCHED_INDEX);
    StableSort.SortedIs(matched, MATCHED_INDEX);
    forall i | 0 <= i < |sorted|
      ensures FromEdit(normalize, base, fuzzy, edits, sorted[i])
    {
      assert sorted[i] in multiset(matched);
      var k :| 0 <= k < |matched| && matched[k] == sorted[i];
      assert PlacedAt(normalize, base, fuzzy, edits, matched, k);
    }
  }

  ghost predicate NoneEmptyOld(edits: seq<Edit>) {
    forall i :: 0 <= i < |edits| ==> edits[i].oldText != []
  }

  /** The base the edits are placed in is either the content, where each is found as it is, or its normal form. */
  ghost predicate GoodBase(normalize: Normalizer, base: Text, fuzzy: bool, edits: seq<Edit>) {
    && Idempotent(normalize) && NoneEmptyOld(edits)
    && if fuzzy then normalize(base) == base else !AnyFuzzy(normalize, base, edits)
  }

  lemma FromEditFits(normalize: Normalizer, base: Text, fuzzy: bool, edits: seq<Edit>, m: Matched)
    requires GoodBase(normalize, base, fuzzy, edits) && FromEdit(normalize, base, fuzzy, edits, m)
    ensures m.replacement.End() <= |base| && m.replacement.newText == edits[m.editIndex].newText
    ensures m.replacement.matchLength == 0 ==> fuzzy && base == []
    ensures !fuzzy ==> base[m.replacement.matchIndex..m.replacement.End()] == edits[m.editIndex].oldText
  {
    hide Place, IsFuzzy, Idempotent;
    PlaceFits(normalize, base, fuzzy, edits[m.editIndex]);
  }

  lemma SortedFit(normalize: Normalizer, base: Text, fuzzy: bool, edits: seq<Edit>, sorted: seq<Matched>)
    requires GoodBase(normalize, base, fuzzy, edits) && FromEdits(normalize, base, fuzzy, edits, sorted)
    requires FirstOverlap(sorted, 1) >= |sorted|
    ensures Apart(Replacements(sorted)) && StableSort.Ascending(Replacements(sorted), MATCH_INDEX)
    ensures Ordered(Replacements(sorted), 0, |sorted|, 0, |base|)
  {
    hide GoodBase, FromEdit, FirstOverlap, Apart, Ordered;
    var reps := Replacements(sorted);
    ApartAre(sorted);
    forall i | 0 <= i < |reps|
      ensures reps[i].End() <= |base|
    {
      FromEditFits(normalize, base, fuzzy, edits, sorted[i]);
    }
    OrderedBecause(reps, base);
  }

  lemma BaseIsGood(normalize: Normalizer, content: Text, lf: seq<Edit>)
    requires Idempotent(normalize) && FirstEmpty(lf, 0) == |lf|
    ensures GoodBase(normalize, Base(normalize, content, lf), AnyFuzzy(normalize, content, lf), lf)
  {
    hide IsFuzzy;
    assert normalize(normalize(content)) == normalize(content);
  }

  ghost function Apply(normalize: Normalizer, content: Text, edits: seq<Edit>): EditResult
    requires Idempotent(normalize)
  {
    var lf := LfEdits(edits);
    if FirstEmpty(lf, 0) < |lf| then Failed(EmptyOldText(FirstEmpty(lf, 0)))
    else
      BaseIsGood(normalize, content, lf);
      ApplyPlaced(normalize, content, Base(normalize, content, lf), AnyFuzzy(normalize, content, lf), lf)
  }

  ghost function ApplyPlaced(normalize: Normalizer, content: Text, base: Text, fuzzy: bool, lf: seq<Edit>): EditResult
    requires GoodBase(normalize, base, fuzzy, lf)
  {
    var matching := PlaceAll(normalize, base, fuzzy, lf, |lf|);
    if matching.NoMatch? then Failed(matching.error)
    else
      PlaceAllIs(normalize, base, fuzzy, lf, |lf|);
      SortedFromEdits(normalize, base, fuzzy, lf, matching.matched);
      var sorted := StableSort.Sorted(matching.matched, MATCHED_INDEX);
      var k := FirstOverlap(sorted, 1);
      if k < |sorted| then Failed(Overlap(sorted[k - 1].editIndex, sorted[k].editIndex))
      else
        SortedFit(normalize, base, fuzzy, lf, sorted);
        var written := Written(normalize, content, base, fuzzy, Replacements(sorted));
        if written.Applied? && written.newContent == content then Failed(NoChange) else written
  }

  method SortMatched(matched: seq<Matched>) returns (sorted: seq<Matched>)
    ensures sorted == StableSort.Sorted(matched, MATCHED_INDEX)
  {
    var a := new Matched[|matched|](i requires 0 <= i < |matched| => matched[i]);
    assert a[..] == matched;
    StableSort.InsertionSort(a, MATCHED_INDEX);
    sorted := a[..];
  }

  lemma PlaceAllStops(normalize: Normalizer, base: Text, fuzzy: bool, edits: seq<Edit>, k: nat, n: nat)
    requires k <= n <= |edits| && PlaceAll(normalize, base, fuzzy, edits, k).NoMatch?
    ensures PlaceAll(normalize, base, fuzzy, edits, n) == PlaceAll(normalize, base, fuzzy, edits, k)
  {
    if k < n {
      PlaceAllStops(normalize, base, fuzzy, edits, k, n - 1);
    }
  }

  method MatchEdits(normalize: Normalizer, base: Text, fuzzy: bool, edits: seq<Edit>) returns (r: Matching)
    ensures r == PlaceAll(normalize, base, fuzzy, edits, |edits|)
  {
    hide FuzzyFindText, CountOccurrences;
    var matched: seq<Matched> := [];
    for i := 0 to |edits|
      invariant PlaceAll(normalize, base, fuzzy, edits, i) == Matches(matched)
    {
      var edit := edits[i];
      var m := FuzzyFindText(normalize, base, edit.oldText);
      if m.NoFuzzyMatch? {
        PlaceAllStops(normalize, base, fuzzy, edits, i + 1, |edits|);
        return NoMatch(NotFound(i));
      }
      var needle := edit.oldText;
      if fuzzy {
        needle := normalize(needle);
      }
      var occurrences := CountOccurrences(normalize, base, needle);
      if occurrences > 1 {
        PlaceAllStops(normalize, base, fuzzy, edits, i + 1, |edits|);
        return NoMatch(Duplicate(i, occurrences));
      }
      matched := matched + [Matched(i, Replacement(m.index, m.matchLength, edit.newText))];
    }
    return Matches(matched);
  }

  method WriteMatches(normalize: Normalizer, content: Text, base: Text, fuzzy: bool, reps: seq<Replacement>)
    returns (r: EditResult)
    requires StableSort.Ascending(reps, MATCH_INDEX) && Apart(reps) && Ordered(reps, 0, |reps|, 0, |base|)
    ensures r == Written(normalize, content, base, fuzzy, reps)
  {
    hide StableSort.Ascending, StableSort.Sorted, Apart, Ordered, Preserve, Substitute;
    if fuzzy {
      SortingSorted(reps);
      var preserved := ApplyReplacementsPreservingUnchangedLines(content, base, reps);
      match preserved {
        case Preserved(text) => return Applied(text);
        case LineCountMismatch => return Failed(LineCounts);
        case OutsideBase => return Failed(Outside);
      }
    }
    assert base[0..0 + |base|] == base;
    var text := ApplyReplacements(base, reps, 0, base);
    return Applied(text);
  }

  method ApplyEditsToNormalizedContent(normalize: Normalizer, content: Text, edits: seq<Edit>) returns (r: EditResult)
    requires Idempotent(normalize)
    ensures r == Apply(normalize, content, edits)
  {
    hide Idempotent, PlaceAll, FirstEmpty, FirstOverlap, AnyFuzzy, StableSort.Sorted, Written, GoodBase, Apart,
         StableSort.Ascending, Ordered, FromEdits, PlacedAs, AllPlaced;
    var lf := LfEdits(edits);
    var i := FindEmpty(lf);
    if i < |lf| {
      return Failed(EmptyOldText(i));
    }
    var fuzzy := UsesFuzzyMatch(normalize, content, lf);
    var base := if fuzzy then normalize(content) else content;
    BaseIsGood(normalize, content, lf);
    var matching := MatchEdits(normalize, base, fuzzy, lf);
    if matching.NoMatch? {
      return Failed(matching.error);
    }
    PlaceAllIs(normalize, base, fuzzy, lf, |lf|);
    SortedFromEdits(normalize, base, fuzzy, lf, matching.matched);
    var sorted := SortMatched(matching.matched);
    i := FindOverlap(sorted);
    if i < |sorted| {
      return Failed(Overlap(sorted[i - 1].editIndex, sorted[i].editIndex));
    }
    SortedFit(normalize, base, fuzzy, lf, sorted);
    r := WriteMatches(normalize, content, base, fuzzy, Replacements(sorted));
    if r.Applied? && r.newContent == content {
      r := Failed(NoChange);
    }
  }

  method FindEmpty(edits: seq<Edit>) returns (i: nat)
    ensures i == FirstEmpty(edits, 0)
  {
    i := 0;
    while i < |edits|
      invariant i <= |edits| && FirstEmpty(edits, 0) == FirstEmpty(edits, i)
    {
      if edits[i].oldText == [] {
        return;
      }
      i := i + 1;
    }
  }

  method UsesFuzzyMatch(normalize: Normalizer, content: Text, edits: seq<Edit>) returns (fuzzy: bool)
    ensures fuzzy == AnyFuzzy(normalize, content, edits)
  {
    hide IsFuzzy;
    for i := 0 to |edits|
      invariant forall k :: 0 <= k < i ==> !IsFuzzy(normalize, content, edits[k])
    {
      if IsFuzzy(normalize, content, edits[i]) {
        return true;
      }
    }
    return false;
  }

  method FindOverlap(matched: seq<Matched>) returns (i: nat)
    ensures i == FirstOverlap(matched, 1)
  {
    i := 1;
    while i < |matched|
      invariant 1 <= i && FirstOverlap(matched, 1) == FirstOverlap(matched, i)
    {
      OverlapStep(matched, i);
      if OverlapAt(matched, i) {
        return;
      }
      i := i + 1;
    }
  }

  lemma OverlapStep(matched: seq<Matched>, i: nat)
    requires 0 < i < |matched|
    ensures FirstOverlap(matched, i) == if OverlapAt(matched, i) then i else FirstOverlap(matched, i + 1)
  {
  }

  /** A function applied to each element. */
  function Map<S, T>(f: S -> T, s: seq<S>): (r: seq<T>)
    ensures |r| == |s| && forall i :: 0 <= i < |s| ==> r[i] == f(s[i])
  {
    seq(|s|, i requires 0 <= i < |s| => f(s[i]))
  }

  lemma MapSplit<S, T>(f: S -> T, a: seq<S>, x: S, b: seq<S>)
    ensures Map(f, a + [x] + b) == Map(f, a) + [f(x)] + Map(f, b)
  {
  }

  lemma RemoveOne<S>(s: seq<S>, x: S) returns (a: seq<S>, b: seq<S>)
    requires x in s
    ensures s == a + [x] + b && multiset(s) == multiset(a + b) + multiset{x}
  {
    var i :| 0 <= i < |s| && s[i] == x;
    a, b := s[..i], s[i + 1..];
    assert s == a + [x] + b;
  }

  lemma {:induction false} MapMultiset<S, T>(f: S -> T, s: seq<S>, t: seq<S>)
    requires multiset(s) == multiset(t)
    ensures multiset(Map(f, s)) == multiset(Map(f, t))
    decreases |s|
  {
    if s == [] {
      assert |multiset(t)| == 0;
    } else {
      var x := s[0];
      assert x in multiset(t);
      var a, b := RemoveOne(t, x);
      var rest := s[1..];
      assert s == [] + [x] + rest;
      assert multiset(rest) == multiset(s) - multiset{x};
      assert multiset(a + b) == multiset(t) - multiset{x};
      MapMultiset(f, rest, a + b);
      MapSplit(f, [], x, rest);
      MapSplit(f, a, x, b);
      MapJoin(f, a, b);
    }
  }

  lemma MapJoin<S, T>(f: S -> T, a: seq<S>, b: seq<S>)
    ensures Map(f, a + b) == Map(f, a) + Map(f, b)
  {
  }

  lemma SameMembers<S>(s: seq<S>, t: seq<S>, x: S)
    requires multiset(s) == multiset(t)
    ensures x in s <==> x in t
  {
    assert x in multiset(s) <==> x in multiset(t);
  }

  /** The place of each edit, with a placeholder for one that has none. */
  function Placer(normalize: Normalizer, base: Text, fuzzy: bool): Edit -> Replacement {
    (edit: Edit) => Place(normalize, base, fuzzy, edit).GetOr(Replacement(0, 0, []))
  }

  const REPLACEMENT_OF: Matched -> Replacement := (m: Matched) => m.replacement

  lemma SortedPlaces(normalize: Normalizer, base: Text, fuzzy: bool, edits: seq<Edit>, matched: seq<Matched>)
    requires PlacedAs(normalize, base, fuzzy, edits, matched, |edits|)
    ensures var reps := Replacements(StableSort.Sorted(matched, MATCHED_INDEX));
            && multiset(reps) == multiset(Map(Placer(normalize, base, fuzzy), edits))
            && StableSort.Ascending(reps, MATCH_INDEX)
  {
    hide Place, StableSort.Sorted;
    var sorted, f := StableSort.Sorted(matched, MATCHED_INDEX), Placer(normalize, base, fuzzy);
    StableSort.SortedIs(matched, MATCHED_INDEX);
    MapMultiset(REPLACEMENT_OF, sorted, matched);
    assert Replacements(sorted) == Map(REPLACEMENT_OF, sorted);
    forall i | 0 <= i < |edits|
      ensures REPLACEMENT_OF(matched[i]) == f(edits[i])
    {
      assert PlacedAt(normalize, base, fuzzy, edits, matched, i);
    }
    assert Map(REPLACEMENT_OF, matched) == Map(f, edits);
  }

  lemma SameQuestions(normalize: Normalizer, content: Text, base: Text, fuzzy: bool, a: seq<Edit>, b: seq<Edit>)
    requires multiset(a) == multiset(b)
    ensures |a| == |b| && (AnyFuzzy(normalize, content, a) ==> AnyFuzzy(normalize, content, b))
    ensures (FirstEmpty(a, 0) == |a| ==> FirstEmpty(b, 0) == |b|)
    ensures AllPlaced(normalize, base, fuzzy, a, |a|) ==> AllPlaced(normalize, base, fuzzy, b, |b|)
  {
    hide IsFuzzy, Place;
    assert |multiset(a)| == |a| && |multiset(b)| == |b|;
    if AnyFuzzy(normalize, content, a) {
      var i :| 0 <= i < |a| && IsFuzzy(normalize, content, a[i]);
      SameMembers(a, b, a[i]);
      var j :| 0 <= j < |b| && b[j] == a[i];
      assert IsFuzzy(normalize, content, b[j]);
    }
    forall j | 0 <= j < |b|
      ensures b[j] in a
    {
      SameMembers(a, b, b[j]);
    }
  }

  lemma NoEmptyPlace(normalize: Normalizer, content: Text, base: Text, fuzzy: bool, lf: seq<Edit>, sorted: seq<Matched>)
    requires GoodBase(normalize, base, fuzzy, lf) && FromEdits(normalize, base, fuzzy, lf, sorted)
    requires FirstOverlap(sorted, 1) >= |sorted|
    ensures Apart(Replacements(sorted)) && StableSort.Ascending(Replacements(sorted), MATCH_INDEX)
    ensures Ordered(Replacements(sorted), 0, |sorted|, 0, |base|)
    ensures Written(normalize, content, base, fuzzy, Replacements(sorted)).Applied? ==>
              StableSort.StrictlyAscending(Replacements(sorted), MATCH_INDEX)
  {
    hide GoodBase, FromEdit, FirstOverlap, Ordered, Place, StableSort.Sorted, Preserve, Substitute, LinesWithEndings,
         Spans, Render, UntouchedLines;
    SortedFit(normalize, base, fuzzy, lf, sorted);
    var reps := Replacements(sorted);
    if Written(normalize, content, base, fuzzy, reps).Applied? {
      forall i | 0 <= i < |reps|
        ensures reps[i].matchLength > 0
      {
        FromEditFits(normalize, base, fuzzy, lf, sorted[i]);
        if reps[i].matchLength == 0 {
          BlankBaseFails(content, reps);
        }
      }
    }
  }

  lemma BlankBaseFails(content: Text, reps: seq<Replacement>)
    requires reps != [] && Apart(reps) && StableSort.Ascending(reps, MATCH_INDEX)
    ensures Apart(StableSort.Sorted(reps, MATCH_INDEX)) && !Preserve(content, [], reps).Preserved?
  {
    hide Preserve, Substitute, LinesWithEndings, Spans, Render, UntouchedLines, Ordered, StableSort.Sorted;
    SortingSorted(reps);
    assert !AllInside(reps, [], |reps|) by {
      assert reps[0].matchIndex >= 0;
    }
    var pieces := UnchangedLinesSurvive(content, [], reps);
  }

  /** If one order of the edits succeeds, every order does, with the same content. */
  lemma PermutedPlacedAgree(normalize: Normalizer, content: Text, base: Text, fuzzy: bool, a: seq<Edit>, b: seq<Edit>)
    requires GoodBase(normalize, base, fuzzy, a) && GoodBase(normalize, base, fuzzy, b) && multiset(a) == multiset(b)
    requires ApplyPlaced(normalize, content, base, fuzzy, a).Applied?
    ensures ApplyPlaced(normalize, content, base, fuzzy, b) == ApplyPlaced(normalize, content, base, fuzzy, a)
  {
    hide GoodBase, FromEdits, FirstOverlap, Ordered, Place, StableSort.Sorted, Written, PlaceAll, AllPlaced, Placer,
         StableSort.Ascending, StableSort.StrictlyAscending, Apart, PlacedAs, AnyFuzzy, FirstEmpty, Map;
    SameQuestions(normalize, content, base, fuzzy, a, b);
    PlaceAllIs(normalize, base, fuzzy, a, |a|);
    PlaceAllIs(normalize, base, fuzzy, b, |b|);
    var ma, mb := PlaceAll(normalize, base, fuzzy, a, |a|).matched, PlaceAll(normalize, base, fuzzy, b, |b|).matched;
    SortedFromEdits(normalize, base, fuzzy, a, ma);
    SortedFromEdits(normalize, base, fuzzy, b, mb);
    var sa, sb := StableSort.Sorted(ma, MATCHED_INDEX), StableSort.Sorted(mb, MATCHED_INDEX);
    NoEmptyPlace(normalize, content, base, fuzzy, a, sa);
    SortedPlaces(normalize, base, fuzzy, a, ma);
    SortedPlaces(normalize, base, fuzzy, b, mb);
    MapMultiset(Placer(normalize, base, fuzzy), a, b);
    StableSort.AscendingIsUnique(Replacements(sa), Replacements(sb), MATCH_INDEX);
    SameOverlap(sa, sb);
  }

  lemma {:induction false} SameOverlap(s: seq<Matched>, t: seq<Matched>)
    requires Replacements(s) == Replacements(t) && FirstOverlap(s, 1) >= |s|
    ensures FirstOverlap(t, 1) >= |t|
  {
    assert |s| == |Replacements(s)| == |t|;
    forall k | 0 < k < |t|
      ensures !OverlapAt(t, k)
    {
      assert Replacements(s)[k] == t[k].replacement && Replacements(s)[k - 1] == t[k - 1].replacement;
      assert !OverlapAt(s, k);
    }
  }

  lemma PermutedAgree(normalize: Normalizer, content: Text, a: seq<Edit>, b: seq<Edit>)
    requires Idempotent(normalize) && multiset(a) == multiset(b) && Apply(normalize, content, a).Applied?
    ensures Apply(normalize, content, b) == Apply(normalize, content, a)
  {
    hide Idempotent, ApplyPlaced, NormalizeToLF, AnyFuzzy, FirstEmpty, AllPlaced, GoodBase;
    var la, lb := LfEdits(a), LfEdits(b);
    var toLf := (e: Edit) => Edit(NormalizeToLF(e.oldText), NormalizeToLF(e.newText));
    MapMultiset(toLf, a, b);
    assert la == Map(toLf, a) && lb == Map(toLf, b);
    SameQuestions(normalize, content, content, false, la, lb);
    SameQuestions(normalize, content, content, false, lb, la);
    BaseIsGood(normalize, content, la);
    BaseIsGood(normalize, content, lb);
    PermutedPlacedAgree(normalize, content, Base(normalize, content, la), AnyFuzzy(normalize, content, la), la, lb);
  }

  /** The outcome depends only on which edits are asked for, not on their order: every permutation succeeds with the
      same content, or every permutation fails. */
  lemma OrderOfEditsDoesNotMatter(normalize: Normalizer, content: Text, a: seq<Edit>, b: seq<Edit>)
    requires Idempotent(normalize) && multiset(a) == multiset(b)
    ensures Apply(normalize, content, a).Applied? <==> Apply(normalize, content, b).Applied?
    ensures Apply(normalize, content, a).Applied? ==> Apply(normalize, content, a) == Apply(normalize, content, b)
  {
    hide *;
    if Apply(normalize, content, a).Applied? {
      PermutedAgree(normalize, content, a, b);
    } else if Apply(normalize, content, b).Applied? {
      PermutedAgree(normalize, content, b, a);
    }
  }

  /** The edit a replacement carries out on `base`. */
  function EditOf(base: Text, r: Replacement): Edit
    requires r.End() <= |base|
  {
    Edit(base[r.matchIndex..r.End()], r.newText)
  }

  ghost predicate CarryOut(base: Text, reps: seq<Replacement>, edits: seq<Edit>) {
    && Ordered(reps, 0, |reps|, 0, |base|)
    && multiset(edits) == multiset(seq(|reps|, i requires 0 <= i < |reps|
                                       && reps[i].End() <= |base| => EditOf(base, reps[i])))
  }

  /** When every old text is found as it is, the result replaces disjoint regions at once, each edit exactly once and
      with all other text unchanged, and putting the old texts back restores the content. */
  lemma ExactEditsSubstitute(normalize: Normalizer, content: Text, edits: seq<Edit>)
    returns (reps: seq<Replacement>, undo: seq<Replacement>)
    requires Idempotent(normalize) && !AnyFuzzy(normalize, content, LfEdits(edits))
             && Apply(normalize, content, edits).Applied?
    ensures CarryOut(content, reps, LfEdits(edits))
    ensures Apply(normalize, content, edits).newContent == Substitute(content, reps, 0, |reps|, 0, |content|) != content
    ensures var after := Apply(normalize, content, edits).newContent;
            Inverts(content, reps, undo) && Ordered(undo, 0, |undo|, 0, |after|)
            && Substitute(after, undo, 0, |undo|, 0, |after|) == content
  {
    hide Idempotent, NormalizeToLF, AnyFuzzy, FirstEmpty, AllPlaced, GoodBase, FromEdits, FirstOverlap, Ordered, Place,
         PlaceAll, PlacedAs, StableSort.Sorted, StableSort.Ascending, Apart, Substitute, LfEdits, Inverts, CarryOut;
    var lf := LfEdits(edits);
    BaseIsGood(normalize, content, lf);
    PlaceAllIs(normalize, content, false, lf, |lf|);
    var matched := PlaceAll(normalize, content, false, lf, |lf|).matched;
    SortedFromEdits(normalize, content, false, lf, matched);
    var sorted := StableSort.Sorted(matched, MATCHED_INDEX);
    SortedFit(normalize, content, false, lf, sorted);
    reps := Replacements(sorted);
    CarriesOut(normalize, content, lf, matched, sorted);
    undo := UndoExists(content, reps);
    UndoRestores(content, reps, undo);
  }

  lemma CarriesOut(normalize: Normalizer, base: Text, lf: seq<Edit>, matched: seq<Matched>, sorted: seq<Matched>)
    requires GoodBase(normalize, base, false, lf) && PlacedAs(normalize, base, false, lf, matched, |lf|)
    requires sorted == StableSort.Sorted(matched, MATCHED_INDEX)
             && Ordered(Replacements(sorted), 0, |sorted|, 0, |base|)
    requires FromEdits(normalize, base, false, lf, sorted)
    ensures CarryOut(base, Replacements(sorted), lf)
  {
    hide Place, StableSort.Sorted, StableSort.Ascending, GoodBase, Ordered;
    StableSort.SortedIs(matched, MATCHED_INDEX);
    var f := (m: Matched) => if m.editIndex < |lf| then lf[m.editIndex] else Edit([], []);
    MapMultiset(f, sorted, matched);
    forall i | 0 <= i < |lf|
      ensures f(matched[i]) == lf[i]
    {
      assert PlacedAt(normalize, base, false, lf, matched, i);
    }
    assert Map(f, matched) == lf;
    var reps := Replacements(sorted);
    forall i | 0 <= i < |reps|
      ensures reps[i].End() <= |base| && EditOf(base, reps[i]) == f(sorted[i])
    {
      assert FromEdit(normalize, base, false, lf, sorted[i]);
      FromEditFits(normalize, base, false, lf, sorted[i]);
    }
    assert Map(f, sorted) == seq(|reps|, i requires 0 <= i < |reps|
                                 && reps[i].End() <= |base| => EditOf(base, reps[i]));
  }

  // ----- What the outcome means, in terms of where texts occur -----

  predicate Occurs(content: Text, needle: Text) {
    exists i :: 0 <= i <= |content| && OccursAt(content, needle, i)
  }

  /** The text occurs at two places that do not overlap; the empty text does so in every text but the empty one. */
  predicate Repeats(content: Text, needle: Text) {
    exists p, q :: 0 <= p < q <= |content| && TwiceAt(content, needle, p, q)
  }

  predicate TwiceAt(content: Text, needle: Text, p: nat, q: nat) {
    p < q && p + |needle| <= q && OccursAt(content, needle, p) && OccursAt(content, needle, q)
  }

  predicate FirstAt(content: Text, needle: Text, k: nat) {
    OccursAt(content, needle, k) && forall j :: 0 <= j < k ==> !OccursAt(content, needle, j)
  }

  predicate Found(normalize: Normalizer, base: Text, oldText: Text) {
    Occurs(base, oldText) || Occurs(normalize(base), normalize(oldText))
  }

  predicate Unambiguous(normalize: Normalizer, base: Text, oldText: Text) {
    Found(normalize, base, oldText) && !Repeats(normalize(base), normalize(oldText))
  }

  /** The region is where the old text first occurs, as it is or, failing that, in normal form. */
  ghost predicate IsPlace(normalize: Normalizer, base: Text, edit: Edit, r: Replacement) {
    && r.newText == edit.newText && Unambiguous(normalize, base, edit.oldText)
    && if Occurs(base, edit.oldText) then FirstAt(base, edit.oldText, r.matchIndex) && r.matchLength == |edit.oldText|
       else FirstAt(normalize(base), normalize(edit.oldText), r.matchIndex)
            && r.matchLength == |normalize(edit.oldText)|
  }

  lemma CountedTwice(content: Text, needle: Text)
    ensures Count(content, needle) > 1 <==> Repeats(content, needle)
  {
    if needle == [] {
      assert content != [] <==> |Utf8.Runes(content)| > 0;
      if content != [] {
        assert TwiceAt(content, needle, 0, 1);
      }
    } else {
      CountedTwiceFrom(content, needle);
    }
  }

  lemma CountedTwiceFrom(content: Text, needle: Text)
    requires needle != []
    ensures CountFrom(content, needle, 0) > 1 <==> Repeats(content, needle)
  {
    var k := IndexFrom(content, needle, 0);
    if k.Some? {
      var m := IndexFrom(content, needle, k.value + |needle|);
      if m.Some? {
        assert TwiceAt(content, needle, k.value, m.value);
      }
    }
  }

  /** Occurrences that do not overlap, in order. */
  ghost predicate Disjoint(content: Text, needle: Text, places: seq<nat>) {
    && (forall i :: 0 <= i < |places| ==> OccursAt(content, needle, places[i]))
    && (forall i :: 0 < i < |places| ==> places[i - 1] + |needle| <= places[i])
  }

  /** The largest number of occurrences that do not overlap. */
  ghost predicate IsMost(content: Text, needle: Text, n: nat) {
    && (exists places :: |places| == n && Disjoint(content, needle, places))
    && (forall places :: Disjoint(content, needle, places) ==> |places| <= n)
  }

  lemma {:induction false} CountedPlaces(content: Text, needle: Text, from: nat) returns (places: seq<nat>)
    requires needle != []
    ensures |places| == CountFrom(content, needle, from) && Disjoint(content, needle, places)
    ensures places != [] ==> from <= places[0]
    decreases |content| - from
  {
    var k := IndexFrom(content, needle, from);
    if k.None? {
      places := [];
    } else {
      var rest := CountedPlaces(content, needle, k.value + |needle|);
      places := [k.value] + rest;
    }
  }

  lemma {:induction false} NoMoreThanCounted(content: Text, needle: Text, from: nat, places: seq<nat>)
    requires needle != [] && Disjoint(content, needle, places) && (places != [] ==> from <= places[0])
    ensures |places| <= CountFrom(content, needle, from)
    decreases |places|
  {
    hide OccursAt;
    if places != [] {
      var k, rest := IndexFrom(content, needle, from), places[1..];
      assert OccursAt(content, needle, places[0]);
      assert forall i :: 0 <= i < |rest| ==> rest[i] == places[i + 1];
      assert Disjoint(content, needle, rest);
      NoMoreThanCounted(content, needle, k.value + |needle|, rest);
    }
  }

  lemma CountIsMost(content: Text, needle: Text)
    requires needle != []
    ensures IsMost(content, needle, Count(content, needle))
  {
    var found := CountedPlaces(content, needle, 0);
    forall places | Disjoint(content, needle, places)
      ensures |places| <= Count(content, needle)
    {
      NoMoreThanCounted(content, needle, 0, places);
    }
  }

  lemma IndexIsFirst(content: Text, needle: Text)
    ensures Index(content, needle).Some? <==> Occurs(content, needle)
    ensures Index(content, needle).Some? ==> FirstAt(content, needle, Index(content, needle).value)
  {
  }

  lemma FirstAtIsUnique(content: Text, needle: Text, j: nat, k: nat)
    requires FirstAt(content, needle, j) && FirstAt(content, needle, k)
    ensures j == k
  {
  }

  /** An edit is placed if and only if its old text is found and, in normal form, does not occur twice; and then where
      it first occurs. */
  lemma PlaceMeans(normalize: Normalizer, base: Text, fuzzy: bool, edit: Edit)
    requires Idempotent(normalize)
    ensures Place(normalize, base, fuzzy, edit).Some? <==> Unambiguous(normalize, base, edit.oldText)
    ensures Place(normalize, base, fuzzy, edit).Some? ==>
              IsPlace(normalize, base, edit, Place(normalize, base, fuzzy, edit).value)
    ensures forall r :: IsPlace(normalize, base, edit, r) ==> Place(normalize, base, fuzzy, edit) == Some(r)
  {
    hide OccursAt, Index, Count, Repeats, FirstAt;
    NeedleNormal(normalize, fuzzy, edit);
    CountedTwice(normalize(base), normalize(edit.oldText));
    IndexIsFirst(base, edit.oldText);
    IndexIsFirst(normalize(base), normalize(edit.oldText));
    forall r | IsPlace(normalize, base, edit, r)
      ensures Place(normalize, base, fuzzy, edit) == Some(r)
    {
      var m := FuzzyFindText(normalize, base, edit.oldText);
      if Occurs(base, edit.oldText) {
        FirstAtIsUnique(base, edit.oldText, m.index, r.matchIndex);
      } else {
        FirstAtIsUnique(normalize(base), normalize(edit.oldText), m.index, r.matchIndex);
      }
    }
  }

  lemma NeedleNormal(normalize: Normalizer, fuzzy: bool, edit: Edit)
    requires Idempotent(normalize)
    ensures normalize(Needle(normalize, fuzzy, edit)) == normalize(edit.oldText)
  {
  }

  /** The error of an edit that has no place. */
  lemma PlaceErrorMeans(normalize: Normalizer, base: Text, fuzzy: bool, edit: Edit, i: nat)
    requires Idempotent(normalize) && !Unambiguous(normalize, base, edit.oldText)
    ensures Problem(normalize, base, edit.oldText, i, PlaceError(normalize, base, fuzzy, edit, i))
  {
    hide OccursAt, Index, Count, Repeats, FirstAt, IsMost;
    NeedleNormal(normalize, fuzzy, edit);
    IndexIsFirst(base, edit.oldText);
    IndexIsFirst(normalize(base), normalize(edit.oldText));
    if normalize(edit.oldText) != [] {
      CountIsMost(normalize(base), normalize(edit.oldText));
    }
  }

  /** What is wrong with an edit: its old text is not found, or it occurs so many times. */
  ghost predicate Problem(normalize: Normalizer, base: Text, oldText: Text, i: nat, error: EditError) {
    if !Found(normalize, base, oldText) then error == NotFound(i)
    else
      && error.Duplicate? && error.edit == i
      && (normalize(oldText) != [] ==> IsMost(normalize(base), normalize(oldText), error.occurrences))
  }

  lemma {:induction false} FirstProblem(normalize: Normalizer, base: Text, fuzzy: bool, edits: seq<Edit>, k: nat,
                                        i: nat)
    requires Idempotent(normalize) && i < k <= |edits| && !Unambiguous(normalize, base, edits[i].oldText)
    requires forall j :: 0 <= j < i ==> Unambiguous(normalize, base, edits[j].oldText)
    ensures PlaceAll(normalize, base, fuzzy, edits, k).NoMatch?
    ensures Problem(normalize, base, edits[i].oldText, i, PlaceAll(normalize, base, fuzzy, edits, k).error)
  {
    hide Unambiguous, Place, PlaceError, Problem;
    if k == i + 1 {
      forall j | 0 <= j <= i
        ensures Place(normalize, base, fuzzy, edits[j]).Some? <==> Unambiguous(normalize, base, edits[j].oldText)
      {
        PlaceMeans(normalize, base, fuzzy, edits[j]);
      }
      PlaceAllIs(normalize, base, fuzzy, edits, i);
      PlaceErrorMeans(normalize, base, fuzzy, edits[i], i);
    } else {
      FirstProblem(normalize, base, fuzzy, edits, k - 1, i);
    }
  }

  /** Some old text is found only in normal form. */
  predicate NeedsFuzzy(normalize: Normalizer, content: Text, lf: seq<Edit>) {
    exists i :: 0 <= i < |lf| && FuzzyOnly(normalize, content, lf[i].oldText)
  }

  predicate FuzzyOnly(normalize: Normalizer, content: Text, oldText: Text) {
    !Occurs(content, oldText) && Occurs(normalize(content), normalize(oldText))
  }

  lemma NeedsFuzzyIs(normalize: Normalizer, content: Text, lf: seq<Edit>)
    ensures AnyFuzzy(normalize, content, lf) <==> NeedsFuzzy(normalize, content, lf)
  {
    hide OccursAt, Occurs, Index, FirstAt;
    forall i | 0 <= i < |lf|
      ensures IsFuzzy(normalize, content, lf[i]) <==> FuzzyOnly(normalize, content, lf[i].oldText)
    {
      IndexIsFirst(content, lf[i].oldText);
      IndexIsFirst(normalize(content), normalize(lf[i].oldText));
    }
  }

  /** The text the old texts are looked for in. */
  function Searched(normalize: Normalizer, content: Text, edits: seq<Edit>): Text {
    if NeedsFuzzy(normalize, content, LfEdits(edits)) then normalize(content) else content
  }

  /** Refusals, in the order of the checks: the first empty old text; else the first that is not found or is found
      twice. An edit that could go to two places is never applied. */
  lemma RefusesTheFirstProblem(normalize: Normalizer, content: Text, edits: seq<Edit>, i: nat)
    requires Idempotent(normalize) && i < |edits|
    ensures var r, lf, base := Apply(normalize, content, edits), LfEdits(edits), Searched(normalize, content, edits);
            && (lf[i].oldText == [] && (forall j :: 0 <= j < i ==> lf[j].oldText != []) ==>
                r == Failed(EmptyOldText(i)))
            && (NoneEmptyOld(lf) && !Unambiguous(normalize, base, lf[i].oldText)
                && (forall j :: 0 <= j < i ==> Unambiguous(normalize, base, lf[j].oldText)) ==>
                r.Failed? && Problem(normalize, base, lf[i].oldText, i, r.error))
            && (r.Applied? ==> lf[i].oldText != [] && Unambiguous(normalize, base, lf[i].oldText))
  {
    hide Idempotent, PlaceAll, AnyFuzzy, StableSort.Sorted, Written, GoodBase, Unambiguous, Problem, NeedsFuzzy, Place,
         NormalizeToLF;
    var lf := LfEdits(edits);
    NeedsFuzzyIs(normalize, content, lf);
    if FirstEmpty(lf, 0) == |lf| {
      BaseIsGood(normalize, content, lf);
      var base, fuzzy := Base(normalize, content, lf), AnyFuzzy(normalize, content, lf);
      PlaceAllIs(normalize, base, fuzzy, lf, |lf|);
      PlaceMeans(normalize, base, fuzzy, lf[i]);
      if !Unambiguous(normalize, base, lf[i].oldText)
         && forall j :: 0 <= j < i ==> Unambiguous(normalize, base, lf[j].oldText) {
        FirstProblem(normalize, base, fuzzy, lf, |lf|, i);
      }
    }
  }

  /** The places of two edits overlap. */
  ghost predicate Collide(normalize: Normalizer, base: Text, a: Edit, b: Edit) {
    exists r, s :: IsPlace(normalize, base, a, r) && IsPlace(normalize, base, b, s)
                   && r.matchIndex <= s.matchIndex < r.End()
  }

  lemma SortedHasEach(matched: seq<Matched>, sorted: seq<Matched>, i: nat) returns (p: nat)
    requires sorted == StableSort.Sorted(matched, MATCHED_INDEX) && i < |matched|
    ensures p < |sorted| && sorted[p] == matched[i]
  {
    hide StableSort.Sorted, StableSort.Ascending;
    StableSort.SortedIs(matched, MATCHED_INDEX);
    SameMembers(matched, sorted, matched[i]);
    p :| 0 <= p < |sorted| && sorted[p] == matched[i];
  }

  function Upto(n: nat): seq<nat> {
    if n == 0 then [] else Upto(n - 1) + [n - 1]
  }

  lemma {:induction false} UptoIsOnce(n: nat)
    ensures |Upto(n)| == n && (forall i :: 0 <= i < n ==> Upto(n)[i] == i)
    ensures forall x: nat :: multiset(Upto(n))[x] == if x < n then 1 else 0
  {
    if n > 0 {
      UptoIsOnce(n - 1);
      assert multiset(Upto(n)) == multiset(Upto(n - 1)) + multiset([n - 1]);
    }
  }

  lemma TwiceIn<T>(s: seq<T>, i: nat, j: nat)
    requires i < j < |s| && s[i] == s[j]
    ensures multiset(s)[s[i]] >= 2
  {
    assert s == s[..j] + [s[j]] + s[j + 1..];
    assert s[..j][i] == s[i];
    assert s[i] in multiset(s[..j]);
  }

  lemma EditIndicesDiffer(normalize: Normalizer, base: Text, fuzzy: bool, edits: seq<Edit>, matched: seq<Matched>,
                          sorted: seq<Matched>, p: nat, q: nat)
    requires PlacedAs(normalize, base, fuzzy, edits, matched, |edits|)
    requires sorted == StableSort.Sorted(matched, MATCHED_INDEX) && p < q < |sorted|
    ensures sorted[p].editIndex != sorted[q].editIndex
  {
    hide Place, StableSort.Sorted, StableSort.Ascending, Upto;
    StableSort.SortedIs(matched, MATCHED_INDEX);
    var indexOf := (m: Matched) => m.editIndex;
    MapMultiset(indexOf, sorted, matched);
    UptoIsOnce(|edits|);
    forall i | 0 <= i < |edits|
      ensures indexOf(matched[i]) == i
    {
      assert PlacedAt(normalize, base, fuzzy, edits, matched, i);
    }
    assert Map(indexOf, matched) == Upto(|edits|);
    if sorted[p].editIndex == sorted[q].editIndex {
      TwiceIn(Map(indexOf, sorted), p, q);
    }
  }

  /** Reading off where each edit goes. */
  lemma PlacesAre(normalize: Normalizer, base: Text, fuzzy: bool, edits: seq<Edit>, matched: seq<Matched>)
    requires Idempotent(normalize) && PlacedAs(normalize, base, fuzzy, edits, matched, |edits|)
    ensures forall i :: 0 <= i < |edits| ==>
              IsPlace(normalize, base, edits[i], matched[i].replacement) && matched[i].editIndex == i
    ensures forall i, r :: 0 <= i < |edits| && IsPlace(normalize, base, edits[i], r) ==> matched[i].replacement == r
  {
    hide Place, IsPlace;
    forall i | 0 <= i < |edits|
      ensures IsPlace(normalize, base, edits[i], matched[i].replacement) && matched[i].editIndex == i
      ensures forall r :: IsPlace(normalize, base, edits[i], r) ==> matched[i].replacement == r
    {
      assert PlacedAt(normalize, base, fuzzy, edits, matched, i);
      PlaceMeans(normalize, base, fuzzy, edits[i]);
    }
  }

  /** The overlap error names two edits whose places overlap. */
  lemma OverlapIsReal(normalize: Normalizer, base: Text, fuzzy: bool, edits: seq<Edit>, matched: seq<Matched>,
                      sorted: seq<Matched>, k: nat)
    requires Idempotent(normalize) && PlacedAs(normalize, base, fuzzy, edits, matched, |edits|)
    requires sorted == StableSort.Sorted(matched, MATCHED_INDEX) && 0 < k < |sorted| && OverlapAt(sorted, k)
    ensures var i, j := sorted[k - 1].editIndex, sorted[k].editIndex;
            i < |edits| && j < |edits| && i != j && Collide(normalize, base, edits[i], edits[j])
  {
    hide Place, IsPlace, StableSort.Sorted, Idempotent;
    SortedFromEdits(normalize, base, fuzzy, edits, matched);
    StableSort.SortedIs(matched, MATCHED_INDEX);
    EditIndicesDiffer(normalize, base, fuzzy, edits, matched, sorted, k - 1, k);
    var a, b := sorted[k - 1], sorted[k];
    assert FromEdit(normalize, base, fuzzy, edits, a) && FromEdit(normalize, base, fuzzy, edits, b);
    PlaceMeans(normalize, base, fuzzy, edits[a.editIndex]);
    PlaceMeans(normalize, base, fuzzy, edits[b.editIndex]);
    assert MATCHED_INDEX(a) <= MATCHED_INDEX(b);
    assert a.replacement.matchIndex <= b.replacement.matchIndex < a.replacement.End();
  }

  /** Without that error no two places overlap. */
  lemma NoOverlapMissed(normalize: Normalizer, base: Text, fuzzy: bool, edits: seq<Edit>, matched: seq<Matched>,
                        sorted: seq<Matched>, i: nat, j: nat)
    requires GoodBase(normalize, base, fuzzy, edits)
             && PlacedAs(normalize, base, fuzzy, edits, matched, |edits|)
    requires sorted == StableSort.Sorted(matched, MATCHED_INDEX) && FirstOverlap(sorted, 1) >= |sorted|
    requires i < |edits| && j < |edits| && i != j
    ensures !Collide(normalize, base, edits[i], edits[j])
  {
    hide Place, IsPlace, StableSort.Sorted, FirstOverlap, Idempotent;
    PlacesAre(normalize, base, fuzzy, edits, matched);
    var p := SortedHasEach(matched, sorted, i);
    var q := SortedHasEach(matched, sorted, j);
    SortedFromEdits(normalize, base, fuzzy, edits, matched);
    FromEditFits(normalize, base, fuzzy, edits, sorted[p]);
    FromEditFits(normalize, base, fuzzy, edits, sorted[q]);
    if p < q {
      NeighboursApart(sorted, p, q);
    } else {
      NeighboursApart(sorted, q, p);
    }
  }

  predicate LinesChange(content: Text, base: Text) {
    |LinesWithEndings(content, 0)| != |LinesWithEndings(base, 0)|
  }

  lemma WrittenErrors(normalize: Normalizer, content: Text, base: Text, fuzzy: bool, reps: seq<Replacement>)
    requires StableSort.Ascending(reps, MATCH_INDEX) && Apart(reps) && Ordered(reps, 0, |reps|, 0, |base|)
    ensures var w := Written(normalize, content, base, fuzzy, reps);
            && (w.Failed? ==> fuzzy && (w.error.LineCounts? || w.error.Outside?))
            && (fuzzy ==> (w == Failed(LineCounts) <==> LinesChange(content, base)))
  {
    hide StableSort.Sorted, Preserve, Substitute, LinesWithEndings, Spans, Render, UntouchedLines, Ordered, Apart,
         StableSort.Ascending;
    if fuzzy {
      SortingSorted(reps);
      var pieces := UnchangedLinesSurvive(content, base, reps);
    }
  }

  /** When every edit has one place, the only refusals left are places that overlap, a line count that changed in normal
      form, and a result that changes nothing; the overlap error names two edits that do overlap. */
  lemma OverlapsExactly(normalize: Normalizer, content: Text, edits: seq<Edit>)
    requires Idempotent(normalize) && NoneEmptyOld(LfEdits(edits))
    requires var lf, base := LfEdits(edits), Searched(normalize, content, edits);
             forall i :: 0 <= i < |lf| ==> Unambiguous(normalize, base, lf[i].oldText)
    ensures var r, lf, base := Apply(normalize, content, edits), LfEdits(edits), Searched(normalize, content, edits);
            && (r.Failed? && r.error.Overlap? ==>
                var i, j := r.error.first, r.error.second;
                i < |lf| && j < |lf| && i != j && Collide(normalize, base, lf[i], lf[j]))
            && (forall i, j :: 0 <= i < |lf| && 0 <= j < |lf| && i != j && Collide(normalize, base, lf[i], lf[j]) ==>
                r.Failed? && r.error.Overlap?)
            && (r.Failed? && !r.error.Overlap? ==>
                r.error.NoChange? || (NeedsFuzzy(normalize, content, lf) && (r.error.LineCounts? || r.error.Outside?)))
            && (r.Failed? && r.error.LineCounts? ==> LinesChange(content, base))
            && (r.Applied? && NeedsFuzzy(normalize, content, lf) ==> !LinesChange(content, base))
  {
    hide Idempotent, PlaceAll, AnyFuzzy, StableSort.Sorted, Written, GoodBase, Unambiguous, NeedsFuzzy, Place, Collide,
         NormalizeToLF, OverlapAt, FromEdits, PlacedAs, Apart, Ordered, StableSort.Ascending, LinesChange;
    var lf := LfEdits(edits);
    NeedsFuzzyIs(normalize, content, lf);
    BaseIsGood(normalize, content, lf);
    var base, fuzzy := Base(normalize, content, lf), AnyFuzzy(normalize, content, lf);
    forall i | 0 <= i < |lf|
      ensures Place(normalize, base, fuzzy, lf[i]).Some?
    {
      PlaceMeans(normalize, base, fuzzy, lf[i]);
    }
    PlaceAllIs(normalize, base, fuzzy, lf, |lf|);
    var matched := PlaceAll(normalize, base, fuzzy, lf, |lf|).matched;
    var sorted := StableSort.Sorted(matched, MATCHED_INDEX);
    var k := FirstOverlap(sorted, 1);
    if k < |sorted| {
      OverlapIsReal(normalize, base, fuzzy, lf, matched, sorted, k);
    } else {
      SortedFromEdits(normalize, base, fuzzy, lf, matched);
      SortedFit(normalize, base, fuzzy, lf, sorted);
      WrittenErrors(normalize, content, base, fuzzy, Replacements(sorted));
      forall i, j | 0 <= i < |lf| && 0 <= j < |lf| && i != j
        ensures !Collide(normalize, base, lf[i], lf[j])
      {
        NoOverlapMissed(normalize, base, fuzzy, lf, matched, sorted, i, j);
      }
    }
  }

  /** What an applied batch is: each edit goes exactly once to its own place, and the new content is the substitution of
      all places at once or, when some text was found only in normal form, the substitution that keeps untouched
      lines. */
  lemma AppliedMeans(normalize: Normalizer, content: Text, edits: seq<Edit>)
    returns (places: seq<Replacement>, reps: seq<Replacement>)
    requires Idempotent(normalize) && Apply(normalize, content, edits).Applied?
    ensures var lf, base := LfEdits(edits), Searched(normalize, content, edits);
            && |places| == |lf| && (forall i :: 0 <= i < |lf| ==> IsPlace(normalize, base, lf[i], places[i]))
            && multiset(reps) == multiset(places) && Ordered(reps, 0, |reps|, 0, |base|)
            && Apart(StableSort.Sorted(reps, MATCH_INDEX))
            && Apply(normalize, content, edits).newContent != content
            && if NeedsFuzzy(normalize, content, lf)
               then Preserve(content, base, reps) == Preserved(Apply(normalize, content, edits).newContent)
               else Apply(normalize, content, edits).newContent == Substitute(base, reps, 0, |reps|, 0, |base|)
  {
    hide Idempotent, PlaceAll, AnyFuzzy, StableSort.Sorted, GoodBase, NeedsFuzzy, Place, IsPlace, Preserve, Ordered,
         NormalizeToLF, FromEdits, PlacedAs, FirstOverlap, Apart, StableSort.Ascending, Substitute, FirstEmpty,
         AllPlaced;
    var lf := LfEdits(edits);
    NeedsFuzzyIs(normalize, content, lf);
    BaseIsGood(normalize, content, lf);
    var base, fuzzy := Base(normalize, content, lf), AnyFuzzy(normalize, content, lf);
    PlaceAllIs(normalize, base, fuzzy, lf, |lf|);
    var matched := PlaceAll(normalize, base, fuzzy, lf, |lf|).matched;
    SortedFromEdits(normalize, base, fuzzy, lf, matched);
    var sorted := StableSort.Sorted(matched, MATCHED_INDEX);
    SortedFit(normalize, base, fuzzy, lf, sorted);
    reps, places := Replacements(sorted), Replacements(matched);
    SortingSorted(reps);
    SameReplacements(normalize, base, fuzzy, lf, matched, sorted);
  }

  lemma SameReplacements(normalize: Normalizer, base: Text, fuzzy: bool, edits: seq<Edit>, matched: seq<Matched>,
                         sorted: seq<Matched>)
    requires Idempotent(normalize) && PlacedAs(normalize, base, fuzzy, edits, matched, |edits|)
    requires sorted == StableSort.Sorted(matched, MATCHED_INDEX)
    ensures multiset(Replacements(sorted)) == multiset(Replacements(matched)) && |matched| == |edits|
    ensures forall i :: 0 <= i < |edits| ==> IsPlace(normalize, base, edits[i], Replacements(matched)[i])
  {
    hide StableSort.Sorted, StableSort.Ascending, IsPlace;
    StableSort.SortedIs(matched, MATCHED_INDEX);
    MapMultiset(REPLACEMENT_OF, sorted, matched);
    assert Replacements(sorted) == Map(REPLACEMENT_OF, sorted) && Replacements(matched) == Map(REPLACEMENT_OF, matched);
    PlacesAre(normalize, base, fuzzy, edits, matched);
  }

  const BLANKS: Text := [SPACE, SPACE]

  const LETTER: Text := [65]

  /** Normal form as far as the example needs it: two blanks are the empty text in normal form. */
  const TRIM: Normalizer := (t: Text) => if t == BLANKS then [] else t

  /** An old text that is empty in normal form has one place in a text that is, too, although it occurs there before and
      after nothing: the edit is applied. */
  lemma BlankEditExample()
    ensures Idempotent(TRIM) && TRIM(BLANKS) == []
    ensures OccursAt(TRIM(BLANKS), TRIM(BLANKS), 0) && !Repeats(TRIM(BLANKS), TRIM(BLANKS))
    ensures Apply(TRIM, BLANKS, [Edit(BLANKS, LETTER)]) == Applied(LETTER)
  {
    hide PlaceAll, StableSort.Sorted, Substitute, IsFuzzy, Place, ReplaceCrLf;
    var edit, r := Edit(BLANKS, LETTER), Replacement(0, 2, LETTER);
    var edits := [edit];
    ReplaceCrLfKeepsLf(BLANKS);
    ReplaceCrLfKeepsLf(LETTER);
    assert NormalizeToLF(BLANKS) == BLANKS && NormalizeToLF(LETTER) == LETTER;
    assert LfEdits(edits) == edits;
    BlankPlace();
    BaseIsGood(TRIM, BLANKS, edits);
    var m := Matched(0, r);
    assert [edit] == edits && PlaceAll(TRIM, BLANKS, false, edits, 1) == Matches([m]) by {
      OnePlaced(edits, m);
    }
    SortedOne(m);
    assert Replacements([m]) == [r];
    SubstituteOne();
  }

  lemma BlankPlace()
    ensures !AnyFuzzy(TRIM, BLANKS, [Edit(BLANKS, LETTER)])
    ensures Place(TRIM, BLANKS, false, Edit(BLANKS, LETTER)) == Some(Replacement(0, 2, LETTER))
  {
    hide Place, Index;
    var edit, r := Edit(BLANKS, LETTER), Replacement(0, 2, LETTER);
    assert BLANKS[0..2] == BLANKS;
    assert OccursAt(BLANKS, BLANKS, 0);
    assert IsPlace(TRIM, BLANKS, edit, r);
    PlaceMeans(TRIM, BLANKS, false, edit);
    NeedsFuzzyIs(TRIM, BLANKS, [edit]);
  }

  lemma OnePlaced(edits: seq<Edit>, m: Matched)
    requires |edits| == 1 && m.editIndex == 0
             && Place(TRIM, BLANKS, false, edits[0]) == Some(m.replacement)
    ensures PlaceAll(TRIM, BLANKS, false, edits, 1) == Matches([m])
  {
    hide Place;
    assert PlaceAll(TRIM, BLANKS, false, edits, 0) == Matches([]);
  }

  lemma SortedOne(m: Matched)
    ensures StableSort.Sorted([m], MATCHED_INDEX) == [m]
  {
    assert [m][..0] == [];
    assert StableSort.Sorted([], MATCHED_INDEX) == [];
  }

  lemma SubstituteOne()
    ensures Ordered([Replacement(0, 2, LETTER)], 0, 1, 0, 2)
    ensures Substitute(BLANKS, [Replacement(0, 2, LETTER)], 0, 1, 0, 2) == LETTER
  {
    var reps := [Replacement(0, 2, LETTER)];
    assert Substitute(BLANKS, reps, 1, 1, 2, 2) == [];
  }
}

/** Replacements found in a normalized text, applied so that every line none of them touches
    comes out of the original text unchanged. */
module LinePreserving {
  import opened Bytes
  import opened Options
  import opened Splice
  import StableSort

  datatype Span = Span(start: nat, end: nat)

  /** The lines of `s` from `from` on, each with its newline. */
  function LinesWithEndings(s: Text, from: nat): seq<Text>
    requires from <= |s|
    decreases |s| - from
  {
    if from == |s| then []
    else
      var k := NewlineFrom(s, from);
      if k == |s| then [s[from..]] else [s[from..k + 1]] + LinesWithEndings(s, k + 1)
  }

  ghost predicate NoneEmpty(lines: seq<Text>) {
    forall i :: 0 <= i < |lines| ==> lines[i] != []
  }

  lemma NoneEmptyCons(line: Text, rest: seq<Text>)
    requires line != [] && NoneEmpty(rest)
    ensures NoneEmpty([line] + rest) && NoneEmpty([line])
  {
  }

  lemma LinesStep(s: Text, from: nat, k: nat)
    requires from < |s| && k == NewlineFrom(s, from)
    ensures from <= k <= |s|
    ensures k == |s| ==> LinesWithEndings(s, from) == [s[from..]]
    ensures k < |s| ==> LinesWithEndings(s, from) == [s[from..k + 1]] + LinesWithEndings(s, k + 1)
  {
  }

  lemma ConcatOne(line: Text)
    ensures Concat([line]) == line && Concat([]) == []
  {
    assert Concat([line]) == line + Concat([]);
  }

  lemma LinesNone(s: Text)
    ensures LinesWithEndings(s, |s|) == [] && NoneEmpty([])
  {
  }

  lemma {:induction false} LinesRejoin(s: Text, from: nat)
    requires from <= |s|
    ensures Concat(LinesWithEndings(s, from)) == s[from..]
    ensures NoneEmpty(LinesWithEndings(s, from))
    decreases |s| - from
  {
    hide *;
    LinesNone(s);
    ConcatOne(s[from..]);
    if from < |s| {
      var k := NewlineFrom(s, from);
      LinesStep(s, from, k);
      if k == |s| {
        NoneEmptyCons(s[from..], []);
        assert [s[from..]] + [] == [s[from..]];
      } else {
        LinesRejoin(s, k + 1);
        ConcatCons(s[from..k + 1], LinesWithEndings(s, k + 1));
        NoneEmptyCons(s[from..k + 1], LinesWithEndings(s, k + 1));
        RejoinTwo(s, from, k + 1, |s|);
      }
    }
  }

  lemma ConcatCons(line: Text, rest: seq<Text>)
    ensures Concat([line] + rest) == line + Concat(rest)
  {
    assert ([line] + rest)[1..] == rest;
  }

  function Offset(lines: seq<Text>, i: nat): nat
    requires i <= |lines|
  {
    if i == 0 then 0 else Offset(lines, i - 1) + |lines[i - 1]|
  }

  function Spans(lines: seq<Text>): seq<Span> {
    seq(|lines|, i requires 0 <= i < |lines| => Span(Offset(lines, i), Offset(lines, i + 1)))
  }

  /** The spans cut `base` into the lines, with nothing left out and no line empty. */
  ghost predicate Tiles(spans: seq<Span>, lines: seq<Text>, base: Text) {
    && |spans| == |lines|
    && (forall i :: 0 <= i < |spans| ==> LineAt(spans, lines, base, i))
    && (|spans| == 0 ==> base == [])
  }

  ghost predicate LineAt(spans: seq<Span>, lines: seq<Text>, base: Text, i: nat)
    requires i < |spans| == |lines|
  {
    && spans[i].start < spans[i].end <= |base|
    && base[spans[i].start..spans[i].end] == lines[i]
    && (i == 0 ==> spans[i].start == 0)
    && spans[i].end == LineStart(spans, base, i + 1)
  }

  function LineStart(spans: seq<Span>, base: Text, i: nat): nat
    requires i <= |spans|
  {
    if i < |spans| then spans[i].start else |base|
  }

  lemma {:induction false} OffsetIsConcat(lines: seq<Text>, i: nat)
    requires i <= |lines|
    ensures Offset(lines, i) == |Concat(lines[..i])|
    ensures Offset(lines, i) <= |Concat(lines)| && Concat(lines)[..Offset(lines, i)] == Concat(lines[..i])
  {
    if i > 0 {
      OffsetIsConcat(lines, i - 1);
      assert lines[..i] == lines[..i - 1] + [lines[i - 1]];
      ConcatSnoc(lines[..i - 1], lines[i - 1]);
    }
    assert lines == lines[..i] + lines[i..];
    ConcatAppend(lines[..i], lines[i..]);
  }

  lemma OffsetNext(lines: seq<Text>, i: nat)
    requires i < |lines|
    ensures Offset(lines, i + 1) == Offset(lines, i) + |lines[i]| <= |Concat(lines)|
    ensures Concat(lines)[Offset(lines, i)..Offset(lines, i + 1)] == lines[i]
    ensures i == 0 ==> Offset(lines, i) == 0
  {
    OffsetIsConcat(lines, i);
    OffsetIsConcat(lines, i + 1);
    assert lines[..i + 1] == lines[..i] + [lines[i]];
    ConcatSnoc(lines[..i], lines[i]);
    var all, a, b := Concat(lines), Offset(lines, i), Offset(lines, i + 1);
    assert all[a..b] == all[..b][a..];
  }

  lemma SpansTile(s: Text)
    ensures Tiles(Spans(LinesWithEndings(s, 0)), LinesWithEndings(s, 0), s)
  {
    var lines := LinesWithEndings(s, 0);
    var spans := Spans(lines);
    LinesRejoin(s, 0);
    assert s[0..] == s;
    assert lines == [] ==> Concat(lines) == [];
    assert forall i :: 0 <= i < |lines| ==> lines[i] != [];
    OffsetIsConcat(lines, |lines|);
    assert lines[..|lines|] == lines;
    forall i | 0 <= i < |spans|
      ensures LineAt(spans, lines, s, i)
    {
      SpanIsLine(s, lines, i);
    }
  }

  lemma SpanIsLine(s: Text, lines: seq<Text>, i: nat)
    requires i < |lines| && s == Concat(lines) && Offset(lines, |lines|) == |s| && lines[i] != []
    ensures LineAt(Spans(lines), lines, s, i)
  {
    hide Concat, Offset;
    OffsetNext(lines, i);
  }

  method GetLineSpans(content: Text) returns (spans: seq<Span>)
    ensures spans == Spans(LinesWithEndings(content, 0))
  {
    var offset, lines := 0, LinesWithEndings(content, 0);
    spans := [];
    for i := 0 to |lines|
      invariant offset == Offset(lines, i)
      invariant spans == Spans(lines)[..i]
    {
      spans := spans + [Span(offset, offset + |lines[i]|)];
      offset := offset + |lines[i]|;
    }
  }

  /** The line touches the replaced bytes, or holds the place where nothing is replaced. */
  predicate Touches(line: Span, r: Replacement) {
    line.start <= r.matchIndex < line.end || r.matchIndex < line.start < r.End()
  }

  /** The byte is replaced, or the new text goes in front of it. */
  predicate Affects(r: Replacement, b: nat) {
    r.matchIndex <= b < r.End() || b == r.matchIndex
  }

  /** Touched lines are those with an affected byte. */
  lemma TouchesMeans(line: Span, r: Replacement)
    requires line.start < line.end
    ensures Touches(line, r) <==> exists b :: line.start <= b < line.end && Affects(r, b)
  {
    if Touches(line, r) {
      assert Affects(r, if r.matchIndex < line.start then line.start else r.matchIndex);
    }
  }

  function StartLine(spans: seq<Span>, pos: nat, i: nat): (k: nat)
    requires i <= |spans|
    ensures i <= k <= |spans| && (k < |spans| ==> spans[k].start <= pos < spans[k].end)
    ensures forall j :: i <= j < k ==> !(spans[j].start <= pos < spans[j].end)
    decreases |spans| - i
  {
    if i == |spans| || (spans[i].start <= pos < spans[i].end) then i else StartLine(spans, pos, i + 1)
  }

  function EndLine(spans: seq<Span>, end: nat, i: nat): (k: nat)
    requires i <= |spans|
    ensures i <= k <= |spans| && (k < |spans| ==> end <= spans[k].end)
    ensures forall j :: i <= j < k ==> spans[j].end < end
    decreases |spans| - i
  {
    if i == |spans| || end <= spans[i].end then i else EndLine(spans, end, i + 1)
  }

  function LineRange(spans: seq<Span>, r: Replacement): Option<(nat, nat)> {
    var s := StartLine(spans, r.matchIndex, 0);
    if s == |spans| then None
    else
      var e := EndLine(spans, r.End(), s);
      if e == |spans| then None else Some((s, e + 1))
  }

  method GetReplacementLineRange(lines: seq<Span>, r: Replacement) returns (range: Option<(nat, nat)>)
    ensures range == LineRange(lines, r)
  {
    var startLine := 0;
    while startLine < |lines| && !(lines[startLine].start <= r.matchIndex < lines[startLine].end)
      invariant startLine <= |lines| && StartLine(lines, r.matchIndex, 0) == StartLine(lines, r.matchIndex, startLine)
    {
      startLine := startLine + 1;
    }
    if startLine == |lines| {
      return None;
    }
    var endLine := startLine;
    while endLine < |lines| && lines[endLine].end < r.matchIndex + r.matchLength
      invariant endLine <= |lines| && EndLine(lines, r.End(), startLine) == EndLine(lines, r.End(), endLine)
    {
      endLine := endLine + 1;
    }
    if endLine >= |lines| {
      return None;
    }
    return Some((startLine, endLine + 1));
  }

  lemma {:induction false} SpansAscend(spans: seq<Span>, lines: seq<Text>, base: Text, i: nat, j: nat)
    requires Tiles(spans, lines, base) && i < j < |spans|
    ensures spans[i].end <= spans[j].start
    decreases j - i
  {
    assert LineAt(spans, lines, base, i) && LineAt(spans, lines, base, i + 1);
    if i + 1 < j {
      SpansAscend(spans, lines, base, i + 1, j);
    }
  }

  lemma LineHolding(spans: seq<Span>, lines: seq<Text>, base: Text, pos: nat, i: nat)
    requires Tiles(spans, lines, base) && pos < |base| && i <= |spans| && LineStart(spans, base, i) <= pos
    ensures exists k :: i <= k < |spans| && spans[k].start <= pos < spans[k].end
    decreases |spans| - i
  {
    if i < |spans| {
      assert LineAt(spans, lines, base, i);
      if spans[i].end <= pos {
        LineHolding(spans, lines, base, pos, i + 1);
      }
    }
  }

  ghost predicate TouchesExactly(spans: seq<Span>, r: Replacement, s: nat, e: nat) {
    forall i :: 0 <= i < |spans| ==> (Touches(spans[i], r) <==> s <= i < e)
  }

  /** A replacement has a line range exactly when its bytes lie in the text, and the range is exactly the lines it
      touches. */
  lemma LineRangeIs(spans: seq<Span>, lines: seq<Text>, base: Text, r: Replacement)
    requires Tiles(spans, lines, base)
    ensures LineRange(spans, r).Some? <==> r.matchIndex < |base| && r.End() <= |base|
    ensures LineRange(spans, r).Some? ==>
              && LineRange(spans, r).value.0 < LineRange(spans, r).value.1 <= |spans|
              && spans[LineRange(spans, r).value.0].start <= r.matchIndex
              && r.End() <= spans[LineRange(spans, r).value.1 - 1].end
    ensures LineRange(spans, r).Some? ==>
            TouchesExactly(spans, r, LineRange(spans, r).value.0, LineRange(spans, r).value.1)
  {
    hide Tiles;
    var s := StartLine(spans, r.matchIndex, 0);
    if r.matchIndex < |base| {
      FirstLineAtZero(spans, lines, base);
      LineHolding(spans, lines, base, r.matchIndex, 0);
      assert s < |spans|;
    }
    if s < |spans| {
      LineInside(spans, lines, base, s);
      var e := EndLine(spans, r.End(), s);
      LineInside(spans, lines, base, |spans| - 1);
      assert e < |spans| ==> r.End() <= spans[e].end;
      if e < |spans| {
        LineInside(spans, lines, base, e);
        forall i | 0 <= i < |spans|
          ensures Touches(spans[i], r) <==> s <= i < e + 1
        {
          TouchesInRange(spans, lines, base, r, s, e, i);
        }
      } else {
        assert spans[|spans| - 1].end < r.End();
      }
    }
  }

  lemma FirstLineAtZero(spans: seq<Span>, lines: seq<Text>, base: Text)
    requires Tiles(spans, lines, base)
    ensures LineStart(spans, base, 0) == 0
  {
    if |spans| > 0 {
      assert LineAt(spans, lines, base, 0);
    }
  }

  lemma LineInside(spans: seq<Span>, lines: seq<Text>, base: Text, i: nat)
    requires Tiles(spans, lines, base) && i < |spans|
    ensures spans[i].start < spans[i].end <= |base| && spans[i].end == LineStart(spans, base, i + 1)
    ensures i == |spans| - 1 ==> spans[i].end == |base|
  {
    assert LineAt(spans, lines, base, i);
  }

  lemma TouchesInRange(spans: seq<Span>, lines: seq<Text>, base: Text, r: Replacement, s: nat, e: nat, i: nat)
    requires Tiles(spans, lines, base) && s <= e < |spans| && i < |spans|
    requires spans[s].start <= r.matchIndex < spans[s].end && r.End() <= spans[e].end
    requires forall j :: s <= j < e ==> spans[j].end < r.End()
    ensures Touches(spans[i], r) <==> s <= i <= e
  {
    hide Tiles;
    if i < s {
      SpansAscend(spans, lines, base, i, s);
      LineInside(spans, lines, base, i);
    } else if s < i {
      SpansAscend(spans, lines, base, s, i);
      LineInside(spans, lines, base, i);
      if i <= e {
        LineInside(spans, lines, base, i - 1);
        assert spans[i - 1].end < r.End();
      } else {
        SpansAscend(spans, lines, base, e, i);
      }
    }
  }

  /** Neighbouring replacements that share lines: replacements `first` to `next` on lines `startLine` to `endLine`. */
  datatype Group = Group(startLine: nat, endLine: nat, first: nat, next: nat)

  function AddGroup(groups: seq<Group>, s: nat, e: nat, k: nat): seq<Group> {
    if groups != [] && s < groups[|groups| - 1].endLine then
      var last := groups[|groups| - 1];
      groups[..|groups| - 1] + [Group(last.startLine, if e > last.endLine then e else last.endLine, last.first, k + 1)]
    else groups + [Group(s, e, k, k + 1)]
  }

  function Grouping(spans: seq<Span>, reps: seq<Replacement>, k: nat): Option<seq<Group>>
    requires k <= |reps|
  {
    if k == 0 then Some([])
    else
      var groups := Grouping(spans, reps, k - 1);
      var range := LineRange(spans, reps[k - 1]);
      if groups.None? || range.None? then None
      else Some(AddGroup(groups.value, range.value.0, range.value.1, k - 1))
  }

  /** The group's replacements lie on its lines, and each of its lines is touched by one of them. */
  ghost predicate GroupFits(spans: seq<Span>, reps: seq<Replacement>, base: Text, g: Group) {
    && g.first < g.next <= |reps| && g.startLine < g.endLine <= |spans|
    && spans[g.endLine - 1].end <= |base|
    && Ordered(reps, g.first, g.next, spans[g.startLine].start, spans[g.endLine - 1].end)
    && (forall i :: g.startLine <= i < g.endLine ==> Touched(spans[i], reps, g.first, g.next))
    && (forall k :: g.first <= k < g.next ==> StaysWithin(spans, reps[k], g))
  }

  ghost predicate Touched(line: Span, reps: seq<Replacement>, lo: nat, hi: nat) {
    exists k :: lo <= k < hi <= |reps| && Touches(line, reps[k])
  }

  ghost predicate StaysWithin(spans: seq<Span>, r: Replacement, g: Group) {
    forall i :: 0 <= i < |spans| && Touches(spans[i], r) ==> g.startLine <= i < g.endLine
  }

  /** The first `k` replacements, cut into groups whose lines do not overlap. */
  ghost predicate Grouped(spans: seq<Span>, reps: seq<Replacement>, base: Text, groups: seq<Group>, k: nat) {
    && k <= |reps| && FirstOf(groups, |groups|) == k
    && forall g :: 0 <= g < |groups| ==> GroupAt(spans, reps, base, groups, g)
  }

  ghost predicate GroupAt(spans: seq<Span>, reps: seq<Replacement>, base: Text, groups: seq<Group>, g: nat)
    requires g < |groups|
  {
    && GroupFits(spans, reps, base, groups[g])
    && groups[g].first == FirstOf(groups, g)
    && LineOf(groups, g) <= groups[g].startLine
  }

  /** How many replacements the groups before `g` hold. */
  function FirstOf(groups: seq<Group>, g: nat): nat
    requires g <= |groups|
  {
    if g == 0 then 0 else groups[g - 1].next
  }

  /** The first line after the groups before `g`. */
  function LineOf(groups: seq<Group>, g: nat): nat
    requires g <= |groups|
  {
    if g == 0 then 0 else groups[g - 1].endLine
  }

  /** In order and without overlap, wherever they are. */
  ghost predicate Apart(reps: seq<Replacement>) {
    forall i, j :: 0 <= i < j < |reps| ==> reps[i].End() <= reps[j].matchIndex
  }

  lemma NewGroupFits(spans: seq<Span>, lines: seq<Text>, base: Text, reps: seq<Replacement>, s: nat, e: nat, k: nat)
    requires Tiles(spans, lines, base) && Apart(reps) && k < |reps| && LineRange(spans, reps[k]) == Some((s, e))
    ensures GroupFits(spans, reps, base, Group(s, e, k, k + 1))
  {
    LineRangeIs(spans, lines, base, reps[k]);
    LineInside(spans, lines, base, e - 1);
    hide Tiles, Touches, LineRange;
    forall i | s <= i < e
      ensures Touched(spans[i], reps, k, k + 1)
    {
    }
    assert StaysWithin(spans, reps[k], Group(s, e, k, k + 1));
  }

  lemma EndsAscend(spans: seq<Span>, lines: seq<Text>, base: Text, i: nat, j: nat)
    requires Tiles(spans, lines, base) && i <= j < |spans|
    ensures spans[i].end <= spans[j].end <= |base| && spans[i].start <= spans[j].start
  {
    LineInside(spans, lines, base, i);
    LineInside(spans, lines, base, j);
    if i < j {
      SpansAscend(spans, lines, base, i, j);
    }
  }

  lemma JoinedOrdered(reps: seq<Replacement>, first: nat, k: nat, pos: nat, end: nat, newEnd: nat)
    requires Apart(reps) && first < k < |reps| && Ordered(reps, first, k, pos, end)
    requires end <= newEnd && reps[k].End() <= newEnd
    ensures Ordered(reps, first, k + 1, pos, newEnd)
    ensures pos <= reps[k].matchIndex
  {
    assert pos <= reps[first].matchIndex && reps[first].End() <= reps[k].matchIndex;
  }

  lemma JoinedTouched(spans: seq<Span>, reps: seq<Replacement>, base: Text, g: Group, h: Group, s: nat, e: nat, k: nat)
    requires k < |reps| && GroupFits(spans, reps, base, g) && g.next == k
    requires h.startLine == g.startLine <= s < g.endLine <= h.endLine <= |spans| && h.first == g.first
             && h.next == k + 1
    requires TouchesExactly(spans, reps[k], s, e) && h.endLine == if e > g.endLine then e else g.endLine
    ensures forall i :: h.startLine <= i < h.endLine ==> Touched(spans[i], reps, h.first, h.next)
    ensures forall m :: h.first <= m < h.next ==> StaysWithin(spans, reps[m], h)
  {
    hide Ordered, Touches;
    forall i | h.startLine <= i < h.endLine
      ensures Touched(spans[i], reps, g.first, k + 1)
    {
      if i < g.endLine {
        assert Touched(spans[i], reps, g.first, k);
      } else {
        assert Touches(spans[i], reps[k]);
      }
    }
    forall m | h.first <= m < h.next
      ensures StaysWithin(spans, reps[m], h)
    {
      if m < k {
        assert StaysWithin(spans, reps[m], g);
      }
    }
  }

  lemma JoinedGroupFits(spans: seq<Span>, lines: seq<Text>, base: Text, reps: seq<Replacement>, g: Group, s: nat,
                        e: nat, k: nat)
    requires Tiles(spans, lines, base) && Apart(reps) && k < |reps| && LineRange(spans, reps[k]) == Some((s, e))
    requires GroupFits(spans, reps, base, g) && g.next == k && s < g.endLine
    ensures GroupFits(spans, reps, base, Group(g.startLine, if e > g.endLine then e else g.endLine, g.first, k + 1))
  {
    hide *;
    var h := Group(g.startLine, if e > g.endLine then e else g.endLine, g.first, k + 1);
    GroupBounds(spans, reps, base, g);
    LineRangeIs(spans, lines, base, reps[k]);
    EndsAscend(spans, lines, base, e - 1, h.endLine - 1);
    EndsAscend(spans, lines, base, g.endLine - 1, h.endLine - 1);
    JoinedOrdered(reps, g.first, k, spans[g.startLine].start, spans[g.endLine - 1].end, spans[h.endLine - 1].end);
    StartsAtOrAfter(spans, lines, base, reps[k], g.startLine, s);
    JoinedTouched(spans, reps, base, g, h, s, e, k);
    FitsBecause(spans, reps, base, h);
  }

  lemma StartsAtOrAfter(spans: seq<Span>, lines: seq<Text>, base: Text, r: Replacement, startLine: nat, s: nat)
    requires Tiles(spans, lines, base) && startLine < |spans| && s < |spans|
    requires LineRange(spans, r).Some? && LineRange(spans, r).value.0 == s && spans[startLine].start <= r.matchIndex
    ensures startLine <= s
  {
    hide Tiles;
    if s < startLine {
      SpansAscend(spans, lines, base, s, startLine);
    }
  }

  lemma FitsBecause(spans: seq<Span>, reps: seq<Replacement>, base: Text, g: Group)
    requires g.first < g.next <= |reps| && g.startLine < g.endLine <= |spans| && spans[g.endLine - 1].end <= |base|
    requires Ordered(reps, g.first, g.next, spans[g.startLine].start, spans[g.endLine - 1].end)
    requires forall i :: g.startLine <= i < g.endLine ==> Touched(spans[i], reps, g.first, g.next)
    requires forall k :: g.first <= k < g.next ==> StaysWithin(spans, reps[k], g)
    ensures GroupFits(spans, reps, base, g)
  {
  }

  lemma GroupedPrefix(spans: seq<Span>, reps: seq<Replacement>, base: Text, groups: seq<Group>, k: nat,
                      front: seq<Group>, last: Group)
    requires Grouped(spans, reps, base, groups, k) && front <= groups && last.next <= |reps|
    requires GroupFits(spans, reps, base, last)
    requires last.first == FirstOf(groups, |front|) && LineOf(groups, |front|) <= last.startLine
    ensures Grouped(spans, reps, base, front + [last], last.next)
  {
    hide GroupFits;
    var after := front + [last];
    forall g | 0 <= g < |after|
      ensures GroupAt(spans, reps, base, after, g)
    {
      if g < |front| {
        assert GroupAt(spans, reps, base, groups, g);
      }
    }
  }

  lemma AddGroupKeeps(spans: seq<Span>, lines: seq<Text>, base: Text, reps: seq<Replacement>, groups: seq<Group>,
                      k: nat, s: nat, e: nat)
    requires Tiles(spans, lines, base) && Apart(reps) && k < |reps| && LineRange(spans, reps[k]) == Some((s, e))
    requires Grouped(spans, reps, base, groups, k)
    ensures Grouped(spans, reps, base, AddGroup(groups, s, e, k), k + 1)
  {
    hide Tiles, Apart, GroupFits, LineRange;
    if groups != [] && s < groups[|groups| - 1].endLine {
      var last := groups[|groups| - 1];
      assert GroupAt(spans, reps, base, groups, |groups| - 1);
      JoinedGroupFits(spans, lines, base, reps, last, s, e, k);
      GroupedPrefix(spans, reps, base, groups, k, groups[..|groups| - 1],
                    Group(last.startLine, if e > last.endLine then e else last.endLine, last.first, k + 1));
    } else {
      NewGroupFits(spans, lines, base, reps, s, e, k);
      GroupedPrefix(spans, reps, base, groups, k, groups, Group(s, e, k, k + 1));
    }
  }

  ghost predicate AllInside(reps: seq<Replacement>, base: Text, k: nat) {
    forall i :: 0 <= i < k <= |reps| ==> reps[i].matchIndex < |base| && reps[i].End() <= |base|
  }

  lemma AllInsideSnoc(reps: seq<Replacement>, base: Text, k: nat)
    ensures AllInside(reps, base, 0)
    ensures 0 < k <= |reps| ==>
              (AllInside(reps, base, k) <==>
               AllInside(reps, base, k - 1) && reps[k - 1].matchIndex < |base| && reps[k - 1].End() <= |base|)
  {
  }

  lemma GroupingStep(spans: seq<Span>, reps: seq<Replacement>, base: Text, k: nat)
    requires k <= |reps|
    ensures Grouping(spans, reps, 0) == Some([]) && Grouped(spans, reps, base, [], 0)
    ensures k > 0 ==>
              Grouping(spans, reps, k) ==
              if Grouping(spans, reps, k - 1).None? || LineRange(spans, reps[k - 1]).None? then None
              else Some(AddGroup(Grouping(spans, reps, k - 1).value, LineRange(spans, reps[k - 1]).value.0,
                                 LineRange(spans, reps[k - 1]).value.1, k - 1))
  {
  }

  /** Grouping fails exactly when a replacement reaches outside the text; otherwise the groups are right. */
  lemma {:induction false} GroupingIs(spans: seq<Span>, lines: seq<Text>, base: Text, reps: seq<Replacement>, k: nat)
    requires Tiles(spans, lines, base) && Apart(reps) && k <= |reps|
    ensures Grouping(spans, reps, k).Some? <==> AllInside(reps, base, k)
    ensures Grouping(spans, reps, k).Some? ==> Grouped(spans, reps, base, Grouping(spans, reps, k).value, k)
  {
    hide *;
    AllInsideSnoc(reps, base, k);
    GroupingStep(spans, reps, base, k);
    if k > 0 {
      GroupingIs(spans, lines, base, reps, k - 1);
      LineRangeIs(spans, lines, base, reps[k - 1]);
      var groups, range := Grouping(spans, reps, k - 1), LineRange(spans, reps[k - 1]);
      if groups.Some? && range.Some? {
        AddGroupKeeps(spans, lines, base, reps, groups.value, k - 1, range.value.0, range.value.1);
      }
    }
  }

  /** The skeleton of the result: lines that stay, and text written in place of a group's lines. */
  datatype Piece = Keep(line: nat) | Write(text: Text)

  function Keeps(lo: nat, hi: nat): seq<Piece>
    requires lo <= hi
    decreases hi - lo
  {
    if lo == hi then [] else [Keep(lo)] + Keeps(lo + 1, hi)
  }

  function Shown(piece: Piece, lines: seq<Text>): Text {
    match piece
    case Keep(i) => if i < |lines| then lines[i] else []
    case Write(text) => text
  }

  function Render(pieces: seq<Piece>, lines: seq<Text>): Text {
    if pieces == [] then [] else Shown(pieces[0], lines) + Render(pieces[1..], lines)
  }

  /** The lines kept, in the order they come out. */
  function KeptLines(pieces: seq<Piece>): seq<nat> {
    if pieces == [] then [] else (if pieces[0].Keep? then [pieces[0].line] else []) + KeptLines(pieces[1..])
  }

  lemma {:induction false} RenderAppend(a: seq<Piece>, b: seq<Piece>, lines: seq<Text>)
    ensures Render(a + b, lines) == Render(a, lines) + Render(b, lines)
  {
    if a == [] {
      assert a + b == b;
    } else {
      assert (a + b)[1..] == a[1..] + b;
      RenderAppend(a[1..], b, lines);
      Associate(Shown(a[0], lines), Render(a[1..], lines), Render(b, lines));
    }
  }

  lemma Associate<T>(a: seq<T>, b: seq<T>, c: seq<T>)
    ensures a + (b + c) == (a + b) + c
  {
  }

  lemma {:induction false} KeptLinesAppend(a: seq<Piece>, b: seq<Piece>)
    ensures KeptLines(a + b) == KeptLines(a) + KeptLines(b)
  {
    if a == [] {
      assert a + b == b;
    } else {
      assert (a + b)[1..] == a[1..] + b;
      KeptLinesAppend(a[1..], b);
      Associate(if a[0].Keep? then [a[0].line] else [], KeptLines(a[1..]), KeptLines(b));
    }
  }

  lemma {:induction false} RenderKeeps(lo: nat, hi: nat, lines: seq<Text>)
    requires lo <= hi <= |lines|
    ensures Render(Keeps(lo, hi), lines) == Concat(lines[lo..hi])
    decreases hi - lo
  {
    if lo < hi {
      RenderKeeps(lo + 1, hi, lines);
      assert lines[lo..hi][1..] == lines[lo + 1..hi];
    }
  }

  ghost function PiecesFrom(spans: seq<Span>, reps: seq<Replacement>, base: Text, groups: seq<Group>,
                            g: nat): seq<Piece>
    requires Grouped(spans, reps, base, groups, |reps|) && g <= |groups|
    decreases |groups| - g
  {
    LineOfFits(spans, reps, base, groups, g);
    if g == |groups| then Keeps(LineOf(groups, g), |spans|)
    else
      var group := groups[g];
      Keeps(LineOf(groups, g), group.startLine)
      + [Write(Substitute(base, reps, group.first, group.next, spans[group.startLine].start,
                          spans[group.endLine - 1].end))]
      + PiecesFrom(spans, reps, base, groups, g + 1)
  }

  lemma LineOfFits(spans: seq<Span>, reps: seq<Replacement>, base: Text, groups: seq<Group>, g: nat)
    requires Grouped(spans, reps, base, groups, |reps|) && g <= |groups|
    ensures LineOf(groups, g) <= |spans| && FirstOf(groups, g) <= |reps|
    ensures g < |groups| ==> GroupAt(spans, reps, base, groups, g)
  {
    hide GroupFits;
    if g > 0 {
      assert GroupAt(spans, reps, base, groups, g - 1);
      GroupBounds(spans, reps, base, groups[g - 1]);
    }
  }

  lemma GroupBounds(spans: seq<Span>, reps: seq<Replacement>, base: Text, g: Group)
    requires GroupFits(spans, reps, base, g)
    ensures g.first < g.next <= |reps| && g.startLine < g.endLine <= |spans| && spans[g.endLine - 1].end <= |base|
    ensures Ordered(reps, g.first, g.next, spans[g.startLine].start, spans[g.endLine - 1].end)
  {
  }

  lemma PiecesStep(spans: seq<Span>, reps: seq<Replacement>, base: Text, groups: seq<Group>, g: nat)
    requires Grouped(spans, reps, base, groups, |reps|) && g <= |groups|
    ensures LineOf(groups, g) <= |spans| && FirstOf(groups, g) <= |reps| && FirstOf(groups, |groups|) == |reps|
    ensures g == |groups| ==> PiecesFrom(spans, reps, base, groups, g) == Keeps(LineOf(groups, g), |spans|)
    ensures g < |groups| ==>
              var group := groups[g];
              && group.first < group.next <= |reps| && LineOf(groups, g) <= group.startLine < group.endLine <= |spans|
              && group.first == FirstOf(groups, g) && group.next == FirstOf(groups, g + 1)
                 && group.endLine == LineOf(groups, g + 1)
              && spans[group.endLine - 1].end <= |base|
              && Ordered(reps, group.first, group.next, spans[group.startLine].start, spans[group.endLine - 1].end)
              && PiecesFrom(spans, reps, base, groups, g) ==
                 Keeps(LineOf(groups, g), group.startLine)
                 + [Write(Substitute(base, reps, group.first, group.next, spans[group.startLine].start,
                                     spans[group.endLine - 1].end))]
                 + PiecesFrom(spans, reps, base, groups, g + 1)
  {
    hide Ordered, Touched, StaysWithin;
    LineOfFits(spans, reps, base, groups, g);
  }

  /** Lines one after the other spell the text they span. */
  lemma {:induction false} LinesSpell(spans: seq<Span>, lines: seq<Text>, base: Text, lo: nat, hi: nat)
    requires Tiles(spans, lines, base) && lo <= hi <= |spans|
    ensures LineStart(spans, base, lo) <= LineStart(spans, base, hi) <= |base|
    ensures Concat(lines[lo..hi]) == base[LineStart(spans, base, lo)..LineStart(spans, base, hi)]
    decreases hi - lo
  {
    StartInside(spans, lines, base, hi);
    if lo < hi {
      LinesSpell(spans, lines, base, lo + 1, hi);
      assert LineAt(spans, lines, base, lo);
      hide *;
      assert lines[lo..hi] == [lines[lo]] + lines[lo + 1..hi];
      ConcatCons(lines[lo], lines[lo + 1..hi]);
      RejoinTwo(base, LineStart(spans, base, lo), LineStart(spans, base, lo + 1), LineStart(spans, base, hi));
    }
  }

  lemma StartInside(spans: seq<Span>, lines: seq<Text>, base: Text, i: nat)
    requires Tiles(spans, lines, base) && i <= |spans|
    ensures LineStart(spans, base, i) <= |base|
  {
    if i < |spans| {
      assert LineAt(spans, lines, base, i);
    }
  }

  lemma OrderedTail(spans: seq<Span>, lines: seq<Text>, base: Text, reps: seq<Replacement>, groups: seq<Group>, g: nat)
    requires Tiles(spans, lines, base) && Apart(reps) && Grouped(spans, reps, base, groups, |reps|) && g <= |groups|
    requires AllInside(reps, base, |reps|)
    ensures LineOf(groups, g) <= |spans| && FirstOf(groups, g) <= |reps|
            && LineStart(spans, base, LineOf(groups, g)) <= |base|
    ensures Ordered(reps, FirstOf(groups, g), |reps|, LineStart(spans, base, LineOf(groups, g)), |base|)
  {
    PiecesStep(spans, reps, base, groups, g);
    StartInside(spans, lines, base, LineOf(groups, g));
    hide Tiles, Grouped;
    if g < |groups| {
      LinesSpell(spans, lines, base, LineOf(groups, g), groups[g].startLine);
    }
  }

  /** With the base's own lines in place of the kept ones, the skeleton spells the plain simultaneous substitution. */
  lemma {:induction false} RenderIsSubstitute(spans: seq<Span>, lines: seq<Text>, base: Text, reps: seq<Replacement>,
                                              groups: seq<Group>, g: nat)
    requires Tiles(spans, lines, base) && Apart(reps) && AllInside(reps, base, |reps|)
    requires Grouped(spans, reps, base, groups, |reps|) && g <= |groups|
    ensures LineOf(groups, g) <= |spans|
    ensures Ordered(reps, FirstOf(groups, g), |reps|, LineStart(spans, base, LineOf(groups, g)), |base|)
    ensures Render(PiecesFrom(spans, reps, base, groups, g), lines) ==
            Substitute(base, reps, FirstOf(groups, g), |reps|, LineStart(spans, base, LineOf(groups, g)), |base|)
    decreases |groups| - g
  {
    hide *;
    OrderedTail(spans, lines, base, reps, groups, g);
    PiecesStep(spans, reps, base, groups, g);
    SameCount(spans, lines, base);
    var line, first := LineOf(groups, g), FirstOf(groups, g);
    if g == |groups| {
      RenderKeeps(line, |spans|, lines);
      LinesSpell(spans, lines, base, line, |spans|);
      LineStartAtEnd(spans, base);
      SubstituteStep(base, reps, first, |reps|, LineStart(spans, base, line), |base|);
    } else {
      OrderedTail(spans, lines, base, reps, groups, g + 1);
      RenderIsSubstitute(spans, lines, base, reps, groups, g + 1);
      RenderGroup(spans, lines, base, reps, groups[g], line, PiecesFrom(spans, reps, base, groups, g + 1));
    }
  }

  lemma SameCount(spans: seq<Span>, lines: seq<Text>, base: Text)
    requires Tiles(spans, lines, base)
    ensures |spans| == |lines|
  {
  }

  lemma LineStartAtEnd(spans: seq<Span>, base: Text)
    ensures LineStart(spans, base, |spans|) == |base|
  {
  }

  lemma LineStartOf(spans: seq<Span>, lines: seq<Text>, base: Text, i: nat)
    requires Tiles(spans, lines, base) && i < |spans|
    ensures LineStart(spans, base, i) == spans[i].start && LineStart(spans, base, i + 1) == spans[i].end
  {
    assert LineAt(spans, lines, base, i);
  }

  lemma RenderGroup(spans: seq<Span>, lines: seq<Text>, base: Text, reps: seq<Replacement>, group: Group, line: nat,
                    rest: seq<Piece>)
    requires Tiles(spans, lines, base)
    requires group.first < group.next <= |reps| && line <= group.startLine < group.endLine <= |spans|
    requires spans[group.endLine - 1].end <= |base|
    requires Ordered(reps, group.first, group.next, spans[group.startLine].start, spans[group.endLine - 1].end)
    requires Ordered(reps, group.first, |reps|, LineStart(spans, base, line), |base|)
    requires Ordered(reps, group.next, |reps|, LineStart(spans, base, group.endLine), |base|)
    requires Render(rest, lines) == Substitute(base, reps, group.next, |reps|, LineStart(spans, base, group.endLine),
                                               |base|)
    ensures var start, end := spans[group.startLine].start, spans[group.endLine - 1].end;
            Render(Keeps(line, group.startLine) + [Write(Substitute(base, reps, group.first, group.next, start, end))]
                   + rest, lines) ==
            Substitute(base, reps, group.first, |reps|, LineStart(spans, base, line), |base|)
  {
    hide *;
    StretchOf(spans, lines, base, line, group.startLine, group.endLine);
    GroupText(base, reps, group.first, group.next, LineStart(spans, base, line), spans[group.startLine].start,
              spans[group.endLine - 1].end, Keeps(line, group.startLine), rest, lines);
  }

  /** Keeping the lines in front of a stretch of lines spells the text up to it. */
  lemma StretchOf(spans: seq<Span>, lines: seq<Text>, base: Text, line: nat, first: nat, next: nat)
    requires Tiles(spans, lines, base) && line <= first < next <= |spans|
    ensures LineStart(spans, base, next) == spans[next - 1].end
    ensures LineStart(spans, base, line) <= spans[first].start <= spans[next - 1].end <= |base|
    ensures Render(Keeps(line, first), lines) == base[LineStart(spans, base, line)..spans[first].start]
  {
    hide *;
    SameCount(spans, lines, base);
    LineStartOf(spans, lines, base, first);
    LineStartOf(spans, lines, base, next - 1);
    LinesSpell(spans, lines, base, line, first);
    LinesSpell(spans, lines, base, first, next);
    RenderKeeps(line, first, lines);
  }

  lemma GroupText(base: Text, reps: seq<Replacement>, first: nat, next: nat, at: nat, start: nat, end: nat,
                  keeps: seq<Piece>, rest: seq<Piece>, lines: seq<Text>)
    requires first < next <= |reps| && at <= start <= end <= |base|
    requires Ordered(reps, first, next, start, end)
    requires Ordered(reps, first, |reps|, at, |base|) && Ordered(reps, next, |reps|, end, |base|)
    requires Render(keeps, lines) == base[at..start]
    requires Render(rest, lines) == Substitute(base, reps, next, |reps|, end, |base|)
    ensures Render(keeps + [Write(Substitute(base, reps, first, next, start, end))] + rest, lines) ==
            Substitute(base, reps, first, |reps|, at, |base|)
  {
    hide *;
    RenderThree(keeps, Substitute(base, reps, first, next, start, end), rest, lines);
    OrderedEarlier(reps, first, next, at, start, end);
    SubstituteGroup(base, reps, first, next, at, start, end);
  }

  lemma RenderThree(keeps: seq<Piece>, text: Text, rest: seq<Piece>, lines: seq<Text>)
    ensures Render(keeps + [Write(text)] + rest, lines) == Render(keeps, lines) + text + Render(rest, lines)
  {
    hide *;
    RenderOne(text, lines);
    RenderAppend(keeps, [Write(text)], lines);
    RenderAppend(keeps + [Write(text)], rest, lines);
  }

  lemma SubstituteGroup(base: Text, reps: seq<Replacement>, first: nat, next: nat, at: nat, start: nat, end: nat)
    requires first < next <= |reps| && at <= start <= end <= |base|
    requires Ordered(reps, first, next, start, end) && Ordered(reps, first, next, at, end)
    requires Ordered(reps, first, |reps|, at, |base|) && Ordered(reps, next, |reps|, end, |base|)
    ensures Substitute(base, reps, first, |reps|, at, |base|) ==
            base[at..start] + Substitute(base, reps, first, next, start, end)
            + Substitute(base, reps, next, |reps|, end, |base|)
  {
    hide *;
    OrderedHead(reps, first, next, start, end);
    SubstituteGap(base, reps, first, next, at, start, end);
    SubstituteCut(base, reps, first, next, |reps|, at, end, |base|);
  }

  lemma OrderedEarlier(reps: seq<Replacement>, lo: nat, hi: nat, pos: nat, mid: nat, end: nat)
    requires Ordered(reps, lo, hi, mid, end) && pos <= mid
    ensures Ordered(reps, lo, hi, pos, end) && (lo < hi ==> mid <= reps[lo].matchIndex)
  {
  }

  lemma RenderOne(text: Text, lines: seq<Text>)
    ensures Render([Write(text)], lines) == text
  {
    assert Render([], lines) == [];
  }

  /** The lines from `i` on that no replacement touches, in order. */
  ghost function UntouchedLines(spans: seq<Span>, reps: seq<Replacement>, i: nat): seq<nat>
    requires i <= |spans|
    decreases |spans| - i
  {
    if i == |spans| then []
    else (if Touched(spans[i], reps, 0, |reps|) then [] else [i]) + UntouchedLines(spans, reps, i + 1)
  }

  lemma {:induction false} UntouchedSkips(spans: seq<Span>, reps: seq<Replacement>, lo: nat, hi: nat)
    requires lo <= hi <= |spans|
    requires forall i :: lo <= i < hi ==> Touched(spans[i], reps, 0, |reps|)
    ensures UntouchedLines(spans, reps, lo) == UntouchedLines(spans, reps, hi)
    decreases hi - lo
  {
    hide Touched;
    if lo < hi {
      UntouchedSkips(spans, reps, lo + 1, hi);
    }
  }

  lemma {:induction false} UntouchedKeeps(spans: seq<Span>, reps: seq<Replacement>, lo: nat, hi: nat)
    requires lo <= hi <= |spans|
    requires forall i :: lo <= i < hi ==> !Touched(spans[i], reps, 0, |reps|)
    ensures UntouchedLines(spans, reps, lo) == KeptLines(Keeps(lo, hi)) + UntouchedLines(spans, reps, hi)
    decreases hi - lo
  {
    hide Touched;
    if lo < hi {
      UntouchedKeeps(spans, reps, lo + 1, hi);
      assert ([Keep(lo)] + Keeps(lo + 1, hi))[1..] == Keeps(lo + 1, hi);
      Associate([lo], KeptLines(Keeps(lo + 1, hi)), UntouchedLines(spans, reps, hi));
    }
  }

  /** Replacement `k` belongs to a group before `g` or to one from `g` on. */
  lemma GroupOf(spans: seq<Span>, reps: seq<Replacement>, base: Text, groups: seq<Group>, k: nat, g: nat)
    returns (at: nat)
    requires Grouped(spans, reps, base, groups, |reps|) && g <= |groups| && k < FirstOf(groups, g)
    ensures at < g && groups[at].first <= k < groups[at].next && GroupAt(spans, reps, base, groups, at)
    decreases g
  {
    hide GroupFits;
    assert GroupAt(spans, reps, base, groups, g - 1);
    if groups[g - 1].first <= k {
      at := g - 1;
    } else {
      at := GroupOf(spans, reps, base, groups, k, g - 1);
    }
  }

  lemma GroupLines(spans: seq<Span>, reps: seq<Replacement>, base: Text, groups: seq<Group>, g: nat)
    requires Grouped(spans, reps, base, groups, |reps|) && g < |groups|
    ensures LineOf(groups, g) <= groups[g].startLine < groups[g].endLine == LineOf(groups, g + 1)
  {
    hide Touched, StaysWithin, Ordered;
    assert GroupAt(spans, reps, base, groups, g);
  }

  lemma {:induction false} LinesAscend(spans: seq<Span>, reps: seq<Replacement>, base: Text, groups: seq<Group>,
                                       g: nat, h: nat)
    requires Grouped(spans, reps, base, groups, |reps|) && g <= h < |groups|
    ensures LineOf(groups, g) <= groups[g].startLine <= groups[h].startLine && groups[g].endLine <= groups[h].endLine
    decreases h - g
  {
    hide *;
    GroupLines(spans, reps, base, groups, g);
    GroupLines(spans, reps, base, groups, h);
    if g < h {
      GroupLines(spans, reps, base, groups, h - 1);
      LinesAscend(spans, reps, base, groups, g, h - 1);
    }
  }

  lemma GapIsUntouched(spans: seq<Span>, reps: seq<Replacement>, base: Text, groups: seq<Group>, g: nat, i: nat)
    requires Grouped(spans, reps, base, groups, |reps|) && g <= |groups| && i < |spans|
    requires LineOf(groups, g) <= i && (g < |groups| ==> i < groups[g].startLine)
    ensures !Touched(spans[i], reps, 0, |reps|)
  {
    hide Touches, Ordered;
    forall k | 0 <= k < |reps|
      ensures !Touches(spans[i], reps[k])
    {
      assert FirstOf(groups, |groups|) == |reps|;
      var at := GroupOf(spans, reps, base, groups, k, |groups|);
      assert StaysWithin(spans, reps[k], groups[at]);
      if at < g {
        LinesAscend(spans, reps, base, groups, at, g - 1);
      } else {
        LinesAscend(spans, reps, base, groups, g, at);
      }
    }
  }

  lemma GroupIsTouched(spans: seq<Span>, reps: seq<Replacement>, base: Text, groups: seq<Group>, g: nat, i: nat)
    requires Grouped(spans, reps, base, groups, |reps|) && g < |groups|
    requires GroupFits(spans, reps, base, groups[g]) && groups[g].startLine <= i < groups[g].endLine
    ensures i < |spans| && Touched(spans[i], reps, 0, |reps|)
  {
    hide Touches, Ordered, Grouped;
    assert Touched(spans[i], reps, groups[g].first, groups[g].next);
  }

  /** The lines kept are exactly the untouched ones. */
  lemma {:induction false} KeepsUntouched(spans: seq<Span>, reps: seq<Replacement>, base: Text, groups: seq<Group>,
                                          g: nat)
    requires Grouped(spans, reps, base, groups, |reps|) && g <= |groups|
    ensures LineOf(groups, g) <= |spans|
    ensures KeptLines(PiecesFrom(spans, reps, base, groups, g)) == UntouchedLines(spans, reps, LineOf(groups, g))
    decreases |groups| - g
  {
    hide *;
    PiecesStep(spans, reps, base, groups, g);
    var line, stop := LineOf(groups, g), if g < |groups| then groups[g].startLine else |spans|;
    forall i | line <= i < stop
      ensures !Touched(spans[i], reps, 0, |reps|)
    {
      GapIsUntouched(spans, reps, base, groups, g, i);
    }
    UntouchedKeeps(spans, reps, line, stop);
    UntouchedNone(spans, reps);
    if g < |groups| {
      LineOfFits(spans, reps, base, groups, g);
      GroupAtFits(spans, reps, base, groups, g);
      var group := groups[g];
      forall i | group.startLine <= i < group.endLine
        ensures Touched(spans[i], reps, 0, |reps|)
      {
        GroupIsTouched(spans, reps, base, groups, g, i);
      }
      UntouchedSkips(spans, reps, group.startLine, group.endLine);
      KeepsUntouched(spans, reps, base, groups, g + 1);
      KeptThree(Keeps(line, group.startLine),
                Substitute(base, reps, group.first, group.next, spans[group.startLine].start,
                           spans[group.endLine - 1].end),
                PiecesFrom(spans, reps, base, groups, g + 1));
    }
  }

  lemma UntouchedNone(spans: seq<Span>, reps: seq<Replacement>)
    ensures UntouchedLines(spans, reps, |spans|) == []
  {
  }

  lemma GroupAtFits(spans: seq<Span>, reps: seq<Replacement>, base: Text, groups: seq<Group>, g: nat)
    requires g < |groups| && GroupAt(spans, reps, base, groups, g)
    ensures GroupFits(spans, reps, base, groups[g])
  {
  }

  lemma KeptThree(keeps: seq<Piece>, text: Text, rest: seq<Piece>)
    ensures KeptLines(keeps + [Write(text)] + rest) == KeptLines(keeps) + KeptLines(rest)
  {
    hide *;
    KeptLinesAppend(keeps, [Write(text)]);
    KeptLinesAppend(keeps + [Write(text)], rest);
    KeptOne(text);
  }

  lemma KeptOne(text: Text)
    ensures KeptLines([Write(text)]) == []
  {
    assert KeptLines([]) == [];
  }

  datatype Preserved = Preserved(text: Text) | LineCountMismatch | OutsideBase

  const MATCH_INDEX: Replacement -> nat := (r: Replacement) => r.matchIndex

  ghost function Preserve(original: Text, base: Text, replacements: seq<Replacement>): Preserved
    requires Apart(StableSort.Sorted(replacements, MATCH_INDEX))
  {
    var lines, reps := LinesWithEndings(original, 0), StableSort.Sorted(replacements, MATCH_INDEX);
    var spans := Spans(LinesWithEndings(base, 0));
    SpansTile(base);
    GroupingIs(spans, LinesWithEndings(base, 0), base, reps, |reps|);
    if |lines| != |spans| then LineCountMismatch
    else if Grouping(spans, reps, |reps|).None? then OutsideBase
    else Preserved.Preserved(Render(PiecesFrom(spans, reps, base, Grouping(spans, reps, |reps|).value, 0), lines))
  }

  /** When the line counts agree and every replacement lies in the base, the result has a skeleton: the untouched lines
      in order, and the written text. Over the original's lines it is the result; over the base's it is the plain
      substitution. */
  lemma UnchangedLinesSurvive(original: Text, base: Text, replacements: seq<Replacement>) returns (pieces: seq<Piece>)
    requires Apart(StableSort.Sorted(replacements, MATCH_INDEX))
    ensures var reps := StableSort.Sorted(replacements, MATCH_INDEX);
            var lines, baseLines := LinesWithEndings(original, 0), LinesWithEndings(base, 0);
            && (Preserve(original, base, replacements).LineCountMismatch? <==> |lines| != |baseLines|)
            && (|lines| == |baseLines| ==>
                (Preserve(original, base, replacements).OutsideBase? <==> !AllInside(reps, base, |reps|)))
            && (Preserve(original, base, replacements).Preserved? ==>
                  && Preserve(original, base, replacements).text == Render(pieces, lines)
                  && Ordered(reps, 0, |reps|, 0, |base|)
                  && Render(pieces, baseLines) == Substitute(base, reps, 0, |reps|, 0, |base|)
                  && KeptLines(pieces) == UntouchedLines(Spans(baseLines), reps, 0))
  {
    hide *;
    var reps := StableSort.Sorted(replacements, MATCH_INDEX);
    var baseLines := LinesWithEndings(base, 0);
    var spans := Spans(baseLines);
    SpansTile(base);
    SameCount(spans, baseLines, base);
    GroupingIs(spans, baseLines, base, reps, |reps|);
    PreserveIs(original, base, replacements);
    var grouping := Grouping(spans, reps, |reps|);
    if grouping.Some? {
      pieces := PiecesFrom(spans, reps, base, grouping.value, 0);
      RenderIsSubstitute(spans, baseLines, base, reps, grouping.value, 0);
      KeepsUntouched(spans, reps, base, grouping.value, 0);
      AtTheStart(spans, baseLines, base, grouping.value);
    } else {
      pieces := [];
    }
  }

  lemma PreserveIs(original: Text, base: Text, replacements: seq<Replacement>)
    requires Apart(StableSort.Sorted(replacements, MATCH_INDEX))
    ensures var reps := StableSort.Sorted(replacements, MATCH_INDEX);
            var lines, spans := LinesWithEndings(original, 0), Spans(LinesWithEndings(base, 0));
            var grouping := Grouping(spans, reps, |reps|);
            && (grouping.Some? ==> Grouped(spans, reps, base, grouping.value, |reps|))
            && Preserve(original, base, replacements) ==
               if |lines| != |spans| then LineCountMismatch
               else if grouping.None? then OutsideBase
               else Preserved.Preserved(Render(PiecesFrom(spans, reps, base, grouping.value, 0), lines))
  {
    var reps := StableSort.Sorted(replacements, MATCH_INDEX);
    hide StableSort.Sorted, Tiles, Apart, PiecesFrom, Render, Grouping, LinesWithEndings, Spans, Grouped;
    SpansTile(base);
    GroupingIs(Spans(LinesWithEndings(base, 0)), LinesWithEndings(base, 0), base, reps, |reps|);
  }

  lemma AtTheStart(spans: seq<Span>, lines: seq<Text>, base: Text, groups: seq<Group>)
    requires Tiles(spans, lines, base)
    ensures LineOf(groups, 0) == 0 && FirstOf(groups, 0) == 0 && LineStart(spans, base, 0) == 0
  {
    FirstLineAtZero(spans, lines, base);
  }

  /** With nothing normalized away, preserving lines is plain substitution. */
  lemma SameTextCoincides(base: Text, replacements: seq<Replacement>)
    requires Apart(StableSort.Sorted(replacements, MATCH_INDEX))
    ensures var reps := StableSort.Sorted(replacements, MATCH_INDEX);
            if AllInside(reps, base, |reps|) then
              && Ordered(reps, 0, |reps|, 0, |base|)
              && Preserve(base, base, replacements) == Preserved.Preserved(Substitute(base, reps, 0, |reps|, 0, |base|))
            else Preserve(base, base, replacements) == OutsideBase
  {
    hide *;
    var pieces := UnchangedLinesSurvive(base, base, replacements);
  }

  lemma GroupingFails(spans: seq<Span>, reps: seq<Replacement>, k: nat, n: nat)
    requires k <= n <= |reps| && Grouping(spans, reps, k).None?
    ensures Grouping(spans, reps, n).None?
  {
    if k < n {
      GroupingFails(spans, reps, k, n - 1);
    }
  }

  method SortReplacements(replacements: seq<Replacement>) returns (sorted: seq<Replacement>)
    ensures sorted == StableSort.Sorted(replacements, MATCH_INDEX)
  {
    var a := new Replacement[|replacements|](i requires 0 <= i < |replacements| => replacements[i]);
    assert a[..] == replacements;
    StableSort.InsertionSort(a, MATCH_INDEX);
    sorted := a[..];
  }

  method GroupReplacements(spans: seq<Span>, sorted: seq<Replacement>) returns (result: Option<seq<Group>>)
    ensures result == Grouping(spans, sorted, |sorted|)
  {
    hide Grouping, LineRange, Grouped;
    var groups: seq<Group> := [];
    GroupingStep(spans, sorted, [], 0);
    for i := 0 to |sorted|
      invariant Grouping(spans, sorted, i) == Some(groups)
    {
      GroupingStep(spans, sorted, [], i + 1);
      var range := GetReplacementLineRange(spans, sorted[i]);
      if range.None? {
        GroupingFails(spans, sorted, i + 1, |sorted|);
        return None;
      }
      var (startLine, endLine) := range.value;
      if groups != [] && startLine < groups[|groups| - 1].endLine {
        var current := groups[|groups| - 1];
        if endLine > current.endLine {
          current := current.(endLine := endLine);
        }
        groups := groups[..|groups| - 1] + [current.(next := i + 1)];
      } else {
        groups := groups + [Group(startLine, endLine, i, i + 1)];
      }
    }
    return Some(groups);
  }

  method ApplyReplacementsPreservingUnchangedLines(original: Text, base: Text, replacements: seq<Replacement>)
    returns (r: Preserved)
    requires Apart(StableSort.Sorted(replacements, MATCH_INDEX))
    ensures r == Preserve(original, base, replacements)
  {
    hide *;
    PreserveIs(original, base, replacements);
    var originalLines := LinesWithEndings(original, 0);
    var spans := GetLineSpans(base);
    ghost var baseLines := LinesWithEndings(base, 0);
    SpansTile(base);
    if |originalLines| != |spans| {
      return LineCountMismatch;
    }
    var sorted := SortReplacements(replacements);
    var grouping := GroupReplacements(spans, sorted);
    if grouping.None? {
      return OutsideBase;
    }
    var groups := grouping.value;
    var originalLineIndex := 0;
    var result: Text := [];
    AtTheStart(spans, baseLines, base, groups);
    var g := 0;
    PiecesStep(spans, sorted, base, groups, 0);
    while g < |groups|
      invariant g <= |groups| && originalLineIndex == LineOf(groups, g) <= |spans|
      invariant result + Render(PiecesFrom(spans, sorted, base, groups, g), originalLines) ==
                Render(PiecesFrom(spans, sorted, base, groups, 0), originalLines)
    {
      PiecesStep(spans, sorted, base, groups, g);
      PiecesStep(spans, sorted, base, groups, g + 1);
      var group := groups[g];
      var start, end := spans[group.startLine].start, spans[group.endLine - 1].end;
      SpliceGroup(spans, baseLines, base, sorted, group);
      var text := ApplyReplacements(base[start..end], sorted[group.first..group.next], start, base);
      RenderKeeps(originalLineIndex, group.startLine, originalLines);
      RenderThree(Keeps(originalLineIndex, group.startLine), text, PiecesFrom(spans, sorted, base, groups, g + 1),
                  originalLines);
      result := result + Concat(originalLines[originalLineIndex..group.startLine]) + text;
      originalLineIndex := group.endLine;
      g := g + 1;
    }
    PiecesStep(spans, sorted, base, groups, |groups|);
    RenderKeeps(originalLineIndex, |spans|, originalLines);
    assert originalLines[originalLineIndex..] == originalLines[originalLineIndex..|originalLines|];
    return Preserved.Preserved(result + Concat(originalLines[originalLineIndex..]));
  }

  /** A group's own slice of the replacements, spliced into its own slice of the base. */
  lemma SpliceGroup(spans: seq<Span>, lines: seq<Text>, base: Text, reps: seq<Replacement>, group: Group)
    requires Tiles(spans, lines, base) && group.first < group.next <= |reps|
             && group.startLine < group.endLine <= |spans|
    requires spans[group.endLine - 1].end <= |base|
    requires Ordered(reps, group.first, group.next, spans[group.startLine].start, spans[group.endLine - 1].end)
    ensures var start, end, part := spans[group.startLine].start, spans[group.endLine - 1].end,
            reps[group.first..group.next];
            && start <= end && Ordered(part, 0, |part|, start, end)
            && Substitute(base, part, 0, |part|, start, end) ==
               Substitute(base, reps, group.first, group.next, start, end)
  {
    hide Substitute, Tiles, Ordered;
    EndsAscend(spans, lines, base, group.startLine, group.endLine - 1);
    LineInside(spans, lines, base, group.startLine);
    SubstituteSlice(base, reps, group.first, group.next, spans[group.startLine].start, spans[group.endLine - 1].end,
                    reps[group.first..group.next]);
  }
}

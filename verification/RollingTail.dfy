/**
 Why a bounded tail of a text is enough to truncate the whole text. The tail may start inside
 a line; what is shown of it is then cut back to its first whole line, if it holds one.
 */
module RollingTail {
  import opened Bytes
  import opened LineText
  import opened Truncate
  import opened Utf8

  /**
   `tail` is the end of `text`, starts a character, and misses nothing of the last `window`
   bytes but continuation bytes; `atLine` records whether it starts a line.
   */
  ghost predicate Retained(text: Text, tail: Text, atLine: bool, window: int) {
    |tail| <= |text|
    && var p := |text| - |tail|;
    && text[p..] == tail
    && (atLine <==> p == 0 || text[p - 1] == NEWLINE)
    && (tail != [] ==> !IsContinuation(tail[0]))
    && forall i :: 0 <= i < p && |text| - window <= i ==> IsContinuation(text[i])
  }

  /** What a snapshot shows of the tail. */
  function SnapshotText(tail: Text, atLine: bool): Text {
    var k := FirstNewline(tail);
    if atLine || k == |tail| then tail else tail[k + 1..]
  }

  /** The tail starts inside a line that ends with its very last byte, so a snapshot shows nothing of it. */
  predicate Swallowed(tail: Text, atLine: bool) {
    !atLine && tail != [] && FirstNewline(tail) == |tail| - 1
  }

  predicate EqualUpToNewline(shown: Text, whole: Text) {
    shown == whole || shown == whole + [NEWLINE]
  }

  lemma RetainedGrows(text: Text, tail: Text, atLine: bool, window: int, more: Text)
    requires Retained(text, tail, atLine, window)
    requires Aligned(more)
    ensures Retained(text + more, tail + more, atLine, window)
  {
    hide Aligned;
    AlignedStart(more);
    var p := |text| - |tail|;
    assert (text + more)[p..] == tail + more;
    forall i | 0 <= i < p && |text + more| - window <= i
      ensures IsContinuation((text + more)[i])
    {
      assert (text + more)[i] == text[i];
    }
  }

  lemma AlignedStart(t: Text)
    requires Aligned(t)
    ensures t != [] ==> !IsContinuation(t[0])
  {
  }

  lemma RetainedTrimmed(text: Text, tail: Text, atLine: bool, window: int)
    requires Retained(text, tail, atLine, window)
    requires 0 < window < |tail|
    ensures var start := ContinuationsEnd(tail, |tail| - window);
            start > 0 && Retained(text, tail[start..], tail[start - 1] == NEWLINE, window)
  {
    hide ContinuationsEnd;
    var start := ContinuationsEnd(tail, |tail| - window);
    var before := |text| - |tail|;
    assert forall i :: 0 <= i < |tail| ==> text[before + i] == tail[i];
    var p := before + start;
    assert text[p..] == tail[start..];
    forall i | 0 <= i < p && |text| - window <= i
      ensures IsContinuation(text[i])
    {
      assert text[i] == tail[i - before];
    }
  }

  /** A tail that starts past the first byte stands for a text longer than the window, and starts no later than it. */
  lemma TailIsShort(text: Text, tail: Text, atLine: bool, window: nat)
    requires Aligned(text) && Retained(text, tail, atLine, window)
    requires |tail| < |text|
    ensures |text| > window
    ensures atLine ==> |tail| >= window
  {
    var p := |text| - |tail|;
    assert !IsContinuation(text[0]);
    assert IsContinuation(text[0]) || p - 1 < |text| - window || IsContinuation(text[p - 1]);
  }

  /** The line a tail starts inside reaches back beyond the window. */
  lemma OpenLineIsLong(text: Text, tail: Text, window: nat)
    requires Aligned(text) && Retained(text, tail, false, window) && window > 0
    ensures LineStart(text, |text| - |tail|) < |text| - window
  {
    var p := |text| - |tail|;
    var j := LineStart(text, p);
    hide LineStart;
    TailIsShort(text, tail, false, window);
    if 0 < j < p {
      assert !ContinuesNewline(text, j);
    }
  }

  /** Case one: the tail starts a line, so its lines are the text's last lines. */
  lemma AgreesAtLine(text: Text, tail: Text, maxLines: nat, maxBytes: int)
    requires Aligned(text) && Retained(text, tail, true, 2 * maxBytes)
    requires |tail| < |text| && maxBytes >= 1
    ensures TailContent(tail, maxLines, maxBytes) == TailContent(text, maxLines, maxBytes)
  {
    var p := |text| - |tail|;
    var before, lines := Lines(text[..p]), Lines(tail);
    TailIsShort(text, tail, true, 2 * maxBytes);
    hide Lines;
    assert text == text[..p] + tail;
    LinesAppend(text[..p], tail);
    JoinLines(tail);
    KeptTailSuffix(before, lines, maxLines, maxBytes);
  }

  /** The line from `j` on is complete and ends at `e`, or is the open last line and `e` is the end. */
  ghost predicate IsLine(text: Text, j: nat, e: nat) {
    j <= e <= |text| && (j == 0 || text[j - 1] == NEWLINE) && (forall i :: j <= i < e ==> text[i] != NEWLINE)
    && (e < |text| ==> text[e] == NEWLINE)
  }

  /** The line a tail starts inside of is longer than the part of the window before its end. */
  lemma TailsLine(text: Text, tail: Text, window: nat, j: nat, e: nat)
    requires Aligned(text) && Retained(text, tail, false, window) && window > 0
    requires j == LineStart(text, |text| - |tail|) && e == |text| - |tail| + FirstNewline(tail)
    ensures IsLine(text, j, e) && j + window < |text| && j <= |text| - |tail|
    ensures FirstNewline(tail) < |tail| ==> text[e + 1..] == SnapshotText(tail, false)
  {
    hide LineStart, FirstNewline, Aligned;
    OpenLineIsLong(text, tail, window);
    var p := |text| - |tail|;
    assert forall i :: p <= i < |text| ==> text[i] == tail[i - p];
    assert FirstNewline(tail) < |tail| ==> text[e + 1..] == tail[FirstNewline(tail) + 1..];
  }

  /** Case two: the tail lies inside the last line. */
  lemma AgreesInsideLine(text: Text, tail: Text, maxLines: nat, maxBytes: int)
    requires Aligned(text) && Retained(text, tail, false, 2 * maxBytes)
    requires FirstNewline(tail) == |tail| && maxBytes >= 1 && maxLines >= 1
    ensures TailContent(tail, maxLines, maxBytes) == TailContent(text, maxLines, maxBytes)
  {
    var j := LineStart(text, |text| - |tail|);
    hide *;
    TailsLine(text, tail, 2 * maxBytes, j, |text|);
    var line := text[j..];
    SameCut(text, tail, 2 * maxBytes, j, maxBytes);
    SplitAtLastLine(text, j);
    KeptOfLastLine(text, Lines(text[..j]), line, maxLines, maxBytes);
    KeptOfSingleLine(tail, maxLines, maxBytes);
  }

  lemma SplitAtLastLine(text: Text, j: nat)
    requires j < |text| && IsLine(text, j, |text|)
    ensures Lines(text) == Lines(text[..j]) + [text[j..]]
  {
    hide Lines;
    assert text == text[..j] + text[j..];
    LinesLast(text[..j], text[j..]);
  }

  lemma KeptOfLastLine(text: Text, before: seq<Text>, line: Text, maxLines: nat, maxBytes: int)
    requires Lines(text) == before + [line] && maxBytes < |line| <= |text| && maxLines >= 1
    ensures TailContent(text, maxLines, maxBytes) == AlignedSuffix(line, maxBytes)
  {
    TooLongLine(before, line, maxLines, maxBytes);
  }

  lemma KeptOfSingleLine(line: Text, maxLines: nat, maxBytes: int)
    requires FirstNewline(line) == |line| && maxLines >= 1 && maxBytes >= 0
    ensures TailContent(line, maxLines, maxBytes) == AlignedSuffix(line, maxBytes)
  {
    if |line| > maxBytes {
      assert Lines(line) == [] + [line];
      KeptOfLastLine(line, [], line, maxLines, maxBytes);
    }
  }

  lemma TooLongLine(before: seq<Text>, line: Text, maxLines: nat, maxBytes: int)
    requires |line| > maxBytes && maxLines >= 1
    ensures KeptTail(before + [line], maxLines, maxBytes) == AlignedSuffix(line, maxBytes)
  {
    var lines := before + [line];
    JoinOneMore(lines, 0);
    KeptTailIs(lines, 0, maxLines, maxBytes);
  }

  /** The end of the line and the end of the tail are cut at the same character. */
  lemma SameCut(text: Text, tail: Text, window: int, j: nat, maxBytes: int)
    requires Retained(text, tail, false, window)
    requires 1 <= maxBytes <= window && j + maxBytes < |text| && j + window <= |text| && j <= |text| - |tail|
    ensures AlignedSuffix(text[j..], maxBytes) == AlignedSuffix(tail, maxBytes)
  {
    hide ContinuationsEnd, AlignedSuffix;
    var line := text[j..];
    assert forall i :: 0 <= i < |line| ==> line[i] == text[j + i];
    var skip := |line| - |tail|;
    assert line[skip..] == tail;
    if |tail| <= maxBytes {
      assert tail != [] ==> line[skip + 0] == tail[0];
      ContinuationsEndIs(line, |line| - maxBytes, skip);
      AlignedSuffixIs(line, maxBytes, skip);
    } else {
      LongTailCut(line, tail, maxBytes);
    }
  }

  lemma LongTailCut(line: Text, tail: Text, maxBytes: int)
    requires 1 <= maxBytes < |tail| <= |line| && line[|line| - |tail|..] == tail
    ensures AlignedSuffix(line, maxBytes) == AlignedSuffix(tail, maxBytes)
  {
    hide *;
    var skip := |line| - |tail|;
    assert forall i :: 0 <= i < |tail| ==> line[skip + i] == tail[i];
    var at := ContinuationsEnd(tail, |tail| - maxBytes);
    AlignedSuffixIs(line, maxBytes, skip + at);
    AlignedSuffixIs(tail, maxBytes, at);
    assert line[skip + at..] == tail[at..];
  }

  /** A complete line inside a text, and the lines around it. */
  lemma SplitAtLine(text: Text, j: nat, e: nat)
    requires e < |text| && IsLine(text, j, e)
    ensures Lines(text) == Lines(text[..j]) + [text[j..e]] + Lines(text[e + 1..])
  {
    hide Lines;
    var head := text[..j] + text[j..e] + [NEWLINE];
    assert text == head + text[e + 1..];
    LinesLast(text[..j], text[j..e]);
    LinesAppend(head, text[e + 1..]);
  }

  /** Of a text that ends a long line and goes on with `rest`, truncation keeps what it keeps of `rest`. */
  lemma KeptAfterLongLine(text: Text, before: seq<Text>, line: Text, rest: Text, maxLines: nat, maxBytes: int)
    requires Lines(text) == before + [line] + Lines(rest)
    requires rest != [] && maxBytes >= 1 && 2 * maxBytes < |line| + 1 + |rest| <= |text|
    ensures EqualUpToNewline(TailContent(rest, maxLines, maxBytes), TailContent(text, maxLines, maxBytes))
  {
    hide *;
    var lines := Lines(rest);
    JoinLength(rest);
    assert (before + [line])[|before + [line]| - 1] == line;
    KeptTailSuffix(before + [line], lines, maxLines, maxBytes);
    KeptTailFits(rest, maxLines, maxBytes);
    TooLong(text, maxLines, maxBytes);
  }

  lemma JoinLength(s: Text)
    requires s != []
    ensures Lines(s) != [] && |Join(Lines(s))| >= |s| - 1
  {
    JoinLines(s);
  }

  /** Truncating a text, within the limits or not, keeps what its lines keep, up to one newline. */
  lemma KeptTailFits(s: Text, maxLines: nat, maxBytes: int)
    requires s != []
    ensures EqualUpToNewline(TailContent(s, maxLines, maxBytes), KeptTail(Lines(s), maxLines, maxBytes))
  {
    hide Lines, Join;
    JoinLines(s);
    JoinLength(s);
    var lines := Lines(s);
    assert lines[|lines| - |lines|..] == lines;
  }

  lemma TooLong(text: Text, maxLines: nat, maxBytes: int)
    requires |text| > maxBytes
    ensures TailContent(text, maxLines, maxBytes) == KeptTail(Lines(text), maxLines, maxBytes)
  {
    hide KeptTail;
  }

  /** Case three: the tail starts inside a line and shows the whole lines after it. */
  lemma AgreesAfterLine(text: Text, tail: Text, maxLines: nat, maxBytes: int)
    requires Aligned(text) && Retained(text, tail, false, 2 * maxBytes)
    requires FirstNewline(tail) < |tail| && !Swallowed(tail, false) && maxBytes >= 1
    ensures EqualUpToNewline(TailContent(SnapshotText(tail, false), maxLines, maxBytes),
                             TailContent(text, maxLines, maxBytes))
  {
    var j, e := LineStart(text, |text| - |tail|), |text| - |tail| + FirstNewline(tail);
    var rest := SnapshotText(tail, false);
    assert rest != [];
    hide *;
    TailsLine(text, tail, 2 * maxBytes, j, e);
    SplitAtLine(text, j, e);
    KeptAfterLongLine(text, Lines(text[..j]), text[j..e], rest, maxLines, maxBytes);
  }

  /** A swallowed tail that had something to show: not all of the bytes due at the end of its line are continuations. */
  predicate Loses(tail: Text, atLine: bool, maxBytes: int) {
    Swallowed(tail, atLine) && AlignedSuffix(tail[..|tail| - 1], maxBytes) != []
  }

  /** The exception: of a swallowed tail nothing is shown; of the whole text the end of the line is, if the cut leaves
      any. */
  lemma SwallowedShowsNothing(text: Text, tail: Text, maxLines: nat, maxBytes: int)
    requires Aligned(text) && Retained(text, tail, false, 2 * maxBytes)
    requires Swallowed(tail, false) && maxBytes >= 1 && maxLines >= 1
    ensures TailContent(SnapshotText(tail, false), maxLines, maxBytes) == []
    ensures TailContent(text, maxLines, maxBytes) == [] <==> !Loses(tail, false, maxBytes)
    ensures maxBytes >= 4 ==> Loses(tail, false, maxBytes)
  {
    hide *;
    SwallowedMeans(text, tail, 2 * maxBytes);
    var j, e := LineStart(text, |text| - |tail|), |text| - 1;
    NothingLeft(tail, maxLines, maxBytes);
    TailsLine(text, tail, 2 * maxBytes, j, e);
    SplitAtLine(text, j, e);
    var before, line := Lines(text[..j]), text[j..e];
    assert Lines(text) == before + [line];
    KeptOfLastLine(text, before, line, maxLines, maxBytes);
    RetainedFront(text, tail, 2 * maxBytes);
    assert text[..e][j..] == line;
    SameCut(text[..e], tail[..|tail| - 1], 2 * maxBytes - 1, j, maxBytes);
    LosesMeans(tail, maxBytes);
    if maxBytes >= 4 {
      CutKeepsSomething(text, j, line, maxBytes);
    }
  }

  lemma LosesMeans(tail: Text, maxBytes: int)
    requires Swallowed(tail, false)
    ensures |tail| > 0 && (Loses(tail, false, maxBytes) <==> AlignedSuffix(tail[..|tail| - 1], maxBytes) != [])
  {
    hide AlignedSuffix;
  }

  /** Without its last byte a text still retains its tail without that byte, for a window shorter by one. */
  lemma RetainedFront(text: Text, tail: Text, window: int)
    requires Retained(text, tail, false, window) && 0 < |tail|
    ensures Retained(text[..|text| - 1], tail[..|tail| - 1], false, window - 1)
  {
    var p := |text| - |tail|;
    assert text[..|text| - 1][p..] == text[p..][..|tail| - 1];
  }

  lemma SwallowedMeans(text: Text, tail: Text, window: int)
    requires Retained(text, tail, false, window) && Swallowed(tail, false)
    ensures 0 < |tail| <= |text| && FirstNewline(tail) == |tail| - 1
  {
  }

  lemma NothingLeft(tail: Text, maxLines: nat, maxBytes: int)
    requires Swallowed(tail, false)
    ensures SnapshotText(tail, false) == [] && TailContent([], maxLines, maxBytes) == []
  {
    assert Lines([]) == [];
  }

  lemma CutKeepsSomething(text: Text, j: nat, line: Text, maxBytes: int)
    requires Aligned(text)
    requires j + |line| <= |text| && text[j..j + |line|] == line
    requires 4 <= maxBytes < |line|
    ensures AlignedSuffix(line, maxBytes) != []
  {
    var from := |line| - maxBytes;
    assert forall i :: 0 <= i < |line| ==> line[i] == text[j + i];
    assert !FourContinuations(text, j + from);
    assert exists i :: from <= i < from + 4 && !IsContinuation(line[i]);
  }

  /**
   A snapshot of the tail shows what truncating the whole text keeps, up to one final newline,
   if and only if the tail is not a swallowed one that had something to show; from four bytes on
   a swallowed tail always had.
   */
  lemma SnapshotAgrees(text: Text, tail: Text, atLine: bool, maxLines: nat, maxBytes: int)
    requires Aligned(text) && Retained(text, tail, atLine, 2 * maxBytes)
    requires maxBytes >= 1 && maxLines >= 1
    ensures var shown, whole := TailContent(SnapshotText(tail, atLine), maxLines, maxBytes),
            TailContent(text, maxLines, maxBytes);
            EqualUpToNewline(shown, whole) <==> !Loses(tail, atLine, maxBytes)
    ensures maxBytes >= 4 ==> (Loses(tail, atLine, maxBytes) <==> Swallowed(tail, atLine))
  {
    hide TailContent, AlignedSuffix;
    var k := FirstNewline(tail);
    if |tail| == |text| {
      assert text[0..] == text;
    } else if atLine {
      AgreesAtLine(text, tail, maxLines, maxBytes);
    } else if k == |tail| {
      AgreesInsideLine(text, tail, maxLines, maxBytes);
    } else if Swallowed(tail, false) {
      SwallowedShowsNothing(text, tail, maxLines, maxBytes);
    } else {
      AgreesAfterLine(text, tail, maxLines, maxBytes);
    }
  }

  /** A byte limit below zero keeps no bytes, with the tail as with the whole text. */
  lemma NegativeLimitKeepsNothing(text: Text, maxLines: nat, maxBytes: int)
    requires maxBytes < 0
    ensures TailContent(text, maxLines, maxBytes) == []
  {
    var lines := Lines(text);
    var n := LargestFit(lines, |lines|, maxLines, maxBytes);
  }

  /** Sixteen bytes of one line and its newline, kept as the last eight: four bytes are due, none is shown. */
  lemma SwallowedExample()
    ensures var text := seq(17, i => if i < 16 then 120 as byte else NEWLINE);
            var tail := text[9..];
            && Aligned(text) && Retained(text, tail, false, 8)
            && TailContent(SnapshotText(tail, false), 1, 4) == [] && TailContent(text, 1, 4) != []
  {
    var text := seq(17, i => if i < 16 then 120 as byte else NEWLINE);
    var tail := text[9..];
    FirstNewlineIs(tail, 7);
    SwallowedShowsNothing(text, tail, 1, 4);
  }
}

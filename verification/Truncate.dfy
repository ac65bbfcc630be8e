/** Keeping the end of a text within a line and a byte limit. */
module Truncate {
  import opened Bytes
  import opened LineText
  import opened Utf8

  datatype TruncatedBy = Nothing | ByLines | ByBytes

  datatype Result = Result(
    content: Text,
    truncated: bool,
    truncatedBy: TruncatedBy,
    totalLines: nat,
    totalBytes: nat,
    outputLines: nat,
    outputBytes: nat,
    lastLinePartial: bool,
    maxLines: int,
    maxBytes: int)

  /** The first position at or after `from` that does not hold a continuation byte. */
  function ContinuationsEnd(s: Text, from: nat): (k: nat)
    requires from <= |s|
    ensures from <= k <= |s|
    ensures forall i :: from <= i < k ==> IsContinuation(s[i])
    ensures k < |s| ==> !IsContinuation(s[k])
    decreases |s| - from
  {
    if from == |s| || !IsContinuation(s[from]) then from else ContinuationsEnd(s, from + 1)
  }

  lemma ContinuationsEndIs(s: Text, from: nat, k: nat)
    requires from <= k <= |s|
    requires forall i :: from <= i < k ==> IsContinuation(s[i])
    requires k < |s| ==> !IsContinuation(s[k])
    ensures ContinuationsEnd(s, from) == k
  {
    hide *;
    var end := ContinuationsEnd(s, from);
  }

  /** The last `maxBytes` bytes of `s`, or the few less that start a character. */
  function AlignedSuffix(s: Text, maxBytes: int): (t: Text)
    ensures |t| <= |s| && s[|s| - |t|..] == t
    ensures |s| <= maxBytes ==> t == s
    ensures maxBytes < |s| ==> t == [] || (|t| <= maxBytes && !IsContinuation(t[0]))
  {
    if |s| <= maxBytes then s
    else if maxBytes <= 0 then []
    else s[ContinuationsEnd(s, |s| - maxBytes)..]
  }

  lemma AlignedSuffixIs(s: Text, maxBytes: int, k: nat)
    requires 1 <= maxBytes <= |s| && ContinuationsEnd(s, |s| - maxBytes) == k
    requires |s| == maxBytes ==> k == 0
    ensures AlignedSuffix(s, maxBytes) == s[k..]
  {
    assert s[0..] == s;
  }

  method TruncateStringToBytesFromEnd(s: Text, maxBytes: int) returns (t: Text)
    ensures t == AlignedSuffix(s, maxBytes)
  {
    if |s| <= maxBytes {
      return s;
    }
    if maxBytes <= 0 {
      return [];
    }
    var start := |s| - maxBytes;
    while start < |s| && IsContinuation(s[start])
      invariant |s| - maxBytes <= start <= |s|
      invariant ContinuationsEnd(s, start) == ContinuationsEnd(s, |s| - maxBytes)
    {
      start := start + 1;
    }
    t := s[start..];
  }

  /** Whether the last `n` lines, joined, stay within both limits; no lines at all always do. */
  predicate Fits(lines: seq<Text>, n: nat, maxLines: nat, maxBytes: int)
    requires n <= |lines|
  {
    n <= maxLines && (n > 0 ==> |Join(lines[|lines| - n..])| <= maxBytes)
  }

  /** The largest number of last lines, up to `n`, that fits. */
  function LargestFit(lines: seq<Text>, n: nat, maxLines: nat, maxBytes: int): (k: nat)
    requires n <= |lines|
    ensures k <= n && Fits(lines, k, maxLines, maxBytes)
    ensures forall m :: k < m <= n ==> !Fits(lines, m, maxLines, maxBytes)
  {
    if n == 0 || Fits(lines, n, maxLines, maxBytes) then n else LargestFit(lines, n - 1, maxLines, maxBytes)
  }

  predicate WithinLimits(content: Text, maxLines: nat, maxBytes: int) {
    |Lines(content)| <= maxLines && |content| <= maxBytes
  }

  /**
   What truncation keeps: a text within the limits as it is; otherwise the most last lines
   that fit; and if not even the last line does, the end of that line.
   */
  function TailContent(content: Text, maxLines: nat, maxBytes: int): Text {
    if WithinLimits(content, maxLines, maxBytes) then content else KeptTail(Lines(content), maxLines, maxBytes)
  }

  function KeptTail(lines: seq<Text>, maxLines: nat, maxBytes: int): Text {
    KeptOf(lines, LargestFit(lines, |lines|, maxLines, maxBytes), maxLines, maxBytes)
  }

  function KeptOf(lines: seq<Text>, n: nat, maxLines: nat, maxBytes: int): Text
    requires n <= |lines|
  {
    if n == 0 && lines != [] && maxLines > 0 then AlignedSuffix(lines[|lines| - 1], maxBytes)
    else Join(lines[|lines| - n..])
  }

  /** Fitting is monotone, so one line too many settles the search. */
  lemma FitsFewer(lines: seq<Text>, m: nat, n: nat, maxLines: nat, maxBytes: int)
    requires m <= n <= |lines| && Fits(lines, n, maxLines, maxBytes)
    ensures Fits(lines, m, maxLines, maxBytes)
  {
    if 0 < m < n {
      var more, less := lines[|lines| - n..], lines[|lines| - m..];
      assert more == more[..n - m] + less;
      JoinTwo(more[..n - m], less);
    }
  }

  lemma LargestFitIs(lines: seq<Text>, n: nat, maxLines: nat, maxBytes: int)
    requires n <= |lines| && Fits(lines, n, maxLines, maxBytes)
    requires n < |lines| ==> !Fits(lines, n + 1, maxLines, maxBytes)
    ensures LargestFit(lines, |lines|, maxLines, maxBytes) == n
  {
    var k := LargestFit(lines, |lines|, maxLines, maxBytes);
    if n < k {
      FitsFewer(lines, n + 1, k, maxLines, maxBytes);
    }
  }

  /** What a scan from the last line on has found when one more line would not fit. */
  lemma KeptTailIs(lines: seq<Text>, n: nat, maxLines: nat, maxBytes: int)
    requires n <= |lines| && Fits(lines, n, maxLines, maxBytes)
    requires n < |lines| ==> !Fits(lines, n + 1, maxLines, maxBytes)
    ensures LargestFit(lines, |lines|, maxLines, maxBytes) == n
    ensures n > 0 ==>
            |lines[|lines| - 1]| <= maxBytes && KeptTail(lines, maxLines, maxBytes) == Join(lines[|lines| - n..])
    ensures n == 0 && lines != [] && maxLines > 0 ==>
              |lines[|lines| - 1]| > maxBytes
              && KeptTail(lines, maxLines, maxBytes) == AlignedSuffix(lines[|lines| - 1], maxBytes)
    ensures n == 0 && (lines == [] || maxLines == 0) ==> KeptTail(lines, maxLines, maxBytes) == []
  {
    LargestFitIs(lines, n, maxLines, maxBytes);
    if lines != [] {
      assert lines[|lines| - 1..] == [lines[|lines| - 1]];
      if n > 0 {
        FitsFewer(lines, 1, n, maxLines, maxBytes);
      }
    }
  }

  /** One more line costs its length and the newline before the lines after it. */
  lemma JoinOneMore(lines: seq<Text>, n: nat)
    requires n < |lines|
    ensures |Join(lines[|lines| - n - 1..])| ==
            |lines[|lines| - n - 1]| + (if n == 0 then 0 else 1 + |Join(lines[|lines| - n..])|)
  {
    assert lines[|lines| - n - 1..] == [lines[|lines| - n - 1]] + lines[|lines| - n..];
    if n > 0 {
      JoinTwo([lines[|lines| - n - 1]], lines[|lines| - n..]);
    }
  }

  lemma ScanStart(lines: seq<Text>, maxLines: nat, maxBytes: int)
    ensures Fits(lines, 0, maxLines, maxBytes) && Join([]) == [] && lines[|lines|..] == []
  {
  }

  lemma LineLimit(lines: seq<Text>, n: nat, maxLines: nat, maxBytes: int)
    ensures maxLines <= n < |lines| ==> !Fits(lines, n + 1, maxLines, maxBytes)
  {
  }

  /** One step of the scan: the next line fits exactly when its cost stays within the byte limit. */
  lemma ScanStep(lines: seq<Text>, n: nat, bytes: nat, maxLines: nat, maxBytes: int)
    requires n < |lines| && n < maxLines && bytes == |Join(lines[|lines| - n..])|
    ensures var cost := bytes + |lines[|lines| - n - 1]| + if n == 0 then 0 else 1;
            && (Fits(lines, n + 1, maxLines, maxBytes) <==> cost <= maxBytes)
            && |Join(lines[|lines| - n - 1..])| == cost
            && lines[|lines| - n - 1..] == [lines[|lines| - n - 1]] + lines[|lines| - n..]
  {
    hide Join;
    JoinOneMore(lines, n);
    ScanStart(lines, maxLines, maxBytes);
  }

  /** The line limit of the result names itself as the reason wherever it was reached. */
  function TailReason(outputLines: nat, outputBytes: nat, totalLines: nat, partial: bool, maxLines: nat,
                      maxBytes: int): (reason: TruncatedBy)
    ensures reason != Nothing
  {
    if outputLines >= maxLines && outputBytes <= maxBytes then ByLines
    else if partial || (outputLines < totalLines && outputLines < maxLines) then ByBytes
    else ByLines
  }

  /** Not even the last line fits, so only its end is kept. */
  predicate LastLineCut(content: Text, maxLines: nat, maxBytes: int) {
    !WithinLimits(content, maxLines, maxBytes) && content != [] && maxLines > 0
    && |Lines(content)[|Lines(content)| - 1]| > maxBytes
  }

  function LinesKept(content: Text, maxLines: nat, maxBytes: int): nat {
    if WithinLimits(content, maxLines, maxBytes) then |Lines(content)|
    else if LastLineCut(content, maxLines, maxBytes) then 1
    else LargestFit(Lines(content), |Lines(content)|, maxLines, maxBytes)
  }

  /** Which limit cut the text. */
  function Reason(content: Text, maxLines: nat, maxBytes: int): TruncatedBy {
    if WithinLimits(content, maxLines, maxBytes) then Nothing
    else TailReason(LinesKept(content, maxLines, maxBytes), |TailContent(content, maxLines, maxBytes)|,
                    |Lines(content)|,
                    LastLineCut(content, maxLines, maxBytes), maxLines, maxBytes)
  }

  method Tail(content: Text, maxLines: nat, maxBytes: int) returns (r: Result)
    ensures r.content == TailContent(content, maxLines, maxBytes)
    ensures r.truncated <==> !WithinLimits(content, maxLines, maxBytes)
    ensures r.totalLines == |Lines(content)| && r.totalBytes == |content|
    ensures r.outputBytes == |r.content|
    ensures r.lastLinePartial == LastLineCut(content, maxLines, maxBytes)
    ensures r.outputLines == LinesKept(content, maxLines, maxBytes)
    ensures r.truncatedBy == Reason(content, maxLines, maxBytes)
    ensures r.maxLines == maxLines && r.maxBytes == maxBytes
  {
    var lines := SplitLinesForCounting(content);
    SplitLinesAreLines(content);
    hide SplitLinesForCounting, Split, Lines, Join, LargestFit, KeptTail;
    if |lines| <= maxLines && |content| <= maxBytes {
      return Result(content, false, Nothing, |lines|, |content|, |lines|, |content|, false, maxLines, maxBytes);
    }
    var outputLines, truncatedBy, lastLinePartial := KeepFromEnd(lines, maxLines, maxBytes);
    var output := Join(outputLines);
    r := Result(output, true, truncatedBy, |lines|, |content|, |outputLines|, |output|, lastLinePartial, maxLines,
                maxBytes);
  }

  /** The scan inside Tail: whole lines from the last one back, or the end of a last line that is too long. */
  method KeepFromEnd(lines: seq<Text>, maxLines: nat, maxBytes: int)
    returns (outputLines: seq<Text>, truncatedBy: TruncatedBy, lastLinePartial: bool)
    ensures Join(outputLines) == KeptTail(lines, maxLines, maxBytes)
    ensures lastLinePartial <==> lines != [] && maxLines > 0 && |lines[|lines| - 1]| > maxBytes
    ensures |outputLines| == if lastLinePartial then 1 else LargestFit(lines, |lines|, maxLines, maxBytes)
    ensures truncatedBy == TailReason(|outputLines|, |Join(outputLines)|, |lines|, lastLinePartial, maxLines, maxBytes)
  {
    hide Join, LargestFit, KeptTail, AlignedSuffix, Fits;
    ScanStart(lines, maxLines, maxBytes);
    outputLines := [];
    var outputBytes := 0;
    truncatedBy := ByLines;
    lastLinePartial := false;
    var i := |lines| - 1;
    while i >= 0 && |outputLines| < maxLines
      invariant -1 <= i < |lines|
      invariant |outputLines| == |lines| - 1 - i && outputLines == lines[i + 1..]
      invariant outputBytes == |Join(outputLines)|
      invariant Fits(lines, |outputLines|, maxLines, maxBytes)
      invariant truncatedBy == ByLines && !lastLinePartial
    {
      var lineBytes := |lines[i]|;
      if |outputLines| > 0 {
        lineBytes := lineBytes + 1;
      }
      ScanStep(lines, |outputLines|, outputBytes, maxLines, maxBytes);
      if outputBytes + lineBytes > maxBytes {
        KeptTailIs(lines, |outputLines|, maxLines, maxBytes);
        truncatedBy := ByBytes;
        if |outputLines| == 0 {
          var line := TruncateStringToBytesFromEnd(lines[i], maxBytes);
          outputLines := [line] + outputLines;
          assert outputLines == [line];
          outputBytes := |line|;
          JoinOne(line);
          lastLinePartial := true;
        }
        break;
      }
      outputLines := [lines[i]] + outputLines;
      outputBytes := outputBytes + lineBytes;
      i := i - 1;
    }
    if truncatedBy == ByLines {
      LineLimit(lines, |outputLines|, maxLines, maxBytes);
      KeptTailIs(lines, |outputLines|, maxLines, maxBytes);
    }
    if |outputLines| >= maxLines && outputBytes <= maxBytes {
      truncatedBy := ByLines;
    }
  }

  // ----- What the result means -----

  /** `t` is the end of `s` from position `k` on, which starts a character, and every later start would leave out
      one. */
  ghost predicate IsLongestEnd(s: Text, maxBytes: int, t: Text) {
    if |s| <= maxBytes then t == s
    else if maxBytes <= 0 then t == []
    else
      exists k :: |s| - maxBytes <= k <= |s| && t == s[k..] && (k < |s| ==> !IsContinuation(s[k]))
                  && forall i :: |s| - maxBytes <= i < k ==> IsContinuation(s[i])
  }

  lemma AlignedSuffixMeans(s: Text, maxBytes: int)
    ensures IsLongestEnd(s, maxBytes, AlignedSuffix(s, maxBytes))
  {
  }

  /** The last `n` lines are kept, and the line in front of them does not fit: there is none, the line limit is reached,
      or with it and its newline the bytes would be too many. */
  ghost predicate KeepsLines(lines: seq<Text>, n: nat, maxLines: nat, maxBytes: int, kept: Text) {
    && n <= |lines| && n <= maxLines && kept == Join(lines[|lines| - n..]) && (n > 0 ==> |kept| <= maxBytes)
    && (n == |lines| || n == maxLines
        || |lines[|lines| - n - 1]| + (if n == 0 then 0 else 1 + |kept|) > maxBytes)
  }

  /** What truncation keeps, in terms of the lines. */
  lemma TailContentMeans(content: Text, maxLines: nat, maxBytes: int)
    ensures var lines, kept := Lines(content), TailContent(content, maxLines, maxBytes);
            if |lines| <= maxLines && |content| <= maxBytes then kept == content
            else if lines != [] && maxLines > 0 && |lines[|lines| - 1]| > maxBytes
            then IsLongestEnd(lines[|lines| - 1], maxBytes, kept) && LinesKept(content, maxLines, maxBytes) == 1
            else KeepsLines(lines, LinesKept(content, maxLines, maxBytes), maxLines, maxBytes, kept)
  {
    hide Join, Lines, AlignedSuffix, Fits, IsLongestEnd;
    var lines := Lines(content);
    var n := LargestFit(lines, |lines|, maxLines, maxBytes);
    if lines != [] {
      AlignedSuffixMeans(lines[|lines| - 1], maxBytes);
    }
    KeptTailIs(lines, n, maxLines, maxBytes);
    LineFits(lines, n, maxLines, maxBytes);
    NoneFits(lines, maxLines, maxBytes);
  }

  lemma NoneFits(lines: seq<Text>, maxLines: nat, maxBytes: int)
    ensures Fits(lines, 0, maxLines, maxBytes) && Join(lines[|lines|..]) == []
    ensures lines != [] ==> (Fits(lines, 1, maxLines, maxBytes) <==> 1 <= maxLines && |lines[|lines| - 1]| <= maxBytes)
  {
    assert lines[|lines|..] == [];
    if lines != [] {
      assert lines[|lines| - 1..] == [lines[|lines| - 1]];
      JoinOne(lines[|lines| - 1]);
    }
  }

  lemma LineFits(lines: seq<Text>, n: nat, maxLines: nat, maxBytes: int)
    requires n <= |lines|
    ensures Fits(lines, n, maxLines, maxBytes) <==>
            n <= maxLines && (n > 0 ==> |Join(lines[|lines| - n..])| <= maxBytes)
    ensures n < |lines| && n < maxLines ==>
              (Fits(lines, n + 1, maxLines, maxBytes) <==>
               |lines[|lines| - n - 1]| + (if n == 0 then 0 else 1 + |Join(lines[|lines| - n..])|) <= maxBytes)
  {
    hide Join;
    if n < |lines| {
      JoinOneMore(lines, n);
    }
  }

  /** The limit that is named: bytes, if they ran out before the lines did. A cut last line counts as one line, so a
      limit of one line is named in its place; and a text all of whose lines are kept lost no more than its final
      newline. */
  lemma ReasonMeans(content: Text, maxLines: nat, maxBytes: int)
    ensures var reason, n := Reason(content, maxLines, maxBytes), LinesKept(content, maxLines, maxBytes);
            && (reason == Nothing <==> |Lines(content)| <= maxLines && |content| <= maxBytes)
            && (reason == ByBytes <==>
                !(|Lines(content)| <= maxLines && |content| <= maxBytes)
                && if LastLineCut(content, maxLines, maxBytes) then maxLines > 1 || maxBytes < 0
                   else n < |Lines(content)| && n < maxLines)
  {
    hide Join, Lines, AlignedSuffix, KeepsLines, KeptTail;
    TailContentMeans(content, maxLines, maxBytes);
    if LastLineCut(content, maxLines, maxBytes) {
      CutIsShort(Lines(content)[|Lines(content)| - 1], maxBytes);
    } else if !WithinLimits(content, maxLines, maxBytes) {
      KeptIsShort(content, maxLines, maxBytes);
    }
  }

  lemma CutIsShort(line: Text, maxBytes: int)
    requires |line| > maxBytes
    ensures forall t :: IsLongestEnd(line, maxBytes, t) ==> (|t| <= maxBytes <==> maxBytes >= 0)
  {
  }

  lemma KeptIsShort(content: Text, maxLines: nat, maxBytes: int)
    requires !WithinLimits(content, maxLines, maxBytes) && !LastLineCut(content, maxLines, maxBytes)
    ensures LinesKept(content, maxLines, maxBytes) > 0 ==> |TailContent(content, maxLines, maxBytes)| <= maxBytes
    ensures LinesKept(content, maxLines, maxBytes) == 0 ==> maxLines == 0 || content == []
    ensures LinesKept(content, maxLines, maxBytes) == 0 ==> |TailContent(content, maxLines, maxBytes)| == 0
  {
    hide Join, Lines;
    TailContentMeans(content, maxLines, maxBytes);
    var lines := Lines(content);
    NoneFits(lines, maxLines, maxBytes);
    if LinesKept(content, maxLines, maxBytes) == 0 {
      assert lines[|lines| - 0..] == [];
    }
  }

  /** Only the lines a cut can reach matter: whatever lies before them, as many lines are kept. */
  lemma LargestFitSuffix(before: seq<Text>, lines: seq<Text>, maxLines: nat, maxBytes: int)
    requires lines != []
    requires var n := LargestFit(lines, |lines|, maxLines, maxBytes);
             n < |lines| || n == maxLines || before == []
             || |before[|before| - 1]| + 1 + |Join(lines)| > maxBytes
    ensures LargestFit(before + lines, |before + lines|, maxLines, maxBytes) ==
            LargestFit(lines, |lines|, maxLines, maxBytes)
  {
    hide LargestFit, Join;
    var n := LargestFit(lines, |lines|, maxLines, maxBytes);
    var all := before + lines;
    assert all[|all| - n..] == lines[|lines| - n..];
    if n < |lines| {
      assert !Fits(lines, n + 1, maxLines, maxBytes);
      assert all[|all| - (n + 1)..] == lines[|lines| - (n + 1)..];
    } else if n < |all| {
      JoinOneMore(all, n);
      assert lines[|lines| - n..] == lines;
    }
    LargestFitIs(all, n, maxLines, maxBytes);
  }

  lemma KeptOfSuffix(before: seq<Text>, lines: seq<Text>, n: nat, maxLines: nat, maxBytes: int)
    requires n <= |lines| && lines != []
    ensures KeptOf(before + lines, n, maxLines, maxBytes) == KeptOf(lines, n, maxLines, maxBytes)
  {
    var all := before + lines;
    assert all[|all| - n..] == lines[|lines| - n..];
    assert all[|all| - 1] == lines[|lines| - 1];
  }

  lemma KeptTailSuffix(before: seq<Text>, lines: seq<Text>, maxLines: nat, maxBytes: int)
    requires lines != []
    requires var n := LargestFit(lines, |lines|, maxLines, maxBytes);
             n < |lines| || n == maxLines || before == []
             || |before[|before| - 1]| + 1 + |Join(lines)| > maxBytes
    ensures KeptTail(before + lines, maxLines, maxBytes) == KeptTail(lines, maxLines, maxBytes)
  {
    LargestFitSuffix(before, lines, maxLines, maxBytes);
    KeptOfSuffix(before, lines, LargestFit(lines, |lines|, maxLines, maxBytes), maxLines, maxBytes);
  }
}

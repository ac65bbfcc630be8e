/** Splitting text into lines and joining it back. */
module LineText {
  import opened Bytes

  /** Go's strings.Split(s, "\n"). */
  function Split(s: Text): (pieces: seq<Text>)
    ensures pieces != []
    decreases |s|
  {
    var k := FirstNewline(s);
    if k == |s| then [s] else [s[..k]] + Split(s[k + 1..])
  }

  /** Go's strings.Join(lines, "\n"). */
  function Join(lines: seq<Text>): Text {
    if lines == [] then [] else if |lines| == 1 then lines[0] else lines[0] + [NEWLINE] + Join(lines[1..])
  }

  /** A text with a newline is its first line, that newline, and the rest. */
  lemma FirstLine(s: Text)
    requires FirstNewline(s) < |s|
    ensures var k := FirstNewline(s); NEWLINE !in s[..k] && s == s[..k] + [NEWLINE] + s[k + 1..]
  {
  }

  lemma SplitCons(line: Text, rest: Text)
    requires NEWLINE !in line
    ensures Split(line + [NEWLINE] + rest) == [line] + Split(rest)
  {
    var s := line + [NEWLINE] + rest;
    FirstNewlineIs(s, |line|);
    assert s[..|line|] == line && s[|line| + 1..] == rest;
  }

  lemma JoinSplit(s: Text)
    ensures Join(Split(s)) == s
    decreases |s|
  {
    var k := FirstNewline(s);
    if k < |s| {
      FirstLine(s);
      var line, rest := s[..k], s[k + 1..];
      hide *;
      SplitCons(line, rest);
      JoinSplit(rest);
      JoinTwo([line], Split(rest));
      JoinOne(line);
    }
  }

  lemma JoinOne(line: Text)
    ensures Join([line]) == line
  {
  }

  lemma JoinTwo(a: seq<Text>, b: seq<Text>)
    requires a != [] && b != []
    ensures Join(a + b) == Join(a) + [NEWLINE] + Join(b)
  {
    if |a| == 1 {
      assert (a + b)[1..] == b;
    } else {
      JoinTwo(a[1..], b);
      assert (a + b)[1..] == a[1..] + b;
    }
  }

  /** The lines of a text as they are counted: a final newline ends the last line and opens none. */
  function Lines(s: Text): (lines: seq<Text>)
    ensures s != [] <==> lines != []
    decreases |s|
  {
    if s == [] then []
    else
      var k := FirstNewline(s);
      if k == |s| then [s] else [s[..k]] + Lines(s[k + 1..])
  }

  /** The counting rule as the program states it: split, then drop the piece after a final newline. */
  function SplitLinesForCounting(s: Text): seq<Text> {
    if s == [] then []
    else
      var pieces := Split(s);
      if s[|s| - 1] == NEWLINE then pieces[..|pieces| - 1] else pieces
  }

  lemma SplitLinesAreLines(s: Text)
    ensures SplitLinesForCounting(s) == Lines(s)
    decreases |s|
  {
    var k := FirstNewline(s);
    if k < |s| {
      FirstLine(s);
      SplitLinesAreLines(s[k + 1..]);
      CountingCons(s[..k], s[k + 1..]);
    }
  }

  lemma SplitEmpty()
    ensures Split([]) == [[]]
  {
  }

  lemma CountingCons(line: Text, rest: Text)
    requires NEWLINE !in line && SplitLinesForCounting(rest) == Lines(rest)
    ensures var s := line + [NEWLINE] + rest; SplitLinesForCounting(s) == Lines(s)
  {
    hide Split, Lines;
    var s := line + [NEWLINE] + rest;
    assert s[|s| - 1] == (if rest == [] then NEWLINE else rest[|rest| - 1]);
    SplitEmpty();
    SplitCons(line, rest);
    LinesCons(line, rest);
    var pieces := Split(rest);
    assert ([line] + pieces)[..|pieces|] == [line] + pieces[..|pieces| - 1];
  }

  ghost predicate EndsLine(a: Text) {
    a == [] || a[|a| - 1] == NEWLINE
  }

  /** A cut at a line boundary cuts the list of lines in two. */
  lemma LinesAppend(a: Text, b: Text)
    requires EndsLine(a)
    ensures Lines(a + b) == Lines(a) + Lines(b)
    decreases |a|
  {
    if a == [] {
      assert a + b == b;
    } else {
      var k := FirstNewline(a);
      FirstNewlineIs(a + b, k);
      assert (a + b)[k + 1..] == a[k + 1..] + b;
      assert (a + b)[..k] == a[..k];
      LinesAppend(a[k + 1..], b);
    }
  }

  /** The lines of a text that ends with the line `line`, open or complete. */
  lemma LinesLast(a: Text, line: Text)
    requires EndsLine(a) && NEWLINE !in line
    ensures line != [] ==> Lines(a + line) == Lines(a) + [line]
    ensures Lines(a + line + [NEWLINE]) == Lines(a) + [line]
  {
    hide *;
    OneLine(line);
    assert a + line + [NEWLINE] == a + (line + [NEWLINE]);
    LinesAppend(a, line);
    LinesAppend(a, line + [NEWLINE]);
  }

  lemma OneLine(line: Text)
    requires NEWLINE !in line
    ensures line != [] ==> Lines(line) == [line]
    ensures Lines(line + [NEWLINE]) == [line]
  {
    FirstNewlineIs(line, |line|);
    var s := line + [NEWLINE];
    FirstNewlineIs(s, |line|);
    assert s[..|line|] == line && s[|line| + 1..] == [];
  }

  /** What a text holds besides its joined lines: the newline that ends the last line, if any. */
  function FinalNewline(s: Text): Text {
    if s != [] && s[|s| - 1] == NEWLINE then [NEWLINE] else []
  }

  lemma LinesCons(line: Text, rest: Text)
    requires NEWLINE !in line
    ensures Lines(line + [NEWLINE] + rest) == [line] + Lines(rest)
  {
    LinesLast([], line);
    assert [] + line + [NEWLINE] == line + [NEWLINE];
    LinesAppend(line + [NEWLINE], rest);
  }

  /** Joining the lines gives the text back, less a final newline. */
  lemma JoinLines(s: Text)
    ensures s == Join(Lines(s)) + FinalNewline(s)
    decreases |s|
  {
    var k := FirstNewline(s);
    if k < |s| {
      FirstLine(s);
      JoinLines(s[k + 1..]);
      JoinLinesCons(s[..k], s[k + 1..]);
    }
  }

  lemma JoinLinesCons(line: Text, rest: Text)
    requires NEWLINE !in line && rest == Join(Lines(rest)) + FinalNewline(rest)
    ensures var s := line + [NEWLINE] + rest; s == Join(Lines(s)) + FinalNewline(s)
  {
    var s := line + [NEWLINE] + rest;
    assert FinalNewline(s) == if rest == [] then [NEWLINE] else FinalNewline(rest);
    assert rest == [] <==> Lines(rest) == [];
    hide *;
    LinesCons(line, rest);
    JoinOne(line);
    if rest == [] {
      assert [line] + Lines(rest) == [line];
    } else {
      JoinTwo([line], Lines(rest));
    }
  }

  /** How many lines there are: the newlines, and one more for an open last line. */
  lemma LineCount(s: Text)
    ensures |Lines(s)| == CountNewlines(s) + (if s != [] && s[|s| - 1] != NEWLINE then 1 else 0)
    decreases |s|
  {
    var k := FirstNewline(s);
    if k < |s| {
      FirstLine(s);
      LineCount(s[k + 1..]);
      LineCountCons(s[..k], s[k + 1..]);
    }
  }

  lemma LineCountCons(line: Text, rest: Text)
    requires NEWLINE !in line
    ensures |Lines(line + [NEWLINE] + rest)| == 1 + |Lines(rest)|
    ensures CountNewlines(line + [NEWLINE] + rest) == 1 + CountNewlines(rest)
  {
    hide Lines;
    LinesCons(line, rest);
  }

  /** Where the line that ends before `j` starts. */
  function LineStart(s: Text, j: nat): (k: nat)
    requires j <= |s|
    ensures k <= j
    ensures k == 0 || s[k - 1] == NEWLINE
    ensures forall i :: k <= i < j ==> s[i] != NEWLINE
  {
    if j == 0 || s[j - 1] == NEWLINE then j else LineStart(s, j - 1)
  }

  function LastLineStart(s: Text): nat {
    LineStart(s, |s|)
  }

  lemma LineStartIs(s: Text, j: nat, k: nat)
    requires k <= j <= |s|
    requires k == 0 || s[k - 1] == NEWLINE
    requires forall i :: k <= i < j ==> s[i] != NEWLINE
    ensures LineStart(s, j) == k
  {
    hide *;
    var l := LineStart(s, j);
  }
}

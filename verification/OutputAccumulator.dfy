/** Streamed command output: a rolling tail and counters in memory, every byte in a spill file. */
module ToolOutput {
  import opened Bytes
  import opened LineText
  import opened RollingTail
  import opened Utf8
  import Truncate

  const DEFAULT_MAX_LINES := 2000
  const DEFAULT_MAX_BYTES := 51200

  /** What the file system will do for one call: whether a file can be created, and how many writes succeed. */
  datatype Disk = Disk(canCreate: bool, goodWrites: nat)

  datatype Outcome = Done | AlreadyFinished | CreateFailed | WriteFailed

  datatype OutputSnapshot = OutputSnapshot(content: Text, truncation: Truncate.Result, fullOutput: Spill)

  /** The spill file: absent, or holding the bytes written so far. */
  datatype Spill = NoFile | File(contents: Text)

  /** Settling some bytes and then the rest settles what settling all at once does. */
  lemma SettledAppend(p: Text, q: Text)
    ensures SettledRunes(p + q) == SettledRunes(p) + SettledRunes(p[Settled(p)..] + q)
    ensures Settled(p + q) == Settled(p) + Settled(p[Settled(p)..] + q)
    decreases |p|
  {
    hide DecodeRune, FullRune, Settled, SettledRunes;
    SettledStep(p);
    SettledStep(p + q);
    if FullRune(p) {
      FullRuneStable(p, q);
      var size := DecodeRune(p).size;
      SettledAppend(p[size..], q);
      assert (p + q)[size..] == p[size..] + q;
      assert p[size..][Settled(p[size..])..] == p[Settled(p)..];
    } else {
      assert p[0..] == p;
    }
  }

  lemma SettledStep(p: Text)
    ensures !FullRune(p) ==> Settled(p) == 0 && SettledRunes(p) == []
    ensures FullRune(p) ==>
              var d := DecodeRune(p);
              && Settled(p) == d.size + Settled(p[d.size..])
              && SettledRunes(p) == [d.rune] + SettledRunes(p[d.size..])
  {
  }

  /** Appended bytes decode as the bytes still pending and they do; the text grows by that. */
  lemma DecodeAppend(raw: Text, data: Text)
    ensures var buf := raw[Settled(raw)..] + data;
            && EncodeAll(SettledRunes(raw + data)) == EncodeAll(SettledRunes(raw)) + EncodeAll(SettledRunes(buf))
            && (raw + data)[Settled(raw + data)..] == buf[Settled(buf)..]
            && Aligned(EncodeAll(SettledRunes(buf)))
  {
    hide *;
    var buf := raw[Settled(raw)..] + data;
    SettledAppend(raw, data);
    EncodeAllAppend(SettledRunes(raw), SettledRunes(buf));
    SettledScalar(buf);
    EncodedAligned(SettledRunes(buf));
    assert (raw + data)[Settled(raw)..] == buf;
  }

  /** At the end the pending bytes decode to the rest of the text. */
  lemma DecodeFinish(raw: Text)
    ensures DecodeAll(raw) == EncodeAll(SettledRunes(raw)) + DecodeAll(raw[Settled(raw)..])
    ensures Aligned(DecodeAll(raw[Settled(raw)..]))
  {
    var rest := raw[Settled(raw)..];
    SettledSplit(raw, []);
    assert raw + [] == raw && rest + [] == rest;
    EncodeAllAppend(SettledRunes(raw), Runes(rest));
    RunesAreScalar(rest);
    EncodedAligned(Runes(rest));
  }

  lemma SettledScalar(p: Text)
    ensures forall r | r in SettledRunes(p) :: IsScalar(r)
    decreases |p|
  {
    if FullRune(p) {
      EncodeDecoded(p);
      SettledScalar(p[DecodeRune(p).size..]);
    }
  }

  class OutputAccumulator {
    const maxLines: int
    const maxBytes: int
    const maxRollingBytes: nat
    var pendingUTF8: Text
    var rawChunks: seq<Text>
    var tailText: Text
    var tailBytes: nat
    var tailStartsAtLineBoundary: bool
    var totalRawBytes: nat
    var totalDecodedBytes: nat
    var completedLines: nat
    var totalLines: nat
    var currentLineBytes: nat
    var hasOpenLine: bool
    var finished: bool
    var spill: Spill
    var fileOpen: bool

    ghost var raw: Text       // every byte ever appended
    ghost var text: Text      // every byte decoded so far
    ghost var intact: bool    // no file operation failed and no byte came after the file was closed

    ghost predicate TailOf(t: Text)
      reads `tailText, `tailBytes, `tailStartsAtLineBoundary
    {
      && maxRollingBytes >= 1 && tailBytes == |tailText|
      && Retained(t, tailText, tailStartsAtLineBoundary, maxRollingBytes)
    }

    ghost predicate Counts(t: Text)
      reads `totalDecodedBytes, `completedLines, `totalLines, `currentLineBytes, `hasOpenLine
    {
      && totalDecodedBytes == |t|
      && completedLines == CountNewlines(t)
      && hasOpenLine == (t != [] && t[|t| - 1] != NEWLINE)
      && totalLines == |Lines(t)|
      && currentLineBytes == |t| - LastLineStart(t)
    }

    /** The counters and the tail describe the decoded text `t`, and the tail stays bounded. */
    ghost predicate Tracks(t: Text)
      reads `tailText, `tailBytes, `tailStartsAtLineBoundary, `totalDecodedBytes,
            `completedLines, `totalLines, `currentLineBytes, `hasOpenLine
    {
      Aligned(t) && TailOf(t) && tailBytes <= 2 * maxRollingBytes && Counts(t)
    }

    /** The text is what the appended bytes decode to, apart from the bytes still pending. */
    ghost predicate Decodes()
      reads `finished, `pendingUTF8, `text, `raw
    {
      if finished then pendingUTF8 == [] && text == DecodeAll(raw)
      else pendingUTF8 == raw[Settled(raw)..] && text == EncodeAll(SettledRunes(raw))
    }

    /** The chunks, or the file, hold every appended byte in order. */
    ghost predicate KeepsAll()
      reads `totalRawBytes, `totalDecodedBytes, `totalLines, `spill, `fileOpen, `rawChunks, `raw, `intact
    {
      && totalRawBytes == |raw|
      && (fileOpen ==> spill.File?)
      && (intact ==> match spill
                     case NoFile => Concat(rawChunks) == raw && (raw == [] || !OverLimit())
                     case File(contents) => contents == raw && rawChunks == [] && OverLimit())
    }

    predicate OverLimit()
      reads `totalRawBytes, `totalDecodedBytes, `totalLines
    {
      totalRawBytes > maxBytes || totalDecodedBytes > maxBytes || totalLines > maxLines
    }

    ghost predicate Valid()
      reads this
    {
      && maxLines != 0 && maxBytes != 0
      && (maxBytes > 0 ==> maxRollingBytes == 2 * maxBytes)
      && Tracks(text) && Decodes() && KeepsAll()
    }

    /** Of the empty text there is nothing to count or keep. */
    static lemma EmptyText(window: int)
      ensures Aligned([]) && Retained([], [], true, window) && Lines([]) == [] && LastLineStart([]) == 0
      ensures CountNewlines([]) == 0 && Concat([]) == []
      ensures Settled([]) == 0 && EncodeAll(SettledRunes([])) == []
    {
    }

    constructor (maxLines: int, maxBytes: int)
      ensures Valid() && intact && !finished
      ensures raw == [] && text == []
      ensures this.maxLines == if maxLines == 0 then DEFAULT_MAX_LINES else maxLines
      ensures this.maxBytes == if maxBytes == 0 then DEFAULT_MAX_BYTES else maxBytes
    {
      EmptyText(if maxBytes == 0 then 2 * DEFAULT_MAX_BYTES else if maxBytes < 1 then 1 else 2 * maxBytes);
      hide Aligned, Retained, Lines, LineStart, CountNewlines, Concat, Settled, SettledRunes, EncodeAll;
      this.maxLines := if maxLines == 0 then DEFAULT_MAX_LINES else maxLines;
      var limit := if maxBytes == 0 then DEFAULT_MAX_BYTES else maxBytes;
      this.maxBytes := limit;
      maxRollingBytes := if limit * 2 < 1 then 1 else limit * 2;
      pendingUTF8, rawChunks, tailText, tailBytes := [], [], [], 0;
      tailStartsAtLineBoundary, finished, hasOpenLine := true, false, false;
      totalRawBytes, totalDecodedBytes, completedLines, totalLines, currentLineBytes := 0, 0, 0, 0, 0;
      spill, fileOpen := NoFile, false;
      raw, text, intact := [], [], true;
    }

    /** Decodes what can be decided; bytes that may start a longer character wait for the next call. */
    method Decode(data: Text, final: bool) returns (out: Text)
      modifies `pendingUTF8
      ensures final ==> out == DecodeAll(old(pendingUTF8) + data) && pendingUTF8 == []
      ensures !final ==> out == EncodeAll(SettledRunes(old(pendingUTF8) + data))
      ensures !final ==> pendingUTF8 == (old(pendingUTF8) + data)[Settled(old(pendingUTF8) + data)..]
    {
      var buf := pendingUTF8 + data;
      ghost var all := buf;
      assert all[0..] == all;
      hide DecodeRune, FullRune, EncodeRune;
      pendingUTF8 := [];
      out := [];
      ghost var at: nat := 0;
      ghost var runes: seq<int> := [];
      while |buf| > 0
        invariant at <= |all| && buf == all[at..]
        invariant pendingUTF8 == [] && out == EncodeAll(runes)
        invariant final ==> runes + Runes(buf) == Runes(all)
        invariant !final ==> runes + SettledRunes(buf) == SettledRunes(all)
        invariant !final ==> at + Settled(buf) == Settled(all)
        decreases |buf|
      {
        if !final && !FullRune(buf) {
          pendingUTF8 := pendingUTF8 + buf;
          break;
        }
        var d := DecodeRune(buf);
        DecodeStep(runes, buf);
        runes := runes + [d.rune];
        out := out + EncodeRune(d.rune);
        buf := buf[d.size..];
        at := at + d.size;
      }
      assert runes + [] == runes;
      assert final ==> runes == Runes(all);
    }

    static lemma DecodeStep(runes: seq<int>, buf: Text)
      requires buf != []
      ensures var d := DecodeRune(buf);
              && EncodeAll(runes + [d.rune]) == EncodeAll(runes) + EncodeRune(d.rune)
              && runes + Runes(buf) == runes + [d.rune] + Runes(buf[d.size..])
              && (FullRune(buf) ==> runes + SettledRunes(buf) == runes + [d.rune] + SettledRunes(buf[d.size..]))
              && (FullRune(buf) ==> Settled(buf) == d.size + Settled(buf[d.size..]))
    {
      hide DecodeRune, FullRune, EncodeRune;
      var r, rest := DecodeRune(buf).rune, buf[DecodeRune(buf).size..];
      assert Runes(buf) == [r] + Runes(rest);
      assert FullRune(buf) ==> SettledRunes(buf) == [r] + SettledRunes(rest);
      assert EncodeAll([r]) == EncodeRune(r) + EncodeAll([]);
      EncodeAllAppend(runes, [r]);
    }

    method TrimTail(ghost t: Text)
      requires TailOf(t)
      modifies `tailText, `tailBytes, `tailStartsAtLineBoundary
      ensures TailOf(t)
      ensures tailBytes <= maxRollingBytes
    {
      hide Retained, IsContinuation, Truncate.ContinuationsEnd;
      var buffer := tailText;
      if |buffer| <= maxRollingBytes {
        tailBytes := |buffer|;
        return;
      }
      RetainedTrimmed(t, tailText, tailStartsAtLineBoundary, maxRollingBytes);
      var start := |buffer| - maxRollingBytes;
      while start < |buffer| && IsContinuation(buffer[start])
        invariant |buffer| - maxRollingBytes <= start <= |buffer|
        invariant forall i :: |buffer| - maxRollingBytes <= i < start ==> IsContinuation(buffer[i])
      {
        start := start + 1;
      }
      Truncate.ContinuationsEndIs(buffer, |buffer| - maxRollingBytes, start);
      if start != 0 {
        tailStartsAtLineBoundary := buffer[start - 1] == NEWLINE;
      }
      tailText := buffer[start..];
      tailBytes := |tailText|;
    }

    /** Counts the newlines of `piece` and finds the last one. */
    static method ScanNewlines(piece: Text) returns (newlines: nat, lastNewline: int)
      ensures newlines == CountNewlines(piece) && -1 <= lastNewline < |piece|
      ensures LastNewlineAt(piece, newlines, lastNewline)
    {
      newlines, lastNewline := 0, -1;
      var i := 0;
      while i < |piece|
        invariant i <= |piece| && newlines == CountNewlines(piece[..i])
        invariant LastNewlineAt(piece[..i], newlines, lastNewline)
      {
        assert piece[..i + 1] == piece[..i] + [piece[i]];
        if piece[i] == NEWLINE {
          newlines := newlines + 1;
          lastNewline := i;
        }
        i := i + 1;
      }
      assert piece[..i] == piece;
    }

    static ghost predicate LastNewlineAt(piece: Text, newlines: nat, lastNewline: int) {
      -1 <= lastNewline < |piece|
      && (newlines == 0 <==> lastNewline == -1)
      && (lastNewline >= 0 ==> piece[lastNewline] == NEWLINE)
      && forall i :: lastNewline < i < |piece| ==> piece[i] != NEWLINE
    }

    /** The tail and the byte counters, with a trim when the tail is twice as long as it need be. */
    method AppendToTail(ghost t: Text, piece: Text)
      requires Aligned(piece) && TailOf(t) && totalDecodedBytes == |t|
      modifies `totalDecodedBytes, `tailText, `tailBytes, `tailStartsAtLineBoundary
      ensures TailOf(t + piece) && totalDecodedBytes == |t + piece| && tailBytes <= 2 * maxRollingBytes
      ensures old(tailBytes) + |piece| <= 2 * maxRollingBytes ==> tailText == old(tailText) + piece
    {
      hide Aligned;
      RetainedGrows(t, tailText, tailStartsAtLineBoundary, maxRollingBytes, piece);
      hide Retained;
      var bytes := |piece|;
      totalDecodedBytes := totalDecodedBytes + bytes;
      tailText := tailText + piece;
      tailBytes := tailBytes + bytes;
      if tailBytes > maxRollingBytes * 2 {
        TrimTail(t + piece);
      }
    }

    method CountLines(ghost t: Text, piece: Text)
      requires piece != [] && totalDecodedBytes == |t + piece|
      requires completedLines == CountNewlines(t) && currentLineBytes == |t| - LastLineStart(t)
      modifies `completedLines, `totalLines, `currentLineBytes, `hasOpenLine
      ensures Counts(t + piece)
    {
      hide Lines, LineStart, LastNewlineAt, CountNewlines;
      var newlines, lastNewline := ScanNewlines(piece);
      ScannedAppend(t, piece, newlines, lastNewline);
      if newlines == 0 {
        currentLineBytes := currentLineBytes + |piece|;
        hasOpenLine := true;
      } else {
        completedLines := completedLines + newlines;
        var tail := piece[lastNewline + 1..];
        currentLineBytes := |tail|;
        hasOpenLine := tail != [];
      }
      totalLines := completedLines;
      if hasOpenLine {
        totalLines := totalLines + 1;
      }
    }

    method AppendDecodedText(ghost t: Text, piece: Text)
      requires Tracks(t) && Aligned(piece)
      modifies `totalDecodedBytes, `tailText, `tailBytes, `tailStartsAtLineBoundary,
               `completedLines, `totalLines, `currentLineBytes, `hasOpenLine
      ensures Tracks(t + piece)
      ensures totalDecodedBytes >= old(totalDecodedBytes) && totalLines >= old(totalLines)
    {
      LinesGrow(t, piece);
      AlignedAppend(t, piece);
      hide Aligned, TailOf, Lines, LineStart;
      if piece == [] {
        assert t + piece == t;
        return;
      }
      AppendToTail(t, piece);
      CountLines(t, piece);
    }

    /** Decodes the data, or at the end what is pending, and counts and keeps the text it gives. */
    method TakeText(data: Text, final: bool)
      requires Tracks(text) && Decodes() && !finished
      requires final ==> data == []
      modifies `pendingUTF8, `finished, `raw, `text, `totalDecodedBytes, `tailText, `tailBytes,
               `tailStartsAtLineBoundary, `completedLines, `totalLines, `currentLineBytes, `hasOpenLine
      ensures Tracks(text) && Decodes() && finished == final
      ensures raw == old(raw) + data && old(text) <= text
      ensures totalDecodedBytes >= old(totalDecodedBytes) && totalLines >= old(totalLines)
    {
      hide SettledRunes, Settled, EncodeAll, DecodeAll, Aligned, Tracks;
      DecodeAppend(raw, data);
      DecodeFinish(raw);
      assert pendingUTF8 + [] == pendingUTF8 && raw + [] == raw;
      var piece := Decode(data, final);
      AppendDecodedText(text, piece);
      text, raw, finished := text + piece, raw + data, final;
    }

    /** What the scan of a piece says about the lines of the text it is appended to. */
    static lemma ScannedAppend(t: Text, piece: Text, newlines: nat, lastNewline: int)
      requires piece != [] && newlines == CountNewlines(piece) && -1 <= lastNewline < |piece|
      requires LastNewlineAt(piece, newlines, lastNewline)
      ensures var all := t + piece;
              && CountNewlines(all) == CountNewlines(t) + newlines
              && (all[|all| - 1] != NEWLINE <==> newlines == 0 || lastNewline + 1 < |piece|)
              && |Lines(all)| == CountNewlines(all) + (if all[|all| - 1] != NEWLINE then 1 else 0)
              && LastLineStart(all) == if newlines == 0 then LastLineStart(t) else |t| + lastNewline + 1
    {
      var all := t + piece;
      hide Lines, LineStart;
      LineCount(all);
      var k := if newlines == 0 then LastLineStart(t) else |t| + lastNewline + 1;
      assert forall i :: 0 <= i < |piece| ==> all[|t| + i] == piece[i];
      LineStartIs(all, |all|, k);
    }

    static lemma LinesGrow(t: Text, piece: Text)
      ensures |Lines(t)| <= |Lines(t + piece)|
    {
      hide Lines;
      LineCount(t);
      LineCount(t + piece);
      if piece == [] {
        assert t + piece == t;
      } else if piece[|piece| - 1] == NEWLINE {
        assert NEWLINE in piece;
      }
    }

    /** Opens the spill file, once, and moves the chunks collected so far into it. */
    method EnsureTempFile(disk: Disk) returns (outcome: Outcome, goodWrites: nat)
      modifies `spill, `fileOpen, `rawChunks, `intact
      ensures outcome == Done || outcome == CreateFailed || outcome == WriteFailed
      ensures old(spill).File? ==>
                outcome == Done && spill == old(spill) && fileOpen == old(fileOpen) && rawChunks == old(rawChunks)
      ensures outcome == Done ==> intact == old(intact)
      ensures outcome == Done && old(spill).NoFile? ==>
              spill == File(Concat(old(rawChunks))) && fileOpen && rawChunks == []
      ensures outcome != Done ==> !intact && spill.NoFile? && !fileOpen
    {
      goodWrites := disk.goodWrites;
      if spill.File? {
        return Done, goodWrites;
      }
      if !disk.canCreate {
        fileOpen, intact := false, false;
        return CreateFailed, goodWrites;
      }
      spill, fileOpen := File([]), true;
      var i := 0;
      while i < |rawChunks|
        invariant i <= |rawChunks|
        invariant spill == File(Concat(rawChunks[..i])) && fileOpen
        invariant rawChunks == old(rawChunks) && intact == old(intact)
      {
        if goodWrites == 0 {
          CleanupTempFile();
          return WriteFailed, 0;
        }
        goodWrites := goodWrites - 1;
        assert rawChunks[..i + 1] == rawChunks[..i] + [rawChunks[i]];
        ConcatSnoc(rawChunks[..i], rawChunks[i]);
        spill := File(spill.contents + rawChunks[i]);
        i := i + 1;
      }
      assert rawChunks[..i] == rawChunks;
      rawChunks := [];
      outcome := Done;
    }

    /** A failed write takes the whole file with it. */
    method CleanupTempFile()
      modifies `spill, `fileOpen, `intact
      ensures spill.NoFile? && !fileOpen && !intact
    {
      spill, fileOpen := NoFile, false;
      intact := false;
    }

    method Append(data: Text, disk: Disk) returns (outcome: Outcome)
      requires Valid()
      modifies this
      ensures Valid()
      ensures outcome == AlreadyFinished <==> old(finished)
      ensures raw == if old(finished) then old(raw) else old(raw) + data
      ensures finished == old(finished)
      ensures intact <==> old(intact) && (outcome == Done || outcome == AlreadyFinished)
                          && !(outcome == Done && data != [] && spill.File? && !fileOpen)
      ensures old(text) <= text
    {
      hide Tracks, Decodes, Concat;
      if finished {
        return AlreadyFinished;
      }
      totalRawBytes := totalRawBytes + |data|;
      TakeText(data, false);
      if fileOpen || OverLimit() {
        var goodWrites: nat;
        outcome, goodWrites := EnsureTempFile(disk);
        if outcome != Done {
          return;
        }
        if !fileOpen {
          intact := intact && data == [];
          return;
        }
        if goodWrites == 0 {
          CleanupTempFile();
          return WriteFailed;
        }
        spill := File(spill.contents + data);
        return Done;
      }
      ConcatSnoc(rawChunks, data);
      if |data| > 0 {
        rawChunks := rawChunks + [data];
      }
      outcome := Done;
    }

    method Finish(disk: Disk) returns (outcome: Outcome)
      requires Valid()
      modifies this
      ensures Valid() && finished
      ensures raw == old(raw) && text == DecodeAll(raw)
      ensures intact <==> old(intact) && outcome == Done
    {
      hide Tracks, DecodeAll, EncodeAll, SettledRunes, Settled, Concat;
      if finished {
        return Done;
      }
      TakeText([], true);
      if OverLimit() {
        var goodWrites: nat;
        outcome, goodWrites := EnsureTempFile(disk);
        return;
      }
      outcome := Done;
    }

    method GetSnapshotText() returns (t: Text)
      ensures t == SnapshotText(tailText, tailStartsAtLineBoundary)
    {
      if tailStartsAtLineBoundary {
        return tailText;
      }
      var i := 0;
      while i < |tailText| && tailText[i] != NEWLINE
        invariant i <= |tailText|
        invariant forall j :: 0 <= j < i ==> tailText[j] != NEWLINE
      {
        i := i + 1;
      }
      FirstNewlineIs(tailText, i);
      if i == |tailText| {
        return tailText;
      }
      t := tailText[i + 1..];
    }

    /**
     The counters are those of the whole text, and so is the content, up to one final newline,
     if and only if the tail is not a swallowed one that had something to show. A truncated
     snapshot comes with the whole output.
     */
    method Snapshot(persistIfTruncated: bool, disk: Disk) returns (outcome: Outcome, s: OutputSnapshot)
      requires Valid() && maxLines > 0
      modifies `spill, `fileOpen, `rawChunks, `intact
      ensures Valid()
      ensures intact <==> old(intact) && outcome == Done
      ensures outcome == Done ==>
                && s.truncation.totalLines == |Lines(text)| && s.truncation.totalBytes == |text|
                && (s.truncation.truncated <==> !Truncate.WithinLimits(text, maxLines, maxBytes))
                && (s.truncation.truncated <==> s.truncation.truncatedBy != Truncate.Nothing)
                && s.content == s.truncation.content
                && s.fullOutput == spill
                && s.truncation.maxLines == maxLines && s.truncation.maxBytes == maxBytes
      ensures outcome == Done ==>
                var shown := SnapshotText(tailText, tailStartsAtLineBoundary);
                && s.content == Truncate.TailContent(shown, maxLines, maxBytes)
                   && s.truncation.outputBytes == |s.content|
                && s.truncation.lastLinePartial == Truncate.LastLineCut(shown, maxLines, maxBytes)
                && s.truncation.outputLines == Truncate.LinesKept(shown, maxLines, maxBytes)
                && s.truncation.truncatedBy ==
                   if s.truncation.truncated && Truncate.WithinLimits(shown, maxLines, maxBytes)
                   then if |text| > maxBytes then Truncate.ByBytes else Truncate.ByLines
                   else Truncate.Reason(shown, maxLines, maxBytes)
      ensures spill == old(spill) || (old(spill).NoFile? && persistIfTruncated
                                      && !Truncate.WithinLimits(text, maxLines, maxBytes))
      ensures outcome == Done && maxBytes < 0 ==> s.content == Truncate.TailContent(text, maxLines, maxBytes) == []
      ensures outcome == Done && maxBytes > 0 ==>
                (EqualUpToNewline(s.content, Truncate.TailContent(text, maxLines, maxBytes))
                 <==> !Loses(tailText, tailStartsAtLineBoundary, maxBytes))
      ensures maxBytes >= 4 ==>
                (Loses(tailText, tailStartsAtLineBoundary, maxBytes) <==> Swallowed(tailText, tailStartsAtLineBoundary))
      ensures outcome == Done && intact && s.truncation.truncated && (raw != [] || persistIfTruncated) ==>
                s.fullOutput == File(raw)
    {
      hide Truncate.TailContent, Truncate.WithinLimits, Truncate.LargestFit, Truncate.TailReason, Truncate.LastLineCut,
           Truncate.LinesKept, Tracks, Decodes, Concat, Lines, Swallowed, Loses, SnapshotText, EqualUpToNewline;
      var shown := GetSnapshotText();
      ShownAgrees(shown);
      var t := Truncate.Tail(shown, maxLines, maxBytes);
      var truncated := totalLines > maxLines || totalDecodedBytes > maxBytes;
      var truncatedBy := t.truncatedBy;
      if truncated && truncatedBy == Truncate.Nothing {
        truncatedBy := if totalDecodedBytes > maxBytes then Truncate.ByBytes else Truncate.ByLines;
      }
      t := t.(truncated := truncated, truncatedBy := truncatedBy, totalLines := totalLines,
              totalBytes := totalDecodedBytes, maxLines := maxLines, maxBytes := maxBytes);
      outcome := Done;
      if persistIfTruncated && truncated {
        var goodWrites: nat;
        outcome, goodWrites := EnsureTempFile(disk);
      }
      s := OutputSnapshot(t.content, t, spill);
    }

    /** What the counters and the shown text say about the whole text. */
    lemma ShownAgrees(shown: Text)
      requires Valid() && maxLines > 0 && shown == SnapshotText(tailText, tailStartsAtLineBoundary)
      ensures totalLines == |Lines(text)| && totalDecodedBytes == |text|
      ensures !Truncate.WithinLimits(text, maxLines, maxBytes) <==>
              totalLines > maxLines || totalDecodedBytes > maxBytes
      ensures Truncate.WithinLimits(text, maxLines, maxBytes) ==> shown == text
      ensures maxBytes < 0 ==>
              Truncate.TailContent(shown, maxLines, maxBytes) == Truncate.TailContent(text, maxLines, maxBytes) == []
      ensures maxBytes > 0 ==>
                (EqualUpToNewline(Truncate.TailContent(shown, maxLines, maxBytes),
                                  Truncate.TailContent(text, maxLines, maxBytes))
                 <==> !Loses(tailText, tailStartsAtLineBoundary, maxBytes))
      ensures maxBytes >= 4 ==>
                (Loses(tailText, tailStartsAtLineBoundary, maxBytes) <==> Swallowed(tailText, tailStartsAtLineBoundary))
    {
      hide Lines, Truncate.TailContent, Aligned, LineStart;
      if maxBytes > 0 {
        SnapshotAgrees(text, tailText, tailStartsAtLineBoundary, maxLines, maxBytes);
        if |tailText| < |text| {
          TailIsShort(text, tailText, tailStartsAtLineBoundary, 2 * maxBytes);
        } else {
          assert text[0..] == text;
        }
      } else {
        NegativeLimitKeepsNothing(shown, maxLines, maxBytes);
        NegativeLimitKeepsNothing(text, maxLines, maxBytes);
      }
    }

    method CloseTempFile()
      requires Valid()
      modifies `fileOpen
      ensures Valid() && !fileOpen
    {
      hide Tracks, Decodes, OverLimit;
      fileOpen := false;
    }

    method GetLastLineBytes() returns (n: nat)
      requires Valid()
      ensures n == |text| - LastLineStart(text)
    {
      n := currentLineBytes;
    }
  }
}

/** A session journal: an append-only file of one record a line, recovered after a write was cut short. The record codec
    is a parameter, of which only what a JSON codec gives is assumed. */
module Journal {
  import opened Bytes
  import opened LineText
  import opened Options

  datatype Message = User(blocks: seq<nat>) | Other(content: nat)

  datatype Payload =
    | MessagePayload(message: Message)
    | ModelChange(model: string, role: string)
    | Compaction(summary: nat, firstKeptId: string)

  datatype Entry = Entry(id: string, parentId: string, payload: Payload)

  datatype Decoded = Known(entry: Entry) | Unknown(id: string) | Malformed

  datatype Codec = Codec(encode: Entry -> Text, decode: Text -> Decoded, isHeader: Text -> bool)

  /** Encoding and decoding are inverse, an encoding is one line, and no proper prefix of it is a record. */
  ghost predicate GoodCodec(c: Codec) {
    forall e: Entry {:trigger c.encode(e)} :: e.id != "" ==>
      && c.decode(c.encode(e)) == Known(e) && NEWLINE !in c.encode(e) && c.encode(e) != []
      && forall k :: 0 <= k < |c.encode(e)| ==> c.decode(c.encode(e)[..k]) == Malformed
  }

  /** A header line is one line, and not a record that can be replayed. */
  ghost predicate GoodHeader(c: Codec, header: Text) {
    c.isHeader(header) && header != [] && NEWLINE !in header && c.decode(header).Unknown?
  }

  // ----- Replaying -----

  datatype Kept = Kept(id: string, message: Message)

  datatype Loaded = Loaded(messages: seq<Kept>, model: string, role: string, lastId: string, diagnostics: nat)

  const NOTHING := Loaded([], "", "", "", 0)

  function IndexOfId(messages: seq<Kept>, id: string, i: nat): (k: nat)
    requires i <= |messages|
    ensures i <= k <= |messages|
    decreases |messages| - i
  {
    if i == |messages| || messages[i].id == id then i else IndexOfId(messages, id, i + 1)
  }

  /** The messages from the first kept one on (all of them, if it is not there), with the summary in front. */
  function ApplyCompaction(messages: seq<Kept>, summary: nat, firstKeptId: string): seq<Kept> {
    var k := IndexOfId(messages, firstKeptId, 0);
    var kept := if k < |messages| then messages[k..] else messages;
    if kept != [] && kept[0].message.User? then [Kept(kept[0].id, User([summary] + kept[0].message.blocks))] + kept[1..]
    else [Kept("", User([summary]))] + kept
  }

  function Absorb(l: Loaded, e: Entry): Loaded {
    match e.payload
    case MessagePayload(m) => l.(lastId := e.id, messages := l.messages + [Kept(e.id, m)])
    case ModelChange(model, role) => l.(lastId := e.id, model := model, role := if role == "" then "default" else role)
    case Compaction(summary, firstKeptId) =>
      l.(lastId := e.id, messages := ApplyCompaction(l.messages, summary, firstKeptId))
  }

  function AbsorbLine(c: Codec, l: Loaded, line: Text): Loaded {
    match c.decode(line)
    case Known(e) => Absorb(l, e)
    case Unknown(id) => l.(lastId := id, diagnostics := l.diagnostics + 1)
    case Malformed => l
  }

  /** What the records say, one after the other. */
  function Replay(c: Codec, lines: seq<Text>): Loaded {
    if lines == [] then NOTHING else AbsorbLine(c, Replay(c, lines[..|lines| - 1]), lines[|lines| - 1])
  }

  datatype LoadResult = Success(loaded: Loaded) | BadHeader | BadRecord(line: nat)

  function Scan(c: Codec, lines: seq<Text>, i: nat, last: nat, l: Loaded): LoadResult
    requires last < |lines|
    decreases |lines| - i
  {
    if i > last then Success(l)
    else if c.decode(lines[i]).Malformed? then if i == last then Success(l) else BadRecord(i + 1)
    else Scan(c, lines, i + 1, last, AbsorbLine(c, l, lines[i]))
  }

  function LastContent(lines: seq<Text>): nat
    requires lines != []
  {
    var last := |lines| - 1;
    if last > 0 && lines[last] == [] then last - 1 else last
  }

  function LoadOf(c: Codec, contents: Text): LoadResult {
    var lines := Split(contents);
    if lines[0] == [] || !c.isHeader(lines[0]) then BadHeader
    else Scan(c, lines, 1, LastContent(lines), NOTHING)
  }

  method Load(c: Codec, contents: Text) returns (r: LoadResult)
    ensures r == LoadOf(c, contents)
  {
    var lines := Split(contents);
    if |lines[0]| == 0 || !c.isHeader(lines[0]) {
      return BadHeader;
    }
    var loaded := NOTHING;
    var lastContent := |lines| - 1;
    if lastContent > 0 && |lines[lastContent]| == 0 {
      lastContent := lastContent - 1;
    }
    var index := 1;
    while index <= lastContent
      invariant 1 <= index && Scan(c, lines, 1, lastContent, NOTHING) == Scan(c, lines, index, lastContent, loaded)
    {
      match c.decode(lines[index]) {
        case Unknown(id) => loaded := loaded.(diagnostics := loaded.diagnostics + 1, lastId := id);
        case Malformed =>
          return if index == lastContent then Success(loaded) else BadRecord(index + 1);
        case Known(entry) =>
          loaded := loaded.(lastId := entry.id);
          match entry.payload {
            case MessagePayload(m) => loaded := loaded.(messages := loaded.messages + [Kept(entry.id, m)]);
            case ModelChange(model, role) => loaded :=
              loaded.(model := model, role := if role == "" then "default" else role);
            case Compaction(summary, firstKeptId) =>
              loaded := loaded.(messages := ApplyCompaction(loaded.messages, summary, firstKeptId));
          }
      }
      index := index + 1;
    }
    return Success(loaded);
  }

  // ----- Files as lines -----

  /** The lines, each with its newline. */
  function Body(lines: seq<Text>): Text {
    if lines == [] then [] else Body(lines[..|lines| - 1]) + lines[|lines| - 1] + [NEWLINE]
  }

  lemma BodySnoc(lines: seq<Text>, line: Text)
    ensures Body(lines + [line]) == Body(lines) + line + [NEWLINE]
  {
    assert (lines + [line])[..|lines|] == lines;
  }

  ghost predicate OneLiners(lines: seq<Text>) {
    forall i :: 0 <= i < |lines| ==> NEWLINE !in lines[i]
  }

  lemma {:induction false} BodyCons(line: Text, lines: seq<Text>)
    ensures Body([line] + lines) == line + [NEWLINE] + Body(lines)
  {
    hide *;
    BodyNone();
    if lines == [] {
      BodySnoc([], line);
      assert [] + [line] == [line] + lines && [] + line == line && line + [NEWLINE] + [] == line + [NEWLINE];
    } else {
      var front, last := lines[..|lines| - 1], lines[|lines| - 1];
      assert lines == front + [last] && [line] + lines == ([line] + front) + [last];
      BodyCons(line, front);
      BodySnoc([line] + front, last);
      BodySnoc(front, last);
    }
  }

  lemma BodyNone()
    ensures Body([]) == []
  {
  }

  lemma {:induction false} SplitLines(lines: seq<Text>, tail: Text)
    requires OneLiners(lines)
    ensures Split(Body(lines) + tail) == lines + Split(tail)
    decreases |lines|
  {
    hide Split, Body;
    if lines == [] {
      BodyNone();
      assert [] + tail == tail && [] + Split(tail) == Split(tail);
    } else {
      var first, rest := lines[0], lines[1..];
      assert lines == [first] + rest;
      SplitLines(rest, tail);
      BodyCons(first, rest);
      assert first + [NEWLINE] + Body(rest) + tail == first + [NEWLINE] + (Body(rest) + tail);
      SplitCons(first, Body(rest) + tail);
      assert [first] + (rest + Split(tail)) == lines + Split(tail);
    }
  }

  lemma SplitBody(lines: seq<Text>, tail: Text)
    requires OneLiners(lines) && NEWLINE !in tail
    ensures Split(Body(lines) + tail) == lines + [tail]
  {
    hide Body, OneLiners;
    SplitLines(lines, tail);
  }

  // ----- What loading finds -----

  /** Lines that can stand in the middle of a journal. */
  ghost predicate Good(c: Codec, lines: seq<Text>) {
    forall i :: 0 <= i < |lines| ==> GoodLine(c, lines[i])
  }

  ghost predicate GoodLine(c: Codec, line: Text) {
    NEWLINE !in line && line != [] && !c.decode(line).Malformed?
  }

  lemma {:induction false} ScanGood(c: Codec, lines: seq<Text>, good: seq<Text>, last: nat, n: nat)
    requires Good(c, good) && n <= |good| <= last < |lines| && forall i :: 0 <= i < |good| ==> lines[i + 1] == good[i]
    requires |good| < |lines|
    ensures Scan(c, lines, 1, last, NOTHING) == Scan(c, lines, n + 1, last, Replay(c, good[..n]))
  {
    if n > 0 {
      ScanGood(c, lines, good, last, n - 1);
      assert GoodLine(c, good[n - 1]) && lines[n - 1 + 1] == good[n - 1];
      assert good[..n][..n - 1] == good[..n - 1];
    }
  }

  /** A journal of good records with an unfinished end loads as those records; a last record that lacks only its newline
      counts. */
  lemma LoadFinds(c: Codec, header: Text, good: seq<Text>, tail: Text)
    requires GoodHeader(c, header) && Good(c, good) && NEWLINE !in tail
    ensures LoadOf(c, Body([header] + good) + tail) ==
            Success(if tail == [] || c.decode(tail).Malformed? then Replay(c, good) else Replay(c, good + [tail]))
  {
    var lines := [header] + good + [tail];
    assert OneLiners([header] + good) by {
      forall i | 0 <= i < |[header] + good|
        ensures NEWLINE !in ([header] + good)[i]
      {
        assert i > 0 ==> GoodLine(c, good[i - 1]);
      }
    }
    SplitBody([header] + good, tail);
    hide Split, Body, Replay;
    var last := LastContent(lines);
    assert lines[0] == header && lines[|lines| - 1] == tail;
    assert last == if tail == [] then |good| else |good| + 1;
    ScanGood(c, lines, good, last, |good|);
    assert good[..|good|] == good;
  }

  predicate IsBadLine(c: Codec, lines: seq<Text>, i: nat) {
    i < |lines| && c.decode(lines[i]).Malformed?
  }

  /** The first malformed line from `from` on. */
  ghost predicate IsFirstBad(c: Codec, lines: seq<Text>, from: nat, k: nat) {
    from <= k && IsBadLine(c, lines, k) && forall j :: from <= j < k ==> !IsBadLine(c, lines, j)
  }

  lemma {:induction false} ScanFailsAt(c: Codec, lines: seq<Text>, i: nat, last: nat, l: Loaded, k: nat)
    requires k < last < |lines| && IsFirstBad(c, lines, i, k)
    ensures Scan(c, lines, i, last, l) == BadRecord(k + 1)
    decreases k - i
  {
    hide AbsorbLine;
    if i < k {
      assert !IsBadLine(c, lines, i);
      ScanFailsAt(c, lines, i + 1, last, AbsorbLine(c, l, lines[i]), k);
    }
  }

  lemma {:induction false} ScanSucceeds(c: Codec, lines: seq<Text>, i: nat, last: nat, l: Loaded)
    requires last < |lines| && forall k :: i <= k < last ==> !IsBadLine(c, lines, k)
    ensures Scan(c, lines, i, last, l).Success?
    decreases if i <= last then last - i + 1 else 0
  {
    hide AbsorbLine;
    if i < last {
      assert !IsBadLine(c, lines, i);
      ScanSucceeds(c, lines, i + 1, last, AbsorbLine(c, l, lines[i]));
    }
  }

  /** Loading fails exactly on a missing header or on a malformed line in front of the last one, the first of which the
      error names. */
  lemma LoadFailsExactly(c: Codec, contents: Text)
    ensures var lines := Split(contents);
            var last := if |lines| > 1 && lines[|lines| - 1] == [] then |lines| - 2 else |lines| - 1;
            if lines[0] == [] || !c.isHeader(lines[0]) then LoadOf(c, contents) == BadHeader
            else
              && (forall k: nat :: IsFirstBad(c, lines, 1, k) && k < last ==> LoadOf(c, contents) == BadRecord(k + 1))
              && ((forall k :: 1 <= k < last ==> !IsBadLine(c, lines, k)) ==> LoadOf(c, contents).Success?)
  {
    hide IsBadLine, Split, Scan, IsFirstBad;
    var lines := Split(contents);
    var last := LastContent(lines);
    forall k: nat | IsFirstBad(c, lines, 1, k) && k < last
      ensures Scan(c, lines, 1, last, NOTHING) == BadRecord(k + 1)
    {
      ScanFailsAt(c, lines, 1, last, NOTHING, k);
    }
    if forall k :: 1 <= k < last ==> !IsBadLine(c, lines, k) {
      ScanSucceeds(c, lines, 1, last, NOTHING);
    }
  }

  /** A diagnostic for each record of an unknown kind. */
  lemma {:induction false} DiagnosticsCount(c: Codec, lines: seq<Text>) returns (at: set<nat>)
    ensures forall i :: i in at <==> 0 <= i < |lines| && c.decode(lines[i]).Unknown?
    ensures Replay(c, lines).diagnostics == |at|
  {
    if lines == [] {
      at := {};
    } else {
      var n := |lines| - 1;
      var before := DiagnosticsCount(c, lines[..n]);
      at := if c.decode(lines[n]).Unknown? then before + {n} else before;
      assert n !in before;
    }
  }

  // ----- Trimming -----

  function StartOfLine(s: Text, end: nat): (k: nat)
    requires end <= |s|
    ensures k <= end && (k > 0 ==> s[k - 1] == NEWLINE)
    ensures forall j :: k <= j < end ==> s[j] != NEWLINE
  {
    if end == 0 || s[end - 1] == NEWLINE then end else StartOfLine(s, end - 1)
  }

  /** Drops a final line that is not a record. */
  function Trimmed(c: Codec, contents: Text): Text {
    if contents == [] then contents
    else
      var end := if contents[|contents| - 1] == NEWLINE then |contents| - 1 else |contents|;
      if end == 0 then contents
      else
        var start := StartOfLine(contents, end);
        if c.decode(contents[start..end]).Malformed? then contents[..start] else contents
  }

  /** Trimming removes exactly the torn end. */
  lemma TrimRemovesTear(c: Codec, header: Text, good: seq<Text>, tail: Text)
    requires GoodHeader(c, header) && Good(c, good) && NEWLINE !in tail
    ensures Trimmed(c, Body([header] + good) + tail) ==
            if tail == [] || c.decode(tail).Malformed? then Body([header] + good) else Body([header] + good) + tail
  {
    var lines := [header] + good;
    var body := Body(lines);
    var contents := body + tail;
    if tail == [] {
      assert contents == body;
      var front, last := lines[..|lines| - 1], lines[|lines| - 1];
      assert !c.decode(last).Malformed? && NEWLINE !in last && last != [] by {
        assert good != [] ==> last == good[|good| - 1] && GoodLine(c, good[|good| - 1]);
      }
      assert body == Body(front) + last + [NEWLINE];
      assert front != [] ==> Body(front) != [] && Body(front)[|Body(front)| - 1] == NEWLINE by {
      }
      TrimWhole(c, Body(front), last);
    } else {
      TrimTail(c, body, tail);
    }
  }

  lemma TrimWhole(c: Codec, before: Text, last: Text)
    requires before != [] ==> before[|before| - 1] == NEWLINE
    requires NEWLINE !in last && last != [] && !c.decode(last).Malformed?
    ensures Trimmed(c, before + last + [NEWLINE]) == before + last + [NEWLINE]
  {
    var s := before + last + [NEWLINE];
    var end := |s| - 1;
    assert s[|before|..end] == last;
  }

  lemma TrimTail(c: Codec, before: Text, tail: Text)
    requires before != [] && before[|before| - 1] == NEWLINE && NEWLINE !in tail && tail != []
    ensures Trimmed(c, before + tail) == if c.decode(tail).Malformed? then before else before + tail
  {
    var s := before + tail;
    assert s[|s| - 1] == tail[|tail| - 1];
    assert s[|before|..|s|] == tail && s[..|before|] == before;
  }

  // ----- Appending, crashing, resuming -----

  /** A journal between operations: the file and the identifier the next record will name as its parent. */
  datatype Disk = Disk(contents: Text, lastId: string)

  datatype Op =
    | Append(payload: Payload, id: string)
    | Crash(payload: Payload, id: string, written: nat)

  function RecordOf(c: Codec, lastId: string, payload: Payload, id: string): Text {
    c.encode(Entry(id, lastId, payload))
  }

  function AppendTo(c: Codec, d: Disk, payload: Payload, id: string): Disk {
    Disk(d.contents + RecordOf(c, d.lastId, payload, id) + [NEWLINE], id)
  }

  function Resume(c: Codec, contents: Text): Option<Disk> {
    var r := LoadOf(c, contents);
    if r.Success? then Some(Disk(Trimmed(c, contents), r.loaded.lastId)) else None
  }

  /** The file after a write of a record and its newline that stopped after `written` bytes. */
  function Torn(c: Codec, d: Disk, payload: Payload, id: string, written: nat): Text {
    var line := RecordOf(c, d.lastId, payload, id) + [NEWLINE];
    d.contents + line[..if written < |line| then written else |line|]
  }

  function Execute(c: Codec, d: Option<Disk>, op: Op): Option<Disk> {
    match op
    case Append(payload, id) => if d.Some? then Some(AppendTo(c, d.value, payload, id)) else None
    case Crash(payload, id, written) => if d.Some? then Resume(c, Torn(c, d.value, payload, id, written)) else None
  }

  function ExecuteAll(c: Codec, header: Text, ops: seq<Op>): Option<Disk> {
    if ops == [] then Some(Disk(header + [NEWLINE], ""))
    else Execute(c, ExecuteAll(c, header, ops[..|ops| - 1]), ops[|ops| - 1])
  }

  /** The records that were written in full, each with its predecessor's identifier as its parent. */
  function Written(c: Codec, ops: seq<Op>): seq<Text> {
    if ops == [] then []
    else
      var before, op := Written(c, ops[..|ops| - 1]), ops[|ops| - 1];
      var record := RecordOf(c, LastId(c, before), op.payload, op.id);
      if op.Append? || op.written > |record| then before + [record] else before
  }

  function IdOfLine(c: Codec, line: Text): string {
    match c.decode(line)
    case Known(e) => e.id
    case Unknown(id) => id
    case Malformed => ""
  }

  function LastId(c: Codec, lines: seq<Text>): string {
    if lines == [] then "" else IdOfLine(c, lines[|lines| - 1])
  }

  /** Every record's parent is the record before it; the first has none. */
  ghost predicate Linked(c: Codec, lines: seq<Text>) {
    forall i :: 0 <= i < |lines| ==> LinkedAt(c, lines, i)
  }

  ghost predicate LinkedAt(c: Codec, lines: seq<Text>, i: nat)
    requires i < |lines|
  {
    c.decode(lines[i]).Known? ==> c.decode(lines[i]).entry.parentId == LastId(c, lines[..i])
  }

  lemma {:induction false} ReplayLastId(c: Codec, lines: seq<Text>)
    requires Good(c, lines)
    ensures Replay(c, lines).lastId == LastId(c, lines)
  {
    if lines != [] {
      assert GoodLine(c, lines[|lines| - 1]);
    }
  }

  lemma RecordIsGood(c: Codec, lastId: string, payload: Payload, id: string)
    requires GoodCodec(c) && id != ""
    ensures GoodLine(c, RecordOf(c, lastId, payload, id)) && IdOfLine(c, RecordOf(c, lastId, payload, id)) == id
    ensures c.decode(RecordOf(c, lastId, payload, id)) == Known(Entry(id, lastId, payload))
  {
    assert Entry(id, lastId, payload).id != "";
  }

  lemma PrefixIsMalformed(c: Codec, lastId: string, payload: Payload, id: string, k: nat)
    requires GoodCodec(c) && id != "" && k < |RecordOf(c, lastId, payload, id)|
    ensures c.decode(RecordOf(c, lastId, payload, id)[..k]).Malformed?
            && NEWLINE !in RecordOf(c, lastId, payload, id)[..k]
  {
    assert Entry(id, lastId, payload).id != "";
  }

  lemma GoodSnoc(c: Codec, lines: seq<Text>, lastId: string, payload: Payload, id: string)
    requires GoodCodec(c) && id != "" && Good(c, lines) && Linked(c, lines) && lastId == LastId(c, lines)
    ensures var after := lines + [RecordOf(c, lastId, payload, id)];
            Good(c, after) && Linked(c, after) && LastId(c, after) == id
  {
    RecordIsGood(c, lastId, payload, id);
    hide GoodCodec, GoodLine, RecordOf, LastId;
    var record := RecordOf(c, lastId, payload, id);
    var after := lines + [record];
    assert after[..|lines|] == lines;
    forall i | 0 <= i < |after|
      ensures LinkedAt(c, after, i)
    {
      if i < |lines| {
        assert LinkedAt(c, lines, i) && after[..i] == lines[..i];
      }
    }
  }

  /** The file holds exactly these records, and the next one will be linked to the last of them. */
  ghost predicate Holds(c: Codec, header: Text, d: Option<Disk>, lines: seq<Text>) {
    && d.Some? && d.value.contents == Body([header] + lines) && d.value.lastId == LastId(c, lines)
    && Good(c, lines) && Linked(c, lines)
  }

  lemma AppendHolds(c: Codec, header: Text, d: Disk, lines: seq<Text>, payload: Payload, id: string)
    requires GoodCodec(c) && id != "" && Holds(c, header, Some(d), lines)
    ensures Holds(c, header, Some(AppendTo(c, d, payload, id)), lines + [RecordOf(c, LastId(c, lines), payload, id)])
  {
    hide GoodCodec, Body, RecordOf;
    var record := RecordOf(c, LastId(c, lines), payload, id);
    GoodSnoc(c, lines, LastId(c, lines), payload, id);
    assert [header] + (lines + [record]) == [header] + lines + [record];
    BodySnoc([header] + lines, record);
  }

  /** Resuming after a cut anywhere but between a record and its newline. */
  lemma CrashHolds(c: Codec, header: Text, d: Disk, lines: seq<Text>, payload: Payload, id: string, written: nat)
    requires GoodCodec(c) && GoodHeader(c, header) && id != "" && Holds(c, header, Some(d), lines)
    requires written != |RecordOf(c, LastId(c, lines), payload, id)|
    ensures var record := RecordOf(c, LastId(c, lines), payload, id);
            Holds(c, header, Resume(c, Torn(c, d, payload, id, written)),
                  if written > |record| then lines + [record] else lines)
  {
    var record := RecordOf(c, LastId(c, lines), payload, id);
    hide GoodCodec, Body, RecordOf, LoadOf, Trimmed, GoodHeader, LastId, Replay, Good, Linked;
    var body := Body([header] + lines);
    if written > |record| {
      AppendHolds(c, header, d, lines, payload, id);
      var after := lines + [record];
      assert (record + [NEWLINE])[..|record| + 1] == record + [NEWLINE];
      assert body + (record + [NEWLINE]) == body + record + [NEWLINE];
      ResumeWhole(c, header, after, Torn(c, d, payload, id, written));
    } else {
      var tail := (record + [NEWLINE])[..written];
      assert tail == record[..written];
      PrefixIsMalformed(c, LastId(c, lines), payload, id, written);
      LoadFinds(c, header, lines, tail);
      TrimRemovesTear(c, header, lines, tail);
      ReplayLastId(c, lines);
    }
  }

  lemma ResumeWhole(c: Codec, header: Text, lines: seq<Text>, contents: Text)
    requires GoodHeader(c, header) && Good(c, lines) && Linked(c, lines) && contents == Body([header] + lines)
    ensures Resume(c, contents) == Some(Disk(contents, LastId(c, lines)))
  {
    hide Body, LoadOf, Trimmed, Replay, GoodHeader, Good, LastId;
    assert Body([header] + lines) + [] == contents;
    LoadFinds(c, header, lines, []);
    TrimRemovesTear(c, header, lines, []);
    ReplayLastId(c, lines);
  }

  ghost predicate GoodOps(c: Codec, ops: seq<Op>) {
    forall i :: 0 <= i < |ops| ==> GoodOp(c, ops, i)
  }

  /** Identifiers are not empty, and no write stops exactly between the record and its newline. */
  ghost predicate GoodOp(c: Codec, ops: seq<Op>, i: nat)
    requires i < |ops|
  {
    && ops[i].id != ""
    && (ops[i].Crash? ==> ops[i].written != |RecordOf(c, LastId(c, Written(c, ops[..i])), ops[i].payload, ops[i].id)|)
  }

  lemma {:induction false} RunHolds(c: Codec, header: Text, ops: seq<Op>)
    requires GoodCodec(c) && GoodHeader(c, header) && GoodOps(c, ops)
    ensures Holds(c, header, ExecuteAll(c, header, ops), Written(c, ops))
  {
    hide GoodCodec, GoodHeader, Body, RecordOf, LastId, Resume, Torn, AppendTo;
    if ops == [] {
      EmptyJournal(c, header);
    } else {
      var front, op := ops[..|ops| - 1], ops[|ops| - 1];
      GoodOpsFront(c, ops);
      RunHolds(c, header, front);
      assert GoodOp(c, ops, |ops| - 1);
      var d := ExecuteAll(c, header, front).value;
      match op {
        case Append(payload, id) => AppendHolds(c, header, d, Written(c, front), payload, id);
        case Crash(payload, id, written) => CrashHolds(c, header, d, Written(c, front), payload, id, written);
      }
    }
  }

  lemma GoodOpsFront(c: Codec, ops: seq<Op>)
    requires GoodOps(c, ops) && ops != []
    ensures GoodOps(c, ops[..|ops| - 1])
  {
    hide RecordOf, LastId, Written;
    var front := ops[..|ops| - 1];
    forall i | 0 <= i < |front|
      ensures GoodOp(c, front, i)
    {
      assert GoodOp(c, ops, i) && front[..i] == ops[..i];
    }
  }

  lemma EmptyJournal(c: Codec, header: Text)
    ensures Holds(c, header, Some(Disk(header + [NEWLINE], "")), [])
  {
    BodySnoc([], header);
    assert [] + [header] == [header] + [] && [] + header == header;
  }

  /** After any appends and crashes, loading gives the replay of exactly the records written in full, resuming goes on
      from there, and every record's parent is the one before it, across all resumes. */
  lemma JournalIsFaithful(c: Codec, header: Text, ops: seq<Op>)
    requires GoodCodec(c) && GoodHeader(c, header) && GoodOps(c, ops)
    ensures ExecuteAll(c, header, ops).Some?
    ensures var lines, contents := Written(c, ops), ExecuteAll(c, header, ops).value.contents;
            && LoadOf(c, contents) == Success(Replay(c, lines))
            && Resume(c, contents) == ExecuteAll(c, header, ops)
            && Good(c, lines) && Linked(c, lines)
  {
    hide *;
    RunHolds(c, header, ops);
    HoldsMeans(c, header, ExecuteAll(c, header, ops), Written(c, ops));
  }

  lemma HoldsMeans(c: Codec, header: Text, d: Option<Disk>, lines: seq<Text>)
    requires GoodHeader(c, header) && Holds(c, header, d, lines)
    ensures d.Some? && LoadOf(c, d.value.contents) == Success(Replay(c, lines)) && Resume(c, d.value.contents) == d
    ensures Good(c, lines) && Linked(c, lines)
  {
    hide Body, LoadOf, Trimmed, Replay, GoodHeader, LastId;
    var contents := d.value.contents;
    assert Body([header] + lines) + [] == contents;
    LoadFinds(c, header, lines, []);
    ResumeWhole(c, header, lines, contents);
  }

  /** The one bad cut: after it the next record lands on the same line, and loading loses both. The journal is right
      after a crash, a resume and one more append exactly when the cut was elsewhere. */
  lemma TornExactly(c: Codec, header: Text, d: Disk, lines: seq<Text>, a: Payload, aId: string, b: Payload,
                    bId: string, written: nat)
    requires GoodCodec(c) && GoodHeader(c, header) && Holds(c, header, Some(d), lines)
    requires aId != "" && bId != "" && bId != LastId(c, lines)
    requires forall e: Entry, f: Entry :: c.decode(c.encode(e) + c.encode(f)).Malformed?
    ensures var record := RecordOf(c, LastId(c, lines), a, aId);
            var resumed := Resume(c, Torn(c, d, a, aId, written));
            var kept := if written >= |record| then lines + [record] else lines;
            && resumed.Some?
            && (LoadOf(c, AppendTo(c, resumed.value, b, bId).contents) ==
                Success(Replay(c, kept + [RecordOf(c, LastId(c, kept), b, bId)]))
                <==> written != |record|)
  {
    hide GoodCodec, GoodHeader, Body, LastId, LoadOf, Trimmed, Replay, Good, Linked;
    var record := RecordOf(c, LastId(c, lines), a, aId);
    if written != |record| {
      hide *;
      CrashHolds(c, header, d, lines, a, aId, written);
      ResumedThenAppended(c, header, Resume(c, Torn(c, d, a, aId, written)),
                          if written >= |record| then lines + [record] else lines, b, bId);
    } else {
      BadCut(c, header, d, lines, a, aId, b, bId);
    }
  }

  lemma ResumedThenAppended(c: Codec, header: Text, d: Option<Disk>, lines: seq<Text>, b: Payload, bId: string)
    requires GoodCodec(c) && GoodHeader(c, header) && Holds(c, header, d, lines) && bId != ""
    ensures d.Some?
    ensures LoadOf(c, AppendTo(c, d.value, b, bId).contents) ==
            Success(Replay(c, lines + [RecordOf(c, LastId(c, lines), b, bId)]))
  {
    hide GoodCodec, GoodHeader, Body, LastId, LoadOf, Trimmed, Replay, Good, Linked, RecordOf, AppendTo;
    AppendHolds(c, header, d.value, lines, b, bId);
    HoldsMeans(c, header, Some(AppendTo(c, d.value, b, bId)), lines + [RecordOf(c, LastId(c, lines), b, bId)]);
  }

  lemma BadCut(c: Codec, header: Text, d: Disk, lines: seq<Text>, a: Payload, aId: string, b: Payload, bId: string)
    requires GoodCodec(c) && GoodHeader(c, header) && Holds(c, header, Some(d), lines)
    requires aId != "" && bId != "" && bId != LastId(c, lines)
    requires forall e: Entry, f: Entry :: c.decode(c.encode(e) + c.encode(f)).Malformed?
    ensures var record := RecordOf(c, LastId(c, lines), a, aId);
            var resumed := Resume(c, Torn(c, d, a, aId, |record|));
            && resumed.Some?
            && LoadOf(c, AppendTo(c, resumed.value, b, bId).contents) == Success(Replay(c, lines))
            && Replay(c, lines) != Replay(c, lines + [record] + [RecordOf(c, LastId(c, lines + [record]), b, bId)])
  {
    hide *;
    HoldsAre(c, header, d, lines);
    var record := RecordOf(c, LastId(c, lines), a, aId);
    GoodSnoc(c, lines, LastId(c, lines), a, aId);
    var second := RecordOf(c, aId, b, bId);
    RecordIsGood(c, LastId(c, lines), a, aId);
    RecordIsGood(c, aId, b, bId);
    ResumeUnterminated(c, header, d, lines, a, aId);
    MergedIsMalformed(c, LastId(c, lines), a, aId, b, bId);
    MergedAppend(c, Body([header] + lines), record, aId, b, bId);
    LoadMerged(c, header, lines, record + second);
    GoodSnoc(c, lines + [record], aId, b, bId);
    ReplayLastId(c, lines);
    ReplayLastId(c, lines + [record] + [second]);
  }

  lemma HoldsAre(c: Codec, header: Text, d: Disk, lines: seq<Text>)
    requires Holds(c, header, Some(d), lines)
    ensures d == Disk(Body([header] + lines), LastId(c, lines)) && Good(c, lines) && Linked(c, lines)
  {
  }

  lemma MergedIsMalformed(c: Codec, lastId: string, a: Payload, aId: string, b: Payload, bId: string)
    requires forall e: Entry, f: Entry :: c.decode(c.encode(e) + c.encode(f)).Malformed?
    ensures c.decode(RecordOf(c, lastId, a, aId) + RecordOf(c, aId, b, bId)).Malformed?
  {
  }

  lemma MergedAppend(c: Codec, body: Text, record: Text, aId: string, b: Payload, bId: string)
    ensures AppendTo(c, Disk(body + record, aId), b, bId).contents ==
            body + (record + RecordOf(c, aId, b, bId)) + [NEWLINE]
  {
    hide RecordOf;
  }

  /** A record that lacks only its newline is loaded, and left without it. */
  lemma ResumeUnterminated(c: Codec, header: Text, d: Disk, lines: seq<Text>, a: Payload, aId: string)
    requires GoodCodec(c) && GoodHeader(c, header) && Holds(c, header, Some(d), lines) && aId != ""
    ensures var record := RecordOf(c, LastId(c, lines), a, aId);
            Resume(c, Torn(c, d, a, aId, |record|)) == Some(Disk(Body([header] + lines) + record, aId))
  {
    hide GoodCodec, GoodHeader, Body, LoadOf, Trimmed, Replay, RecordOf, LastId, GoodLine, Good, Linked;
    var record := RecordOf(c, LastId(c, lines), a, aId);
    RecordIsGood(c, LastId(c, lines), a, aId);
    assert (record + [NEWLINE])[..|record|] == record;
    LoadFinds(c, header, lines, record);
    TrimRemovesTear(c, header, lines, record);
    GoodSnoc(c, lines, LastId(c, lines), a, aId);
    ReplayLastId(c, lines + [record]);
  }

  /** A last line that is no record is passed over even with its newline. */
  lemma LoadMerged(c: Codec, header: Text, good: seq<Text>, line: Text)
    requires GoodHeader(c, header) && Good(c, good) && NEWLINE !in line && line != [] && c.decode(line).Malformed?
    ensures LoadOf(c, Body([header] + good) + line + [NEWLINE]) == Success(Replay(c, good))
  {
    hide Split, Body, Replay, Good, OneLiners;
    var lines := [header] + good + [line];
    GoodAreOneLiners(c, header, good, line);
    BodySnoc([header] + good, line);
    SplitBody(lines, []);
    var all := lines + [[]];
    assert Body(lines) + [] == Body([header] + good) + line + [NEWLINE];
    assert all[0] == header && all[|good| + 1] == line && forall i :: 0 <= i < |good| ==> all[i + 1] == good[i];
    ScanGood(c, all, good, |good| + 1, |good|);
    assert good[..|good|] == good;
  }

  lemma GoodAreOneLiners(c: Codec, header: Text, good: seq<Text>, line: Text)
    requires GoodHeader(c, header) && Good(c, good) && NEWLINE !in line
    ensures OneLiners([header] + good + [line])
  {
    var lines := [header] + good + [line];
    forall i | 0 <= i < |lines|
      ensures NEWLINE !in lines[i]
    {
      assert 0 < i <= |good| ==> GoodLine(c, good[i - 1]);
    }
  }

  // ----- What a journal says -----

  /** The operation wrote its record in full, newline and all. */
  predicate IsWhole(c: Codec, ops: seq<Op>, i: nat)
    requires i < |ops|
  {
    ops[i].Append? || ops[i].written > |RecordOf(c, LastId(c, Written(c, ops[..i])), ops[i].payload, ops[i].id)|
  }

  predicate SavesMessage(c: Codec, ops: seq<Op>, i: nat) {
    i < |ops| && IsWhole(c, ops, i) && ops[i].payload.MessagePayload?
  }

  predicate SavesModel(c: Codec, ops: seq<Op>, i: nat) {
    i < |ops| && IsWhole(c, ops, i) && ops[i].payload.ModelChange?
  }

  predicate SavesCompaction(c: Codec, ops: seq<Op>, i: nat) {
    i < |ops| && IsWhole(c, ops, i) && ops[i].payload.Compaction?
  }

  /** `at` lists the messages saved from `from` on, all of them and in order, and `messages` are those. */
  ghost predicate AreSaved(c: Codec, ops: seq<Op>, from: nat, at: seq<nat>, messages: seq<Kept>) {
    && |at| == |messages|
    && (forall j, k :: 0 <= j < k < |at| ==> at[j] < at[k])
    && (forall i :: i in at <==> from <= i && SavesMessage(c, ops, i))
    && (forall k :: 0 <= k < |at| && at[k] < |ops| && ops[at[k]].payload.MessagePayload? ==>
          messages[k] == Kept(ops[at[k]].id, ops[at[k]].payload.message))
  }

  lemma WholeInFront(c: Codec, ops: seq<Op>, n: nat)
    requires n <= |ops|
    ensures forall i :: 0 <= i < n ==> IsWhole(c, ops[..n], i) == IsWhole(c, ops, i)
  {
    forall i | 0 <= i < n
      ensures IsWhole(c, ops[..n], i) == IsWhole(c, ops, i)
    {
      assert ops[..n][..i] == ops[..i];
    }
  }

  /** What one more operation adds to the replay. */
  lemma ReplayNext(c: Codec, ops: seq<Op>)
    requires GoodCodec(c) && ops != [] && ops[|ops| - 1].id != ""
    ensures var n := |ops| - 1;
            var before := Written(c, ops[..n]);
            Replay(c, Written(c, ops)) ==
            if IsWhole(c, ops, n) then Absorb(Replay(c, before), Entry(ops[n].id, LastId(c, before), ops[n].payload))
            else Replay(c, before)
  {
    hide GoodCodec, LastId, RecordOf, Absorb;
    var n := |ops| - 1;
    var before := Written(c, ops[..n]);
    var record := RecordOf(c, LastId(c, before), ops[n].payload, ops[n].id);
    RecordIsGood(c, LastId(c, before), ops[n].payload, ops[n].id);
    assert (before + [record])[..|before|] == before;
  }

  /** Where nothing is compacted, the saved messages are added one after the other. */
  lemma {:induction false} MessagesAdded(c: Codec, ops: seq<Op>, from: nat) returns (at: seq<nat>, added: seq<Kept>)
    requires GoodCodec(c) && GoodOps(c, ops) && from <= |ops|
    requires forall i :: from <= i < |ops| ==> !SavesCompaction(c, ops, i)
    ensures Replay(c, Written(c, ops)).messages == Replay(c, Written(c, ops[..from])).messages + added
    ensures AreSaved(c, ops, from, at, added)
    decreases |ops|
  {
    hide GoodCodec, Written, Replay, IsWhole, GoodOp;
    if |ops| == from {
      at, added := [], [];
      var all := Replay(c, Written(c, ops)).messages;
      assert ops[..from] == ops && all + [] == all;
    } else {
      var n := |ops| - 1;
      var front := ops[..n];
      GoodOpsFront(c, ops);
      assert GoodOp(c, ops, n);
      IdIsThere(c, ops, n);
      WholeInFront(c, ops, n);
      assert forall i :: from <= i < n ==> SavesCompaction(c, front, i) == SavesCompaction(c, ops, i);
      var before, had := MessagesAdded(c, front, from);
      assert front[..from] == ops[..from];
      ReplayNext(c, ops);
      assert !SavesCompaction(c, ops, n);
      if SavesMessage(c, ops, n) {
        at, added := before + [n], had + [Kept(ops[n].id, ops[n].payload.message)];
        assert Replay(c, Written(c, front)).messages + [Kept(ops[n].id, ops[n].payload.message)] ==
               Replay(c, Written(c, ops[..from])).messages + added;
      } else {
        at, added := before, had;
      }
      SavedNext(c, ops, from, before, had, at, added);
    }
  }

  lemma IdIsThere(c: Codec, ops: seq<Op>, i: nat)
    requires i < |ops| && GoodOp(c, ops, i)
    ensures ops[i].id != ""
  {
  }

  lemma SavedNext(c: Codec, ops: seq<Op>, from: nat, before: seq<nat>, had: seq<Kept>, at: seq<nat>, added: seq<Kept>)
    requires from < |ops| && AreSaved(c, ops[..|ops| - 1], from, before, had)
    requires var n := |ops| - 1;
             if SavesMessage(c, ops, n)
             then at == before + [n] && added == had + [Kept(ops[n].id, ops[n].payload.message)]
             else at == before && added == had
    ensures AreSaved(c, ops, from, at, added)
  {
    hide IsWhole;
    var n := |ops| - 1;
    WholeInFront(c, ops, n);
    assert forall i :: SavesMessage(c, ops, i) <==> SavesMessage(c, ops[..n], i) || (i == n && SavesMessage(c, ops, n));
    assert forall i :: i in at <==> i in before || (i == n && SavesMessage(c, ops, n));
    forall k | 0 <= k < |before|
      ensures before[k] < n
    {
      assert before[k] in before;
    }
  }

  /** The model and role are those of the last saved change, the role "default" if it named none. */
  ghost predicate IsLastModel(c: Codec, ops: seq<Op>, model: string, role: string) {
    && (forall i: nat :: SavesModel(c, ops, i) && (forall j: nat :: SavesModel(c, ops, j) ==> j <= i) ==>
          model == ops[i].payload.model && role == if ops[i].payload.role == "" then "default" else ops[i].payload.role)
    && ((forall i: nat :: !SavesModel(c, ops, i)) ==> model == "" && role == "")
  }

  lemma {:induction false} ModelIsLast(c: Codec, ops: seq<Op>)
    requires GoodCodec(c) && GoodOps(c, ops)
    ensures IsLastModel(c, ops, Replay(c, Written(c, ops)).model, Replay(c, Written(c, ops)).role)
    ensures Replay(c, Written(c, ops)).diagnostics == 0
    decreases |ops|
  {
    hide GoodCodec, Written, IsWhole, GoodOp;
    if ops == [] {
      NothingWritten(c);
    } else {
      hide Replay;
      var n := |ops| - 1;
      GoodOpsFront(c, ops);
      assert GoodOp(c, ops, n);
      IdIsThere(c, ops, n);
      ModelIsLast(c, ops[..n]);
      ReplayNext(c, ops);
      var before, after := Replay(c, Written(c, ops[..n])), Replay(c, Written(c, ops));
      LastModelNext(c, ops, before.model, before.role, after.model, after.role);
    }
  }

  lemma LastModelNext(c: Codec, ops: seq<Op>, model: string, role: string, modelAfter: string, roleAfter: string)
    requires ops != [] && IsLastModel(c, ops[..|ops| - 1], model, role)
    requires var n := |ops| - 1;
             if SavesModel(c, ops, n)
             then modelAfter == ops[n].payload.model
                  && roleAfter == if ops[n].payload.role == "" then "default" else ops[n].payload.role
             else modelAfter == model && roleAfter == role
    ensures IsLastModel(c, ops, modelAfter, roleAfter)
  {
    hide IsWhole;
    var n := |ops| - 1;
    WholeInFront(c, ops, n);
    forall i: nat
      ensures SavesModel(c, ops, i) <==> SavesModel(c, ops[..n], i) || (i == n && SavesModel(c, ops, n))
    {
      assert i < n ==> ops[..n][i] == ops[i];
    }
    forall i: nat | SavesModel(c, ops, i) && (forall j: nat :: SavesModel(c, ops, j) ==> j <= i)
      ensures modelAfter == ops[i].payload.model
              && roleAfter == if ops[i].payload.role == "" then "default" else ops[i].payload.role
    {
      if i < n {
        assert SavesModel(c, ops[..n], i) && ops[..n][i] == ops[i];
        assert forall j: nat :: SavesModel(c, ops[..n], j) ==> j <= i;
      }
    }
  }

  lemma NothingWritten(c: Codec)
    ensures Replay(c, Written(c, [])) == NOTHING
  {
  }

  /** What loading gives after appends and crashes none of which saved a compaction: exactly the saved messages, in
      order, under the model and role of the last saved change. */
  lemma LoadsWhatWasSaved(c: Codec, header: Text, ops: seq<Op>) returns (at: seq<nat>)
    requires GoodCodec(c) && GoodHeader(c, header) && GoodOps(c, ops)
    requires forall i :: !SavesCompaction(c, ops, i)
    ensures ExecuteAll(c, header, ops).Some? && LoadOf(c, ExecuteAll(c, header, ops).value.contents).Success?
    ensures var loaded := LoadOf(c, ExecuteAll(c, header, ops).value.contents).loaded;
            AreSaved(c, ops, 0, at, loaded.messages) && IsLastModel(c, ops, loaded.model, loaded.role)
            && loaded.diagnostics == 0
  {
    hide GoodCodec, GoodHeader, GoodOps, ExecuteAll, LoadOf, Written, Replay, SavesCompaction, AreSaved, IsLastModel,
         Resume, Good, Linked;
    JournalIsFaithful(c, header, ops);
    ModelIsLast(c, ops);
    var added: seq<Kept>;
    at, added := MessagesAdded(c, ops, 0);
    assert ops[..0] == [];
    NothingWritten(c);
    assert [] + added == added;
  }

  /** The messages from the first one with this identifier on, or all of them when none has it. */
  ghost predicate IsKept(messages: seq<Kept>, id: string, kept: seq<Kept>) {
    if exists k :: 0 <= k < |messages| && messages[k].id == id
    then exists k :: 0 <= k < |messages| && messages[k].id == id && kept == messages[k..]
                     && forall j :: 0 <= j < k ==> messages[j].id != id
    else kept == messages
  }

  /** The summary comes first: in front of the text of a first user message, else as a message of its own. */
  ghost predicate IsSummarized(summary: nat, kept: seq<Kept>, result: seq<Kept>) {
    if kept != [] && kept[0].message.User?
    then |result| == |kept| && result[1..] == kept[1..] && result[0].id == kept[0].id
         && result[0].message == User([summary] + kept[0].message.blocks)
    else |result| == |kept| + 1 && result[1..] == kept && result[0].message == User([summary]) && result[0].id == ""
  }

  lemma CompactionMeans(messages: seq<Kept>, summary: nat, id: string) returns (kept: seq<Kept>)
    ensures IsKept(messages, id, kept) && IsSummarized(summary, kept, ApplyCompaction(messages, summary, id))
  {
    hide IndexOfId, IsKept, IsSummarized;
    var k := FirstWithId(messages, id);
    kept := if k < |messages| then messages[k..] else messages;
    KeptFrom(messages, id, k, kept);
    SummaryInFront(summary, kept);
  }

  lemma KeptFrom(messages: seq<Kept>, id: string, k: nat, kept: seq<Kept>)
    requires k <= |messages| && (k < |messages| ==> messages[k].id == id)
    requires forall j :: 0 <= j < k ==> messages[j].id != id
    requires kept == if k < |messages| then messages[k..] else messages
    ensures IsKept(messages, id, kept)
  {
  }

  lemma SummaryInFront(summary: nat, kept: seq<Kept>)
    ensures IsSummarized(summary, kept,
                         if kept != [] && kept[0].message.User?
                         then [Kept(kept[0].id, User([summary] + kept[0].message.blocks))] + kept[1..]
                         else [Kept("", User([summary]))] + kept)
  {
  }

  lemma FirstWithId(messages: seq<Kept>, id: string) returns (k: nat)
    ensures k == IndexOfId(messages, id, 0) <= |messages| && (k < |messages| ==> messages[k].id == id)
    ensures forall j :: 0 <= j < k ==> messages[j].id != id
  {
    k := 0;
    while k < |messages| && messages[k].id != id
      invariant k <= |messages| && IndexOfId(messages, id, 0) == IndexOfId(messages, id, k)
      invariant forall j :: 0 <= j < k ==> messages[j].id != id
    {
      k := k + 1;
    }
  }

  /** What loading gives after a saved compaction: of what loading gave before it, the messages kept, the summary in
      front, and then exactly the messages saved since. */
  lemma LoadsTheCompacted(c: Codec, header: Text, ops: seq<Op>, n: nat)
    returns (kept: seq<Kept>, summarized: seq<Kept>, at: seq<nat>, added: seq<Kept>)
    requires GoodCodec(c) && GoodHeader(c, header) && GoodOps(c, ops)
    requires SavesCompaction(c, ops, n) && forall i :: n < i ==> !SavesCompaction(c, ops, i)
    ensures ExecuteAll(c, header, ops).Some? && LoadOf(c, ExecuteAll(c, header, ops).value.contents).Success?
    ensures ExecuteAll(c, header, ops[..n]).Some? && LoadOf(c, ExecuteAll(c, header, ops[..n]).value.contents).Success?
    ensures var before := LoadOf(c, ExecuteAll(c, header, ops[..n]).value.contents).loaded;
            var loaded := LoadOf(c, ExecuteAll(c, header, ops).value.contents).loaded;
            && IsKept(before.messages, ops[n].payload.firstKeptId, kept)
            && IsSummarized(ops[n].payload.summary, kept, summarized)
            && AreSaved(c, ops, n + 1, at, added)
            && loaded.messages == summarized + added
            && IsLastModel(c, ops, loaded.model, loaded.role)
  {
    hide GoodCodec, GoodHeader, GoodOps, ExecuteAll, LoadOf, Written, Replay, AreSaved, IsLastModel, Resume, Good,
         Linked, IsWhole, IsKept, IsSummarized, ApplyCompaction;
    JournalIsFaithful(c, header, ops);
    GoodOpsTo(c, ops, n);
    JournalIsFaithful(c, header, ops[..n]);
    ModelIsLast(c, ops);
    at, added := MessagesAdded(c, ops, n + 1);
    GoodOpsTo(c, ops, n + 1);
    WholeInFront(c, ops, n + 1);
    ReplayNext(c, ops[..n + 1]);
    assert ops[..n + 1][..n] == ops[..n];
    var before := Replay(c, Written(c, ops[..n])).messages;
    kept := CompactionMeans(before, ops[n].payload.summary, ops[n].payload.firstKeptId);
    summarized := ApplyCompaction(before, ops[n].payload.summary, ops[n].payload.firstKeptId);
  }

  lemma GoodOpsTo(c: Codec, ops: seq<Op>, n: nat)
    requires GoodOps(c, ops) && n <= |ops|
    ensures GoodOps(c, ops[..n]) && forall i :: 0 <= i < n ==> ops[i].id != ""
  {
    hide RecordOf, LastId, Written;
    forall i | 0 <= i < n
      ensures GoodOp(c, ops[..n], i) && ops[i].id != ""
    {
      assert GoodOp(c, ops, i) && ops[..n][..i] == ops[..i];
    }
  }

  // ----- Short writes on a store that stays open -----

  /** One append on an open store; the file system takes `written` bytes of the record and its newline. */
  datatype Write = Write(payload: Payload, id: string, written: nat)

  /** The whole record was written, newline and all. */
  predicate IsFull(c: Codec, d: Disk, w: Write) {
    w.written > |RecordOf(c, d.lastId, w.payload, w.id)|
  }

  /** A short write leaves its bytes in the file and the parent as it was. */
  function WriteOne(c: Codec, d: Disk, w: Write): Disk {
    if IsFull(c, d, w) then AppendTo(c, d, w.payload, w.id) else Disk(Torn(c, d, w.payload, w.id, w.written), d.lastId)
  }

  function WriteAll(c: Codec, d: Disk, ws: seq<Write>): Disk {
    if ws == [] then d else WriteOne(c, WriteAll(c, d, ws[..|ws| - 1]), ws[|ws| - 1])
  }

  /** Bytes that ruin a record written right after them. */
  ghost predicate Spoils(c: Codec, t: Text) {
    && t != [] && NEWLINE !in t
    && forall e: Entry {:trigger c.encode(e)} :: e.id != "" ==> c.decode(t + c.encode(e)).Malformed?
  }

  /** The beginning of a record ruins the next one, and what ruins a record goes on to do so, whatever part of a record
      follows it. */
  ghost predicate NoGlue(c: Codec) {
    forall e: Entry, k: nat :: BeginningSpoils(c, e, k) && StaysSpoilt(c, e, k)
  }

  ghost predicate BeginningSpoils(c: Codec, e: Entry, k: nat) {
    e.id != "" && 0 < k <= |c.encode(e)| ==> Spoils(c, c.encode(e)[..k])
  }

  ghost predicate StaysSpoilt(c: Codec, e: Entry, k: nat) {
    e.id != "" && k <= |c.encode(e)| ==> forall t :: Spoils(c, t) ==> Spoils(c, t + c.encode(e)[..k])
  }

  /** What the writes so far have come to: whole records only; an unfinished last line; a ruined last line; or a ruined
      line with more after it. */
  datatype Condition = Clean | Unfinished | Ruined | Lost

  function ConditionOf(c: Codec, d: Disk, ws: seq<Write>): Condition {
    if ws == [] then Clean
    else
      var front, w := ws[..|ws| - 1], ws[|ws| - 1];
      match ConditionOf(c, d, front)
      case Clean => if IsFull(c, WriteAll(c, d, front), w) || w.written == 0 then Clean else Unfinished
      case Unfinished => if IsFull(c, WriteAll(c, d, front), w) then Ruined else Unfinished
      case Ruined => if w.written == 0 then Ruined else Lost
      case Lost => Lost
  }

  ghost predicate InCondition(c: Codec, header: Text, contents: Text, good: seq<Text>, end: Text,
                              condition: Condition) {
    && Good(c, good) && contents == Body([header] + good) + end
    && match condition
       case Clean => end == []
       case Unfinished => Spoils(c, end)
       case Ruined => exists t :: IsRuined(c, t) && end == t + [NEWLINE]
       case Lost => exists t, rest :: IsRuined(c, t) && rest != [] && end == t + [NEWLINE] + rest
  }

  ghost predicate IsRuined(c: Codec, t: Text) {
    NEWLINE !in t && t != [] && c.decode(t).Malformed?
  }

  /** A write and the condition it leaves. */
  lemma WriteKeeps(c: Codec, header: Text, d: Disk, good: seq<Text>, end: Text, before: Condition, w: Write,
                   after: Condition)
    returns (goodAfter: seq<Text>, endAfter: Text)
    requires GoodCodec(c) && NoGlue(c) && w.id != "" && InCondition(c, header, d.contents, good, end, before)
    requires after == match before
                      case Clean => if IsFull(c, d, w) || w.written == 0 then Clean else Unfinished
                      case Unfinished => if IsFull(c, d, w) then Ruined else Unfinished
                      case Ruined => if w.written == 0 then Ruined else Lost
                      case Lost => Lost
    ensures InCondition(c, header, WriteOne(c, d, w).contents, goodAfter, endAfter, after)
    ensures goodAfter == if before.Clean? && IsFull(c, d, w) then good + [RecordOf(c, d.lastId, w.payload, w.id)]
            else good
  {
    hide Body, NoGlue, GoodCodec, Spoils, WriteOne, Good, IsRuined;
    var e, record := Entry(w.id, d.lastId, w.payload), RecordOf(c, d.lastId, w.payload, w.id);
    var more := if IsFull(c, d, w) then record + [NEWLINE] else record[..w.written];
    WrittenBytes(c, d, w);
    assert WriteOne(c, d, w).contents == Body([header] + good) + (end + more);
    goodAfter, endAfter := good, end + more;
    match before {
      case Clean =>
        assert end + more == more;
        if IsFull(c, d, w) {
          GoodRecord(c, good, d.lastId, w.payload, w.id);
          BodySnoc([header] + good, record);
          assert [header] + (good + [record]) == [header] + good + [record];
          assert Body([header] + good) + more == Body([header] + (good + [record])) + [];
          goodAfter, endAfter := good + [record], [];
        } else if w.written > 0 {
          SpoiltBeginning(c, e, w.written);
        }
      case Unfinished =>
        if IsFull(c, d, w) {
          SpoiltRecord(c, end, e);
          assert end + more == (end + record) + [NEWLINE];
        } else {
          SpoiltMore(c, end, e, w.written);
        }
      case Ruined =>
        var t :| IsRuined(c, t) && end == t + [NEWLINE];
        if w.written == 0 {
          assert end + more == end;
        }
      case Lost =>
        var t, rest :| IsRuined(c, t) && rest != [] && end == t + [NEWLINE] + rest;
        assert end + more == t + [NEWLINE] + (rest + more);
    }
  }

  lemma WrittenBytes(c: Codec, d: Disk, w: Write)
    ensures var record := RecordOf(c, d.lastId, w.payload, w.id);
            WriteOne(c, d, w).contents == d.contents + if IsFull(c, d, w) then record + [NEWLINE]
            else record[..w.written]
    ensures !IsFull(c, d, w) ==> w.written <= |RecordOf(c, d.lastId, w.payload, w.id)|
  {
    var record := RecordOf(c, d.lastId, w.payload, w.id);
    if IsFull(c, d, w) {
      assert d.contents + record + [NEWLINE] == d.contents + (record + [NEWLINE]);
    } else {
      assert (record + [NEWLINE])[..w.written] == record[..w.written];
    }
  }

  lemma GoodRecord(c: Codec, good: seq<Text>, lastId: string, payload: Payload, id: string)
    requires GoodCodec(c) && id != "" && Good(c, good)
    ensures Good(c, good + [RecordOf(c, lastId, payload, id)])
  {
    hide RecordOf, GoodLine;
    RecordIsGood(c, lastId, payload, id);
  }

  lemma SpoiltBeginning(c: Codec, e: Entry, k: nat)
    requires NoGlue(c) && e.id != "" && 0 < k <= |c.encode(e)|
    ensures Spoils(c, c.encode(e)[..k])
  {
    assert BeginningSpoils(c, e, k);
  }

  lemma SpoiltMore(c: Codec, t: Text, e: Entry, k: nat)
    requires NoGlue(c) && Spoils(c, t) && e.id != "" && k <= |c.encode(e)|
    ensures Spoils(c, t + c.encode(e)[..k])
  {
    hide Spoils;
    assert StaysSpoilt(c, e, k);
  }

  lemma SpoiltRecord(c: Codec, t: Text, e: Entry)
    requires GoodCodec(c) && Spoils(c, t) && e.id != ""
    ensures IsRuined(c, t + c.encode(e))
  {
    assert NEWLINE !in c.encode(e);
  }

  /** A journal in each condition, loaded. */
  lemma ConditionLoads(c: Codec, header: Text, contents: Text, good: seq<Text>, end: Text, condition: Condition)
    requires GoodHeader(c, header) && InCondition(c, header, contents, good, end, condition)
    ensures LoadOf(c, contents).Success? <==> !condition.Lost?
    ensures condition.Clean? || condition.Ruined? ==> LoadOf(c, contents) == Success(Replay(c, good))
  {
    hide LoadOf, Body, Replay, Good, GoodHeader;
    match condition {
      case Clean => LoadFinds(c, header, good, []);
      case Unfinished => LoadFinds(c, header, good, end);
      case Ruined =>
        var t :| IsRuined(c, t) && end == t + [NEWLINE];
        LoadMerged(c, header, good, t);
        assert Body([header] + good) + t + [NEWLINE] == contents;
      case Lost =>
        var t, rest :| IsRuined(c, t) && rest != [] && end == t + [NEWLINE] + rest;
        LoadFails(c, header, good, t, rest);
        assert Body([header] + good) + t + [NEWLINE] + rest == contents;
    }
  }

  /** A line in the middle that is no record makes loading fail there. */
  lemma LoadFails(c: Codec, header: Text, good: seq<Text>, t: Text, rest: Text)
    requires GoodHeader(c, header) && Good(c, good) && IsRuined(c, t) && rest != []
    ensures LoadOf(c, Body([header] + good) + t + [NEWLINE] + rest) == BadRecord(|good| + 2)
  {
    hide Split, Body, Replay, Good, IsRuined;
    var lines := [header] + good + [t] + Split(rest);
    SplitRuined(c, header, good, t, rest);
    RestHasContent(rest);
    assert lines[|lines| - 1] == Split(rest)[|Split(rest)| - 1];
    assert lines[0] == header && lines[|good| + 1] == t;
    assert forall i :: 0 <= i < |good| ==> lines[i + 1] == good[i];
    ScanRuined(c, lines, good, t, LastContent(lines));
  }

  lemma ScanRuined(c: Codec, lines: seq<Text>, good: seq<Text>, t: Text, last: nat)
    requires Good(c, good) && IsRuined(c, t) && |good| + 1 < last < |lines| && lines[|good| + 1] == t
    requires forall i :: 0 <= i < |good| ==> lines[i + 1] == good[i]
    ensures Scan(c, lines, 1, last, NOTHING) == BadRecord(|good| + 2)
  {
    hide Good, Replay;
    ScanGood(c, lines, good, last, |good|);
  }

  lemma SplitRuined(c: Codec, header: Text, good: seq<Text>, t: Text, rest: Text)
    requires GoodHeader(c, header) && Good(c, good) && IsRuined(c, t)
    ensures Split(Body([header] + good) + t + [NEWLINE] + rest) == [header] + good + [t] + Split(rest)
  {
    hide Split, Body, Good, OneLiners;
    var lines := [header] + good + [t];
    GoodAreOneLiners(c, header, good, t);
    BodySnoc([header] + good, t);
    SplitLines(lines, rest);
  }

  lemma RestHasContent(rest: Text)
    requires rest != []
    ensures |Split(rest)| > 0 && (|Split(rest)| == 1 ==> Split(rest)[0] != [])
  {
  }

  /** Appends on one open store, any of them short: the journal still loads if and only if nothing was written after the
      first record that followed an unfinished one on its line. */
  lemma {:induction false} ShortWritesKeep(c: Codec, header: Text, d: Disk, lines: seq<Text>, ws: seq<Write>)
    returns (good: seq<Text>, end: Text)
    requires GoodCodec(c) && NoGlue(c) && Good(c, lines) && d.contents == Body([header] + lines)
    requires forall i :: 0 <= i < |ws| ==> ws[i].id != ""
    ensures InCondition(c, header, WriteAll(c, d, ws).contents, good, end, ConditionOf(c, d, ws))
    ensures lines <= good
  {
    hide Body, NoGlue, GoodCodec;
    if ws == [] {
      good, end := lines, [];
      assert Body([header] + lines) + [] == Body([header] + lines);
    } else {
      hide InCondition;
      var front := ws[..|ws| - 1];
      good, end := ShortWritesKeep(c, header, d, lines, front);
      good, end := WriteKeeps(c, header, WriteAll(c, d, front), good, end, ConditionOf(c, d, front), ws[|ws| - 1],
                              ConditionOf(c, d, ws));
    }
  }

  lemma ShortWritesLoad(c: Codec, header: Text, d: Disk, lines: seq<Text>, ws: seq<Write>)
    requires GoodCodec(c) && GoodHeader(c, header) && NoGlue(c) && Good(c, lines)
             && d.contents == Body([header] + lines)
    requires forall i :: 0 <= i < |ws| ==> ws[i].id != ""
    ensures LoadOf(c, WriteAll(c, d, ws).contents).Success? <==> !LosesRecords(c, d, ws)
  {
    var good, end := ShortWritesKeep(c, header, d, lines, ws);
    hide InCondition, LosesRecords;
    ConditionLoads(c, header, WriteAll(c, d, ws).contents, good, end, ConditionOf(c, d, ws));
    LostExactly(c, d, ws);
  }

  /** A write was short but not empty, a later one was full, and some bytes came after that. */
  ghost predicate LosesRecords(c: Codec, d: Disk, ws: seq<Write>) {
    exists i, j, k :: 0 <= i < j < k < |ws| && IsShort(c, d, ws, i) && IsFullAt(c, d, ws, j) && ws[k].written > 0
  }

  predicate IsFullAt(c: Codec, d: Disk, ws: seq<Write>, i: nat)
    requires i < |ws|
  {
    IsFull(c, WriteAll(c, d, ws[..i]), ws[i])
  }

  predicate IsShort(c: Codec, d: Disk, ws: seq<Write>, i: nat)
    requires i < |ws|
  {
    !IsFullAt(c, d, ws, i) && ws[i].written > 0
  }

  ghost predicate HasShort(c: Codec, d: Disk, ws: seq<Write>) {
    exists i :: 0 <= i < |ws| && IsShort(c, d, ws, i)
  }

  ghost predicate HasRuin(c: Codec, d: Disk, ws: seq<Write>) {
    exists i, j :: 0 <= i < j < |ws| && IsShort(c, d, ws, i) && IsFullAt(c, d, ws, j)
  }

  lemma WritesBefore(c: Codec, d: Disk, ws: seq<Write>, i: nat)
    requires i < |ws| - 1
    ensures IsFullAt(c, d, ws, i) == IsFullAt(c, d, ws[..|ws| - 1], i)
    ensures IsShort(c, d, ws, i) == IsShort(c, d, ws[..|ws| - 1], i)
  {
    assert ws[..|ws| - 1][..i] == ws[..i];
  }

  /** What the last write adds to each of the three. */
  lemma HistorySnoc(c: Codec, d: Disk, ws: seq<Write>)
    requires ws != []
    ensures var front, n := ws[..|ws| - 1], |ws| - 1;
            && (HasShort(c, d, ws) <==> HasShort(c, d, front) || IsShort(c, d, ws, n))
            && (HasRuin(c, d, ws) <==> HasRuin(c, d, front) || (HasShort(c, d, front) && IsFullAt(c, d, ws, n)))
            && (LosesRecords(c, d, ws) <==> LosesRecords(c, d, front) || (HasRuin(c, d, front) && ws[n].written > 0))
  {
    hide IsFullAt, IsShort;
    var front, n := ws[..|ws| - 1], |ws| - 1;
    forall i | 0 <= i < n
      ensures IsFullAt(c, d, ws, i) == IsFullAt(c, d, front, i) && IsShort(c, d, ws, i) == IsShort(c, d, front, i)
    {
      WritesBefore(c, d, ws, i);
    }
  }

  lemma {:induction false} LostExactly(c: Codec, d: Disk, ws: seq<Write>)
    ensures ConditionOf(c, d, ws).Clean? <==> !HasShort(c, d, ws)
    ensures ConditionOf(c, d, ws).Ruined? || ConditionOf(c, d, ws).Lost? <==> HasRuin(c, d, ws)
    ensures ConditionOf(c, d, ws).Lost? <==> LosesRecords(c, d, ws)
  {
    if ws != [] {
      hide HasShort, HasRuin, LosesRecords, WriteAll;
      LostExactly(c, d, ws[..|ws| - 1]);
      HistorySnoc(c, d, ws);
    }
  }

  // ----- The program -----

  class Store {
    const codec: Codec
    var file: Text
    var open: bool
    var lastId: string

    function View(): Disk
      reads `file, `lastId
    {
      Disk(file, lastId)
    }

    /** A new journal: its header line. */
    constructor (codec: Codec, header: Text)
      ensures View() == Disk(header + [NEWLINE], "") && open && this.codec == codec
    {
      this.codec := codec;
      file, open, lastId := header + [NEWLINE], true, "";
    }

    constructor Reopen(codec: Codec, contents: Text, lastId: string)
      ensures View() == Disk(contents, lastId) && open && this.codec == codec
    {
      this.codec := codec;
      this.file, this.open, this.lastId := contents, true, lastId;
    }

    /** Writes one record; the file system takes `written` bytes of it. The parent moves on only after a full write. */
    method Append(payload: Payload, id: string, written: nat) returns (ok: bool)
      modifies `file, `lastId
      ensures ok <==> open && written > |RecordOf(codec, old(lastId), payload, id)|
      ensures ok ==> View() == AppendTo(codec, old(View()), payload, id)
      ensures !ok && open ==> View() == Disk(Torn(codec, old(View()), payload, id, written), old(lastId))
      ensures !open ==> View() == old(View())
      ensures open ==> View() == WriteOne(codec, old(View()), Write(payload, id, written))
    {
      if !open {
        return false;
      }
      var record := codec.encode(Entry(id, lastId, payload));
      var line := record + [NEWLINE];
      if written < |line| {
        file := file + line[..written];
        return false;
      }
      assert line[..|line|] == line && file + line == file + record + [NEWLINE];
      file := file + line;
      lastId := id;
      return true;
    }

    method Close()
      modifies `open
      ensures !open
    {
      open := false;
    }
  }

  method TrimMalformedFinalLine(c: Codec, contents: Text) returns (trimmed: Text)
    ensures trimmed == Trimmed(c, contents)
  {
    if |contents| == 0 {
      return contents;
    }
    var end := |contents|;
    if contents[end - 1] == NEWLINE {
      end := end - 1;
    }
    if end == 0 {
      return contents;
    }
    var start: nat := end;
    while start > 0 && contents[start - 1] != NEWLINE
      invariant start <= end && StartOfLine(contents, end) == StartOfLine(contents, start)
    {
      start := start - 1;
    }
    if c.decode(contents[start..end]).Malformed? {
      return contents[..start];
    }
    return contents;
  }

  /** Loads the journal and reopens it after its last whole record. */
  method OpenForResume(c: Codec, contents: Text) returns (store: Store?, loaded: LoadResult)
    ensures loaded == LoadOf(c, contents)
    ensures store == null <==> Resume(c, contents).None?
    ensures store != null ==>
            fresh(store) && store.open && store.codec == c && Some(store.View()) == Resume(c, contents)
  {
    loaded := Load(c, contents);
    store := null;
    if loaded.Success? {
      var trimmed := TrimMalformedFinalLine(c, contents);
      store := new Store.Reopen(c, trimmed, loaded.loaded.lastId);
    }
  }
}
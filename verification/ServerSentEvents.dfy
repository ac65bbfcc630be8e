/** Decoding a server-sent event stream that arrives in pieces. */
module ServerSentEvents {
  import opened Bytes
  import LineText

  const COLON: byte := 58
  const EVENT: Text := [101, 118, 101, 110, 116]
  const DATA: Text := [100, 97, 116, 97]

  datatype ServerSentEvent = ServerSentEvent(event: Text, data: Text, raw: seq<Text>)

  /** The event in progress. */
  datatype Decoder = Decoder(event: Text, data: seq<Text>, raw: seq<Text>)

  const IDLE := Decoder([], [], [])

  datatype Decoded = Decoded(state: Decoder, events: seq<ServerSentEvent>)

  function Flush(state: Decoder): Decoded {
    if state.event == [] && state.data == [] then Decoded(state, [])
    else Decoded(IDLE, [ServerSentEvent(state.event, LineText.Join(state.data), state.raw)])
  }

  /** The index of the first colon at or after `i`, or the length. */
  function ColonFrom(line: Text, i: nat): (k: nat)
    requires i <= |line|
    ensures i <= k <= |line| && (k < |line| ==> line[k] == COLON)
    ensures forall j :: i <= j < k ==> line[j] != COLON
    decreases |line| - i
  {
    if i == |line| || line[i] == COLON then i else ColonFrom(line, i + 1)
  }

  function FieldValue(line: Text): Text {
    var k := ColonFrom(line, 0);
    var value := if k < |line| then line[k + 1..] else [];
    if value != [] && value[0] == SPACE then value[1..] else value
  }

  /** One line: a blank one dispatches the event, a comment is only remembered, a field is stored. */
  function DecodeLine(state: Decoder, line: Text): Decoded {
    if line == [] then Flush(state)
    else
      var kept := state.(raw := state.raw + [line]);
      var name := line[..ColonFrom(line, 0)];
      if line[0] == COLON then Decoded(kept, [])
      else if name == EVENT then Decoded(kept.(event := FieldValue(line)), [])
      else if name == DATA then Decoded(kept.(data := kept.data + [FieldValue(line)]), [])
      else Decoded(kept, [])
  }

  function DecodeLines(state: Decoder, lines: seq<Text>): Decoded {
    if lines == [] then Decoded(state, [])
    else
      var before := DecodeLines(state, lines[..|lines| - 1]);
      var last := DecodeLine(before.state, lines[|lines| - 1]);
      Decoded(last.state, before.events + last.events)
  }

  lemma {:induction false} DecodeAppend(state: Decoder, a: seq<Text>, b: seq<Text>)
    ensures DecodeLines(state, a + b).state == DecodeLines(DecodeLines(state, a).state, b).state
    ensures DecodeLines(state, a + b).events ==
            DecodeLines(state, a).events + DecodeLines(DecodeLines(state, a).state, b).events
  {
    hide DecodeLine;
    if b == [] {
      assert a + b == a;
    } else {
      assert (a + b)[..|a + b| - 1] == a + b[..|b| - 1];
      DecodeAppend(state, a, b[..|b| - 1]);
    }
  }

  // ----- Lines -----

  predicate IsBreak(b: byte) {
    b == NEWLINE || b == CARRIAGE_RETURN
  }

  function BreakFrom(text: Text, i: nat): (k: nat)
    requires i <= |text|
    ensures i <= k <= |text| && (k < |text| ==> IsBreak(text[k]))
    ensures forall j :: i <= j < k ==> !IsBreak(text[j])
    decreases |text| - i
  {
    if i == |text| || IsBreak(text[i]) then i else BreakFrom(text, i + 1)
  }

  /** Where the next line begins after the break at `k`: a carriage return and a newline are one break. */
  function AfterBreak(text: Text, k: nat): (n: nat)
    requires k < |text|
    ensures k < n <= |text|
  {
    if text[k] == CARRIAGE_RETURN && k + 1 < |text| && text[k + 1] == NEWLINE then k + 2 else k + 1
  }

  /** The complete lines from `i` on. */
  function Lines(text: Text, i: nat): seq<Text>
    requires i <= |text|
    decreases |text| - i
  {
    var k := BreakFrom(text, i);
    if k == |text| then [] else [text[i..k]] + Lines(text, AfterBreak(text, k))
  }

  /** Where the last, incomplete line begins. */
  function RestStart(text: Text, i: nat): (n: nat)
    requires i <= |text|
    ensures i <= n <= |text|
    decreases |text| - i
  {
    var k := BreakFrom(text, i);
    if k == |text| then i else RestStart(text, AfterBreak(text, k))
  }

  function Rest(text: Text): Text {
    text[RestStart(text, 0)..]
  }

  lemma BreakIs(text: Text, i: nat, k: nat)
    requires i <= k <= |text| && (k < |text| ==> IsBreak(text[k])) && forall j :: i <= j < k ==> !IsBreak(text[j])
    ensures BreakFrom(text, i) == k
  {
    var b := BreakFrom(text, i);
  }

  lemma LinesStep(text: Text, i: nat)
    requires i <= |text|
    ensures var k := BreakFrom(text, i);
            && (k == |text| ==> Lines(text, i) == [] && RestStart(text, i) == i)
            && (k < |text| ==>
                Lines(text, i) == [text[i..k]] + Lines(text, AfterBreak(text, k))
                && RestStart(text, i) == RestStart(text, AfterBreak(text, k)))
  {
  }

  lemma BreakShift(x: Text, y: Text, j: nat)
    requires j <= |y|
    ensures BreakFrom(x + y, |x| + j) == |x| + BreakFrom(y, j)
    ensures BreakFrom(y, j) < |y| ==> AfterBreak(x + y, |x| + BreakFrom(y, j)) == |x| + AfterBreak(y, BreakFrom(y, j))
    ensures BreakFrom(y, j) <= |y| && (x + y)[|x| + j..|x| + BreakFrom(y, j)] == y[j..BreakFrom(y, j)]
  {
    var k := BreakFrom(y, j);
    assert forall m :: 0 <= m < |y| ==> (x + y)[|x| + m] == y[m];
    BreakIs(x + y, |x| + j, |x| + k);
  }

  /** What stands before does not matter to the lines that come after. */
  lemma {:induction false} LinesShift(x: Text, y: Text, j: nat)
    requires j <= |y|
    ensures Lines(x + y, |x| + j) == Lines(y, j)
    ensures RestStart(x + y, |x| + j) == |x| + RestStart(y, j)
    decreases |y| - j
  {
    hide *;
    BreakShift(x, y, j);
    LinesStep(y, j);
    LinesStep(x + y, |x| + j);
    var k := BreakFrom(y, j);
    if k < |y| {
      LinesShift(x, y, AfterBreak(y, k));
    }
  }

  /** A carriage return whose newline is on the other side. */
  predicate CutsBreak(a: Text, b: Text) {
    a != [] && b != [] && a[|a| - 1] == CARRIAGE_RETURN && b[0] == NEWLINE
  }

  lemma BreakInFront(a: Text, b: Text, i: nat)
    requires i <= |a| && BreakFrom(a, i) < |a| && !CutsBreak(a, b)
    ensures BreakFrom(a + b, i) == BreakFrom(a, i)
            && AfterBreak(a + b, BreakFrom(a, i)) == AfterBreak(a, BreakFrom(a, i))
    ensures (a + b)[i..BreakFrom(a, i)] == a[i..BreakFrom(a, i)]
  {
    BreakIs(a + b, i, BreakFrom(a, i));
  }

  /** Reading on: the lines of a text in two pieces are those of the first piece, then those of what it left over
      together with the second. */
  lemma {:induction false} LinesInTwo(a: Text, b: Text, i: nat)
    requires i <= |a| && !CutsBreak(a, b)
    ensures RestStart(a, i) <= |a|
    ensures Lines(a + b, i) == Lines(a, i) + Lines(a[RestStart(a, i)..] + b, 0)
    ensures RestStart(a + b, i) == RestStart(a, i) + RestStart(a[RestStart(a, i)..] + b, 0)
    decreases |a| - i
  {
    hide *;
    LinesStep(a, i);
    LinesStep(a + b, i);
    var k := BreakFrom(a, i);
    if k == |a| {
      LinesShift(a[..i], a[i..] + b, 0);
      assert a[..i] + (a[i..] + b) == a + b && |a[..i]| == i;
    } else {
      BreakInFront(a, b, i);
      LinesInTwo(a, b, AfterBreak(a, k));
    }
  }

  // ----- Reading in pieces -----

  /** The state of the reader between reads. */
  datatype Reader = Reader(state: Decoder, buffer: Text, events: seq<ServerSentEvent>)

  function Read(r: Reader, chunk: Text): Reader {
    if chunk == [] then r
    else
      var text := r.buffer + chunk;
      var d := DecodeLines(r.state, Lines(text, 0));
      Reader(d.state, Rest(text), r.events + d.events)
  }

  function ReadAll(chunks: seq<Text>): Reader {
    if chunks == [] then Reader(IDLE, [], []) else Read(ReadAll(chunks[..|chunks| - 1]), chunks[|chunks| - 1])
  }

  /** At the end of input an unfinished line counts as a line, and the pending event is dispatched. */
  function Finish(r: Reader): seq<ServerSentEvent> {
    var last := if r.buffer == [] then Decoded(r.state, []) else DecodeLine(r.state, r.buffer);
    r.events + last.events + Flush(last.state).events
  }

  /** The reference: all lines of the whole text, then the end of input. */
  function Whole(text: Text): seq<ServerSentEvent> {
    var d := DecodeLines(IDLE, Lines(text, 0));
    Finish(Reader(d.state, Rest(text), d.events))
  }

  /** The text as the reader takes it: a read that ends between a carriage return and its newline starts a new segment,
      in which the newline is a break of its own. */
  function Segments(chunks: seq<Text>): (segments: seq<Text>)
    ensures segments != []
  {
    if chunks == [] then [[]]
    else
      var before, chunk := Segments(chunks[..|chunks| - 1]), chunks[|chunks| - 1];
      var last := before[|before| - 1];
      if CutsBreak(last, chunk) then before + [chunk] else before[..|before| - 1] + [last + chunk]
  }

  function AllLines(segments: seq<Text>): seq<Text> {
    if segments == [] then [] else AllLines(segments[..|segments| - 1]) + Lines(segments[|segments| - 1], 0)
  }

  lemma {:induction false} EndsWithBreak(text: Text, i: nat)
    requires text != [] && IsBreak(text[|text| - 1]) && i <= |text|
    ensures RestStart(text, i) == |text|
    decreases |text| - i
  {
    hide *;
    LinesStep(text, i);
    var k := BreakFrom(text, i);
    if k < |text| {
      EndsWithBreak(text, AfterBreak(text, k));
    }
  }

  lemma AllLinesSnoc(segments: seq<Text>, s: Text)
    ensures AllLines(segments + [s]) == AllLines(segments) + Lines(s, 0)
  {
    assert (segments + [s])[..|segments|] == segments;
  }

  /** However the bytes are split, the reader decodes the lines of the segments, in order. */
  lemma {:induction false} ReadAllIs(chunks: seq<Text>)
    ensures var segments, d := Segments(chunks), DecodeLines(IDLE, AllLines(Segments(chunks)));
            ReadAll(chunks) == Reader(d.state, Rest(segments[|segments| - 1]), d.events)
  {
    if chunks == [] {
    } else {
      var front, chunk := chunks[..|chunks| - 1], chunks[|chunks| - 1];
      ReadAllIs(front);
      ReadStep(Segments(front), chunk, ReadAll(front));
    }
  }

  lemma ReadStep(segments: seq<Text>, chunk: Text, r: Reader)
    requires segments != []
    requires r == Reader(DecodeLines(IDLE, AllLines(segments)).state, Rest(segments[|segments| - 1]),
                         DecodeLines(IDLE, AllLines(segments)).events)
    ensures var last := segments[|segments| - 1];
            var after := if CutsBreak(last, chunk) then segments + [chunk]
              else segments[..|segments| - 1] + [last + chunk];
            var d := DecodeLines(IDLE, AllLines(after));
            Read(r, chunk) == Reader(d.state, Rest(after[|after| - 1]), d.events)
  {
    hide DecodeLines, AllLines, Lines, RestStart, BreakFrom, DecodeLine, CutsBreak;
    var front, last := segments[..|segments| - 1], segments[|segments| - 1];
    assert segments == front + [last];
    AllLinesSnoc(front, last);
    if CutsBreak(last, chunk) {
      CutMeans(last, chunk);
      EndsWithBreak(last, 0);
      assert r.buffer == [];
      assert r.buffer + chunk == chunk;
      AllLinesSnoc(segments, chunk);
      DecodeAppend(IDLE, AllLines(segments), Lines(chunk, 0));
    } else {
      LinesInTwo(last, chunk, 0);
      AllLinesSnoc(front, last + chunk);
      var more := Lines(r.buffer + chunk, 0);
      assert AllLines(front) + (Lines(last, 0) + more) == (AllLines(front) + Lines(last, 0)) + more;
      DecodeAppend(IDLE, AllLines(segments), more);
      RestInTwo(last, chunk);
      if chunk == [] {
        assert last + chunk == last && r.buffer + chunk == r.buffer;
      }
    }
  }

  lemma CutMeans(a: Text, b: Text)
    requires CutsBreak(a, b)
    ensures a != [] && b != [] && IsBreak(a[|a| - 1])
  {
  }

  lemma RestInTwo(a: Text, b: Text)
    requires !CutsBreak(a, b)
    ensures Rest(a + b) == Rest(Rest(a) + b)
  {
    hide RestStart, Lines;
    LinesInTwo(a, b, 0);
    var n := RestStart(a, 0);
    assert (a + b)[n + RestStart(a[n..] + b, 0)..] == (a[n..] + b)[RestStart(a[n..] + b, 0)..];
  }

  /** No read ends between a carriage return and its newline. */
  predicate CutsNoBreak(chunks: seq<Text>) {
    chunks == [] || (CutsNoBreak(chunks[..|chunks| - 1])
                     && !CutsBreak(Concat(chunks[..|chunks| - 1]), chunks[|chunks| - 1]))
  }

  lemma {:induction false} OneSegment(chunks: seq<Text>)
    ensures CutsNoBreak(chunks) ==> Segments(chunks) == [Concat(chunks)]
  {
    if chunks != [] {
      var front, chunk := chunks[..|chunks| - 1], chunks[|chunks| - 1];
      OneSegment(front);
      assert chunks == front + [chunk];
      ConcatSnoc(front, chunk);
    }
  }

  /** The events of a stream do not depend on how its bytes are split, as long as no split falls between a carriage
      return and its newline: they are those of the whole text. */
  lemma SplitsDoNotMatter(a: seq<Text>, b: seq<Text>)
    requires CutsNoBreak(a) && CutsNoBreak(b) && Concat(a) == Concat(b)
    ensures Finish(ReadAll(a)) == Finish(ReadAll(b)) == Whole(Concat(a))
  {
    hide *;
    EventsOfWhole(a);
    EventsOfWhole(b);
  }

  lemma EventsOfWhole(chunks: seq<Text>)
    requires CutsNoBreak(chunks)
    ensures Finish(ReadAll(chunks)) == Whole(Concat(chunks))
  {
    hide DecodeLines, Lines, RestStart, DecodeLine, Flush;
    ReadAllIs(chunks);
    OneSegment(chunks);
    AllLinesSnoc([], Concat(chunks));
    assert [] + [Concat(chunks)] == [Concat(chunks)];
    NoLinesBefore(Concat(chunks));
  }

  lemma NoLinesBefore(text: Text)
    ensures AllLines([]) == [] && [] + Lines(text, 0) == Lines(text, 0)
  {
  }

  // ----- What a read that cuts a break changes -----

  /** The events from a state on, for the lines and the rest of a text. */
  function EventsFrom(state: Decoder, text: Text): seq<ServerSentEvent> {
    var d := DecodeLines(state, Lines(text, 0));
    Finish(Reader(d.state, Rest(text), d.events))
  }

  predicate IsPending(state: Decoder) {
    state.event != [] || state.data != []
  }

  /** A carriage return at the end ends a line whether or not its newline is there. */
  lemma {:induction false} NewlineAddsNoLine(a: Text, i: nat)
    requires i < |a| && a[|a| - 1] == CARRIAGE_RETURN
    ensures Lines(a + [NEWLINE], i) == Lines(a, i)
    decreases |a| - i
  {
    hide Lines, RestStart;
    var text, k := a + [NEWLINE], BreakFrom(a, i);
    assert IsBreak(a[|a| - 1]) && k < |a|;
    BreakIs(text, i, k);
    LinesStep(a, i);
    LinesStep(text, i);
    assert text[i..k] == a[i..k];
    if k == |a| - 1 {
      LinesStep(a, |a|);
      LinesStep(text, |text|);
    } else {
      assert AfterBreak(text, k) == AfterBreak(a, k) < |a|;
      NewlineAddsNoLine(a, AfterBreak(a, k));
    }
  }

  /** Of the whole text the newline after the cut adds nothing to the break before it. */
  lemma WholeAtCut(a: Text, rest: Text)
    requires a != [] && a[|a| - 1] == CARRIAGE_RETURN
    ensures var d := DecodeLines(IDLE, Lines(a, 0));
            Whole(a + ([NEWLINE] + rest)) == d.events + EventsFrom(d.state, rest)
  {
    hide Lines, RestStart, DecodeLines, DecodeLine, Flush;
    var front := a + [NEWLINE];
    assert a + ([NEWLINE] + rest) == front + rest;
    NewlineAddsNoLine(a, 0);
    EndsWithBreak(front, 0);
    assert front[|front|..] == [] && [] + rest == rest;
    LinesInTwo(front, rest, 0);
    RestInTwo(front, rest);
    DecodeAppend(IDLE, Lines(a, 0), Lines(rest, 0));
    FinishAfter(DecodeLines(IDLE, Lines(a, 0)).events, DecodeLines(IDLE, Lines(a, 0)).state, rest);
  }

  lemma FinishAfter(events: seq<ServerSentEvent>, state: Decoder, rest: Text)
    ensures var d := DecodeLines(state, Lines(rest, 0));
            Finish(Reader(d.state, Rest(rest), events + d.events)) == events + EventsFrom(state, rest)
  {
    hide Lines, RestStart, DecodeLines, DecodeLine, Flush;
    var d := DecodeLines(state, Lines(rest, 0));
    var last := if Rest(rest) == [] then Decoded(d.state, []) else DecodeLine(d.state, Rest(rest));
    Associate(events, d.events, last.events);
    Associate(events, d.events + last.events, Flush(last.state).events);
  }

  lemma Associate<T>(a: seq<T>, b: seq<T>, c: seq<T>)
    ensures a + b + c == a + (b + c)
  {
  }

  lemma NewlineIsBlank(rest: Text)
    ensures Lines([NEWLINE] + rest, 0) == [[]] + Lines(rest, 0) && Rest([NEWLINE] + rest) == Rest(rest)
  {
    hide Lines, RestStart;
    var b := [NEWLINE] + rest;
    BreakIs(b, 0, 0);
    LinesStep(b, 0);
    assert AfterBreak(b, 0) == 1 && b[0..0] == [];
    LinesShift([NEWLINE], rest, 0);
    assert b[1 + RestStart(rest, 0)..] == rest[RestStart(rest, 0)..];
  }

  /** Read in two pieces, the newline is a blank line, and dispatches what is pending. */
  lemma ReadAtCut(a: Text, rest: Text)
    requires a != [] && a[|a| - 1] == CARRIAGE_RETURN
    ensures var d := DecodeLines(IDLE, Lines(a, 0));
            Finish(ReadAll([a, [NEWLINE] + rest])) ==
            d.events + (Flush(d.state).events + EventsFrom(Flush(d.state).state, rest))
  {
    hide Lines, RestStart, DecodeLines, Flush, ReadAll, Finish, EventsFrom, Rest;
    var b, d := [NEWLINE] + rest, DecodeLines(IDLE, Lines(a, 0));
    NothingLeft(a);
    ReadTwo(a, b);
    NewlineIsBlank(rest);
    DecodeAppend(d.state, [[]], Lines(rest, 0));
    DecodeOne(d.state, []);
    var f := Flush(d.state);
    Associate(d.events, f.events, DecodeLines(f.state, Lines(rest, 0)).events);
    FinishAfter(d.events + f.events, f.state, rest);
    Associate(d.events, f.events, EventsFrom(f.state, rest));
  }

  lemma NothingLeft(a: Text)
    requires a != [] && IsBreak(a[|a| - 1])
    ensures Rest(a) == []
  {
    hide RestStart;
    EndsWithBreak(a, 0);
  }

  /** The lines remembered only grow until an event is dispatched, so the next event remembers at least as many. */
  lemma {:induction false} NextEventRemembers(state: Decoder, lines: seq<Text>, n: nat)
    requires |state.raw| > n
    ensures var d := DecodeLines(state, lines);
            if d.events == [] then |d.state.raw| > n else |d.events[0].raw| > n
  {
    if lines != [] {
      NextEventRemembers(state, lines[..|lines| - 1], n);
    }
  }

  /** Text that does not begin with a break adds to what is remembered before anything is dispatched. */
  lemma NonBlankRemembers(state: Decoder, rest: Text)
    requires rest != [] && !IsBreak(rest[0])
    ensures EventsFrom(state, rest) == [] || |EventsFrom(state, rest)[0].raw| > |state.raw|
  {
    hide DecodeLines, RestStart, Lines;
    var k := BreakFrom(rest, 0);
    LinesStep(rest, 0);
    if k == |rest| {
      NothingDecoded(state, rest);
      assert rest[0..] == rest;
    } else {
      var line, more := rest[0..k], Lines(rest, AfterBreak(rest, k));
      DecodeAppend(state, [line], more);
      DecodeOne(state, line);
      NextEventRemembers(DecodeLine(state, line).state, more, |state.raw|);
    }
  }

  /** A blank line next, or the end of input, dispatches what is pending just as the cut does. */
  lemma BlankNext(state: Decoder, rest: Text)
    requires IsPending(state) && (rest == [] || IsBreak(rest[0]))
    ensures EventsFrom(state, rest) == Flush(state).events + EventsFrom(IDLE, rest)
  {
    hide DecodeLines, RestStart, Lines;
    LinesStep(rest, 0);
    if rest == [] {
      NothingDecoded(state, rest);
      NothingDecoded(IDLE, rest);
    } else {
      BreakIs(rest, 0, 0);
      assert rest[0..0] == [];
      var more := Lines(rest, AfterBreak(rest, 0));
      DecodeAppend(state, [[]], more);
      DecodeAppend(IDLE, [[]], more);
      DecodeOne(state, []);
      DecodeOne(IDLE, []);
      var d := DecodeLines(IDLE, more);
      var last := if Rest(rest) == [] then Decoded(d.state, []) else DecodeLine(d.state, Rest(rest));
      Associate(Flush(state).events, d.events, last.events);
      Associate(Flush(state).events, d.events + last.events, Flush(last.state).events);
    }
  }

  /** A read that ends between a carriage return and its newline leaves the events as they are if and only if nothing is
      pending there, or a blank line or the end of input comes next anyway. */
  lemma CutMatters(a: Text, rest: Text)
    requires a != [] && a[|a| - 1] == CARRIAGE_RETURN
    ensures Finish(ReadAll([a, [NEWLINE] + rest])) == Whole(a + ([NEWLINE] + rest)) <==>
            !IsPending(DecodeLines(IDLE, Lines(a, 0)).state) || rest == [] || IsBreak(rest[0])
  {
    hide DecodeLines, RestStart, Lines, Finish, ReadAll, Whole, EventsFrom;
    WholeAtCut(a, rest);
    ReadAtCut(a, rest);
    var d := DecodeLines(IDLE, Lines(a, 0));
    var cut := Flush(d.state).events + EventsFrom(Flush(d.state).state, rest);
    SameAfter(d.events, cut, EventsFrom(d.state, rest));
    if IsPending(d.state) {
      if rest == [] || IsBreak(rest[0]) {
        BlankNext(d.state, rest);
      } else {
        NonBlankRemembers(d.state, rest);
        assert cut[0].raw == d.state.raw;
      }
    }
  }

  lemma SameAfter<T>(front: seq<T>, a: seq<T>, b: seq<T>)
    ensures front + a == front + b <==> a == b
  {
    if front + a == front + b {
      assert (front + a)[|front|..] == a && (front + b)[|front|..] == b;
    }
  }

  const EVENT_X: Text := [101, 118, 101, 110, 116, 58, 120]
  const DATA_Y: Text := [100, 97, 116, 97, 58, 121]

  /** A split there does matter: the newline then dispatches the event early. */
  lemma CutExample()
    ensures var a, b := EVENT_X + [CARRIAGE_RETURN], [NEWLINE] + DATA_Y + [NEWLINE];
            && Whole(a + b) == [ServerSentEvent([120], [121], [EVENT_X, DATA_Y])]
            && Finish(ReadAll([a, b])) == [ServerSentEvent([120], [], [EVENT_X]), ServerSentEvent([], [121], [DATA_Y])]
  {
    hide *;
    var a, b := EVENT_X + [CARRIAGE_RETURN], [NEWLINE] + DATA_Y + [NEWLINE];
    ExampleWhole(a + b);
    ExampleCut(a, b);
  }

  lemma ExampleFields(state: Decoder)
    ensures DecodeLine(state, EVENT_X) == Decoded(state.(event := [120], raw := state.raw + [EVENT_X]), [])
    ensures DecodeLine(state, DATA_Y) == Decoded(state.(data := state.data + [[121]], raw := state.raw + [DATA_Y]), [])
  {
    ColonIs(EVENT_X, 5);
    ColonIs(DATA_Y, 4);
    assert EVENT_X[..5] == EVENT && EVENT_X[6..] == [120] && DATA_Y[..4] == DATA && DATA_Y[5..] == [121];
  }

  lemma ColonIs(line: Text, k: nat)
    requires k < |line| && line[k] == COLON && forall j :: 0 <= j < k ==> line[j] != COLON
    ensures ColonFrom(line, 0) == k
  {
    var c := ColonFrom(line, 0);
  }

  lemma DecodeOne(state: Decoder, line: Text)
    ensures DecodeLines(state, [line]) == DecodeLine(state, line)
  {
    assert [line][..0] == [];
  }

  lemma DecodeTwo(state: Decoder, a: Text, b: Text)
    ensures DecodeLines(state, [a, b]) ==
            Decoded(DecodeLine(DecodeLine(state, a).state, b).state,
                    DecodeLine(state, a).events + DecodeLine(DecodeLine(state, a).state, b).events)
  {
    assert [a, b][..1] == [a];
    DecodeOne(state, a);
  }

  /** A text of two lines, the first ending with a break of `n` bytes. */
  lemma TwoLines(text: Text, line1: Text, br: Text, line2: Text)
    requires text == line1 + br + line2 + [NEWLINE] && (br == [NEWLINE] || br == [CARRIAGE_RETURN, NEWLINE])
    requires (forall i :: 0 <= i < |line1| ==> !IsBreak(line1[i]))
             && (forall i :: 0 <= i < |line2| ==> !IsBreak(line2[i]))
    ensures Lines(text, 0) == [line1, line2] && Rest(text) == []
  {
    var second := |line1| + |br|;
    BreakIs(text, 0, |line1|);
    BreakIs(text, second, |text| - 1);
    BreakIs(text, |text|, |text|);
    hide BreakFrom;
    LinesStep(text, 0);
    LinesStep(text, second);
    LinesStep(text, |text|);
    assert text[0..|line1|] == line1 && text[second..|text| - 1] == line2;
    assert [line2] + [] == [line2];
  }

  lemma OneLine(text: Text, line: Text, br: byte)
    requires text == line + [br] && IsBreak(br) && forall i :: 0 <= i < |line| ==> !IsBreak(line[i])
    ensures Lines(text, 0) == [line] && Rest(text) == []
  {
    BreakIs(text, 0, |line|);
    BreakIs(text, |text|, |text|);
    hide BreakFrom;
    LinesStep(text, 0);
    LinesStep(text, |text|);
    assert text[0..|line|] == line;
  }

  lemma ExampleWhole(text: Text)
    requires text == EVENT_X + [CARRIAGE_RETURN] + ([NEWLINE] + DATA_Y + [NEWLINE])
    ensures Whole(text) == [ServerSentEvent([120], [121], [EVENT_X, DATA_Y])]
  {
    hide BreakFrom, DecodeLines, DecodeLine, Lines, RestStart;
    assert text == EVENT_X + [CARRIAGE_RETURN, NEWLINE] + DATA_Y + [NEWLINE];
    TwoLines(text, EVENT_X, [CARRIAGE_RETURN, NEWLINE], DATA_Y);
    ExampleFields(IDLE);
    ExampleFields(IDLE.(event := [120], raw := [EVENT_X]));
    DecodeTwo(IDLE, EVENT_X, DATA_Y);
    assert IDLE.raw + [EVENT_X] == [EVENT_X] && [EVENT_X] + [DATA_Y] == [EVENT_X, DATA_Y]
           && IDLE.data + [[121]] == [[121]];
    var d := Decoder([120], [[121]], [EVENT_X, DATA_Y]);
    assert DecodeLines(IDLE, Lines(text, 0)) == Decoded(d, []);
    FlushOne(d, [121]);
  }

  lemma FlushOne(d: Decoder, value: Text)
    requires d.data == [value]
    ensures Flush(d) == Decoded(IDLE, [ServerSentEvent(d.event, value, d.raw)])
  {
  }

  lemma ExampleCut(a: Text, b: Text)
    requires a == EVENT_X + [CARRIAGE_RETURN] && b == [NEWLINE] + DATA_Y + [NEWLINE]
    ensures Finish(ReadAll([a, b])) == [ServerSentEvent([120], [], [EVENT_X]), ServerSentEvent([], [121], [DATA_Y])]
  {
    hide BreakFrom, DecodeLines, DecodeLine, Lines, RestStart, Flush;
    OneLine(a, EVENT_X, CARRIAGE_RETURN);
    assert b == [] + [NEWLINE] + DATA_Y + [NEWLINE];
    TwoLines(b, [], [NEWLINE], DATA_Y);
    var waiting := IDLE.(event := [120], raw := [EVENT_X]);
    ExampleFields(IDLE);
    DecodeOne(IDLE, EVENT_X);
    ReadTwo(a, b);
    ExampleBlank();
    ExampleFields(IDLE);
    DecodeTwo(waiting, [], DATA_Y);
    assert IDLE.raw + [EVENT_X] == [EVENT_X] && IDLE.raw + [DATA_Y] == [DATA_Y] && IDLE.data + [[121]] == [[121]];
    var shown := ServerSentEvent([120], [], [EVENT_X]);
    assert [] + ([shown] + []) == [shown];
    FlushOne(IDLE.(data := [[121]], raw := [DATA_Y]), [121]);
  }

  lemma ReadTwo(a: Text, b: Text)
    requires a != [] && b != [] && Rest(a) == []
    ensures var d := DecodeLines(IDLE, Lines(a, 0));
            var e := DecodeLines(d.state, Lines(b, 0));
            ReadAll([a, b]) == Reader(e.state, Rest(b), d.events + e.events)
  {
    hide BreakFrom, DecodeLines, DecodeLine, Lines, RestStart;
    assert [a, b][..1] == [a] && [a][..0] == [];
    assert [] + a == a && [] + b == b;
    var d := DecodeLines(IDLE, Lines(a, 0));
    assert [] + d.events == d.events;
    assert ReadAll([]) == Reader(IDLE, [], []);
    assert ReadAll([a]) == Reader(d.state, [], d.events);
  }

  lemma ExampleBlank()
    ensures DecodeLine(IDLE.(event := [120], raw := [EVENT_X]), []) ==
            Decoded(IDLE, [ServerSentEvent([120], [], [EVENT_X])])
  {
    assert LineText.Join([]) == [];
  }

  // ----- Writing events and reading them back -----

  /** A field as it is written, with one space after the colon. */
  function FieldLine(name: Text, value: Text): Text {
    name + [COLON, SPACE] + value
  }

  /** The type, if there is one, and a data field for each line of the data. */
  function FieldLines(event: Text, data: Text): seq<Text> {
    (if event == [] then [] else [FieldLine(EVENT, event)]) + DataLines(LineText.Split(data))
  }

  function DataLines(pieces: seq<Text>): seq<Text> {
    if pieces == [] then [] else DataLines(pieces[..|pieces| - 1]) + [FieldLine(DATA, pieces[|pieces| - 1])]
  }

  /** Each event's fields and a blank line. */
  function Written(sent: seq<(Text, Text)>): seq<Text> {
    if sent == [] then []
    else Written(sent[..|sent| - 1]) + (FieldLines(sent[|sent| - 1].0, sent[|sent| - 1].1) + [[]])
  }

  function Received(sent: seq<(Text, Text)>): seq<ServerSentEvent> {
    seq(|sent|, i requires 0 <= i < |sent| =>
      ServerSentEvent(sent[i].0, sent[i].1, FieldLines(sent[i].0, sent[i].1)))
  }

  /** Every line with its end. */
  function Wire(lines: seq<Text>, end: Text): Text {
    if lines == [] then [] else lines[0] + end + Wire(lines[1..], end)
  }

  predicate IsLineEnd(end: Text) {
    end == [NEWLINE] || end == [CARRIAGE_RETURN] || end == [CARRIAGE_RETURN, NEWLINE]
  }

  predicate IsLine(line: Text) {
    forall i :: 0 <= i < |line| ==> !IsBreak(line[i])
  }

  ghost predicate AreLines(lines: seq<Text>) {
    forall i :: 0 <= i < |lines| ==> IsLine(lines[i])
  }

  lemma ReadFirst(line: Text, end: Text, rest: Text)
    requires IsLine(line) && IsLineEnd(end) && (rest != [] && end == [CARRIAGE_RETURN] ==> rest[0] != NEWLINE)
    ensures Lines(line + end + rest, 0) == [line] + Lines(rest, 0) && Rest(line + end + rest) == Rest(rest)
  {
    hide Lines, RestStart, BreakFrom;
    var text, k := line + end + rest, |line|;
    assert forall i :: 0 <= i < |line| ==> text[i] == line[i];
    assert text[k] == end[0] && (|end| == 2 ==> text[k + 1] == NEWLINE);
    assert |end| == 1 && k + 1 < |text| ==> text[k + 1] == rest[0];
    BreakIs(text, 0, k);
    LinesStep(text, 0);
    assert AfterBreak(text, k) == |line + end| && text[0..k] == line;
    LinesShift(line + end, rest, 0);
    assert text[|line + end| + RestStart(rest, 0)..] == rest[RestStart(rest, 0)..];
  }

  /** Reading the lines that were written, whatever ends them. */
  lemma {:induction false} LinesOfWire(lines: seq<Text>, end: Text)
    requires AreLines(lines) && IsLineEnd(end)
    ensures Lines(Wire(lines, end), 0) == lines && Rest(Wire(lines, end)) == []
    ensures lines != [] ==> Wire(lines, end)[..1] != [NEWLINE] || end == [NEWLINE]
  {
    if lines == [] {
      BreakIs([], 0, 0);
    } else {
      hide Lines, RestStart;
      var rest := Wire(lines[1..], end);
      assert IsLine(lines[0]);
      LinesOfWire(lines[1..], end);
      assert lines[0] + end + rest == Wire(lines, end);
      ReadFirst(lines[0], end, rest);
    }
  }

  lemma FieldDecodes(state: Decoder, name: Text, value: Text)
    requires name == EVENT || name == DATA
    ensures var line := FieldLine(name, value);
            DecodeLine(state, line) ==
            Decoded(if name == EVENT then state.(event := value, raw := state.raw + [line])
                    else state.(data := state.data + [value], raw := state.raw + [line]), [])
  {
    var line := FieldLine(name, value);
    ColonIs(line, |name|);
    assert line[..|name|] == name && line[|name| + 1..] == [SPACE] + value;
    assert ([SPACE] + value)[1..] == value;
  }

  lemma {:induction false} DataDecodes(state: Decoder, pieces: seq<Text>)
    ensures DecodeLines(state, DataLines(pieces)) ==
            Decoded(state.(data := state.data + pieces, raw := state.raw + DataLines(pieces)), [])
  {
    if pieces == [] {
      assert state.data + [] == state.data && state.raw + [] == state.raw;
    } else {
      hide DecodeLine, FieldLine, DecodeLines;
      var front, last := pieces[..|pieces| - 1], pieces[|pieces| - 1];
      DataDecodes(state, front);
      var d := DecodeLines(state, DataLines(front));
      FieldDecodes(d.state, DATA, last);
      DecodeSnoc(state, DataLines(front), FieldLine(DATA, last));
      assert state.data + front + [last] == state.data + pieces;
      assert state.raw + DataLines(front) + [FieldLine(DATA, last)] == state.raw + DataLines(pieces);
    }
  }

  /** The fields of one event and the blank line dispatch that event. */
  lemma EventDecodes(event: Text, data: Text)
    ensures DecodeLines(IDLE, FieldLines(event, data) + [[]]) ==
            Decoded(IDLE, [ServerSentEvent(event, data, FieldLines(event, data))])
  {
    hide DecodeLines, DecodeLine, FieldLine, DataLines, LineText.Split, LineText.Join;
    var pieces := LineText.Split(data);
    var first := if event == [] then [] else [FieldLine(EVENT, event)];
    var state := if event == [] then IDLE else IDLE.(event := event, raw := [FieldLine(EVENT, event)]);
    FieldDecodes(IDLE, EVENT, event);
    DecodeOne(IDLE, FieldLine(EVENT, event));
    NothingDecoded(IDLE, []);
    assert IDLE.raw + [FieldLine(EVENT, event)] == [FieldLine(EVENT, event)];
    DataDecodes(state, pieces);
    DecodeAppend(IDLE, first, DataLines(pieces));
    assert IDLE.data + pieces == pieces && state.raw + DataLines(pieces) == FieldLines(event, data);
    var full := Decoder(event, pieces, FieldLines(event, data));
    DecodeSnoc(IDLE, FieldLines(event, data), []);
    LineText.JoinSplit(data);
    BlankDispatches(full);
  }

  lemma BlankDispatches(state: Decoder)
    requires state.data != []
    ensures DecodeLine(state, []) == Decoded(IDLE, [ServerSentEvent(state.event, LineText.Join(state.data), state.raw)])
  {
  }

  lemma {:induction false} EventsDecode(sent: seq<(Text, Text)>)
    ensures DecodeLines(IDLE, Written(sent)) == Decoded(IDLE, Received(sent))
  {
    hide DecodeLines, FieldLines, Received;
    ReceivedSteps(sent);
    if sent == [] {
      NothingDecoded(IDLE, []);
    } else {
      var front, last := sent[..|sent| - 1], sent[|sent| - 1];
      EventsDecode(front);
      EventDecodes(last.0, last.1);
      DecodeAppend(IDLE, Written(front), FieldLines(last.0, last.1) + [[]]);
    }
  }

  lemma ReceivedSteps(sent: seq<(Text, Text)>)
    ensures sent == [] ==> Received(sent) == []
    ensures sent != [] ==>
              var last := sent[|sent| - 1];
              Received(sent) ==
              Received(sent[..|sent| - 1]) + [ServerSentEvent(last.0, last.1, FieldLines(last.0, last.1))]
  {
    hide FieldLines;
  }

  /** The type is one line, and the data has no carriage return. */
  predicate IsSendable(e: (Text, Text)) {
    IsLine(e.0) && CARRIAGE_RETURN !in e.1
  }

  lemma {:induction false} PiecesAreLines(s: Text)
    requires CARRIAGE_RETURN !in s
    ensures AreLines(LineText.Split(s))
    decreases |s|
  {
    var k := FirstNewline(s);
    if k < |s| {
      PiecesAreLines(s[k + 1..]);
      assert IsLine(s[..k]);
    }
  }

  lemma {:induction false} DataAreLines(pieces: seq<Text>)
    requires AreLines(pieces)
    ensures AreLines(DataLines(pieces))
  {
    if pieces != [] {
      assert IsLine(pieces[|pieces| - 1]);
      assert forall i :: 0 <= i < |pieces| - 1 ==> pieces[..|pieces| - 1][i] == pieces[i];
      DataAreLines(pieces[..|pieces| - 1]);
    }
  }

  lemma {:induction false} WrittenAreLines(sent: seq<(Text, Text)>)
    requires forall i :: 0 <= i < |sent| ==> IsSendable(sent[i])
    ensures AreLines(Written(sent))
  {
    if sent != [] {
      hide DataLines, LineText.Split;
      var last := sent[|sent| - 1];
      assert IsSendable(last);
      WrittenAreLines(sent[..|sent| - 1]);
      PiecesAreLines(last.1);
      DataAreLines(LineText.Split(last.1));
      assert IsLine(FieldLine(EVENT, last.0));
    }
  }

  /** Round trip: events written with any kind of line end come back as they were sent, in order, type and data alike,
      however the bytes are split by the reads, as long as no read ends inside a CR LF. */
  lemma SentIsReceived(sent: seq<(Text, Text)>, end: Text, chunks: seq<Text>)
    requires (forall i :: 0 <= i < |sent| ==> IsSendable(sent[i])) && IsLineEnd(end)
    requires CutsNoBreak(chunks) && Concat(chunks) == Wire(Written(sent), end)
    ensures Finish(ReadAll(chunks)) == Received(sent)
  {
    hide DecodeLines, Lines, RestStart, DecodeLine, Written, Wire, ReadAll, CutsNoBreak, IsSendable, Received;
    EventsOfWhole(chunks);
    WrittenAreLines(sent);
    LinesOfWire(Written(sent), end);
    EventsDecode(sent);
    assert Received(sent) + [] + [] == Received(sent);
  }

  /** A comment, or a field of another name, changes no event; a value loses one leading space and no more, and a field
      without a colon is empty. */
  lemma OtherLines(state: Decoder, line: Text, value: Text)
    ensures line != [] && (line[0] == COLON || (line[..ColonFrom(line, 0)] != EVENT
                                                && line[..ColonFrom(line, 0)] != DATA)) ==>
              DecodeLine(state, line) == Decoded(state.(raw := state.raw + [line]), [])
    ensures value == [] || value[0] != SPACE ==>
              DecodeLine(state, DATA + [COLON] + value) ==
              Decoded(state.(data := state.data + [value], raw := state.raw + [DATA + [COLON] + value]), [])
    ensures DecodeLine(state, DATA) == Decoded(state.(data := state.data + [[]], raw := state.raw + [DATA]), [])
  {
    ColonIs(DATA + [COLON] + value, |DATA|);
    assert (DATA + [COLON] + value)[..|DATA|] == DATA && (DATA + [COLON] + value)[|DATA| + 1..] == value;
    assert ColonFrom(DATA, 0) == |DATA| && DATA[..|DATA|] == DATA;
  }

  /** What was handed out after each read is the beginning of what is handed out in the end. */
  lemma {:induction false} EventsOnlyGrow(chunks: seq<Text>, j: nat)
    requires j <= |chunks|
    ensures ReadAll(chunks[..j]).events <= ReadAll(chunks).events <= Finish(ReadAll(chunks))
    decreases |chunks|
  {
    hide DecodeLines, Lines, RestStart, DecodeLine, Flush;
    if j < |chunks| {
      EventsOnlyGrow(chunks[..|chunks| - 1], j);
      assert chunks[..|chunks| - 1][..j] == chunks[..j];
    } else {
      assert chunks[..j] == chunks;
    }
  }

  // ----- The program -----

  class DecoderState {
    var event: Text
    var data: seq<Text>
    var raw: seq<Text>

    function View(): Decoder
      reads this
    {
      Decoder(event, data, raw)
    }

    constructor ()
      ensures View() == IDLE
    {
      event, data, raw := [], [], [];
    }

    method FlushSseEvent() returns (events: seq<ServerSentEvent>)
      modifies this
      ensures Decoded(View(), events) == Flush(old(View()))
    {
      if event == [] && |data| == 0 {
        return [];
      }
      events := [ServerSentEvent(event, LineText.Join(data), raw)];
      event, data, raw := [], [], [];
    }

    method DecodeSseLine(line: Text) returns (events: seq<ServerSentEvent>)
      modifies this
      ensures Decoded(View(), events) == DecodeLine(old(View()), line)
    {
      events := [];
      if line == [] {
        events := FlushSseEvent();
        return;
      }
      raw := raw + [line];
      if line[0] == COLON {
        return;
      }
      var delimiter := ColonFrom(line, 0);
      var value := FieldValue(line);
      if line[..delimiter] == EVENT {
        event := value;
      } else if line[..delimiter] == DATA {
        data := data + [value];
      }
    }

    /** Decodes every complete line of the buffer and returns what is left. */
    method DrainCompleteLines(buffer: Text) returns (rest: Text, events: seq<ServerSentEvent>)
      modifies this
      ensures rest == Rest(buffer) && Decoded(View(), events) == DecodeLines(old(View()), Lines(buffer, 0))
    {
      hide DecodeLine, DecodeLines, Lines, RestStart, BreakFrom;
      rest, events := buffer, [];
      ghost var at, done: seq<Text> := 0, [];
      NothingDecoded(View(), buffer);
      LinesStep(buffer, 0);
      assert buffer[0..] == buffer;
      var k := BreakFrom(rest, 0);
      while k < |rest|
        invariant at <= |buffer| && rest == buffer[at..] && k == BreakFrom(rest, 0)
        invariant Lines(buffer, 0) == done + Lines(rest, 0) && RestStart(buffer, 0) == at + RestStart(rest, 0)
        invariant Decoded(View(), events) == DecodeLines(old(View()), done)
        decreases |rest|
      {
        LinesStep(rest, 0);
        var line, next := rest[..k], AfterBreak(rest, k);
        var more := DecodeSseLine(line);
        DecodeSnoc(old(View()), done, line);
        LinesShift(rest[..next], rest[next..], 0);
        assert rest[..next] + rest[next..] == rest && buffer[at..][next..] == buffer[at + next..];
        assert done + ([line] + Lines(rest[next..], 0)) == (done + [line]) + Lines(rest[next..], 0);
        assert rest[0..k] == line;
        done := done + [line];
        events := events + more;
        at := at + next;
        rest := rest[next..];
        k := BreakFrom(rest, 0);
      }
      LinesStep(rest, 0);
      assert done + [] == done;
    }
  }

  lemma NothingDecoded(state: Decoder, text: Text)
    ensures DecodeLines(state, []) == Decoded(state, []) && [] + Lines(text, 0) == Lines(text, 0)
  {
  }

  lemma DecodeSnoc(state: Decoder, lines: seq<Text>, line: Text)
    ensures DecodeLines(state, lines + [line]) ==
            Decoded(DecodeLine(DecodeLines(state, lines).state, line).state,
                    DecodeLines(state, lines).events + DecodeLine(DecodeLines(state, lines).state, line).events)
  {
    assert (lines + [line])[..|lines|] == lines;
  }

  /** Reads the chunks in turn, then handles the end of input. */
  method IterateSSE(chunks: seq<Text>) returns (events: seq<ServerSentEvent>)
    ensures events == Finish(ReadAll(chunks))
  {
    hide DecodeLine, DecodeLines, Lines, RestStart, Flush;
    var state := new DecoderState();
    var buffer: Text := [];
    events := [];
    for i := 0 to |chunks|
      invariant Reader(state.View(), buffer, events) == ReadAll(chunks[..i])
    {
      assert chunks[..i + 1][..i] == chunks[..i];
      if chunks[i] != [] {
        var more;
        buffer, more := state.DrainCompleteLines(buffer + chunks[i]);
        events := events + more;
      }
    }
    assert chunks[..|chunks|] == chunks;
    ghost var r := ReadAll(chunks);
    BufferHasNoBreak(chunks);
    var more;
    buffer, more := state.DrainCompleteLines(buffer);
    events := events + more;
    if |buffer| > 0 {
      more := state.DecodeSseLine(buffer);
      events := events + more;
    }
    more := state.FlushSseEvent();
    events := events + more;
  }

  /** Between reads the buffer holds no complete line, so draining it once more changes nothing. */
  lemma BufferHasNoBreak(chunks: seq<Text>)
    ensures var r := ReadAll(chunks);
            && Rest(r.buffer) == r.buffer && DecodeLines(r.state, Lines(r.buffer, 0)) == Decoded(r.state, [])
            && r.events + [] == r.events
  {
    var r := ReadAll(chunks);
    ReadAllIs(chunks);
    var segments := Segments(chunks);
    var last := segments[|segments| - 1];
    hide BreakFrom, ReadAll, Segments, DecodeLine;
    RestHasNoBreak(last, 0);
    LinesStep(r.buffer, 0);
    NothingDecoded(r.state, r.buffer);
  }

  lemma {:induction false} RestHasNoBreak(text: Text, i: nat)
    requires i <= |text|
    ensures RestStart(text, i) <= |text| && BreakFrom(text[RestStart(text, i)..], 0) == |text| - RestStart(text, i)
    decreases |text| - i
  {
    hide *;
    LinesStep(text, i);
    var k := BreakFrom(text, i);
    if k == |text| {
      BreakIs(text[i..], 0, |text| - i);
    } else {
      RestHasNoBreak(text, AfterBreak(text, k));
    }
  }
}

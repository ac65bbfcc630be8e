/** Folding Gemini chunks into a message and stream events. */
module GoogleFold {
  import opened AssistantBuilder
  import opened Options

  datatype FuncCall = FuncCall(id: string, name: string, arguments: string)

  datatype Part = Part(text: string, thought: bool, thoughtSignature: string, call: Option<FuncCall>)

  /** The identifiers of the tool calls, in order. */
  function ToolIds(content: seq<Block>): seq<string> {
    if content == [] then []
    else ToolIds(content[..|content| - 1]) + if content[|content| - 1].kind.ToolKind? then [content[|content| - 1].id]
    else []
  }

  ghost predicate Distinct(ids: seq<string>) {
    forall i, j :: 0 <= i < j < |ids| ==> ids[i] != ids[j]
  }

  lemma DistinctSnoc(ids: seq<string>, id: string)
    ensures Distinct(ids + [id]) <==> Distinct(ids) && id !in ids
  {
    var after := ids + [id];
    assert after[|ids|] == id;
    if Distinct(after) {
      assert forall i :: 0 <= i < |ids| ==> after[i] == ids[i];
    }
  }

  lemma ToolIdsSnoc(content: seq<Block>, b: Block)
    ensures ToolIds(content + [b]) == ToolIds(content) + if b.kind.ToolKind? then [b.id] else []
  {
    assert (content + [b])[..|content|] == content;
  }

  lemma {:induction false} ToolIdsKept(a: seq<Block>, b: seq<Block>)
    requires |a| == |b| && forall i :: 0 <= i < |a| ==> a[i].kind == b[i].kind && a[i].id == b[i].id
    ensures ToolIds(a) == ToolIds(b)
  {
    if a != [] {
      ToolIdsKept(a[..|a| - 1], b[..|b| - 1]);
    }
  }

  class Fold {
    var output: seq<Block>
    var current: Option<nat>
    var toolCallIds: set<string>
    /** The events sent so far. */
    ghost var sent: seq<StreamEvent>

    /** The builder that folds the events holds the same message, and `current` is the last block, a text or thinking
        one. */
    ghost predicate Valid()
      reads `output, `current, `toolCallIds, `sent
    {
      && AllSame(FoldAll(sent), output)
      && (current.Some? ==> current.value == |output| - 1 && !output[current.value].kind.ToolKind?)
      && (forall id :: id in ToolIds(output) <==> id in toolCallIds)
    }

    function State(): Accumulated
      reads `output, `current, `toolCallIds
    {
      Accumulated(output, current, toolCallIds)
    }

    constructor ()
      ensures Valid() && output == [] && sent == []
    {
      output, current, toolCallIds, sent := [], None, {}, [];
    }

    /** A text or thought delta goes to the current block if that is of its kind, and to a new block otherwise. */
    method FoldText(part: Part) returns (events: seq<StreamEvent>)
      requires Valid() && part.call.None?
      modifies `output, `current, `sent
      ensures Valid() && sent == old(sent) + events
      ensures State() == TakeText(old(State()), part)
      ensures events == if Joins(old(output), old(current), part) then [TextEvent(old(current).value, part)]
                        else [if part.thought then ThinkingStart(|old(output)|) else TextStart(|old(output)|),
                              TextEvent(|old(output)|, part)]
    {
      hide ToolIds, FoldAll, FoldOne, AllSame;
      ghost var before := output;
      var kind := if part.thought then ThinkingKind else TextKind;
      if current.None? || output[current.value].kind != kind {
        var i := |output|;
        output := output + [if part.thought then Empty(kind).(thinking := part.text, signature := part.thoughtSignature)
                            else Empty(kind).(text := part.text)];
        events := if part.thought then [ThinkingStart(i), ThinkingDelta(i, part.text)]
        else [TextStart(i), TextDelta(i, part.text)];
        current := Some(i);
        FoldAppend(sent, events);
        assert output[i] == Extend(Opened(part), part);
        TextOpens(FoldAll(sent), before, part, events[0], events[1]);
      } else {
        var i := current.value;
        var b := output[i];
        output := output[i := if part.thought then b.(thinking := b.thinking + part.text)
                         else b.(text := b.text + part.text)];
        events := [if part.thought then ThinkingDelta(i, part.text) else TextDelta(i, part.text)];
        FoldAppend(sent, events);
        TextJoins(FoldAll(sent), before, i, part);
      }
      sent := sent + events;
    }

    /** A function call is a block of its own; it gets a new identifier if it has none, or one that is taken. */
    method FoldFuncCall(part: Part, made: string) returns (events: seq<StreamEvent>)
      requires Valid() && part.call.Some?
      modifies `output, `current, `toolCallIds, `sent
      ensures Valid() && sent == old(sent) + events && State() == TakeCall(old(State()), part, made)
      ensures var i, b := |old(output)|, CallBlock(part, CallId(old(toolCallIds), part, made));
              events == [ToolStart(i, Some(b)), ToolDelta(i, b.arguments), ToolEnd(i, Some(b))]
    {
      hide ToolIds, FoldAll, FoldOne, AllSame;
      current := None;
      var call := part.call.value;
      var id := call.id;
      if call.id == "" || call.id in toolCallIds {
        id := made;
      }
      toolCallIds := toolCallIds + {id};
      var i := |output|;
      var b := Empty(ToolKind).(id := id, name := call.name, arguments := call.arguments,
                                thoughtSignature := part.thoughtSignature);
      ToolIdsSnoc(output, b);
      events := [ToolStart(i, Some(b)), ToolDelta(i, call.arguments), ToolEnd(i, Some(b))];
      FoldAppend(sent, events);
      CallMirrored(FoldAll(sent), output, b, events);
      output := output + [b];
      sent := sent + events;
    }

    /** One chunk: its parts in order. Empty text is skipped. `made` supplies identifiers. */
    method FoldChunk(parts: seq<Part>, made: nat -> string) returns (events: seq<StreamEvent>)
      requires Valid()
      modifies `output, `current, `toolCallIds, `sent
      ensures Valid() && sent == old(sent) + events && State() == TakeParts(old(State()), parts, made, |parts|)
    {
      hide Valid, TakeText, TakeCall;
      events := [];
      for i := 0 to |parts|
        invariant Valid() && sent == old(sent) + events && State() == TakeParts(old(State()), parts, made, i)
      {
        var evs: seq<StreamEvent> := [];
        if parts[i].call.Some? {
          evs := FoldFuncCall(parts[i], made(i));
        } else if parts[i].text != "" {
          evs := FoldText(parts[i]);
        }
        events := events + evs;
      }
    }

    /** The closing events change nothing the builder holds. */
    method Finalize() returns (events: seq<StreamEvent>)
      requires Valid()
      modifies `current, `sent
      ensures Valid() && sent == old(sent) + events && current == None
      ensures events == Closings(output, |output|)
    {
      hide ToolIds, FoldAll, FoldOne, AllSame;
      events := [];
      current := None;
      for i := 0 to |output|
        invariant Valid() && sent == old(sent) + events && current == None && events == Closings(output, i)
      {
        var evs: seq<StreamEvent> := if output[i].kind.ToolKind? then [] else [Closing(i, output[i])];
        ClosingKeeps(sent, output, i, evs);
        sent := sent + evs;
        events := events + evs;
      }
    }
  }

  /** What a stream has come to: the blocks, the one that text still joins, and the identifiers in use. */
  datatype Accumulated = Accumulated(output: seq<Block>, current: Option<nat>, toolCallIds: set<string>)

  function TextEvent(i: nat, part: Part): StreamEvent {
    if part.thought then ThinkingDelta(i, part.text) else TextDelta(i, part.text)
  }

  function TakeText(s: Accumulated, part: Part): Accumulated {
    s.(output := WithText(s.output, s.current, part),
       current := if Joins(s.output, s.current, part) then s.current else Some(|s.output|))
  }

  function CallId(inUse: set<string>, part: Part, made: string): string
    requires part.call.Some?
  {
    if part.call.value.id == "" || part.call.value.id in inUse then made else part.call.value.id
  }

  function CallBlock(part: Part, id: string): Block
    requires part.call.Some?
  {
    Empty(ToolKind).(id := id, name := part.call.value.name, arguments := part.call.value.arguments,
                     thoughtSignature := part.thoughtSignature)
  }

  function TakeCall(s: Accumulated, part: Part, made: string): Accumulated
    requires part.call.Some?
  {
    var id := CallId(s.toolCallIds, part, made);
    Accumulated(s.output + [CallBlock(part, id)], None, s.toolCallIds + {id})
  }

  function TakePart(s: Accumulated, part: Part, made: string): Accumulated {
    if part.call.Some? then TakeCall(s, part, made) else if part.text != "" then TakeText(s, part) else s
  }

  /** The parts of a chunk in order: calls, and text that is not empty. */
  function TakeParts(s: Accumulated, parts: seq<Part>, made: nat -> string, k: nat): Accumulated
    requires k <= |parts|
  {
    if k == 0 then s
    else
      TakePart(TakeParts(s, parts, made, k - 1), parts[k - 1], made(k - 1))
  }

  // ----- What the message says -----

  /** A letter of the answer or of a thought, or a call. */
  datatype Said = Spoken(thought: bool, letter: char) | Called(name: string, arguments: string, signature: string)

  function Say(thought: bool, text: string): seq<Said> {
    seq(|text|, i requires 0 <= i < |text| => Spoken(thought, text[i]))
  }

  function SaidBy(b: Block): seq<Said> {
    match b.kind
    case TextKind => Say(false, b.text)
    case ThinkingKind => Say(true, b.thinking)
    case ToolKind => [Called(b.name, b.arguments, b.thoughtSignature)]
  }

  /** All that a message says, in order, whatever its blocks. */
  function SaidAll(content: seq<Block>): seq<Said> {
    if content == [] then [] else SaidAll(content[..|content| - 1]) + SaidBy(content[|content| - 1])
  }

  function SaidIn(parts: seq<Part>): seq<Said> {
    if parts == [] then []
    else
      var last := parts[|parts| - 1];
      SaidIn(parts[..|parts| - 1])
      + if last.call.Some? then [Called(last.call.value.name, last.call.value.arguments, last.thoughtSignature)]
        else Say(last.thought, last.text)
  }

  /** Text joins the last block exactly when that is no call, and no two blocks in a row could have been one. */
  ghost predicate Steady(s: Accumulated) {
    && (s.current.Some? <==> s.output != [] && !s.output[|s.output| - 1].kind.ToolKind?)
    && (s.current.Some? ==> s.current.value == |s.output| - 1)
    && (forall i :: 0 < i < |s.output| && !s.output[i].kind.ToolKind? ==> s.output[i - 1].kind != s.output[i].kind)
  }

  lemma SayTwo(thought: bool, a: string, b: string)
    ensures Say(thought, a + b) == Say(thought, a) + Say(thought, b)
  {
  }

  lemma SaidSnoc(content: seq<Block>, b: Block)
    ensures SaidAll(content + [b]) == SaidAll(content) + SaidBy(b)
  {
    assert (content + [b])[..|content|] == content;
  }

  lemma TextSaid(s: Accumulated, part: Part)
    requires Steady(s)
    ensures Steady(TakeText(s, part))
    ensures SaidAll(TakeText(s, part).output) == SaidAll(s.output) + Say(part.thought, part.text)
  {
    hide SaidAll, Say;
    if Joins(s.output, s.current, part) {
      var front, last := s.output[..|s.output| - 1], s.output[|s.output| - 1];
      assert s.output == front + [last] && TakeText(s, part).output == front + [Extend(last, part)];
      SayTwo(part.thought, if part.thought then last.thinking else last.text, part.text);
      SaidSnoc(front, last);
      SaidSnoc(front, Extend(last, part));
    } else {
      assert "" + part.text == part.text;
      SaidSnoc(s.output, Extend(Opened(part), part));
    }
  }

  lemma PartSaid(s: Accumulated, part: Part, made: string)
    requires Steady(s)
    ensures Steady(TakePart(s, part, made))
    ensures SaidAll(TakePart(s, part, made).output) == SaidAll(s.output) + SaidIn([part])
  {
    hide SaidAll, Say;
    assert [part][..0] == [];
    assert SaidIn([]) + SaidIn([part]) == SaidIn([part]);
    if part.call.Some? {
      SaidSnoc(s.output, CallBlock(part, CallId(s.toolCallIds, part, made)));
    } else if part.text != "" {
      TextSaid(s, part);
    } else {
      NothingSaid(part.thought);
      assert SaidAll(s.output) + [] == SaidAll(s.output);
    }
  }

  lemma NothingSaid(thought: bool)
    ensures Say(thought, "") == []
  {
  }

  lemma SaidInSnoc(parts: seq<Part>, part: Part)
    ensures SaidIn(parts + [part]) == SaidIn(parts) + SaidIn([part])
  {
    assert (parts + [part])[..|parts|] == parts && [part][..0] == [];
  }

  /** The message says exactly what the parts say, letter by letter and call by call, in order; what goes on in the same
      voice is one block. */
  lemma {:induction false} PartsAreSaid(parts: seq<Part>, made: nat -> string, k: nat)
    requires k <= |parts|
    ensures var s := TakeParts(Accumulated([], None, {}), parts, made, k);
            Steady(s) && SaidAll(s.output) == SaidIn(parts[..k])
  {
    hide TakePart, Steady;
    if k == 0 {
      NothingTaken();
      assert parts[..0] == [];
    } else {
      PartsAreSaid(parts, made, k - 1);
      PartSaid(TakeParts(Accumulated([], None, {}), parts, made, k - 1), parts[k - 1], made(k - 1));
      SaidInSnoc(parts[..k - 1], parts[k - 1]);
      assert parts[..k - 1] + [parts[k - 1]] == parts[..k];
    }
  }

  lemma NothingTaken()
    ensures Steady(Accumulated([], None, {})) && SaidAll([]) == []
  {
  }

  /** A block that is there only gains text; a new one has the identity and the signature its part brought, with an
      identifier made up only if that one is missing or in use. */
  lemma PartKeepsBlocks(s: Accumulated, part: Part, made: string)
    ensures var after := TakePart(s, part, made).output;
            && |s.output| <= |after| <= |s.output| + 1
            && (forall i :: 0 <= i < |s.output| ==>
                  after[i].(text := "", thinking := "") == s.output[i].(text := "", thinking := ""))
            && (|after| > |s.output| ==>
                var b := after[|s.output|];
                match part.call
                case None => b.id == b.name == b.arguments == b.thoughtSignature == "" && !b.redacted
                             && b.signature == if part.thought then part.thoughtSignature else ""
                case Some(call) =>
                  && (b.id == call.id || (b.id == made && (call.id == "" || call.id in s.toolCallIds)))
                  && (b.id == made || (call.id != "" && call.id !in s.toolCallIds)))
  {
  }

  // ----- Distinct identifiers -----

  predicate NeedsId(s: Accumulated, part: Part) {
    part.call.Some? && (part.call.value.id == "" || part.call.value.id in s.toolCallIds)
  }

  /** Part `i` needed an identifier made up here, and got one that was in use. */
  predicate CollidesAt(s: Accumulated, parts: seq<Part>, made: nat -> string, i: nat)
    requires i < |parts|
  {
    var before := TakeParts(s, parts, made, i);
    NeedsId(before, parts[i]) && made(i) in before.toolCallIds
  }

  ghost predicate KnowsIds(s: Accumulated) {
    forall id :: id in ToolIds(s.output) <==> id in s.toolCallIds
  }

  lemma TextKeepsIds(s: Accumulated, part: Part)
    ensures ToolIds(TakeText(s, part).output) == ToolIds(s.output)
  {
    if Joins(s.output, s.current, part) {
      ToolIdsKept(s.output, TakeText(s, part).output);
    } else {
      ToolIdsSnoc(s.output, Extend(Opened(part), part));
    }
  }

  /** One part: the identifiers it adds, and whether they stay distinct. */
  lemma PartKeepsDistinct(s: Accumulated, part: Part, made: string)
    requires KnowsIds(s)
    ensures var after := TakePart(s, part, made);
            KnowsIds(after)
            && (Distinct(ToolIds(after.output)) <==>
                Distinct(ToolIds(s.output)) && !(NeedsId(s, part) && made in s.toolCallIds))
  {
    hide Distinct, ToolIds, CallBlock, WithText;
    if part.call.Some? {
      var id := CallId(s.toolCallIds, part, made);
      CallIsTool(part, id);
      ToolIdsSnoc(s.output, CallBlock(part, id));
      DistinctSnoc(ToolIds(s.output), id);
    } else {
      TextKeepsIds(s, part);
    }
  }

  /** Over any sequence of parts, the identifiers of the tool calls stay distinct if and only if no call that needed a
      made-up identifier got one that was in use. */
  lemma {:induction false} DistinctExactly(s: Accumulated, parts: seq<Part>, made: nat -> string, k: nat)
    requires k <= |parts| && KnowsIds(s) && Distinct(ToolIds(s.output))
    ensures KnowsIds(TakeParts(s, parts, made, k))
    ensures Distinct(ToolIds(TakeParts(s, parts, made, k).output)) <==>
            forall i :: 0 <= i < k ==> !CollidesAt(s, parts, made, i)
  {
    hide Distinct, ToolIds, TakePart, KnowsIds;
    if k > 0 {
      DistinctExactly(s, parts, made, k - 1);
      var before := TakeParts(s, parts, made, k - 1);
      PartKeepsDistinct(before, parts[k - 1], made(k - 1));
      assert CollidesAt(s, parts, made, k - 1) <==> NeedsId(before, parts[k - 1]) && made(k - 1) in before.toolCallIds;
    }
  }

  lemma CallIsTool(part: Part, id: string)
    requires part.call.Some?
    ensures CallBlock(part, id).kind.ToolKind? && CallBlock(part, id).id == id
  {
  }

  /** The exception is real: a made-up identifier that an earlier call already bears gives two calls the same one. */
  lemma MadeUpIdExample()
    ensures var first := Part("", false, "", Some(FuncCall("f_1", "f", "{}")));
            var second := Part("", false, "", Some(FuncCall("", "f", "{}")));
            ToolIds(TakeParts(Accumulated([], None, {}), [first, second], (i: nat) => "f_1", 2).output) ==
            ["f_1", "f_1"]
  {
    var first := Part("", false, "", Some(FuncCall("f_1", "f", "{}")));
    var second := Part("", false, "", Some(FuncCall("", "f", "{}")));
    var parts, made, s := [first, second], (i: nat) => "f_1", Accumulated([], None, {});
    var one, two := CallBlock(first, "f_1"), CallBlock(second, "f_1");
    assert TakeParts(s, parts, made, 0) == s;
    assert TakeParts(s, parts, made, 1).output == [one];
    assert TakeParts(s, parts, made, 2).output == [one, two];
    ToolIdsSnoc([], one);
    ToolIdsSnoc([one], two);
    assert [] + [one] == [one] && [one] + [two] == [one, two];
  }

  /** Calls were closed as they came; the other blocks are closed in order. */
  function Closings(output: seq<Block>, k: nat): seq<StreamEvent>
    requires k <= |output|
  {
    if k == 0 then []
    else Closings(output, k - 1) + if output[k - 1].kind.ToolKind? then [] else [Closing(k - 1, output[k - 1])]
  }

  function Extend(b: Block, part: Part): Block {
    if part.thought then b.(thinking := b.thinking + part.text) else b.(text := b.text + part.text)
  }

  function Opened(part: Part): Block {
    if part.thought then Empty(ThinkingKind).(signature := part.thoughtSignature) else Empty(TextKind)
  }

  predicate Joins(output: seq<Block>, current: Option<nat>, part: Part) {
    current.Some? && current.value < |output|
    && output[current.value].kind == if part.thought then ThinkingKind else TextKind
  }

  function WithText(output: seq<Block>, current: Option<nat>, part: Part): seq<Block> {
    if Joins(output, current, part) then output[current.value := Extend(output[current.value], part)]
    else output + [Extend(Opened(part), part)]
  }

  /** The events of a text part do to the builder what the part does to the message. */
  lemma TextJoins(b: seq<Block>, output: seq<Block>, i: nat, part: Part)
    requires AllSame(b, output) && i < |output|
    ensures AllSame(FoldOne(b, if part.thought then ThinkingDelta(i, part.text) else TextDelta(i, part.text)),
                    output[i := Extend(output[i], part)])
    ensures ToolIds(output[i := Extend(output[i], part)]) == ToolIds(output)
  {
    hide FoldOne, ToolIds;
    FoldOneIs(b, if part.thought then ThinkingDelta(i, part.text) else TextDelta(i, part.text));
    ToolIdsKept(output[i := Extend(output[i], part)], output);
  }

  lemma TextOpens(b: seq<Block>, output: seq<Block>, part: Part, e: StreamEvent, f: StreamEvent)
    requires AllSame(b, output)
    requires e == (if part.thought then ThinkingStart(|output|) else TextStart(|output|))
    requires f == (if part.thought then ThinkingDelta(|output|, part.text) else TextDelta(|output|, part.text))
    ensures AllSame(FoldOne(FoldOne(b, e), f), output + [Extend(Opened(part), part)])
    ensures ToolIds(output + [Extend(Opened(part), part)]) == ToolIds(output)
  {
    hide FoldOne, ToolIds;
    FoldOpening(b, e, f);
    ToolIdsSnoc(output, Extend(Opened(part), part));
  }

  lemma CallMirrored(b: seq<Block>, output: seq<Block>, call: Block, events: seq<StreamEvent>)
    requires AllSame(b, output)
    requires events == [ToolStart(|output|, Some(call)), ToolDelta(|output|, call.arguments),
                        ToolEnd(|output|, Some(call))]
    ensures AllSame(FoldOne(FoldOne(FoldOne(b, events[0]), events[1]), events[2]), output + [call])
  {
    hide FoldOne;
    FoldOpening(b, events[0], events[1]);
    FoldOneIs(b + [OnBlock(OnBlock(Empty(ToolKind), events[0]), events[1])], events[2]);
  }

  lemma ClosingKeeps(sent: seq<StreamEvent>, output: seq<Block>, i: nat, events: seq<StreamEvent>)
    requires AllSame(FoldAll(sent), output) && i < |output| && |events| <= 1
    requires events != [] ==> events[0] == TextEnd(i, output[i].text) || events[0] == ThinkingEnd(i, output[i].thinking)
    ensures AllSame(FoldAll(sent + events), output)
  {
    hide FoldAll, FoldOne, AllSame;
    FoldAppend(sent, events);
    ClosingMirrored(FoldAll(sent), output, i, events);
  }

  lemma ClosingMirrored(b: seq<Block>, output: seq<Block>, i: nat, events: seq<StreamEvent>)
    requires AllSame(b, output) && i < |output| && |events| <= 1
    requires events != [] ==> events[0] == TextEnd(i, output[i].text) || events[0] == ThinkingEnd(i, output[i].thinking)
    ensures AllSame(if events == [] then b else FoldOne(b, events[0]), output)
  {
    hide FoldOne;
    if events != [] {
      FoldOneIs(b, events[0]);
    }
  }

}

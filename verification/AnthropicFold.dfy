/** Folding Anthropic content-block events into a message and stream events. */
module AnthropicFold {
  import opened AssistantBuilder
  import opened Options

  const REDACTED := "[Reasoning redacted]"

  datatype BlockStart =
    | TextBlock
    | ThinkingBlock
    | RedactedBlock(data: string)
    | ToolUse(id: string, name: string, input: string)
    | UnknownBlock

  datatype Delta =
    | TextPart(text: string)
    | ThinkingPart(thinking: string)
    | JsonPart(json: string)
    | SignaturePart(signature: string)
    | UnknownPart

  /** A block in progress: the provider's index, its place in the message, and the argument text so far. */
  datatype FoldBlock = FoldBlock(anthropicIndex: int, contentIndex: nat, partialJson: string)

  function Find(blocks: seq<FoldBlock>, index: int, i: nat): (k: nat)
    requires i <= |blocks|
    ensures i <= k <= |blocks| && (k < |blocks| ==> blocks[k].anthropicIndex == index)
    ensures forall j :: i <= j < k ==> blocks[j].anthropicIndex != index
    decreases |blocks| - i
  {
    if i == |blocks| || blocks[i].anthropicIndex == index then i else Find(blocks, index, i + 1)
  }

  /** The argument fragments sent for one index, one after the other. */
  function Joined(fragments: seq<(int, string)>, index: int): string {
    if fragments == [] then ""
    else
      var last := fragments[|fragments| - 1];
      Joined(fragments[..|fragments| - 1], index) + if last.0 == index then last.1 else ""
  }

  lemma JoinedSnoc(fragments: seq<(int, string)>, index: int, f: (int, string))
    ensures Joined(fragments + [f], index) == Joined(fragments, index) + if f.0 == index then f.1 else ""
  {
    assert (fragments + [f])[..|fragments|] == fragments;
  }

  lemma {:induction false} JoinedNone(fragments: seq<(int, string)>, index: int)
    requires forall f :: f in fragments ==> f.0 != index
    ensures Joined(fragments, index) == ""
  {
    if fragments != [] {
      JoinedNone(fragments[..|fragments| - 1], index);
    }
  }

  /** How the builder's block stands to the message's: equal, except for what only the closing event brings, the text of
      a redacted thought and the arguments of a call. `closed` says that event came and no fragment after it. */
  predicate Mirrors(b: Block, p: Block, closed: bool) {
    && b.kind == p.kind && b.text == p.text && b.id == p.id && b.name == p.name
    && p.thinking == (if p.redacted && !closed then REDACTED else "") + b.thinking
    && ((!closed && p.kind.ToolKind?) || b.arguments == p.arguments)
    && (p.redacted ==> p.kind.ThinkingKind?)
  }

  ghost predicate AllMirror(b: seq<Block>, p: seq<Block>, closed: set<nat>) {
    |b| == |p| && forall i :: 0 <= i < |p| ==> Mirrors(b[i], p[i], i in closed)
  }

  /** The blocks stand for the places of the message in order, and the first block with an index holds the argument text
      sent for that index. */
  ghost predicate Indexed(blocks: seq<FoldBlock>, n: nat, fragments: seq<(int, string)>) {
    && |blocks| == n && (forall k :: 0 <= k < n ==> IndexedAt(blocks, fragments, k))
    && (forall f :: f in fragments ==> Find(blocks, f.0, 0) < n)
  }

  ghost predicate IndexedAt(blocks: seq<FoldBlock>, fragments: seq<(int, string)>, k: nat)
    requires k < |blocks|
  {
    && blocks[k].contentIndex == k
    && (Find(blocks, blocks[k].anthropicIndex, 0) == k ==>
        blocks[k].partialJson == Joined(fragments, blocks[k].anthropicIndex))
  }

  lemma FindIs(blocks: seq<FoldBlock>, index: int, k: nat)
    requires k <= |blocks| && (k < |blocks| ==> blocks[k].anthropicIndex == index)
    requires forall j :: 0 <= j < k ==> blocks[j].anthropicIndex != index
    ensures Find(blocks, index, 0) == k
  {
    var f := Find(blocks, index, 0);
  }

  lemma FindSnoc(blocks: seq<FoldBlock>, index: int, b: FoldBlock)
    ensures Find(blocks + [b], index, 0) ==
            if Find(blocks, index, 0) < |blocks| then Find(blocks, index, 0)
            else if b.anthropicIndex == index then |blocks| else |blocks| + 1
  {
    hide *;
    var f := Find(blocks, index, 0);
    var after := blocks + [b];
    FindIs(after, index, if f < |blocks| then f else if b.anthropicIndex == index then |blocks| else |blocks| + 1);
  }

  lemma IndexedStart(blocks: seq<FoldBlock>, n: nat, fragments: seq<(int, string)>, index: int)
    requires Indexed(blocks, n, fragments)
    ensures Indexed(blocks + [FoldBlock(index, n, "")], n + 1, fragments)
  {
    hide Find, Joined;
    var b := FoldBlock(index, n, "");
    var after := blocks + [b];
    forall k | 0 <= k <= n
      ensures IndexedAt(after, fragments, k)
    {
      FindSnoc(blocks, after[k].anthropicIndex, b);
      if k < n {
        assert IndexedAt(blocks, fragments, k);
      } else if Find(after, index, 0) == n {
        JoinedNone(fragments, index);
      }
    }
    forall f | f in fragments
      ensures Find(after, f.0, 0) < n + 1
    {
      FindSnoc(blocks, f.0, b);
    }
  }

  lemma IndexedDelta(blocks: seq<FoldBlock>, n: nat, fragments: seq<(int, string)>, index: int, json: string)
    requires Indexed(blocks, n, fragments) && Find(blocks, index, 0) < n
    ensures var k := Find(blocks, index, 0);
            Indexed(blocks[k := blocks[k].(partialJson := blocks[k].partialJson + json)], n,
                    fragments + [(index, json)])
  {
    hide Find, Joined;
    var k := Find(blocks, index, 0);
    var after, log := blocks[k := blocks[k].(partialJson := blocks[k].partialJson + json)], fragments + [(index, json)];
    forall j | 0 <= j < n
      ensures IndexedAt(after, log, j)
    {
      assert IndexedAt(blocks, fragments, j);
      FindIs(after, after[j].anthropicIndex, Find(blocks, after[j].anthropicIndex, 0));
      JoinedSnoc(fragments, after[j].anthropicIndex, (index, json));
    }
    forall f | f in log
      ensures Find(after, f.0, 0) < n
    {
      assert f in fragments || f == (index, json);
      FindIs(after, f.0, Find(blocks, f.0, 0));
    }
  }

  lemma FoundAt(blocks: seq<FoldBlock>, n: nat, fragments: seq<(int, string)>, index: int)
    requires Indexed(blocks, n, fragments) && Find(blocks, index, 0) < n
    ensures var k := Find(blocks, index, 0);
            blocks[k].contentIndex == k && blocks[k].partialJson == Joined(fragments, index)
  {
    assert IndexedAt(blocks, fragments, Find(blocks, index, 0));
  }

  function OpeningEvent(i: nat, opening: Block): StreamEvent {
    match opening.kind
    case TextKind => TextStart(i)
    case ThinkingKind => ThinkingStart(i)
    case ToolKind => ToolStart(i, Some(opening))
  }

  class Fold {
    const streamingJson: string -> string
    const finalJson: string -> string
    const toolName: string -> string
    var output: seq<Block>
    var blocks: seq<FoldBlock>
    /** The events sent so far, the argument fragments taken so far, and the blocks closed since they last changed. */
    ghost var sent: seq<StreamEvent>
    ghost var fragments: seq<(int, string)>
    ghost var closed: set<nat>
    /** The provider's events folded so far. */
    ghost var raw: seq<RawEvent>

    ghost predicate Valid()
      reads `output, `blocks, `sent, `fragments, `closed
    {
      && AllMirror(FoldAll(sent), output, closed) && Indexed(blocks, |output|, fragments)
      && forall i :: i in closed ==> i < |output|
    }

    constructor (streamingJson: string -> string, finalJson: string -> string, toolName: string -> string)
      ensures Valid() && output == [] && sent == [] && fragments == [] && raw == []
      ensures Traced(raw, blocks, output, closed) && Tells(raw, blocks, output)
    {
      this.streamingJson, this.finalJson, this.toolName := streamingJson, finalJson, toolName;
      output, blocks, sent, fragments, closed, raw := [], [], [], [], {}, [];
    }

    function Opening(start: BlockStart): Block {
      match start
      case RedactedBlock(data) => Empty(ThinkingKind).(thinking := REDACTED, signature := data, redacted := true)
      case ToolUse(id, name, input) => Empty(ToolKind).(id := id, name := toolName(name), arguments := input)
      case ThinkingBlock => Empty(ThinkingKind)
      case _ => Empty(TextKind)
    }

    /** A known block opens at the end of the message. */
    method BlockStart(index: int, start: BlockStart) returns (events: seq<StreamEvent>)
      requires Valid()
      modifies `output, `blocks, `sent
      ensures Valid() && sent == old(sent) + events
      ensures output == old(output) + if start.UnknownBlock? then [] else [Opening(start)]
      ensures blocks == old(blocks) + if start.UnknownBlock? then [] else [FoldBlock(index, |old(output)|, "")]
      ensures events == if start.UnknownBlock? then [] else [OpeningEvent(|old(output)|, Opening(start))]
    {
      hide FoldAll, FoldOne, AllMirror, Mirrors, Indexed;
      var i := |output|;
      match start {
        case TextBlock =>
          output := output + [Empty(TextKind)];
          events := [TextStart(i)];
        case ThinkingBlock =>
          output := output + [Empty(ThinkingKind)];
          events := [ThinkingStart(i)];
        case RedactedBlock(data) =>
          output := output + [Empty(ThinkingKind).(thinking := REDACTED, signature := data, redacted := true)];
          events := [ThinkingStart(i)];
        case ToolUse(id, name, input) =>
          var block := Empty(ToolKind).(id := id, name := toolName(name), arguments := input);
          output := output + [block];
          events := [ToolStart(i, Some(block))];
        case UnknownBlock =>
          assert sent + [] == sent && output + [] == output && blocks + [] == blocks;
          return [];
      }
      IndexedStart(blocks, i, fragments, index);
      blocks := blocks + [FoldBlock(index, i, "")];
      FoldAppend(sent, events);
      StartMirrored(FoldAll(sent), old(output), closed, output[i], events[0]);
      sent := sent + events;
    }

    /** What a delta does to the block it is for, given the block's argument text after it. */
    function Changed(b: Block, delta: Delta, partialJson: string): (r: Block)
      ensures r.kind == b.kind && r.redacted == b.redacted
    {
      match delta
      case TextPart(text) => if b.kind.TextKind? then b.(text := b.text + text) else b
      case ThinkingPart(thinking) => if b.kind.ThinkingKind? then b.(thinking := b.thinking + thinking) else b
      case JsonPart(_) => if b.kind.ToolKind? then b.(arguments := streamingJson(partialJson)) else b
      case SignaturePart(signature) => if b.kind.ThinkingKind? then b.(signature := b.signature + signature) else b
      case UnknownPart => b
    }

    /** The event that passes on a delta; signatures are not passed on. */
    function DeltaEvents(k: nat, b: Block, delta: Delta): seq<StreamEvent> {
      match delta
      case TextPart(text) => if b.kind.TextKind? then [TextDelta(k, text)] else []
      case ThinkingPart(thinking) => if b.kind.ThinkingKind? then [ThinkingDelta(k, thinking)] else []
      case JsonPart(json) => if b.kind.ToolKind? then [ToolDelta(k, json)] else []
      case _ => []
    }

    /** A delta changes the first block with its index and no other. */
    method BlockDelta(index: int, delta: Delta) returns (events: seq<StreamEvent>)
      requires Valid()
      modifies `output, `blocks, `sent, `fragments, `closed
      ensures Valid() && sent == old(sent) + events
      ensures var k := Find(old(blocks), index, 0);
              if k < |old(blocks)| then
                && k < |old(output)| && output == old(output)[k := Changed(old(output)[k], delta,
                                                                           Joined(fragments, index))]
                && events == DeltaEvents(k, old(output)[k], delta)
                && fragments == old(fragments) + if delta.JsonPart? && old(output)[k].kind.ToolKind?
                   then [(index, delta.json)] else []
              else events == [] && output == old(output) && fragments == old(fragments)
      ensures var k := Find(old(blocks), index, 0);
              if k < |old(blocks)| then
                && blocks == old(blocks)[k := old(blocks)[k].(partialJson := Joined(fragments, index))]
                && closed == old(closed) - if delta.JsonPart? && old(output)[k].kind.ToolKind? then {k} else {}
              else blocks == old(blocks) && closed == old(closed)
    {
      hide FoldAll, FoldOne, AllMirror, Mirrors, Joined;
      events := [];
      assert sent + events == sent && fragments + [] == fragments;
      var k := Find(blocks, index, 0);
      if k == |blocks| {
        return;
      }
      FoundAt(blocks, |output|, fragments, index);
      hide Indexed;
      var block := output[k];
      match delta {
        case TextPart(text) =>
          if block.kind.TextKind? {
            output := output[k := block.(text := block.text + text)];
            events := [TextDelta(k, text)];
          }
        case ThinkingPart(thinking) =>
          if block.kind.ThinkingKind? {
            output := output[k := block.(thinking := block.thinking + thinking)];
            events := [ThinkingDelta(k, thinking)];
          }
        case JsonPart(json) =>
          if block.kind.ToolKind? {
            IndexedDelta(blocks, |output|, fragments, index, json);
            JoinedSnoc(fragments, index, (index, json));
            blocks := blocks[k := blocks[k].(partialJson := blocks[k].partialJson + json)];
            output := output[k := block.(arguments := streamingJson(blocks[k].partialJson))];
            events := [ToolDelta(k, json)];
            fragments := fragments + [(index, json)];
            closed := closed - {k};
          }
        case SignaturePart(signature) =>
          if block.kind.ThinkingKind? {
            output := output[k := block.(signature := block.signature + signature)];
          }
        case UnknownPart =>
      }
      FoldAppend(sent, events);
      assert blocks == old(blocks)[k := blocks[k]] && closed - {} == closed;
      assert output == old(output)[k := output[k]];
      DeltaMirrored(FoldAll(sent), old(output), old(closed), k, output[k], events, closed);
      sent := sent + events;
    }

    /** Closing the first block with an index makes the builder's block equal to the message's. */
    method BlockStop(index: int) returns (events: seq<StreamEvent>)
      requires Valid()
      modifies `output, `sent, `closed
      ensures Valid() && sent == old(sent) + events
      ensures var k := Find(blocks, index, 0);
              if k < |blocks| then
                && k < |old(output)| && closed == old(closed) + {k}
                && output == old(output)[k := if old(output)[k].kind.ToolKind?
                                         then old(output)[k].(arguments := finalJson(Joined(fragments, index)))
                                              else old(output)[k]]
                && events == [Closing(k, output[k])]
              else events == [] && output == old(output) && closed == old(closed)
    {
      hide FoldAll, FoldOne, AllMirror, Mirrors, Joined;
      events := [];
      assert sent + events == sent;
      var k := Find(blocks, index, 0);
      if k == |blocks| {
        return;
      }
      FoundAt(blocks, |output|, fragments, index);
      hide Indexed;
      match output[k].kind {
        case TextKind => events := [TextEnd(k, output[k].text)];
        case ThinkingKind => events := [ThinkingEnd(k, output[k].thinking)];
        case ToolKind =>
          output := output[k := output[k].(arguments := finalJson(blocks[k].partialJson))];
          events := [ToolEnd(k, Some(output[k]))];
      }
      closed := closed + {k};
      FoldAppend(sent, events);
      assert output == old(output)[k := output[k]];
      StopMirrored(FoldAll(sent), old(output), old(closed), k, output[k], events[0], closed);
      sent := sent + events;
    }

    /** Once every call and every redacted thought is closed, the builder holds exactly the message; text and plain
        thinking agree all along. */
    lemma ClosedMeansSame()
      requires Valid()
      ensures |FoldAll(sent)| == |output|
      ensures forall i :: 0 <= i < |output| && !output[i].redacted ==>
                FoldAll(sent)[i].text == output[i].text && FoldAll(sent)[i].thinking == output[i].thinking
      ensures (forall i :: 0 <= i < |output| && (output[i].kind.ToolKind? || output[i].redacted) ==> i in closed) ==>
                AllSame(FoldAll(sent), output)
    {
      hide FoldAll, Indexed;
    }

    // ----- A whole stream -----

    /** One event of the provider; those that are not about a content block leave the content alone. */
    method FoldEvent(ev: RawEvent) returns (events: seq<StreamEvent>)
      requires Valid() && Traced(raw, blocks, output, closed) && Tells(raw, blocks, output)
      modifies `output, `blocks, `sent, `fragments, `closed, `raw
      ensures Valid() && Traced(raw, blocks, output, closed) && Tells(raw, blocks, output)
      ensures raw == old(raw) + [ev] && sent == old(sent) + events
    {
      hide Valid, Traced, Joined, Changed, DeltaEvents, Opening, Tells;
      TracedSize(raw, blocks, output, closed);
      raw := raw + [ev];
      match ev {
        case StartEvent(index, start) =>
          events := BlockStart(index, start);
          OpeningIs(start);
          TracedStart(old(raw), old(blocks), old(output), closed, index, start, blocks, output);
          TellsStart(old(raw), old(blocks), old(output), index, start, blocks, output);
        case DeltaEvent(index, delta) =>
          JoinsFragment(index, delta);
          events := BlockDelta(index, delta);
          assert old(fragments) + [] == old(fragments);
          TracedDelta(old(raw), old(blocks), old(output), old(closed), index, delta, blocks, output, closed);
          TellsDelta(old(raw), old(blocks), old(output), old(closed), index, delta, blocks, output);
        case StopEvent(index) =>
          JoinsFragment(index, UnknownPart);
          events := BlockStop(index);
          TracedStop(old(raw), blocks, old(output), old(closed), index, output, closed);
          TellsStop(old(raw), blocks, old(output), old(closed), index, output);
        case OtherEvent =>
          events := [];
          assert sent + events == sent;
          TracedOther(old(raw), blocks, output, closed);
          TellsOther(old(raw), blocks, output);
      }
    }

    /** The block found for an index holds the fragments sent for it, and one more fragment comes at their end. */
    lemma JoinsFragment(index: int, delta: Delta)
      requires Valid()
      ensures var k := Find(blocks, index, 0);
              k < |blocks| ==>
                && k < |output| && blocks[k].partialJson == Joined(fragments, index)
                && (delta.JsonPart? ==>
                    Joined(fragments + [(index, delta.json)], index) == blocks[k].partialJson + delta.json)
    {
      hide FoldAll, AllMirror, Joined;
      if Find(blocks, index, 0) < |blocks| {
        FoundAt(blocks, |output|, fragments, index);
        if delta.JsonPart? {
          JoinedSnoc(fragments, index, (index, delta.json));
        }
      }
    }

    lemma OpeningIs(start: BlockStart)
      ensures (Opening(start).kind.ToolKind? <==> start.ToolUse?)
              && (Opening(start).redacted <==> start.RedactedBlock?)
    {
    }

    /** What the stream says about a block that started with `start`: its text, thought, signature and arguments. */
    function Told(raw: seq<RawEvent>, index: int, start: BlockStart): Block {
      var thought, signature := SentFor(raw, index, THOUGHT), SentFor(raw, index, SIGNATURE);
      match start
      case ThinkingBlock => Empty(ThinkingKind).(thinking := thought, signature := signature)
      case RedactedBlock(data) =>
        Empty(ThinkingKind).(thinking := REDACTED + thought, signature := data + signature, redacted := true)
      case ToolUse(id, name, input) =>
        Empty(ToolKind).(id := id, name := toolName(name), arguments := ArgumentsFor(raw, index, input))
      case _ => Empty(TextKind).(text := SentFor(raw, index, TEXT))
    }

    /** The arguments a call has after these events: those it started with, or what the fragments so far parse to, the
        final way once it is stopped. */
    function ArgumentsFor(raw: seq<RawEvent>, index: int, input: string): string {
      if raw == [] then input
      else
        var before := ArgumentsFor(raw[..|raw| - 1], index, input);
        match raw[|raw| - 1]
        case StartEvent(i, start) => if i == index && !start.UnknownBlock? then input else before
        case DeltaEvent(i, delta) =>
          if i == index && delta.JsonPart? then streamingJson(SentFor(raw, index, FRAGMENT)) else before
        case StopEvent(i) => if i == index then finalJson(SentFor(raw, index, FRAGMENT)) else before
        case OtherEvent => before
    }

    /** When no index starts two blocks, the message is what the stream says. */
    ghost predicate Tells(raw: seq<RawEvent>, blocks: seq<FoldBlock>, output: seq<Block>) {
      && |blocks| == |output| == |Starts(raw)|
      && (DistinctStarts(raw) ==> forall k :: 0 <= k < |output| ==> TellsAt(raw, blocks, output, k))
    }

    ghost predicate TellsAt(raw: seq<RawEvent>, blocks: seq<FoldBlock>, output: seq<Block>, k: nat)
      requires k < |blocks| == |output| == |Starts(raw)|
    {
      var (index, start) := Starts(raw)[k];
      && !start.UnknownBlock? && output[k] == Told(raw, index, start)
      && (start.ToolUse? ==> blocks[k].partialJson == SentFor(raw, index, FRAGMENT))
    }

    lemma ToldSnoc(raw: seq<RawEvent>, ev: RawEvent, index: int, start: BlockStart, input: string, of: Delta -> string)
      ensures SentFor(raw + [ev], index, of) ==
              match ev
              case StartEvent(i, s) => if i == index && !s.UnknownBlock? then "" else SentFor(raw, index, of)
              case DeltaEvent(i, delta) => SentFor(raw, index, of) + if i == index then of(delta) else ""
              case _ => SentFor(raw, index, of)
      ensures ArgumentsFor(raw + [ev], index, input) ==
              match ev
              case StartEvent(i, s) =>
                if i == index && !s.UnknownBlock? then input else ArgumentsFor(raw, index, input)
              case DeltaEvent(i, delta) =>
                if i == index && delta.JsonPart? then streamingJson(SentFor(raw + [ev], index, FRAGMENT))
                else ArgumentsFor(raw, index, input)
              case StopEvent(i) =>
                if i == index then finalJson(SentFor(raw + [ev], index, FRAGMENT)) else ArgumentsFor(raw, index, input)
              case OtherEvent => ArgumentsFor(raw, index, input)
    {
      assert (raw + [ev])[..|raw|] == raw;
    }

    /** An event for another index says nothing about a block. */
    lemma ToldElsewhere(raw: seq<RawEvent>, ev: RawEvent, index: int, start: BlockStart)
      requires match ev
               case StartEvent(i, s) => i != index || s.UnknownBlock?
               case DeltaEvent(i, _) => i != index
               case StopEvent(i) => i != index
               case OtherEvent => true
      ensures Told(raw + [ev], index, start) == Told(raw, index, start)
      ensures SentFor(raw + [ev], index, FRAGMENT) == SentFor(raw, index, FRAGMENT)
    {
      hide SentFor, ArgumentsFor;
      var input := if start.ToolUse? then start.input else "";
      ToldSnoc(raw, ev, index, start, input, TEXT);
      ToldSnoc(raw, ev, index, start, input, THOUGHT);
      ToldSnoc(raw, ev, index, start, input, SIGNATURE);
      ToldSnoc(raw, ev, index, start, input, FRAGMENT);
      assert forall s: string :: s + "" == s;
    }

    lemma ToldFirst(raw: seq<RawEvent>, index: int, start: BlockStart)
      requires !start.UnknownBlock?
      ensures Told(raw + [StartEvent(index, start)], index, start) == Opening(start)
      ensures SentFor(raw + [StartEvent(index, start)], index, FRAGMENT) == ""
    {
      hide SentFor, ArgumentsFor;
      var ev, input := StartEvent(index, start), if start.ToolUse? then start.input else "";
      ToldSnoc(raw, ev, index, start, input, TEXT);
      ToldSnoc(raw, ev, index, start, input, THOUGHT);
      ToldSnoc(raw, ev, index, start, input, SIGNATURE);
      ToldSnoc(raw, ev, index, start, input, FRAGMENT);
      assert REDACTED + "" == REDACTED;
      assert start.RedactedBlock? ==> start.data + "" == start.data;
    }

    /** A delta for a block's own index adds to it. */
    lemma ToldDelta(raw: seq<RawEvent>, index: int, start: BlockStart, delta: Delta, b: Block, partialJson: string)
      requires !start.UnknownBlock? && b == Told(raw, index, start)
      requires start.ToolUse? && delta.JsonPart? ==> partialJson == SentFor(raw, index, FRAGMENT) + delta.json
      ensures Told(raw + [DeltaEvent(index, delta)], index, start) == Changed(b, delta, partialJson)
      ensures SentFor(raw + [DeltaEvent(index, delta)], index, FRAGMENT) ==
              SentFor(raw, index, FRAGMENT) + FRAGMENT(delta)
    {
      hide SentFor, ArgumentsFor;
      var ev, input := DeltaEvent(index, delta), if start.ToolUse? then start.input else "";
      ToldSnoc(raw, ev, index, start, input, TEXT);
      ToldSnoc(raw, ev, index, start, input, THOUGHT);
      ToldSnoc(raw, ev, index, start, input, SIGNATURE);
      ToldSnoc(raw, ev, index, start, input, FRAGMENT);
      assert forall s: string :: s + "" == s;
      assert REDACTED + SentFor(raw, index, THOUGHT) + THOUGHT(delta) ==
             REDACTED + (SentFor(raw, index, THOUGHT) + THOUGHT(delta));
      assert start.RedactedBlock? ==>
          start.data + SentFor(raw, index, SIGNATURE) + SIGNATURE(delta) ==
          start.data + (SentFor(raw, index, SIGNATURE) + SIGNATURE(delta));
    }

    lemma ToldStop(raw: seq<RawEvent>, index: int, start: BlockStart)
      requires !start.UnknownBlock?
      ensures var b := Told(raw, index, start);
              Told(raw + [StopEvent(index)], index, start) ==
              if start.ToolUse? then b.(arguments := finalJson(SentFor(raw, index, FRAGMENT))) else b
      ensures SentFor(raw + [StopEvent(index)], index, FRAGMENT) == SentFor(raw, index, FRAGMENT)
    {
      hide SentFor, ArgumentsFor;
      var ev, input := StopEvent(index), if start.ToolUse? then start.input else "";
      ToldSnoc(raw, ev, index, start, input, TEXT);
      ToldSnoc(raw, ev, index, start, input, THOUGHT);
      ToldSnoc(raw, ev, index, start, input, SIGNATURE);
      ToldSnoc(raw, ev, index, start, input, FRAGMENT);
    }

    lemma TellsStart(raw: seq<RawEvent>, blocks: seq<FoldBlock>, output: seq<Block>, index: int, start: BlockStart,
                     blocksAfter: seq<FoldBlock>, outputAfter: seq<Block>)
      requires Tells(raw, blocks, output)
      requires outputAfter == output + if start.UnknownBlock? then [] else [Opening(start)]
      requires blocksAfter == blocks + if start.UnknownBlock? then [] else [FoldBlock(index, |output|, "")]
      ensures Tells(raw + [StartEvent(index, start)], blocksAfter, outputAfter)
    {
      hide Starts, DistinctStarts, Told, SentFor, Opening;
      var ev := StartEvent(index, start);
      EventsSnoc(raw, ev, index, false);
      if DistinctStarts(raw + [ev]) {
        DistinctBefore(raw, ev);
        forall k | 0 <= k < |outputAfter|
          ensures TellsAt(raw + [ev], blocksAfter, outputAfter, k)
        {
          if k < |output| {
            assert TellsAt(raw, blocks, output, k);
            ToldElsewhere(raw, ev, Starts(raw)[k].0, Starts(raw)[k].1);
          } else {
            ToldFirst(raw, index, start);
          }
        }
      }
    }

    lemma TellsDelta(raw: seq<RawEvent>, blocks: seq<FoldBlock>, output: seq<Block>, closed: set<nat>, index: int,
                     delta: Delta, blocksAfter: seq<FoldBlock>, outputAfter: seq<Block>)
      requires Tells(raw, blocks, output) && Traced(raw, blocks, output, closed)
      requires var f := Find(blocks, index, 0);
               if f < |blocks| then
                 && |blocksAfter| == |blocks| && blocksAfter == blocks[f := blocksAfter[f]]
                 && outputAfter == output[f := Changed(output[f], delta, blocksAfter[f].partialJson)]
                 && blocksAfter[f].partialJson ==
                    blocks[f].partialJson + if delta.JsonPart? && output[f].kind.ToolKind? then delta.json else ""
               else blocksAfter == blocks && outputAfter == output
      ensures Tells(raw + [DeltaEvent(index, delta)], blocksAfter, outputAfter)
    {
      hide Starts, Stopped, DistinctStarts, Told, SentFor, Changed, Traced, Find;
      var ev, f := DeltaEvent(index, delta), Find(blocks, index, 0);
      EventsSnoc(raw, ev, index, false);
      if DistinctStarts(raw + [ev]) {
        DistinctBefore(raw, ev);
        forall k | 0 <= k < |outputAfter|
          ensures TellsAt(raw + [ev], blocksAfter, outputAfter, k)
        {
          assert TellsAt(raw, blocks, output, k);
          FoundIsOnly(raw, blocks, output, closed, index, k);
          KindsTraced(raw, blocks, output, closed, k);
          if k == f {
            ToldDelta(raw, index, Starts(raw)[k].1, delta, output[k], blocksAfter[f].partialJson);
          } else {
            ToldElsewhere(raw, ev, Starts(raw)[k].0, Starts(raw)[k].1);
          }
        }
      }
    }

    lemma TellsStop(raw: seq<RawEvent>, blocks: seq<FoldBlock>, output: seq<Block>, closed: set<nat>, index: int,
                    outputAfter: seq<Block>)
      requires Tells(raw, blocks, output) && Traced(raw, blocks, output, closed)
      requires var f := Find(blocks, index, 0);
               if f < |blocks|
               then outputAfter == output[f := if output[f].kind.ToolKind?
                                               then output[f].(arguments := finalJson(blocks[f].partialJson))
                                               else output[f]]
               else outputAfter == output
      ensures Tells(raw + [StopEvent(index)], blocks, outputAfter)
    {
      hide Starts, Stopped, DistinctStarts, Told, SentFor, Changed, Traced, Find;
      var ev, f := StopEvent(index), Find(blocks, index, 0);
      EventsSnoc(raw, ev, index, false);
      if DistinctStarts(raw + [ev]) {
        DistinctBefore(raw, ev);
        forall k | 0 <= k < |outputAfter|
          ensures TellsAt(raw + [ev], blocks, outputAfter, k)
        {
          assert TellsAt(raw, blocks, output, k);
          FoundIsOnly(raw, blocks, output, closed, index, k);
          KindsTraced(raw, blocks, output, closed, k);
          if k == f {
            ToldStop(raw, index, Starts(raw)[k].1);
          } else {
            ToldElsewhere(raw, ev, Starts(raw)[k].0, Starts(raw)[k].1);
          }
        }
      }
    }

    lemma TellsOther(raw: seq<RawEvent>, blocks: seq<FoldBlock>, output: seq<Block>)
      requires Tells(raw, blocks, output)
      ensures Tells(raw + [OtherEvent], blocks, output)
    {
      hide Starts, DistinctStarts, Told, SentFor;
      EventsSnoc(raw, OtherEvent, 0, false);
      if DistinctStarts(raw + [OtherEvent]) {
        DistinctBefore(raw, OtherEvent);
        forall k | 0 <= k < |output|
          ensures TellsAt(raw + [OtherEvent], blocks, output, k)
        {
          assert TellsAt(raw, blocks, output, k);
          ToldElsewhere(raw, OtherEvent, Starts(raw)[k].0, Starts(raw)[k].1);
        }
      }
    }

    /** A whole stream. When no index starts two blocks, the message is, block by block, what the stream says; and when
        every tool call is stopped after its last fragment and every redacted block after its start, folding the events
        gives exactly that message. */
    method FoldStream(evs: seq<RawEvent>) returns (events: seq<StreamEvent>)
      requires Valid() && Traced(raw, blocks, output, closed) && Tells(raw, blocks, output) && raw == [] && sent == []
      modifies `output, `blocks, `sent, `fragments, `closed, `raw
      ensures Valid() && raw == evs && sent == events
      ensures |FoldAll(events)| == |output|
      ensures forall i :: 0 <= i < |output| && !output[i].redacted ==>
                FoldAll(events)[i].text == output[i].text && FoldAll(events)[i].thinking == output[i].thinking
      ensures |output| == |Starts(evs)|
      ensures DistinctStarts(evs) ==>
                forall k :: 0 <= k < |output| ==> output[k] == Told(evs, Starts(evs)[k].0, Starts(evs)[k].1)
      ensures DistinctStarts(evs) && AllStopped(evs) ==> AllSame(FoldAll(events), output)
    {
      hide Valid, Traced, FoldAll, AllStopped, DistinctStarts, Tells, Told;
      events := [];
      for i := 0 to |evs|
        invariant Valid() && Traced(raw, blocks, output, closed) && Tells(raw, blocks, output)
        invariant raw == evs[..i] && sent == events
      {
        var more := FoldEvent(evs[i]);
        events := events + more;
        assert evs[..i + 1] == evs[..i] + [evs[i]];
      }
      assert evs[..|evs|] == evs;
      ClosedMeansSame();
      StoppedAreClosed(raw, blocks, output, closed);
      TellsMeans(raw, blocks, output);
    }

    lemma TellsMeans(raw: seq<RawEvent>, blocks: seq<FoldBlock>, output: seq<Block>)
      requires Tells(raw, blocks, output)
      ensures |output| == |Starts(raw)|
      ensures DistinctStarts(raw) ==>
                forall k :: 0 <= k < |output| ==> output[k] == Told(raw, Starts(raw)[k].0, Starts(raw)[k].1)
    {
      hide Starts, DistinctStarts, Told, SentFor;
      if DistinctStarts(raw) {
        forall k | 0 <= k < |output|
          ensures output[k] == Told(raw, Starts(raw)[k].0, Starts(raw)[k].1)
        {
          assert TellsAt(raw, blocks, output, k);
        }
      }
    }
  }

  /** What a delta brings of each kind. */
  const TEXT: Delta -> string := (d: Delta) => if d.TextPart? then d.text else ""

  const THOUGHT: Delta -> string := (d: Delta) => if d.ThinkingPart? then d.thinking else ""

  const SIGNATURE: Delta -> string := (d: Delta) => if d.SignaturePart? then d.signature else ""

  const FRAGMENT: Delta -> string := (d: Delta) => if d.JsonPart? then d.json else ""

  /** What the deltas for an index brought since its block started, one after the other. */
  function SentFor(raw: seq<RawEvent>, index: int, of: Delta -> string): string {
    if raw == [] then ""
    else
      var before := SentFor(raw[..|raw| - 1], index, of);
      match raw[|raw| - 1]
      case StartEvent(i, start) => if i == index && !start.UnknownBlock? then "" else before
      case DeltaEvent(i, delta) => if i == index then before + of(delta) else before
      case _ => before
  }

  lemma KindsTraced(raw: seq<RawEvent>, blocks: seq<FoldBlock>, output: seq<Block>, closed: set<nat>, k: nat)
    requires Traced(raw, blocks, output, closed) && k < |output|
    ensures |blocks| == |output| == |Starts(raw)| && blocks[k].anthropicIndex == Starts(raw)[k].0
    ensures output[k].kind.ToolKind? <==> Starts(raw)[k].1.ToolUse?
  {
    assert TracedAt(raw, blocks, output, closed, k);
  }

  /** The provider's events about content blocks. */
  datatype RawEvent =
    | StartEvent(index: int, start: BlockStart)
    | DeltaEvent(index: int, delta: Delta)
    | StopEvent(index: int)
    | OtherEvent

  /** The blocks a stream opens, with their indices. */
  function Starts(raw: seq<RawEvent>): seq<(int, BlockStart)> {
    if raw == [] then []
    else
      var last := raw[|raw| - 1];
      Starts(raw[..|raw| - 1]) + if last.StartEvent? && !last.start.UnknownBlock? then [(last.index, last.start)]
      else []
  }

  ghost predicate DistinctStarts(raw: seq<RawEvent>) {
    forall i, j :: 0 <= i < j < |Starts(raw)| ==> Starts(raw)[i].0 != Starts(raw)[j].0
  }

  /** The block with this index was stopped, after its start and, if it is a call, after its last fragment. */
  predicate Stopped(raw: seq<RawEvent>, index: int, call: bool) {
    raw != []
    && var last := raw[|raw| - 1];
       (last.StopEvent? && last.index == index)
       || (!(last.StartEvent? && last.index == index && !last.start.UnknownBlock?)
           && !(last.DeltaEvent? && last.index == index && last.delta.JsonPart? && call)
           && Stopped(raw[..|raw| - 1], index, call))
  }

  /** Every call and every redacted block was stopped in time. */
  ghost predicate AllStopped(raw: seq<RawEvent>) {
    forall k :: 0 <= k < |Starts(raw)| ==>
      var (index, start) := Starts(raw)[k];
      start.ToolUse? || start.RedactedBlock? ==> Stopped(raw, index, start.ToolUse?)
  }

  /** What the state says about the events so far: a block for each start, and which blocks are closed. */
  ghost predicate Traced(raw: seq<RawEvent>, blocks: seq<FoldBlock>, output: seq<Block>, closed: set<nat>) {
    && |blocks| == |output| == |Starts(raw)|
    && (forall k :: k in closed ==> k < |output|)
    && forall k :: 0 <= k < |output| ==> TracedAt(raw, blocks, output, closed, k)
  }

  ghost predicate TracedAt(raw: seq<RawEvent>, blocks: seq<FoldBlock>, output: seq<Block>, closed: set<nat>, k: nat)
    requires k < |blocks| == |output| == |Starts(raw)|
  {
    var (index, start) := Starts(raw)[k];
    && blocks[k].anthropicIndex == index
    && (output[k].kind.ToolKind? <==> start.ToolUse?) && (output[k].redacted <==> start.RedactedBlock?)
    && (DistinctStarts(raw) ==> (k in closed <==> Stopped(raw, index, start.ToolUse?)))
  }

  lemma EventsSnoc(raw: seq<RawEvent>, ev: RawEvent, index: int, call: bool)
    ensures Starts(raw + [ev]) == Starts(raw) + if ev.StartEvent? && !ev.start.UnknownBlock? then [(ev.index, ev.start)]
            else []
    ensures Stopped(raw + [ev], index, call) <==>
            match ev
            case StopEvent(i) => i == index || Stopped(raw, index, call)
            case StartEvent(i, start) => (i != index || start.UnknownBlock?) && Stopped(raw, index, call)
            case DeltaEvent(i, delta) => !(i == index && delta.JsonPart? && call) && Stopped(raw, index, call)
            case OtherEvent => Stopped(raw, index, call)
  {
    assert (raw + [ev])[..|raw|] == raw;
  }

  lemma DistinctBefore(raw: seq<RawEvent>, ev: RawEvent)
    requires DistinctStarts(raw + [ev])
    ensures DistinctStarts(raw)
    ensures ev.StartEvent? && !ev.start.UnknownBlock? ==> forall k :: 0 <= k < |Starts(raw)| ==>
            Starts(raw)[k].0 != ev.index
  {
    hide Starts, Stopped;
    EventsSnoc(raw, ev, 0, false);
    var after := Starts(raw + [ev]);
    assert forall k :: 0 <= k < |Starts(raw)| ==> after[k] == Starts(raw)[k];
    if ev.StartEvent? && !ev.start.UnknownBlock? {
      assert after[|Starts(raw)|] == (ev.index, ev.start);
    }
  }

  /** With distinct starts, the block found for an index is the only one with it. */
  lemma FoundIsOnly(raw: seq<RawEvent>, blocks: seq<FoldBlock>, output: seq<Block>, closed: set<nat>, index: int,
                    k: nat)
    requires Traced(raw, blocks, output, closed) && DistinctStarts(raw) && k < |blocks|
    ensures blocks[k].anthropicIndex == index <==> k == Find(blocks, index, 0)
  {
    hide Starts, Stopped;
    var f := Find(blocks, index, 0);
    assert TracedAt(raw, blocks, output, closed, k);
    if f < |blocks| {
      assert TracedAt(raw, blocks, output, closed, f);
    }
  }

  lemma TracedStart(raw: seq<RawEvent>, blocks: seq<FoldBlock>, output: seq<Block>, closed: set<nat>, index: int,
                    start: BlockStart, blocksAfter: seq<FoldBlock>, outputAfter: seq<Block>)
    requires Traced(raw, blocks, output, closed)
    requires blocksAfter == blocks + if start.UnknownBlock? then [] else [FoldBlock(index, |output|, "")]
    requires |outputAfter| == |blocksAfter| && outputAfter[..|output|] == output
    requires !start.UnknownBlock? ==>
               && (outputAfter[|output|].kind.ToolKind? <==> start.ToolUse?)
               && (outputAfter[|output|].redacted <==> start.RedactedBlock?)
    ensures Traced(raw + [StartEvent(index, start)], blocksAfter, outputAfter, closed)
  {
    hide Starts, Stopped, DistinctStarts;
    var ev := StartEvent(index, start);
    EventsSnoc(raw, ev, index, start.ToolUse?);
    if DistinctStarts(raw + [ev]) {
      DistinctBefore(raw, ev);
    }
    forall k | 0 <= k < |outputAfter|
      ensures TracedAt(raw + [ev], blocksAfter, outputAfter, closed, k)
    {
      if k < |output| {
        assert TracedAt(raw, blocks, output, closed, k) && outputAfter[k] == output[k];
        EventsSnoc(raw, ev, Starts(raw)[k].0, Starts(raw)[k].1.ToolUse?);
      }
    }
  }

  lemma TracedDelta(raw: seq<RawEvent>, blocks: seq<FoldBlock>, output: seq<Block>, closed: set<nat>, index: int,
                    delta: Delta, blocksAfter: seq<FoldBlock>, outputAfter: seq<Block>, closedAfter: set<nat>)
    requires Traced(raw, blocks, output, closed)
    requires |blocksAfter| == |outputAfter| == |blocks|
    requires forall k :: 0 <= k < |blocks| ==>
               && blocksAfter[k].anthropicIndex == blocks[k].anthropicIndex
               && outputAfter[k].kind == output[k].kind && outputAfter[k].redacted == output[k].redacted
    requires var f := Find(blocks, index, 0);
             closedAfter == closed - if f < |blocks| && delta.JsonPart? && output[f].kind.ToolKind? then {f} else {}
    ensures Traced(raw + [DeltaEvent(index, delta)], blocksAfter, outputAfter, closedAfter)
  {
    hide Starts, Stopped, DistinctStarts;
    var ev := DeltaEvent(index, delta);
    EventsSnoc(raw, ev, 0, false);
    if DistinctStarts(raw + [ev]) {
      DistinctBefore(raw, ev);
    }
    forall k | 0 <= k < |outputAfter|
      ensures TracedAt(raw + [ev], blocksAfter, outputAfter, closedAfter, k)
    {
      assert TracedAt(raw, blocks, output, closed, k);
      EventsSnoc(raw, ev, Starts(raw)[k].0, Starts(raw)[k].1.ToolUse?);
      if DistinctStarts(raw + [ev]) {
        FoundIsOnly(raw, blocks, output, closed, index, k);
      }
    }
  }

  lemma TracedStop(raw: seq<RawEvent>, blocks: seq<FoldBlock>, output: seq<Block>, closed: set<nat>, index: int,
                   outputAfter: seq<Block>, closedAfter: set<nat>)
    requires Traced(raw, blocks, output, closed) && |outputAfter| == |output|
    requires forall k :: 0 <= k < |output| ==>
             outputAfter[k].kind == output[k].kind && outputAfter[k].redacted == output[k].redacted
    requires var f := Find(blocks, index, 0); closedAfter == closed + if f < |blocks| then {f} else {}
    ensures Traced(raw + [StopEvent(index)], blocks, outputAfter, closedAfter)
  {
    hide Starts, Stopped, DistinctStarts;
    var ev := StopEvent(index);
    EventsSnoc(raw, ev, 0, false);
    if DistinctStarts(raw + [ev]) {
      DistinctBefore(raw, ev);
    }
    forall k | 0 <= k < |outputAfter|
      ensures TracedAt(raw + [ev], blocks, outputAfter, closedAfter, k)
    {
      assert TracedAt(raw, blocks, output, closed, k);
      EventsSnoc(raw, ev, Starts(raw)[k].0, Starts(raw)[k].1.ToolUse?);
      if DistinctStarts(raw + [ev]) {
        FoundIsOnly(raw, blocks, output, closed, index, k);
      }
    }
  }

  lemma TracedOther(raw: seq<RawEvent>, blocks: seq<FoldBlock>, output: seq<Block>, closed: set<nat>)
    requires Traced(raw, blocks, output, closed)
    ensures Traced(raw + [OtherEvent], blocks, output, closed)
  {
    hide Starts, Stopped, DistinctStarts;
    EventsSnoc(raw, OtherEvent, 0, false);
    if DistinctStarts(raw + [OtherEvent]) {
      DistinctBefore(raw, OtherEvent);
    }
    forall k | 0 <= k < |output|
      ensures TracedAt(raw + [OtherEvent], blocks, output, closed, k)
    {
      assert TracedAt(raw, blocks, output, closed, k);
      EventsSnoc(raw, OtherEvent, Starts(raw)[k].0, Starts(raw)[k].1.ToolUse?);
    }
  }

  /** In a stream with distinct starts whose calls and redacted blocks were all stopped, all of them are closed. */
  lemma StoppedAreClosed(raw: seq<RawEvent>, blocks: seq<FoldBlock>, output: seq<Block>, closed: set<nat>)
    requires Traced(raw, blocks, output, closed)
    ensures DistinctStarts(raw) && AllStopped(raw) ==>
              forall k :: 0 <= k < |output| && (output[k].kind.ToolKind? || output[k].redacted) ==> k in closed
  {
    hide Starts, Stopped, DistinctStarts;
    forall k | 0 <= k < |output| && DistinctStarts(raw) && AllStopped(raw)
      && (output[k].kind.ToolKind? || output[k].redacted)
      ensures k in closed
    {
      assert TracedAt(raw, blocks, output, closed, k);
    }
  }

  lemma TracedSize(raw: seq<RawEvent>, blocks: seq<FoldBlock>, output: seq<Block>, closed: set<nat>)
    requires Traced(raw, blocks, output, closed)
    ensures |blocks| == |output|
  {
  }

  lemma StartMirrored(b: seq<Block>, p: seq<Block>, closed: set<nat>, opening: Block, ev: StreamEvent)
    requires AllMirror(b, p, closed) && (forall i :: i in closed ==> i < |p|)
    requires match opening.kind
             case TextKind => ev == TextStart(|p|) && opening == Empty(TextKind)
             case ThinkingKind =>
               && ev == ThinkingStart(|p|) && opening.thinking == (if opening.redacted then REDACTED else "")
               && opening == Empty(ThinkingKind).(thinking := opening.thinking, signature := opening.signature,
                                                  redacted := opening.redacted)
             case ToolKind =>
               ev == ToolStart(|p|, Some(opening))
               && opening == Empty(ToolKind).(id := opening.id, name := opening.name, arguments := opening.arguments)
    ensures AllMirror(FoldOne(b, ev), p + [opening], closed)
  {
    hide FoldOne;
    FoldOneIs(b, ev);
  }

  lemma DeltaMirrored(b: seq<Block>, p: seq<Block>, closed: set<nat>, k: nat, after: Block, events: seq<StreamEvent>,
                      closed': set<nat>)
    requires AllMirror(b, p, closed) && k < |p| && |events| <= 1
    requires events == [] ==> after == p[k].(signature := after.signature) && closed' == closed
    requires events != [] ==>
               match events[0]
               case TextDelta(i, text) => i == k && p[k].kind.TextKind? && after == p[k].(text := p[k].text + text)
                 && closed' == closed
               case ThinkingDelta(i, thinking) =>
                 i == k && p[k].kind.ThinkingKind? && after == p[k].(thinking := p[k].thinking + thinking)
                 && closed' == closed
               case ToolDelta(i, _) => i == k && p[k].kind.ToolKind? && after == p[k].(arguments := after.arguments)
                 && closed' == closed - {k}
               case _ => false
    ensures AllMirror(if events == [] then b else FoldOne(b, events[0]), p[k := after], closed')
  {
    hide FoldOne;
    assert Mirrors(b[k], p[k], k in closed);
    if events == [] {
      assert b[k := b[k]] == b;
    } else {
      FoldOneIs(b, events[0]);
    }
  }

  lemma StopMirrored(b: seq<Block>, p: seq<Block>, closed: set<nat>, k: nat, after: Block, ev: StreamEvent,
                     closed': set<nat>)
    requires AllMirror(b, p, closed) && k < |p| && closed' == closed + {k}
    requires match p[k].kind
             case TextKind => ev == TextEnd(k, p[k].text) && after == p[k]
             case ThinkingKind => ev == ThinkingEnd(k, p[k].thinking) && after == p[k]
             case ToolKind => ev == ToolEnd(k, Some(after)) && after == p[k].(arguments := after.arguments)
    ensures AllMirror(FoldOne(b, ev), p[k := after], closed')
  {
    hide FoldOne;
    assert Mirrors(b[k], p[k], k in closed);
    FoldOneIs(b, ev);
    assert "" + after.thinking == after.thinking;
  }
}

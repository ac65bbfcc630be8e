/** Rebuilding an assistant message from the events of its stream. */
module AssistantBuilder {
  import opened Options

  datatype Kind = TextKind | ThinkingKind | ToolKind

  /** A content block: one record for all kinds. */
  datatype Block = Block(
    kind: Kind,
    text: string,
    thinking: string,
    signature: string,
    redacted: bool,
    id: string,
    name: string,
    arguments: string,
    thoughtSignature: string)

  function Empty(kind: Kind): Block {
    Block(kind, "", "", "", false, "", "", "", "")
  }

  datatype StreamEvent =
    | TextStart(index: nat)
    | TextDelta(index: nat, delta: string)
    | TextEnd(index: nat, content: string)
    | ThinkingStart(index: nat)
    | ThinkingDelta(index: nat, delta: string)
    | ThinkingEnd(index: nat, content: string)
    | ToolStart(index: nat, call: Option<Block>)
    | ToolDelta(index: nat, delta: string)
    | ToolEnd(index: nat, call: Option<Block>)

  /** Room for block `i`: new blocks are of the given kind. */
  function Grow(content: seq<Block>, i: nat, kind: Kind): (r: seq<Block>)
    ensures i < |r| && content <= r
    ensures i < |content| ==> r == content
    ensures i == |content| ==> r == content + [Empty(kind)]
    decreases i - |content|
  {
    if i < |content| then content else Grow(content + [Empty(kind)], i, kind)
  }

  function KindOf(ev: StreamEvent): Kind {
    match ev
    case TextStart(_) => TextKind
    case TextDelta(_, _) => TextKind
    case TextEnd(_, _) => TextKind
    case ThinkingStart(_) => ThinkingKind
    case ThinkingDelta(_, _) => ThinkingKind
    case ThinkingEnd(_, _) => ThinkingKind
    case _ => ToolKind
  }

  /** What an event does to its block. The closing events are authoritative. */
  function OnBlock(b: Block, ev: StreamEvent): Block {
    match ev
    case TextStart(_) => b
    case TextDelta(_, delta) => b.(text := b.text + delta)
    case TextEnd(_, content) => b.(text := content)
    case ThinkingStart(_) => b
    case ThinkingDelta(_, delta) => b.(thinking := b.thinking + delta)
    case ThinkingEnd(_, content) => b.(thinking := content)
    case ToolStart(_, call) => if call.Some? then b.(id := call.value.id, name := call.value.name) else b
    case ToolDelta(_, delta) => b.(arguments := b.arguments + delta)
    case ToolEnd(_, call) => if call.Some? then call.value else b
  }

  function FoldOne(content: seq<Block>, ev: StreamEvent): seq<Block> {
    var c := Grow(content, ev.index, KindOf(ev));
    c[ev.index := OnBlock(c[ev.index], ev)]
  }

  /** An event for a block that is there changes that block; one for the next index adds a block. */
  lemma FoldOneIs(content: seq<Block>, ev: StreamEvent)
    requires ev.index <= |content|
    ensures ev.index < |content| ==> FoldOne(content, ev) == content[ev.index := OnBlock(content[ev.index], ev)]
    ensures ev.index == |content| ==> FoldOne(content, ev) == content + [OnBlock(Empty(KindOf(ev)), ev)]
  {
    hide OnBlock;
  }

  function FoldAll(events: seq<StreamEvent>): seq<Block> {
    if events == [] then [] else FoldOne(FoldAll(events[..|events| - 1]), events[|events| - 1])
  }

  lemma FoldSnoc(events: seq<StreamEvent>, ev: StreamEvent)
    ensures FoldAll(events + [ev]) == FoldOne(FoldAll(events), ev)
  {
    assert (events + [ev])[..|events|] == events;
  }

  lemma FoldAppend(events: seq<StreamEvent>, more: seq<StreamEvent>)
    ensures more == [] ==> FoldAll(events + more) == FoldAll(events)
    ensures |more| == 1 ==> FoldAll(events + more) == FoldOne(FoldAll(events), more[0])
    ensures |more| == 2 ==> FoldAll(events + more) == FoldOne(FoldOne(FoldAll(events), more[0]), more[1])
    ensures |more| == 3 ==>
            FoldAll(events + more) == FoldOne(FoldOne(FoldOne(FoldAll(events), more[0]), more[1]), more[2])
  {
    hide *;
    if more == [] {
      assert events + more == events;
    } else {
      var front, last := more[..|more| - 1], more[|more| - 1];
      assert events + more == events + front + [last];
      FoldSnoc(events + front, last);
      if |more| <= 3 {
        FoldAppend(events, front);
      }
    }
  }

  /** Two events that open a block at the end. */
  lemma FoldOpening(content: seq<Block>, e: StreamEvent, f: StreamEvent)
    requires e.index == f.index == |content| && KindOf(e) == KindOf(f)
    ensures FoldOne(FoldOne(content, e), f) == content + [OnBlock(OnBlock(Empty(KindOf(e)), e), f)]
  {
    hide FoldOne, OnBlock, KindOf;
    FoldOneIs(content, e);
    FoldOneIs(content + [OnBlock(Empty(KindOf(e)), e)], f);
  }

  /** The fields a consumer sees are equal: kind, text, thinking, and a tool call's identifier, name and arguments. */
  predicate Same(b: Block, p: Block) {
    b.kind == p.kind && b.text == p.text && b.thinking == p.thinking && b.id == p.id && b.name == p.name
    && b.arguments == p.arguments
  }

  ghost predicate AllSame(b: seq<Block>, p: seq<Block>) {
    |b| == |p| && forall i :: 0 <= i < |b| ==> Same(b[i], p[i])
  }

  /** The event that closes a block. */
  function Closing(i: nat, b: Block): StreamEvent {
    match b.kind
    case TextKind => TextEnd(i, b.text)
    case ThinkingKind => ThinkingEnd(i, b.thinking)
    case ToolKind => ToolEnd(i, Some(b))
  }

  /** The builder: it folds each event into its content, growing it as needed. */
  class Builder {
    var content: seq<Block>

    constructor ()
      ensures content == []
    {
      content := [];
    }

    method BlockAt(i: nat, kind: Kind)
      modifies `content
      ensures content == Grow(old(content), i, kind)
    {
      while |content| <= i
        invariant Grow(content, i, kind) == Grow(old(content), i, kind)
        decreases i - |content|
      {
        content := content + [Empty(kind)];
      }
    }

    method Fold(ev: StreamEvent)
      modifies `content
      ensures content == FoldOne(old(content), ev)
    {
      match ev {
        case TextStart(i) => BlockAt(i, TextKind);
        case TextDelta(i, delta) =>
          BlockAt(i, TextKind);
          content := content[i := content[i].(text := content[i].text + delta)];
        case TextEnd(i, text) =>
          BlockAt(i, TextKind);
          content := content[i := content[i].(text := text)];
        case ThinkingStart(i) => BlockAt(i, ThinkingKind);
        case ThinkingDelta(i, delta) =>
          BlockAt(i, ThinkingKind);
          content := content[i := content[i].(thinking := content[i].thinking + delta)];
        case ThinkingEnd(i, thinking) =>
          BlockAt(i, ThinkingKind);
          content := content[i := content[i].(thinking := thinking)];
        case ToolStart(i, call) =>
          BlockAt(i, ToolKind);
          if call.Some? {
            content := content[i := content[i].(id := call.value.id, name := call.value.name)];
          }
        case ToolDelta(i, delta) =>
          BlockAt(i, ToolKind);
          content := content[i := content[i].(arguments := content[i].arguments + delta)];
        case ToolEnd(i, call) =>
          BlockAt(i, ToolKind);
          if call.Some? {
            content := content[i := call.value];
          }
      }
    }
  }
}

/** Rewriting a transcript for the model it is sent to: contents are adapted, tool-call identifiers renamed, broken
    replies dropped, and unanswered calls given a result. */
module Transform {

  datatype ModelId = ModelId(provider: string, api: string, id: string)

  datatype Block =
    | Text(text: string)
    | Thinking(thinking: string, signature: string, redacted: bool)
    | Image(data: string)
    | ToolCall(id: string, name: string, arguments: string, thoughtSignature: string)

  datatype Stop = Completed | Errored | Aborted

  datatype Message =
    | User(content: seq<Block>)
    | Assistant(source: ModelId, content: seq<Block>, stop: Stop)
    | ToolResult(call: string, name: string, content: seq<Block>, isError: bool)
    | Custom(text: string)

  /** The new identifier of a call in a message of another model. */
  type Renamer = (string, Message) -> string

  // ----- Second pass: answering every call -----

  predicate IsBroken(m: Message) {
    m.Assistant? && m.stop != Completed
  }

  predicate EndsReplies(m: Message) {
    m.User? || m.Assistant?
  }

  function CallsIn(blocks: seq<Block>): seq<Block> {
    if blocks == [] then []
    else CallsIn(blocks[..|blocks| - 1]) + if blocks[|blocks| - 1].ToolCall? then [blocks[|blocks| - 1]] else []
  }

  lemma {:induction false} CallsInAre(blocks: seq<Block>)
    ensures forall b :: b in CallsIn(blocks) <==> b in blocks && b.ToolCall?
  {
    if blocks != [] {
      CallsInAre(blocks[..|blocks| - 1]);
      assert blocks == blocks[..|blocks| - 1] + [blocks[|blocks| - 1]];
    }
  }

  function NoResult(call: Block): Message
    requires call.ToolCall?
  {
    ToolResult(call.id, call.name, [Text("No result provided")], true)
  }

  /** An output message: the input message at an index, or a result filled in for a call. */
  datatype Item = Keep(index: nat) | Fill(call: Block)

  /** Fills for the calls whose identifiers are not among those answered. */
  function Fills(pending: seq<Block>, answered: set<string>): seq<Item> {
    if pending == [] then []
    else
      Fills(pending[..|pending| - 1], answered)
      + if pending[|pending| - 1].ToolCall? && pending[|pending| - 1].id !in answered
      then [Fill(pending[|pending| - 1])] else []
  }

  /** What the pass makes of the messages from `i` on, with these calls waiting and these identifiers answered. */
  function Pass(ms: seq<Message>, i: nat, pending: seq<Block>, answered: set<string>): seq<Item>
    requires i <= |ms|
    decreases |ms| - i
  {
    if i == |ms| then Fills(pending, answered)
    else match ms[i]
      case User(_) => Fills(pending, answered) + [Keep(i)] + Pass(ms, i + 1, [], {})
      case Assistant(_, content, stop) =>
        if IsBroken(ms[i]) then Fills(pending, answered) + Pass(ms, i + 1, [], {})
        else Fills(pending, answered) + [Keep(i)] + Pass(ms, i + 1, CallsIn(content), {})
      case ToolResult(call, _, _, _) => [Keep(i)] + Pass(ms, i + 1, pending, answered + {call})
      case Custom(_) => [Keep(i)] + Pass(ms, i + 1, pending, answered)
  }

  function Shown(ms: seq<Message>, item: Item): Message {
    match item
    case Keep(i) => if i < |ms| then ms[i] else Custom("")
    case Fill(call) => if call.ToolCall? then NoResult(call) else Custom("")
  }

  function Render(ms: seq<Message>, items: seq<Item>): seq<Message> {
    seq(|items|, k requires 0 <= k < |items| => Shown(ms, items[k]))
  }

  function SecondPass(ms: seq<Message>): seq<Message> {
    Render(ms, Pass(ms, 0, [], {}))
  }

  lemma RenderAppend(ms: seq<Message>, a: seq<Item>, b: seq<Item>)
    ensures Render(ms, a + b) == Render(ms, a) + Render(ms, b)
  {
  }

  lemma FillsSnoc(pending: seq<Block>, call: Block, answered: set<string>)
    ensures Fills(pending + [call], answered) ==
            Fills(pending, answered) + if call.ToolCall? && call.id !in answered then [Fill(call)] else []
  {
    assert (pending + [call])[..|pending|] == pending;
  }

  /** The program's state between messages: a stale set of answered identifiers does no harm while nothing is
      pending. */
  lemma {:induction false} NothingPending(ms: seq<Message>, i: nat, a: set<string>, b: set<string>)
    requires i <= |ms|
    ensures Pass(ms, i, [], a) == Pass(ms, i, [], b)
    decreases |ms| - i
  {
    if i < |ms| {
      if ms[i].ToolResult? {
        NothingPending(ms, i + 1, a + {ms[i].call}, b + {ms[i].call});
      } else if ms[i].Custom? {
        NothingPending(ms, i + 1, a, b);
      }
    }
  }

  lemma FillsNone(ms: seq<Message>, answered: set<string>)
    ensures Fills([], answered) == [] && Render(ms, []) == []
  {
  }

  method InsertSyntheticToolResults(ghost ms: seq<Message>, result0: seq<Message>, pending0: seq<Block>,
                                    answered0: set<string>)
    returns (result: seq<Message>, pending: seq<Block>, answered: set<string>)
    requires forall b :: b in pending0 ==> b.ToolCall?
    ensures result == result0 + Render(ms, Fills(pending0, answered0)) && pending == []
  {
    hide Fills, Render;
    result, pending, answered := result0, pending0, answered0;
    FillsNone(ms, answered);
    assert result0 + [] == result0 && pending[..0] == [];
    if |pending| == 0 {
      return;
    }
    for i := 0 to |pending|
      invariant result == result0 + Render(ms, Fills(pending[..i], answered))
    {
      FillsSnoc(pending[..i], pending[i], answered);
      assert pending[..i + 1] == pending[..i] + [pending[i]];
      RenderAppend(ms, Fills(pending[..i], answered), if pending[i].id !in answered then [Fill(pending[i])] else []);
      RenderOne(ms, Fill(pending[i]));
      if pending[i].id !in answered {
        result := result + [NoResult(pending[i])];
      }
    }
    assert pending[..|pending|] == pending;
    pending, answered := [], {};
  }

  /** One message of the pass. */
  method Take(ms: seq<Message>, i: nat, result0: seq<Message>, pending0: seq<Block>, answered0: set<string>)
    returns (result: seq<Message>, pending: seq<Block>, answered: set<string>)
    requires i < |ms| && forall b :: b in pending0 ==> b.ToolCall?
    ensures forall b :: b in pending ==> b.ToolCall?
    ensures result + Render(ms, Pass(ms, i + 1, pending, answered)) ==
            result0 + Render(ms, Pass(ms, i, pending0, answered0))
  {
    hide Fills, Pass, Render, CallsIn;
    PassIs(ms, i, pending0, answered0);
    result, pending, answered := result0, pending0, answered0;
    ghost var fills := Fills(pending0, answered0);
    match ms[i] {
      case User(_) =>
        result, pending, answered := InsertSyntheticToolResults(ms, result, pending, answered);
        NothingPending(ms, i + 1, answered, {});
        RenderThree(ms, fills, Keep(i), Pass(ms, i + 1, [], {}), result0);
        result := result + [ms[i]];
      case Assistant(_, content, stop) =>
        result, pending, answered := InsertSyntheticToolResults(ms, result, pending, answered);
        NothingPending(ms, i + 1, answered, {});
        if stop != Completed {
          RenderTwo(ms, fills, Pass(ms, i + 1, [], {}), result0);
          return;
        }
        CallsInAre(content);
        var toolCalls := CallsIn(content);
        RenderThree(ms, fills, Keep(i), Pass(ms, i + 1, toolCalls, {}), result0);
        if |toolCalls| > 0 {
          pending, answered := toolCalls, {};
        }
        result := result + [ms[i]];
      case ToolResult(call, _, _, _) =>
        answered := answered + {call};
        RenderThree(ms, [], Keep(i), Pass(ms, i + 1, pending, answered), result0);
        result := result + [ms[i]];
      case Custom(_) =>
        RenderThree(ms, [], Keep(i), Pass(ms, i + 1, pending, answered), result0);
        result := result + [ms[i]];
    }
  }

  lemma PassIs(ms: seq<Message>, i: nat, pending: seq<Block>, answered: set<string>)
    requires i <= |ms|
    ensures Pass(ms, i, pending, answered) ==
            if i == |ms| then Fills(pending, answered)
            else match ms[i]
              case User(_) => Fills(pending, answered) + ([Keep(i)] + Pass(ms, i + 1, [], {}))
              case Assistant(_, content, stop) =>
                if stop != Completed then Fills(pending, answered) + Pass(ms, i + 1, [], {})
                else Fills(pending, answered) + ([Keep(i)] + Pass(ms, i + 1, CallsIn(content), {}))
              case ToolResult(call, _, _, _) => [] + ([Keep(i)] + Pass(ms, i + 1, pending, answered + {call}))
              case Custom(_) => [] + ([Keep(i)] + Pass(ms, i + 1, pending, answered))
  {
  }

  lemma RenderTwo(ms: seq<Message>, a: seq<Item>, c: seq<Item>, before: seq<Message>)
    ensures before + Render(ms, a + c) == before + Render(ms, a) + Render(ms, c)
  {
    RenderAppend(ms, a, c);
  }

  lemma RenderThree(ms: seq<Message>, a: seq<Item>, b: Item, c: seq<Item>, before: seq<Message>)
    ensures before + Render(ms, a + ([b] + c)) == before + Render(ms, a) + [Shown(ms, b)] + Render(ms, c)
    ensures a == [] ==> before + Render(ms, a) == before
  {
    RenderAppend(ms, a, [b] + c);
    RenderAppend(ms, [b], c);
  }

  method AnswerEveryCall(ms: seq<Message>) returns (result: seq<Message>)
    ensures result == SecondPass(ms)
  {
    hide Fills, Pass, Render;
    result := [];
    var pending: seq<Block>, answered: set<string> := [], {};
    for i := 0 to |ms|
      invariant forall b :: b in pending ==> b.ToolCall?
      invariant result + Render(ms, Pass(ms, i, pending, answered)) == [] + SecondPass(ms)
    {
      result, pending, answered := Take(ms, i, result, pending, answered);
    }
    PassIs(ms, |ms|, pending, answered);
    result, pending, answered := InsertSyntheticToolResults(ms, result, pending, answered);
    assert [] + SecondPass(ms) == SecondPass(ms);
  }

  // ----- What is kept -----

  function KeptIndices(items: seq<Item>): seq<nat> {
    if items == [] then []
    else KeptIndices(items[..|items| - 1]) + if items[|items| - 1].Keep? then [items[|items| - 1].index] else []
  }

  lemma {:induction false} KeptIndicesAppend(a: seq<Item>, b: seq<Item>)
    ensures KeptIndices(a + b) == KeptIndices(a) + KeptIndices(b)
  {
    if b == [] {
      assert a + b == a;
    } else {
      assert (a + b)[..|a + b| - 1] == a + b[..|b| - 1];
      KeptIndicesAppend(a, b[..|b| - 1]);
    }
  }

  lemma {:induction false} FillsKeepNothing(pending: seq<Block>, answered: set<string>)
    ensures KeptIndices(Fills(pending, answered)) == []
  {
    if pending != [] {
      FillsKeepNothing(pending[..|pending| - 1], answered);
      var call := pending[|pending| - 1];
      var last := if call.ToolCall? && call.id !in answered then [Fill(call)] else [];
      KeptIndicesAppend(Fills(pending[..|pending| - 1], answered), last);
      KeptOne(Fill(call));
    }
  }

  lemma KeptOne(item: Item)
    ensures KeptIndices([item]) == if item.Keep? then [item.index] else []
    ensures KeptIndices([]) == []
  {
    assert [item][..0] == [];
  }

  /** The messages from `i` on that are not broken replies. */
  function Unbroken(ms: seq<Message>, i: nat): seq<nat>
    requires i <= |ms|
    decreases |ms| - i
  {
    if i == |ms| then [] else (if IsBroken(ms[i]) then [] else [i]) + Unbroken(ms, i + 1)
  }

  /** Everything but the broken replies comes out, in order and as it was. */
  lemma {:induction false} KeepsTheUnbroken(ms: seq<Message>, i: nat, pending: seq<Block>, answered: set<string>)
    requires i <= |ms|
    ensures KeptIndices(Pass(ms, i, pending, answered)) == Unbroken(ms, i)
    decreases |ms| - i
  {
    hide Pass, Fills, KeptIndices, CallsIn;
    PassIs(ms, i, pending, answered);
    FillsKeepNothing(pending, answered);
    if i < |ms| {
      var rest := match ms[i]
        case User(_) => Pass(ms, i + 1, [], {})
        case Assistant(_, content, stop) =>
          if stop != Completed then Pass(ms, i + 1, [], {}) else Pass(ms, i + 1, CallsIn(content), {})
        case ToolResult(call, _, _, _) => Pass(ms, i + 1, pending, answered + {call})
        case Custom(_) => Pass(ms, i + 1, pending, answered);
      match ms[i] {
        case User(_) => KeepsTheUnbroken(ms, i + 1, [], {});
        case Assistant(_, content, stop) =>
          KeepsTheUnbroken(ms, i + 1, if stop != Completed then [] else CallsIn(content), {});
        case ToolResult(call, _, _, _) => KeepsTheUnbroken(ms, i + 1, pending, answered + {call});
        case Custom(_) => KeepsTheUnbroken(ms, i + 1, pending, answered);
      }
      KeptOne(Keep(i));
      KeptIndicesAppend([Keep(i)], rest);
      KeptIndicesAppend(Fills(pending, answered), rest);
      KeptIndicesAppend(Fills(pending, answered), [Keep(i)] + rest);
      KeptIndicesAppend([], [Keep(i)] + rest);
    }
  }

  // ----- How often a call is answered -----

  /** The results for `id` before the next user or assistant message. */
  function Replies(s: seq<Message>, id: string): nat {
    if s == [] || EndsReplies(s[0]) then 0
    else (if s[0].ToolResult? && s[0].call == id then 1 else 0) + Replies(s[1..], id)
  }

  lemma RepliesCons(m: Message, s: seq<Message>, id: string)
    ensures Replies([m] + s, id) == if EndsReplies(m) then 0
            else (if m.ToolResult? && m.call == id then 1 else 0) + Replies(s, id)
  {
    assert ([m] + s)[1..] == s;
  }

  function Multiplicity(calls: seq<Block>, id: string): nat {
    if calls == [] then 0
    else Multiplicity(calls[..|calls| - 1], id) + if calls[|calls| - 1].ToolCall? && calls[|calls| - 1].id == id then 1
    else 0
  }

  lemma {:induction false} RepliesFills(ms: seq<Message>, pending: seq<Block>, answered: set<string>,
                                        rest: seq<Message>, id: string)
    ensures Replies(Render(ms, Fills(pending, answered)) + rest, id) ==
            Replies(rest, id) + if id in answered then 0 else Multiplicity(pending, id)
  {
    hide Replies, Render;
    if pending == [] {
      RenderNone(ms, rest);
    } else {
      var front, call := pending[..|pending| - 1], pending[|pending| - 1];
      if call.ToolCall? && call.id !in answered {
        RenderAppend(ms, Fills(front, answered), [Fill(call)]);
        RenderOne(ms, Fill(call));
        RepliesFills(ms, front, answered, [NoResult(call)] + rest, id);
        RepliesCons(NoResult(call), rest, id);
        assert Render(ms, Fills(front, answered)) + [NoResult(call)] + rest ==
               Render(ms, Fills(front, answered)) + ([NoResult(call)] + rest);
      } else {
        assert Fills(front, answered) + [] == Fills(front, answered);
        RepliesFills(ms, front, answered, rest, id);
      }
    }
  }

  lemma RenderNone(ms: seq<Message>, rest: seq<Message>)
    ensures Render(ms, []) == [] && Render(ms, []) + rest == rest
  {
  }

  lemma RenderOne(ms: seq<Message>, item: Item)
    ensures Render(ms, [item]) == [Shown(ms, item)]
  {
  }

  /** The results for `id` from `i` up to the next user or assistant message, whether that one is broken or not. */
  function Prompt(ms: seq<Message>, i: nat, id: string): nat
    requires i <= |ms|
    decreases |ms| - i
  {
    if i == |ms| || EndsReplies(ms[i]) then 0
    else (if ms[i].ToolResult? && ms[i].call == id then 1 else 0) + Prompt(ms, i + 1, id)
  }

  /** The results for `id` from `i` up to the next user message or unbroken reply. */
  function Loose(ms: seq<Message>, i: nat, id: string): nat
    requires i <= |ms|
    decreases |ms| - i
  {
    if i == |ms| || (EndsReplies(ms[i]) && !IsBroken(ms[i])) then 0
    else (if ms[i].ToolResult? && ms[i].call == id then 1 else 0) + Loose(ms, i + 1, id)
  }

  /** The results for `id` that a dropped reply separates from `i`. */
  function Late(ms: seq<Message>, i: nat, id: string): nat
    requires i <= |ms|
    decreases |ms| - i
  {
    if i == |ms| || (EndsReplies(ms[i]) && !IsBroken(ms[i])) then 0
    else if IsBroken(ms[i]) then Loose(ms, i + 1, id)
    else Late(ms, i + 1, id)
  }

  lemma {:induction false} LooseIs(ms: seq<Message>, i: nat, id: string)
    requires i <= |ms|
    ensures Loose(ms, i, id) == Prompt(ms, i, id) + Late(ms, i, id)
    decreases |ms| - i
  {
    if i < |ms| && !EndsReplies(ms[i]) {
      LooseIs(ms, i + 1, id);
    }
  }

  /** The results in the output: the prompt ones, the late ones, and fills only where there was no prompt one. */
  lemma {:induction false} RepliesOfPass(ms: seq<Message>, i: nat, pending: seq<Block>, answered: set<string>,
                                         id: string)
    requires i <= |ms|
    ensures Replies(Render(ms, Pass(ms, i, pending, answered)), id) ==
            Prompt(ms, i, id) + Late(ms, i, id)
            + if id in answered || Prompt(ms, i, id) > 0 then 0 else Multiplicity(pending, id)
    decreases |ms| - i, 1
  {
    hide Pass, Fills, Render, CallsIn, Replies, Multiplicity;
    if i == |ms| {
      PassIs(ms, i, pending, answered);
      RepliesNone(ms, pending, answered, id);
    } else if EndsReplies(ms[i]) {
      RepliesAtEnd(ms, i, pending, answered, id);
    } else {
      PassIs(ms, i, pending, answered);
      var after := if ms[i].ToolResult? then answered + {ms[i].call} else answered;
      RepliesOfPass(ms, i + 1, pending, after, id);
      RenderCons(ms, [], Keep(i), Pass(ms, i + 1, pending, after));
      RenderNone(ms, [ms[i]] + Render(ms, Pass(ms, i + 1, pending, after)));
      RepliesCons(ms[i], Render(ms, Pass(ms, i + 1, pending, after)), id);
    }
  }

  /** A user or assistant message ends the wait; a broken reply is dropped, and later results are late ones. */
  lemma RepliesAtEnd(ms: seq<Message>, i: nat, pending: seq<Block>, answered: set<string>, id: string)
    requires i < |ms| && EndsReplies(ms[i])
    ensures Replies(Render(ms, Pass(ms, i, pending, answered)), id) ==
            Late(ms, i, id) + if id in answered then 0 else Multiplicity(pending, id)
    decreases |ms| - i, 0
  {
    hide Pass, Fills, Render, CallsIn, Replies, Multiplicity, Loose, Prompt;
    PassIs(ms, i, pending, answered);
    RepliesNone(ms, pending, answered, id);
    if IsBroken(ms[i]) {
      var rest := Pass(ms, i + 1, [], {});
      RenderAppend(ms, Fills(pending, answered), rest);
      RepliesFills(ms, pending, answered, Render(ms, rest), id);
      RepliesOfPass(ms, i + 1, [], {}, id);
      LooseIs(ms, i + 1, id);
    } else {
      var rest := Pass(ms, i + 1, if ms[i].User? then [] else CallsIn(ms[i].content), {});
      RenderCons(ms, Fills(pending, answered), Keep(i), rest);
      RepliesFills(ms, pending, answered, [ms[i]] + Render(ms, rest), id);
      RepliesCons(ms[i], Render(ms, rest), id);
    }
  }

  lemma RenderCons(ms: seq<Message>, a: seq<Item>, b: Item, c: seq<Item>)
    ensures Render(ms, a + ([b] + c)) == Render(ms, a) + ([Shown(ms, b)] + Render(ms, c))
  {
  }

  lemma RepliesNone(ms: seq<Message>, pending: seq<Block>, answered: set<string>, id: string)
    ensures Replies(Render(ms, Fills(pending, answered)), id) == if id in answered then 0 else Multiplicity(pending, id)
    ensures Multiplicity([], id) == 0
  {
    RepliesFills(ms, pending, answered, [], id);
    assert Render(ms, Fills(pending, answered)) + [] == Render(ms, Fills(pending, answered));
  }

  /** After a kept reply the output goes on as the pass does with the reply's calls pending. */
  lemma {:induction false} AfterReply(ms: seq<Message>, i: nat, pending: seq<Block>, answered: set<string>, k: nat)
    requires i <= |ms| && k < |Pass(ms, i, pending, answered)|
    requires Shown(ms, Pass(ms, i, pending, answered)[k]).Assistant?
    ensures var item := Pass(ms, i, pending, answered)[k];
            && item.Keep? && i <= item.index < |ms| && ms[item.index].Assistant? && !IsBroken(ms[item.index])
            && Pass(ms, i, pending, answered)[k + 1..] == Pass(ms, item.index + 1, CallsIn(ms[item.index].content), {})
    decreases |ms| - i
  {
    hide Pass, Fills, CallsIn;
    FillsAreResults(ms, pending, answered);
    if i == |ms| {
      PassIs(ms, i, pending, answered);
    } else {
      var fills, mid, next, answeredNext := PassParts(ms, i, pending, answered);
      ItemOf(fills, mid, Pass(ms, i + 1, next, answeredNext), k);
      if k >= |fills| + |mid| {
        AfterReply(ms, i + 1, next, answeredNext, k - |fills| - |mid|);
      }
    }
  }

  /** What the pass writes at a message: fills, the message unless it is broken, and the rest. */
  lemma PassParts(ms: seq<Message>, i: nat, pending: seq<Block>, answered: set<string>)
    returns (fills: seq<Item>, mid: seq<Item>, next: seq<Block>, answeredNext: set<string>)
    requires i < |ms|
    ensures Pass(ms, i, pending, answered) == fills + (mid + Pass(ms, i + 1, next, answeredNext))
    ensures fills == (if EndsReplies(ms[i]) then Fills(pending, answered) else [])
            && mid == if IsBroken(ms[i]) then [] else [Keep(i)]
    ensures ms[i].Assistant? && !IsBroken(ms[i]) ==> next == CallsIn(ms[i].content) && answeredNext == {}
    ensures ms[i].User? || IsBroken(ms[i]) ==> next == []
    ensures !EndsReplies(ms[i]) ==> next == pending
  {
    hide Pass, Fills, CallsIn;
    PassIs(ms, i, pending, answered);
    fills := if EndsReplies(ms[i]) then Fills(pending, answered) else [];
    mid := if IsBroken(ms[i]) then [] else [Keep(i)];
    next, answeredNext := pending, answered;
    if ms[i].ToolResult? {
      answeredNext := answered + {ms[i].call};
    } else if EndsReplies(ms[i]) {
      next, answeredNext := if ms[i].User? || IsBroken(ms[i]) then [] else CallsIn(ms[i].content), {};
    }
    if IsBroken(ms[i]) {
      assert mid + Pass(ms, i + 1, next, answeredNext) == Pass(ms, i + 1, next, answeredNext);
    }
  }

  /** Which of three parts an item comes from, and what follows it there. */
  lemma ItemOf(fills: seq<Item>, mid: seq<Item>, rest: seq<Item>, k: nat)
    requires k < |fills| + |mid| + |rest| && |mid| <= 1
    ensures var items, n := fills + (mid + rest), |fills| + |mid|;
            && (k < |fills| ==> items[k] in fills)
            && (|fills| <= k < n ==> items[k] == mid[0] && items[k + 1..] == rest)
            && (k >= n ==> items[k] == rest[k - n] && items[k + 1..] == rest[k - n + 1..])
  {
  }

  lemma {:induction false} FillsAreResults(ms: seq<Message>, pending: seq<Block>, answered: set<string>)
    ensures forall f :: f in Fills(pending, answered) ==> f.Fill? && Shown(ms, f).ToolResult?
  {
    if pending != [] {
      FillsAreResults(ms, pending[..|pending| - 1], answered);
    }
  }

  lemma {:induction false} MultiplicityIs(calls: seq<Block>, call: Block)
    requires call in calls && call.ToolCall?
    ensures Multiplicity(calls, call.id) >= 1
  {
    var front, last := calls[..|calls| - 1], calls[|calls| - 1];
    assert calls == front + [last];
    if last != call {
      MultiplicityIs(front, call);
    }
  }

  /** Every call of a message that comes out is answered before the next user or assistant message. With the call's
      identifier used once in its message, the answers are the prompt results, or one filled in if there was none, and
      the late results. */
  lemma CallsAreAnswered(ms: seq<Message>, k: nat, call: Block)
    requires k < |SecondPass(ms)| && SecondPass(ms)[k].Assistant?
    requires call in CallsIn(SecondPass(ms)[k].content) && call.ToolCall?
    ensures var j := Pass(ms, 0, [], {})[k];
            && j.Keep? && j.index < |ms| && ms[j.index] == SecondPass(ms)[k] && ms[j.index].stop == Completed
            && Replies(SecondPass(ms)[k + 1..], call.id) >= 1
            && (Multiplicity(CallsIn(ms[j.index].content), call.id) == 1 ==>
                  Replies(SecondPass(ms)[k + 1..], call.id) ==
                  (if Prompt(ms, j.index + 1, call.id) == 0 then 1 else Prompt(ms, j.index + 1, call.id))
                  + Late(ms, j.index + 1, call.id))
  {
    hide Pass, CallsIn, Replies, Multiplicity, Prompt, Late;
    var items := Pass(ms, 0, [], {});
    AfterReply(ms, 0, [], {}, k);
    var j := items[k].index;
    RepliesOfPass(ms, j + 1, CallsIn(ms[j].content), {}, call.id);
    MultiplicityIs(CallsIn(ms[j].content), call);
    assert SecondPass(ms)[k + 1..] == Render(ms, items[k + 1..]);
  }

  /** With distinct identifiers and at most one prompt result, a call has exactly one answer unless a dropped reply
      stands between the call and a result for it. */
  lemma ExactlyOneAnswer(ms: seq<Message>, k: nat, call: Block)
    requires k < |SecondPass(ms)| && SecondPass(ms)[k].Assistant?
    requires call in CallsIn(SecondPass(ms)[k].content) && call.ToolCall?
    requires Multiplicity(CallsIn(SecondPass(ms)[k].content), call.id) == 1
    ensures var j := Pass(ms, 0, [], {})[k];
            && j.Keep? && j.index < |ms|
            && (Replies(SecondPass(ms)[k + 1..], call.id) == 1 <==>
                Prompt(ms, j.index + 1, call.id) <= 1 && Late(ms, j.index + 1, call.id) == 0)
  {
    hide *;
    CallsAreAnswered(ms, k, call);
  }

  /** The exception is real: a result that comes after a dropped reply joins the one filled in before it. */
  lemma LateResultExample()
    ensures var source, call := ModelId("p", "a", "m"), ToolCall("x", "tool", "{}", "");
            var ms := [Assistant(source, [call], Completed), Assistant(source, [], Errored),
                       ToolResult("x", "tool", [], false)];
            && Prompt(ms, 1, "x") == 0 && Late(ms, 1, "x") == 1
            && SecondPass(ms) == [ms[0], NoResult(call), ms[2]] && Replies(SecondPass(ms)[1..], "x") == 2
  {
    var source, call := ModelId("p", "a", "m"), ToolCall("x", "tool", "{}", "");
    var ms := [Assistant(source, [call], Completed), Assistant(source, [], Errored),
               ToolResult("x", "tool", [], false)];
    LateExample(ms);
    assert [call][..0] == [];
    assert CallsIn([call]) == [call] && Fills([call], {}) == [Fill(call)] && Multiplicity([call], "x") == 1;
    assert Pass(ms, 3, [], {"x"}) == [];
    assert Pass(ms, 2, [], {}) == [Keep(2)];
    assert Pass(ms, 1, [call], {}) == [Fill(call), Keep(2)];
    assert Pass(ms, 0, [], {}) == [Keep(0), Fill(call), Keep(2)];
    assert SecondPass(ms) == [ms[0], NoResult(call), ms[2]];
    ExampleAt(ms, call);
  }

  lemma LateExample(ms: seq<Message>)
    requires |ms| == 3 && IsBroken(ms[1]) && ms[2].ToolResult? && ms[2].call == "x"
    ensures Prompt(ms, 1, "x") == 0 && Late(ms, 1, "x") == 1
  {
    assert Loose(ms, 3, "x") == 0;
    assert Loose(ms, 2, "x") == 1;
  }

  lemma ExampleAt(ms: seq<Message>, call: Block)
    requires |ms| == 3 && call.ToolCall? && call.id == "x" && ms[2].ToolResult? && ms[2].call == "x"
    requires SecondPass(ms) == [ms[0], NoResult(call), ms[2]]
    ensures Replies(SecondPass(ms)[1..], "x") == 2
  {
    hide *;
    NoResultIs(call);
    var out := SecondPass(ms);
    assert out[1..] == [NoResult(call)] + ([ms[2]] + []);
    RepliesCons(NoResult(call), [ms[2]] + [], "x");
    RepliesCons(ms[2], [], "x");
  }

  lemma NoResultIs(call: Block)
    requires call.ToolCall?
    ensures NoResult(call).ToolResult? && NoResult(call).call == call.id && !EndsReplies(NoResult(call))
            && Replies([], call.id) == 0
    ensures forall m: Message :: m.ToolResult? ==> !EndsReplies(m)
  {
  }

  // ----- Repeating the pass -----

  /** No broken reply, and every call of a reply answered before the next user or assistant message. */
  ghost predicate Repaired(s: seq<Message>, i: nat)
    requires i <= |s|
    decreases |s| - i
  {
    i == |s| || (RepairedAt(s, i) && Repaired(s, i + 1))
  }

  ghost predicate RepairedAt(s: seq<Message>, i: nat)
    requires i < |s|
  {
    && !IsBroken(s[i])
    && (s[i].Assistant? ==> forall call :: call in CallsIn(s[i].content) ==>
        call.ToolCall? && Prompt(s, i + 1, call.id) >= 1)
  }

  lemma {:induction false} PromptIsReplies(s: seq<Message>, i: nat, id: string)
    requires i <= |s|
    ensures Prompt(s, i, id) == Replies(s[i..], id)
    decreases |s| - i
  {
    if i < |s| {
      PromptIsReplies(s, i + 1, id);
      RepliesCons(s[i], s[i + 1..], id);
      assert s[i..] == [s[i]] + s[i + 1..];
    } else {
      assert s[i..] == [];
    }
  }

  lemma {:induction false} AllRepaired(s: seq<Message>, i: nat)
    requires i <= |s| && forall k :: i <= k < |s| ==> RepairedAt(s, k)
    ensures Repaired(s, i)
    decreases |s| - i
  {
    hide RepairedAt;
    if i < |s| {
      AllRepaired(s, i + 1);
    }
  }

  /** The output holds no broken reply and no unanswered call. */
  lemma OutputIsRepaired(ms: seq<Message>)
    ensures Repaired(SecondPass(ms), 0)
  {
    hide Pass, CallsIn, Replies, Multiplicity, Prompt, Late, Repaired;
    var out := SecondPass(ms);
    forall k | 0 <= k < |out|
      ensures RepairedAt(out, k)
    {
      if out[k].Assistant? {
        AfterReply(ms, 0, [], {}, k);
        CallsInAre(out[k].content);
        forall call | call in CallsIn(out[k].content)
          ensures call.ToolCall? && Prompt(out, k + 1, call.id) >= 1
        {
          CallsAreAnswered(ms, k, call);
          PromptIsReplies(out, k + 1, call.id);
        }
      }
    }
    AllRepaired(out, 0);
  }

  function Keeps(lo: nat, hi: nat): seq<Item>
    requires lo <= hi
    decreases hi - lo
  {
    if lo == hi then [] else [Keep(lo)] + Keeps(lo + 1, hi)
  }

  /** The calls waiting at `i` are answered already, or will be before the next user or assistant message. */
  ghost predicate WillBeAnswered(s: seq<Message>, i: nat, pending: seq<Block>, answered: set<string>)
    requires i <= |s|
  {
    forall call :: call in pending ==> call.ToolCall? && (call.id in answered || Prompt(s, i, call.id) >= 1)
  }

  lemma WaitingShifts(s: seq<Message>, i: nat, pending: seq<Block>, answered: set<string>)
    requires i < |s| && WillBeAnswered(s, i, pending, answered) && !EndsReplies(s[i])
    ensures WillBeAnswered(s, i + 1, pending, if s[i].ToolResult? then answered + {s[i].call} else answered)
  {
  }

  lemma {:induction false} NothingToFill(s: seq<Message>, i: nat, pending: seq<Block>, answered: set<string>)
    requires i <= |s| && WillBeAnswered(s, i, pending, answered) && (i == |s| || EndsReplies(s[i]))
    ensures Fills(pending, answered) == []
    decreases |pending|
  {
    if pending != [] {
      var front, last := pending[..|pending| - 1], pending[|pending| - 1];
      assert pending == front + [last];
      NothingToFill(s, i, front, answered);
    }
  }

  lemma RepairedNext(s: seq<Message>, i: nat)
    requires i < |s| && Repaired(s, i)
    ensures Repaired(s, i + 1) && !IsBroken(s[i]) && (s[i].Assistant? ==> s[i].stop == Completed)
    ensures s[i].User? ==> WillBeAnswered(s, i + 1, [], {})
    ensures s[i].Assistant? ==> WillBeAnswered(s, i + 1, CallsIn(s[i].content), {})
  {
    hide CallsIn, Prompt;
  }

  lemma KeepsFrom(lo: nat, hi: nat)
    requires lo <= hi
    ensures Keeps(lo, hi) == if lo == hi then [] else [Keep(lo)] + Keeps(lo + 1, hi)
  {
  }

  lemma {:induction false} RepairedStays(s: seq<Message>, i: nat, pending: seq<Block>, answered: set<string>)
    requires i <= |s| && Repaired(s, i) && WillBeAnswered(s, i, pending, answered)
    ensures Pass(s, i, pending, answered) == Keeps(i, |s|)
    decreases |s| - i
  {
    hide Pass, Fills, CallsIn, Prompt, Repaired, WillBeAnswered, Keeps;
    PassIs(s, i, pending, answered);
    KeepsFrom(i, |s|);
    if i == |s| {
      NothingToFill(s, i, pending, answered);
    } else {
      RepairedNext(s, i);
      if EndsReplies(s[i]) {
        NothingToFill(s, i, pending, answered);
        RepairedStays(s, i + 1, if s[i].User? then [] else CallsIn(s[i].content), {});
      } else {
        WaitingShifts(s, i, pending, answered);
        RepairedStays(s, i + 1, pending, if s[i].ToolResult? then answered + {s[i].call} else answered);
      }
    }
  }

  lemma {:induction false} RenderKeeps(s: seq<Message>, i: nat)
    requires i <= |s|
    ensures Render(s, Keeps(i, |s|)) == s[i..]
    decreases |s| - i
  {
    if i < |s| {
      RenderKeeps(s, i + 1);
      RenderCons(s, [], Keep(i), Keeps(i + 1, |s|));
      assert [] + ([Keep(i)] + Keeps(i + 1, |s|)) == Keeps(i, |s|);
      assert s[i..] == [s[i]] + s[i + 1..];
    }
  }

  /** A second application changes nothing. */
  lemma SecondPassIsIdempotent(ms: seq<Message>)
    ensures SecondPass(SecondPass(ms)) == SecondPass(ms)
  {
    var out := SecondPass(ms);
    OutputIsRepaired(ms);
    hide Pass, Repaired, Render;
    RepairedStays(out, 0, [], {});
    RenderKeeps(out, 0);
    assert out[0..] == out;
  }

  // ----- First pass: contents and identifiers -----

  const USER_IMAGE := "(image omitted: model does not support images)"
  const TOOL_IMAGE := "(tool image omitted: model does not support images)"

  function TextOf(b: Block): string {
    if b.Text? then b.text else ""
  }

  /** Images become one placeholder for each run of them. */
  function ReplaceImages(content: seq<Block>, i: nat, placeholder: string, afterPlaceholder: bool): seq<Block>
    requires i <= |content|
    decreases |content| - i
  {
    if i == |content| then []
    else if content[i].Image? then
      (if afterPlaceholder then [] else [Text(placeholder)]) + ReplaceImages(content, i + 1, placeholder, true)
    else [content[i]] + ReplaceImages(content, i + 1, placeholder, TextOf(content[i]) == placeholder)
  }

  ghost predicate ImageFree(content: seq<Block>) {
    forall b :: b in content ==> !b.Image?
  }

  /** No image is left in the text, and (below) no tool call is lost. */
  lemma {:induction false} NoImagesLeft(content: seq<Block>, i: nat, placeholder: string, after: bool)
    requires i <= |content|
    ensures ImageFree(ReplaceImages(content, i, placeholder, after))
    decreases |content| - i
  {
    if i < |content| {
      var next := content[i].Image? || TextOf(content[i]) == placeholder;
      NoImagesLeft(content, i + 1, placeholder, next);
    }
  }

  lemma {:induction false} ImagesHideNoCalls(content: seq<Block>, i: nat, placeholder: string, after: bool)
    requires i <= |content|
    ensures CallsIn(ReplaceImages(content, i, placeholder, after)) == CallsIn(content[i..])
    decreases |content| - i
  {
    hide CallsIn;
    if i < |content| {
      var next := content[i].Image? || TextOf(content[i]) == placeholder;
      ImagesHideNoCalls(content, i + 1, placeholder, next);
      assert content[i..] == [content[i]] + content[i + 1..];
      CallsInAppend([content[i]], content[i + 1..]);
      CallsInOne(content[i]);
      var first := if !content[i].Image? then [content[i]] else if after then [] else [Text(placeholder)];
      CallsInOne(Text(placeholder));
      CallsInAppend(first, ReplaceImages(content, i + 1, placeholder, next));
    } else {
      assert content[i..] == [];
    }
  }

  lemma {:induction false} CallsInAppend(a: seq<Block>, b: seq<Block>)
    ensures CallsIn(a + b) == CallsIn(a) + CallsIn(b)
  {
    if b == [] {
      assert a + b == a;
    } else {
      assert (a + b)[..|a + b| - 1] == a + b[..|b| - 1];
      CallsInAppend(a, b[..|b| - 1]);
    }
  }

  lemma CallsInOne(b: Block)
    ensures CallsIn([b]) == (if b.ToolCall? then [b] else []) && CallsIn([]) == []
  {
    assert [b][..0] == [];
  }

  function Downgrade(m: Message, vision: bool): Message {
    if vision then m
    else match m
      case User(content) => User(ReplaceImages(content, 0, USER_IMAGE, false))
      case ToolResult(call, name, content, isError) =>
        ToolResult(call, name, ReplaceImages(content, 0, TOOL_IMAGE, false), isError)
      case _ => m
  }

  predicate IsBlank(t: string) {
    forall c :: c in t ==> c in " \t\n\r"
  }

  /** What becomes of a block of a reply by the target model itself (`same`) or by another. */
  function RewriteBlock(b: Block, same: bool, rename: string -> string): seq<Block> {
    match b
    case Thinking(thinking, signature, redacted) =>
      if redacted then if same then [b] else []
      else if same && signature != "" then [b]
      else if IsBlank(thinking) then []
      else if same then [b]
      else [Text(thinking)]
    case ToolCall(id, name, arguments, _) => if same then [b] else [ToolCall(rename(id), name, arguments, "")]
    case _ => [b]
  }

  function RewriteBlocks(blocks: seq<Block>, same: bool, rename: string -> string): seq<Block> {
    if blocks == [] then []
    else RewriteBlocks(blocks[..|blocks| - 1], same, rename) + RewriteBlock(blocks[|blocks| - 1], same, rename)
  }

  function RenameCalls(calls: seq<Block>, same: bool, rename: string -> string): seq<Block> {
    if calls == [] then []
    else RenameCalls(calls[..|calls| - 1], same, rename) + RewriteBlock(calls[|calls| - 1], same, rename)
  }

  lemma RewriteOne(b: Block, same: bool, rename: string -> string)
    ensures CallsIn(RewriteBlock(b, same, rename)) == if b.ToolCall? then RewriteBlock(b, same, rename) else []
    ensures !same ==> forall r :: r in RewriteBlock(b, same, rename) ==>
            !r.Thinking? && (r.ToolCall? ==> r.thoughtSignature == "")
  {
    hide CallsIn;
    var r := RewriteBlock(b, same, rename);
    CallsInOne(b);
    if |r| == 1 {
      assert r == [r[0]];
      CallsInOne(r[0]);
    }
  }

  lemma RenameSnoc(calls: seq<Block>, b: Block, same: bool, rename: string -> string)
    ensures RenameCalls(calls + [b], same, rename) == RenameCalls(calls, same, rename) + RewriteBlock(b, same, rename)
  {
    assert (calls + [b])[..|calls|] == calls;
  }

  /** A reply keeps its calls in order, renamed. */
  lemma {:induction false} RewritingKeepsCalls(blocks: seq<Block>, same: bool, rename: string -> string)
    ensures CallsIn(RewriteBlocks(blocks, same, rename)) == RenameCalls(CallsIn(blocks), same, rename)
  {
    hide RewriteBlock;
    if blocks != [] {
      var front, last := blocks[..|blocks| - 1], blocks[|blocks| - 1];
      RewritingKeepsCalls(front, same, rename);
      CallsInAppend(RewriteBlocks(front, same, rename), RewriteBlock(last, same, rename));
      RewriteOne(last, same, rename);
      if last.ToolCall? {
        RenameSnoc(CallsIn(front), last, same, rename);
      } else {
        assert CallsIn(blocks) == CallsIn(front);
      }
    }
  }

  /** A reply that another model wrote keeps no thinking and no signature. */
  lemma {:induction false} RewritingStripsThinking(blocks: seq<Block>, rename: string -> string)
    ensures forall b :: b in RewriteBlocks(blocks, false, rename) ==>
            !b.Thinking? && (b.ToolCall? ==> b.thoughtSignature == "")
  {
    hide RewriteBlock;
    if blocks != [] {
      RewritingStripsThinking(blocks[..|blocks| - 1], rename);
      RewriteOne(blocks[|blocks| - 1], false, rename);
    }
  }

  /** The renamings a reply records: only identifiers that change. */
  function Record(blocks: seq<Block>, same: bool, rename: string -> string, ids: map<string, string>): map<string,
      string> {
    if blocks == [] then ids
    else
      var before := Record(blocks[..|blocks| - 1], same, rename, ids);
      var b := blocks[|blocks| - 1];
      if b.ToolCall? && !same && rename(b.id) != b.id then before[b.id := rename(b.id)] else before
  }

  function Lookup(ids: map<string, string>, id: string): string {
    if id in ids then ids[id] else id
  }

  predicate IsSame(m: Message, target: ModelId) {
    m.Assistant? && m.source == target
  }

  function RenameIn(m: Message, rename: Renamer): string -> string {
    (id: string) => rename(id, m)
  }

  /** The renamings known after the first `k` messages. */
  function IdsAfter(ms: seq<Message>, k: nat, target: ModelId, rename: Renamer): map<string, string>
    requires k <= |ms|
  {
    if k == 0 then map[]
    else
      var m := ms[k - 1];
      var before := IdsAfter(ms, k - 1, target, rename);
      if m.Assistant? then Record(m.content, IsSame(m, target), RenameIn(m, rename), before) else before
  }

  function Rewrite(m: Message, ids: map<string, string>, target: ModelId, rename: Renamer): Message {
    match m
    case Assistant(source, content, stop) =>
      Assistant(source, RewriteBlocks(content, IsSame(m, target), RenameIn(m, rename)), stop)
    case ToolResult(call, name, content, isError) => ToolResult(Lookup(ids, call), name, content, isError)
    case _ => m
  }

  function FirstPass(ms: seq<Message>, target: ModelId, rename: Renamer): seq<Message> {
    seq(|ms|, i requires 0 <= i < |ms| => Rewrite(ms[i], IdsAfter(ms, i, target, rename), target, rename))
  }

  lemma RewriteSteps(blocks: seq<Block>, i: nat, same: bool, rename: string -> string, ids: map<string, string>)
    requires i <= |blocks|
    ensures RewriteBlocks(blocks[..0], same, rename) == [] && Record(blocks[..0], same, rename, ids) == ids
    ensures i < |blocks| ==>
              RewriteBlocks(blocks[..i + 1], same, rename) ==
              RewriteBlocks(blocks[..i], same, rename) + RewriteBlock(blocks[i], same, rename)
    ensures i < |blocks| ==>
              Record(blocks[..i + 1], same, rename, ids) ==
              var before := Record(blocks[..i], same, rename, ids);
              if blocks[i].ToolCall? && !same && rename(blocks[i].id) != blocks[i].id
                then before[blocks[i].id := rename(blocks[i].id)] else before
  {
    if i < |blocks| {
      assert blocks[..i + 1][..i] == blocks[..i];
    }
  }

  method TransformAssistantMessage(m: Message, target: ModelId, rename: Renamer, ids0: map<string, string>)
    returns (r: Message, ids: map<string, string>)
    requires m.Assistant?
    ensures r == Rewrite(m, ids0, target, rename)
    ensures ids == Record(m.content, IsSame(m, target), RenameIn(m, rename), ids0)
  {
    hide RewriteBlocks, Record, IsBlank;
    var same := m.source == target;
    var content: seq<Block> := [];
    ids := ids0;
    RewriteSteps(m.content, 0, same, RenameIn(m, rename), ids0);
    for i := 0 to |m.content|
      invariant content == RewriteBlocks(m.content[..i], same, RenameIn(m, rename))
      invariant ids == Record(m.content[..i], same, RenameIn(m, rename), ids0)
    {
      RewriteSteps(m.content, i, same, RenameIn(m, rename), ids0);
      var block := m.content[i];
      match block {
        case Thinking(thinking, signature, redacted) =>
          if redacted {
            if same {
              content := content + [block];
            }
          } else if same && signature != "" {
            content := content + [block];
          } else if !IsBlank(thinking) {
            content := content + [if same then block else Text(thinking)];
          }
        case ToolCall(id, name, arguments, _) =>
          var call := block;
          if !same {
            call := call.(thoughtSignature := "");
            var normalized := rename(id, m);
            if normalized != id {
              ids := ids[id := normalized];
              call := call.(id := normalized);
            }
          }
          content := content + [call];
        case _ => content := content + [block];
      }
    }
    assert m.content[..|m.content|] == m.content;
    r := Assistant(m.source, content, m.stop);
  }

  /** The first `k` messages have been rewritten. */
  ghost predicate RewrittenTo(ms: seq<Message>, k: nat, target: ModelId, rename: Renamer, out: seq<Message>) {
    k <= |ms| && |out| == k && forall i :: 0 <= i < k ==>
    out[i] == Rewrite(ms[i], IdsAfter(ms, i, target, rename), target, rename)
  }

  lemma RewrittenSnoc(ms: seq<Message>, k: nat, target: ModelId, rename: Renamer, out: seq<Message>,
                      ids: map<string, string>, m: Message)
    requires RewrittenTo(ms, k, target, rename, out) && k < |ms| && ids == IdsAfter(ms, k, target, rename)
    requires m == Rewrite(ms[k], ids, target, rename)
    ensures RewrittenTo(ms, k + 1, target, rename, out + [m])
  {
    hide Rewrite, IdsAfter;
  }

  lemma RewrittenAll(ms: seq<Message>, target: ModelId, rename: Renamer, out: seq<Message>)
    requires RewrittenTo(ms, |ms|, target, rename, out)
    ensures out == FirstPass(ms, target, rename)
  {
    hide Rewrite, IdsAfter;
  }

  method TransformMessages(messages: seq<Message>, target: ModelId, vision: bool, rename: Renamer)
    returns (result: seq<Message>)
    ensures result == SecondPass(FirstPass(DowngradeAll(messages, vision), target, rename))
  {
    hide *;
    var ms := DowngradeAll(messages, vision);
    var transformed: seq<Message> := [];
    var ids: map<string, string> := map[];
    NothingRewritten(ms, target, rename);
    var i := 0;
    while i < |ms|
      invariant i <= |ms| && ids == IdsAfter(ms, i, target, rename)
      invariant RewrittenTo(ms, i, target, rename, transformed)
    {
      var m := ms[i];
      RewriteIs(m, ids, target, rename);
      IdsNext(ms, i, target, rename);
      var r, next := m, ids;
      if m.Assistant? {
        r, next := TransformAssistantMessage(m, target, rename, ids);
      } else if m.ToolResult? {
        r := ToolResult(Lookup(ids, m.call), m.name, m.content, m.isError);
      }
      RewrittenSnoc(ms, i, target, rename, transformed, ids, r);
      transformed, ids := transformed + [r], next;
      i := i + 1;
    }
    RewrittenAll(ms, target, rename, transformed);
    result := AnswerEveryCall(transformed);
  }

  lemma NothingRewritten(ms: seq<Message>, target: ModelId, rename: Renamer)
    ensures IdsAfter(ms, 0, target, rename) == map[] && RewrittenTo(ms, 0, target, rename, [])
  {
  }

  lemma IdsNext(ms: seq<Message>, i: nat, target: ModelId, rename: Renamer)
    requires i < |ms|
    ensures IdsAfter(ms, i + 1, target, rename) ==
            if ms[i].Assistant? then Record(ms[i].content, IsSame(ms[i], target), RenameIn(ms[i], rename),
                                            IdsAfter(ms, i, target, rename))
            else IdsAfter(ms, i, target, rename)
  {
  }

  function DowngradeAll(ms: seq<Message>, vision: bool): seq<Message> {
    seq(|ms|, i requires 0 <= i < |ms| => Downgrade(ms[i], vision))
  }

  lemma RewriteIs(m: Message, ids: map<string, string>, target: ModelId, rename: Renamer)
    ensures m.ToolResult? ==>
            Rewrite(m, ids, target, rename) == ToolResult(Lookup(ids, m.call), m.name, m.content, m.isError)
    ensures !m.ToolResult? && !m.Assistant? ==> Rewrite(m, ids, target, rename) == m
  {
  }

  // ----- Renaming and pairing -----

  function CallIds(blocks: seq<Block>): set<string> {
    if blocks == [] then {}
    else CallIds(blocks[..|blocks| - 1]) + if blocks[|blocks| - 1].ToolCall? then {blocks[|blocks| - 1].id} else {}
  }

  /** Message `j` makes a call with this identifier. */
  predicate CallAt(ms: seq<Message>, j: nat, id: string) {
    j < |ms| && ms[j].Assistant? && id in CallIds(ms[j].content)
  }

  /** No identifier is used by two messages. */
  ghost predicate DistinctCalls(ms: seq<Message>) {
    forall j: nat, k: nat, id :: CallAt(ms, j, id) && CallAt(ms, k, id) ==> j == k
  }

  function NewId(ms: seq<Message>, j: nat, id: string, target: ModelId, rename: Renamer): string {
    if j < |ms| && ms[j].Assistant? && !IsSame(ms[j], target) then rename(id, ms[j]) else id
  }

  /** Different calls have different identifiers after renaming, too. */
  ghost predicate StayDistinct(ms: seq<Message>, target: ModelId, rename: Renamer) {
    forall j: nat, k: nat, x, y ::
      CallAt(ms, j, x) && CallAt(ms, k, y) && NewId(ms, j, x, target, rename) == NewId(ms, k, y, target, rename) ==>
      x == y
  }

  lemma {:induction false} RecordIs(blocks: seq<Block>, same: bool, rename: string -> string, ids: map<string, string>,
                                    id: string)
    ensures Lookup(Record(blocks, same, rename, ids), id) ==
            if id in CallIds(blocks) && !same && rename(id) != id then rename(id) else Lookup(ids, id)
  {
    if blocks != [] {
      RecordIs(blocks[..|blocks| - 1], same, rename, ids, id);
    }
  }

  lemma {:induction false} LookupIs(ms: seq<Message>, k: nat, target: ModelId, rename: Renamer, j: nat, id: string)
    requires DistinctCalls(ms) && k <= |ms|
    ensures j < k && CallAt(ms, j, id) ==>
            Lookup(IdsAfter(ms, k, target, rename), id) == NewId(ms, j, id, target, rename)
    ensures (forall i: nat :: i < k ==> !CallAt(ms, i, id)) ==> Lookup(IdsAfter(ms, k, target, rename), id) == id
  {
    if k > 0 {
      var m := ms[k - 1];
      LookupIs(ms, k - 1, target, rename, j, id);
      assert CallAt(ms, k - 1, id) <==> m.Assistant? && id in CallIds(m.content);
      if m.Assistant? {
        RecordIs(m.content, IsSame(m, target), RenameIn(m, rename), IdsAfter(ms, k - 1, target, rename), id);
        if CallAt(ms, k - 1, id) {
          FirstMention(ms, k - 1, target, rename, id);
        }
      }
    }
  }

  lemma {:induction false} FirstMention(ms: seq<Message>, k: nat, target: ModelId, rename: Renamer, id: string)
    requires DistinctCalls(ms) && CallAt(ms, k, id)
    ensures forall i: nat :: i < k ==> !CallAt(ms, i, id)
  {
  }

  /** The result at `i` answers the call `id` that message `j` made before it, before and after renaming alike. */
  ghost predicate SamePairing(ms: seq<Message>, target: ModelId, rename: Renamer, i: nat, j: nat, id: string)
    requires i < |ms| && ms[i].ToolResult?
  {
    ms[i].call == id <==> Lookup(IdsAfter(ms, i, target, rename), ms[i].call) == NewId(ms, j, id, target, rename)
  }

  ghost predicate PairingKept(ms: seq<Message>, target: ModelId, rename: Renamer) {
    forall i: nat, j: nat, id :: i < |ms| && ms[i].ToolResult? && j < i && CallAt(ms, j, id) ==>
      SamePairing(ms, target, rename, i, j, id)
  }

  /** The result at `i` answers no call before it. */
  ghost predicate IsOrphan(ms: seq<Message>, i: nat)
    requires i < |ms| && ms[i].ToolResult?
  {
    forall j: nat :: j < i ==> !CallAt(ms, j, ms[i].call)
  }

  /** No orphaned result bears the new identifier of a call before it. */
  ghost predicate OrphansStayAlone(ms: seq<Message>, target: ModelId, rename: Renamer) {
    forall i: nat, j: nat, id ::
      i < |ms| && ms[i].ToolResult? && j < i && CallAt(ms, j, id) && IsOrphan(ms, i) ==>
      NewId(ms, j, id, target, rename) != ms[i].call
  }

  lemma PairingAt(ms: seq<Message>, target: ModelId, rename: Renamer, i: nat, j: nat, id: string)
    requires DistinctCalls(ms) && StayDistinct(ms, target, rename)
    requires i < |ms| && ms[i].ToolResult? && j < i && CallAt(ms, j, id)
    ensures SamePairing(ms, target, rename, i, j, id) <==>
            (IsOrphan(ms, i) ==> NewId(ms, j, id, target, rename) != ms[i].call)
  {
    hide CallAt, NewId, IdsAfter, Lookup;
    var call := ms[i].call;
    LookupIs(ms, i, target, rename, j, call);
    if IsOrphan(ms, i) {
      assert call != id;
    } else {
      var k: nat :| k < i && CallAt(ms, k, call);
      LookupIs(ms, i, target, rename, k, call);
    }
  }

  /** When call identifiers are distinct and stay distinct, renaming changes no pairing of results with calls before
      them, exactly when no orphaned result happens to bear a new identifier. */
  lemma RenamingKeepsPairing(ms: seq<Message>, target: ModelId, rename: Renamer)
    requires DistinctCalls(ms) && StayDistinct(ms, target, rename)
    ensures PairingKept(ms, target, rename) <==> OrphansStayAlone(ms, target, rename)
  {
    hide DistinctCalls, StayDistinct, CallAt, NewId, SamePairing, IsOrphan;
    forall i: nat, j: nat, id | i < |ms| && ms[i].ToolResult? && j < i && CallAt(ms, j, id)
      ensures SamePairing(ms, target, rename, i, j, id) <==>
              (IsOrphan(ms, i) ==> NewId(ms, j, id, target, rename) != ms[i].call)
    {
      PairingAt(ms, target, rename, i, j, id);
    }
  }

  /** The exception is real: a result for a call that is not there comes to answer a call renamed to its identifier. */
  lemma OrphanExample()
    ensures var other, target := ModelId("p", "a", "m"), ModelId("q", "b", "n");
            var ms := [Assistant(other, [ToolCall("x", "tool", "{}", "")], Completed),
                       ToolResult("y", "tool", [], false)];
            var rename: Renamer := (id: string, m: Message) => if id == "x" then "y" else id;
            && DistinctCalls(ms) && StayDistinct(ms, target, rename) && !PairingKept(ms, target, rename)
            && FirstPass(ms, target, rename) == [Assistant(other, [ToolCall("y", "tool", "{}", "")], Completed), ms[1]]
  {
    var other, target := ModelId("p", "a", "m"), ModelId("q", "b", "n");
    var call, renamed := ToolCall("x", "tool", "{}", ""), ToolCall("y", "tool", "{}", "");
    var ms := [Assistant(other, [call], Completed), ToolResult("y", "tool", [], false)];
    var rename: Renamer := (id: string, m: Message) => if id == "x" then "y" else id;
    assert [call][..0] == [] && CallIds([call]) == {"x"};
    assert forall j: nat, id :: CallAt(ms, j, id) ==> j == 0 && id == "x";
    assert RewriteBlock(call, false, RenameIn(ms[0], rename)) == [renamed];
    assert RewriteBlocks([call], false, RenameIn(ms[0], rename)) == [renamed];
    var ids := IdsAfter(ms, 1, target, rename);
    assert ids == Record([call], false, RenameIn(ms[0], rename), IdsAfter(ms, 0, target, rename));
    assert "y" !in ids;
    assert !SamePairing(ms, target, rename, 1, 0, "x");
  }

  /** The rewritten transcript really carries those identifiers. */
  lemma RewrittenIds(ms: seq<Message>, target: ModelId, rename: Renamer, i: nat)
    requires i < |ms|
    ensures var m := FirstPass(ms, target, rename)[i];
            && (ms[i].ToolResult? ==> m.ToolResult? && m.call == Lookup(IdsAfter(ms, i, target, rename), ms[i].call))
            && (ms[i].Assistant? ==>
                  && m.Assistant? && m.stop == ms[i].stop
                  && CallsIn(m.content) == RenameCalls(CallsIn(ms[i].content), IsSame(ms[i], target),
                                                       RenameIn(ms[i], rename)))
            && (ms[i].User? || ms[i].Custom? ==> m == ms[i])
  {
    hide RewriteBlocks, CallsIn, IdsAfter, Lookup, RenameCalls;
    if ms[i].Assistant? {
      RewritingKeepsCalls(ms[i].content, IsSame(ms[i], target), RenameIn(ms[i], rename));
    }
  }

  // ----- What rewriting keeps, block by block -----

  /** `at` lists, in order, the indices below `n` for which `p` holds. */
  ghost predicate Lists(at: seq<nat>, n: nat, p: nat -> bool) {
    && (forall j, k :: 0 <= j < k < |at| ==> at[j] < at[k])
    && (forall i: nat :: i in at <==> i < n && p(i))
  }

  lemma ListsSnoc(at: seq<nat>, n: nat, p: nat -> bool)
    requires Lists(at, n, p)
    ensures Lists(if p(n) then at + [n] else at, n + 1, p)
  {
    forall k | 0 <= k < |at|
      ensures at[k] < n
    {
      assert at[k] in at;
    }
  }

  /** A reply keeps all but thinking: blank thinking without a signature goes, and from another model redacted thinking
      and all that is blank. */
  predicate Survives(blocks: seq<Block>, same: bool, i: nat) {
    i < |blocks| && match blocks[i]
    case Thinking(thinking, signature, redacted) =>
      if same then redacted || signature != "" || !IsBlank(thinking) else !redacted && !IsBlank(thinking)
    case _ => true
  }

  /** The model's own block stays as it is; another model's thinking becomes text, and its calls are renamed and lose
      the signature. */
  predicate BecomesBlock(b: Block, same: bool, rename: string -> string, r: Block) {
    if same then r == b
    else match b
      case Thinking(thinking, _, _) => r == Text(thinking)
      case ToolCall(id, name, arguments, _) =>
        && r.ToolCall? && r.id == rename(id) && r.name == name && r.arguments == arguments && r.thoughtSignature == ""
      case _ => r == b
  }

  /** What surviving blocks become, in order. */
  ghost predicate AreRewritten(blocks: seq<Block>, same: bool, rename: string -> string, at: seq<nat>,
                               out: seq<Block>) {
    && |out| == |at|
    && (forall k :: 0 <= k < |at| ==> at[k] < |blocks| && BecomesBlock(blocks[at[k]], same, rename, out[k]))
  }

  /** A rewritten reply is exactly its surviving blocks, each in its new form, in order. */
  lemma {:induction false} RewritingMeans(blocks: seq<Block>, same: bool, rename: string -> string)
    returns (at: seq<nat>)
    ensures Lists(at, |blocks|, (i: nat) => Survives(blocks, same, i))
    ensures AreRewritten(blocks, same, rename, at, RewriteBlocks(blocks, same, rename))
  {
    if blocks == [] {
      at := [];
    } else {
      var n := |blocks| - 1;
      var front := blocks[..n];
      var before := RewritingMeans(front, same, rename);
      assert forall i: nat :: i < n ==> Survives(front, same, i) == Survives(blocks, same, i);
      assert Lists(before, n, (i: nat) => Survives(blocks, same, i));
      ListsSnoc(before, n, (i: nat) => Survives(blocks, same, i));
      at := if Survives(blocks, same, n) then before + [n] else before;
      RewriteLast(blocks, same, rename, before, at);
    }
  }

  lemma RewriteLast(blocks: seq<Block>, same: bool, rename: string -> string, before: seq<nat>, at: seq<nat>)
    requires blocks != []
    requires var front := blocks[..|blocks| - 1];
             AreRewritten(front, same, rename, before, RewriteBlocks(front, same, rename))
    requires at == if Survives(blocks, same, |blocks| - 1) then before + [|blocks| - 1] else before
    ensures AreRewritten(blocks, same, rename, at, RewriteBlocks(blocks, same, rename))
  {
    hide IsBlank, RewriteBlock, Survives, BecomesBlock;
    LastSurvives(blocks, same, rename);
  }

  lemma LastSurvives(blocks: seq<Block>, same: bool, rename: string -> string)
    requires blocks != []
    ensures var n := |blocks| - 1;
            var last := RewriteBlock(blocks[n], same, rename);
            |last| == (if Survives(blocks, same, n) then 1 else 0)
            && (last != [] ==> BecomesBlock(blocks[n], same, rename, last[0]))
  {
    hide IsBlank;
  }

  /** The block at `i` is shown: it is no image, or the first of a run of images that follows no placeholder. */
  predicate IsShown(content: seq<Block>, placeholder: string, i: nat) {
    i < |content|
    && (content[i].Image? ==> i == 0 || (!content[i - 1].Image? && TextOf(content[i - 1]) != placeholder))
  }

  ghost predicate AreShown(content: seq<Block>, placeholder: string, at: seq<nat>, out: seq<Block>) {
    && |out| == |at|
    && (forall k :: 0 <= k < |at| ==>
          at[k] < |content| && out[k] == if content[at[k]].Image? then Text(placeholder) else content[at[k]])
  }

  /** A downgraded content is exactly its blocks in order, with one placeholder for each run of images. */
  lemma ImagesMean(content: seq<Block>, placeholder: string) returns (at: seq<nat>)
    ensures Lists(at, |content|, (i: nat) => IsShown(content, placeholder, i))
    ensures AreShown(content, placeholder, at, ReplaceImages(content, 0, placeholder, false))
  {
    hide ReplaceImages, IsShown, TextOf, Lists, AreShown;
    at := [];
    var out: seq<Block>, after := [], false;
    NothingShown(content, placeholder);
    var i := 0;
    while i < |content|
      invariant i <= |content| && Lists(at, i, (j: nat) => IsShown(content, placeholder, j))
      invariant AreShown(content, placeholder, at, out)
      invariant after == (i > 0 && (content[i - 1].Image? || TextOf(content[i - 1]) == placeholder))
      invariant out + ReplaceImages(content, i, placeholder, after) == ReplaceImages(content, 0, placeholder, false)
    {
      ListsSnoc(at, i, (j: nat) => IsShown(content, placeholder, j));
      ReplaceStep(content, i, placeholder, after, out);
      ShownNext(content, placeholder, at, out, i);
      if IsShown(content, placeholder, i) {
        at, out := at + [i], out + [if content[i].Image? then Text(placeholder) else content[i]];
      }
      after := content[i].Image? || TextOf(content[i]) == placeholder;
      i := i + 1;
    }
    assert out + ReplaceImages(content, |content|, placeholder, after) == out by {
      AllReplaced(content, placeholder, after);
    }
  }

  lemma ShownNext(content: seq<Block>, placeholder: string, at: seq<nat>, out: seq<Block>, i: nat)
    requires AreShown(content, placeholder, at, out) && i < |content|
    ensures AreShown(content, placeholder, at + [i],
                     out + [if content[i].Image? then Text(placeholder) else content[i]])
  {
  }

  lemma NothingShown(content: seq<Block>, placeholder: string)
    ensures AreShown(content, placeholder, [], [])
    ensures Lists([], 0, (j: nat) => IsShown(content, placeholder, j))
    ensures [] + ReplaceImages(content, 0, placeholder, false) == ReplaceImages(content, 0, placeholder, false)
  {
  }

  lemma AllReplaced(content: seq<Block>, placeholder: string, after: bool)
    ensures ReplaceImages(content, |content|, placeholder, after) == []
  {
  }

  lemma ReplaceStep(content: seq<Block>, i: nat, placeholder: string, after: bool, out: seq<Block>)
    requires i < |content|
    requires after == (i > 0 && (content[i - 1].Image? || TextOf(content[i - 1]) == placeholder))
    ensures out + ReplaceImages(content, i, placeholder, after) ==
            (if IsShown(content, placeholder, i)
             then out + [if content[i].Image? then Text(placeholder) else content[i]] else out)
            + ReplaceImages(content, i + 1, placeholder, content[i].Image? || TextOf(content[i]) == placeholder)
  {
    var next := content[i].Image? || TextOf(content[i]) == placeholder;
    var rest := ReplaceImages(content, i + 1, placeholder, next);
    if IsShown(content, placeholder, i) {
      var b := if content[i].Image? then Text(placeholder) else content[i];
      assert ReplaceImages(content, i, placeholder, after) == [b] + rest;
      assert out + ([b] + rest) == out + [b] + rest;
    } else {
      assert ReplaceImages(content, i, placeholder, after) == [] + rest;
    }
  }

  /** What becomes of a message before the transcript is repaired: a message of the user or a custom one keeps all but
      its images, a result bears the identifier known for it, a reply has exactly its surviving blocks. */
  lemma MessagesMean(messages: seq<Message>, target: ModelId, vision: bool, rename: Renamer, i: nat)
    returns (at: seq<nat>, shown: seq<Block>)
    requires i < |messages|
    ensures |FirstPass(DowngradeAll(messages, vision), target, rename)| == |messages|
    ensures var ms := DowngradeAll(messages, vision);
            var m, r := messages[i], FirstPass(ms, target, rename)[i];
            match m
            case User(content) => r == User(shown) && SeenAs(content, vision, USER_IMAGE, at, shown)
            case ToolResult(call, name, content, isError) =>
              && SeenAs(content, vision, TOOL_IMAGE, at, shown)
              && r == ToolResult(Lookup(IdsAfter(ms, i, target, rename), call), name, shown, isError)
            case Assistant(source, content, stop) =>
              && r.Assistant? && r.source == source && r.stop == stop
              && Lists(at, |content|, (k: nat) => Survives(content, source == target, k))
              && AreRewritten(content, source == target, (id: string) => rename(id, m), at, r.content)
            case Custom(_) => r == m
  {
    hide RewriteBlocks, ReplaceImages, IdsAfter, Lookup, Lists, AreRewritten, AreShown;
    at, shown := [], [];
    match messages[i] {
      case User(content) =>
        shown := if vision then content else ReplaceImages(content, 0, USER_IMAGE, false);
        at := ImagesMean(content, USER_IMAGE);
      case ToolResult(call, name, content, isError) =>
        shown := if vision then content else ReplaceImages(content, 0, TOOL_IMAGE, false);
        at := ImagesMean(content, TOOL_IMAGE);
      case Assistant(source, content, stop) =>
        at := RewritingMeans(content, source == target, RenameIn(messages[i], rename));
      case Custom(_) =>
    }
  }

  ghost predicate SeenAs(content: seq<Block>, vision: bool, placeholder: string, at: seq<nat>, shown: seq<Block>) {
    if vision then shown == content
    else Lists(at, |content|, (k: nat) => IsShown(content, placeholder, k))
         && AreShown(content, placeholder, at, shown)
  }

  // ----- What is filled in -----

  /** The fill at `k` stands for a call that waits, or for one of the reply it follows. */
  ghost predicate FillsCall(ms: seq<Message>, items: seq<Item>, pending: seq<Block>, k: nat)
    requires k < |items| && items[k].Fill?
  {
    || (items[k].call in pending && forall l :: 0 <= l < k ==> !EndsReplies(Shown(ms, items[l])))
    || (exists j :: 0 <= j < k && FollowsReply(ms, items, j, k))
  }

  ghost predicate FollowsReply(ms: seq<Message>, items: seq<Item>, j: nat, k: nat)
    requires j < k < |items| && items[k].Fill?
  {
    && Shown(ms, items[j]).Assistant? && items[k].call in CallsIn(Shown(ms, items[j]).content)
    && forall l :: j < l < k ==> !EndsReplies(Shown(ms, items[l]))
  }

  lemma {:induction false} FillsAreInPending(pending: seq<Block>, answered: set<string>)
    ensures forall f :: f in Fills(pending, answered) ==> f.Fill? && f.call in pending && f.call.ToolCall?
  {
    if pending != [] {
      FillsAreInPending(pending[..|pending| - 1], answered);
      assert pending == pending[..|pending| - 1] + [pending[|pending| - 1]];
    }
  }

  lemma {:induction false} FillStandsForCall(ms: seq<Message>, i: nat, pending: seq<Block>, answered: set<string>,
                                             k: nat)
    requires i <= |ms| && k < |Pass(ms, i, pending, answered)|
    ensures var items := Pass(ms, i, pending, answered);
            && (items[k].Keep? ==> items[k].index < |ms|)
            && (items[k].Fill? ==> items[k].call.ToolCall? && FillsCall(ms, items, pending, k))
    decreases |ms| - i
  {
    hide *;
    if i == |ms| {
      PassIs(ms, i, pending, answered);
      AmongFills(ms, pending, answered, [], k);
      assert Fills(pending, answered) + [] == Fills(pending, answered);
    } else {
      var fills, mid, next, answeredNext := PassParts(ms, i, pending, answered);
      var rest, n := Pass(ms, i + 1, next, answeredNext), |fills| + |mid|;
      if k >= n {
        FillStandsForCall(ms, i + 1, next, answeredNext, k - n);
      }
      StandsHere(ms, i, fills, mid, rest, pending, answered, next, k);
    }
  }

  /** One step of that: an item is among the fills, the message itself, or among the rest. */
  lemma StandsHere(ms: seq<Message>, i: nat, fills: seq<Item>, mid: seq<Item>, rest: seq<Item>, pending: seq<Block>,
                   answered: set<string>, next: seq<Block>, k: nat)
    requires i < |ms| && k < |fills| + |mid| + |rest|
    requires fills == (if EndsReplies(ms[i]) then Fills(pending, answered) else [])
             && mid == if IsBroken(ms[i]) then [] else [Keep(i)]
    requires ms[i].User? || IsBroken(ms[i]) ==> next == []
    requires ms[i].Assistant? && !IsBroken(ms[i]) ==> next == CallsIn(ms[i].content)
    requires !EndsReplies(ms[i]) ==> next == pending
    requires var n := |fills| + |mid|;
             k >= n ==>
               && (rest[k - n].Keep? ==> rest[k - n].index < |ms|)
               && (rest[k - n].Fill? ==> rest[k - n].call.ToolCall? && FillsCall(ms, rest, next, k - n))
    ensures var items := fills + (mid + rest);
            && (items[k].Keep? ==> items[k].index < |ms|)
            && (items[k].Fill? ==> items[k].call.ToolCall? && FillsCall(ms, items, pending, k))
  {
    hide Fills, CallsIn, FillsCall, Shown;
    ItemOf(fills, mid, rest, k);
    var n := |fills| + |mid|;
    if k < |fills| {
      AmongFills(ms, pending, answered, mid + rest, k);
    } else if k >= n && rest[k - n].Fill? {
      FillShifts(ms, i, fills, mid, rest, pending, next, k - n);
    }
  }

  lemma AmongFills(ms: seq<Message>, pending: seq<Block>, answered: set<string>, rest: seq<Item>, k: nat)
    requires k < |Fills(pending, answered)|
    ensures var items := Fills(pending, answered) + rest;
            items[k].Fill? && items[k].call.ToolCall? && FillsCall(ms, items, pending, k)
  {
    hide CallsIn, FollowsReply, Fills, Shown;
    FillsAreInPending(pending, answered);
    FillsAreResults(ms, pending, answered);
    var fills := Fills(pending, answered);
    assert forall l :: 0 <= l <= k ==> (fills + rest)[l] == fills[l] && fills[l] in fills;
  }

  lemma FillShifts(ms: seq<Message>, i: nat, fills: seq<Item>, mid: seq<Item>, rest: seq<Item>, pending: seq<Block>,
                   next: seq<Block>, k: nat)
    requires i < |ms| && k < |rest| && rest[k].Fill? && FillsCall(ms, rest, next, k)
    requires mid == if IsBroken(ms[i]) then [] else [Keep(i)]
    requires EndsReplies(ms[i]) || (fills == [] && next == pending)
    requires ms[i].User? || IsBroken(ms[i]) ==> next == []
    requires ms[i].Assistant? && !IsBroken(ms[i]) ==> next == CallsIn(ms[i].content)
    ensures FillsCall(ms, fills + (mid + rest), pending, k + |fills| + |mid|)
  {
    hide CallsIn, FollowsReply;
    var items, front := fills + (mid + rest), fills + mid;
    assert items == front + rest;
    assert items[|front| + k] == rest[k];
    if exists j :: 0 <= j < k && FollowsReply(ms, rest, j, k) {
      var j :| 0 <= j < k && FollowsReply(ms, rest, j, k);
      FollowsShift(ms, front, rest, j, k);
      assert FollowsReply(ms, items, j + |front|, k + |front|);
    } else if ms[i].Assistant? {
      FollowsThis(ms, i, fills, rest, k);
      assert FollowsReply(ms, items, |fills|, k + |front|);
    } else {
      NoneBefore(ms, i, rest, k);
      assert items == [Keep(i)] + rest;
    }
  }

  lemma FollowsShift(ms: seq<Message>, front: seq<Item>, rest: seq<Item>, j: nat, k: nat)
    requires j < k < |rest| && rest[k].Fill? && FollowsReply(ms, rest, j, k)
    ensures (front + rest)[k + |front|] == rest[k] && FollowsReply(ms, front + rest, j + |front|, k + |front|)
  {
    hide CallsIn, Shown, EndsReplies;
    var items := front + rest;
    forall l | j + |front| < l < k + |front|
      ensures !EndsReplies(Shown(ms, items[l]))
    {
      assert items[l] == rest[l - |front|];
    }
  }

  lemma FollowsThis(ms: seq<Message>, i: nat, fills: seq<Item>, rest: seq<Item>, k: nat)
    requires i < |ms| && ms[i].Assistant? && k < |rest| && rest[k].Fill? && rest[k].call in CallsIn(ms[i].content)
    requires forall l :: 0 <= l < k ==> !EndsReplies(Shown(ms, rest[l]))
    ensures var items := fills + ([Keep(i)] + rest);
            items[k + |fills| + 1] == rest[k] && FollowsReply(ms, items, |fills|, k + |fills| + 1)
  {
    hide CallsIn, EndsReplies;
    var items, n := fills + ([Keep(i)] + rest), |fills|;
    assert items[n] == Keep(i);
    forall l | n < l < k + n + 1
      ensures !EndsReplies(Shown(ms, items[l]))
    {
      assert items[l] == rest[l - n - 1];
    }
  }

  lemma NoneBefore(ms: seq<Message>, i: nat, rest: seq<Item>, k: nat)
    requires i < |ms| && !EndsReplies(ms[i]) && k <= |rest|
    requires forall l :: 0 <= l < k ==> !EndsReplies(Shown(ms, rest[l]))
    ensures forall l :: 0 <= l < k + 1 ==> !EndsReplies(Shown(ms, ([Keep(i)] + rest)[l]))
  {
    hide EndsReplies;
    var items := [Keep(i)] + rest;
    forall l | 0 <= l < k + 1
      ensures !EndsReplies(Shown(ms, items[l]))
    {
      assert items[l] == if l == 0 then Keep(i) else rest[l - 1];
    }
  }

  /** Every message that comes out is one that went in, or an error result, for a call of the reply it follows, that
      bears the call's identifier and name and says that there is none. */
  lemma OutputMeans(ms: seq<Message>, k: nat)
    requires k < |SecondPass(ms)|
    ensures var out := SecondPass(ms);
            || out[k] in ms
            || (exists j, call :: 0 <= j < k && IsFilledIn(out, j, k, call))
  {
    hide Pass, CallsIn;
    FillStandsForCall(ms, 0, [], {}, k);
    var items, out := Pass(ms, 0, [], {}), SecondPass(ms);
    if items[k].Fill? {
      var j :| 0 <= j < k && FollowsReply(ms, items, j, k);
      assert IsFilledIn(out, j, k, items[k].call);
    }
  }

  ghost predicate IsFilledIn(out: seq<Message>, j: nat, k: nat, call: Block)
    requires j < k < |out|
  {
    && out[j].Assistant? && call in CallsIn(out[j].content) && call.ToolCall?
    && (forall l :: j < l < k ==> !EndsReplies(out[l]))
    && out[k] == ToolResult(call.id, call.name, [Text("No result provided")], true)
  }

  /** The identifiers of the results in a stretch of messages. */
  function ResultIds(ms: seq<Message>, lo: nat, hi: nat): set<string>
    requires lo <= hi <= |ms|
  {
    set i | lo <= i < hi && ms[i].ToolResult? :: ms[i].call
  }

  /** `n` is the next user or assistant message from `i` on, or the end. */
  predicate IsNextEnd(ms: seq<Message>, i: nat, n: nat) {
    && i <= n <= |ms| && (n < |ms| ==> EndsReplies(ms[n]))
    && forall l :: i <= l < n ==> !EndsReplies(ms[l])
  }

  /** What the pass writes first: the messages up to the next user or assistant message, then the fills. */
  lemma {:induction false} PassBegins(ms: seq<Message>, i: nat, n: nat, pending: seq<Block>, answered: set<string>)
    requires IsNextEnd(ms, i, n)
    ensures Keeps(i, n) + Fills(pending, answered + ResultIds(ms, i, n)) <= Pass(ms, i, pending, answered)
    decreases n - i
  {
    hide Pass, Fills, CallsIn, Keeps;
    KeepsFrom(i, n);
    if i == n {
      PassIs(ms, i, pending, answered);
      assert answered + ResultIds(ms, i, n) == answered;
      assert [] + Fills(pending, answered) == Fills(pending, answered);
    } else {
      var next := if ms[i].ToolResult? then answered + {ms[i].call} else answered;
      PassBegins(ms, i + 1, n, pending, next);
      ResultIdsNext(ms, i, n, answered);
      PassKeeps(ms, i, pending, answered);
      PrefixCons(Keep(i), Keeps(i + 1, n), Fills(pending, answered + ResultIds(ms, i, n)),
                 Pass(ms, i + 1, pending, next));
    }
  }

  lemma ResultIdsNext(ms: seq<Message>, i: nat, n: nat, answered: set<string>)
    requires i < n <= |ms|
    ensures (if ms[i].ToolResult? then answered + {ms[i].call} else answered) + ResultIds(ms, i + 1, n) ==
            answered + ResultIds(ms, i, n)
  {
  }

  lemma PassKeeps(ms: seq<Message>, i: nat, pending: seq<Block>, answered: set<string>)
    requires i < |ms| && !EndsReplies(ms[i])
    ensures Pass(ms, i, pending, answered) ==
            [Keep(i)] + Pass(ms, i + 1, pending, if ms[i].ToolResult? then answered + {ms[i].call} else answered)
  {
    hide Fills;
  }

  lemma PrefixCons<T>(x: T, a: seq<T>, b: seq<T>, all: seq<T>)
    requires a + b <= all
    ensures [x] + a + b <= [x] + all
  {
    assert [x] + a + b == [x] + (a + b);
  }

  predicate IsUnanswered(calls: seq<Block>, answered: set<string>, i: nat) {
    i < |calls| && calls[i].ToolCall? && calls[i].id !in answered
  }

  ghost predicate AreFills(pending: seq<Block>, at: seq<nat>, fills: seq<Item>) {
    && |fills| == |at|
    && forall k :: 0 <= k < |at| ==>
         at[k] < |pending| && pending[at[k]].ToolCall? && fills[k] == Fill(pending[at[k]])
  }

  lemma AreFillsSnoc(pending: seq<Block>, call: Block, at: seq<nat>, fills: seq<Item>)
    requires AreFills(pending, at, fills)
    ensures AreFills(pending + [call], at, fills)
    ensures call.ToolCall? ==> AreFills(pending + [call], at + [|pending|], fills + [Fill(call)])
  {
  }

  lemma FillsNext(pending: seq<Block>, answered: set<string>, before: seq<nat>)
    requires pending != [] && AreFills(pending[..|pending| - 1], before, Fills(pending[..|pending| - 1], answered))
    ensures var n := |pending| - 1;
            AreFills(pending, if IsUnanswered(pending, answered, n) then before + [n] else before,
                     Fills(pending, answered))
  {
    hide AreFills, Fills;
    var n, front := |pending| - 1, pending[..|pending| - 1];
    assert pending == front + [pending[n]];
    FillsSnoc(front, pending[n], answered);
    AreFillsSnoc(front, pending[n], before, Fills(front, answered));
    assert Fills(front, answered) + [] == Fills(front, answered);
  }

  lemma NoFills(answered: set<string>)
    ensures Lists([], 0, (i: nat) => IsUnanswered([], answered, i)) && AreFills([], [], Fills([], answered))
  {
  }

  /** The fills stand for exactly the unanswered calls, in order. */
  lemma {:induction false} FillsAre(pending: seq<Block>, answered: set<string>) returns (at: seq<nat>)
    ensures Lists(at, |pending|, (i: nat) => IsUnanswered(pending, answered, i))
    ensures AreFills(pending, at, Fills(pending, answered))
  {
    hide *;
    if pending == [] {
      at := [];
      NoFills(answered);
    } else {
      var n, front := |pending| - 1, pending[..|pending| - 1];
      var before := FillsAre(front, answered);
      UnansweredInFront(pending, answered, before);
      ListsSnoc(before, n, (i: nat) => IsUnanswered(pending, answered, i));
      FillsNext(pending, answered, before);
      at := if IsUnanswered(pending, answered, n) then before + [n] else before;
    }
  }

  lemma UnansweredInFront(pending: seq<Block>, answered: set<string>, at: seq<nat>)
    requires pending != []
    requires var n := |pending| - 1;
             Lists(at, n, (i: nat) => IsUnanswered(pending[..n], answered, i))
    ensures Lists(at, |pending| - 1, (i: nat) => IsUnanswered(pending, answered, i))
  {
    var n := |pending| - 1;
    assert forall i: nat :: i < n ==> IsUnanswered(pending[..n], answered, i) == IsUnanswered(pending, answered, i);
  }

  lemma {:induction false} KeepsAre(lo: nat, hi: nat)
    requires lo <= hi
    ensures |Keeps(lo, hi)| == hi - lo && forall i :: 0 <= i < hi - lo ==> Keeps(lo, hi)[i] == Keep(lo + i)
    decreases hi - lo
  {
    if lo < hi {
      KeepsAre(lo + 1, hi);
    }
  }

  /** What follows a reply in the output: all that followed it in the input up to the next user or assistant message,
      and then, in the order of its calls, an error result for each call that none of those messages answers. */
  lemma ReplyIsFollowedBy(ms: seq<Message>, k: nat, j: nat, n: nat) returns (at: seq<nat>)
    requires k < |SecondPass(ms)| && Pass(ms, 0, [], {})[k] == Keep(j) && j < |ms| && ms[j].Assistant?
    requires IsNextEnd(ms, j + 1, n)
    ensures var out, calls, m := SecondPass(ms), CallsIn(ms[j].content), n - j - 1;
            && Lists(at, |calls|, (i: nat) => IsUnanswered(calls, ResultIds(ms, j + 1, n), i))
            && k + 1 + m + |at| <= |out|
            && out[k + 1..k + 1 + m] == ms[j + 1..n]
            && (forall i :: 0 <= i < |at| ==>
                  at[i] < |calls| && calls[at[i]].ToolCall?
                  && out[k + 1 + m + i] == ToolResult(calls[at[i]].id, calls[at[i]].name,
                                                      [Text("No result provided")], true))
  {
    hide Pass, Fills, CallsIn, Keeps, Lists, Render, AreFills, IsUnanswered, EndsReplies, ResultIds;
    var items, calls := Pass(ms, 0, [], {}), CallsIn(ms[j].content);
    OutputIs(ms);
    AfterReply(ms, 0, [], {}, k);
    PassBegins(ms, j + 1, n, calls, {});
    assert {} + ResultIds(ms, j + 1, n) == ResultIds(ms, j + 1, n);
    at := FillsAre(calls, ResultIds(ms, j + 1, n));
    ShownAfter(ms, items, k + 1, j + 1, n, calls, at, Fills(calls, ResultIds(ms, j + 1, n)));
  }

  lemma OutputIs(ms: seq<Message>)
    ensures SecondPass(ms) == Render(ms, Pass(ms, 0, [], {})) && |SecondPass(ms)| == |Pass(ms, 0, [], {})|
  {
  }

  /** How a stretch of kept messages, and the fills after it, come out. */
  lemma ShownAfter(ms: seq<Message>, items: seq<Item>, k: nat, lo: nat, hi: nat, calls: seq<Block>, at: seq<nat>,
                   fills: seq<Item>)
    requires k <= |items| && lo <= hi <= |ms| && Keeps(lo, hi) + fills <= items[k..] && AreFills(calls, at, fills)
    ensures var out, m := Render(ms, items), hi - lo;
            && |out| == |items| && k + m + |at| <= |out| && out[k..k + m] == ms[lo..hi]
            && (forall i :: 0 <= i < |at| ==>
                  at[i] < |calls| && calls[at[i]].ToolCall?
                  && out[k + m + i] == ToolResult(calls[at[i]].id, calls[at[i]].name,
                                                  [Text("No result provided")], true))
  {
    hide Keeps;
    KeepsAre(lo, hi);
    var out, m, rest := Render(ms, items), hi - lo, items[k..];
    assert |rest| >= m + |fills|;
    forall i | 0 <= i < m
      ensures out[k..k + m][i] == ms[lo..hi][i]
    {
      assert rest[i] == (Keeps(lo, hi) + fills)[i] == Keep(lo + i);
    }
    forall i | 0 <= i < |at|
      ensures at[i] < |calls| && calls[at[i]].ToolCall? && out[k + m + i] == NoResult(calls[at[i]])
    {
      assert rest[m + i] == (Keeps(lo, hi) + fills)[m + i] == fills[i];
    }
  }
}

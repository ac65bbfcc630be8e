/** Cutting a conversation in two: the older part is summarized, the newer part is kept. */
module Compaction {
  import opened Options

  /** Text and other blocks of a user message, by number. */
  type Block = nat

  datatype Message =
    | User(blocks: seq<Block>)
    | Assistant(content: nat, calls: seq<nat>)
    | ToolResult(call: nat, content: nat)
    | BashExecution(command: nat)

  /** An entry's identifier; zero stands for the empty one. */
  type EntryId = nat

  datatype Entry =
    | MessageEntry(id: EntryId, message: Option<Message>)
    | CompactionEntry(id: EntryId, summary: Block, firstKept: EntryId)
    | BranchSummary(id: EntryId, summary: Block)
    | CustomMessage(id: EntryId, content: seq<Block>)
    | Note(id: EntryId)

  datatype CutPoint = CutPoint(firstKept: nat, turnStart: Option<nat>, isSplitTurn: bool)

  predicate IsCutPoint(e: Entry) {
    (e.MessageEntry? && e.message.Some? && !e.message.value.ToolResult?) || e.BranchSummary? || e.CustomMessage?
  }

  function CutPoints(entries: seq<Entry>, start: nat, end: nat): seq<nat>
    requires start <= end <= |entries|
  {
    if start == end then []
    else CutPoints(entries, start, end - 1) + if IsCutPoint(entries[end - 1]) then [end - 1] else []
  }

  method FindValidCutPoints(entries: seq<Entry>, start: nat, end: nat) returns (cutPoints: seq<nat>)
    requires start <= end <= |entries|
    ensures cutPoints == CutPoints(entries, start, end)
  {
    cutPoints := [];
    for i := start to end
      invariant cutPoints == CutPoints(entries, start, i)
    {
      if IsCutPoint(entries[i]) {
        cutPoints := cutPoints + [i];
      }
    }
  }

  lemma {:induction false} CutPointsAre(entries: seq<Entry>, start: nat, end: nat)
    requires start <= end <= |entries|
    ensures forall c :: c in CutPoints(entries, start, end) <==> start <= c < end && IsCutPoint(entries[c])
    ensures forall i, j :: 0 <= i < j < |CutPoints(entries, start, end)| ==>
            CutPoints(entries, start, end)[i] < CutPoints(entries, start, end)[j]
  {
    hide IsCutPoint;
    if start < end {
      CutPointsAre(entries, start, end - 1);
      var before := CutPoints(entries, start, end - 1);
      forall i | 0 <= i < |before|
        ensures before[i] < end - 1
      {
        assert before[i] in before;
      }
    }
  }

  function Tokens(tokens: Message -> nat, e: Entry): nat {
    if e.MessageEntry? && e.message.Some? then tokens(e.message.value) else 0
  }

  function TokensFrom(tokens: Message -> nat, entries: seq<Entry>, i: nat, end: nat): nat
    requires i <= end <= |entries|
    decreases end - i
  {
    if i == end then 0 else Tokens(tokens, entries[i]) + TokensFrom(tokens, entries, i + 1, end)
  }

  /** The last message entry from which the tokens reach the budget. */
  function BudgetIndex(tokens: Message -> nat, entries: seq<Entry>, start: nat, end: nat, keep: int,
                       i: nat): (b: Option<nat>)
    requires start <= i <= end <= |entries|
    ensures b.Some? ==> start <= b.value < i
  {
    if i == start then None
    else if entries[i - 1].MessageEntry? && TokensFrom(tokens, entries, i - 1, end) >= keep then Some(i - 1)
    else BudgetIndex(tokens, entries, start, end, keep, i - 1)
  }

  function FirstAtOrAfter(cutPoints: seq<nat>, b: nat, i: nat): (k: nat)
    requires i <= |cutPoints|
    ensures i <= k <= |cutPoints| && (k < |cutPoints| ==> b <= cutPoints[k])
    ensures forall j :: i <= j < k ==> cutPoints[j] < b
    decreases |cutPoints| - i
  {
    if i == |cutPoints| || b <= cutPoints[i] then i else FirstAtOrAfter(cutPoints, b, i + 1)
  }

  /** Walks back over entries that are neither messages nor compactions. */
  function BackUp(entries: seq<Entry>, start: nat, cut: nat): (c: nat)
    requires start <= cut < |entries|
    ensures start <= c <= cut
  {
    if cut == start || entries[cut - 1].CompactionEntry? || entries[cut - 1].MessageEntry? then cut
    else BackUp(entries, start, cut - 1)
  }

  predicate StartsTurn(e: Entry) {
    e.BranchSummary? || e.CustomMessage?
    || (e.MessageEntry? && e.message.Some? && (e.message.value.User? || e.message.value.BashExecution?))
  }

  /** The nearest turn start at or before `i`, not before `start`. */
  function TurnStart(entries: seq<Entry>, i: nat, start: nat): (t: Option<nat>)
    requires start <= i < |entries|
    ensures t.Some? ==> start <= t.value <= i && StartsTurn(entries[t.value])
    ensures forall k :: (if t.Some? then t.value else start - 1) < k <= i ==> !StartsTurn(entries[k])
  {
    if StartsTurn(entries[i]) then Some(i) else if i == start then None else TurnStart(entries, i - 1, start)
  }

  predicate IsUserEntry(e: Entry) {
    e.MessageEntry? && e.message.Some? && e.message.value.User?
  }

  function CutIndex(tokens: Message -> nat, entries: seq<Entry>, start: nat, end: nat, keep: int): nat
    requires start <= end <= |entries| && CutPoints(entries, start, end) != []
  {
    var cutPoints := CutPoints(entries, start, end);
    var b := BudgetIndex(tokens, entries, start, end, keep, end);
    var k := if b.Some? then FirstAtOrAfter(cutPoints, b.value, 0) else |cutPoints|;
    if k < |cutPoints| then cutPoints[k] else cutPoints[0]
  }

  function CutOf(tokens: Message -> nat, entries: seq<Entry>, start: nat, end: nat, keep: int): CutPoint
    requires start <= end <= |entries|
  {
    if CutPoints(entries, start, end) == [] then CutPoint(start, None, false)
    else
      CutIndexFits(tokens, entries, start, end, keep);
      var cut := BackUp(entries, start, CutIndex(tokens, entries, start, end, keep));
      if IsUserEntry(entries[cut]) then CutPoint(cut, None, false)
      else
        var t := TurnStart(entries, cut, start);
        CutPoint(cut, t, t.Some?)
  }

  lemma CutIndexFits(tokens: Message -> nat, entries: seq<Entry>, start: nat, end: nat, keep: int)
    requires start <= end <= |entries| && CutPoints(entries, start, end) != []
    ensures start <= CutIndex(tokens, entries, start, end, keep) < end
    ensures IsCutPoint(entries[CutIndex(tokens, entries, start, end, keep)])
  {
    CutPointsAre(entries, start, end);
    assert CutIndex(tokens, entries, start, end, keep) in CutPoints(entries, start, end);
  }

  method FindTurnStartIndex(entries: seq<Entry>, entryIndex: nat, startIndex: nat) returns (t: Option<nat>)
    requires startIndex <= entryIndex < |entries|
    ensures t == TurnStart(entries, entryIndex, startIndex)
  {
    var i: int := entryIndex;
    while i >= startIndex
      invariant startIndex - 1 <= i <= entryIndex
      invariant i >= startIndex ==> TurnStart(entries, entryIndex, startIndex) == TurnStart(entries, i, startIndex)
      invariant i < startIndex ==> TurnStart(entries, entryIndex, startIndex) == None
    {
      if StartsTurn(entries[i]) {
        return Some(i);
      }
      i := i - 1;
    }
    return None;
  }

  method FindCutPoint(tokens: Message -> nat, entries: seq<Entry>, start: nat, end: nat, keep: int)
    returns (cut: CutPoint)
    requires start <= end <= |entries|
    ensures cut == CutOf(tokens, entries, start, end, keep)
  {
    var cutPoints := FindValidCutPoints(entries, start, end);
    if cutPoints == [] {
      return CutPoint(start, None, false);
    }
    CutIndexFits(tokens, entries, start, end, keep);
    var accumulated, cutIndex := 0, cutPoints[0];
    var i := end;
    while i > start
      invariant start <= i <= end && accumulated == TokensFrom(tokens, entries, i, end)
      invariant BudgetIndex(tokens, entries, start, end, keep, end) == BudgetIndex(tokens, entries, start, end, keep, i)
      invariant cutIndex == cutPoints[0]
    {
      i := i - 1;
      if entries[i].MessageEntry? {
        accumulated := accumulated + Tokens(tokens, entries[i]);
        if accumulated >= keep {
          var c := 0;
          while c < |cutPoints| && cutPoints[c] < i
            invariant c <= |cutPoints| && FirstAtOrAfter(cutPoints, i, 0) == FirstAtOrAfter(cutPoints, i, c)
          {
            c := c + 1;
          }
          if c < |cutPoints| {
            cutIndex := cutPoints[c];
          }
          break;
        }
      }
    }
    assert cutIndex == CutIndex(tokens, entries, start, end, keep);
    ghost var chosen := cutIndex;
    while cutIndex > start && !entries[cutIndex - 1].CompactionEntry? && !entries[cutIndex - 1].MessageEntry?
      invariant start <= cutIndex <= chosen && BackUp(entries, start, chosen) == BackUp(entries, start, cutIndex)
    {
      cutIndex := cutIndex - 1;
    }
    if IsUserEntry(entries[cutIndex]) {
      return CutPoint(cutIndex, None, false);
    }
    var t := FindTurnStartIndex(entries, cutIndex, start);
    return CutPoint(cutIndex, t, t.Some?);
  }

  // ----- Preparing and applying a compaction -----

  function MessageOf(e: Entry): Option<Message> {
    match e
    case MessageEntry(_, m) => m
    case CustomMessage(_, content) => Some(User(content))
    case BranchSummary(_, summary) => Some(User([summary]))
    case CompactionEntry(_, summary, _) => Some(User([summary]))
    case Note(_) => None
  }

  /** Earlier summaries reach the summarizer by another way. */
  function MessageForSummary(e: Entry): Option<Message> {
    if e.CompactionEntry? then None else MessageOf(e)
  }

  function Collect(of: Entry -> Option<Message>, entries: seq<Entry>, lo: nat, hi: nat): seq<Message>
    requires lo <= hi <= |entries|
  {
    if lo == hi then []
    else
      Collect(of, entries, lo, hi - 1) + match of(entries[hi - 1]) case None => [] case Some(m) => [m]
  }

  lemma {:induction false} CollectSplit(of: Entry -> Option<Message>, entries: seq<Entry>, lo: nat, mid: nat, hi: nat)
    requires lo <= mid <= hi <= |entries|
    ensures Collect(of, entries, lo, hi) == Collect(of, entries, lo, mid) + Collect(of, entries, mid, hi)
  {
    if mid < hi {
      CollectSplit(of, entries, lo, mid, hi - 1);
    }
  }

  method CollectMessages(of: Entry -> Option<Message>, entries: seq<Entry>, lo: nat, hi: nat)
    returns (messages: seq<Message>)
    requires lo <= hi <= |entries|
    ensures messages == Collect(of, entries, lo, hi)
  {
    messages := [];
    for i := lo to hi
      invariant messages == Collect(of, entries, lo, i)
    {
      var m := of(entries[i]);
      if m.Some? {
        messages := messages + [m.value];
      }
    }
  }

  function IndexOfId(entries: seq<Entry>, id: EntryId, i: nat): (k: nat)
    requires i <= |entries|
    ensures i <= k <= |entries| && (k < |entries| ==> entries[k].id == id)
    ensures forall j :: i <= j < k ==> entries[j].id != id
    decreases |entries| - i
  {
    if i == |entries| || entries[i].id == id then i else IndexOfId(entries, id, i + 1)
  }

  /** The latest compaction before position `i`, or none. */
  function LastCompaction(entries: seq<Entry>, i: nat): (k: Option<nat>)
    requires i <= |entries|
    ensures k.Some? ==> k.value < i && entries[k.value].CompactionEntry?
    ensures forall j :: (if k.Some? then k.value else -1) < j < i ==> !entries[j].CompactionEntry?
  {
    if i == 0 then None else if entries[i - 1].CompactionEntry? then Some(i - 1) else LastCompaction(entries, i - 1)
  }

  /** Where the part not yet summarized begins. */
  function BoundaryStart(entries: seq<Entry>): (b: nat)
    ensures b <= |entries|
  {
    match LastCompaction(entries, |entries|)
    case None => 0
    case Some(p) =>
      var k := IndexOfId(entries, entries[p].firstKept, 0);
      if k < |entries| then k else p + 1
  }

  datatype Preparation = Preparation(firstKeptId: EntryId, toSummarize: seq<Message>, turnPrefix: seq<Message>,
                                     previousSummary: Option<Block>)

  function HistoryEnd(cut: CutPoint): nat {
    if cut.isSplitTurn && cut.turnStart.Some? then cut.turnStart.value else cut.firstKept
  }

  lemma CutFits(tokens: Message -> nat, entries: seq<Entry>, start: nat, keep: int)
    requires start <= |entries|
    ensures var cut := CutOf(tokens, entries, start, |entries|, keep);
            && start <= HistoryEnd(cut) <= cut.firstKept <= |entries| && (cut.isSplitTurn ==> cut.turnStart.Some?)
            && (CutPoints(entries, start, |entries|) != [] ==> cut.firstKept < |entries|)
  {
    if CutPoints(entries, start, |entries|) != [] {
      CutIndexFits(tokens, entries, start, |entries|, keep);
    }
  }

  function Prepare(tokens: Message -> nat, entries: seq<Entry>, keep: int): Option<Preparation> {
    if entries != [] && entries[|entries| - 1].CompactionEntry? then None
    else
      var start := BoundaryStart(entries);
      var cut := CutOf(tokens, entries, start, |entries|, keep);
      CutFits(tokens, entries, start, keep);
      if cut.firstKept >= |entries| || entries[cut.firstKept].id == 0 then None
      else
        var toSummarize := Collect(MessageForSummary, entries, start, HistoryEnd(cut));
        var turnPrefix := Collect(MessageForSummary, entries, HistoryEnd(cut), cut.firstKept);
        if toSummarize == [] && turnPrefix == [] then None
        else
          var previous := LastCompaction(entries, |entries|);
          Some(Preparation(entries[cut.firstKept].id, toSummarize, turnPrefix,
                           if previous.Some? then Some(entries[previous.value].summary) else None))
  }

  method PrepareCompaction(tokens: Message -> nat, entries: seq<Entry>, keep: int) returns (prep: Option<Preparation>)
    ensures prep == Prepare(tokens, entries, keep)
  {
    hide CutOf, Collect;
    if entries != [] && entries[|entries| - 1].CompactionEntry? {
      return None;
    }
    var previous: int := |entries| - 1;
    while previous >= 0 && !entries[previous].CompactionEntry?
      invariant -1 <= previous < |entries|
                && LastCompaction(entries, |entries|) == LastCompaction(entries, previous + 1)
    {
      previous := previous - 1;
    }
    var previousSummary: Option<Block> := None;
    var start := 0;
    if previous >= 0 {
      previousSummary := Some(entries[previous].summary);
      var k := 0;
      while k < |entries| && entries[k].id != entries[previous].firstKept
        invariant k <= |entries|
        invariant IndexOfId(entries, entries[previous].firstKept, 0) ==
                  IndexOfId(entries, entries[previous].firstKept, k)
      {
        k := k + 1;
      }
      start := if k < |entries| then k else previous + 1;
    }
    var cut := FindCutPoint(tokens, entries, start, |entries|, keep);
    CutFits(tokens, entries, start, keep);
    if cut.firstKept >= |entries| || entries[cut.firstKept].id == 0 {
      return None;
    }
    var historyEnd := cut.firstKept;
    if cut.isSplitTurn {
      historyEnd := cut.turnStart.value;
    }
    var toSummarize := CollectMessages(MessageForSummary, entries, start, historyEnd);
    var turnPrefix: seq<Message> := [];
    if cut.isSplitTurn {
      turnPrefix := CollectMessages(MessageForSummary, entries, cut.turnStart.value, cut.firstKept);
    } else {
      CollectNone(MessageForSummary, entries, historyEnd);
    }
    if toSummarize == [] && turnPrefix == [] {
      return None;
    }
    return Some(Preparation(entries[cut.firstKept].id, toSummarize, turnPrefix, previousSummary));
  }

  lemma CollectNone(of: Entry -> Option<Message>, entries: seq<Entry>, i: nat)
    requires i <= |entries|
    ensures Collect(of, entries, i, i) == []
  {
  }

  function KeptMessages(entries: seq<Entry>, firstKeptId: EntryId): seq<Message> {
    Collect(MessageOf, entries, IndexOfId(entries, firstKeptId, 0), |entries|)
  }

  /** The conversation after compaction: the summary as a user turn, merged into the first kept one if that is a
      user's. */
  function ApplyCompaction(entries: seq<Entry>, prep: Preparation, summary: Block): seq<Message> {
    var kept := KeptMessages(entries, prep.firstKeptId);
    if kept != [] && kept[0].User? then [User([summary] + kept[0].blocks)] + kept[1..]
    else [User([summary])] + kept
  }

  // ----- Conversations made of messages only -----

  function Present(messages: seq<Option<Message>>): seq<Message> {
    if messages == [] then []
    else Present(messages[..|messages| - 1]) + match messages[|messages| - 1] case None => [] case Some(m) => [m]
  }

  /** One entry for each message that is there, numbered by its position, from one. */
  function ToEntries(messages: seq<Option<Message>>): seq<Entry> {
    if messages == [] then []
    else
      ToEntries(messages[..|messages| - 1])
      + match messages[|messages| - 1] case None => [] case Some(m) => [MessageEntry(|messages|, Some(m))]
  }

  method MessagesToEntries(messages: seq<Option<Message>>) returns (entries: seq<Entry>)
    ensures entries == ToEntries(messages)
  {
    entries := [];
    for i := 0 to |messages|
      invariant entries == ToEntries(messages[..i])
    {
      assert messages[..i + 1][..i] == messages[..i];
      if messages[i].Some? {
        entries := entries + [MessageEntry(i + 1, messages[i])];
      }
    }
    assert messages[..|messages|] == messages;
  }

  /** Entries for exactly these messages, with distinct identifiers that are not empty. */
  ghost predicate Wraps(entries: seq<Entry>, messages: seq<Message>, bound: nat) {
    && |entries| == |messages|
    && (forall i :: 0 <= i < |entries| ==>
        entries[i].MessageEntry? && entries[i].message == Some(messages[i]) && 0 < entries[i].id <= bound)
    && (forall i, j :: 0 <= i < j < |entries| ==> entries[i].id < entries[j].id)
  }

  lemma {:induction false} ToEntriesWraps(messages: seq<Option<Message>>)
    ensures Wraps(ToEntries(messages), Present(messages), |messages|)
  {
    if messages != [] {
      ToEntriesWraps(messages[..|messages| - 1]);
    }
  }

  lemma {:induction false} CollectWrapped(of: Entry -> Option<Message>, entries: seq<Entry>, messages: seq<Message>,
                                          bound: nat, lo: nat, hi: nat)
    requires Wraps(entries, messages, bound) && lo <= hi <= |messages|
    requires forall e: Entry {:trigger of(e)} :: e.MessageEntry? ==> of(e) == e.message
    ensures Collect(of, entries, lo, hi) == messages[lo..hi]
  {
    if lo < hi {
      CollectWrapped(of, entries, messages, bound, lo, hi - 1);
    }
  }

  lemma WrappedBoundary(entries: seq<Entry>, messages: seq<Message>, bound: nat)
    requires Wraps(entries, messages, bound)
    ensures BoundaryStart(entries) == 0 && LastCompaction(entries, |entries|) == None
  {
  }

  /** Among messages the cut is a cut point itself: there is nothing to move back over. */
  lemma WrappedCut(tokens: Message -> nat, entries: seq<Entry>, messages: seq<Message>, bound: nat, keep: int)
    requires Wraps(entries, messages, bound)
    ensures CutPoints(entries, 0, |entries|) != [] ==>
              var c := CutIndex(tokens, entries, 0, |entries|, keep);
              && CutOf(tokens, entries, 0, |entries|, keep).firstKept == c
              && c < |entries| && !messages[c].ToolResult?
    ensures CutPoints(entries, 0, |entries|) == [] ==> CutOf(tokens, entries, 0, |entries|, keep).firstKept == 0
  {
    hide CutIndex, CutPoints;
    if CutPoints(entries, 0, |entries|) != [] {
      CutIndexFits(tokens, entries, 0, |entries|, keep);
    }
  }

  /** A compaction of a message-only conversation: where it cuts, in terms of the messages. */
  lemma PreparedCut(tokens: Message -> nat, entries: seq<Entry>, messages: seq<Message>, bound: nat, keep: int)
    returns (c: nat)
    requires Wraps(entries, messages, bound) && Prepare(tokens, entries, keep).Some?
    ensures 0 < c < |messages| && !messages[c].ToolResult?
    ensures c == CutOf(tokens, entries, 0, |entries|, keep).firstKept && CutPoints(entries, 0, |entries|) != []
    ensures c == CutIndex(tokens, entries, 0, |entries|, keep)
    ensures KeptMessages(entries, Prepare(tokens, entries, keep).value.firstKeptId) == messages[c..]
    ensures Prepare(tokens, entries, keep).value.toSummarize + Prepare(tokens, entries, keep).value.turnPrefix ==
            messages[..c]
  {
    hide CutOf, CutPoints, CutIndex, LastCompaction, BoundaryStart, Collect;
    var cut := CutOf(tokens, entries, 0, |entries|, keep);
    c := cut.firstKept;
    WrappedBoundary(entries, messages, bound);
    WrappedCut(tokens, entries, messages, bound, keep);
    CutFits(tokens, entries, 0, keep);
    CollectSplit(MessageForSummary, entries, 0, HistoryEnd(cut), c);
    CollectWrapped(MessageForSummary, entries, messages, bound, 0, c);
    assert messages[0..c] == messages[..c];
    CollectNone(MessageForSummary, entries, 0);
    CutIndexFits(tokens, entries, 0, |entries|, keep);
    assert IndexOfId(entries, entries[c].id, 0) == c;
    CollectWrapped(MessageOf, entries, messages, bound, c, |messages|);
  }

  /** Nothing is lost and nothing is said twice: what is summarized, what is summarized of the split turn, and what is
      kept are the conversation, in order. */
  lemma ConversationConserved(tokens: Message -> nat, input: seq<Option<Message>>, keep: int)
    ensures var entries := ToEntries(input);
            var prep := Prepare(tokens, entries, keep);
            prep.Some? ==>
              prep.value.toSummarize + prep.value.turnPrefix + KeptMessages(entries, prep.value.firstKeptId) ==
              Present(input)
  {
    hide *;
    var entries, messages := ToEntries(input), Present(input);
    if Prepare(tokens, entries, keep).Some? {
      ToEntriesWraps(input);
      var c := PreparedCut(tokens, entries, messages, |input|, keep);
      assert messages == messages[..c] + messages[c..];
    }
  }

  /** Message `i` answers a call that message `j` made, with only other results in between. */
  predicate Answers(ms: seq<Message>, j: nat, i: nat) {
    && j < i < |ms| && ms[j].Assistant? && ms[i].ToolResult? && ms[i].call in ms[j].calls
    && forall k :: j < k < i ==> ms[k].ToolResult?
  }

  ghost predicate IsAnswer(ms: seq<Message>, i: nat) {
    exists j: nat :: Answers(ms, j, i)
  }

  ghost predicate IsAnswered(ms: seq<Message>, j: nat, call: nat) {
    exists i: nat :: Answers(ms, j, i) && ms[i].call == call
  }

  /** Every result answers a call just before it, and every call is answered. */
  ghost predicate WellPaired(ms: seq<Message>) {
    && (forall i :: 0 <= i < |ms| && ms[i].ToolResult? ==> IsAnswer(ms, i))
    && (forall j, c :: 0 <= j < |ms| && ms[j].Assistant? && c in ms[j].calls ==> IsAnswered(ms, j, c))
  }

  lemma AnswersShift(ms: seq<Message>, d: nat, j: nat, i: nat, first: Message)
    requires d <= |ms| && d <= j && Answers(ms, j, i)
    ensures Answers([first] + ms[d..], j - d + 1, i - d + 1)
  {
    var after := [first] + ms[d..];
    assert forall k :: d <= k < |ms| ==> after[k - d + 1] == ms[k];
  }

  lemma NotAcross(ms: seq<Message>, d: nat, j: nat, i: nat)
    requires Answers(ms, j, i) && 0 < d <= i && (!ms[d].ToolResult? || ms[d - 1].User?)
    ensures j >= d
  {
  }

  lemma SuffixAnswer(ms: seq<Message>, d: nat, first: Message, i: nat)
    requires 0 < d <= i < |ms| && IsAnswer(ms, i) && (!ms[d].ToolResult? || ms[d - 1].User?)
    ensures IsAnswer([first] + ms[d..], i - d + 1)
  {
    hide Answers;
    var j: nat :| Answers(ms, j, i);
    NotAcross(ms, d, j, i);
    AnswersShift(ms, d, j, i, first);
  }

  lemma SuffixAnswered(ms: seq<Message>, d: nat, first: Message, j: nat, call: nat)
    requires 0 < d <= j < |ms| && IsAnswered(ms, j, call)
    ensures IsAnswered([first] + ms[d..], j - d + 1, call)
  {
    var i: nat :| Answers(ms, j, i) && ms[i].call == call;
    AnswersShift(ms, d, j, i, first);
    assert ([first] + ms[d..])[i - d + 1] == ms[i];
  }

  /** Replacing a prefix by one user message keeps the pairing, as long as the cut does not fall among results. */
  lemma SuffixPaired(ms: seq<Message>, d: nat, first: Message)
    requires WellPaired(ms) && first.User? && 0 < d <= |ms|
    requires d < |ms| ==> !ms[d].ToolResult? || ms[d - 1].User?
    ensures WellPaired([first] + ms[d..])
  {
    hide *;
    var after := [first] + ms[d..];
    forall i | 0 <= i < |after| && after[i].ToolResult?
      ensures IsAnswer(after, i)
    {
      PairedAt(ms, i - 1 + d);
      SuffixAnswer(ms, d, first, i - 1 + d);
    }
    forall j, c | 0 <= j < |after| && after[j].Assistant? && c in after[j].calls
      ensures IsAnswered(after, j, c)
    {
      PairedAt(ms, j - 1 + d);
      SuffixAnswered(ms, d, first, j - 1 + d, c);
    }
    PairedIf(after);
  }

  lemma PairedAt(ms: seq<Message>, i: nat)
    requires WellPaired(ms) && i < |ms|
    ensures ms[i].ToolResult? ==> IsAnswer(ms, i)
    ensures ms[i].Assistant? ==> forall c :: c in ms[i].calls ==> IsAnswered(ms, i, c)
  {
    hide IsAnswer, IsAnswered;
  }

  lemma PairedIf(ms: seq<Message>)
    requires forall i :: 0 <= i < |ms| && ms[i].ToolResult? ==> IsAnswer(ms, i)
    requires forall j, c :: 0 <= j < |ms| && ms[j].Assistant? && c in ms[j].calls ==> IsAnswered(ms, j, c)
    ensures WellPaired(ms)
  {
    hide IsAnswer, IsAnswered;
  }

  /** What the compacted conversation is: one user message that begins with the summary, then the end of the
      original. */
  lemma CompactedForm(tokens: Message -> nat, input: seq<Option<Message>>, keep: int, summary: Block) returns (d: nat)
    requires Prepare(tokens, ToEntries(input), keep).Some?
    ensures var messages := Present(input);
            var after := ApplyCompaction(ToEntries(input), Prepare(tokens, ToEntries(input), keep).value, summary);
            && 0 < d <= |messages| && after[1..] == messages[d..]
            && ((after[0] == User([summary]) && d < |messages| && !messages[d].ToolResult? && !messages[d].User?)
                || (messages[d - 1].User? && d > 1 && after[0] == User([summary] + messages[d - 1].blocks)))
            && after == [after[0]] + messages[d..]
  {
    hide Prepare, KeptMessages, Present, ToEntries;
    var messages, entries := Present(input), ToEntries(input);
    ToEntriesWraps(input);
    var c := PreparedCut(tokens, entries, messages, |input|, keep);
    d := if messages[c].User? then c + 1 else c;
    assert messages[c..][0] == messages[c] && messages[c..][1..] == messages[c + 1..];
    assert [User([summary])] + messages[c..] == [User([summary])] + messages[c..];
  }

  /** The compacted conversation starts with a user message, is never longer than the original, brings no two user
      messages together that were apart, and keeps tool calls paired with their results. */
  lemma CompactedIsSound(tokens: Message -> nat, input: seq<Option<Message>>, keep: int, summary: Block)
    requires Prepare(tokens, ToEntries(input), keep).Some?
    ensures var messages := Present(input);
            var after := ApplyCompaction(ToEntries(input), Prepare(tokens, ToEntries(input), keep).value, summary);
            && 0 < |after| <= |messages| && after[0].User? && summary in after[0].blocks
            && (forall k :: 0 <= k < |after| - 1 && after[k].User? && after[k + 1].User? ==>
                  messages[k + |messages| - |after|].User? && messages[k + 1 + |messages| - |after|].User?)
            && (WellPaired(messages) ==> WellPaired(after))
  {
    hide *;
    var messages := Present(input);
    var after := ApplyCompaction(ToEntries(input), Prepare(tokens, ToEntries(input), keep).value, summary);
    var d := CompactedForm(tokens, input, keep, summary);
    assert |after| == 1 + |messages| - d;
    forall k | 1 <= k < |after|
      ensures after[k] == messages[k + |messages| - |after|]
    {
      assert after[1..][k - 1] == messages[d..][k - 1];
    }
    if WellPaired(messages) {
      SuffixPaired(messages, d, after[0]);
    }
  }

  // ----- The budget -----

  lemma {:induction false} TokensFromSmaller(tokens: Message -> nat, entries: seq<Entry>, i: nat, j: nat)
    requires i <= j <= |entries|
    ensures TokensFrom(tokens, entries, j, |entries|) <= TokensFrom(tokens, entries, i, |entries|)
    decreases j - i
  {
    if i < j {
      TokensFromSmaller(tokens, entries, i + 1, j);
    }
  }

  lemma {:induction false} BudgetIndexIs(tokens: Message -> nat, entries: seq<Entry>, messages: seq<Message>,
                                         bound: nat, keep: int, i: nat)
    requires Wraps(entries, messages, bound) && i <= |entries|
    requires i < |entries| ==> TokensFrom(tokens, entries, i, |entries|) < keep
    ensures var b := BudgetIndex(tokens, entries, 0, |entries|, keep, i);
            && (b.Some? ==> TokensFrom(tokens, entries, b.value, |entries|) >= keep)
            && (b.Some? && b.value + 1 < |entries| ==> TokensFrom(tokens, entries, b.value + 1, |entries|) < keep)
            && (b.None? && 0 < |entries| && 0 < i ==> TokensFrom(tokens, entries, 0, |entries|) < keep)
  {
    hide TokensFrom;
    if i > 0 && TokensFrom(tokens, entries, i - 1, |entries|) < keep {
      BudgetIndexIs(tokens, entries, messages, bound, keep, i - 1);
    }
  }

  /** The messages after the first kept one fit the budget exactly when the budget was never reached, or some cut point
      lies at or after the place where it was. */
  lemma BudgetKept(tokens: Message -> nat, input: seq<Option<Message>>, keep: int)
    requires keep > 0 && Prepare(tokens, ToEntries(input), keep).Some?
    ensures var entries := ToEntries(input);
            var cut, b := CutOf(tokens, entries, 0, |entries|, keep).firstKept,
              BudgetIndex(tokens, entries, 0, |entries|, keep, |entries|);
            && cut < |entries|
            && (TokensFrom(tokens, entries, cut + 1, |entries|) < keep <==>
                b.None? || exists c :: c in CutPoints(entries, 0, |entries|) && b.value <= c)
  {
    hide Prepare, CutOf, BudgetIndex, TokensFrom, CutPoints, ToEntries, Present, IsCutPoint;
    var entries, messages := ToEntries(input), Present(input);
    ToEntriesWraps(input);
    var n := |entries|;
    var c := PreparedCut(tokens, entries, messages, |input|, keep);
    BudgetIndexIs(tokens, entries, messages, |input|, keep, n);
    var cutPoints, b := CutPoints(entries, 0, n), BudgetIndex(tokens, entries, 0, n, keep, n);
    TokensNone(tokens, entries);
    if b.None? {
      TokensFromSmaller(tokens, entries, 0, c + 1);
    } else {
      var k := FirstAtOrAfter(cutPoints, b.value, 0);
      if k < |cutPoints| {
        assert cutPoints[k] in cutPoints;
        TokensFromSmaller(tokens, entries, b.value + 1, c + 1);
      } else {
        forall p | p in cutPoints
          ensures p < b.value
        {
        }
        TokensFromSmaller(tokens, entries, c + 1, b.value);
      }
    }
  }

  // ----- Where the cut falls -----

  /** No message after `p` is reached by the budget, counted from the end. */
  ghost predicate WithinBudget(tokens: Message -> nat, entries: seq<Entry>, end: nat, keep: int, p: nat)
    requires end <= |entries|
  {
    forall i :: p < i < end && entries[i].MessageEntry? ==> TokensFrom(tokens, entries, i, end) < keep
  }

  /** The first valid place with only the budget after it; if there is none, the first valid place. */
  ghost predicate IsChosen(tokens: Message -> nat, entries: seq<Entry>, start: nat, end: nat, keep: int, c: nat)
    requires start <= end <= |entries|
  {
    && start <= c < end && IsCutPoint(entries[c])
    && ((exists p :: start <= p < end && IsCutPoint(entries[p]) && WithinBudget(tokens, entries, end, keep, p)) ==>
        WithinBudget(tokens, entries, end, keep, c))
    && (forall p :: start <= p < c && IsCutPoint(entries[p]) ==>
          !WithinBudget(tokens, entries, end, keep, p) && WithinBudget(tokens, entries, end, keep, c))
  }

  /** `r` is `c` moved back to just after the nearest message or compaction. */
  predicate IsBackedUp(entries: seq<Entry>, start: nat, c: nat, r: nat)
    requires c < |entries|
  {
    && start <= r <= c && (r == start || entries[r - 1].MessageEntry? || entries[r - 1].CompactionEntry?)
    && forall i :: r <= i < c ==> !entries[i].MessageEntry? && !entries[i].CompactionEntry?
  }

  /** The nearest turn start at or before `c`, if there is one. */
  ghost predicate IsTurnStart(entries: seq<Entry>, start: nat, c: nat, t: Option<nat>)
    requires c < |entries|
  {
    match t
    case None => forall i :: start <= i <= c ==> !StartsTurn(entries[i])
    case Some(s) => start <= s <= c && StartsTurn(entries[s]) && forall i :: s < i <= c ==> !StartsTurn(entries[i])
  }

  lemma {:induction false} BudgetIndexMeans(tokens: Message -> nat, entries: seq<Entry>, start: nat, end: nat,
                                            keep: int, i: nat)
    requires start <= i <= end <= |entries|
    ensures var b := BudgetIndex(tokens, entries, start, end, keep, i);
            && (b.Some? ==> entries[b.value].MessageEntry? && TokensFrom(tokens, entries, b.value, end) >= keep)
            && forall j :: (if b.Some? then b.value + 1 else start) <= j < i && entries[j].MessageEntry? ==>
                 TokensFrom(tokens, entries, j, end) < keep
  {
    hide TokensFrom;
    if start < i && !(entries[i - 1].MessageEntry? && TokensFrom(tokens, entries, i - 1, end) >= keep) {
      BudgetIndexMeans(tokens, entries, start, end, keep, i - 1);
    }
  }

  lemma ChosenIs(tokens: Message -> nat, entries: seq<Entry>, start: nat, end: nat, keep: int)
    requires start <= end <= |entries| && CutPoints(entries, start, end) != []
    ensures IsChosen(tokens, entries, start, end, keep, CutIndex(tokens, entries, start, end, keep))
  {
    hide BudgetIndex, CutPoints, IsCutPoint, TokensFrom;
    CutPointsAre(entries, start, end);
    BudgetIndexMeans(tokens, entries, start, end, keep, end);
    CutIndexFits(tokens, entries, start, end, keep);
    var cutPoints, b := CutPoints(entries, start, end), BudgetIndex(tokens, entries, start, end, keep, end);
    var c := CutIndex(tokens, entries, start, end, keep);
    forall p | start <= p < end
      ensures WithinBudget(tokens, entries, end, keep, p) <==> b.None? || b.value <= p
    {
    }
    forall p | start <= p < end && IsCutPoint(entries[p])
      ensures p in cutPoints && cutPoints[0] <= p
      ensures b.Some? && b.value <= p ==> b.value <= c <= p
      ensures p < c ==> b.Some? && p < b.value <= c
    {
      var k :| 0 <= k < |cutPoints| && cutPoints[k] == p;
      var f := if b.Some? then FirstAtOrAfter(cutPoints, b.value, 0) else 0;
      assert f < k ==> cutPoints[f] < p;
      assert k < f ==> b.Some? && p < b.value;
    }
  }

  /** The cut, for any entries: the chosen place, moved back over what is no message; and it splits a turn exactly when
      it is no user message and a turn starts before it. */
  lemma CutMeans(tokens: Message -> nat, entries: seq<Entry>, start: nat, end: nat, keep: int) returns (c: nat)
    requires start <= end <= |entries|
    ensures var cut := CutOf(tokens, entries, start, end, keep);
            if forall p :: start <= p < end ==> !IsCutPoint(entries[p]) then cut == CutPoint(start, None, false)
            else
              && IsChosen(tokens, entries, start, end, keep, c) && IsBackedUp(entries, start, c, cut.firstKept)
              && cut.isSplitTurn == cut.turnStart.Some?
              && (if IsUserEntry(entries[cut.firstKept]) then cut.turnStart == None
                  else IsTurnStart(entries, start, cut.firstKept, cut.turnStart))
  {
    hide CutIndex, IsCutPoint, IsChosen, IsBackedUp, IsUserEntry, StartsTurn, CutPoints, BackUp;
    CutPointsAre(entries, start, end);
    c := start;
    var cutPoints := CutPoints(entries, start, end);
    if cutPoints == [] {
      forall p | start <= p < end
        ensures !IsCutPoint(entries[p])
      {
        assert p !in cutPoints;
      }
    } else {
      assert cutPoints[0] in cutPoints;
      c := CutIndex(tokens, entries, start, end, keep);
      CutIndexFits(tokens, entries, start, end, keep);
      ChosenIs(tokens, entries, start, end, keep);
      BackUpMeans(entries, start, c);
    }
  }

  lemma {:induction false} BackUpMeans(entries: seq<Entry>, start: nat, c: nat)
    requires start <= c < |entries|
    ensures IsBackedUp(entries, start, c, BackUp(entries, start, c))
  {
    if c > start && !entries[c - 1].CompactionEntry? && !entries[c - 1].MessageEntry? {
      BackUpMeans(entries, start, c - 1);
    }
  }

  /** What was summarized before ends at the first entry the latest compaction kept, or at the compaction itself when
      that entry is gone. */
  lemma BoundaryMeans(entries: seq<Entry>, p: nat)
    ensures (forall i :: 0 <= i < |entries| ==> !entries[i].CompactionEntry?) ==> BoundaryStart(entries) == 0
    ensures p < |entries| && entries[p].CompactionEntry?
            && (forall i :: p < i < |entries| ==> !entries[i].CompactionEntry?) ==>
              var b := BoundaryStart(entries);
              && (forall i :: 0 <= i < b && i < |entries| ==> entries[i].id != entries[p].firstKept)
              && ((exists i :: 0 <= i < |entries| && entries[i].id == entries[p].firstKept) ==>
                  b < |entries| && entries[b].id == entries[p].firstKept)
              && ((forall i :: 0 <= i < |entries| ==> entries[i].id != entries[p].firstKept) ==> b == p + 1)
  {
  }

  /** What is prepared, for any entries: nothing right after a compaction, nor without a place to cut or anything to
      summarize; else all messages since the boundary are summarized up to the cut, as history and as the prefix of the
      turn it splits, together with the summary of the latest compaction. */
  lemma PreparationMeans(tokens: Message -> nat, entries: seq<Entry>, keep: int)
    ensures var start := BoundaryStart(entries);
            var cut, prep := CutOf(tokens, entries, start, |entries|, keep), Prepare(tokens, entries, keep);
            && start <= cut.firstKept <= |entries|
            && (prep.Some? <==>
                && (entries != [] ==> !entries[|entries| - 1].CompactionEntry?)
                && cut.firstKept < |entries| && entries[cut.firstKept].id != 0
                && Collect(MessageForSummary, entries, start, cut.firstKept) != [])
            && (prep.Some? ==>
                  && prep.value.firstKeptId == entries[cut.firstKept].id
                  && prep.value.toSummarize + prep.value.turnPrefix ==
                     Collect(MessageForSummary, entries, start, cut.firstKept)
                  && (!cut.isSplitTurn ==> prep.value.turnPrefix == [])
                  && (cut.isSplitTurn ==>
                      cut.turnStart.Some? && start <= cut.turnStart.value <= cut.firstKept
                      && prep.value.turnPrefix ==
                         Collect(MessageForSummary, entries, cut.turnStart.value, cut.firstKept)))
  {
    hide CutOf, Collect;
    var start := BoundaryStart(entries);
    var cut := CutOf(tokens, entries, start, |entries|, keep);
    CutFits(tokens, entries, start, keep);
    CollectSplit(MessageForSummary, entries, start, HistoryEnd(cut), cut.firstKept);
    CollectNone(MessageForSummary, entries, cut.firstKept);
  }

  /** The summary handed on is the latest compaction's. */
  lemma PreviousSummaryMeans(tokens: Message -> nat, entries: seq<Entry>, keep: int, p: nat)
    requires Prepare(tokens, entries, keep).Some?
    ensures (forall i :: 0 <= i < |entries| ==> !entries[i].CompactionEntry?) ==>
              Prepare(tokens, entries, keep).value.previousSummary == None
    ensures p < |entries| && entries[p].CompactionEntry?
            && (forall i :: p < i < |entries| ==> !entries[i].CompactionEntry?) ==>
              Prepare(tokens, entries, keep).value.previousSummary == Some(entries[p].summary)
  {
    hide CutOf, Collect, BoundaryStart;
    CutFits(tokens, entries, BoundaryStart(entries), keep);
  }

  // ----- The cut of a conversation -----

  /** The place may begin what is kept: it is no tool result. */
  predicate MayBegin(ms: seq<Message>, p: nat) {
    p < |ms| && !ms[p].ToolResult?
  }

  ghost predicate NoneMayBegin(ms: seq<Message>) {
    forall p :: 0 <= p < |ms| ==> !MayBegin(ms, p)
  }

  function Total(tokens: Message -> nat, ms: seq<Message>): nat {
    if ms == [] then 0 else tokens(ms[0]) + Total(tokens, ms[1..])
  }

  /** What follows the message at `p` stays under the budget, or there is nothing. */
  predicate UnderBudget(tokens: Message -> nat, ms: seq<Message>, keep: int, p: nat)
    requires p < |ms|
  {
    p + 1 == |ms| || Total(tokens, ms[p + 1..]) < keep
  }

  /** Kept is from the first place on after which the budget suffices; when there is none, from the first place. */
  ghost predicate IsFirstKept(tokens: Message -> nat, ms: seq<Message>, keep: int, c: nat) {
    && MayBegin(ms, c)
    && ((exists p :: 0 <= p < |ms| && MayBegin(ms, p) && UnderBudget(tokens, ms, keep, p)) ==>
        UnderBudget(tokens, ms, keep, c))
    && (forall p :: 0 <= p < c && MayBegin(ms, p) ==>
          !UnderBudget(tokens, ms, keep, p) && UnderBudget(tokens, ms, keep, c))
  }

  /** The turn the cut falls into starts at `t`; a cut at a user message, or before any turn, splits none. */
  ghost predicate IsTurnOf(ms: seq<Message>, c: nat, t: nat)
    requires c < |ms|
  {
    && t <= c && (forall i :: t < i <= c ==> !(ms[i].User? || ms[i].BashExecution?) || ms[c].User?)
    && (ms[c].User? ==> t == c)
    && (ms[t].User? || ms[t].BashExecution?
        || (t == c && forall i :: 0 <= i <= c ==> !(ms[i].User? || ms[i].BashExecution?)))
  }

  lemma {:induction false} TokensAreTotal(tokens: Message -> nat, entries: seq<Entry>, ms: seq<Message>, bound: nat,
                                          i: nat)
    requires Wraps(entries, ms, bound) && i <= |ms|
    ensures TokensFrom(tokens, entries, i, |entries|) == Total(tokens, ms[i..])
    decreases |ms| - i
  {
    if i < |ms| {
      TokensAreTotal(tokens, entries, ms, bound, i + 1);
      assert ms[i..][1..] == ms[i + 1..];
    }
  }

  lemma BudgetOf(tokens: Message -> nat, entries: seq<Entry>, ms: seq<Message>, bound: nat, keep: int, p: nat)
    requires Wraps(entries, ms, bound) && p < |ms|
    ensures WithinBudget(tokens, entries, |entries|, keep, p) <==> UnderBudget(tokens, ms, keep, p)
  {
    hide TokensFrom, Total;
    TokensAreTotal(tokens, entries, ms, bound, p + 1);
    forall i | p < i < |entries|
      ensures TokensFrom(tokens, entries, i, |entries|) <= TokensFrom(tokens, entries, p + 1, |entries|)
    {
      TokensFromSmaller(tokens, entries, p + 1, i);
    }
  }

  lemma FirstKeptOf(tokens: Message -> nat, entries: seq<Entry>, ms: seq<Message>, bound: nat, keep: int, c: nat)
    requires Wraps(entries, ms, bound) && IsChosen(tokens, entries, 0, |entries|, keep, c)
    ensures IsFirstKept(tokens, ms, keep, c)
  {
    hide WithinBudget, UnderBudget;
    forall p | 0 <= p < |ms|
      ensures WithinBudget(tokens, entries, |entries|, keep, p) <==> UnderBudget(tokens, ms, keep, p)
      ensures IsCutPoint(entries[p]) <==> MayBegin(ms, p)
    {
      BudgetOf(tokens, entries, ms, bound, keep, p);
    }
  }

  /** What a compaction of a conversation summarizes and keeps. It happens exactly when the cut is not at the beginning;
      then the messages from the cut on are kept, those of the turn it splits are summarized as that turn's prefix, and
      those before as the history. */
  lemma CompactionMeans(tokens: Message -> nat, input: seq<Option<Message>>, keep: int) returns (c: nat, t: nat)
    ensures var entries, ms := ToEntries(input), Present(input);
            var prep := Prepare(tokens, entries, keep);
            if NoneMayBegin(ms) then prep == None
            else
              && IsFirstKept(tokens, ms, keep, c) && c < |ms| && (prep.Some? <==> c > 0)
              && (prep.Some? ==>
                    && IsTurnOf(ms, c, t) && prep.value.toSummarize == ms[..t] && prep.value.turnPrefix == ms[t..c]
                    && KeptMessages(entries, prep.value.firstKeptId) == ms[c..] && prep.value.previousSummary == None)
  {
    hide *;
    var entries, ms := ToEntries(input), Present(input);
    ToEntriesWraps(input);
    c := CutMeans(tokens, entries, 0, |entries|, keep);
    t := WrappedPreparation(tokens, entries, ms, |input|, keep, c);
  }

  /** The same for entries that wrap the messages; `c` is the chosen place. */
  lemma WrappedPreparation(tokens: Message -> nat, entries: seq<Entry>, ms: seq<Message>, bound: nat, keep: int, c: nat)
    returns (t: nat)
    requires Wraps(entries, ms, bound)
    requires var cut := CutOf(tokens, entries, 0, |entries|, keep);
             if forall p :: 0 <= p < |entries| ==> !IsCutPoint(entries[p]) then cut == CutPoint(0, None, false)
             else
               && IsChosen(tokens, entries, 0, |entries|, keep, c) && IsBackedUp(entries, 0, c, cut.firstKept)
               && cut.isSplitTurn == cut.turnStart.Some?
               && (if IsUserEntry(entries[cut.firstKept]) then cut.turnStart == None
                   else IsTurnStart(entries, 0, cut.firstKept, cut.turnStart))
    ensures var prep := Prepare(tokens, entries, keep);
            if NoneMayBegin(ms) then prep == None
            else
              && IsFirstKept(tokens, ms, keep, c) && c < |ms| && (prep.Some? <==> c > 0)
              && (prep.Some? ==>
                    && IsTurnOf(ms, c, t) && prep.value.toSummarize == ms[..t] && prep.value.turnPrefix == ms[t..c]
                    && KeptMessages(entries, prep.value.firstKeptId) == ms[c..] && prep.value.previousSummary == None)
  {
    hide CutOf, Collect, LastCompaction, BoundaryStart, IsFirstKept, IsChosen, IsTurnStart, IsTurnOf, Prepare;
    PlacesAgree(entries, ms, bound);
    var cut := CutOf(tokens, entries, 0, |entries|, keep);
    if NoneMayBegin(ms) {
      t := 0;
      NothingPrepared(tokens, entries, ms, bound, keep);
    } else {
      ChosenFits(tokens, entries, 0, |entries|, keep, c);
      FirstKeptOf(tokens, entries, ms, bound, keep, c);
      assert cut.firstKept == c;
      t := HistoryEnd(cut);
      TurnOfCut(entries, ms, bound, cut, t);
      WrappedParts(tokens, entries, ms, bound, keep, t, c);
    }
  }

  lemma PlacesAgree(entries: seq<Entry>, ms: seq<Message>, bound: nat)
    requires Wraps(entries, ms, bound)
    ensures forall p :: 0 <= p < |ms| ==> (IsCutPoint(entries[p]) <==> MayBegin(ms, p))
    ensures NoneMayBegin(ms) <==> forall p :: 0 <= p < |entries| ==> !IsCutPoint(entries[p])
  {
  }

  lemma NothingPrepared(tokens: Message -> nat, entries: seq<Entry>, ms: seq<Message>, bound: nat, keep: int)
    requires Wraps(entries, ms, bound) && CutOf(tokens, entries, 0, |entries|, keep) == CutPoint(0, None, false)
    ensures Prepare(tokens, entries, keep) == None
  {
    hide CutOf, LastCompaction, BoundaryStart;
    WrappedBoundary(entries, ms, bound);
    CutFits(tokens, entries, 0, keep);
    CollectNone(MessageForSummary, entries, 0);
  }

  lemma WrappedParts(tokens: Message -> nat, entries: seq<Entry>, ms: seq<Message>, bound: nat, keep: int, t: nat,
                     c: nat)
    requires Wraps(entries, ms, bound) && t <= c < |ms|
    requires CutOf(tokens, entries, 0, |entries|, keep).firstKept == c
             && HistoryEnd(CutOf(tokens, entries, 0, |entries|, keep)) == t
    ensures var prep := Prepare(tokens, entries, keep);
            && (prep.Some? <==> c > 0)
            && (prep.Some? ==>
                  && prep.value.toSummarize == ms[..t] && prep.value.turnPrefix == ms[t..c]
                  && KeptMessages(entries, prep.value.firstKeptId) == ms[c..] && prep.value.previousSummary == None)
  {
    hide CutOf, Collect, LastCompaction, BoundaryStart;
    WrappedBoundary(entries, ms, bound);
    CutFits(tokens, entries, 0, keep);
    CollectWrapped(MessageForSummary, entries, ms, bound, 0, t);
    CollectWrapped(MessageForSummary, entries, ms, bound, t, c);
    CollectWrapped(MessageOf, entries, ms, bound, c, |ms|);
    assert IndexOfId(entries, entries[c].id, 0) == c;
    assert ms[0..t] == ms[..t];
  }

  lemma ChosenFits(tokens: Message -> nat, entries: seq<Entry>, start: nat, end: nat, keep: int, c: nat)
    requires start <= end <= |entries| && IsChosen(tokens, entries, start, end, keep, c)
    ensures start <= c < end && IsCutPoint(entries[c])
  {
  }

  lemma TurnOfCut(entries: seq<Entry>, ms: seq<Message>, bound: nat, cut: CutPoint, t: nat)
    requires Wraps(entries, ms, bound) && cut.firstKept < |ms| && cut.isSplitTurn == cut.turnStart.Some?
    requires if IsUserEntry(entries[cut.firstKept]) then cut.turnStart == None
             else IsTurnStart(entries, 0, cut.firstKept, cut.turnStart)
    requires t == HistoryEnd(cut)
    ensures IsTurnOf(ms, cut.firstKept, t)
  {
    forall i | 0 <= i < |ms|
      ensures StartsTurn(entries[i]) <==> ms[i].User? || ms[i].BashExecution?
    {
    }
  }

  const EXAMPLE := [Some(ToolResult(1, 0)), Some(User([0])), Some(ToolResult(2, 0))]

  const EXAMPLE_ENTRIES := [MessageEntry(1, EXAMPLE[0]), MessageEntry(2, EXAMPLE[1]), MessageEntry(3, EXAMPLE[2])]

  function ExampleTokens(m: Message): nat {
    if m.ToolResult? then 5 else 1
  }

  /** The exception is real: with no cut point from the place on where the budget is reached, the kept messages exceed
      it. */
  lemma OverBudgetExample()
    ensures ToEntries(EXAMPLE) == EXAMPLE_ENTRIES && Prepare(ExampleTokens, EXAMPLE_ENTRIES, 5).Some?
    ensures BudgetIndex(ExampleTokens, EXAMPLE_ENTRIES, 0, 3, 5, 3) == Some(2)
            && CutPoints(EXAMPLE_ENTRIES, 0, 3) == [1]
    ensures CutOf(ExampleTokens, EXAMPLE_ENTRIES, 0, 3, 5).firstKept == 1
    ensures TokensFrom(ExampleTokens, EXAMPLE_ENTRIES, 2, 3) == 5
  {
    hide CutOf, Prepare, BudgetIndex, TokensFrom, CutPoints, LastCompaction, Collect;
    assert EXAMPLE[..2] == [EXAMPLE[0], EXAMPLE[1]] && EXAMPLE[..2][..1] == [EXAMPLE[0]] && [EXAMPLE[0]][..0] == [];
    assert ToEntries([EXAMPLE[0]]) == EXAMPLE_ENTRIES[..1];
    assert ToEntries(EXAMPLE[..2]) == EXAMPLE_ENTRIES[..2];
    ExampleCut();
    ExamplePrepared();
  }

  lemma ExampleCut()
    ensures BudgetIndex(ExampleTokens, EXAMPLE_ENTRIES, 0, 3, 5, 3) == Some(2)
            && CutPoints(EXAMPLE_ENTRIES, 0, 3) == [1]
    ensures CutOf(ExampleTokens, EXAMPLE_ENTRIES, 0, 3, 5) == CutPoint(1, None, false)
    ensures TokensFrom(ExampleTokens, EXAMPLE_ENTRIES, 2, 3) == 5
  {
    var entries := EXAMPLE_ENTRIES;
    assert TokensFrom(ExampleTokens, entries, 3, 3) == 0 && TokensFrom(ExampleTokens, entries, 2, 3) == 5;
    assert CutPoints(entries, 0, 1) == [] && CutPoints(entries, 0, 2) == [1];
    assert FirstAtOrAfter([1], 2, 0) == 1;
  }

  lemma ExamplePrepared()
    ensures Prepare(ExampleTokens, EXAMPLE_ENTRIES, 5).Some?
  {
    hide CutOf, BudgetIndex, TokensFrom, CutPoints;
    var entries := EXAMPLE_ENTRIES;
    ExampleCut();
    assert LastCompaction(entries, 1) == None && LastCompaction(entries, 2) == None
           && LastCompaction(entries, 3) == None;
    assert Collect(MessageForSummary, entries, 0, 1) == [ToolResult(1, 0)];
  }

  lemma TokensNone(tokens: Message -> nat, entries: seq<Entry>)
    ensures TokensFrom(tokens, entries, |entries|, |entries|) == 0
  {
  }

  /** Between turns: compacts when the estimate leaves too little room, a cut is possible and a summary was made. */
  method MaybeCompact(tokens: Message -> nat, estimate: nat, window: int, reserve: int, enabled: bool, keep: int,
                      input: seq<Option<Message>>, summarize: Preparation -> Option<Block>)
                        returns (compacted: Option<seq<Message>>)
    ensures compacted.Some? <==>
              && input != [] && enabled && estimate > window - reserve
              && Prepare(tokens, ToEntries(input), keep).Some?
              && summarize(Prepare(tokens, ToEntries(input), keep).value).Some?
    ensures compacted.Some? ==>
              var prep := Prepare(tokens, ToEntries(input), keep).value;
              compacted.value == ApplyCompaction(ToEntries(input), prep, summarize(prep).value)
    ensures compacted.Some? ==> 0 < |compacted.value| <= |Present(input)| && compacted.value[0].User?
    ensures compacted.Some? && WellPaired(Present(input)) ==> WellPaired(compacted.value)
  {
    hide Prepare, ToEntries, Present, WellPaired, ApplyCompaction;
    if input == [] || !enabled || estimate <= window - reserve {
      return None;
    }
    var entries := MessagesToEntries(input);
    var prep := PrepareCompaction(tokens, entries, keep);
    if prep.None? {
      return None;
    }
    var summary := summarize(prep.value);
    if summary.None? {
      return None;
    }
    CompactedIsSound(tokens, input, keep, summary.value);
    return Some(ApplyCompaction(entries, prep.value, summary.value));
  }
}

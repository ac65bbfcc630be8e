/** Running the tool calls of one assistant message: one after the other, or all at once with results in source
    order. */
module ToolExecutor {
  import opened Options

  datatype ToolResult = ToolResult(content: nat, isError: bool, terminate: bool)

  /** What one call does when nothing disturbs it: it fails before execution, or sends `updates` and ends with
      `result`. */
  datatype Call = Call(immediate: bool, updates: nat, result: ToolResult)

  /** Events about call `i`, by its position among the calls. */
  datatype Event =
    | Start(call: nat)
    | Update(call: nat)
    | End(call: nat, result: ToolResult)
    | Message(call: nat, result: ToolResult)

  // ----- What a listener may rely on -----

  datatype Status = Fresh | Open | Closed(result: ToolResult)

  datatype View = View(status: seq<Status>, starts: nat, messages: nat)

  function Unseen(n: nat): View {
    View(seq(n, i => Fresh), 0, 0)
  }

  /** Calls start in source order, updates and ends belong to an open call, result messages come in source order and
      carry the result the call ended with. */
  function Observe(v: View, e: Event): Option<View> {
    match e
    case Start(i) =>
      if i == v.starts < |v.status| && v.status[i].Fresh? then Some(v.(status := v.status[i := Open], starts := i + 1))
      else None
    case Update(i) => if i < |v.status| && v.status[i].Open? then Some(v) else None
    case End(i, r) => if i < |v.status| && v.status[i].Open? then Some(v.(status := v.status[i := Closed(r)])) else None
    case Message(i, r) => if i == v.messages < |v.status| && v.status[i] == Closed(r) then Some(v.(messages := i + 1))
      else None
  }

  function ObserveAll(v: View, events: seq<Event>): Option<View> {
    if events == [] then Some(v)
    else
      var before := ObserveAll(v, events[..|events| - 1]);
      if before.None? then None else Observe(before.value, events[|events| - 1])
  }

  /** A trace a listener for `n` calls may see. */
  predicate Legal(n: nat, events: seq<Event>) {
    ObserveAll(Unseen(n), events).Some?
  }

  function SeenBy(n: nat, events: seq<Event>): View
    requires Legal(n, events)
  {
    ObserveAll(Unseen(n), events).value
  }

  lemma ObserveSnoc(n: nat, events: seq<Event>, e: Event)
    ensures Legal(n, events + [e]) <==> Legal(n, events) && Observe(SeenBy(n, events), e).Some?
    ensures Legal(n, events + [e]) ==> SeenBy(n, events + [e]) == Observe(SeenBy(n, events), e).value
  {
    assert (events + [e])[..|events|] == events;
  }

  lemma LegalPrefix(n: nat, events: seq<Event>, k: nat)
    requires k <= |events| && Legal(n, events)
    ensures Legal(n, events[..k])
    decreases |events| - k
  {
    if k < |events| {
      assert events[..k + 1][..k] == events[..k];
      LegalPrefix(n, events, k + 1);
    } else {
      assert events[..k] == events;
    }
  }

  ghost predicate Has(events: seq<Event>, e: Event) {
    exists p :: 0 <= p < |events| && events[p] == e
  }

  ghost predicate HasEnd(events: seq<Event>, i: nat) {
    exists p :: 0 <= p < |events| && events[p].End? && events[p].call == i
  }

  /** The view tells what has happened to call `i`. */
  ghost predicate Describes(v: View, events: seq<Event>, i: nat)
    requires i < |v.status|
  {
    match v.status[i]
    case Fresh => !Has(events, Start(i)) && !HasEnd(events, i)
    case Open => Has(events, Start(i)) && !HasEnd(events, i)
    case Closed(r) => Has(events, Start(i)) && Has(events, End(i, r))
  }

  lemma HasSnoc(events: seq<Event>, e: Event, f: Event, i: nat)
    ensures Has(events + [e], f) <==> Has(events, f) || e == f
    ensures HasEnd(events + [e], i) <==> HasEnd(events, i) || (e.End? && e.call == i)
  {
    var after := events + [e];
    assert after[|events|] == e;
    if Has(events, f) {
      var p :| 0 <= p < |events| && events[p] == f;
      assert after[p] == f;
    }
    if HasEnd(events, i) {
      var p :| 0 <= p < |events| && events[p].End? && events[p].call == i;
      assert after[p].End? && after[p].call == i;
    }
  }

  lemma DescribesSnoc(v: View, events: seq<Event>, e: Event, i: nat)
    requires i < |v.status| && Describes(v, events, i) && Observe(v, e).Some?
    ensures |Observe(v, e).value.status| == |v.status| && Describes(Observe(v, e).value, events + [e], i)
  {
    hide Has, HasEnd;
    HasSnoc(events, e, Start(i), i);
    var w := Observe(v, e).value;
    if w.status[i].Closed? {
      HasSnoc(events, e, End(i, w.status[i].result), i);
    }
  }

  lemma {:induction false} ViewDescribes(n: nat, events: seq<Event>, i: nat)
    requires Legal(n, events) && i < n
    ensures |SeenBy(n, events).status| == n && Describes(SeenBy(n, events), events, i)
  {
    if events != [] {
      var before, e := events[..|events| - 1], events[|events| - 1];
      assert events == before + [e];
      LegalPrefix(n, events, |events| - 1);
      ViewDescribes(n, before, i);
      DescribesSnoc(SeenBy(n, before), before, e, i);
    }
  }

  lemma {:induction false} ViewSize(n: nat, events: seq<Event>)
    requires Legal(n, events)
    ensures |SeenBy(n, events).status| == n
  {
    if events != [] {
      LegalPrefix(n, events, |events| - 1);
      ViewSize(n, events[..|events| - 1]);
    }
  }

  /** In a legal trace nothing about a call comes after its end but its result message: no update, no second end. */
  lemma NothingAfterEnd(n: nat, events: seq<Event>, p: nat, q: nat)
    requires Legal(n, events) && p < q < |events| && events[p].End? && events[q].call == events[p].call
    ensures events[q] == Message(events[p].call, events[p].result)
  {
    var i := events[p].call;
    LegalPrefix(n, events, p + 1);
    assert events[..p + 1] == events[..p] + [events[p]];
    ObserveSnoc(n, events[..p], events[p]);
    ViewSize(n, events[..p]);
    StaysClosed(n, events, p + 1, q, i, events[p].result);
    LegalPrefix(n, events, q + 1);
    assert events[..q + 1] == events[..q] + [events[q]];
    ObserveSnoc(n, events[..q], events[q]);
  }

  lemma {:induction false} StaysClosed(n: nat, events: seq<Event>, p: nat, q: nat, i: nat, r: ToolResult)
    requires Legal(n, events) && p <= q <= |events| && Legal(n, events[..p]) && i < |SeenBy(n, events[..p]).status|
    requires SeenBy(n, events[..p]).status[i] == Closed(r)
    ensures Legal(n, events[..q]) && |SeenBy(n, events[..q]).status| == |SeenBy(n, events[..p]).status|
    ensures SeenBy(n, events[..q]).status[i] == Closed(r)
    decreases q
  {
    LegalPrefix(n, events, q);
    if p < q {
      StaysClosed(n, events, p, q - 1, i, r);
      assert events[..q] == events[..q - 1] + [events[q - 1]];
      ObserveSnoc(n, events[..q - 1], events[q - 1]);
    }
  }

  /** A result message comes after the one end of its call and carries that end's result; an end or update comes after
      the call's start. */
  lemma MessageFollowsEnd(n: nat, events: seq<Event>, q: nat)
    requires Legal(n, events) && q < |events|
    ensures events[q].Message? ==> Has(events[..q], End(events[q].call, events[q].result))
    ensures !events[q].Start? ==> Has(events[..q], Start(events[q].call))
  {
    LegalPrefix(n, events, q + 1);
    LegalPrefix(n, events, q);
    assert events[..q + 1] == events[..q] + [events[q]];
    ObserveSnoc(n, events[..q], events[q]);
    ViewSize(n, events[..q]);
    ViewDescribes(n, events[..q], events[q].call);
  }

  /** The result messages, in the order they were sent. */
  function Messages(events: seq<Event>): seq<Event> {
    if events == [] then []
    else Messages(events[..|events| - 1]) + if events[|events| - 1].Message? then [events[|events| - 1]] else []
  }

  lemma MessagesSnoc(events: seq<Event>, e: Event)
    ensures Messages(events + [e]) == Messages(events) + if e.Message? then [e] else []
  {
    assert (events + [e])[..|events|] == events;
  }

  /** Result messages cover a prefix of the calls in source order. */
  lemma {:induction false} MessagesInSourceOrder(n: nat, events: seq<Event>)
    requires Legal(n, events)
    ensures |Messages(events)| == SeenBy(n, events).messages <= n
    ensures forall k :: 0 <= k < |Messages(events)| ==> Messages(events)[k].Message? && Messages(events)[k].call == k
  {
    if events != [] {
      LegalPrefix(n, events, |events| - 1);
      ViewSize(n, events[..|events| - 1]);
      MessagesInSourceOrder(n, events[..|events| - 1]);
    }
  }

  // ----- All calls at once -----

  /** Where call `i` is. While its tool runs, updates pass a gate: `entered` have passed it and not yet been sent,
      `sending` have been sent and not yet left. */
  datatype Task =
    | Idle
    | Opened
    | Slotted(result: ToolResult)
    | Pending
    | Running(accepting: bool, entered: nat, sending: nat)
    | Finalized(result: ToolResult)
    | Ended(result: ToolResult)

  datatype Phase =
    | Preparing
    | Prepare
    | EndImmediate
    | Launching(next: nat)
    | Waiting
    | Messaging
    | Done
    | Aborted

  datatype State = State(
    phase: Phase,
    tasks: seq<Task>,
    starts: nat,
    reached: nat,
    messages: nat,
    cancelled: bool,
    endFailed: bool,
    quiet: bool,
    refused: set<nat>,
    overridden: set<nat>,
    events: seq<Event>)

  /** `ok` says whether the listener accepts the event; `override` is what a hook makes of the tool's outcome. */
  datatype Action =
    | Cancel
    | StartCall(ok: bool)
    | FailCall(result: ToolResult)
    | EmitImmediateEnd(ok: bool)
    | PrepareCall
    | FinishPreparing
    | Launch
    | FinishLaunching
    | EnterUpdate(call: nat)
    | EmitUpdate(call: nat, ok: bool)
    | LeaveUpdate(call: nat)
    | StopAccepting(call: nat)
    | Finalize(call: nat, outcome: ToolResult, override: Option<ToolResult>)
    | EmitEnd(call: nat, ok: bool)
    | Join
    | EmitMessage(ok: bool)
    | FinishMessaging

  function Initial(n: nat): State {
    State(Preparing, seq(n, i => Idle), 0, 0, 0, false, false, true, {}, {}, [])
  }

  /** The tool of call `i` is running. */
  predicate IsRunning(s: State, i: nat) {
    i < |s.tasks| && s.tasks[i].Running?
  }

  /** A result is the call's own unless something disturbed the run. */
  predicate MayEndWith(calls: seq<Call>, s: State, i: nat, r: ToolResult) {
    i < |calls| && (s.quiet ==> r == calls[i].result)
  }

  const FAILED := ToolResult(0, true, false)

  /** What a call ends with: the hook's override, or an error if an update was refused, or what its tool returned. */
  function FinalResult(s: State, i: nat, outcome: ToolResult, override: Option<ToolResult>): ToolResult {
    if override.Some? then override.value else if i in s.refused then FAILED else outcome
  }

  predicate Enabled(calls: seq<Call>, s: State, a: Action) {
    match a
    case Cancel => true
    case StartCall(_) => s.phase.Preparing? && s.starts < |s.tasks|
    case FailCall(r) =>
      s.phase.Prepare? && s.reached < |s.tasks| && MayEndWith(calls, s, s.reached, r)
      && s.reached < |calls| && (s.quiet ==> calls[s.reached].immediate)
    case EmitImmediateEnd(_) => s.phase.EndImmediate? && 0 < s.reached <= |s.tasks| && s.tasks[s.reached - 1].Slotted?
    case PrepareCall =>
      s.phase.Prepare? && s.reached < |s.tasks| && s.reached < |calls| && (s.quiet ==> !calls[s.reached].immediate)
    case FinishPreparing => s.phase.Preparing? && s.starts == |s.tasks|
    case Launch => s.phase.Launching? && s.phase.next < s.reached <= |s.tasks|
    case FinishLaunching => s.phase.Launching? && s.phase.next == s.reached
    case EnterUpdate(i) => IsRunning(s, i) && s.tasks[i].accepting
    case EmitUpdate(i, _) => IsRunning(s, i) && s.tasks[i].entered > 0
    case LeaveUpdate(i) => IsRunning(s, i) && s.tasks[i].sending > 0
    case StopAccepting(i) => IsRunning(s, i) && s.tasks[i].accepting
    case Finalize(i, outcome, override) =>
      && IsRunning(s, i) && !s.tasks[i].accepting && s.tasks[i].entered == 0 && s.tasks[i].sending == 0
      && MayEndWith(calls, s, i, FinalResult(s, i, outcome, override))
    case EmitEnd(i, _) => i < |s.tasks| && s.tasks[i].Finalized?
    case Join => s.phase.Waiting? && forall i :: 0 <= i < s.reached && i < |s.tasks| ==> s.tasks[i].Ended?
    case EmitMessage(_) => s.phase.Messaging? && s.messages < s.reached <= |s.tasks| && s.tasks[s.messages].Ended?
    case FinishMessaging => s.phase.Messaging? && s.messages == s.reached
  }

  /** After a call is prepared: on to the next one, or straight to launching once the context is cancelled. */
  function NextCall(s: State): Phase {
    if s.cancelled then Launching(0) else Preparing
  }

  function Step(calls: seq<Call>, s: State, a: Action): State
    requires Enabled(calls, s, a)
  {
    match a
    case Cancel => s.(cancelled := true, quiet := false)
    case StartCall(ok) =>
      s.(tasks := s.tasks[s.starts := Opened], starts := s.starts + 1, events := s.events + [Start(s.starts)],
         quiet := s.quiet && ok, phase := if ok then Prepare else Aborted)
    case FailCall(r) =>
      s.(tasks := s.tasks[s.reached := Slotted(r)], reached := s.reached + 1, phase := EndImmediate)
    case EmitImmediateEnd(ok) =>
      var i := s.reached - 1;
      s.(tasks := s.tasks[i := Ended(s.tasks[i].result)], events := s.events + [End(i, s.tasks[i].result)],
         quiet := s.quiet && ok, phase := if ok then NextCall(s) else Aborted)
    case PrepareCall => s.(tasks := s.tasks[s.reached := Pending], reached := s.reached + 1, phase := NextCall(s))
    case FinishPreparing => s.(phase := Launching(0))
    case Launch =>
      var i := s.phase.next;
      s.(tasks := if s.tasks[i].Pending? then s.tasks[i := Running(true, 0, 0)] else s.tasks, phase := Launching(i + 1))
    case FinishLaunching => s.(phase := Waiting)
    case EnterUpdate(i) => s.(tasks := s.tasks[i := s.tasks[i].(entered := s.tasks[i].entered + 1)])
    case EmitUpdate(i, ok) =>
      var t := s.tasks[i];
      s.(tasks := s.tasks[i := t.(entered := t.entered - 1, sending := t.sending + 1)],
         refused := if ok then s.refused else s.refused + {i},
         events := s.events + [Update(i)], quiet := s.quiet && ok)
    case LeaveUpdate(i) => s.(tasks := s.tasks[i := s.tasks[i].(sending := s.tasks[i].sending - 1)])
    case StopAccepting(i) => s.(tasks := s.tasks[i := s.tasks[i].(accepting := false)])
    case Finalize(i, outcome, override) =>
      s.(tasks := s.tasks[i := Finalized(FinalResult(s, i, outcome, override))],
         overridden := if override.Some? then s.overridden + {i} else s.overridden)
    case EmitEnd(i, ok) =>
      s.(tasks := s.tasks[i := Ended(s.tasks[i].result)], events := s.events + [End(i, s.tasks[i].result)],
         quiet := s.quiet && ok, endFailed := s.endFailed || !ok)
    case Join => s.(phase := if s.endFailed then Aborted else Messaging)
    case EmitMessage(ok) =>
      s.(events := s.events + [Message(s.messages, s.tasks[s.messages].result)], messages := s.messages + 1,
         quiet := s.quiet && ok, phase := if ok then Messaging else Aborted)
    case FinishMessaging => s.(phase := Done)
  }

  predicate InPool(t: Task) {
    t.Running? || t.Finalized? || t.Ended?
  }

  /** Which states a call can be in at each point of the run. */
  predicate TaskFits(s: State, i: nat)
    requires i < |s.tasks|
  {
    var t := s.tasks[i];
    && (t.Idle? <==> i >= s.starts)
    && match s.phase
       case Preparing => i < s.starts ==> t.Pending? || t.Ended?
       case Prepare => i < s.starts ==> if i == s.reached then t.Opened? else t.Pending? || t.Ended?
       case EndImmediate => i < s.starts ==> if i == s.reached - 1 then t.Slotted? else t.Pending? || t.Ended?
       case Launching(k) => i < s.starts ==> if i < k then InPool(t) else t.Pending? || t.Ended?
       case Waiting => i < s.starts ==> InPool(t)
       case Messaging => i < s.starts ==> t.Ended?
       case Done => i < s.starts ==> t.Ended?
       case Aborted => true
  }

  predicate CountsFit(s: State) {
    && s.reached <= s.starts <= |s.tasks|
    && match s.phase
       case Preparing => s.reached == s.starts && s.messages == 0
       case Prepare => s.starts == s.reached + 1 && s.messages == 0
       case EndImmediate => s.reached == s.starts > 0 && s.messages == 0
       case Launching(k) => k <= s.reached == s.starts && s.messages == 0
       case Waiting => s.reached == s.starts && s.messages == 0
       case Messaging => s.messages <= s.reached == s.starts
       case Done => s.messages == s.reached == s.starts
       case Aborted => true
  }

  function StatusOf(t: Task): Status {
    match t
    case Idle => Fresh
    case Ended(r) => Closed(r)
    case _ => Open
  }

  function ViewOf(s: State): View {
    View(Statuses(s.tasks), s.starts, s.messages)
  }

  function Statuses(tasks: seq<Task>): seq<Status> {
    seq(|tasks|, i requires 0 <= i < |tasks| => StatusOf(tasks[i]))
  }

  lemma StatusUpdate(tasks: seq<Task>, i: nat, t: Task)
    requires i < |tasks|
    ensures Statuses(tasks[i := t]) == Statuses(tasks)[i := StatusOf(t)]
    ensures StatusOf(t) == StatusOf(tasks[i]) ==> Statuses(tasks[i := t]) == Statuses(tasks)
  {
    assert StatusOf(t) == StatusOf(tasks[i]) ==> Statuses(tasks)[i := StatusOf(t)] == Statuses(tasks);
  }

  /** The call whose task a step changes. */
  function Changes(s: State, a: Action): int {
    match a
    case StartCall(_) => s.starts
    case FailCall(_) => s.reached
    case EmitImmediateEnd(_) => s.reached - 1
    case PrepareCall => s.reached
    case Launch => if s.phase.Launching? then s.phase.next else -1
    case EnterUpdate(i) => i
    case EmitUpdate(i, _) => i
    case LeaveUpdate(i) => i
    case StopAccepting(i) => i
    case Finalize(i, _, _) => i
    case EmitEnd(i, _) => i
    case _ => -1
  }

  lemma StepChangesOne(calls: seq<Call>, s: State, a: Action)
    requires CountsFit(s) && Enabled(calls, s, a)
    ensures var i, t := Changes(s, a), Step(calls, s, a);
            if 0 <= i then i < |s.tasks| && |t.tasks| == |s.tasks|
              && t.tasks == s.tasks[i := t.tasks[i]] else t.tasks == s.tasks
  {
  }

  /** Undisturbed, every call is reached and ends with its own result; only cancellation leaves calls out. */
  predicate OutcomesFit(calls: seq<Call>, s: State) {
    && |s.tasks| == |calls|
    && (s.cancelled ==> !s.quiet) && (s.endFailed ==> !s.quiet)
    && (s.quiet ==> forall i :: 0 <= i < |s.tasks| ==> HoldsOwnResult(calls, s, i))
    && (s.phase.Launching? || s.phase.Waiting? || s.phase.Messaging? || s.phase.Done? ==>
        s.cancelled || s.reached == |calls|)
    && (s.quiet ==> !s.phase.Aborted? && s.refused == {})
  }

  predicate HoldsOwnResult(calls: seq<Call>, s: State, i: nat)
    requires i < |s.tasks| == |calls|
  {
    match s.tasks[i]
    case Slotted(r) => r == calls[i].result
    case Finalized(r) => r == calls[i].result
    case Ended(r) => r == calls[i].result
    case _ => true
  }

  ghost predicate Inv(calls: seq<Call>, s: State) {
    && CountsFit(s)
    && (forall i :: 0 <= i < |s.tasks| ==> TaskFits(s, i))
    && OutcomesFit(calls, s)
    && Legal(|calls|, s.events) && SeenBy(|calls|, s.events) == ViewOf(s)
  }

  lemma CountsNext(calls: seq<Call>, s: State, a: Action)
    requires Inv(calls, s) && Enabled(calls, s, a)
    ensures CountsFit(Step(calls, s, a)) && |Step(calls, s, a).tasks| == |s.tasks|
  {
    hide Legal, SeenBy, OutcomesFit;
  }

  lemma TaskNext(calls: seq<Call>, s: State, a: Action, i: nat)
    requires CountsFit(s) && i < |s.tasks| && TaskFits(s, i) && Enabled(calls, s, a)
    ensures |Step(calls, s, a).tasks| == |s.tasks| && TaskFits(Step(calls, s, a), i)
  {
    var c := Changes(s, a);
    StepChangesOne(calls, s, a);
    if c != i {
      assert Step(calls, s, a).tasks[i] == s.tasks[i];
    }
  }

  lemma OutcomesNext(calls: seq<Call>, s: State, a: Action)
    requires Inv(calls, s) && Enabled(calls, s, a)
    ensures OutcomesFit(calls, Step(calls, s, a))
  {
    hide Legal, SeenBy, ViewOf, TaskFits, HoldsOwnResult;
    var t := Step(calls, s, a);
    forall i | t.quiet && 0 <= i < |s.tasks|
      ensures HoldsOwnResult(calls, t, i)
    {
      assert HoldsOwnResult(calls, s, i);
      OwnResultNext(calls, s, a, i);
    }
  }

  lemma OwnResultNext(calls: seq<Call>, s: State, a: Action, i: nat)
    requires Enabled(calls, s, a) && i < |s.tasks| == |calls| && HoldsOwnResult(calls, s, i)
    requires Step(calls, s, a).quiet
    ensures |Step(calls, s, a).tasks| == |calls| && HoldsOwnResult(calls, Step(calls, s, a), i)
  {
  }

  /** The event, if any, that the step sends. */
  function Sent(calls: seq<Call>, s: State, a: Action): seq<Event>
    requires Enabled(calls, s, a)
  {
    match a
    case StartCall(_) => [Start(s.starts)]
    case EmitImmediateEnd(_) => [End(s.reached - 1, s.tasks[s.reached - 1].result)]
    case EmitUpdate(i, _) => [Update(i)]
    case EmitEnd(i, _) => [End(i, s.tasks[i].result)]
    case EmitMessage(_) => [Message(s.messages, s.tasks[s.messages].result)]
    case _ => []
  }

  lemma ViewNext(calls: seq<Call>, s: State, a: Action)
    requires Inv(calls, s) && Enabled(calls, s, a)
    ensures Step(calls, s, a).events == s.events + Sent(calls, s, a)
    ensures Sent(calls, s, a) == [] ==> ViewOf(Step(calls, s, a)) == ViewOf(s)
    ensures Sent(calls, s, a) != [] ==> Observe(ViewOf(s), Sent(calls, s, a)[0]) == Some(ViewOf(Step(calls, s, a)))
  {
    hide Legal, SeenBy, OutcomesFit, Statuses;
    var c := Changes(s, a);
    StepChangesOne(calls, s, a);
    StatusesAre(s.tasks);
    if 0 <= c {
      StatusUpdate(s.tasks, c, Step(calls, s, a).tasks[c]);
      assert TaskFits(s, c);
    }
    if a.EmitMessage? {
      assert TaskFits(s, s.messages);
    }
  }

  lemma StatusesAre(tasks: seq<Task>)
    ensures |Statuses(tasks)| == |tasks| && forall i :: 0 <= i < |tasks| ==> Statuses(tasks)[i] == StatusOf(tasks[i])
  {
  }

  lemma InvNext(calls: seq<Call>, s: State, a: Action)
    requires Inv(calls, s) && Enabled(calls, s, a)
    ensures Inv(calls, Step(calls, s, a))
  {
    hide Legal, SeenBy, OutcomesFit, ViewOf, TaskFits, CountsFit, Step, Sent, Enabled, Observe;
    CountsNext(calls, s, a);
    OutcomesNext(calls, s, a);
    ViewNext(calls, s, a);
    var t, sent := Step(calls, s, a), Sent(calls, s, a);
    if sent == [] {
      assert s.events + sent == s.events;
    } else {
      SentIsOne(calls, s, a);
      ObserveSnoc(|calls|, s.events, sent[0]);
    }
    forall i | 0 <= i < |t.tasks|
      ensures TaskFits(t, i)
    {
      TaskNext(calls, s, a, i);
    }
  }

  lemma SentIsOne(calls: seq<Call>, s: State, a: Action)
    requires Enabled(calls, s, a) && Sent(calls, s, a) != []
    ensures Sent(calls, s, a) == [Sent(calls, s, a)[0]]
  {
  }

  /** A run: any interleaving of enabled steps. */
  ghost predicate IsRun(calls: seq<Call>, states: seq<State>) {
    && states != [] && states[0] == Initial(|calls|)
    && forall k :: 0 <= k < |states| - 1 ==>
       exists a :: Enabled(calls, states[k], a) && states[k + 1] == Step(calls, states[k], a)
  }

  lemma RunInv(calls: seq<Call>, states: seq<State>, k: nat)
    requires IsRun(calls, states) && k < |states|
    ensures Inv(calls, states[k])
  {
    if k == 0 {
    } else {
      RunInv(calls, states, k - 1);
      var a :| Enabled(calls, states[k - 1], a) && states[k] == Step(calls, states[k - 1], a);
      InvNext(calls, states[k - 1], a);
    }
  }

  /** Only calls whose tools have run can have had an update refused, and those end with an error unless overridden. */
  ghost predicate RefusalsFit(s: State) {
    forall i :: i in s.refused ==> i < |s.tasks| && RefusalFits(s, i)
  }

  predicate RefusalFits(s: State, i: nat)
    requires i < |s.tasks|
  {
    && InPool(s.tasks[i])
    && (s.tasks[i].Finalized? || s.tasks[i].Ended? ==> i in s.overridden || s.tasks[i].result.isError)
  }

  lemma RefusalsNext(calls: seq<Call>, s: State, a: Action)
    requires Inv(calls, s) && RefusalsFit(s) && Enabled(calls, s, a)
    ensures RefusalsFit(Step(calls, s, a))
  {
    hide Legal, SeenBy, ViewOf, TaskFits, OutcomesFit, MayEndWith;
    var t, c := Step(calls, s, a), Changes(s, a);
    StepChangesOne(calls, s, a);
    if 0 <= c {
      assert TaskFits(s, c);
      ChangedFits(s, c);
    }
  }

  lemma ChangedFits(s: State, i: nat)
    requires i < |s.tasks| && TaskFits(s, i)
    ensures s.phase.Prepare? && i == s.reached && i < s.starts ==> s.tasks[i].Opened?
    ensures s.tasks[i].Idle? <==> i >= s.starts
  {
  }

  lemma RunRefusals(calls: seq<Call>, states: seq<State>, k: nat)
    requires IsRun(calls, states) && k < |states|
    ensures RefusalsFit(states[k])
  {
    if k > 0 {
      hide Inv, RefusalsFit, Step, Enabled;
      RunRefusals(calls, states, k - 1);
      RunInv(calls, states, k - 1);
      var a :| Enabled(calls, states[k - 1], a) && states[k] == Step(calls, states[k - 1], a);
      RefusalsNext(calls, states[k - 1], a);
    }
  }

  /** A refused update is not swallowed: whatever the interleaving, the result message of such a call is an error,
      unless the hook overrode it. */
  lemma RefusedUpdateShows(calls: seq<Call>, states: seq<State>, k: nat, m: nat)
    requires IsRun(calls, states) && k < |states| && m < |Messages(states[k].events)|
    requires m in states[k].refused && m !in states[k].overridden
    ensures Messages(states[k].events)[m].Message? && Messages(states[k].events)[m].call == m
    ensures Messages(states[k].events)[m].result.isError
  {
    hide Legal, SeenBy, Messages, Observe, OutcomesFit, CountsFit, TaskFits;
    RunInv(calls, states, k);
    RunRefusals(calls, states, k);
    MessagesInSourceOrder(|calls|, states[k].events);
    MessagesCarryResults(|calls|, states[k].events, m);
    StatusesAre(states[k].tasks);
  }

  /** Until it is done or aborted, a run can always go on without being cancelled, and the call to go on with is at
      hand. */
  lemma NeverStuck(calls: seq<Call>, s: State) returns (a: Action)
    requires Inv(calls, s) && !s.phase.Done? && !s.phase.Aborted?
    ensures Enabled(calls, s, a) && !a.Cancel?
  {
    hide Legal, SeenBy;
    match s.phase
    case Preparing => a := if s.starts < |s.tasks| then StartCall(true) else FinishPreparing;
    case Prepare => a := if calls[s.reached].immediate then FailCall(calls[s.reached].result) else PrepareCall;
    case EndImmediate =>
      assert TaskFits(s, s.reached - 1);
      a := EmitImmediateEnd(true);
    case Launching(k) => a := if k < s.reached then Launch else FinishLaunching;
    case Waiting =>
      if i :| 0 <= i < s.reached && !s.tasks[i].Ended? {
        assert TaskFits(s, i);
        a := TaskMove(calls, s, i);
      } else {
        a := Join;
      }
    case Messaging =>
      if s.messages < s.reached {
        assert TaskFits(s, s.messages);
        a := EmitMessage(true);
      } else {
        a := FinishMessaging;
      }
  }

  /** Once its tool returns, a running call drains its updates, then ends. */
  lemma TaskMove(calls: seq<Call>, s: State, i: nat) returns (a: Action)
    requires i < |s.tasks| == |calls| && (s.tasks[i].Running? || s.tasks[i].Finalized?) && (s.quiet ==> s.refused == {})
    ensures Enabled(calls, s, a) && !a.Cancel?
  {
    var t := s.tasks[i];
    a := if t.Finalized? then EmitEnd(i, true)
    else if t.accepting then StopAccepting(i)
    else if t.entered > 0 then EmitUpdate(i, true)
    else if t.sending > 0 then LeaveUpdate(i)
    else Finalize(i, calls[i].result, None);
  }

  lemma {:induction false} MessagesCarryResults(n: nat, events: seq<Event>, k: nat)
    requires Legal(n, events) && k < |Messages(events)|
    ensures k < n && |SeenBy(n, events).status| == n && Messages(events)[k].Message?
    ensures SeenBy(n, events).status[k] == Closed(Messages(events)[k].result)
  {
    var before := events[..|events| - 1];
    LegalPrefix(n, events, |events| - 1);
    ViewSize(n, before);
    MessagesInSourceOrder(n, before);
    MessagesInSourceOrder(n, events);
    if k < |Messages(before)| {
      MessagesCarryResults(n, before, k);
    }
  }

  /** The result messages of the first `k` calls, each with its own result. */
  function OwnMessages(calls: seq<Call>, k: nat): seq<Event>
    requires k <= |calls|
  {
    seq(k, i requires 0 <= i < k => Message(i, calls[i].result))
  }

  /** The batch ends the turn when every one of its results asks for it. */
  predicate Terminates(messages: seq<Event>) {
    messages != [] && forall m :: m in messages ==> m.Message? && m.result.terminate
  }

  /** Whatever the interleaving, the events are legal and the messages cover a source-order prefix. A finished run
      covers every reached call, and misses one only when cancelled. */
  lemma ParallelIsLegal(calls: seq<Call>, states: seq<State>, k: nat)
    requires IsRun(calls, states) && k < |states|
    ensures Legal(|calls|, states[k].events) && |Messages(states[k].events)| == states[k].messages <= |calls|
    ensures states[k].phase.Done? ==> |Messages(states[k].events)| == |calls| || states[k].cancelled
    ensures states[k].phase.Done? ==> |Messages(states[k].events)| == states[k].starts
  {
    hide Legal, SeenBy, Messages, Observe;
    RunInv(calls, states, k);
    MessagesInSourceOrder(|calls|, states[k].events);
  }

  // ----- One call after the other -----

  function SequentialTrace(calls: seq<Call>, k: nat): seq<Event>
    requires k <= |calls|
  {
    if k == 0 then []
    else
      var call := calls[k - 1];
      SequentialTrace(calls, k - 1)
      + [Start(k - 1)] + Updates(k - 1, if call.immediate then 0 else call.updates)
      + [End(k - 1, call.result), Message(k - 1, call.result)]
  }

  function Updates(i: nat, n: nat): seq<Event> {
    seq(n, _ => Update(i))
  }

  lemma UpdatesLegal(n: nat, events: seq<Event>, i: nat, k: nat)
    requires Legal(n, events) && i < |SeenBy(n, events).status| && SeenBy(n, events).status[i].Open?
    ensures Legal(n, events + Updates(i, k)) && SeenBy(n, events + Updates(i, k)) == SeenBy(n, events)
    ensures Messages(events + Updates(i, k)) == Messages(events)
  {
    if k == 0 {
      assert events + Updates(i, k) == events;
    } else {
      UpdatesLegal(n, events, i, k - 1);
      assert events + Updates(i, k) == (events + Updates(i, k - 1)) + [Update(i)];
      ObserveSnoc(n, events + Updates(i, k - 1), Update(i));
      MessagesSnoc(events + Updates(i, k - 1), Update(i));
    }
  }

  /** The view once the first `k` calls are over. */
  function ViewAfter(calls: seq<Call>, k: nat): View
    requires k <= |calls|
  {
    View(seq(|calls|, i requires 0 <= i < |calls| => if i < k then Closed(calls[i].result) else Fresh), k, k)
  }

  lemma CallLegal(calls: seq<Call>, events: seq<Event>, k: nat, updates: nat)
    requires k < |calls| && Legal(|calls|, events) && SeenBy(|calls|, events) == ViewAfter(calls, k)
    ensures var after := events + [Start(k)] + Updates(k, updates)
            + [End(k, calls[k].result), Message(k, calls[k].result)];
            && Legal(|calls|, after) && SeenBy(|calls|, after) == ViewAfter(calls, k + 1)
            && Messages(after) == Messages(events) + [Message(k, calls[k].result)]
  {
    hide Legal, SeenBy, Messages, Updates;
    var n, r, v := |calls|, calls[k].result, ViewAfter(calls, k);
    ObserveSnoc(n, events, Start(k));
    MessagesSnoc(events, Start(k));
    UpdatesLegal(n, events + [Start(k)], k, updates);
    var a := events + [Start(k)] + Updates(k, updates);
    ObserveSnoc(n, a, End(k, r));
    MessagesSnoc(a, End(k, r));
    ObserveSnoc(n, a + [End(k, r)], Message(k, r));
    MessagesSnoc(a + [End(k, r)], Message(k, r));
    assert a + [End(k, r), Message(k, r)] == a + [End(k, r)] + [Message(k, r)];
    assert v.status[k := Open][k := Closed(r)] == ViewAfter(calls, k + 1).status;
  }

  /** The sequential trace is legal too, and its messages are the calls' own results. */
  lemma {:induction false} SequentialLegal(calls: seq<Call>, k: nat)
    requires k <= |calls|
    ensures Legal(|calls|, SequentialTrace(calls, k))
            && SeenBy(|calls|, SequentialTrace(calls, k)) == ViewAfter(calls, k)
    ensures Messages(SequentialTrace(calls, k)) == OwnMessages(calls, k)
  {
    hide Legal, SeenBy, Messages;
    if k == 0 {
      NothingSeen(calls);
    } else {
      SequentialLegal(calls, k - 1);
      CallLegal(calls, SequentialTrace(calls, k - 1), k - 1,
                if calls[k - 1].immediate then 0 else calls[k - 1].updates);
    }
  }

  lemma NothingSeen(calls: seq<Call>)
    ensures Legal(|calls|, []) && SeenBy(|calls|, []) == ViewAfter(calls, 0) && Messages([]) == OwnMessages(calls, 0)
  {
  }

  /** After how many calls the sequential executor stops: at the first, from one on, after which the context is found
      cancelled. */
  function StopsAfter(n: nat, cancelled: nat -> bool, i: nat): (k: nat)
    requires i <= n
    ensures i <= k <= n && (k < n ==> k > 0 && cancelled(k))
    ensures forall j :: i <= j < k && j > 0 ==> !cancelled(j)
    decreases n - i
  {
    if i == n || (i > 0 && cancelled(i)) then i else StopsAfter(n, cancelled, i + 1)
  }

  /** Runs the calls in order until the context is found cancelled; `cancelled` tells whether it is after so many
      calls. */
  method ExecuteToolCallsSequential(calls: seq<Call>, cancelled: nat -> bool)
    returns (events: seq<Event>, messages: seq<Event>, terminate: bool)
    ensures events == SequentialTrace(calls, StopsAfter(|calls|, cancelled, 0))
    ensures messages == Messages(events)
    ensures terminate == Terminates(messages)
  {
    hide Messages, SequentialTrace;
    events, messages := [], [];
    var i := 0;
    SequentialStep(calls, 0);
    while i < |calls|
      invariant i <= |calls| && events == SequentialTrace(calls, i) && messages == OwnMessages(calls, i)
      invariant StopsAfter(|calls|, cancelled, 0) == StopsAfter(|calls|, cancelled, i)
      invariant i < |calls| && i > 0 ==> !cancelled(i)
    {
      SequentialStep(calls, i);
      events := events + [Start(i)];
      events := events + Updates(i, if calls[i].immediate then 0 else calls[i].updates);
      events := events + [End(i, calls[i].result), Message(i, calls[i].result)];
      messages := messages + [Message(i, calls[i].result)];
      i := i + 1;
      if cancelled(i) {
        break;
      }
    }
    SequentialLegal(calls, i);
    terminate := ShouldTerminate(messages);
  }

  lemma SequentialStep(calls: seq<Call>, k: nat)
    requires k <= |calls|
    ensures SequentialTrace(calls, 0) == []
    ensures k < |calls| ==>
              && SequentialTrace(calls, k + 1) ==
                 SequentialTrace(calls, k) + [Start(k)] + Updates(k, if calls[k].immediate then 0 else calls[k].updates)
                 + [End(k, calls[k].result), Message(k, calls[k].result)]
              && OwnMessages(calls, k + 1) == OwnMessages(calls, k) + [Message(k, calls[k].result)]
  {
  }

  lemma {:induction false} UpdatesCount(i: nat, n: nat, e: Event)
    ensures multiset(Updates(i, n))[e] == if e == Update(i) then n else 0
  {
    if n == 0 {
      assert Updates(i, n) == [];
    } else {
      UpdatesCount(i, n - 1, e);
      assert Updates(i, n) == Updates(i, n - 1) + [Update(i)];
    }
  }

  /** How often a call sends an event of its own: its start, its end and its message once, with its result, and all its
      updates. */
  function OwnCount(call: Call, e: Event): nat {
    match e
    case Start(_) => 1
    case Update(_) => if call.immediate then 0 else call.updates
    case End(_, r) => if r == call.result then 1 else 0
    case Message(_, r) => if r == call.result then 1 else 0
  }

  /** How often an event is sent when the first `k` calls run in order. */
  lemma {:induction false} SequentialCounts(calls: seq<Call>, k: nat, e: Event)
    requires k <= |calls|
    ensures multiset(SequentialTrace(calls, k))[e] == if e.call < k then OwnCount(calls[e.call], e) else 0
  {
    hide *;
    if k == 0 {
      SequentialStep(calls, 0);
    } else {
      SequentialCounts(calls, k - 1, e);
      SequentialStep(calls, k - 1);
      CallCounts(SequentialTrace(calls, k - 1), k - 1, calls[k - 1], e);
    }
  }

  lemma CallCounts(before: seq<Event>, i: nat, call: Call, e: Event)
    ensures var n, r := if call.immediate then 0 else call.updates, call.result;
            multiset(before + [Start(i)] + Updates(i, n) + [End(i, r), Message(i, r)])[e] ==
            multiset(before)[e] + if e.call == i then OwnCount(call, e) else 0
  {
    hide Updates;
    var n, r := if call.immediate then 0 else call.updates, call.result;
    UpdatesCount(i, n, e);
    var after := before + [Start(i)] + Updates(i, n);
    assert multiset([Start(i)])[e] == if e == Start(i) then 1 else 0;
    assert multiset([End(i, r), Message(i, r)])[e] == if e == End(i, r) || e == Message(i, r) then 1 else 0;
    assert multiset(after)[e] == multiset(before)[e] + multiset([Start(i)])[e] + multiset(Updates(i, n))[e];
  }

  /** The updates of call `i` that have passed its gate: those sent and those still to be sent. */
  function Accepted(s: State, i: nat): nat {
    multiset(s.events)[Update(i)] + EnteredBy(s, i)
  }

  /** No accepted update is lost or sent twice: only passing the gate adds to them, and none is left to send once the
      call has its result. */
  lemma UpdatesConserved(calls: seq<Call>, s: State, a: Action, i: nat)
    requires Inv(calls, s) && Enabled(calls, s, a)
    ensures Accepted(Step(calls, s, a), i) == Accepted(s, i) + if a == EnterUpdate(i) then 1 else 0
    ensures i < |s.tasks| && (s.tasks[i].Finalized? || s.tasks[i].Ended?) ==>
              Accepted(s, i) == multiset(s.events)[Update(i)]
  {
    hide Legal, SeenBy, OutcomesFit, MayEndWith, ViewOf, Step, Enabled, TaskFits, Observe, Statuses;
    ViewNext(calls, s, a);
    SentUpdates(calls, s, a, i);
    EnteredNext(calls, s, a, i);
  }

  lemma SentUpdates(calls: seq<Call>, s: State, a: Action, i: nat)
    requires Enabled(calls, s, a)
    ensures multiset(s.events + Sent(calls, s, a))[Update(i)] ==
            multiset(s.events)[Update(i)] + if a.EmitUpdate? && a.call == i then 1 else 0
  {
    hide Step, MayEndWith;
    var sent := Sent(calls, s, a);
    if sent != [] {
      SentIsOne(calls, s, a);
      assert multiset(sent) == multiset{sent[0]};
    }
  }

  function EnteredBy(s: State, i: nat): nat {
    if IsRunning(s, i) then s.tasks[i].entered else 0
  }

  lemma EnteredNext(calls: seq<Call>, s: State, a: Action, i: nat)
    requires Inv(calls, s) && Enabled(calls, s, a)
    ensures EnteredBy(Step(calls, s, a), i) + (if a.EmitUpdate? && a.call == i then 1 else 0) ==
            EnteredBy(s, i) + if a == EnterUpdate(i) then 1 else 0
  {
    hide Legal, SeenBy, OutcomesFit, MayEndWith, ViewOf, Observe;
    StepChangesOne(calls, s, a);
    if i < |s.tasks| {
      assert TaskFits(s, i);
    }
  }

  method ShouldTerminate(messages: seq<Event>) returns (terminate: bool)
    ensures terminate == Terminates(messages)
  {
    if messages == [] {
      return false;
    }
    for i := 0 to |messages|
      invariant forall k :: 0 <= k < i ==> messages[k].Message? && messages[k].result.terminate
    {
      if !messages[i].Message? || !messages[i].result.terminate {
        return false;
      }
    }
    return true;
  }

  /** When tools do not depend on each other and nothing disturbs the run, every interleaving sends the same result
      messages as running the calls in order, so the batch also ends the turn in the same cases. */
  lemma ParallelMatchesSequential(calls: seq<Call>, states: seq<State>, k: nat)
    requires IsRun(calls, states) && k < |states| && states[k].phase.Done? && states[k].quiet
    ensures Messages(states[k].events) == Messages(SequentialTrace(calls, |calls|)) == OwnMessages(calls, |calls|)
    ensures ObserveAll(Unseen(|calls|), SequentialTrace(calls, |calls|)) == Some(ViewOf(states[k]))
  {
    hide *;
    RunInv(calls, states, k);
    QuietOutcome(calls, states[k]);
    SequentialLegal(calls, |calls|);
    SeenIs(|calls|, SequentialTrace(calls, |calls|));
  }

  lemma SeenIs(n: nat, events: seq<Event>)
    requires Legal(n, events)
    ensures ObserveAll(Unseen(n), events) == Some(SeenBy(n, events))
  {
  }

  lemma QuietOutcome(calls: seq<Call>, s: State)
    requires Inv(calls, s) && s.phase.Done? && s.quiet
    ensures Messages(s.events) == OwnMessages(calls, |calls|) && ViewOf(s) == ViewAfter(calls, |calls|)
  {
    var n := |calls|;
    hide Legal, SeenBy, Messages;
    MessagesInSourceOrder(n, s.events);
    forall i | 0 <= i < n
      ensures s.tasks[i] == Ended(calls[i].result)
    {
      assert TaskFits(s, i) && HoldsOwnResult(calls, s, i);
    }
    forall i | 0 <= i < n
      ensures Messages(s.events)[i] == OwnMessages(calls, n)[i]
    {
      MessagesCarryResults(n, s.events, i);
    }
    assert ViewOf(s).status == ViewAfter(calls, n).status;
  }
}

/** The turn loop and the agent that rebuilds its transcript from the loop's events. */
module AgentLoop {
  import opened Options
  import ToolExecutor

  datatype StopReason = Completed | Errored | Aborted

  datatype Chat =
    | Prompt(text: nat)
    | Assistant(content: nat, toolCalls: nat, stop: StopReason)
    | ToolResult(call: nat, result: ToolExecutor.ToolResult)

  datatype AgentEvent =
    | AgentStart
    | TurnStart
    | MessageStart(message: Chat)
    | MessageUpdate(message: Chat)
    | MessageEnd(message: Chat)
    | ToolStart(call: nat)
    | ToolUpdate(call: nat)
    | ToolEnd(call: nat)
    | TurnEnd(message: Chat, results: seq<Chat>)
    | AgentEnd(messages: seq<Chat>)

  /** The observable state of an agent. */
  datatype Snapshot = Snapshot(messages: seq<Chat>, streaming: Option<Chat>, pendingTools: set<nat>, failed: bool)

  /** The effect of one event on the state. */
  function Apply(s: Snapshot, ev: AgentEvent): Snapshot {
    match ev
    case MessageStart(m) => s.(streaming := Some(m))
    case MessageUpdate(m) => s.(streaming := Some(m))
    case MessageEnd(m) => s.(streaming := None, messages := s.messages + [m])
    case ToolStart(i) => s.(pendingTools := s.pendingTools + {i})
    case ToolEnd(i) => s.(pendingTools := s.pendingTools - {i})
    case TurnEnd(m, _) => s.(failed := s.failed || (m.Assistant? && m.stop != Completed))
    case AgentEnd(_) => s.(streaming := None)
    case _ => s
  }

  function ApplyAll(s: Snapshot, events: seq<AgentEvent>): Snapshot {
    if events == [] then s else Apply(ApplyAll(s, events[..|events| - 1]), events[|events| - 1])
  }

  /** The messages whose end was announced. */
  function MessageEnds(events: seq<AgentEvent>): seq<Chat> {
    if events == [] then []
    else
      MessageEnds(events[..|events| - 1])
      + if events[|events| - 1].MessageEnd? then [events[|events| - 1].message] else []
  }

  lemma {:induction false} MessageEndsAppend(a: seq<AgentEvent>, b: seq<AgentEvent>)
    ensures MessageEnds(a + b) == MessageEnds(a) + MessageEnds(b)
  {
    if b == [] {
      assert a + b == a;
    } else {
      assert (a + b)[..|a + b| - 1] == a + b[..|b| - 1];
      MessageEndsAppend(a, b[..|b| - 1]);
    }
  }

  lemma {:induction false} ApplyAllAppend(s: Snapshot, a: seq<AgentEvent>, b: seq<AgentEvent>)
    ensures ApplyAll(s, a + b) == ApplyAll(ApplyAll(s, a), b)
  {
    if b == [] {
      assert a + b == a;
    } else {
      assert (a + b)[..|a + b| - 1] == a + b[..|b| - 1];
      ApplyAllAppend(s, a, b[..|b| - 1]);
    }
  }

  /** The transcript is built from ended messages and nothing else. */
  lemma {:induction false} TranscriptIsEnds(s: Snapshot, events: seq<AgentEvent>)
    ensures ApplyAll(s, events).messages == s.messages + MessageEnds(events)
  {
    if events != [] {
      TranscriptIsEnds(s, events[..|events| - 1]);
    }
  }

  // ----- Queues -----

  class PendingMessageQueue {
    var messages: seq<Chat>
    var all: bool

    constructor (all: bool)
      ensures messages == [] && this.all == all
    {
      messages := [];
      this.all := all;
    }

    method Enqueue(m: Chat)
      modifies `messages
      ensures messages == old(messages) + [m]
    {
      messages := messages + [m];
    }

    method EnqueueAll(ms: seq<Chat>)
      modifies `messages
      ensures messages == old(messages) + ms
    {
      for i := 0 to |ms|
        invariant messages == old(messages) + ms[..i]
      {
        Enqueue(ms[i]);
      }
    }

    /** Hands out messages from the front: all of them, or one at a time. Nothing is lost or reordered. */
    method Drain() returns (drained: seq<Chat>)
      modifies `messages
      ensures drained + messages == old(messages)
      ensures |drained| == if all then |old(messages)| else if |old(messages)| > 0 then 1 else 0
    {
      if all {
        drained := messages;
        messages := [];
        return;
      }
      if messages == [] {
        return [];
      }
      drained := [messages[0]];
      messages := messages[1..];
    }
  }

  // ----- Provider streams -----

  datatype StreamEvent = Opens | Grows | Finishes

  /** A provider stream: its events with the partial message after each, and the message its result resolves to. */
  datatype Stream = Stream(events: seq<(StreamEvent, Chat)>, final: Chat)

  /** How many start events come before the first terminal event, among the first `k`. */
  function Starts(s: Stream, k: nat): nat
    requires k <= |s.events|
  {
    if k == 0 then 0
    else Starts(s, k - 1) + if s.events[k - 1].0.Opens? && !Finished(s, k - 1) then 1 else 0
  }

  predicate Finished(s: Stream, k: nat)
    requires k <= |s.events|
  {
    exists i :: 0 <= i < k && s.events[i].0.Finishes?
  }

  lemma StartsStop(s: Stream, i: nat, k: nat)
    requires i <= k <= |s.events| && Finished(s, i)
    ensures Starts(s, k) == Starts(s, i)
  {
    if i < k {
      StartsStop(s, i, k - 1);
    }
  }

  /** What the model does in one turn: the stream, the trace of the tool batch, and what the next-turn hook decides. */
  datatype Turn = Turn(
    stream: Stream,
    tools: seq<ToolExecutor.Event>,
    compacted: Option<seq<Chat>>,
    stop: bool,
    steering: seq<Chat>,
    followUps: seq<Chat>)

  function ResultMessages(events: seq<ToolExecutor.Event>): seq<Chat> {
    seq(|events|, i requires 0 <= i < |events| =>
      if events[i].Message? then ToolResult(events[i].call, events[i].result)
      else ToolResult(events[i].call, ToolExecutor.ToolResult(0, true, false)))
  }

  /** The agent events a tool event turns into. */
  function Forward(e: ToolExecutor.Event): seq<AgentEvent> {
    match e
    case Start(i) => [ToolStart(i)]
    case Update(i) => [ToolUpdate(i)]
    case End(i, _) => [ToolEnd(i)]
    case Message(i, r) => [MessageStart(ToolResult(i, r)), MessageEnd(ToolResult(i, r))]
  }

  function ForwardAll(events: seq<ToolExecutor.Event>): seq<AgentEvent> {
    if events == [] then [] else ForwardAll(events[..|events| - 1]) + Forward(events[|events| - 1])
  }

  /** A tool batch that ran to its end: every started call has its result message. */
  predicate Complete(calls: nat, tools: seq<ToolExecutor.Event>) {
    ToolExecutor.Legal(calls, tools)
    && ToolExecutor.SeenBy(calls, tools).messages == ToolExecutor.SeenBy(calls, tools).starts
  }

  lemma ResultMessagesAppend(a: seq<ToolExecutor.Event>, b: seq<ToolExecutor.Event>)
    ensures ResultMessages(a + b) == ResultMessages(a) + ResultMessages(b)
  {
  }

  /** The ended messages of a batch are its result messages. */
  lemma {:induction false} ForwardedEnds(tools: seq<ToolExecutor.Event>)
    ensures MessageEnds(ForwardAll(tools)) == ResultMessages(ToolExecutor.Messages(tools))
  {
    hide MessageEnds, ResultMessages;
    if tools == [] {
      NoEnds();
    } else {
      var front, last := tools[..|tools| - 1], tools[|tools| - 1];
      ForwardedEnds(front);
      MessageEndsAppend(ForwardAll(front), Forward(last));
      ForwardOne(last);
      ResultMessagesAppend(ToolExecutor.Messages(front), if last.Message? then [last] else []);
      ResultOne(last);
    }
  }

  lemma NoEnds()
    ensures MessageEnds([]) == [] && ResultMessages([]) == []
  {
  }

  lemma ResultOne(e: ToolExecutor.Event)
    ensures e.Message? ==> ResultMessages([e]) == [ToolResult(e.call, e.result)]
    ensures ResultMessages([]) == []
  {
  }

  lemma ForwardOne(e: ToolExecutor.Event)
    ensures MessageEnds(Forward(e)) == if e.Message? then [ToolResult(e.call, e.result)] else []
  {
    if e.Message? {
      var m := ToolResult(e.call, e.result);
      assert [MessageStart(m), MessageEnd(m)][..1] == [MessageStart(m)];
      assert MessageEnds([MessageStart(m)]) == [] by {
        assert [MessageStart(m)][..0] == [];
      }
    } else {
      assert Forward(e)[..0] == [];
    }
  }

  /** The tools in flight are exactly the calls still open. */
  ghost predicate InFlight(pending: set<nat>, v: ToolExecutor.View) {
    forall i: nat :: i in pending <==> i < |v.status| && v.status[i].Open?
  }

  lemma InFlightNext(pending: set<nat>, v: ToolExecutor.View, e: ToolExecutor.Event)
    requires InFlight(pending, v) && ToolExecutor.Observe(v, e).Some?
    ensures var w := ToolExecutor.Observe(v, e).value;
            match e
            case Start(i) => InFlight(pending + {i}, w)
            case End(i, _) => InFlight(pending - {i}, w)
            case _ => InFlight(pending, w)
  {
  }

  lemma InFlightNone(n: nat)
    ensures InFlight({}, ToolExecutor.Unseen(n))
  {
  }

  /** After a legal batch the tools in flight are exactly the calls still open, and nothing is streaming. */
  lemma {:induction false} ForwardedTools(s: Snapshot, calls: nat, tools: seq<ToolExecutor.Event>)
    requires s.pendingTools == {} && s.streaming.None? && ToolExecutor.Legal(calls, tools)
    ensures var after := ApplyAll(s, ForwardAll(tools));
            after.streaming.None? && after.failed == s.failed
            && InFlight(after.pendingTools, ToolExecutor.SeenBy(calls, tools))
  {
    hide InFlight, ToolExecutor.Observe;
    InFlightNone(calls);
    if tools != [] {
      var front, last := tools[..|tools| - 1], tools[|tools| - 1];
      ToolExecutor.LegalPrefix(calls, tools, |tools| - 1);
      ForwardedTools(s, calls, front);
      ForwardStep(ApplyAll(s, ForwardAll(front)), last);
      ApplyAllAppend(s, ForwardAll(front), Forward(last));
      InFlightNext(ApplyAll(s, ForwardAll(front)).pendingTools, ToolExecutor.SeenBy(calls, front), last);
    }
  }

  lemma ForwardStep(s: Snapshot, e: ToolExecutor.Event)
    ensures ApplyAll(s, Forward(e)) ==
            match e
            case Start(i) => s.(pendingTools := s.pendingTools + {i})
            case Update(_) => s
            case End(i, _) => s.(pendingTools := s.pendingTools - {i})
            case Message(i, r) => s.(streaming := None, messages := s.messages + [ToolResult(i, r)])
  {
    if e.Message? {
      ApplyTwo(s, Forward(e)[0], Forward(e)[1]);
    } else {
      assert ApplyAll(s, [Forward(e)[0]]) == Apply(s, Forward(e)[0]);
    }
  }

  lemma ApplyTwo(s: Snapshot, e: AgentEvent, f: AgentEvent)
    ensures ApplyAll(s, [e, f]) == Apply(Apply(s, e), f)
  {
    assert [e, f][..1] == [e];
    assert ApplyAll(s, [e]) == Apply(s, e);
  }

  lemma {:induction false} OpenCallsAreBetween(calls: nat, tools: seq<ToolExecutor.Event>, i: nat)
    requires ToolExecutor.Legal(calls, tools) && i < calls
    ensures var v := ToolExecutor.SeenBy(calls, tools);
            |v.status| == calls && (v.status[i].Fresh? <==> i >= v.starts) && (i < v.messages ==> v.status[i].Closed?)
  {
    if tools != [] {
      ToolExecutor.LegalPrefix(calls, tools, |tools| - 1);
      OpenCallsAreBetween(calls, tools[..|tools| - 1], i);
    }
  }

  /** A complete batch leaves no tool in flight. */
  lemma CompleteLeavesNothing(s: Snapshot, calls: nat, tools: seq<ToolExecutor.Event>)
    requires s.pendingTools == {} && s.streaming.None? && Complete(calls, tools)
    ensures var after := ApplyAll(s, ForwardAll(tools));
            after == s.(messages := s.messages + ResultMessages(ToolExecutor.Messages(tools)))
  {
    hide ApplyAll, ForwardAll, MessageEnds, ToolExecutor.Messages, ToolExecutor.SeenBy, ToolExecutor.Legal;
    ForwardedTools(s, calls, tools);
    ForwardedEnds(tools);
    TranscriptIsEnds(s, ForwardAll(tools));
    ToolExecutor.ViewSize(calls, tools);
    var after, v := ApplyAll(s, ForwardAll(tools)), ToolExecutor.SeenBy(calls, tools);
    forall i | 0 <= i < calls
      ensures !v.status[i].Open?
    {
      OpenCallsAreBetween(calls, tools, i);
    }
    assert after.pendingTools == {};
  }

  // ----- What a run announces -----

  function Announce(ms: seq<Chat>): seq<AgentEvent> {
    if ms == [] then [] else Announce(ms[..|ms| - 1]) + [MessageStart(ms[|ms| - 1]), MessageEnd(ms[|ms| - 1])]
  }

  /** The events of a stream from `i` on; `added` says that a start event came. */
  function StreamTrace(s: Stream, i: nat, added: bool): seq<AgentEvent>
    requires i <= |s.events|
    decreases |s.events| - i
  {
    if i == |s.events| || s.events[i].0.Finishes?
      then (if added then [] else [MessageStart(s.final)]) + [MessageEnd(s.final)]
    else if s.events[i].0.Opens? then [MessageStart(s.events[i].1)] + StreamTrace(s, i + 1, true)
    else if added then [MessageUpdate(s.events[i].1)] + StreamTrace(s, i + 1, true)
    else StreamTrace(s, i + 1, false)
  }

  /** What a stream adds to the context: a slot for each start event, the last of them ending as the final message. */
  function Grown(s: Stream, i: nat, slots: seq<Chat>): seq<Chat>
    requires i <= |s.events|
    decreases |s.events| - i
  {
    if i == |s.events| || s.events[i].0.Finishes? then if slots == [] then [s.final] else slots[|slots| - 1 := s.final]
    else if s.events[i].0.Opens? then Grown(s, i + 1, slots + [s.events[i].1])
    else if slots == [] then Grown(s, i + 1, slots)
    else Grown(s, i + 1, slots[|slots| - 1 := s.events[i].1])
  }

  predicate EndsRun(t: Turn) {
    t.stream.final.Assistant? && (t.stream.final.stop != Completed || t.stop)
  }

  predicate CallsTools(t: Turn) {
    t.stream.final.Assistant? && t.stream.final.stop == Completed && t.stream.final.toolCalls > 0
  }

  /** The model expects another turn: it called tools, and they did not all ask to stop. */
  predicate WantsMore(t: Turn) {
    CallsTools(t) && !ToolExecutor.Terminates(ToolExecutor.Messages(t.tools))
  }

  function ResultsOf(t: Turn): seq<Chat> {
    if CallsTools(t) then ResultMessages(ToolExecutor.Messages(t.tools)) else []
  }

  /** The messages a turn adds to the transcript. */
  function AddedBy(t: Turn, pending: seq<Chat>): seq<Chat> {
    pending + [t.stream.final] + ResultsOf(t)
  }

  /** The events of a turn, in order. */
  function TurnTrace(t: Turn, first: bool, pending: seq<Chat>): seq<AgentEvent> {
    (if first then [] else [TurnStart]) + Announce(pending) + StreamTrace(t.stream, 0, false)
    + (if CallsTools(t) then ForwardAll(t.tools) else []) + [TurnEnd(t.stream.final, ResultsOf(t))]
  }

  lemma AnnounceSnoc(ms: seq<Chat>, m: Chat)
    ensures Announce(ms + [m]) == Announce(ms) + [MessageStart(m), MessageEnd(m)]
  {
    assert (ms + [m])[..|ms|] == ms;
  }

  // ----- The agent -----

  class Agent {
    var messages: seq<Chat>
    var streaming: Option<Chat>
    var pendingTools: set<nat>
    var failed: bool
    const steeringQueue: PendingMessageQueue
    const followUpQueue: PendingMessageQueue
    /** A run is going on. */
    var active: bool
    ghost var log: seq<AgentEvent>

    function State(): Snapshot
      reads `messages, `streaming, `pendingTools, `failed
    {
      Snapshot(messages, streaming, pendingTools, failed)
    }

    constructor (initial: seq<Chat>, steeringAll: bool, followUpAll: bool)
      ensures State() == Snapshot(initial, None, {}, false) && log == [] && !active
      ensures fresh(steeringQueue) && fresh(followUpQueue) && steeringQueue != followUpQueue
    {
      messages, streaming, pendingTools, failed, active := initial, None, {}, false, false;
      steeringQueue := new PendingMessageQueue(steeringAll);
      followUpQueue := new PendingMessageQueue(followUpAll);
      log := [];
    }

    /** The event sink of the loop. */
    method ProcessEvents(ev: AgentEvent)
      modifies `messages, `streaming, `pendingTools, `failed, `log
      ensures State() == Apply(old(State()), ev) && log == old(log) + [ev]
      ensures MessageEnds(log) == MessageEnds(old(log)) + if ev.MessageEnd? then [ev.message] else []
    {
      EndsSnoc(log, ev);
      log := log + [ev];
      match ev {
        case MessageStart(m) => streaming := Some(m);
        case MessageUpdate(m) => streaming := Some(m);
        case MessageEnd(m) =>
          streaming := None;
          messages := messages + [m];
        case ToolStart(i) => pendingTools := pendingTools + {i};
        case ToolEnd(i) => pendingTools := pendingTools - {i};
        case TurnEnd(m, _) =>
          if m.Assistant? && m.stop != Completed {
            failed := true;
          }
        case AgentEnd(_) => streaming := None;
        case _ =>
      }
    }

    /** The commit of a compacted history. */
    method SetMessages(compacted: seq<Chat>)
      modifies `messages
      ensures messages == compacted
    {
      messages := compacted;
    }

    /** Announces each message from start to end. */
    method EmitMessages(ms: seq<Chat>)
      modifies `messages, `streaming, `pendingTools, `failed, `log
      ensures State() ==
              old(State()).(messages := old(messages) + ms, streaming := if ms == [] then old(streaming) else None)
      ensures log == old(log) + Announce(ms) && MessageEnds(log) == MessageEnds(old(log)) + ms
    {
      hide MessageEnds, Announce;
      NothingAnnounced();
      for i := 0 to |ms|
        invariant State() ==
                  old(State()).(messages := old(messages) + ms[..i],
                                streaming := if i == 0 then old(streaming) else None)
        invariant log == old(log) + Announce(ms[..i]) && MessageEnds(log) == MessageEnds(old(log)) + ms[..i]
      {
        AnnounceSnoc(ms[..i], ms[i]);
        assert ms[..i + 1] == ms[..i] + [ms[i]];
        ProcessEvents(MessageStart(ms[i]));
        ProcessEvents(MessageEnd(ms[i]));
        Associate(old(log), Announce(ms[..i]), [MessageStart(ms[i]), MessageEnd(ms[i])]);
      }
      assert ms[..|ms|] == ms;
    }

    /** Folds one provider stream into the context and announces its message. The transcript gains exactly the final
        message; the context gains one message for each start event, and at least one. */
    method StreamAssistantResponse(s: Stream, context: seq<Chat>) returns (after: seq<Chat>, message: Chat)
      modifies `messages, `streaming, `pendingTools, `failed, `log
      ensures message == s.final && State() == old(State()).(messages := old(messages) + [s.final], streaming := None)
      ensures log == old(log) + StreamTrace(s, 0, false) && MessageEnds(log) == MessageEnds(old(log)) + [s.final]
      ensures after == context + Grown(s, 0, [])
      ensures after == context + [s.final] <==> Starts(s, |s.events|) <= 1
    {
      hide MessageEnds, StreamTrace, Grown, Starts;
      var added := false;
      var i := 0;
      ghost var slots: seq<Chat> := [];
      after := context;
      while i < |s.events| && !s.events[i].0.Finishes?
        invariant i <= |s.events| && after == context + slots && added == (slots != [])
        invariant Grown(s, i, slots) == Grown(s, 0, [])
        invariant log + StreamTrace(s, i, added) == old(log) + StreamTrace(s, 0, false)
        invariant State() == old(State()).(streaming := State().streaming)
        invariant MessageEnds(log) == MessageEnds(old(log))
      {
        StreamStep(s, i, added, slots);
        var (event, partialMessage) := s.events[i];
        if event.Opens? {
          Associate(log, [MessageStart(partialMessage)], StreamTrace(s, i + 1, true));
          Associate(context, slots, [partialMessage]);
          slots := slots + [partialMessage];
          after := after + [partialMessage];
          added := true;
          ProcessEvents(MessageStart(partialMessage));
        } else if added {
          Associate(log, [MessageUpdate(partialMessage)], StreamTrace(s, i + 1, true));
          slots := slots[|slots| - 1 := partialMessage];
          after := after[|after| - 1 := partialMessage];
          ProcessEvents(MessageUpdate(partialMessage));
        }
        i := i + 1;
      }
      StreamStep(s, i, added, slots);
      message := s.final;
      if added {
        after := after[|after| - 1 := message];
      } else {
        after := after + [message];
        Associate(log, [MessageStart(message)], [MessageEnd(message)]);
        ProcessEvents(MessageStart(message));
      }
      ProcessEvents(MessageEnd(message));
      GrownOne(s, context);
    }

    /** Forwards a tool batch's events. */
    method ForwardTools(tools: seq<ToolExecutor.Event>)
      modifies `messages, `streaming, `pendingTools, `failed, `log
      ensures State() == ApplyAll(old(State()), ForwardAll(tools)) && log == old(log) + ForwardAll(tools)
      ensures MessageEnds(log) == MessageEnds(old(log)) + ResultMessages(ToolExecutor.Messages(tools))
    {
      hide MessageEnds, ApplyAll, ForwardAll, ResultMessages, ToolExecutor.Messages;
      ForwardNone(State(), tools);
      for i := 0 to |tools|
        invariant State() == ApplyAll(old(State()), ForwardAll(tools[..i])) && log == old(log) + ForwardAll(tools[..i])
        invariant MessageEnds(log) == MessageEnds(old(log)) + ResultMessages(ToolExecutor.Messages(tools[..i]))
      {
        ForwardSnoc(old(State()), tools, i);
        Associate(old(log), ForwardAll(tools[..i]), Forward(tools[i]));
        match tools[i] {
          case Start(c) => ProcessEvents(ToolStart(c));
          case Update(c) => ProcessEvents(ToolUpdate(c));
          case End(c, _) => ProcessEvents(ToolEnd(c));
          case Message(c, r) =>
            ProcessEvents(MessageStart(ToolResult(c, r)));
            ProcessEvents(MessageEnd(ToolResult(c, r)));
        }
      }
      assert tools[..|tools|] == tools;
    }

    /** Between turns nothing streams and no tool is in flight. */
    ghost predicate Settled()
      reads `streaming, `pendingTools
    {
      streaming.None? && pendingTools == {}
    }

    /** The first half of a turn: pending messages go in, and the assistant answers. */
    method Speak(turn: Turn, first: bool, context: seq<Chat>, pending: seq<Chat>)
      returns (after: seq<Chat>, spoken: seq<Chat>)
      requires streaming.None?
      modifies `messages, `streaming, `pendingTools, `failed, `log
      ensures spoken == pending + [turn.stream.final]
      ensures log == old(log) + ((if first then [] else [TurnStart]) + Announce(pending)
                                 + StreamTrace(turn.stream, 0, false))
      ensures MessageEnds(log) == MessageEnds(old(log)) + spoken && messages == old(messages) + spoken
      ensures streaming.None? && pendingTools == old(pendingTools)
      ensures after == context + (pending + Grown(turn.stream, 0, [])) && (OneStart(turn) ==> after == context + spoken)
    {
      hide MessageEnds, Starts, StreamTrace, Grown, Announce;
      ghost var log0, messages0 := log, messages;
      if !first {
        ProcessEvents(TurnStart);
      }
      EmitMessages(pending);
      after := context + pending;
      ghost var before := after;
      var message;
      after, message := StreamAssistantResponse(turn.stream, after);
      assert OneStart(turn) ==> after == before + [message];
      spoken := pending + [message];
      Associate(MessageEnds(log0), pending, [message]);
      Associate(messages0, pending, [message]);
      Associate(context, pending, [message]);
      Associate(context, pending, Grown(turn.stream, 0, []));
    }

    /** The tools of a turn: their result messages go in. */
    method Act(turn: Turn) returns (results: seq<Chat>, more: bool)
      requires Playable(turn) && turn.stream.final.stop == Completed && streaming.None? && pendingTools == {}
      modifies `messages, `streaming, `pendingTools, `failed, `log
      ensures results == ResultsOf(turn) && more == WantsMore(turn)
      ensures log == old(log) + if CallsTools(turn) then ForwardAll(turn.tools) else []
      ensures MessageEnds(log) == MessageEnds(old(log)) + results && messages == old(messages) + results
      ensures streaming.None? && pendingTools == {}
    {
      hide MessageEnds, ApplyAll, ForwardAll, ResultMessages, Complete, ToolExecutor.Messages, ToolExecutor.Terminates;
      var message := turn.stream.final;
      if message.toolCalls == 0 {
        return [], false;
      }
      CompleteLeavesNothing(State(), message.toolCalls, turn.tools);
      ForwardTools(turn.tools);
      results := ResultMessages(ToolExecutor.Messages(turn.tools));
      more := !ToolExecutor.Terminates(ToolExecutor.Messages(turn.tools));
    }

    /** One turn: the assistant's response, its tools, and the next-turn hook, which may swap in a compacted history.
        `ended` says the run ends here. */
    method RunTurn(turn: Turn, first: bool, context: seq<Chat>, newMessages: seq<Chat>, pending: seq<Chat>)
      returns (after: seq<Chat>, added: seq<Chat>, more: bool, ended: bool, ghost atEnd: Histories)
      requires Playable(turn) && Settled()
      modifies `messages, `streaming, `pendingTools, `failed, `log
      ensures Settled() && added == AddedBy(turn, pending) && MessageEnds(log) == MessageEnds(old(log)) + added
      ensures log == old(log) + TurnTrace(turn, first, pending) + if ended then [AgentEnd(newMessages + added)] else []
      ensures ended == EndsRun(turn) && more == WantsMore(turn)
      ensures atEnd == AtEnd(Play(turn, pending), Histories(old(messages), context))
      ensures Histories(messages, after) == AfterHook(Play(turn, pending), Histories(old(messages), context))
    {
      hide MessageEnds, OneStart, Playable, Grown, TurnTrace, AddedBy, ResultsOf, CallsTools, WantsMore, StreamTrace,
           Announce, ForwardAll;
      ghost var log0, messages0, ended0 := log, messages, MessageEnds(log);
      after, added := Speak(turn, first, context, pending);
      ghost var spoken, grown := added, pending + Grown(turn.stream, 0, []);
      PlayableMeans(turn);
      var message := turn.stream.final;
      if message.stop != Completed {
        BrokenTurn(turn, first, pending, log0, context, grown);
        ProcessEvents(TurnEnd(message, []));
        atEnd := Histories(messages, after);
        ProcessEvents(AgentEnd(newMessages + added));
        more, ended := false, true;
        return;
      }
      var results;
      results, more := Act(turn);
      after := after + results;
      added := added + results;
      Associate(ended0, spoken, results);
      Associate(messages0, spoken, results);
      Associate(context, spoken, results);
      Associate(context, grown, results);
      WholeTurn(turn, first, pending, log0);
      ProcessEvents(TurnEnd(message, results));
      atEnd := Histories(messages, after);
      if turn.compacted.Some? {
        SetMessages(turn.compacted.value);
        after := turn.compacted.value;
      }
      ended := turn.stop;
      if ended {
        ProcessEvents(AgentEnd(newMessages + added));
      } else {
        assert log + [] == log;
      }
    }

    /** What holds after the given plays of a run with this origin; `tail` is what was announced since. */
    ghost predicate Tracks(o: Origin, plays: seq<Play>, after: seq<Chat>, all: seq<Chat>, ends: seq<Histories>,
                           tail: seq<AgentEvent>)
      reads `messages, `streaming, `pendingTools, `log
    {
      && Settled()
      && log == o.log + TraceAll(plays) + tail && all == o.newMessages + AddedAll(plays)
      && MessageEnds(log) == MessageEnds(o.log) + AddedAll(plays)
      && Histories(messages, after) == HistoriesAfter(plays, o.histories) && ends == EndsOf(plays, o.histories)
    }

    /** One turn of a run whose plays so far are tracked. */
    method PlayTurn(turn: Turn, context: seq<Chat>, soFar: seq<Chat>, pending: seq<Chat>, first: bool, ghost o: Origin,
                    ghost plays: seq<Play>, ghost ends0: seq<Histories>)
      returns (after: seq<Chat>, all: seq<Chat>, more: bool, ended: bool, ghost ends: seq<Histories>)
      requires Playable(turn) && first == (plays == []) && Tracks(o, plays, context, soFar, ends0, [])
      modifies `messages, `streaming, `pendingTools, `failed, `log
      ensures Tracks(o, plays + [Play(turn, pending)], after, all, ends, if ended then [AgentEnd(all)] else [])
      ensures ended == EndsRun(turn) && more == WantsMore(turn)
    {
      hide MessageEnds, Playable, TraceAll, AddedAll, TurnTrace, AddedBy, EndsRun, WantsMore, HistoriesAfter, EndsOf,
           AtEnd, AfterHook;
      var added;
      ghost var atEnd;
      assert o.log + TraceAll(plays) + [] == o.log + TraceAll(plays);
      after, added, more, ended, atEnd := RunTurn(turn, first, context, soFar, pending);
      all, ends := soFar + added, ends0 + [atEnd];
      PlaySnoc(plays, Play(turn, pending), o, MessageEnds(o.log));
      HistoriesSnoc(plays, Play(turn, pending), o.histories);
    }

    /** The messages that came in during a turn are queued, and steering is drained. */
    method TakeIn(turn: Turn) returns (pending: seq<Chat>)
      requires steeringQueue != followUpQueue
      modifies steeringQueue`messages, followUpQueue`messages
      ensures QueuesNow() == QueuesAfter(old(QueuesNow()), turn)
      ensures pending == Drained(old(QueuesNow()).steering + turn.steering, old(QueuesNow()).steeringAll)
    {
      steeringQueue.EnqueueAll(turn.steering);
      followUpQueue.EnqueueAll(turn.followUps);
      ghost var steering := steeringQueue.messages;
      pending := steeringQueue.Drain();
      DrainedIs(steering, steeringQueue.all, pending, steeringQueue.messages);
    }

    /** The inner loop: turns follow each other while the model wants more or messages are pending, or until one ends
        the run. */
    method RunTurns(turns: seq<Turn>, cancelled: Stream, from: nat, context: seq<Chat>, soFar: seq<Chat>,
                    pending0: seq<Chat>, first0: bool, ghost o: Origin, ghost plays0: seq<Play>,
                    ghost ends0: seq<Histories>)
      returns (after: seq<Chat>, all: seq<Chat>, k: nat, ended: bool, ghost plays: seq<Play>,
               ghost ends: seq<Histories>)
      requires steeringQueue != followUpQueue && from <= |turns| && first0 == (plays0 == [])
      requires (forall t :: t in turns ==> Playable(t)) && Ends(cancelled)
      requires Tracks(o, plays0, context, soFar, ends0, [])
      modifies `messages, `streaming, `pendingTools, `failed, `log, steeringQueue`messages, followUpQueue`messages
      ensures Tracks(o, plays, after, all, ends, if ended then [AgentEnd(all)] else [])
      ensures plays != [] && (!ended ==> from < k <= |turns|)
      ensures Prepend(plays0, RunFrom(turns, cancelled, from, old(QueuesNow()), pending0, true)) ==
              if ended then Run(plays, QueuesNow())
              else Prepend(plays, RunFrom(turns, cancelled, k, QueuesNow(), [], false))
    {
      hide MessageEnds, Playable, Ends, CancelledTurn, Tracks, TraceAll, AddedAll, RunFrom, EndsRun, WantsMore,
           Prepend, QueuesAfter, Drained, Left;
      ghost var target := Prepend(plays0, RunFrom(turns, cancelled, from, QueuesNow(), pending0, true));
      after, all, k, ended, plays, ends := context, soFar, from, false, plays0, ends0;
      var pending, first, hasMore := pending0, first0, true;
      while hasMore || |pending| > 0
        invariant from <= k <= |turns| && (k == from ==> hasMore) && (k > from ==> plays != [])
                  && first == (plays == [])
        invariant Tracks(o, plays, after, all, ends, [])
        invariant target == Prepend(plays, RunFrom(turns, cancelled, k, QueuesNow(), pending, hasMore))
        decreases |turns| - k
      {
        var turn := if k < |turns| then turns[k] else CancelledTurn(cancelled);
        CancelledPlayable(cancelled);
        RunStep(turns, cancelled, k, QueuesNow(), pending, hasMore);
        ghost var played := Play(turn, pending);
        after, all, hasMore, ended, ends := PlayTurn(turn, after, all, pending, first, o, plays, ends);
        first := false;
        if ended {
          PrependLast(plays, played, QueuesNow());
          plays := plays + [played];
          return;
        }
        k := k + 1;
        pending := TakeIn(turn);
        PrependSnoc(plays, played, RunFrom(turns, cancelled, k, QueuesNow(), pending, hasMore));
        plays := plays + [played];
      }
    }

    /** The turn loop: turns follow each other while the model wants more or messages are pending, then follow-ups are
        taken up, until the run ends. It plays exactly the turns of the reference, announces exactly their events, ends
        with one agent-end event, and leaves the queues as the reference does. */
    method RunLoop(context: seq<Chat>, newMessages: seq<Chat>, turns: seq<Turn>, cancelled: Stream, skipFirstPoll: bool)
      returns (after: seq<Chat>, all: seq<Chat>, ghost run: Run, ghost ends: seq<Histories>)
      requires Settled() && steeringQueue != followUpQueue
      requires (forall t :: t in turns ==> Playable(t)) && Ends(cancelled)
      modifies `messages, `streaming, `pendingTools, `failed, `log, steeringQueue`messages, followUpQueue`messages
      ensures run == RunOf(turns, cancelled, old(QueuesNow()), skipFirstPoll)
      ensures all == newMessages + AddedAll(run.plays) && log == old(log) + TraceAll(run.plays) + [AgentEnd(all)]
      ensures MessageEnds(log) == MessageEnds(old(log)) + AddedAll(run.plays)
      ensures QueuesNow() == run.queues && Settled()
      ensures ends == EndsOf(run.plays, Histories(old(messages), context))
      ensures Histories(messages, after) == HistoriesAfter(run.plays, Histories(old(messages), context))
    {
      hide MessageEnds, Playable, Ends, CancelledTurn, Tracks, TraceAll, AddedAll, RunFrom, EndsRun, WantsMore,
           Prepend, QueuesAfter, Drained, Left, HistoriesAfter, EndsOf;
      ghost var o := Origin(newMessages, log, Histories(messages, context));
      ghost var plays: seq<Play>, queues0 := [], QueuesNow();
      after, all, ends := context, newMessages, [];
      NothingPlayed(o, MessageEnds(log));
      TracksMeans(o, plays, after, all, ends, []);
      var k, first := 0, true;
      var pending: seq<Chat> := [];
      if !skipFirstPoll {
        pending := steeringQueue.Drain();
        DrainedIs(queues0.steering, queues0.steeringAll, pending, steeringQueue.messages);
      }
      NothingDone(RunFrom(turns, cancelled, 0, QueuesNow(), pending, true));
      while true
        invariant k <= |turns| && first == (plays == []) && Tracks(o, plays, after, all, ends, [])
        invariant RunOf(turns, cancelled, queues0, skipFirstPoll) ==
                  Prepend(plays, RunFrom(turns, cancelled, k, QueuesNow(), pending, true))
        decreases |turns| - k
      {
        var ended;
        after, all, k, ended, plays, ends := RunTurns(turns, cancelled, k, after, all, pending, first, o, plays, ends);
        first := false;
        if ended {
          TracksMeans(o, plays, after, all, ends, [AgentEnd(all)]);
          run := Run(plays, QueuesNow());
          return;
        }
        RunStep(turns, cancelled, k, QueuesNow(), [], false);
        ghost var queues1 := QueuesNow();
        var followUps := followUpQueue.Drain();
        DrainedIs(queues1.followUps, queues1.followUpsAll, followUps, followUpQueue.messages);
        if |followUps| == 0 {
          PrependEnd(plays, QueuesNow());
          break;
        }
        pending := followUps;
      }
      run := Run(plays, QueuesNow());
      TracksMeans(o, plays, after, all, ends, []);
      assert o.log + TraceAll(plays) + [] == o.log + TraceAll(plays);
      ProcessEvents(AgentEnd(all));
    }

    function QueuesNow(): Queues
      reads steeringQueue, followUpQueue
    {
      Queues(steeringQueue.messages, steeringQueue.all, followUpQueue.messages, followUpQueue.all)
    }

    /** A run from prompts: they are announced, join the transcript, and the loop goes on from there. */
    method RunAgentLoop(prompts: seq<Chat>, turns: seq<Turn>, cancelled: Stream, skipFirstPoll: bool)
      returns (after: seq<Chat>, all: seq<Chat>, ghost run: Run, ghost ends: seq<Histories>)
      requires Settled() && steeringQueue != followUpQueue
      requires (forall t :: t in turns ==> Playable(t)) && Ends(cancelled)
      modifies `messages, `streaming, `pendingTools, `failed, `log, steeringQueue`messages, followUpQueue`messages
      ensures run == RunOf(turns, cancelled, old(QueuesNow()), skipFirstPoll) && QueuesNow() == run.queues && Settled()
      ensures all == prompts + AddedAll(run.plays)
      ensures log == old(log) + RunTrace(prompts, run.plays)
      ensures MessageEnds(log) == MessageEnds(old(log)) + all
      ensures ends == EndsOf(run.plays, Histories(old(messages) + prompts, old(messages) + prompts))
      ensures Histories(messages, after) ==
              HistoriesAfter(run.plays, Histories(old(messages) + prompts, old(messages) + prompts))
      ensures OneStartEach(turns, cancelled) ==> messages == after && AllAgree(ends)
      ensures NeverSwaps(run.plays) ==> messages == old(messages) + all
    {
      hide MessageEnds, Playable, OneStart, OneStartEach, AllAgree, Ends, Announce, TraceAll, AddedAll, RunOf,
           NeverSwaps, EndsOf, HistoriesAfter;
      ghost var log0, messages0 := log, messages;
      var context := messages + prompts;
      ProcessEvents(AgentStart);
      ProcessEvents(TurnStart);
      EmitMessages(prompts);
      after, all, run, ends := RunLoop(context, prompts, turns, cancelled, skipFirstPoll);
      Associate(MessageEnds(log0), prompts, AddedAll(run.plays));
      Associate(messages0, prompts, AddedAll(run.plays));
      if OneStartEach(turns, cancelled) {
        RunEndsAgree(turns, cancelled, old(QueuesNow()), skipFirstPoll, context);
      }
      if NeverSwaps(run.plays) {
        WithoutSwap(run.plays, Histories(context, context));
      }
    }

    /** Takes the one run slot. */
    method StartRun()
      requires !active
      modifies `active, `streaming, `failed
      ensures active && streaming == None && !failed
    {
      active, streaming, failed := true, None, false;
    }

    /** Gives the run slot back and leaves nothing streaming or in flight. */
    method FinishRun()
      modifies `active, `streaming, `pendingTools
      ensures !active && Settled()
    {
      active, streaming, pendingTools := false, None, {};
    }

    /** Starts a run from prompts, unless one is going on. */
    method Prompt(prompts: seq<Chat>, turns: seq<Turn>, cancelled: Stream) returns (busy: bool, ghost run: Run)
      requires steeringQueue != followUpQueue && (!active ==> pendingTools == {})
      requires (forall t :: t in turns ==> Playable(t)) && Ends(cancelled)
      modifies `active, `messages, `streaming, `pendingTools, `failed, `log, steeringQueue`messages,
               followUpQueue`messages
      ensures busy == old(active)
      ensures busy ==> State() == old(State()) && log == old(log) && QueuesNow() == old(QueuesNow()) && active
      ensures !busy ==>
              !active && Settled() && run == RunOf(turns, cancelled, old(QueuesNow()), false)
              && QueuesNow() == run.queues
      ensures !busy ==> log == old(log) + RunTrace(prompts, run.plays)
      ensures !busy && NeverSwaps(run.plays) ==> messages == old(messages) + prompts + AddedAll(run.plays)
    {
      hide MessageEnds, Playable, OneStartEach, AllAgree, Ends, TraceAll, AddedAll, RunOf, NeverSwaps, RunTrace,
           EndsOf, HistoriesAfter;
      if active {
        run := Run([], QueuesNow());
        return true, run;
      }
      busy := false;
      StartRun();
      var after, all;
      ghost var ends;
      after, all, run, ends := RunAgentLoop(prompts, turns, cancelled, false);
      Associate(old(messages), prompts, AddedAll(run.plays));
      FinishRun();
    }

    /** Resumes from the transcript. After an assistant's message queued steering, or else follow-ups, become the
        prompts; without any there is nothing to go on from. */
    method Continue(turns: seq<Turn>, cancelled: Stream)
      returns (r: Continuation, ghost prompts: seq<Chat>, ghost run: Run)
      requires steeringQueue != followUpQueue && (!active ==> pendingTools == {})
      requires (forall t :: t in turns ==> Playable(t)) && Ends(cancelled)
      modifies `active, `messages, `streaming, `pendingTools, `failed, `log, steeringQueue`messages,
               followUpQueue`messages
      ensures r == ContinuationOf(old(active), old(messages), old(QueuesNow()))
      ensures !r.Resumed? ==>
              State() == old(State()) && log == old(log) && QueuesNow() == old(QueuesNow()) && active == old(active)
      ensures r.Resumed? ==>
                && prompts == r.prompts && run == RunOf(turns, cancelled, r.queues, r.skipFirstPoll)
                   && QueuesNow() == run.queues
                && !active && Settled() && log == old(log) + RunTrace(prompts, run.plays)
                && (NeverSwaps(run.plays) ==> messages == old(messages) + prompts + AddedAll(run.plays))
    {
      hide MessageEnds, Playable, OneStartEach, AllAgree, Ends, TraceAll, AddedAll, RunOf, NeverSwaps, RunTrace,
           EndsOf, HistoriesAfter;
      prompts, run := [], Run([], QueuesNow());
      if active {
        return Busy, prompts, run;
      }
      if |messages| == 0 {
        return NothingToContinue, prompts, run;
      }
      var queued: seq<Chat>, skip := [], false;
      ghost var queues0 := QueuesNow();
      if messages[|messages| - 1].Assistant? {
        queued := steeringQueue.Drain();
        DrainedIs(queues0.steering, queues0.steeringAll, queued, steeringQueue.messages);
        if |queued| > 0 {
          skip := true;
        } else {
          queued := followUpQueue.Drain();
          DrainedIs(queues0.followUps, queues0.followUpsAll, queued, followUpQueue.messages);
          if |queued| == 0 {
            return LastIsAssistant, prompts, run;
          }
        }
      }
      prompts := queued;
      r := Resumed(queued, QueuesNow(), skip);
      StartRun();
      var after, all;
      ghost var ends;
      after, all, run, ends := RunAgentLoop(queued, turns, cancelled, skip);
      Associate(old(messages), prompts, AddedAll(run.plays));
      FinishRun();
    }

    lemma TracksMeans(o: Origin, plays: seq<Play>, after: seq<Chat>, all: seq<Chat>, ends: seq<Histories>,
                      tail: seq<AgentEvent>)
      ensures Tracks(o, plays, after, all, ends, tail) <==>
              && Settled()
              && log == o.log + TraceAll(plays) + tail && all == o.newMessages + AddedAll(plays)
              && MessageEnds(log) == MessageEnds(o.log) + AddedAll(plays)
              && Histories(messages, after) == HistoriesAfter(plays, o.histories) && ends == EndsOf(plays, o.histories)
    {
    }
  }

  // ----- The reference: which turns a run plays -----

  /** A turn with the messages that were pending when it began. */
  datatype Play = Play(turn: Turn, pending: seq<Chat>)

  /** The two histories of a run: the transcript the agent rebuilds from events, and the context the loop sends. */
  datatype Histories = Histories(transcript: seq<Chat>, context: seq<Chat>)

  /** Where a run began. */
  datatype Origin = Origin(newMessages: seq<Chat>, log: seq<AgentEvent>, histories: Histories)

  /** At a turn's end: the transcript has gained the announced messages, the context a slot for each start event. */
  function AtEnd(p: Play, h: Histories): Histories {
    Histories(h.transcript + AddedBy(p.turn, p.pending),
              h.context + (p.pending + Grown(p.turn.stream, 0, []) + ResultsOf(p.turn)))
  }

  /** After the next-turn hook, which may replace both by a compacted history. */
  function AfterHook(p: Play, h: Histories): Histories {
    if SwapsContext(p.turn) then Histories(p.turn.compacted.value, p.turn.compacted.value) else AtEnd(p, h)
  }

  function HistoriesAfter(plays: seq<Play>, start: Histories): Histories {
    if plays == [] then start else AfterHook(plays[|plays| - 1], HistoriesAfter(plays[..|plays| - 1], start))
  }

  /** Both histories at the end of each turn. */
  function EndsOf(plays: seq<Play>, start: Histories): seq<Histories> {
    if plays == [] then []
    else
      var front := plays[..|plays| - 1];
      EndsOf(front, start) + [AtEnd(plays[|plays| - 1], HistoriesAfter(front, start))]
  }

  datatype Queues = Queues(steering: seq<Chat>, steeringAll: bool, followUps: seq<Chat>, followUpsAll: bool)

  datatype Run = Run(plays: seq<Play>, queues: Queues)

  function Drained(queue: seq<Chat>, all: bool): seq<Chat> {
    if all then queue else if queue == [] then [] else [queue[0]]
  }

  function Left(queue: seq<Chat>, all: bool): seq<Chat> {
    if all || queue == [] then [] else queue[1..]
  }

  function TurnAt(turns: seq<Turn>, cancelled: Stream, k: nat): Turn {
    if k < |turns| then turns[k] else CancelledTurn(cancelled)
  }

  /** The queues once a turn's own messages have come in and steering has been drained. */
  function QueuesAfter(q: Queues, t: Turn): Queues {
    q.(steering := Left(q.steering + t.steering, q.steeringAll), followUps := q.followUps + t.followUps)
  }

  function RunFrom(turns: seq<Turn>, cancelled: Stream, k: nat, q: Queues, pending: seq<Chat>, hasMore: bool): Run
    requires k <= |turns|
    decreases |turns| - k, !hasMore
  {
    if hasMore || pending != [] then
      var t := TurnAt(turns, cancelled, k);
      if k == |turns| || EndsRun(t) then Run([Play(t, pending)], q)
      else
        Prepend([Play(t, pending)],
                 RunFrom(turns, cancelled, k + 1, QueuesAfter(q, t), Drained(q.steering + t.steering, q.steeringAll),
                         WantsMore(t)))
    else
      var followUps := Drained(q.followUps, q.followUpsAll);
      var rest := q.(followUps := Left(q.followUps, q.followUpsAll));
      if followUps == [] then Run([], rest) else RunFrom(turns, cancelled, k, rest, followUps, true)
  }

  function Prepend(plays: seq<Play>, rest: Run): Run {
    Run(plays + rest.plays, rest.queues)
  }

  /** A whole run. It begins by draining steering, unless that was done to start it. */
  function RunOf(turns: seq<Turn>, cancelled: Stream, q: Queues, skipFirstPoll: bool): Run {
    if skipFirstPoll then RunFrom(turns, cancelled, 0, q, [], true)
    else RunFrom(turns, cancelled, 0, q.(steering := Left(q.steering, q.steeringAll)),
                 Drained(q.steering, q.steeringAll), true)
  }

  /** All a run announces: its start, its prompts, its turns, and one end with the messages it added. */
  function RunTrace(prompts: seq<Chat>, plays: seq<Play>): seq<AgentEvent> {
    [AgentStart, TurnStart] + Announce(prompts) + TraceAll(plays) + [AgentEnd(prompts + AddedAll(plays))]
  }

  /** How resuming goes on from a transcript and queues. */
  datatype Continuation =
    | Busy
    | NothingToContinue
    | LastIsAssistant
    | Resumed(prompts: seq<Chat>, queues: Queues, skipFirstPoll: bool)

  function ContinuationOf(active: bool, messages: seq<Chat>, q: Queues): Continuation {
    if active then Busy
    else if messages == [] then NothingToContinue
    else if !messages[|messages| - 1].Assistant? then Resumed([], q, false)
    else if q.steering != [] then Resumed(Drained(q.steering, q.steeringAll),
                                          q.(steering := Left(q.steering, q.steeringAll)), true)
    else if q.followUps != [] then Resumed(Drained(q.followUps, q.followUpsAll),
                                           q.(followUps := Left(q.followUps, q.followUpsAll)), false)
    else LastIsAssistant
  }

  function AddedAll(plays: seq<Play>): seq<Chat> {
    if plays == [] then []
    else AddedAll(plays[..|plays| - 1]) + AddedBy(plays[|plays| - 1].turn, plays[|plays| - 1].pending)
  }

  /** The first turn's start was announced with the run. */
  function TraceAll(plays: seq<Play>): seq<AgentEvent> {
    if plays == [] then []
    else TraceAll(plays[..|plays| - 1]) + TurnTrace(plays[|plays| - 1].turn, |plays| == 1, plays[|plays| - 1].pending)
  }

  lemma RunStep(turns: seq<Turn>, cancelled: Stream, k: nat, q: Queues, pending: seq<Chat>, hasMore: bool)
    requires k <= |turns| && Ends(cancelled)
    ensures hasMore || pending != [] ==>
              var t := TurnAt(turns, cancelled, k);
              && (k == |turns| ==> EndsRun(t))
              && RunFrom(turns, cancelled, k, q, pending, hasMore) ==
                 if EndsRun(t) then Run([Play(t, pending)], q)
                 else Prepend([Play(t, pending)],
                               RunFrom(turns, cancelled, k + 1, QueuesAfter(q, t),
                                       Drained(q.steering + t.steering, q.steeringAll), WantsMore(t)))
    ensures !hasMore && pending == [] ==>
              RunFrom(turns, cancelled, k, q, pending, hasMore) ==
              var followUps := Drained(q.followUps, q.followUpsAll);
              var rest := q.(followUps := Left(q.followUps, q.followUpsAll));
              if followUps == [] then Run([], rest) else RunFrom(turns, cancelled, k, rest, followUps, true)
  {
  }

  lemma DrainedIs(queue: seq<Chat>, all: bool, drained: seq<Chat>, rest: seq<Chat>)
    requires drained + rest == queue && |drained| == if all then |queue| else if |queue| > 0 then 1 else 0
    ensures drained == Drained(queue, all) && rest == Left(queue, all)
  {
    assert drained == queue[..|drained|] && rest == queue[|drained|..];
  }

  lemma NothingDone(r: Run)
    ensures Prepend([], r) == r
  {
    assert [] + r.plays == r.plays;
  }

  lemma PrependSnoc(before: seq<Play>, p: Play, rest: Run)
    ensures Prepend(before, Prepend([p], rest)) == Prepend(before + [p], rest)
  {
    assert before + ([p] + rest.plays) == before + [p] + rest.plays;
  }

  lemma PrependLast(plays: seq<Play>, p: Play, queues: Queues)
    ensures Prepend(plays, Run([p], queues)) == Run(plays + [p], queues)
  {
  }

  lemma PrependEnd(plays: seq<Play>, queues: Queues)
    ensures Prepend(plays, Run([], queues)) == Run(plays, queues)
  {
  }

  lemma PlaySnoc(plays: seq<Play>, p: Play, o: Origin, ended: seq<Chat>)
    ensures var added, trace := AddedBy(p.turn, p.pending), TurnTrace(p.turn, plays == [], p.pending);
            && o.newMessages + AddedAll(plays) + added == o.newMessages + AddedAll(plays + [p])
            && ended + AddedAll(plays) + added == ended + AddedAll(plays + [p])
            && o.log + TraceAll(plays) + trace == o.log + TraceAll(plays + [p])
  {
    hide AddedBy, TurnTrace;
    assert (plays + [p])[..|plays|] == plays;
    Associate(o.newMessages, AddedAll(plays), AddedBy(p.turn, p.pending));
    Associate(ended, AddedAll(plays), AddedBy(p.turn, p.pending));
    Associate(o.log, TraceAll(plays), TurnTrace(p.turn, plays == [], p.pending));
  }

  ghost predicate NeverSwaps(plays: seq<Play>) {
    forall p :: p in plays ==> !SwapsContext(p.turn)
  }

  lemma NothingPlayed(o: Origin, ended: seq<Chat>)
    ensures o.log == o.log + TraceAll([]) + [] && o.newMessages == o.newMessages + AddedAll([])
    ensures ended == ended + AddedAll([])
    ensures HistoriesAfter([], o.histories) == o.histories && EndsOf([], o.histories) == []
  {
  }

  // ----- Both histories at every turn end -----

  lemma HistoriesSnoc(plays: seq<Play>, p: Play, start: Histories)
    ensures HistoriesAfter(plays + [p], start) == AfterHook(p, HistoriesAfter(plays, start))
    ensures EndsOf(plays + [p], start) == EndsOf(plays, start) + [AtEnd(p, HistoriesAfter(plays, start))]
  {
    hide AfterHook, AtEnd;
    assert (plays + [p])[..|plays|] == plays;
  }

  ghost predicate AllAgree(ends: seq<Histories>) {
    forall i :: 0 <= i < |ends| ==> ends[i].transcript == ends[i].context
  }

  ghost predicate OneStartPlays(plays: seq<Play>) {
    forall p :: p in plays ==> OneStart(p.turn)
  }

  /** A turn keeps transcript and context equal exactly when its stream had at most one start event. */
  lemma TurnEndAgrees(p: Play, h: Histories)
    requires h.transcript == h.context
    ensures AtEnd(p, h).transcript == AtEnd(p, h).context <==> OneStart(p.turn)
  {
    hide ResultsOf, Grown, Starts;
    var g, final := Grown(p.turn.stream, 0, []), p.turn.stream.final;
    GrownCount(p.turn.stream, 0, []);
    NoStarts(p.turn.stream);
    if |g| == 1 {
      assert g == [final];
    } else {
      assert |AtEnd(p, h).context| != |AtEnd(p, h).transcript|;
    }
  }

  lemma NoStarts(s: Stream)
    ensures Starts(s, 0) == 0
  {
  }

  /** From equal histories, transcript and context agree at every turn end of a run, across swaps, exactly when every
      stream had at most one start event. */
  lemma {:induction false} TurnEndsAgree(plays: seq<Play>, start: Histories)
    requires start.transcript == start.context
    ensures |EndsOf(plays, start)| == |plays|
    ensures AllAgree(EndsOf(plays, start)) <==> OneStartPlays(plays)
    ensures OneStartPlays(plays) ==> HistoriesAfter(plays, start).transcript == HistoriesAfter(plays, start).context
  {
    if plays != [] {
      hide EndsOf, HistoriesAfter, AtEnd, OneStart;
      var front, p := plays[..|plays| - 1], plays[|plays| - 1];
      assert plays == front + [p];
      TurnEndsAgree(front, start);
      HistoriesSnoc(front, p, start);
      if OneStartPlays(front) {
        TurnEndAgrees(p, HistoriesAfter(front, start));
      }
      AgreeSnoc(EndsOf(front, start), AtEnd(p, HistoriesAfter(front, start)));
    }
  }

  lemma AgreeSnoc(ends: seq<Histories>, e: Histories)
    ensures AllAgree(ends + [e]) <==> AllAgree(ends) && e.transcript == e.context
  {
    assert forall i :: 0 <= i < |ends| ==> (ends + [e])[i] == ends[i];
    assert (ends + [e])[|ends|] == e;
  }

  /** Without a swap the transcript at each turn end is what it was at first and all that was added up to there. */
  lemma {:induction false} WithoutSwap(plays: seq<Play>, start: Histories)
    requires NeverSwaps(plays)
    ensures |EndsOf(plays, start)| == |plays|
    ensures forall i :: 0 <= i < |plays| ==>
            EndsOf(plays, start)[i].transcript == start.transcript + AddedAll(plays[..i + 1])
    ensures HistoriesAfter(plays, start).transcript == start.transcript + AddedAll(plays)
  {
    if plays != [] {
      hide AddedBy, SwapsContext;
      var front, p := plays[..|plays| - 1], plays[|plays| - 1];
      WithoutSwap(front, start);
      Associate(start.transcript, AddedAll(front), AddedBy(p.turn, p.pending));
      forall i | 0 <= i < |plays|
        ensures EndsOf(plays, start)[i].transcript == start.transcript + AddedAll(plays[..i + 1])
      {
        if i < |front| {
          assert plays[..i + 1] == front[..i + 1];
        } else {
          assert plays[..i + 1] == plays;
        }
      }
    }
  }

  /** The turns of a run are those the model plays, or the one that a cancelled context ends. */
  lemma {:induction false} PlaysAreTurns(turns: seq<Turn>, cancelled: Stream, k: nat, q: Queues, pending: seq<Chat>,
                                         hasMore: bool, p: Play)
    requires k <= |turns| && Ends(cancelled) && p in RunFrom(turns, cancelled, k, q, pending, hasMore).plays
    ensures p.turn in turns || p.turn == CancelledTurn(cancelled)
    decreases |turns| - k, !hasMore
  {
    hide EndsRun, WantsMore, Drained, Left, QueuesAfter, RunFrom;
    RunStep(turns, cancelled, k, q, pending, hasMore);
    if hasMore || pending != [] {
      var t := TurnAt(turns, cancelled, k);
      if p != Play(t, pending) && !EndsRun(t) {
        PlaysAreTurns(turns, cancelled, k + 1, QueuesAfter(q, t), Drained(q.steering + t.steering, q.steeringAll),
                      WantsMore(t), p);
      }
    } else if Drained(q.followUps, q.followUpsAll) != [] {
      PlaysAreTurns(turns, cancelled, k, q.(followUps := Left(q.followUps, q.followUpsAll)),
                    Drained(q.followUps, q.followUpsAll), true, p);
    }
  }

  /** With at most one start event in every stream that may be played, both histories agree throughout the run. */
  lemma RunEndsAgree(turns: seq<Turn>, cancelled: Stream, q: Queues, skipFirstPoll: bool, initial: seq<Chat>)
    requires Ends(cancelled) && OneStartEach(turns, cancelled)
    ensures var plays, start := RunOf(turns, cancelled, q, skipFirstPoll).plays, Histories(initial, initial);
            && AllAgree(EndsOf(plays, start))
            && HistoriesAfter(plays, start).transcript == HistoriesAfter(plays, start).context
  {
    hide RunFrom, OneStart, CancelledTurn, Ends, AllAgree, EndsOf, HistoriesAfter;
    var plays := RunOf(turns, cancelled, q, skipFirstPoll).plays;
    forall p | p in plays
      ensures OneStart(p.turn)
    {
      if skipFirstPoll {
        PlaysAreTurns(turns, cancelled, 0, q, [], true, p);
      } else {
        PlaysAreTurns(turns, cancelled, 0, q.(steering := Left(q.steering, q.steeringAll)),
                      Drained(q.steering, q.steeringAll), true, p);
      }
    }
    TurnEndsAgree(plays, Histories(initial, initial));
  }

  /** The exception is real: a second start event leaves a second message in the context, and none in the transcript. */
  lemma TwoStartsExample()
    ensures var draft, final := Assistant(0, 0, Completed), Assistant(1, 0, Completed);
            var stream := Stream([(Opens, draft), (Opens, draft)], final);
            var end := AtEnd(Play(Turn(stream, [], None, false, [], []), []), Histories([], []));
            end.transcript == [final] && end.context == [draft, final]
  {
    var draft, final := Assistant(0, 0, Completed), Assistant(1, 0, Completed);
    var s := Stream([(Opens, draft), (Opens, draft)], final);
    var none: seq<Chat> := [];
    assert none + [draft] == [draft] && [draft] + [draft] == [draft, draft];
    assert Grown(s, 2, [draft, draft]) == [draft, final];
    assert Grown(s, 1, [draft]) == Grown(s, 2, [draft, draft]);
    assert Grown(s, 0, []) == Grown(s, 1, [draft]);
  }

  /** A turn that broke off has no results. */
  lemma BrokenTurn(t: Turn, first: bool, pending: seq<Chat>, log: seq<AgentEvent>, context: seq<Chat>, grown: seq<Chat>)
    requires t.stream.final.Assistant? && t.stream.final.stop != Completed
    ensures ResultsOf(t) == [] && !WantsMore(t) && AddedBy(t, pending) == pending + [t.stream.final]
    ensures grown + ResultsOf(t) == grown
    ensures log + ((if first then [] else [TurnStart]) + Announce(pending) + StreamTrace(t.stream, 0, false))
            + [TurnEnd(t.stream.final, [])] ==
            log + TurnTrace(t, first, pending)
  {
    hide Announce, StreamTrace;
    var opening := (if first then [] else [TurnStart]) + Announce(pending) + StreamTrace(t.stream, 0, false);
    assert opening + [] == opening;
  }

  lemma WholeTurn(t: Turn, first: bool, pending: seq<Chat>, log: seq<AgentEvent>)
    requires t.stream.final.Assistant? && t.stream.final.stop == Completed
    ensures AddedBy(t, pending) == pending + [t.stream.final] + ResultsOf(t)
    ensures log + ((if first then [] else [TurnStart]) + Announce(pending) + StreamTrace(t.stream, 0, false))
            + (if CallsTools(t) then ForwardAll(t.tools) else []) + [TurnEnd(t.stream.final, ResultsOf(t))] ==
            log + TurnTrace(t, first, pending)
  {
    hide Announce, StreamTrace, ForwardAll, ResultsOf, CallsTools;
    var opening := (if first then [] else [TurnStart]) + Announce(pending) + StreamTrace(t.stream, 0, false);
  }

  // ----- Which turn comes next -----

  /** The reply is whole, and the next-turn hook did not stop the run. */
  predicate GoesOn(t: Turn) {
    t.stream.final.Assistant? && t.stream.final.stop == Completed && !t.stop
  }

  /** Some tool has a result that does not ask to stop, or tools were called and none has a result. */
  predicate SomeToolGoesOn(t: Turn) {
    && t.stream.final.Assistant? && t.stream.final.toolCalls > 0
    && ((exists e :: e in t.tools && e.Message? && !e.result.terminate) || (forall e :: e in t.tools ==> !e.Message?))
  }

  /** Polling a queue takes all of it, or one message, from the front. */
  ghost predicate IsPoll(queue: seq<Chat>, all: bool, taken: seq<Chat>, left: seq<Chat>) {
    taken + left == queue && |taken| == if all then |queue| else if |queue| > 1 then 1 else |queue|
  }

  /** What comes after a play begun with these queues: nothing, or a play with these messages pending. */
  ghost predicate Follows(q: Queues, p: Play, next: Option<seq<Chat>>, after: Queues) {
    if !GoesOn(p.turn) then next == None && after == q
    else
      exists steering, left :: IsPoll(q.steering + p.turn.steering, q.steeringAll, steering, left)
                               && FollowsPolled(q, p, steering, left, next, after)
  }

  /** Tools or steering make another turn. Only without either are follow-ups polled. */
  ghost predicate FollowsPolled(q: Queues, p: Play, steering: seq<Chat>, left: seq<Chat>, next: Option<seq<Chat>>,
                                after: Queues) {
    if SomeToolGoesOn(p.turn) || steering != []
    then next == Some(steering) && after == q.(steering := left, followUps := q.followUps + p.turn.followUps)
    else
      exists followUps, rest :: IsPoll(q.followUps + p.turn.followUps, q.followUpsAll, followUps, rest)
                                && next == (if followUps == [] then None else Some(followUps))
                                && after == q.(steering := left, followUps := rest)
  }

  /** `begun` has the queues as each play begins, and in the end. */
  ghost predicate IsCourse(turns: seq<Turn>, cancelled: Stream, k: nat, run: Run, begun: seq<Queues>) {
    && |begun| == |run.plays| + 1 && begun[|run.plays|] == run.queues
    && (forall i :: 0 <= i < |run.plays| ==> IsTurn(turns, cancelled, k + i, run.plays[i].turn))
    && (forall i :: 0 <= i < |run.plays| ==> FollowsAt(run, begun, i))
  }

  /** The turns are taken in order; once they are used up the context is cancelled. */
  ghost predicate IsTurn(turns: seq<Turn>, cancelled: Stream, k: nat, t: Turn) {
    k <= |turns| && t == if k < |turns| then turns[k] else CancelledTurn(cancelled)
  }

  ghost predicate FollowsAt(run: Run, begun: seq<Queues>, i: nat)
    requires i < |run.plays| && |begun| == |run.plays| + 1
  {
    Follows(begun[i], run.plays[i], if i + 1 < |run.plays| then Some(run.plays[i + 1].pending) else None, begun[i + 1])
  }

  lemma {:induction false} MessagesAre(events: seq<ToolExecutor.Event>)
    ensures forall e :: e in ToolExecutor.Messages(events) <==> e in events && e.Message?
  {
    if events != [] {
      MessagesAre(events[..|events| - 1]);
      assert events == events[..|events| - 1] + [events[|events| - 1]];
    }
  }

  lemma WantsMoreMeans(t: Turn)
    requires Playable(t)
    ensures GoesOn(t) <==> !EndsRun(t)
    ensures GoesOn(t) ==> (WantsMore(t) <==> SomeToolGoesOn(t))
  {
    hide ToolExecutor.Messages;
    PlayableMeans(t);
    MessagesAre(t.tools);
    var messages := ToolExecutor.Messages(t.tools);
    assert messages == [] <==> forall e :: e in t.tools ==> !e.Message? by {
      if messages != [] {
        assert messages[0] in messages;
      }
    }
  }

  lemma DrainIsPoll(queue: seq<Chat>, all: bool)
    ensures IsPoll(queue, all, Drained(queue, all), Left(queue, all))
  {
    DrainSplits(queue, all);
  }

  /** A turn that leads straight to another one. */
  lemma TurnFollows(q: Queues, t: Turn, pending: seq<Chat>)
    requires Playable(t) && !EndsRun(t)
    requires WantsMore(t) || Drained(q.steering + t.steering, q.steeringAll) != []
    ensures Follows(q, Play(t, pending), Some(Drained(q.steering + t.steering, q.steeringAll)), QueuesAfter(q, t))
  {
    hide Playable, WantsMore, Drained, Left, EndsRun, GoesOn, SomeToolGoesOn, IsPoll;
    WantsMoreMeans(t);
    DrainIsPoll(q.steering + t.steering, q.steeringAll);
    assert FollowsPolled(q, Play(t, pending), Drained(q.steering + t.steering, q.steeringAll),
                         Left(q.steering + t.steering, q.steeringAll),
                         Some(Drained(q.steering + t.steering, q.steeringAll)), QueuesAfter(q, t));
  }

  /** A turn after which follow-ups decide. */
  lemma FollowUpsFollow(q: Queues, t: Turn, pending: seq<Chat>)
    requires Playable(t) && !EndsRun(t)
    requires !WantsMore(t) && Drained(q.steering + t.steering, q.steeringAll) == []
    ensures var mid := QueuesAfter(q, t);
            var followUps := Drained(mid.followUps, mid.followUpsAll);
            Follows(q, Play(t, pending), if followUps == [] then None else Some(followUps),
                    mid.(followUps := Left(mid.followUps, mid.followUpsAll)))
  {
    hide Playable, WantsMore, Drained, Left, EndsRun, GoesOn, SomeToolGoesOn, IsPoll;
    WantsMoreMeans(t);
    var mid := QueuesAfter(q, t);
    DrainIsPoll(q.steering + t.steering, q.steeringAll);
    DrainIsPoll(mid.followUps, mid.followUpsAll);
    var followUps := Drained(mid.followUps, mid.followUpsAll);
    assert FollowsPolled(q, Play(t, pending), [], Left(q.steering + t.steering, q.steeringAll),
                         if followUps == [] then None else Some(followUps),
                         mid.(followUps := Left(mid.followUps, mid.followUpsAll)));
  }

  lemma CourseCons(turns: seq<Turn>, cancelled: Stream, k: nat, q: Queues, p: Play, next: Run, begun: seq<Queues>)
    requires IsTurn(turns, cancelled, k, p.turn) && next.plays != [] && IsCourse(turns, cancelled, k + 1, next, begun)
    requires Follows(q, p, Some(next.plays[0].pending), begun[0])
    ensures IsCourse(turns, cancelled, k, Prepend([p], next), [q] + begun)
  {
    hide Follows, IsTurn;
    var run, all := Prepend([p], next), [q] + begun;
    forall i | 0 <= i < |run.plays|
      ensures IsTurn(turns, cancelled, k + i, run.plays[i].turn) && FollowsAt(run, all, i)
    {
      if i > 0 {
        assert IsTurn(turns, cancelled, k + 1 + (i - 1), next.plays[i - 1].turn) && FollowsAt(next, begun, i - 1);
      }
    }
  }

  lemma CourseEnds(turns: seq<Turn>, cancelled: Stream, k: nat, q: Queues, p: Play, after: Queues)
    requires IsTurn(turns, cancelled, k, p.turn) && Follows(q, p, None, after)
    ensures IsCourse(turns, cancelled, k, Run([p], after), [q, after])
  {
  }

  /** From a play that has to come, the run follows its course. */
  lemma {:induction false} RunFollowsFrom(turns: seq<Turn>, cancelled: Stream, k: nat, q: Queues, pending: seq<Chat>,
                                          hasMore: bool) returns (begun: seq<Queues>)
    requires k <= |turns| && Ends(cancelled) && (forall t :: t in turns ==> Playable(t)) && (hasMore || pending != [])
    ensures var run := RunFrom(turns, cancelled, k, q, pending, hasMore);
            && run.plays != [] && run.plays[0].pending == pending
            && IsCourse(turns, cancelled, k, run, begun) && begun[0] == q
    decreases |turns| - k
  {
    hide Playable, Ends, WantsMore, Drained, Left, EndsRun, RunFrom, Follows, CancelledTurn, QueuesAfter, IsCourse;
    RunStep(turns, cancelled, k, q, pending, hasMore);
    CancelledPlayable(cancelled);
    var t := TurnAt(turns, cancelled, k);
    var p := Play(t, pending);
    if EndsRun(t) {
      StoppedFollows(q, p);
      CourseEnds(turns, cancelled, k, q, p, q);
      begun := [q, q];
    } else {
      var mid, steering := QueuesAfter(q, t), Drained(q.steering + t.steering, q.steeringAll);
      if WantsMore(t) || steering != [] {
        TurnFollows(q, t, pending);
        var rest := RunFollowsFrom(turns, cancelled, k + 1, mid, steering, WantsMore(t));
        CourseCons(turns, cancelled, k, q, p, RunFrom(turns, cancelled, k + 1, mid, steering, WantsMore(t)), rest);
        begun := [q] + rest;
      } else {
        FollowUpsFollow(q, t, pending);
        RunStep(turns, cancelled, k + 1, mid, [], false);
        var followUps := Drained(mid.followUps, mid.followUpsAll);
        var last := mid.(followUps := Left(mid.followUps, mid.followUpsAll));
        if followUps == [] {
          PrependEnd([p], last);
          CourseEnds(turns, cancelled, k, q, p, last);
          begun := [q, last];
        } else {
          var rest := RunFollowsFrom(turns, cancelled, k + 1, last, followUps, true);
          CourseCons(turns, cancelled, k, q, p, RunFrom(turns, cancelled, k + 1, last, followUps, true), rest);
          begun := [q] + rest;
        }
      }
    }
  }

  lemma StoppedFollows(q: Queues, p: Play)
    requires Playable(p.turn) && EndsRun(p.turn)
    ensures Follows(q, p, None, q)
  {
    hide Playable, WantsMore;
    WantsMoreMeans(p.turn);
  }

  /** What a run plays, turn by turn. It begins with the steering that is queued, unless that was polled to start it. A
      turn that broke off or was stopped is the last one; one after which some tool goes on, or steering is queued, is
      followed by a turn with that steering pending; otherwise one with follow-ups comes next, if there are any. */
  lemma RunFollows(turns: seq<Turn>, cancelled: Stream, q: Queues, skipFirstPoll: bool) returns (begun: seq<Queues>)
    requires Ends(cancelled) && (forall t :: t in turns ==> Playable(t))
    ensures var run := RunOf(turns, cancelled, q, skipFirstPoll);
            && run.plays != [] && IsCourse(turns, cancelled, 0, run, begun)
            && if skipFirstPoll then run.plays[0].pending == [] && begun[0] == q
               else IsPoll(q.steering, q.steeringAll, run.plays[0].pending, begun[0].steering)
                    && begun[0] == q.(steering := begun[0].steering)
  {
    hide Playable, Ends, Drained, Left, RunFrom, IsCourse, IsPoll;
    if skipFirstPoll {
      begun := RunFollowsFrom(turns, cancelled, 0, q, [], true);
    } else {
      DrainIsPoll(q.steering, q.steeringAll);
      begun := RunFollowsFrom(turns, cancelled, 0, q.(steering := Left(q.steering, q.steeringAll)),
                              Drained(q.steering, q.steeringAll), true);
    }
  }

  /** In particular a tool that does not ask to stop is always answered by another turn. */
  lemma ToolsAreAnswered(turns: seq<Turn>, cancelled: Stream, q: Queues, skipFirstPoll: bool, i: nat)
    requires Ends(cancelled) && (forall t :: t in turns ==> Playable(t))
    requires i < |RunOf(turns, cancelled, q, skipFirstPoll).plays|
    ensures var plays := RunOf(turns, cancelled, q, skipFirstPoll).plays;
            && IsTurn(turns, cancelled, i, plays[i].turn)
            && (GoesOn(plays[i].turn) && SomeToolGoesOn(plays[i].turn) ==> i + 1 < |plays|)
            && (!GoesOn(plays[i].turn) ==> i + 1 == |plays|)
  {
    hide RunOf, GoesOn, SomeToolGoesOn, IsTurn, Ends, Playable;
    var run := RunOf(turns, cancelled, q, skipFirstPoll);
    var begun := RunFollows(turns, cancelled, q, skipFirstPoll);
    assert FollowsAt(run, begun, i) && IsTurn(turns, cancelled, 0 + i, run.plays[i].turn);
  }

  // ----- The shape of a run's events -----

  /** Where a listener is: outside a run, between turns, or in a turn with a message open or none. */
  datatype Place = Outside | Between | InTurn(open: bool)

  /** Runs hold turns, turns hold messages and tool events, and a message is updated and ended only while it is open. */
  function Enter(p: Place, ev: AgentEvent): Option<Place> {
    match ev
    case AgentStart => if p.Outside? then Some(Between) else None
    case TurnStart => if p.Between? then Some(InTurn(false)) else None
    case MessageStart(_) => if p.InTurn? then Some(InTurn(true)) else None
    case MessageUpdate(_) => if p == InTurn(true) then Some(p) else None
    case MessageEnd(_) => if p == InTurn(true) then Some(InTurn(false)) else None
    case TurnEnd(_, _) => if p == InTurn(false) then Some(Between) else None
    case AgentEnd(_) => if p.Between? then Some(Outside) else None
    case _ => if p == InTurn(false) then Some(p) else None
  }

  function EnterAll(p: Place, events: seq<AgentEvent>): Option<Place> {
    if events == [] then Some(p)
    else
      var before := EnterAll(p, events[..|events| - 1]);
      if before.None? then None else Enter(before.value, events[|events| - 1])
  }

  lemma {:induction false} EnterAppend(p: Place, a: seq<AgentEvent>, b: seq<AgentEvent>)
    ensures EnterAll(p, a).Some? ==> EnterAll(p, a + b) == EnterAll(EnterAll(p, a).value, b)
  {
    if b == [] {
      assert a + b == a;
    } else {
      assert (a + b)[..|a + b| - 1] == a + b[..|b| - 1];
      EnterAppend(p, a, b[..|b| - 1]);
    }
  }

  lemma EnterOne(p: Place, ev: AgentEvent)
    ensures EnterAll(p, [ev]) == Enter(p, ev) && EnterAll(p, []) == Some(p)
  {
    assert [ev][..0] == [];
  }

  lemma EnterTwo(p: Place, e: AgentEvent, f: AgentEvent)
    requires Enter(p, e).Some?
    ensures EnterAll(p, [e, f]) == Enter(Enter(p, e).value, f)
  {
    EnterOne(p, e);
    assert [e, f][..1] == [e];
  }

  lemma {:induction false} AnnounceEntered(ms: seq<Chat>)
    ensures EnterAll(InTurn(false), Announce(ms)) == Some(InTurn(false))
  {
    if ms != [] {
      var m := ms[|ms| - 1];
      AnnounceEntered(ms[..|ms| - 1]);
      EnterTwo(InTurn(false), MessageStart(m), MessageEnd(m));
      EnterAppend(InTurn(false), Announce(ms[..|ms| - 1]), [MessageStart(m), MessageEnd(m)]);
    }
  }

  lemma {:induction false} StreamEntered(s: Stream, i: nat, added: bool)
    requires i <= |s.events|
    ensures EnterAll(InTurn(added), StreamTrace(s, i, added)) == Some(InTurn(false))
    decreases |s.events| - i
  {
    hide EnterAll;
    if i == |s.events| || s.events[i].0.Finishes? {
      EnterOne(InTurn(true), MessageEnd(s.final));
      EnterTwo(InTurn(false), MessageStart(s.final), MessageEnd(s.final));
      assert [MessageStart(s.final)] + [MessageEnd(s.final)] == [MessageStart(s.final), MessageEnd(s.final)];
      assert [] + [MessageEnd(s.final)] == [MessageEnd(s.final)];
    } else {
      var opens := s.events[i].0.Opens?;
      StreamEntered(s, i + 1, added || opens);
      var ev := if opens then MessageStart(s.events[i].1) else MessageUpdate(s.events[i].1);
      EnterOne(InTurn(added), ev);
      if opens || added {
        EnterAppend(InTurn(added), [ev], StreamTrace(s, i + 1, true));
      }
    }
  }

  lemma ForwardOneEntered(e: ToolExecutor.Event)
    ensures EnterAll(InTurn(false), Forward(e)) == Some(InTurn(false))
  {
    hide EnterAll;
    if e.Message? {
      EnterTwo(InTurn(false), MessageStart(ToolResult(e.call, e.result)), MessageEnd(ToolResult(e.call, e.result)));
    } else {
      EnterOne(InTurn(false), Forward(e)[0]);
      assert Forward(e) == [Forward(e)[0]];
    }
  }

  lemma {:induction false} ForwardEntered(tools: seq<ToolExecutor.Event>)
    ensures EnterAll(InTurn(false), ForwardAll(tools)) == Some(InTurn(false))
  {
    hide EnterAll, Forward;
    if tools == [] {
      EnterOne(InTurn(false), AgentStart);
    } else {
      var front, last := tools[..|tools| - 1], tools[|tools| - 1];
      ForwardEntered(front);
      ForwardOneEntered(last);
      EnterAppend(InTurn(false), ForwardAll(front), Forward(last));
    }
  }

  lemma TurnEntered(t: Turn, first: bool, pending: seq<Chat>)
    ensures EnterAll(if first then InTurn(false) else Between, TurnTrace(t, first, pending)) == Some(Between)
  {
    hide EnterAll, Announce, StreamTrace, ForwardAll, ResultsOf, CallsTools;
    var p := if first then InTurn(false) else Between;
    var a := if first then [] else [TurnStart];
    var b := if CallsTools(t) then ForwardAll(t.tools) else [];
    var end := TurnEnd(t.stream.final, ResultsOf(t));
    EnterOne(p, TurnStart);
    AnnounceEntered(pending);
    EnterAppend(p, a, Announce(pending));
    StreamEntered(t.stream, 0, false);
    EnterAppend(p, a + Announce(pending), StreamTrace(t.stream, 0, false));
    ForwardEntered(t.tools);
    EnterOne(InTurn(false), end);
    EnterAppend(p, a + Announce(pending) + StreamTrace(t.stream, 0, false), b);
    EnterAppend(p, a + Announce(pending) + StreamTrace(t.stream, 0, false) + b, [end]);
  }

  lemma {:induction false} TurnsEntered(plays: seq<Play>)
    ensures EnterAll(InTurn(false), TraceAll(plays)) == Some(if plays == [] then InTurn(false) else Between)
  {
    if plays == [] {
      EnterOne(InTurn(false), AgentStart);
    } else {
      hide EnterAll, TurnTrace;
      var front, p := plays[..|plays| - 1], plays[|plays| - 1];
      TurnsEntered(front);
      TurnEntered(p.turn, |plays| == 1, p.pending);
      EnterAppend(InTurn(false), TraceAll(front), TurnTrace(p.turn, |plays| == 1, p.pending));
    }
  }

  /** A run's events are well nested: one run, its turns one after the other, each with its messages and tools, and
      every message closed before the next thing begins. */
  lemma RunIsNested(prompts: seq<Chat>, plays: seq<Play>)
    requires plays != []
    ensures EnterAll(Outside, RunTrace(prompts, plays)) == Some(Outside)
  {
    hide EnterAll, Announce, TraceAll, AddedAll;
    EnterTwo(Outside, AgentStart, TurnStart);
    AnnounceEntered(prompts);
    EnterAppend(Outside, [AgentStart, TurnStart], Announce(prompts));
    TurnsEntered(plays);
    EnterAppend(Outside, [AgentStart, TurnStart] + Announce(prompts), TraceAll(plays));
    var end := AgentEnd(prompts + AddedAll(plays));
    EnterOne(Between, end);
    EnterAppend(Outside, [AgentStart, TurnStart] + Announce(prompts) + TraceAll(plays), [end]);
  }

  /** The stream up to its first terminal event has `n` events, of which the first start event is at `o`. */
  predicate IsSpan(s: Stream, o: nat, n: nat) {
    && o <= n <= |s.events| && (n < |s.events| ==> s.events[n].0.Finishes?)
    && (forall i :: 0 <= i < n ==> !s.events[i].0.Finishes?)
    && (forall i :: 0 <= i < o ==> !s.events[i].0.Opens?) && (o < n ==> s.events[o].0.Opens?)
  }

  /** What an event of the provider announces. */
  function Shows(s: Stream, i: nat): AgentEvent
    requires i < |s.events|
  {
    if s.events[i].0.Opens? then MessageStart(s.events[i].1) else MessageUpdate(s.events[i].1)
  }

  lemma {:induction false} StreamShowsFrom(s: Stream, i: nat, o: nat, n: nat, added: bool)
    requires IsSpan(s, o, n) && i <= n && (if added then o <= i else i <= o)
    ensures var trace, k := StreamTrace(s, i, added), if added then i else o;
            if added || o < n then
              && |trace| == n - k + 1 && trace[n - k] == MessageEnd(s.final)
              && forall j :: k <= j < n ==> trace[j - k] == Shows(s, j)
            else trace == [MessageStart(s.final), MessageEnd(s.final)]
    decreases n - i
  {
    if i < n {
      StreamShowsFrom(s, i + 1, o, n, added || s.events[i].0.Opens?);
    }
  }

  /** A stream is announced event by event from its first start event on, with each partial message, and then ended with
      the final one; a stream without a start event is announced at its end. */
  lemma StreamShows(s: Stream, o: nat, n: nat)
    requires IsSpan(s, o, n)
    ensures var trace := StreamTrace(s, 0, false);
            if o < n then
              && |trace| == n - o + 1 && trace[n - o] == MessageEnd(s.final)
              && forall j :: o <= j < n ==> trace[j - o] == Shows(s, j)
            else trace == [MessageStart(s.final), MessageEnd(s.final)]
  {
    StreamShowsFrom(s, 0, o, n, false);
  }

  /** The events that end a turn or a run. */
  function Closings(events: seq<AgentEvent>): seq<AgentEvent> {
    if events == [] then []
    else
      var last := events[|events| - 1];
      Closings(events[..|events| - 1]) + if last.TurnEnd? || last.AgentEnd? then [last] else []
  }

  lemma {:induction false} ClosingsAppend(a: seq<AgentEvent>, b: seq<AgentEvent>)
    ensures Closings(a + b) == Closings(a) + Closings(b)
  {
    if b == [] {
      assert a + b == a;
    } else {
      assert (a + b)[..|a + b| - 1] == a + b[..|b| - 1];
      ClosingsAppend(a, b[..|b| - 1]);
    }
  }

  lemma ClosingsOne(ev: AgentEvent)
    ensures Closings([ev]) == (if ev.TurnEnd? || ev.AgentEnd? then [ev] else []) && Closings([]) == []
  {
    assert [ev][..0] == [];
  }

  lemma ClosingsTwo(e: AgentEvent, f: AgentEvent)
    requires !e.TurnEnd? && !e.AgentEnd? && !f.TurnEnd? && !f.AgentEnd?
    ensures Closings([e, f]) == []
  {
    ClosingsOne(e);
    assert [e, f][..1] == [e];
  }

  lemma {:induction false} AnnounceClosesNothing(ms: seq<Chat>)
    ensures Closings(Announce(ms)) == []
  {
    if ms != [] {
      var m := ms[|ms| - 1];
      AnnounceClosesNothing(ms[..|ms| - 1]);
      ClosingsTwo(MessageStart(m), MessageEnd(m));
      ClosingsAppend(Announce(ms[..|ms| - 1]), [MessageStart(m), MessageEnd(m)]);
    }
  }

  lemma {:induction false} StreamClosesNothing(s: Stream, i: nat, added: bool)
    requires i <= |s.events|
    ensures Closings(StreamTrace(s, i, added)) == []
    decreases |s.events| - i
  {
    hide Closings;
    if i == |s.events| || s.events[i].0.Finishes? {
      ClosingsOne(MessageEnd(s.final));
      ClosingsTwo(MessageStart(s.final), MessageEnd(s.final));
      assert [MessageStart(s.final)] + [MessageEnd(s.final)] == [MessageStart(s.final), MessageEnd(s.final)];
      assert [] + [MessageEnd(s.final)] == [MessageEnd(s.final)];
    } else {
      var opens := s.events[i].0.Opens?;
      StreamClosesNothing(s, i + 1, added || opens);
      var ev := if opens then MessageStart(s.events[i].1) else MessageUpdate(s.events[i].1);
      ClosingsOne(ev);
      ClosingsAppend([ev], StreamTrace(s, i + 1, true));
    }
  }

  lemma {:induction false} ForwardClosesNothing(tools: seq<ToolExecutor.Event>)
    ensures Closings(ForwardAll(tools)) == []
  {
    if tools != [] {
      var front, last := tools[..|tools| - 1], tools[|tools| - 1];
      ForwardClosesNothing(front);
      ClosingsAppend(ForwardAll(front), Forward(last));
      if last.Message? {
        ClosingsTwo(MessageStart(ToolResult(last.call, last.result)), MessageEnd(ToolResult(last.call, last.result)));
      } else {
        ClosingsOne(Forward(last)[0]);
        assert Forward(last) == [Forward(last)[0]];
      }
    }
  }

  lemma TurnCloses(t: Turn, first: bool, pending: seq<Chat>)
    ensures Closings(TurnTrace(t, first, pending)) == [TurnEnd(t.stream.final, ResultsOf(t))]
  {
    hide Closings, Announce, StreamTrace, ForwardAll, ResultsOf, CallsTools;
    var a := if first then [] else [TurnStart];
    var b := if CallsTools(t) then ForwardAll(t.tools) else [];
    var end := TurnEnd(t.stream.final, ResultsOf(t));
    ClosingsOne(TurnStart);
    ClosingsOne(end);
    AnnounceClosesNothing(pending);
    StreamClosesNothing(t.stream, 0, false);
    ForwardClosesNothing(t.tools);
    ClosingsAppend(a, Announce(pending));
    ClosingsAppend(a + Announce(pending), StreamTrace(t.stream, 0, false));
    ClosingsAppend(a + Announce(pending) + StreamTrace(t.stream, 0, false), b);
    ClosingsAppend(a + Announce(pending) + StreamTrace(t.stream, 0, false) + b, [end]);
  }

  /** The results of the tools that were run in a turn, in order. */
  function ToolResults(tools: seq<ToolExecutor.Event>): seq<Chat> {
    if tools == [] then []
    else
      var last := tools[|tools| - 1];
      ToolResults(tools[..|tools| - 1]) + if last.Message? then [ToolResult(last.call, last.result)] else []
  }

  lemma {:induction false} ResultsAreToolResults(tools: seq<ToolExecutor.Event>)
    ensures ResultMessages(ToolExecutor.Messages(tools)) == ToolResults(tools)
  {
    if tools != [] {
      var front, last := tools[..|tools| - 1], tools[|tools| - 1];
      ResultsAreToolResults(front);
      ResultMessagesAppend(ToolExecutor.Messages(front), if last.Message? then [last] else []);
    }
  }

  /** The report that ends a turn: the reply and, unless it broke off, the results of its tools. */
  function Report(t: Turn): AgentEvent {
    var reply := t.stream.final;
    TurnEnd(reply, if reply.Assistant? && reply.stop == Completed && reply.toolCalls > 0 then ToolResults(t.tools)
                   else [])
  }

  lemma TurnReports(t: Turn, first: bool, pending: seq<Chat>)
    ensures Closings(TurnTrace(t, first, pending)) == [Report(t)]
  {
    hide Closings, TurnTrace, ToolResults;
    TurnCloses(t, first, pending);
    ResultsAreToolResults(t.tools);
  }

  /** A run reports each turn once, in order, with its reply and its results. */
  lemma {:induction false} TurnsReport(plays: seq<Play>)
    ensures |Closings(TraceAll(plays))| == |plays|
    ensures forall i :: 0 <= i < |plays| ==> Closings(TraceAll(plays))[i] == Report(plays[i].turn)
  {
    hide Closings, TurnTrace, Report;
    if plays == [] {
      ClosingsOne(AgentStart);
    } else {
      var front, p := plays[..|plays| - 1], plays[|plays| - 1];
      TurnsReport(front);
      TurnReports(p.turn, |plays| == 1, p.pending);
      ClosingsAppend(TraceAll(front), TurnTrace(p.turn, |plays| == 1, p.pending));
    }
  }

  /** And at the very end, once, all messages it added. */
  lemma RunReports(prompts: seq<Chat>, plays: seq<Play>)
    ensures var reports := Closings(RunTrace(prompts, plays));
            && |reports| == |plays| + 1 && reports[|plays|] == AgentEnd(prompts + AddedAll(plays))
            && forall i :: 0 <= i < |plays| ==> reports[i] == Report(plays[i].turn)
  {
    hide Closings, TraceAll, Announce, AddedAll, Report;
    var opening, end := [AgentStart, TurnStart] + Announce(prompts), AgentEnd(prompts + AddedAll(plays));
    TurnsReport(plays);
    ClosingsTwo(AgentStart, TurnStart);
    AnnounceClosesNothing(prompts);
    ClosingsOne(end);
    ClosingsAppend([AgentStart, TurnStart], Announce(prompts));
    ClosingsAppend(opening, TraceAll(plays));
    ClosingsAppend(opening + TraceAll(plays), [end]);
  }

  /** What a turn leaves for the next: after the hook's swap both histories are the compacted one; without it the
      transcript has grown by what was pending, the reply, and the results of its tools. */
  lemma TurnLeaves(plays: seq<Play>, p: Play, start: Histories)
    requires p.turn.stream.final.Assistant?
    ensures var before, after := HistoriesAfter(plays, start), HistoriesAfter(plays + [p], start);
            var reply := p.turn.stream.final;
            if p.turn.compacted.Some? && reply.stop == Completed
            then after == Histories(p.turn.compacted.value, p.turn.compacted.value)
            else after.transcript == before.transcript + p.pending + [reply] + Report(p.turn).results
  {
    hide HistoriesAfter, ToolResults, Grown;
    HistoriesSnoc(plays, p, start);
    ResultsAreToolResults(p.turn.tools);
    Associate(HistoriesAfter(plays, start).transcript, p.pending, [p.turn.stream.final]);
    Associate(HistoriesAfter(plays, start).transcript, p.pending + [p.turn.stream.final], Report(p.turn).results);
  }

  /** A run has failed exactly when some turn's reply broke off. */
  lemma {:induction false} FailedMeans(s: Snapshot, events: seq<AgentEvent>)
    ensures ApplyAll(s, events).failed <==>
            s.failed || exists e :: e in events && e.TurnEnd? && e.message.Assistant? && e.message.stop != Completed
  {
    if events != [] {
      var front, last := events[..|events| - 1], events[|events| - 1];
      assert events == front + [last];
      FailedMeans(s, front);
    }
  }

  /** What is shown as streaming is the latest partial message, unless a message or the run has ended since. */
  lemma {:induction false} StreamingMeans(s: Snapshot, events: seq<AgentEvent>, k: nat)
    requires k < |events|
    requires forall j :: k < j < |events| ==>
               && !events[j].MessageStart? && !events[j].MessageUpdate?
               && !events[j].MessageEnd? && !events[j].AgentEnd?
    ensures events[k].MessageStart? || events[k].MessageUpdate? ==>
              ApplyAll(s, events).streaming == Some(events[k].message)
    ensures events[k].MessageEnd? || events[k].AgentEnd? ==> ApplyAll(s, events).streaming == None
  {
    if k < |events| - 1 {
      var front := events[..|events| - 1];
      assert forall j :: 0 <= j < |front| ==> front[j] == events[j];
      StreamingMeans(s, front, k);
    }
  }

  /** Steering goes before follow-ups when a run is resumed after a reply; what is taken comes from the front of its
      queue, and the other queue is left alone. */
  lemma ContinuationMeans(active: bool, messages: seq<Chat>, q: Queues)
    ensures var r := ContinuationOf(active, messages, q);
            && (r == Busy <==> active)
            && (r == NothingToContinue <==> !active && messages == [])
            && (r.Resumed? && !messages[|messages| - 1].Assistant? ==>
                r.prompts == [] && r.queues == q && !r.skipFirstPoll)
            && (r == LastIsAssistant <==>
                !active && messages != [] && messages[|messages| - 1].Assistant? && q.steering == q.followUps == [])
            && (r.Resumed? && messages[|messages| - 1].Assistant? && q.steering != [] ==>
                IsPoll(q.steering, q.steeringAll, r.prompts, r.queues.steering) && r.skipFirstPoll
                && r.queues == q.(steering := r.queues.steering))
            && (r.Resumed? && messages[|messages| - 1].Assistant? && q.steering == [] ==>
                r.prompts != [] && IsPoll(q.followUps, q.followUpsAll, r.prompts, r.queues.followUps)
                && !r.skipFirstPoll && r.queues == q.(followUps := r.queues.followUps))
  {
  }

  // ----- Properties of runs -----

  /** The messages that were pending, over all turns. */
  function Delivered(plays: seq<Play>): seq<Chat> {
    if plays == [] then [] else plays[0].pending + Delivered(plays[1..])
  }

  /** The messages queued during the turns after which the run went on. */
  function CameIn(plays: seq<Play>): seq<Chat> {
    if plays == [] then []
    else (if EndsRun(plays[0].turn) then [] else plays[0].turn.steering + plays[0].turn.followUps) + CameIn(plays[1..])
  }

  lemma DrainSplits(queue: seq<Chat>, all: bool)
    ensures Drained(queue, all) + Left(queue, all) == queue
    ensures multiset(Drained(queue, all)) + multiset(Left(queue, all)) == multiset(queue)
  {
    assert Drained(queue, all) + Left(queue, all) == queue;
  }

  lemma PrependCounts(p: Play, rest: Run)
    ensures Delivered(Prepend([p], rest).plays) == p.pending + Delivered(rest.plays)
    ensures CameIn(Prepend([p], rest).plays) ==
            (if EndsRun(p.turn) then [] else p.turn.steering + p.turn.followUps) + CameIn(rest.plays)
  {
    assert ([p] + rest.plays)[1..] == rest.plays;
  }

  /** The messages waiting in the queues. */
  ghost function Waiting(q: Queues): multiset<Chat> {
    multiset(q.steering) + multiset(q.followUps)
  }

  /** No queued message is lost or delivered twice: what was pending in some turn and what is still queued is what was
      queued before and what came in. */
  lemma {:induction false} QueuedMessagesConserved(turns: seq<Turn>, cancelled: Stream, k: nat, q: Queues,
                                                   pending: seq<Chat>, hasMore: bool)
    requires k <= |turns| && Ends(cancelled)
    ensures Conserves(RunFrom(turns, cancelled, k, q, pending, hasMore), q, pending)
    decreases |turns| - k, !hasMore
  {
    hide EndsRun, WantsMore, Drained, Left, TurnAt, RunFrom, Prepend, QueuesAfter, Conserves;
    RunStep(turns, cancelled, k, q, pending, hasMore);
    if hasMore || pending != [] {
      var t := TurnAt(turns, cancelled, k);
      if EndsRun(t) {
        LastTurnConserves(t, q, pending);
      } else {
        var next := RunFrom(turns, cancelled, k + 1, QueuesAfter(q, t), Drained(q.steering + t.steering, q.steeringAll),
                            WantsMore(t));
        QueuedMessagesConserved(turns, cancelled, k + 1, QueuesAfter(q, t),
                                Drained(q.steering + t.steering, q.steeringAll), WantsMore(t));
        TurnConserves(t, q, pending, next);
      }
    } else {
      var followUps, rest := Drained(q.followUps, q.followUpsAll), q.(followUps := Left(q.followUps, q.followUpsAll));
      var next := Run([], rest);
      if followUps != [] {
        next := RunFrom(turns, cancelled, k, rest, followUps, true);
        QueuedMessagesConserved(turns, cancelled, k, rest, followUps, true);
      } else {
        NothingConserved(rest);
      }
      FollowUpsConserve(q, next);
    }
  }

  ghost predicate Conserves(run: Run, q: Queues, pending: seq<Chat>) {
    multiset(Delivered(run.plays)) + Waiting(run.queues) == multiset(pending) + Waiting(q) + multiset(CameIn(run.plays))
  }

  lemma NothingConserved(q: Queues)
    ensures Conserves(Run([], q), q, [])
  {
  }

  lemma LastTurnConserves(t: Turn, q: Queues, pending: seq<Chat>)
    requires EndsRun(t)
    ensures Conserves(Run([Play(t, pending)], q), q, pending)
  {
    hide EndsRun;
    PrependCounts(Play(t, pending), Run([], q));
    PrependEnd([Play(t, pending)], q);
    assert pending + [] == pending;
  }

  lemma TurnConserves(t: Turn, q: Queues, pending: seq<Chat>, next: Run)
    requires !EndsRun(t) && Conserves(next, QueuesAfter(q, t), Drained(q.steering + t.steering, q.steeringAll))
    ensures Conserves(Prepend([Play(t, pending)], next), q, pending)
  {
    hide EndsRun, Delivered, CameIn, Drained, Left;
    PrependCounts(Play(t, pending), next);
    DrainSplits(q.steering + t.steering, q.steeringAll);
    assert multiset(q.steering + t.steering) == multiset(q.steering) + multiset(t.steering);
    assert multiset(q.followUps + t.followUps) == multiset(q.followUps) + multiset(t.followUps);
    assert multiset(t.steering + t.followUps + CameIn(next.plays)) ==
           multiset(t.steering) + multiset(t.followUps) + multiset(CameIn(next.plays));
    assert multiset(pending + Delivered(next.plays)) == multiset(pending) + multiset(Delivered(next.plays));
    var run := Prepend([Play(t, pending)], next);
    assert Delivered(run.plays) == pending + Delivered(next.plays) && run.queues == next.queues;
    assert CameIn(run.plays) == t.steering + t.followUps + CameIn(next.plays);
    Rearrange(multiset(Delivered(next.plays)), Waiting(next.queues),
              multiset(Drained(q.steering + t.steering, q.steeringAll)),
              multiset(Left(q.steering + t.steering, q.steeringAll)), multiset(q.steering), multiset(t.steering),
              multiset(q.followUps),
              multiset(t.followUps), multiset(CameIn(next.plays)), multiset(pending));
  }

  lemma Rearrange<T>(delivered: multiset<T>, waiting: multiset<T>, drained: multiset<T>, left: multiset<T>,
                     steering: multiset<T>, newSteering: multiset<T>, followUps: multiset<T>,
                     newFollowUps: multiset<T>, cameIn: multiset<T>, pending: multiset<T>)
    requires delivered + waiting == drained + (left + (followUps + newFollowUps)) + cameIn
             && drained + left == steering + newSteering
    ensures (pending + delivered) + waiting == pending + (steering + followUps) + (newSteering + newFollowUps + cameIn)
  {
    forall x: T
      ensures ((pending + delivered) + waiting)[x] ==
              (pending + (steering + followUps) + (newSteering + newFollowUps + cameIn))[x]
    {
      assert (delivered + waiting)[x] == (drained + (left + (followUps + newFollowUps)) + cameIn)[x];
      assert (drained + left)[x] == (steering + newSteering)[x];
    }
  }

  lemma FollowUpsConserve(q: Queues, next: Run)
    requires Conserves(next, q.(followUps := Left(q.followUps, q.followUpsAll)), Drained(q.followUps, q.followUpsAll))
    ensures Conserves(next, q, [])
  {
    hide Delivered, CameIn, Drained, Left;
    DrainSplits(q.followUps, q.followUpsAll);
  }

  // ----- Streams -----

  lemma NothingAnnounced()
    ensures Announce([]) == []
  {
  }

  lemma StreamStep(s: Stream, i: nat, added: bool, slots: seq<Chat>)
    requires i <= |s.events| && added == (slots != [])
    ensures StreamTrace(s, i, added) ==
            if i == |s.events| || s.events[i].0.Finishes?
              then (if added then [] else [MessageStart(s.final)]) + [MessageEnd(s.final)]
            else if s.events[i].0.Opens? then [MessageStart(s.events[i].1)] + StreamTrace(s, i + 1, true)
            else if added then [MessageUpdate(s.events[i].1)] + StreamTrace(s, i + 1, true)
            else StreamTrace(s, i + 1, false)
    ensures Grown(s, i, slots) ==
            if i == |s.events| || s.events[i].0.Finishes? then
              if slots == [] then [s.final] else slots[|slots| - 1 := s.final]
            else if s.events[i].0.Opens? then Grown(s, i + 1, slots + [s.events[i].1])
            else if slots == [] then Grown(s, i + 1, slots)
            else Grown(s, i + 1, slots[|slots| - 1 := s.events[i].1])
  {
  }

  /** A stream adds a message for each start event, and at least one; the last is the final message. */
  lemma {:induction false} GrownCount(s: Stream, i: nat, slots: seq<Chat>)
    requires i <= |s.events| && !Finished(s, i)
    ensures var g, n := Grown(s, i, slots), |slots| + Starts(s, |s.events|) - Starts(s, i);
            g != [] && |g| == (if n == 0 then 1 else n) && g[|g| - 1] == s.final
    decreases |s.events| - i
  {
    hide *;
    StreamStep(s, i, slots != [], slots);
    StartsStep(s, i);
    if i < |s.events| && !s.events[i].0.Finishes? {
      GrownCount(s, i + 1, if s.events[i].0.Opens? then slots + [s.events[i].1]
                           else if slots == [] then slots else slots[|slots| - 1 := s.events[i].1]);
    }
  }

  lemma StartsStep(s: Stream, i: nat)
    requires i <= |s.events| && !Finished(s, i)
    ensures i < |s.events| && !s.events[i].0.Finishes? ==>
              !Finished(s, i + 1) && Starts(s, i + 1) == Starts(s, i) + if s.events[i].0.Opens? then 1 else 0
    ensures i < |s.events| && s.events[i].0.Finishes? ==> Starts(s, |s.events|) == Starts(s, i)
  {
    if i < |s.events| && s.events[i].0.Finishes? {
      StartsStop(s, i + 1, |s.events|);
    }
  }

  lemma GrownOne(s: Stream, context: seq<Chat>)
    ensures context + Grown(s, 0, []) == context + [s.final] <==> Starts(s, |s.events|) <= 1
  {
    hide Grown;
    GrownCount(s, 0, []);
    var g := Grown(s, 0, []);
    if |g| == 1 {
      assert g == [s.final];
    } else {
      assert |context + g| != |context + [s.final]|;
    }
  }

  lemma Associate<T>(a: seq<T>, b: seq<T>, c: seq<T>)
    ensures a + b + c == a + (b + c)
  {
  }

  /** The hook swaps the context only after a turn that completed. */
  predicate SwapsContext(t: Turn) {
    t.compacted.Some? && t.stream.final.Assistant? && t.stream.final.stop == Completed
  }

  lemma PlayableMeans(t: Turn)
    requires Playable(t)
    ensures t.stream.final.Assistant? && Complete(t.stream.final.toolCalls, t.tools)
    ensures SwapsContext(t) <==> t.compacted.Some? && t.stream.final.stop == Completed
  {
  }

  /** A turn the loop can play: an assistant message and, when it calls tools, a complete batch for them. */
  ghost predicate Playable(t: Turn) {
    t.stream.final.Assistant? && Complete(t.stream.final.toolCalls, t.tools)
  }

  ghost predicate OneStart(t: Turn) {
    Starts(t.stream, |t.stream.events|) <= 1
  }

  ghost predicate OneStartEach(turns: seq<Turn>, cancelled: Stream) {
    (forall t :: t in turns ==> OneStart(t)) && OneStart(CancelledTurn(cancelled))
  }

  predicate Ends(s: Stream) {
    s.final.Assistant? && s.final.stop != Completed
  }

  /** What happens once the context is cancelled: the stream ends in an abort or error. */
  function CancelledTurn(s: Stream): Turn {
    Turn(s, [], None, false, [], [])
  }

  lemma CancelledPlayable(s: Stream)
    requires Ends(s)
    ensures Playable(CancelledTurn(s)) && CancelledTurn(s).stream == s && s.final.Assistant?
            && s.final.stop != Completed
  {
  }

  lemma ForwardNone(s: Snapshot, tools: seq<ToolExecutor.Event>)
    ensures ApplyAll(s, ForwardAll(tools[..0])) == s && ForwardAll(tools[..0]) == []
            && ResultMessages(ToolExecutor.Messages(tools[..0])) == []
  {
  }

  lemma EndsSnoc(sent: seq<AgentEvent>, e: AgentEvent)
    ensures MessageEnds(sent + [e]) == MessageEnds(sent) + if e.MessageEnd? then [e.message] else []
  {
    assert (sent + [e])[..|sent|] == sent;
  }

  lemma ForwardSnoc(s: Snapshot, tools: seq<ToolExecutor.Event>, i: nat)
    requires i < |tools|
    ensures ForwardAll(tools[..i + 1]) == ForwardAll(tools[..i]) + Forward(tools[i])
    ensures ResultMessages(ToolExecutor.Messages(tools[..i + 1])) ==
            ResultMessages(ToolExecutor.Messages(tools[..i]))
            + if tools[i].Message? then [ToolResult(tools[i].call, tools[i].result)] else []
    ensures ApplyAll(s, ForwardAll(tools[..i + 1])) ==
            match tools[i]
            case Message(c, r) => Apply(Apply(ApplyAll(s, ForwardAll(tools[..i])), MessageStart(ToolResult(c, r))),
                                        MessageEnd(ToolResult(c, r)))
            case _ => Apply(ApplyAll(s, ForwardAll(tools[..i])), Forward(tools[i])[0])
  {
    hide ApplyAll, ResultMessages;
    assert tools[..i + 1] == tools[..i] + [tools[i]];
    assert tools[..i + 1][..i] == tools[..i];
    ToolExecutor.MessagesSnoc(tools[..i], tools[i]);
    ResultMessagesAppend(ToolExecutor.Messages(tools[..i]), if tools[i].Message? then [tools[i]] else []);
    ResultOne(tools[i]);
    ApplyAllAppend(s, ForwardAll(tools[..i]), Forward(tools[i]));
    ForwardStep(ApplyAll(s, ForwardAll(tools[..i])), tools[i]);
  }
}
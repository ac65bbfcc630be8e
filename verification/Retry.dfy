/** Retrying a provider stream while nothing of it has been seen. */
module Retry {
  import opened Options

  const PRE_OUTPUT_LIMIT: nat := 64

  /** Nanoseconds, in the range of the machine type: arithmetic that leaves it is an error here. */
  type Duration = x: int | -0x8000_0000_0000_0000 <= x < 0x8000_0000_0000_0000

  /** A stream event. `observable` says that a caller could tell it was there. */
  datatype Event =
    | Partial(id: nat, observable: bool)
    | Done(id: nat)
    | Error(id: nat, observable: bool, described: bool)

  /** What one provider call does. `cancelAt` is the number of events read before the context is seen cancelled. */
  datatype Attempt = Attempt(
    cancelledBefore: bool,
    isNil: bool,
    events: seq<Event>,
    cancelAt: Option<nat>,
    retryable: bool,
    delayAllowed: bool,
    sleeps: bool)

  datatype Code = Canceled | Exhausted | DelayExceeded | Failure

  /** How the logical stream ends: with the provider's own terminal event, or with one made here. */
  datatype Last =
    | FromProvider(event: Event)
    | Generated(code: Code)
    | Interrupted

  // ----- The reference: a whole attempt at a glance -----

  /** How many events are read before a terminal one, the end of the stream, or cancellation. */
  function SeenCount(a: Attempt, i: nat): (n: nat)
    requires i <= |a.events|
    ensures i <= n <= |a.events|
    ensures forall k :: i <= k < n ==> a.events[k].Partial? && a.cancelAt != Some(k)
    ensures n < |a.events| ==> !a.events[n].Partial? || a.cancelAt == Some(n)
    decreases |a.events| - i
  {
    if i == |a.events| || !a.events[i].Partial? || a.cancelAt == Some(i) then i else SeenCount(a, i + 1)
  }

  function Seen(a: Attempt): seq<Event> {
    a.events[..SeenCount(a, 0)]
  }

  /** The caller must see these events: one of them shows, or they no longer fit in the buffer. */
  ghost predicate Visible(seen: seq<Event>) {
    |seen| >= PRE_OUTPUT_LIMIT || exists e :: e in seen && e.Partial? && e.observable
  }

  datatype Outcome = Again | Finished(shown: seq<Event>, last: Last)

  ghost function Failed(a: Attempt, k: nat, max: nat, retryable: bool, seen: seq<Event>, last: Last): Outcome {
    if !retryable then Finished(seen, last)
    else if k >= max then Finished([], Generated(Exhausted))
    else if !a.delayAllowed then Finished([], Generated(DelayExceeded))
    else if !a.sleeps then Finished([], Generated(Canceled))
    else Again
  }

  /** What attempt `k` of at most `max` comes to. */
  ghost function OutcomeOf(a: Attempt, k: nat, max: nat): Outcome {
    var n, seen := SeenCount(a, 0), Seen(a);
    if a.cancelledBefore then Finished([], Generated(Canceled))
    else if a.isNil then Failed(a, k, max, a.retryable, [], Generated(Failure))
    else if a.cancelAt == Some(n) then Finished(if Visible(seen) then seen else [], Generated(Canceled))
    else if n == |a.events| then
      if Visible(seen) then Finished(seen, Interrupted) else Failed(a, k, max, true, seen, Interrupted)
    else if a.events[n].Done? || Visible(seen) || a.events[n].observable then Finished(seen, FromProvider(a.events[n]))
    else Failed(a, k, max, a.retryable, seen,
                if a.events[n].described then FromProvider(a.events[n]) else Generated(Failure))
  }

  datatype Result = Result(calls: nat, shown: seq<Event>, last: Last)

  /** What the logical stream shows when attempts `k`, `k + 1`, ... behave as `provider` says. */
  ghost function Run(provider: nat -> Attempt, k: nat, max: nat): Result
    requires 0 < k <= max
    decreases max - k
  {
    match OutcomeOf(provider(k), k, max)
    case Again => Run(provider, k + 1, max)
    case Finished(shown, last) => Result(if provider(k).cancelledBefore then k - 1 else k, shown, last)
  }

  /** The run ends within the allowed attempts, and what it shows is nothing or all that the last attempt sent before
      its terminal event; a failed attempt that was followed by another shows nothing. */
  lemma {:induction false} RunShowsOneAttempt(provider: nat -> Attempt, k: nat, max: nat) returns (final: nat)
    requires 0 < k <= max
    ensures k <= final <= max && k - 1 <= Run(provider, k, max).calls <= final
    ensures Run(provider, k, max).shown <= Seen(provider(final))
    ensures Run(provider, k, max) == Run(provider, final, max) && OutcomeOf(provider(final), final, max).Finished?
    ensures forall j :: k <= j < final ==> OutcomeOf(provider(j), j, max).Again?
    decreases max - k
  {
    if OutcomeOf(provider(k), k, max).Again? {
      final := RunShowsOneAttempt(provider, k + 1, max);
    } else {
      final := k;
    }
  }

  /** An attempt is retried only if it showed nothing, failed for a passing reason, and attempts remain. */
  lemma AgainMeans(a: Attempt, k: nat, max: nat)
    ensures OutcomeOf(a, k, max).Again? <==>
            && k < max && !a.cancelledBefore && a.delayAllowed && a.sleeps
            && (a.isNil ==> a.retryable)
            && (!a.isNil ==>
                  && !Visible(Seen(a)) && a.cancelAt != Some(|Seen(a)|)
                  && (|Seen(a)| < |a.events| ==>
                      a.retryable && a.events[|Seen(a)|].Error? && !a.events[|Seen(a)|].observable))
  {
    hide Visible;
    assert |Seen(a)| == SeenCount(a, 0);
  }

  // ----- The program -----

  /** What the retrier does, in order: provider calls, events handed on with the partial message, the terminal event. */
  datatype Step<B> = Call(attempt: nat) | Forward(event: Event, message: B) | Finish(last: Last)

  function FoldAll<B>(fold: (B, Event) -> B, empty: B, events: seq<Event>): B {
    if events == [] then empty else fold(FoldAll(fold, empty, events[..|events| - 1]), events[|events| - 1])
  }

  /** Each event with the fold of all events up to it. */
  function Forwarded<B>(fold: (B, Event) -> B, empty: B, events: seq<Event>): seq<Step<B>> {
    seq(|events|, i requires 0 <= i < |events| => Forward(events[i], FoldAll(fold, empty, events[..i + 1])))
  }

  function Calls<B>(k: nat): seq<Step<B>> {
    seq(k, (i: nat) => Call(i + 1))
  }

  /** The whole trace of a run: first every provider call, then what is shown, then one terminal event. */
  function TraceOf<B>(fold: (B, Event) -> B, empty: B, r: Result): seq<Step<B>> {
    Calls(r.calls) + Forwarded(fold, empty, r.shown) + [Finish(r.last)]
  }

  lemma ForwardedSnoc<B>(fold: (B, Event) -> B, empty: B, events: seq<Event>, e: Event)
    ensures Forwarded(fold, empty, events + [e]) ==
            Forwarded(fold, empty, events) + [Forward(e, FoldAll(fold, empty, events + [e]))]
    ensures FoldAll(fold, empty, events + [e]) == fold(FoldAll(fold, empty, events), e)
  {
    assert (events + [e])[..|events|] == events;
    forall i | 0 <= i < |events|
      ensures Forwarded(fold, empty, events + [e])[i] == Forwarded(fold, empty, events)[i]
    {
      assert (events + [e])[..i + 1] == events[..i + 1];
    }
    assert (events + [e])[..|events| + 1] == events + [e];
  }

  lemma SeenSnoc(a: Attempt, i: nat)
    requires i < SeenCount(a, 0)
    ensures a.events[..i + 1] == a.events[..i] + [a.events[i]]
    ensures Visible(a.events[..i + 1]) <==>
            i + 1 >= PRE_OUTPUT_LIMIT || Visible(a.events[..i]) || (a.events[i].Partial? && a.events[i].observable)
  {
    var before, after := a.events[..i], a.events[..i + 1];
    assert after == before + [a.events[i]];
    forall e
      ensures e in after <==> e in before || e == a.events[i]
    {
    }
  }

  /** The state of the forwarding side: nothing until the attempt is committed, then every event read so far. */
  ghost predicate Buffered<B>(fold: (B, Event) -> B, empty: B, a: Attempt, i: nat, calls: nat, committed: bool,
                              buffer: seq<Event>, trace: seq<Step<B>>, logical: B)
    requires i <= |a.events|
  {
    && committed == Visible(a.events[..i])
    && (committed ==>
        buffer == [] && trace == Calls(calls) + Forwarded(fold, empty, a.events[..i])
        && logical == FoldAll(fold, empty, a.events[..i]))
    && (!committed ==> buffer == a.events[..i] && trace == Calls(calls) && logical == empty)
  }

  method Flush<B>(fold: (B, Event) -> B, ghost empty: B, ghost calls: nat, ghost sent: seq<Event>,
                  trace0: seq<Step<B>>, logical0: B, events: seq<Event>)
    returns (trace: seq<Step<B>>, logical: B)
    requires trace0 == Calls(calls) + Forwarded(fold, empty, sent) && logical0 == FoldAll(fold, empty, sent)
    ensures trace == Calls(calls) + Forwarded(fold, empty, sent + events)
            && logical == FoldAll(fold, empty, sent + events)
  {
    hide Forwarded, FoldAll, Calls;
    trace, logical := trace0, logical0;
    assert sent + events[..0] == sent;
    for i := 0 to |events|
      invariant trace == Calls(calls) + Forwarded(fold, empty, sent + events[..i])
                && logical == FoldAll(fold, empty, sent + events[..i])
    {
      ForwardedSnoc(fold, empty, sent + events[..i], events[i]);
      assert sent + events[..i] + [events[i]] == sent + events[..i + 1];
      logical := fold(logical, events[i]);
      trace := trace + [Forward(events[i], logical)];
    }
    assert events[..|events|] == events;
  }

  /** The attempt is over and another follows, or the run has finished with the given events shown. */
  ghost predicate Ended<B>(fold: (B, Event) -> B, empty: B, calls: nat, outcome: Outcome, again: bool,
                           trace: seq<Step<B>>, logical: B) {
    match outcome
    case Again => again && trace == Calls(calls) && logical == empty
    case Finished(shown, last) => !again && trace == TraceOf(fold, empty, Result(calls, shown, last))
  }

  lemma NothingShown<B>(fold: (B, Event) -> B, empty: B, calls: nat, last: Last)
    ensures TraceOf(fold, empty, Result(calls, [], last)) == Calls(calls) + [Finish(last)]
    ensures Forwarded(fold, empty, []) == [] && FoldAll(fold, empty, []) == empty
  {
  }

  method RetryClassified<B>(fold: (B, Event) -> B, ghost empty: B, a: Attempt, k: nat, max: nat, ghost calls: nat,
                            retryable: bool, buffer: seq<Event>, last: Last, trace0: seq<Step<B>>, logical0: B)
    returns (again: bool, trace: seq<Step<B>>, logical: B)
    requires trace0 == Calls(calls) && logical0 == empty
    ensures Ended(fold, empty, calls, Failed(a, k, max, retryable, buffer, last), again, trace, logical)
  {
    hide Forwarded, FoldAll, Calls;
    trace, logical, again := trace0, logical0, false;
    NothingShown(fold, empty, calls, Generated(Exhausted));
    NothingShown(fold, empty, calls, Generated(DelayExceeded));
    NothingShown(fold, empty, calls, Generated(Canceled));
    if !retryable {
      assert [] + buffer == buffer && Calls<B>(calls) + [] == Calls(calls);
      trace, logical := Flush(fold, empty, calls, [], trace, logical, buffer);
      trace := trace + [Finish(last)];
    } else if k >= max {
      trace := trace + [Finish(Generated(Exhausted))];
    } else if !a.delayAllowed {
      trace := trace + [Finish(Generated(DelayExceeded))];
    } else if !a.sleeps {
      trace := trace + [Finish(Generated(Canceled))];
    } else {
      again := true;
    }
  }

  /** Wherever the attempt stands, no more than 63 events are held back. */
  lemma BufferIsBounded<B>(fold: (B, Event) -> B, empty: B, a: Attempt, i: nat, calls: nat, committed: bool,
                           buffer: seq<Event>, trace: seq<Step<B>>, logical: B)
    requires i <= |a.events| && Buffered(fold, empty, a, i, calls, committed, buffer, trace, logical)
    ensures |buffer| <= 63
  {
    hide Forwarded, FoldAll, Calls;
  }

  /** Reads one attempt's stream. Until it is committed its events stay in a buffer of at most 63. */
  method ReadAttempt<B>(fold: (B, Event) -> B, ghost empty: B, a: Attempt, k: nat, max: nat, ghost calls: nat,
                        trace0: seq<Step<B>>, logical0: B)
    returns (again: bool, trace: seq<Step<B>>, logical: B)
    requires trace0 == Calls(calls) && logical0 == empty && !a.cancelledBefore && !a.isNil
    ensures Ended(fold, empty, calls, OutcomeOf(a, k, max), again, trace, logical)
  {
    hide Forwarded, FoldAll, Calls, Visible;
    trace, logical, again := trace0, logical0, false;
    var buffer: seq<Event> := [];
    var committed := false;
    var i := 0;
    NothingVisible(a);
    while i < |a.events| && a.events[i].Partial? && a.cancelAt != Some(i)
      invariant i <= SeenCount(a, 0) && Buffered(fold, empty, a, i, calls, committed, buffer, trace, logical)
    {
      var event := a.events[i];
      BufferIsBounded(fold, empty, a, i, calls, committed, buffer, trace, logical);
      SeenSnoc(a, i);
      ForwardedSnoc(fold, empty, a.events[..i], event);
      if !committed && (event.observable || |buffer| + 1 >= PRE_OUTPUT_LIMIT) {
        committed := true;
        StartFlush(fold, empty, calls, a.events[..i]);
        trace, logical := Flush(fold, empty, calls, [], trace, logical, buffer);
        buffer := [];
      }
      if committed {
        logical := fold(logical, event);
        trace := trace + [Forward(event, logical)];
      } else {
        buffer := buffer + [event];
      }
      i := i + 1;
    }
    assert i == SeenCount(a, 0);
    ghost var seen := a.events[..i];
    StartFlush(fold, empty, calls, seen);
    if a.cancelAt == Some(i) {
      NothingShown(fold, empty, calls, Generated(Canceled));
      trace := trace + [Finish(Generated(Canceled))];
    } else if i == |a.events| {
      if committed {
        trace := trace + [Finish(Interrupted)];
      } else {
        again, trace, logical := RetryClassified(fold, empty, a, k, max, calls, true, buffer, Interrupted, trace,
                                                 logical);
      }
    } else if a.events[i].Done? || committed || a.events[i].observable {
      if !committed {
        trace, logical := Flush(fold, empty, calls, [], trace, logical, buffer);
      }
      trace := trace + [Finish(FromProvider(a.events[i]))];
    } else {
      again, trace, logical :=
        RetryClassified(fold, empty, a, k, max, calls, a.retryable, buffer,
                        if a.events[i].described then FromProvider(a.events[i])
                        else Generated(Failure), trace, logical);
    }
  }

  lemma NothingVisible(a: Attempt)
    ensures !Visible(a.events[..0]) && a.events[..0] == []
  {
  }

  lemma StartFlush<B>(fold: (B, Event) -> B, empty: B, calls: nat, events: seq<Event>)
    ensures Calls<B>(calls) == Calls(calls) + Forwarded(fold, empty, []) && empty == FoldAll(fold, empty, [])
            && [] + events == events
  {
  }

  /** Calls the provider until an attempt shows something, fails for good, or attempts run out. */
  method Produce<B>(fold: (B, Event) -> B, empty: B, provider: nat -> Attempt, maxAttempts: nat)
    returns (trace: seq<Step<B>>)
    requires maxAttempts >= 1
    ensures trace == TraceOf(fold, empty, Run(provider, 1, maxAttempts))
  {
    hide Forwarded, FoldAll, OutcomeOf;
    var attempt, logical := 1, empty;
    trace := [];
    while true
      invariant 1 <= attempt <= maxAttempts && trace == Calls(attempt - 1) && logical == empty
      invariant Run(provider, 1, maxAttempts) == Run(provider, attempt, maxAttempts)
      decreases maxAttempts - attempt
    {
      var a := provider(attempt);
      ghost var outcome := OutcomeOf(a, attempt, maxAttempts);
      AgainMeans(a, attempt, maxAttempts);
      EarlyOutcome(a, attempt, maxAttempts);
      if a.cancelledBefore {
        NothingShown(fold, empty, attempt - 1, Generated(Canceled));
        return trace + [Finish(Generated(Canceled))];
      }
      trace := trace + [Call(attempt)];
      assert trace == Calls(attempt);
      var again;
      if a.isNil {
        again, trace, logical := RetryClassified(fold, empty, a, attempt, maxAttempts, attempt, a.retryable, [],
                                                 Generated(Failure), trace, logical);
      } else {
        again, trace, logical := ReadAttempt(fold, empty, a, attempt, maxAttempts, attempt, trace, logical);
      }
      if !again {
        return;
      }
      attempt := attempt + 1;
    }
  }

  lemma EarlyOutcome(a: Attempt, k: nat, max: nat)
    ensures a.cancelledBefore ==> OutcomeOf(a, k, max) == Finished([], Generated(Canceled))
    ensures !a.cancelledBefore && a.isNil ==>
            OutcomeOf(a, k, max) == Failed(a, k, max, a.retryable, [], Generated(Failure))
  {
  }

  /** What the trace of a run promises: calls are 1, 2, ... up to the limit, none comes after anything is shown, one
      terminal event comes last, and each partial message is the fold of the events shown so far. */
  lemma TraceIsSafe<B>(fold: (B, Event) -> B, empty: B, provider: nat -> Attempt, max: nat, i: nat, j: nat)
    requires max >= 1
    ensures var trace := TraceOf(fold, empty, Run(provider, 1, max));
            && trace != [] && trace[|trace| - 1].Finish?
            && (i < |trace| - 1 ==> !trace[i].Finish?)
            && (i < j < |trace| && !trace[i].Call? ==> !trace[j].Call?)
            && (i < |trace| && trace[i].Call? ==> trace[i] == Call(i + 1) && i + 1 <= max)
            && (i < |trace| && trace[i].Forward? ==>
                  && Run(provider, 1, max).calls <= i < Run(provider, 1, max).calls + |Run(provider, 1, max).shown|
                  && trace[i].event == Run(provider, 1, max).shown[i - Run(provider, 1, max).calls]
                  && trace[i].message == FoldAll(fold, empty,
                                                 Run(provider, 1, max).shown[..i - Run(provider, 1, max).calls + 1]))
  {
    hide *;
    var final := RunShowsOneAttempt(provider, 1, max);
    var r := Run(provider, 1, max);
    TraceAt(fold, empty, r, i);
    TraceAt(fold, empty, r, j);
    TraceAt(fold, empty, r, r.calls + |r.shown|);
  }

  lemma TraceAt<B>(fold: (B, Event) -> B, empty: B, r: Result, i: nat)
    ensures var trace := TraceOf(fold, empty, r);
            && |trace| == r.calls + |r.shown| + 1
            && (i < r.calls ==> trace[i] == Call(i + 1))
            && (r.calls <= i < |trace| - 1 ==>
                  trace[i] == Forward(r.shown[i - r.calls], FoldAll(fold, empty, r.shown[..i - r.calls + 1])))
            && (i == |trace| - 1 ==> trace[i] == Finish(r.last))
  {
    hide FoldAll;
  }

  // ----- How a run ends -----

  /** The attempt was read up to this event, which ends the stream. */
  predicate Reads(a: Attempt, e: Event) {
    && !a.cancelledBefore && !a.isNil && a.cancelAt != Some(|Seen(a)|)
    && |Seen(a)| < |a.events| && a.events[|Seen(a)|] == e
  }

  /** The context is cancelled before the call or while the stream is read. */
  predicate IsCancelled(a: Attempt) {
    a.cancelledBefore || (!a.isNil && a.cancelAt == Some(|Seen(a)|))
  }

  /** The stream just stops. */
  predicate BreaksOff(a: Attempt) {
    !IsCancelled(a) && !a.isNil && |Seen(a)| == |a.events|
  }

  /** It failed before anything of it could be seen, for a reason that may pass. */
  ghost predicate FailsUnseen(a: Attempt) {
    && !IsCancelled(a)
    && if a.isNil then a.retryable
       else
         && !Visible(Seen(a))
         && (BreaksOff(a)
             || (a.retryable && a.events[|Seen(a)|].Error? && !a.events[|Seen(a)|].observable))
  }

  /** How the last attempt ends the logical stream, in every case. A whole reply goes through with its own last event
      and nothing left out; so does a failure that could be seen. A hidden failure that may pass is reported as given
      up, after the attempts, the allowed delay or the wait; one that may not is passed on, with a description at
      least. */
  lemma FinishedMeans(a: Attempt, k: nat, max: nat)
    requires OutcomeOf(a, k, max).Finished?
    ensures var shown, last := OutcomeOf(a, k, max).shown, OutcomeOf(a, k, max).last;
            && (forall e: Event :: e.Done? ==> (Reads(a, e) <==> last == FromProvider(e)))
            && (forall e: Event :: e.Error? && (e.observable || Visible(Seen(a))) && Reads(a, e) ==>
                last == FromProvider(e))
            && (last.FromProvider? ==> Reads(a, last.event))
            && (last.FromProvider? || last == Interrupted || last == Generated(Failure) ==>
                shown == if a.isNil then [] else Seen(a))
            && (!a.cancelledBefore && !a.isNil && Visible(Seen(a)) ==> shown == Seen(a))
            && (IsCancelled(a) ==>
                last == Generated(Canceled)
                && shown == if !a.cancelledBefore && Visible(Seen(a)) then Seen(a) else [])
            && (FailsUnseen(a) ==>
                shown == [] && last == Generated(if k >= max then Exhausted else if !a.delayAllowed then DelayExceeded
                                                 else Canceled))
            && (last == Generated(Exhausted) || last == Generated(DelayExceeded) ==> FailsUnseen(a))
            && (last == Generated(Canceled) ==> IsCancelled(a) || FailsUnseen(a))
            && (last == Interrupted <==> BreaksOff(a) && Visible(Seen(a)))
            && (last == Generated(Failure) <==>
                !a.retryable && !IsCancelled(a)
                && (a.isNil || (exists e: Event :: e.Error? && !e.observable && !e.described && Reads(a, e)
                                            && !Visible(Seen(a)))))
  {
    hide Visible;
    assert |Seen(a)| == SeenCount(a, 0);
    if |Seen(a)| < |a.events| && !IsCancelled(a) && !a.isNil {
      assert Reads(a, a.events[|Seen(a)|]);
    }
  }

  /** A run as a whole: hidden failures that may pass come first, then one attempt ends it. */
  lemma RunEnds(provider: nat -> Attempt, max: nat) returns (final: nat)
    requires max >= 1
    ensures 1 <= final <= max && OutcomeOf(provider(final), final, max).Finished?
    ensures forall j :: 1 <= j < final ==> FailsUnseen(provider(j)) && provider(j).delayAllowed && provider(j).sleeps
    ensures var r, outcome := Run(provider, 1, max), OutcomeOf(provider(final), final, max);
            && r.shown == outcome.shown && r.last == outcome.last
            && r.calls == if provider(final).cancelledBefore then final - 1 else final
    ensures final < max && FailsUnseen(provider(final)) ==> !provider(final).delayAllowed || !provider(final).sleeps
  {
    hide OutcomeOf, FailsUnseen;
    final := RunShowsOneAttempt(provider, 1, max);
    forall j | 1 <= j <= final
      ensures OutcomeOf(provider(j), j, max).Again? <==>
              j < max && FailsUnseen(provider(j)) && provider(j).delayAllowed && provider(j).sleeps
    {
      AgainIsUnseen(provider(j), j, max);
    }
  }

  lemma AgainIsUnseen(a: Attempt, k: nat, max: nat)
    ensures OutcomeOf(a, k, max).Again? <==> k < max && FailsUnseen(a) && a.delayAllowed && a.sleeps
  {
    hide Visible, OutcomeOf;
    AgainMeans(a, k, max);
  }

  // ----- Delays -----

  function Pow2(k: nat): nat {
    if k == 0 then 1 else 2 * Pow2(k - 1)
  }

  lemma Pow2Grows(base: nat, i: nat, k: nat)
    requires i <= k
    ensures base * Pow2(i) <= base * Pow2(k)
  {
    if i < k {
      Pow2Grows(base, i, k - 1);
    }
  }

  /** The delay doubles with each attempt up to the cap, and never leaves the range of the machine type on the way. */
  method NominalDelay(base: Duration, cap: Duration, ordinal: nat) returns (delay: Duration)
    requires 0 < base <= cap && ordinal >= 1
    ensures delay == if base * Pow2(ordinal - 1) < cap then base * Pow2(ordinal - 1) else cap
  {
    delay := base;
    var i := 1;
    while i < ordinal && delay < cap
      invariant 1 <= i <= ordinal && 0 < delay <= cap && delay == base * Pow2(i - 1)
    {
      if delay > cap / 2 {
        Pow2Grows(base, i, ordinal - 1);
        return cap;
      }
      delay := delay * 2;
      i := i + 1;
    }
    Pow2Grows(base, i - 1, ordinal - 1);
  }
}

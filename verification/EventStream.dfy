/** An event stream with a final result: a producer, a dispatcher goroutine, and a consumer of a bounded channel. */
module EventStream {
  import opened Options

  /** What the producer does. */
  datatype Op<T, R> = Push(event: T) | End | EndWith(result: R)

  /** How a stream resolved: nothing yet, no result, or a result. */
  datatype Resolution<R> = Open | NoResult | Resolved(result: R)

  /** Which events complete the stream, and the result they carry. */
  datatype Contract<!T, R> = Contract(isComplete: T -> bool, extract: T -> R)

  // ----- The reference: what a history of operations means -----

  predicate Finishes<T, R>(c: Contract<T, R>, op: Op<T, R>) {
    op.Push? ==> c.isComplete(op.event)
  }

  function ResolutionOf<T, R>(c: Contract<T, R>, op: Op<T, R>): Resolution<R> {
    match op
    case Push(e) => Resolved(c.extract(e))
    case End => NoResult
    case EndWith(r) => Resolved(r)
  }

  /** The first finishing operation fixes the result. */
  function Outcome<T, R>(c: Contract<T, R>, ops: seq<Op<T, R>>): Resolution<R> {
    if ops == [] then Open
    else if Finishes(c, ops[0]) then ResolutionOf(c, ops[0])
    else Outcome(c, ops[1..])
  }

  /** The pushes up to the first finishing operation, and that one if it is a push. */
  function Accepted<T, R>(c: Contract<T, R>, ops: seq<Op<T, R>>): seq<T> {
    if ops == [] then []
    else (if ops[0].Push? then [ops[0].event] else []) + if Finishes(c, ops[0]) then [] else Accepted(c, ops[1..])
  }

  lemma {:induction false} HistoryGrows<T, R>(c: Contract<T, R>, ops: seq<Op<T, R>>, op: Op<T, R>)
    ensures Outcome(c, ops + [op]) ==
            if !Outcome(c, ops).Open? then Outcome(c, ops) else if Finishes(c, op) then ResolutionOf(c, op) else Open
    ensures Accepted(c, ops + [op]) == Accepted(c, ops) + if Outcome(c, ops).Open? && op.Push? then [op.event] else []
  {
    if ops == [] {
      assert [op] == [op] + ops && [op][1..] == ops;
      assert ops + [op] == [op];
    } else {
      assert (ops + [op])[1..] == ops[1..] + [op];
      HistoryGrows(c, ops[1..], op);
    }
  }

  // ----- The shared fields and their critical sections -----

  /** The fields the mutex guards. */
  datatype Shared<T, R> = Shared(queue: seq<T>, closed: bool, resolution: Resolution<R>)

  function Perform<T, R>(c: Contract<T, R>, s: Shared<T, R>, op: Op<T, R>): Shared<T, R> {
    match op
    case Push(e) =>
      if s.closed then s
      else if c.isComplete(e) then Shared(s.queue + [e], true, Resolved(c.extract(e)))
      else s.(queue := s.queue + [e])
    case End => if s.closed then s else s.(closed := true, resolution := NoResult)
    case EndWith(r) => if s.closed then s else s.(closed := true, resolution := Resolved(r))
  }

  class Stream<T, R> {
    const contract: Contract<T, R>
    var queue: seq<T>
    var closed: bool
    var once: bool
    var resolution: Resolution<R>

    function State(): Shared<T, R>
      reads `queue, `closed, `resolution
    {
      Shared(queue, closed, resolution)
    }

    ghost predicate Valid()
      reads `closed, `once, `resolution
    {
      once == closed == !resolution.Open?
    }

    constructor (contract: Contract<T, R>)
      ensures Valid() && State() == Shared([], false, Open) && this.contract == contract
    {
      this.contract := contract;
      queue, closed, once, resolution := [], false, false, Open;
    }

    method FinishLocked(r: Resolution<R>)
      requires Valid() && !r.Open?
      modifies `closed, `once, `resolution
      ensures Valid() && closed && resolution == if old(closed) then old(resolution) else r
    {
      if !once {
        once := true;
        resolution := r;
        closed := true;
      }
    }

    method Push(e: T)
      requires Valid()
      modifies `queue, `closed, `once, `resolution
      ensures Valid() && State() == Perform(contract, old(State()), Op.Push(e))
    {
      if closed {
        return;
      }
      queue := queue + [e];
      if contract.isComplete(e) {
        FinishLocked(Resolved(contract.extract(e)));
      }
    }

    method End()
      requires Valid()
      modifies `closed, `once, `resolution
      ensures Valid() && State() == Perform(contract, old(State()), Op.End)
    {
      FinishLocked(NoResult);
    }

    method EndWith(r: R)
      requires Valid()
      modifies `closed, `once, `resolution
      ensures Valid() && State() == Perform(contract, old(State()), Op.EndWith(r))
    {
      FinishLocked(Resolved(r));
    }

    /** The dispatcher's critical section: the next event, or none when it must wait (`closed` false) or stop. */
    method Next() returns (e: Option<T>)
      modifies `queue
      ensures e.None? <==> old(queue) == []
      ensures e.Some? ==> old(queue) == [e.value] + queue
      ensures e.None? ==> queue == []
    {
      if queue == [] {
        return None;
      }
      e := Some(queue[0]);
      queue := queue[1..];
    }
  }

  // ----- Producer, dispatcher and consumer together -----

  /** Where the dispatcher is: about to look at the queue, waiting for a signal, handing an event over, or gone. */
  datatype Dispatcher<T> = Looking | Waiting | Sending(event: T) | Stopped

  datatype World<T, R> = World(
    shared: Shared<T, R>,
    dispatcher: Dispatcher<T>,
    channel: seq<T>,
    delivered: seq<T>,
    ops: seq<Op<T, R>>)

  datatype Step<T, R> =
    | Produce(op: Op<T, R>)
    | Look
    | Send
    | HandOver
    | Receive

  function Start<T, R>(): World<T, R> {
    World(Shared([], false, Open), Looking, [], [], [])
  }

  predicate Enabled<T, R>(size: nat, w: World<T, R>, step: Step<T, R>) {
    match step
    case Produce(_) => true
    case Look => w.dispatcher.Looking?
    case Send => w.dispatcher.Sending? && |w.channel| < size
    case HandOver => w.dispatcher.Sending? && size == 0
    case Receive => w.channel != []
  }

  /** A signal wakes a waiting dispatcher. */
  function Signal<T>(d: Dispatcher<T>): Dispatcher<T> {
    if d.Waiting? then Looking else d
  }

  function Take<T, R>(c: Contract<T, R>, size: nat, w: World<T, R>, step: Step<T, R>): World<T, R>
    requires Enabled(size, w, step)
  {
    match step
    case Produce(op) =>
      var silent := w.shared.closed;
      w.(shared := Perform(c, w.shared, op), dispatcher := if silent then w.dispatcher else Signal(w.dispatcher),
         ops := w.ops + [op])
    case Look =>
      if w.shared.queue == [] then w.(dispatcher := if w.shared.closed then Stopped else Waiting)
      else w.(dispatcher := Sending(w.shared.queue[0]), shared := w.shared.(queue := w.shared.queue[1..]))
    case Send => w.(channel := w.channel + [w.dispatcher.event], dispatcher := Looking)
    case HandOver => w.(delivered := w.delivered + [w.dispatcher.event], dispatcher := Looking)
    case Receive => w.(delivered := w.delivered + [w.channel[0]], channel := w.channel[1..])
  }

  function InFlight<T>(d: Dispatcher<T>): seq<T> {
    if d.Sending? then [d.event] else []
  }

  /** Every accepted event is in exactly one place, in order, and the flags tell the history. */
  ghost predicate Inv<T, R>(c: Contract<T, R>, size: nat, w: World<T, R>) {
    && w.delivered + w.channel + InFlight(w.dispatcher) + w.shared.queue == Accepted(c, w.ops)
    && w.shared.resolution == Outcome(c, w.ops) && (w.shared.closed <==> !w.shared.resolution.Open?)
    && (w.dispatcher.Waiting? ==> w.shared.queue == [] && !w.shared.closed)
    && (w.dispatcher.Stopped? ==> w.shared.queue == [] && w.shared.closed)
    && |w.channel| <= size
  }

  lemma InvStart<T, R>(c: Contract<T, R>, size: nat)
    ensures Inv(c, size, Start())
  {
  }

  lemma InvNext<T, R>(c: Contract<T, R>, size: nat, w: World<T, R>, step: Step<T, R>)
    requires Inv(c, size, w) && Enabled(size, w, step)
    ensures Inv(c, size, Take(c, size, w, step))
  {
    hide Outcome, Accepted;
    var d, n, q := w.delivered, w.channel, w.shared.queue;
    match step {
      case Produce(op) =>
        HistoryGrows(c, w.ops, op);
        if op.Push? {
          Regroup(d + n + InFlight(w.dispatcher), q, [op.event]);
        }
      case Look =>
        if q != [] {
          assert [q[0]] + q[1..] == q;
          Regroup(d + n, [q[0]], q[1..]);
        }
      case Send => Regroup(d, n, [w.dispatcher.event]);
      case HandOver => assert n == [];
      case Receive =>
        assert [n[0]] + n[1..] == n;
        Regroup(d, [n[0]], n[1..]);
    }
  }

  lemma Regroup<T>(a: seq<T>, b: seq<T>, c: seq<T>)
    ensures a + (b + c) == (a + b) + c
    ensures a + [] == a
  {
  }

  ghost predicate IsRun<T(!new), R(!new)>(c: Contract<T, R>, size: nat, worlds: seq<World<T, R>>) {
    && worlds != [] && worlds[0] == Start()
    && forall k :: 0 <= k < |worlds| - 1 ==>
         exists step :: Enabled(size, worlds[k], step) && worlds[k + 1] == Take(c, size, worlds[k], step)
  }

  lemma RunInv<T(!new), R(!new)>(c: Contract<T, R>, size: nat, worlds: seq<World<T, R>>, k: nat)
    requires IsRun(c, size, worlds) && k < |worlds|
    ensures Inv(c, size, worlds[k])
  {
    hide Inv, Take;
    if k == 0 {
      InvStart(c, size);
    } else {
      RunInv(c, size, worlds, k - 1);
      var step :| Enabled(size, worlds[k - 1], step) && worlds[k] == Take(c, size, worlds[k - 1], step);
      InvNext(c, size, worlds[k - 1], step);
    }
  }

  /** In every reachable state: what was delivered is a prefix of what was accepted; the events channel is closed only
      once everything is handed over; the result is fixed by the first finish; the dispatcher never sleeps on work. */
  lemma DeliveryIsFaithful<T(!new), R(!new)>(c: Contract<T, R>, size: nat, worlds: seq<World<T, R>>, k: nat)
    requires IsRun(c, size, worlds) && k < |worlds|
    ensures var w := worlds[k];
            && w.delivered <= Accepted(c, w.ops)
            && w.shared.resolution == Outcome(c, w.ops)
            && (w.dispatcher.Stopped? ==> w.delivered + w.channel == Accepted(c, w.ops) && !Outcome(c, w.ops).Open?)
            && (w.dispatcher.Waiting? ==> w.shared.queue == [] && Outcome(c, w.ops).Open?)
  {
    hide Accepted, Outcome, IsRun;
    RunInv(c, size, worlds, k);
    var w := worlds[k];
    Regroup(w.delivered + w.channel, InFlight(w.dispatcher), w.shared.queue);
    Regroup(w.delivered, w.channel, InFlight(w.dispatcher) + w.shared.queue);
  }

  /** Once stopped, the dispatcher stays stopped and nothing more is accepted: the channel is closed once, for good. */
  lemma StoppedForGood<T, R>(c: Contract<T, R>, size: nat, w: World<T, R>, step: Step<T, R>)
    requires Inv(c, size, w) && Enabled(size, w, step) && w.dispatcher.Stopped?
    ensures Take(c, size, w, step).dispatcher.Stopped?
    ensures Accepted(c, Take(c, size, w, step).ops) == Accepted(c, w.ops)
    ensures Outcome(c, Take(c, size, w, step).ops) == Outcome(c, w.ops)
  {
    hide Accepted, Outcome;
    if step.Produce? {
      HistoryGrows(c, w.ops, step.op);
    }
  }

  /** How much work is left for the dispatcher and the consumer. */
  function Work<T, R>(w: World<T, R>): nat {
    4 * |w.shared.queue| + |w.channel|
    + match w.dispatcher case Looking => 1 case Waiting => 0 case Sending(_) => 3 case Stopped => 0
  }

  /** After the stream is finished the dispatcher and the consumer can go on until all is delivered and the channel is
      closed, and each of their steps brings that nearer. */
  lemma Progress<T, R>(c: Contract<T, R>, size: nat, w: World<T, R>) returns (step: Step<T, R>)
    requires Inv(c, size, w) && w.shared.closed && !(w.dispatcher.Stopped? && w.channel == [])
    ensures Enabled(size, w, step) && !step.Produce?
  {
    step := if w.dispatcher.Looking? then Look
    else if w.channel != [] then Receive
    else if size == 0 then HandOver
    else Send;
  }

  lemma WorkShrinks<T, R>(c: Contract<T, R>, size: nat, w: World<T, R>, step: Step<T, R>)
    requires Inv(c, size, w) && Enabled(size, w, step) && !step.Produce?
    ensures Work(Take(c, size, w, step)) < Work(w)
  {
  }
}

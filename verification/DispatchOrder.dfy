/**
 The order in which the dispatch protocol moves messages: the bus, the dispatcher's hand, each
 conversation's buffer and each handler's list of texts to re-publish are queues.
 */
module DispatchOrder {
  import opened ConversationRuntimes
  import opened Dispatch
  import opened Prelude

  // ---- What one step moves ----

  /** The event a step puts on the bus: a publication from outside, or what re-publishing leaves at the end. */
  function SentBy(s: State, step: Step): seq<Event>
    requires Enabled(s, step)
  {
    match step
    case Publish(e) => [e]
    case Handler(t, Republish) => RepublishedBy(s, step, t)
    case _ => []
  }

  function RepublishedBy(s: State, step: Step, t: nat): (r: seq<Event>)
    requires Enabled(s, step)
    ensures |r| <= 1
  {
    var bus := Apply(s, step).bus;
    if step == Handler(t, Republish) && bus != [] then [bus[|bus| - 1]] else []
  }

  function ReceivedBy(s: State, step: Step): seq<Event>
    requires Enabled(s, step)
  {
    if step == Dispatcher(Receive) then [s.bus[0]] else []
  }

  /** The message a step buffers or gives to a new handler. */
  function DispatchedBy(s: State, step: Step): seq<Message>
    requires Enabled(s, step)
  {
    if step == Dispatcher(PushPending) || step == Dispatcher(Spawn) then [s.dispatcher.m] else []
  }

  /** The text a step buffers for `c`. */
  function PushedBy(s: State, step: Step, c: Conv): seq<string>
    requires Enabled(s, step)
  {
    if step == Dispatcher(PushPending) && s.dispatcher.m.conv == c then [s.dispatcher.m.text] else []
  }

  /** The texts a step takes out of the buffer of `c`: a drain by a handler, or the clearing in `reset`. */
  function TakenBy(s: State, step: Step, c: Conv): seq<string>
    requires Enabled(s, step)
  {
    match step
    case Dispatcher(ClearPending) => if s.dispatcher.m.conv == c then Rt(s, c).pending else []
    case Handler(t, op) =>
      if (op.LoopDrain? || op.FinalDrain?) && s.tasks[t].m.conv == c then Rt(s, c).pending else []
    case _ => []
  }

  /** What is in the dispatcher's hand, and what a handler still has to re-publish. */
  function Hand(s: State): seq<Message> {
    if s.dispatcher.Idle? then [] else [s.dispatcher.m]
  }

  function Events(c: Conv, texts: seq<string>): seq<Event> {
    seq(|texts|, i requires 0 <= i < |texts| => Event(Some(c), texts[i]))
  }

  function Waiting(s: State, t: nat): seq<Event> {
    if t < |s.tasks| && s.tasks[t].phase.Publishing? then Events(s.tasks[t].m.conv, s.tasks[t].phase.rest) else []
  }

  /** The accepted events, as messages. */
  function Accepts(events: seq<Event>): seq<Message> {
    if events == [] then []
    else Accepts(events[..|events| - 1]) +
         if Accepted(events[|events| - 1]) then [AsMessage(events[|events| - 1])] else []
  }

  lemma BusHandle(s: State, t: nat, op: HandlerOp)
    requires CanHandle(s, t, op)
    ensures s.bus + SentBy(s, Handler(t, op)) == DoHandle(s, t, op).bus
  {
  }

  lemma BusDispatch(s: State, op: DispatcherOp)
    requires CanDispatch(s, op)
    ensures s.bus == ReceivedBy(s, Dispatcher(op)) + DoDispatch(s, op).bus
  {
  }

  lemma BusStep(s: State, step: Step)
    requires Enabled(s, step)
    ensures s.bus + SentBy(s, step) == ReceivedBy(s, step) + Apply(s, step).bus
  {
    match step
    case Publish(_) =>
    case Dispatcher(op) => BusDispatch(s, op);
    case Handler(t, op) => BusHandle(s, t, op);
  }

  lemma HandDispatch(s: State, op: DispatcherOp)
    requires CanDispatch(s, op)
    ensures var step := Dispatcher(op);
            Hand(s) + Accepts(ReceivedBy(s, step)) == DispatchedBy(s, step) + Hand(DoDispatch(s, op))
  {
    if op.Receive? { assert [s.bus[0]][..0] == []; }
  }

  lemma HandStep(s: State, step: Step)
    requires Enabled(s, step)
    ensures Hand(s) + Accepts(ReceivedBy(s, step)) == DispatchedBy(s, step) + Hand(Apply(s, step))
  {
    if step.Dispatcher? {
      HandDispatch(s, step.op);
    } else {
      assert Apply(s, step).dispatcher == s.dispatcher;
    }
  }

  lemma BufferDispatch(s: State, op: DispatcherOp, c: Conv)
    requires CanDispatch(s, op)
    ensures var step := Dispatcher(op);
            Rt(s, c).pending + PushedBy(s, step, c) == TakenBy(s, step, c) + Rt(DoDispatch(s, op), c).pending
  {
    match op
    case PushPending =>
    case ClearPending =>
    case _ => assert Rt(DoDispatch(s, op), c).pending == Rt(s, c).pending;
  }

  lemma BufferHandle(s: State, t: nat, op: HandlerOp, c: Conv)
    requires CanHandle(s, t, op)
    ensures Rt(s, c).pending == TakenBy(s, Handler(t, op), c) + Rt(DoHandle(s, t, op), c).pending
  {
  }

  lemma BufferStep(s: State, step: Step, c: Conv)
    requires Enabled(s, step)
    ensures Rt(s, c).pending + PushedBy(s, step, c) == TakenBy(s, step, c) + Rt(Apply(s, step), c).pending
  {
    match step
    case Publish(_) =>
    case Dispatcher(op) => BufferDispatch(s, op, c);
    case Handler(t, op) => BufferHandle(s, t, op, c);
  }

  lemma WaitingDispatch(s: State, op: DispatcherOp, t: nat)
    requires CanDispatch(s, op)
    ensures Waiting(DoDispatch(s, op), t) == Waiting(s, t)
  {
  }

  lemma WaitingHandle(s: State, u: nat, op: HandlerOp, t: nat)
    requires CanHandle(s, u, op) && Handler(u, op) != Handler(t, FinalDrain)
    ensures Waiting(s, t) == RepublishedBy(s, Handler(u, op), t) + Waiting(DoHandle(s, u, op), t)
  {
  }

  lemma WaitingStep(s: State, step: Step, t: nat)
    requires Enabled(s, step) && step != Handler(t, FinalDrain)
    ensures Waiting(s, t) == RepublishedBy(s, step, t) + Waiting(Apply(s, step), t)
  {
    match step
    case Publish(_) =>
    case Dispatcher(op) => WaitingDispatch(s, op, t);
    case Handler(u, op) => WaitingHandle(s, u, op, t);
  }

  // ---- Over whole runs ----

  function Sent(s: State, steps: seq<Step>): seq<Event>
    requires Runs(s, steps)
    decreases |steps|
  {
    if steps == [] then [] else SentBy(s, steps[0]) + Sent(Apply(s, steps[0]), steps[1..])
  }

  function Received(s: State, steps: seq<Step>): seq<Event>
    requires Runs(s, steps)
    decreases |steps|
  {
    if steps == [] then [] else ReceivedBy(s, steps[0]) + Received(Apply(s, steps[0]), steps[1..])
  }

  function Dispatched(s: State, steps: seq<Step>): seq<Message>
    requires Runs(s, steps)
    decreases |steps|
  {
    if steps == [] then [] else DispatchedBy(s, steps[0]) + Dispatched(Apply(s, steps[0]), steps[1..])
  }

  function Pushed(s: State, steps: seq<Step>, c: Conv): seq<string>
    requires Runs(s, steps)
    decreases |steps|
  {
    if steps == [] then [] else PushedBy(s, steps[0], c) + Pushed(Apply(s, steps[0]), steps[1..], c)
  }

  function Taken(s: State, steps: seq<Step>, c: Conv): seq<string>
    requires Runs(s, steps)
    decreases |steps|
  {
    if steps == [] then [] else TakenBy(s, steps[0], c) + Taken(Apply(s, steps[0]), steps[1..], c)
  }

  function Republished(s: State, steps: seq<Step>, t: nat): seq<Event>
    requires Runs(s, steps)
    decreases |steps|
  {
    if steps == [] then [] else RepublishedBy(s, steps[0], t) + Republished(Apply(s, steps[0]), steps[1..], t)
  }

  /** What two stretches move in turn is what they move together. */
  lemma Chain<T>(a: seq<T>, x: seq<T>, y: seq<T>, b: seq<T>, u: seq<T>, v: seq<T>, c: seq<T>)
    requires a + x == u + b && b + y == v + c
    ensures a + (x + y) == u + v + c
  {
    assert a + (x + y) == (a + x) + y == u + (b + y);
  }

  lemma {:induction false} BusRun(s: State, steps: seq<Step>)
    requires Runs(s, steps)
    ensures s.bus + Sent(s, steps) == Received(s, steps) + Exec(s, steps).bus
    decreases |steps|
  {
    if steps != [] {
      var s', rest := Apply(s, steps[0]), steps[1..];
      BusStep(s, steps[0]);
      BusRun(s', rest);
      Chain(s.bus, SentBy(s, steps[0]), Sent(s', rest), s'.bus, ReceivedBy(s, steps[0]), Received(s', rest),
            Exec(s', rest).bus);
    }
  }

  lemma {:induction false} AcceptsConcat(a: seq<Event>, b: seq<Event>)
    ensures Accepts(a + b) == Accepts(a) + Accepts(b)
    decreases |b|
  {
    if b == [] {
      assert a + b == a;
    } else {
      assert (a + b)[..|a + b| - 1] == a + b[..|b| - 1];
      AcceptsConcat(a, b[..|b| - 1]);
    }
  }

  lemma {:induction false} HandRun(s: State, steps: seq<Step>)
    requires Runs(s, steps)
    ensures Hand(s) + Accepts(Received(s, steps)) == Dispatched(s, steps) + Hand(Exec(s, steps))
    decreases |steps|
  {
    if steps != [] {
      var s', rest := Apply(s, steps[0]), steps[1..];
      HandStep(s, steps[0]);
      HandRun(s', rest);
      AcceptsConcat(ReceivedBy(s, steps[0]), Received(s', rest));
      Chain(Hand(s), Accepts(ReceivedBy(s, steps[0])), Accepts(Received(s', rest)), Hand(s'),
            DispatchedBy(s, steps[0]), Dispatched(s', rest), Hand(Exec(s', rest)));
    }
  }

  lemma {:induction false} BufferRun(s: State, steps: seq<Step>, c: Conv)
    requires Runs(s, steps)
    ensures Rt(s, c).pending + Pushed(s, steps, c) == Taken(s, steps, c) + Rt(Exec(s, steps), c).pending
    decreases |steps|
  {
    if steps != [] {
      var s', rest := Apply(s, steps[0]), steps[1..];
      BufferStep(s, steps[0], c);
      BufferRun(s', rest, c);
      Chain(Rt(s, c).pending, PushedBy(s, steps[0], c), Pushed(s', rest, c), Rt(s', c).pending,
            TakenBy(s, steps[0], c), Taken(s', rest, c), Rt(Exec(s', rest), c).pending);
    }
  }

  /** The handler has done its final drain. */
  predicate Drained(s: State, t: nat) {
    t < |s.tasks| && (s.tasks[t].phase.Publishing? || s.tasks[t].phase.Finished?)
  }

  lemma DrainedStays(s: State, step: Step, t: nat)
    requires Enabled(s, step) && Drained(s, t)
    ensures step != Handler(t, FinalDrain) && Drained(Apply(s, step), t)
  {
  }

  lemma Prepend<T>(all: seq<T>, a: seq<T>, b: seq<T>, c: seq<T>)
    requires all == a + (b + c)
    ensures all == (a + b) + c
  {
  }

  lemma {:induction false} WaitingRun(s: State, steps: seq<Step>, t: nat)
    requires Runs(s, steps) && Drained(s, t)
    ensures Waiting(s, t) == Republished(s, steps, t) + Waiting(Exec(s, steps), t)
    decreases |steps|
  {
    if steps != [] {
      var s', rest := Apply(s, steps[0]), steps[1..];
      DrainedStays(s, steps[0], t);
      WaitingStep(s, steps[0], t);
      WaitingRun(s', rest, t);
      Prepend(Waiting(s, t), RepublishedBy(s, steps[0], t), Republished(s', rest, t), Waiting(Exec(s', rest), t));
    }
  }

  /**
   In every run events are received in the order they were put on the bus, messages buffered or
   given to handlers in the order they were received, and taken out of each buffer in the order
   they were buffered.
   */
  lemma OrderIsKept(steps: seq<Step>, c: Conv)
    requires Runs(INIT, steps)
    ensures var s := Exec(INIT, steps);
            && Sent(INIT, steps) == Received(INIT, steps) + s.bus
            && Accepts(Received(INIT, steps)) == Dispatched(INIT, steps) + Hand(s)
            && Pushed(INIT, steps, c) == Taken(INIT, steps, c) + Rt(s, c).pending
  {
    BusRun(INIT, steps);
    HandRun(INIT, steps);
    BufferRun(INIT, steps, c);
  }

  lemma {:induction false} AcceptedHaveText(events: seq<Event>)
    ensures forall m :: m in Accepts(events) ==> m.text != ""
  {
    if events != [] { AcceptedHaveText(events[..|events| - 1]); }
  }

  /** No empty text is ever buffered or given to a handler. */
  lemma EmptyTextsAreIgnored(steps: seq<Step>, m: Message)
    requires Runs(INIT, steps) && m in Dispatched(INIT, steps)
    ensures m.text != ""
  {
    HandRun(INIT, steps);
    AcceptedHaveText(Received(INIT, steps));
    assert Accepts(Received(INIT, steps)) == Dispatched(INIT, steps) + Hand(Exec(INIT, steps));
    assert m in Accepts(Received(INIT, steps));
  }

  /**
   A handler's final drain takes every text buffered and not taken before, and however the run
   goes on it re-publishes exactly these, in the order they were buffered.
   */
  lemma RepublishedInOrder(before: seq<Step>, t: nat, after: seq<Step>)
    requires Runs(INIT, before) && CanHandle(Exec(INIT, before), t, FinalDrain)
    requires Runs(Apply(Exec(INIT, before), Handler(t, FinalDrain)), after)
    ensures var s, s' := Exec(INIT, before), Apply(Exec(INIT, before), Handler(t, FinalDrain));
            var c := s.tasks[t].m.conv;
            var pushed, taken := Pushed(INIT, before, c), Taken(INIT, before, c);
            && taken <= pushed
            && Republished(s', after, t) + Waiting(Exec(s', after), t) == Events(c, pushed[|taken|..])
  {
    var s := Exec(INIT, before);
    var s', c := Apply(s, Handler(t, FinalDrain)), s.tasks[t].m.conv;
    BufferRun(INIT, before, c);
    assert Pushed(INIT, before, c) == Taken(INIT, before, c) + Rt(s, c).pending;
    WaitingRun(s', after, t);
  }
}

/**
 The message dispatch protocol: one dispatcher task reading the bus, and one handler task per
 started conversation turn, sharing each conversation's `active` flag and pending buffer.
 A step is one lock, atomic or queue operation, so the machine ranges over every interleaving.
 */
module Dispatch {
  import opened ConversationRuntimes
  import opened Prelude

  type Conv = string

  datatype Event = Event(conv: Option<Conv>, text: string)

  /** An accepted user message: it names a conversation and its text is not empty. */
  datatype Message = Message(conv: Conv, text: string)

  datatype Dispatcher =
    | Idle
    | Checking(m: Message)        // about to read `active`
    | Pushing(m: Message)         // saw it busy, about to buffer
    | ReplacingToken(m: Message)  // `reset`, first lock
    | Clearing(m: Message)        // `reset`, second lock
    | Storing(m: Message)         // `reset`, store of `active = false`
    | Activating(m: Message)      // about to set `active`
    | Spawning(m: Message)        // about to spawn the handler

  datatype Phase =
    | Running                        // inside the handler, may drain the buffer
    | Draining                       // `active` cleared, final drain still to come
    | Publishing(rest: seq<string>)  // re-publishing what the final drain took
    | Finished
    | Crashed                        // panicked inside the handler; nothing after it runs

  datatype Task = Task(m: Message, phase: Phase)

  /** `published` to `discarded` and `late` are history variables: no step reads them. */
  datatype State = State(
    bus: seq<Event>, dispatcher: Dispatcher, runtimes: map<Conv, Runtime>, tasks: seq<Task>,
    published: multiset<Message>, handled: multiset<Message>, drained: multiset<Message>,
    discarded: multiset<Message>,
    late: set<Conv>)  // buffers pushed to while inactive and not emptied since

  const INIT := State([], Idle, map[], [], multiset{}, multiset{}, multiset{}, multiset{}, {})

  /** Operations of the dispatcher task, in program order, and of a handler task. */
  datatype DispatcherOp =
    | Receive | CheckActive | PushPending
    | ReplaceToken | ClearPending | StoreInactive | SetActive | Spawn
  datatype HandlerOp = LoopDrain | SetInactive | FinalDrain | Republish | Exit | Crash

  datatype Step = Publish(e: Event) | Dispatcher(op: DispatcherOp) | Handler(t: nat, hop: HandlerOp)

  function Rt(s: State, c: Conv): Runtime {
    if c in s.runtimes then s.runtimes[c] else IDLE
  }

  function AsEvent(m: Message): Event {
    Event(Some(m.conv), m.text)
  }

  predicate Accepted(e: Event) {
    e.conv.Some? && e.text != ""
  }

  function AsMessage(e: Event): Message
    requires Accepted(e)
  {
    Message(e.conv.value, e.text)
  }

  /** The buffered texts of one conversation, as messages. */
  function Tag(c: Conv, texts: seq<string>): (ms: multiset<Message>)
    ensures forall m :: ms[m] == if m.conv == c then multiset(texts)[m.text] else 0
  {
    if texts == [] then multiset{}
    else
      assert texts == [texts[0]] + texts[1..];
      multiset{Message(c, texts[0])} + Tag(c, texts[1..])
  }

  predicate CanDispatch(s: State, op: DispatcherOp) {
    match op
    case Receive => s.dispatcher.Idle? && s.bus != []
    case CheckActive => s.dispatcher.Checking?
    case PushPending => s.dispatcher.Pushing?
    case ReplaceToken => s.dispatcher.ReplacingToken?
    case ClearPending => s.dispatcher.Clearing?
    case StoreInactive => s.dispatcher.Storing?
    case SetActive => s.dispatcher.Activating?
    case Spawn => s.dispatcher.Spawning?
  }

  predicate CanHandle(s: State, t: nat, op: HandlerOp) {
    && t < |s.tasks|
    && var phase := s.tasks[t].phase;
       match op
       case LoopDrain => phase.Running?
       case SetInactive => phase.Running?
       case FinalDrain => phase.Draining?
       case Republish => phase.Publishing? && phase.rest != []
       case Exit => phase == Publishing([])
       case Crash => phase.Running?
  }

  predicate Enabled(s: State, step: Step) {
    match step
    case Publish(_) => true
    case Dispatcher(op) => CanDispatch(s, op)
    case Handler(t, op) => CanHandle(s, t, op)
  }

  function SetActiveFlag(s: State, c: Conv, v: bool): State {
    s.(runtimes := s.runtimes[c := Rt(s, c).WithActive(v)])
  }

  function EmptyBuffer(s: State, c: Conv): State {
    s.(runtimes := s.runtimes[c := Rt(s, c).Emptied()], late := s.late - {c})
  }

  function DoPublish(s: State, e: Event): State {
    s.(bus := s.bus + [e],
       published := if Accepted(e) then s.published + multiset{AsMessage(e)} else s.published)
  }

  function DoDispatch(s: State, op: DispatcherOp): State
    requires CanDispatch(s, op)
  {
    match op
    case Receive =>
      var e := s.bus[0];
      s.(bus := s.bus[1..], dispatcher := if Accepted(e) then Checking(AsMessage(e)) else Idle)
    case CheckActive =>
      var m := s.dispatcher.m;
      s.(runtimes := s.runtimes[m.conv := Rt(s, m.conv)],
         dispatcher := if Rt(s, m.conv).active then Pushing(m) else ReplacingToken(m))
    case PushPending =>
      var m := s.dispatcher.m;
      var r := Rt(s, m.conv);
      s.(runtimes := s.runtimes[m.conv := r.Pushed(m.text)],
         dispatcher := Idle,
         late := if r.active then s.late else s.late + {m.conv})
    case ReplaceToken =>
      s.(dispatcher := Clearing(s.dispatcher.m))
    case ClearPending =>
      var c := s.dispatcher.m.conv;
      EmptyBuffer(s, c).(dispatcher := Storing(s.dispatcher.m),
                         discarded := s.discarded + Tag(c, Rt(s, c).pending))
    case StoreInactive =>
      SetActiveFlag(s, s.dispatcher.m.conv, false).(dispatcher := Activating(s.dispatcher.m))
    case SetActive =>
      SetActiveFlag(s, s.dispatcher.m.conv, true).(dispatcher := Spawning(s.dispatcher.m))
    case Spawn =>
      s.(tasks := s.tasks + [Task(s.dispatcher.m, Running)],
         handled := s.handled + multiset{s.dispatcher.m}, dispatcher := Idle)
  }

  function SetPhase(s: State, t: nat, p: Phase): State
    requires t < |s.tasks|
  {
    s.(tasks := s.tasks[t := s.tasks[t].(phase := p)])
  }

  function DoHandle(s: State, t: nat, op: HandlerOp): State
    requires CanHandle(s, t, op)
  {
    var c := s.tasks[t].m.conv;
    match op
    case LoopDrain =>
      EmptyBuffer(s, c).(drained := s.drained + Tag(c, Rt(s, c).pending))
    case SetInactive =>
      SetPhase(SetActiveFlag(s, c, false), t, Draining)
    case FinalDrain =>
      SetPhase(EmptyBuffer(s, c), t, Publishing(Rt(s, c).pending))
    case Republish =>
      var rest := s.tasks[t].phase.rest;
      SetPhase(s, t, Publishing(rest[1..])).(bus := s.bus + [AsEvent(Message(c, rest[0]))])
    case Exit =>
      SetPhase(s, t, Finished)
    case Crash =>
      SetPhase(s, t, Crashed)
  }

  function Apply(s: State, step: Step): State
    requires Enabled(s, step)
  {
    match step
    case Publish(e) => DoPublish(s, e)
    case Dispatcher(op) => DoDispatch(s, op)
    case Handler(t, op) => DoHandle(s, t, op)
  }

  /** `steps` is a run from `s`; `Exec` is where it ends. */
  predicate Runs(s: State, steps: seq<Step>)
    decreases |steps|
  {
    steps == [] || (Enabled(s, steps[0]) && Runs(Apply(s, steps[0]), steps[1..]))
  }

  function Exec(s: State, steps: seq<Step>): State
    requires Runs(s, steps)
    decreases |steps|
  {
    if steps == [] then s else Exec(Apply(s, steps[0]), steps[1..])
  }

  // ---- Mutual exclusion ----

  /**
   Who holds a conversation: the dispatcher between setting `active` and spawning, or a handler
   that has not cleared it.
   */
  datatype Owner = Starting | Handling(t: nat)

  predicate Live(s: State, c: Conv, o: Owner) {
    match o
    case Starting => s.dispatcher.Spawning? && s.dispatcher.m.conv == c
    case Handling(t) =>
      && t < |s.tasks| && s.tasks[t].m.conv == c
      && (s.tasks[t].phase.Running? || s.tasks[t].phase.Crashed?)
  }

  predicate StartingUp(d: Dispatcher) {
    d.ReplacingToken? || d.Clearing? || d.Storing? || d.Activating?
  }

  /** `active` holds exactly while one owner is live, and never while two are. */
  ghost predicate Exclusive(s: State) {
    && (forall c, o, p :: Live(s, c, o) && Live(s, c, p) ==> o == p)
    && (forall c, o :: Live(s, c, o) ==> Rt(s, c).active)
    && (forall c :: Rt(s, c).active ==> exists o :: Live(s, c, o))
    && (StartingUp(s.dispatcher) ==> !Rt(s, s.dispatcher.m.conv).active)
  }

  lemma SameOwners(s: State, s': State)
    requires Exclusive(s)
    requires forall c, o :: Live(s', c, o) <==> Live(s, c, o)
    requires forall c :: Rt(s', c).active == Rt(s, c).active
    requires StartingUp(s'.dispatcher) ==> !Rt(s', s'.dispatcher.m.conv).active
    ensures Exclusive(s')
  {
    forall c | Rt(s', c).active ensures exists o :: Live(s', c, o) {
      assert Rt(s, c).active;
      var o :| Live(s, c, o);
      assert Live(s', c, o);
    }
  }

  lemma ExclusiveActivate(s: State)
    requires Exclusive(s) && CanDispatch(s, SetActive)
    ensures Exclusive(DoDispatch(s, SetActive))
  {
    var s', c0 := DoDispatch(s, SetActive), s.dispatcher.m.conv;
    assert Live(s', c0, Starting);
    forall c, o | Live(s', c, o) ensures (c == c0 && o.Starting?) || (c != c0 && Live(s, c, o)) {
      if o.Handling? { assert Live(s, c, o); }
    }
    forall c | Rt(s', c).active ensures exists o :: Live(s', c, o) {
      if c != c0 {
        assert Rt(s, c).active;
        var o :| Live(s, c, o);
        assert Live(s', c, o);
      }
    }
  }

  lemma ExclusiveSpawn(s: State)
    requires Exclusive(s) && CanDispatch(s, Spawn)
    ensures Exclusive(DoDispatch(s, Spawn))
  {
    var s', c0, h := DoDispatch(s, Spawn), s.dispatcher.m.conv, Handling(|s.tasks|);
    assert Live(s, c0, Starting) && Live(s', c0, h);
    forall c, o | Live(s', c, o) ensures (c == c0 && o == h) || (c != c0 && Live(s, c, o)) {
      if o != h { assert Live(s, c, o); }
    }
    forall c | Rt(s', c).active ensures exists o :: Live(s', c, o) {
      if c != c0 {
        assert Rt(s, c).active;
        var o :| Live(s, c, o);
        assert Live(s', c, o);
      }
    }
  }

  lemma ExclusiveFinish(s: State, t: nat)
    requires Exclusive(s) && CanHandle(s, t, SetInactive)
    ensures Exclusive(DoHandle(s, t, SetInactive))
  {
    var s', c0 := DoHandle(s, t, SetInactive), s.tasks[t].m.conv;
    assert Live(s, c0, Handling(t));
    forall c, o | Live(s', c, o) ensures c != c0 && Live(s, c, o) {
      assert Live(s, c, o);
    }
    forall c | Rt(s', c).active ensures exists o :: Live(s', c, o) {
      assert Rt(s, c).active;
      var o :| Live(s, c, o);
      assert Live(s', c, o);
    }
  }

  lemma ExclusiveDispatch(s: State, op: DispatcherOp)
    requires Exclusive(s) && CanDispatch(s, op) && !op.SetActive? && !op.Spawn?
    ensures Exclusive(DoDispatch(s, op))
  {
    var s' := DoDispatch(s, op);
    assert s'.tasks == s.tasks && !s.dispatcher.Spawning? && !s'.dispatcher.Spawning?;
    forall c ensures Rt(s', c).active == Rt(s, c).active {}
    assert StartingUp(s'.dispatcher) ==> !Rt(s', s'.dispatcher.m.conv).active;
    SameOwners(s, s');
  }

  lemma ExclusiveHandle(s: State, t: nat, op: HandlerOp)
    requires Exclusive(s) && CanHandle(s, t, op) && !op.SetInactive?
    ensures Exclusive(DoHandle(s, t, op))
  {
    var s' := DoHandle(s, t, op);
    assert s'.dispatcher == s.dispatcher && |s'.tasks| == |s.tasks|;
    forall c ensures Rt(s', c).active == Rt(s, c).active {}
    forall c, o ensures Live(s', c, o) <==> Live(s, c, o) {}
    SameOwners(s, s');
  }

  lemma ExclusiveStep(s: State, step: Step)
    requires Exclusive(s) && Enabled(s, step)
    ensures Exclusive(Apply(s, step))
  {
    match step
    case Publish(e) =>
      forall c ensures Rt(DoPublish(s, e), c).active == Rt(s, c).active {}
      SameOwners(s, DoPublish(s, e));
    case Dispatcher(op) =>
      if op.SetActive? {
        ExclusiveActivate(s);
      } else if op.Spawn? {
        ExclusiveSpawn(s);
      } else {
        ExclusiveDispatch(s, op);
      }
    case Handler(t, op) =>
      if op.SetInactive? {
        ExclusiveFinish(s, t);
      } else {
        ExclusiveHandle(s, t, op);
      }
  }

  lemma {:induction false} ExclusiveRun(s: State, steps: seq<Step>)
    requires Exclusive(s) && Runs(s, steps)
    ensures Exclusive(Exec(s, steps))
    decreases |steps|
  {
    if steps != [] {
      ExclusiveStep(s, steps[0]);
      ExclusiveRun(Apply(s, steps[0]), steps[1..]);
    }
  }

  /** In every interleaving, two handlers of one conversation never overlap. */
  lemma MutualExclusion(steps: seq<Step>)
    requires Runs(INIT, steps)
    ensures Exclusive(Exec(INIT, steps))
  {
    ExclusiveRun(INIT, steps);
  }

  // ---- Conservation ----

  function InHand(d: Dispatcher, m: Message): nat {
    if !d.Idle? && d.m == m then 1 else 0
  }

  /** Occurrences of `m` among the texts handlers have drained but not yet re-published. */
  function InTransit(tasks: seq<Task>, m: Message): nat {
    if tasks == [] then 0
    else InTransit(tasks[..|tasks| - 1], m) + TaskTransit(tasks[|tasks| - 1], m)
  }

  function TaskTransit(t: Task, m: Message): nat {
    if t.phase.Publishing? && t.m.conv == m.conv then multiset(t.phase.rest)[m.text] else 0
  }

  lemma {:induction false} TransitUpdate(tasks: seq<Task>, t: nat, x: Task, m: Message)
    requires t < |tasks|
    ensures InTransit(tasks[t := x], m) == InTransit(tasks, m) - TaskTransit(tasks[t], m) + TaskTransit(x, m)
    decreases |tasks|
  {
    var n := |tasks| - 1;
    if t == n {
      assert tasks[t := x][..n] == tasks[..n];
    } else {
      assert tasks[t := x][..n] == tasks[..n][t := x];
      TransitUpdate(tasks[..n], t, x, m);
    }
  }

  lemma {:induction false} QuietTransit(tasks: seq<Task>, m: Message)
    requires forall t :: 0 <= t < |tasks| ==> tasks[t].phase.Finished?
    ensures InTransit(tasks, m) == 0
    decreases |tasks|
  {
    if tasks != [] { QuietTransit(tasks[..|tasks| - 1], m); }
  }

  /**
   Every published message is in exactly one place: on the bus (again, if re-published), in the
   dispatcher's hand, in its conversation's buffer, with a handler about to re-publish it, given
   to a handler, drained into a running loop, or discarded by `reset`.
   */
  ghost predicate Balanced(s: State, m: Message) {
    s.published[m] ==
    multiset(s.bus)[AsEvent(m)] + InHand(s.dispatcher, m) + multiset(Rt(s, m.conv).pending)[m.text]
    + InTransit(s.tasks, m) + s.handled[m] + s.drained[m] + s.discarded[m]
  }

  lemma BalancedReceive(s: State, m: Message)
    requires m.text != "" && Balanced(s, m) && CanDispatch(s, Receive)
    ensures Balanced(DoDispatch(s, Receive), m)
  {
    assert s.bus == [s.bus[0]] + s.bus[1..];
  }

  lemma BalancedPush(s: State, m: Message)
    requires Balanced(s, m) && CanDispatch(s, PushPending)
    ensures Balanced(DoDispatch(s, PushPending), m)
  {
  }

  lemma BalancedClear(s: State, m: Message)
    requires Balanced(s, m) && CanDispatch(s, ClearPending)
    ensures Balanced(DoDispatch(s, ClearPending), m)
  {
    var c := s.dispatcher.m.conv;
    assert Tag(c, Rt(s, c).pending)[m] == if m.conv == c then multiset(Rt(s, c).pending)[m.text] else 0;
  }

  lemma BalancedDispatch(s: State, op: DispatcherOp, m: Message)
    requires m.text != "" && Balanced(s, m) && CanDispatch(s, op)
    ensures Balanced(DoDispatch(s, op), m)
  {
    match op
    case Receive => BalancedReceive(s, m);
    case PushPending => BalancedPush(s, m);
    case ClearPending => BalancedClear(s, m);
    case Spawn => assert DoDispatch(s, op).tasks[..|s.tasks|] == s.tasks;
    case _ => assert Rt(DoDispatch(s, op), m.conv).pending == Rt(s, m.conv).pending;
  }

  lemma BalancedRepublish(s: State, t: nat, m: Message)
    requires Balanced(s, m) && CanHandle(s, t, Republish)
    ensures Balanced(DoHandle(s, t, Republish), m)
  {
    var rest := s.tasks[t].phase.rest;
    assert rest == [rest[0]] + rest[1..];
    TransitUpdate(s.tasks, t, DoHandle(s, t, Republish).tasks[t], m);
  }

  lemma BalancedHandle(s: State, t: nat, op: HandlerOp, m: Message)
    requires Balanced(s, m) && CanHandle(s, t, op)
    ensures Balanced(DoHandle(s, t, op), m)
  {
    match op
    case Republish => BalancedRepublish(s, t, m);
    case LoopDrain =>
    case _ => TransitUpdate(s.tasks, t, DoHandle(s, t, op).tasks[t], m);
  }

  lemma BalancedStep(s: State, step: Step, m: Message)
    requires m.text != "" && Balanced(s, m) && Enabled(s, step)
    ensures Balanced(Apply(s, step), m)
  {
    match step
    case Publish(e) =>
    case Dispatcher(op) => BalancedDispatch(s, op, m);
    case Handler(t, op) => BalancedHandle(s, t, op, m);
  }

  lemma {:induction false} BalancedRun(s: State, steps: seq<Step>, m: Message)
    requires m.text != "" && Balanced(s, m) && Runs(s, steps)
    ensures Balanced(Exec(s, steps), m)
    decreases |steps|
  {
    if steps != [] {
      BalancedStep(s, steps[0], m);
      BalancedRun(Apply(s, steps[0]), steps[1..], m);
    }
  }

  lemma Conservation(steps: seq<Step>, m: Message)
    requires m.text != "" && Runs(INIT, steps)
    ensures Balanced(Exec(INIT, steps), m)
  {
    BalancedRun(INIT, steps, m);
  }

  // ---- When a message can be discarded ----

  ghost predicate DrainPending(s: State, c: Conv) {
    exists t :: 0 <= t < |s.tasks| && s.tasks[t].m.conv == c && s.tasks[t].phase.Draining?
  }

  /** An idle conversation's buffer is non-empty only in one of the two racing windows. */
  ghost predicate RaceOnly(s: State) {
    forall c :: !Rt(s, c).active && Rt(s, c).pending != [] ==> DrainPending(s, c) || c in s.late
  }

  lemma RaceOnlyDispatch(s: State, op: DispatcherOp)
    requires Exclusive(s) && RaceOnly(s) && CanDispatch(s, op)
    ensures RaceOnly(DoDispatch(s, op))
  {
    var s' := DoDispatch(s, op);
    forall c | !Rt(s', c).active && Rt(s', c).pending != [] ensures DrainPending(s', c) || c in s'.late {
      if !Rt(s, c).active && Rt(s, c).pending != [] && DrainPending(s, c) {
        var t :| 0 <= t < |s.tasks| && s.tasks[t].m.conv == c && s.tasks[t].phase.Draining?;
        assert s'.tasks[t] == s.tasks[t];
      }
    }
  }

  lemma RaceOnlyHandle(s: State, t0: nat, op: HandlerOp)
    requires RaceOnly(s) && CanHandle(s, t0, op)
    ensures RaceOnly(DoHandle(s, t0, op))
  {
    var s' := DoHandle(s, t0, op);
    forall c | !Rt(s', c).active && Rt(s', c).pending != [] ensures DrainPending(s', c) || c in s'.late {
      if op.SetInactive? && s.tasks[t0].m.conv == c {
        assert s'.tasks[t0].phase.Draining?;
      } else {
        assert Rt(s', c) == Rt(s, c);
        if DrainPending(s, c) {
          var t :| 0 <= t < |s.tasks| && s.tasks[t].m.conv == c && s.tasks[t].phase.Draining?;
          assert s'.tasks[t] == s.tasks[t];
        }
      }
    }
  }

  lemma RaceOnlyStep(s: State, step: Step)
    requires Exclusive(s) && RaceOnly(s) && Enabled(s, step)
    ensures RaceOnly(Apply(s, step))
  {
    match step
    case Publish(e) =>
      var s' := DoPublish(s, e);
      assert forall c :: Rt(s', c) == Rt(s, c) && (DrainPending(s, c) ==> DrainPending(s', c));
    case Dispatcher(op) => RaceOnlyDispatch(s, op);
    case Handler(t, op) => RaceOnlyHandle(s, t, op);
  }

  lemma {:induction false} RaceOnlyRun(s: State, steps: seq<Step>)
    requires Exclusive(s) && RaceOnly(s) && Runs(s, steps)
    ensures RaceOnly(Exec(s, steps))
    decreases |steps|
  {
    if steps != [] {
      ExclusiveStep(s, steps[0]);
      RaceOnlyStep(s, steps[0]);
      RaceOnlyRun(Apply(s, steps[0]), steps[1..]);
    }
  }

  /** A step discards something exactly if it clears a non-empty buffer. */
  lemma OnlyClearDiscards(s: State, step: Step)
    requires Enabled(s, step)
    ensures Apply(s, step).discarded != s.discarded <==>
            step == Dispatcher(ClearPending) && Rt(s, s.dispatcher.m.conv).pending != []
  {
    if step == Dispatcher(ClearPending) {
      var c, pending := s.dispatcher.m.conv, Rt(s, s.dispatcher.m.conv).pending;
      if pending == [] {
        assert Tag(c, pending) == multiset{};
      } else {
        assert pending[0] in multiset(pending);
        assert Apply(s, step).discarded[Message(c, pending[0])] > s.discarded[Message(c, pending[0])];
      }
    }
  }

  /**
   A step of any run loses messages exactly if it clears a non-empty buffer, and then it does so
   inside one of the two windows: a handler of that conversation is between clearing `active`
   and its final drain, or the dispatcher buffered a message after the handler it saw had
   already finished.
   */
  lemma DiscardNeedsRace(steps: seq<Step>, step: Step)
    requires Runs(INIT, steps) && Enabled(Exec(INIT, steps), step)
    ensures var s := Exec(INIT, steps);
            && (Apply(s, step).discarded != s.discarded <==>
                step == Dispatcher(ClearPending) && Rt(s, s.dispatcher.m.conv).pending != [])
            && (Apply(s, step).discarded != s.discarded ==>
                DrainPending(s, s.dispatcher.m.conv) || s.dispatcher.m.conv in s.late)
  {
    ExclusiveRun(INIT, steps);
    RaceOnlyRun(INIT, steps);
    var s := Exec(INIT, steps);
    OnlyClearDiscards(s, step);
    if Apply(s, step).discarded != s.discarded { assert !Rt(s, s.dispatcher.m.conv).active; }
  }

  // ---- The runtime's own operations ----

  /** The three steps of `reset` leave the runtime as the method does, and touch no other conversation. */
  lemma ResetIsThreeSteps(s: State)
    requires s.dispatcher.ReplacingToken?
    ensures var steps := [Dispatcher(ReplaceToken), Dispatcher(ClearPending), Dispatcher(StoreInactive)];
            && Runs(s, steps)
            && forall c :: Rt(Exec(s, steps), c) ==
                 if c == s.dispatcher.m.conv then Rt(s, c).Emptied().WithActive(false) else Rt(s, c)
  {
    var a := DoDispatch(s, ReplaceToken);
    var b := DoDispatch(a, ClearPending);
    ExecOne(b, Dispatcher(StoreInactive));
    ExecCons(a, Dispatcher(ClearPending), [Dispatcher(StoreInactive)]);
    ExecCons(s, Dispatcher(ReplaceToken), [Dispatcher(ClearPending), Dispatcher(StoreInactive)]);
  }

  lemma ExecOne(s: State, a: Step)
    requires Enabled(s, a)
    ensures Runs(s, [a]) && Exec(s, [a]) == Apply(s, a)
  {
    assert [a][1..] == [];
  }

  lemma ExecCons(s: State, a: Step, rest: seq<Step>)
    requires Enabled(s, a) && Runs(Apply(s, a), rest)
    ensures Runs(s, [a] + rest) && Exec(s, [a] + rest) == Exec(Apply(s, a), rest)
  {
    assert ([a] + rest)[1..] == rest;
  }

  // ---- A handler that panics ----

  /** A handler of the conversation has panicked. */
  ghost predicate Jammed(s: State, c: Conv) {
    exists t :: 0 <= t < |s.tasks| && s.tasks[t].m.conv == c && s.tasks[t].phase.Crashed?
  }

  /** What has become of the messages of `c`. */
  ghost predicate SameFate(s: State, s': State, c: Conv) {
    forall m: Message :: m.conv == c ==>
      s'.handled[m] == s.handled[m] && s'.drained[m] == s.drained[m] && s'.discarded[m] == s.discarded[m]
  }

  lemma JammedOwner(s: State, c: Conv) returns (t: nat)
    requires Exclusive(s) && Jammed(s, c)
    ensures t < |s.tasks| && s.tasks[t].m.conv == c && s.tasks[t].phase.Crashed? && Rt(s, c).active
    ensures forall o :: Live(s, c, o) ==> o == Handling(t)
  {
    t :| 0 <= t < |s.tasks| && s.tasks[t].m.conv == c && s.tasks[t].phase.Crashed?;
    assert Live(s, c, Handling(t));
  }

  lemma JammedDispatch(s: State, op: DispatcherOp, c: Conv)
    requires Exclusive(s) && Jammed(s, c) && CanDispatch(s, op)
    ensures Jammed(DoDispatch(s, op), c) && SameFate(s, DoDispatch(s, op), c)
  {
    var t := JammedOwner(s, c);
    assert DoDispatch(s, op).tasks[t] == s.tasks[t];
    if op.Spawn? { assert s.dispatcher.m.conv == c ==> Live(s, c, Starting); }
  }

  lemma JammedHandle(s: State, t: nat, op: HandlerOp, c: Conv)
    requires Exclusive(s) && Jammed(s, c) && CanHandle(s, t, op)
    ensures Jammed(DoHandle(s, t, op), c) && SameFate(s, DoHandle(s, t, op), c)
  {
    var u := JammedOwner(s, c);
    assert DoHandle(s, t, op).tasks[u] == s.tasks[u];
    if op.LoopDrain? { assert s.tasks[t].m.conv == c ==> Live(s, c, Handling(t)); }
  }

  /**
   After a panic the conversation stays active whatever happens: no message of it is ever
   handled, drained or discarded again, so each later one is only buffered.
   */
  lemma {:induction false} PanicJams(s: State, steps: seq<Step>, c: Conv)
    requires Exclusive(s) && Jammed(s, c) && Runs(s, steps)
    ensures var s' := Exec(s, steps); Exclusive(s') && Jammed(s', c) && Rt(s', c).active && SameFate(s, s', c)
    decreases |steps|
  {
    if steps == [] {
      var _ := JammedOwner(s, c);
    } else {
      ExclusiveStep(s, steps[0]);
      match steps[0] {
        case Publish(e) =>
        case Dispatcher(op) => JammedDispatch(s, op, c);
        case Handler(t, op) => JammedHandle(s, t, op, c);
      }
      PanicJams(Apply(s, steps[0]), steps[1..], c);
    }
  }

  /** Some continuation leaves the conversation inactive. */
  ghost predicate CanIdle(s: State, c: Conv) {
    exists steps :: Runs(s, steps) && !Rt(Exec(s, steps), c).active
  }

  lemma FinishIdles(s: State, t: nat, c: Conv)
    requires t < |s.tasks| && s.tasks[t].m.conv == c && s.tasks[t].phase.Running?
    ensures Runs(s, [Handler(t, SetInactive)]) && !Rt(Exec(s, [Handler(t, SetInactive)]), c).active
  {
    ExecOne(s, Handler(t, SetInactive));
  }

  lemma SpawnAndFinishIdles(s: State, c: Conv)
    requires s.dispatcher.Spawning? && s.dispatcher.m.conv == c
    ensures CanIdle(s, c)
  {
    var t, s' := |s.tasks|, DoDispatch(s, Spawn);
    assert s'.tasks[t] == Task(s.dispatcher.m, Running);
    FinishIdles(s', t, c);
    ExecCons(s, Dispatcher(Spawn), [Handler(t, SetInactive)]);
  }

  /** A conversation can become idle again exactly if no handler of it has panicked. */
  lemma IdleAgainIff(s: State, c: Conv)
    requires Exclusive(s)
    ensures CanIdle(s, c) <==> !Jammed(s, c)
  {
    if Jammed(s, c) {
      forall steps | Runs(s, steps) ensures Rt(Exec(s, steps), c).active { PanicJams(s, steps, c); }
    } else if Rt(s, c).active {
      var o :| Live(s, c, o);
      match o
      case Starting => SpawnAndFinishIdles(s, c);
      case Handling(t) => FinishIdles(s, t, c);
    } else {
      assert Runs(s, []) && Exec(s, []) == s;
    }
  }

  // ---- The protocol with its two read-modify-write pairs made atomic ----

  /** A scheduling unit: either one step, or one of the two pairs run without interruption. */
  datatype Unit = One(step: Step) | BufferIfBusy | FinishAndDrain(t: nat)

  function Expand(u: Unit): seq<Step> {
    match u
    case One(step) => [step]
    case BufferIfBusy => [Dispatcher(CheckActive), Dispatcher(PushPending)]
    case FinishAndDrain(t) => [Handler(t, SetInactive), Handler(t, FinalDrain)]
  }

  function Flatten(us: seq<Unit>): seq<Step> {
    if us == [] then [] else Expand(us[0]) + Flatten(us[1..])
  }

  /** The pairs occur only as pairs; a lone check is one that found the conversation idle. */
  predicate Allowed(s: State, u: Unit) {
    match u
    case One(Dispatcher(PushPending)) => false
    case One(Dispatcher(CheckActive)) => s.dispatcher.Checking? && !Rt(s, s.dispatcher.m.conv).active
    case One(Handler(_, op)) => !op.SetInactive? && !op.FinalDrain?
    case _ => true
  }

  predicate AtomicRun(s: State, us: seq<Unit>)
    decreases |us|
  {
    us == [] ||
    (Allowed(s, us[0]) && Runs(s, Expand(us[0])) && AtomicRun(Exec(s, Expand(us[0])), us[1..]))
  }

  lemma {:induction false} ExecConcat(s: State, a: seq<Step>, b: seq<Step>)
    requires Runs(s, a) && Runs(Exec(s, a), b)
    ensures Runs(s, a + b) && Exec(s, a + b) == Exec(Exec(s, a), b)
    decreases |a|
  {
    if a == [] {
      assert a + b == b;
    } else {
      assert (a + b)[1..] == a[1..] + b;
      ExecConcat(Apply(s, a[0]), a[1..], b);
    }
  }

  ghost predicate NoLoss(s: State) {
    && s.discarded == multiset{}
    && !s.dispatcher.Pushing?
    && (forall t :: 0 <= t < |s.tasks| ==> !s.tasks[t].phase.Draining?)
    && (forall c :: !Rt(s, c).active ==> Rt(s, c).pending == [])
  }

  ghost predicate Settled(s: State) {
    Exclusive(s) && NoLoss(s)
  }

  lemma NoLossClear(s: State)
    requires Settled(s) && CanDispatch(s, ClearPending)
    ensures NoLoss(DoDispatch(s, ClearPending))
  {
    var s', c0 := DoDispatch(s, ClearPending), s.dispatcher.m.conv;
    assert Rt(s, c0).pending == [] && Tag(c0, []) == multiset{};
    assert forall c :: Rt(s', c) == Rt(s, c);
  }

  lemma NoLossDispatch(s: State, op: DispatcherOp)
    requires Settled(s) && Allowed(s, One(Dispatcher(op))) && CanDispatch(s, op) && !op.ClearPending?
    ensures NoLoss(DoDispatch(s, op))
  {
    var s' := DoDispatch(s, op);
    forall c | !Rt(s', c).active ensures Rt(s', c).pending == [] {
      assert Rt(s', c).pending == Rt(s, c).pending && (Rt(s, c).active ==> Rt(s', c).active);
    }
  }

  lemma NoLossHandle(s: State, t: nat, op: HandlerOp)
    requires NoLoss(s) && CanHandle(s, t, op) && !op.SetInactive? && !op.FinalDrain?
    ensures NoLoss(DoHandle(s, t, op))
  {
    var s' := DoHandle(s, t, op);
    forall c | !Rt(s', c).active ensures Rt(s', c).pending == [] {
      assert !Rt(s, c).active;
    }
  }

  lemma SettledStep(s: State, step: Step)
    requires Settled(s) && Allowed(s, One(step)) && Enabled(s, step)
    ensures Settled(Apply(s, step))
  {
    ExclusiveStep(s, step);
    match step
    case Publish(e) => assert forall c :: Rt(DoPublish(s, e), c) == Rt(s, c);
    case Dispatcher(op) => if op.ClearPending? { NoLossClear(s); } else { NoLossDispatch(s, op); }
    case Handler(t, op) => NoLossHandle(s, t, op);
  }

  lemma SettledBuffer(s: State)
    requires Settled(s) && CanDispatch(s, CheckActive) && CanDispatch(DoDispatch(s, CheckActive), PushPending)
    ensures Settled(DoDispatch(DoDispatch(s, CheckActive), PushPending))
  {
    var mid := DoDispatch(s, CheckActive);
    ExclusiveStep(s, Dispatcher(CheckActive));
    ExclusiveStep(mid, Dispatcher(PushPending));
    var s' := DoDispatch(mid, PushPending);
    forall c | !Rt(s', c).active ensures Rt(s', c).pending == [] {
      assert !Rt(s, c).active;
    }
  }

  lemma SettledFinish(s: State, t: nat)
    requires Settled(s) && CanHandle(s, t, SetInactive) && CanHandle(DoHandle(s, t, SetInactive), t, FinalDrain)
    ensures Settled(DoHandle(DoHandle(s, t, SetInactive), t, FinalDrain))
  {
    var mid := DoHandle(s, t, SetInactive);
    ExclusiveStep(s, Handler(t, SetInactive));
    ExclusiveStep(mid, Handler(t, FinalDrain));
    var s' := DoHandle(mid, t, FinalDrain);
    forall c | !Rt(s', c).active ensures Rt(s', c).pending == [] {
      assert c != s.tasks[t].m.conv ==> !Rt(s, c).active;
    }
  }

  lemma ExecPair(s: State, a: Step, b: Step)
    requires Runs(s, [a, b])
    ensures Enabled(s, a) && Enabled(Apply(s, a), b) && Exec(s, [a, b]) == Apply(Apply(s, a), b)
  {
    assert [a, b][1..] == [b];
    assert Exec(Apply(s, a), [b]) == Apply(Apply(s, a), b);
  }

  lemma SettledUnit(s: State, u: Unit)
    requires Settled(s) && Allowed(s, u) && Runs(s, Expand(u))
    ensures Settled(Exec(s, Expand(u)))
  {
    match u
    case One(step) =>
      SettledStep(s, step);
    case BufferIfBusy =>
      ExecPair(s, Dispatcher(CheckActive), Dispatcher(PushPending));
      SettledBuffer(s);
    case FinishAndDrain(t) =>
      ExecPair(s, Handler(t, SetInactive), Handler(t, FinalDrain));
      SettledFinish(s, t);
  }

  lemma {:induction false} SettledRun(s: State, us: seq<Unit>)
    requires Settled(s) && AtomicRun(s, us)
    ensures Runs(s, Flatten(us)) && Settled(Exec(s, Flatten(us)))
    decreases |us|
  {
    if us != [] {
      SettledUnit(s, us[0]);
      SettledRun(Exec(s, Expand(us[0])), us[1..]);
      ExecConcat(s, Expand(us[0]), Flatten(us[1..]));
    }
  }

  predicate Quiet(s: State) {
    && s.bus == [] && s.dispatcher.Idle?
    && forall t :: 0 <= t < |s.tasks| ==> s.tasks[t].phase.Finished?
  }

  /**
   With both pairs atomic, an idle conversation has an empty buffer, nothing is ever discarded,
   and once every handler has finished and nothing is left to do, every published message
   reached a handler or a running loop.
   */
  lemma AtomicPairsLoseNothing(us: seq<Unit>)
    requires AtomicRun(INIT, us)
    ensures Runs(INIT, Flatten(us))
    ensures var s := Exec(INIT, Flatten(us));
            && s.discarded == multiset{}
            && (forall c :: !Rt(s, c).active ==> Rt(s, c).pending == [])
            && (Quiet(s) ==> forall m: Message :: m.text != "" ==> s.published[m] == s.handled[m] + s.drained[m])
  {
    SettledRun(INIT, us);
    var s := Exec(INIT, Flatten(us));
    if Quiet(s) {
      forall m: Message | m.text != "" ensures s.published[m] == s.handled[m] + s.drained[m] {
        BalancedRun(INIT, Flatten(us), m);
        QuietTransit(s.tasks, m);
        assert forall o :: !Live(s, m.conv, o);
        assert !Rt(s, m.conv).active;
      }
    }
  }

  // ---- Both windows lose messages ----

  ghost predicate Reachable(s: State) {
    exists steps :: Runs(INIT, steps) && Exec(INIT, steps) == s
  }

  lemma ReachableStep(s: State, step: Step) returns (s': State)
    requires Reachable(s) && Enabled(s, step)
    ensures s' == Apply(s, step) && Reachable(s')
  {
    var steps :| Runs(INIT, steps) && Exec(INIT, steps) == s;
    ExecConcat(INIT, steps, [step]);
    s' := Apply(s, step);
  }

  function Say(text: string): Step {
    Publish(Event(Some("c"), text))
  }

  /** What a dispatched message finds when its conversation is idle: it clears the buffer. */
  lemma RestartClears(s: State, text: string) returns (s': State)
    requires Reachable(s) && s.bus == [] && s.dispatcher.Idle? && !Rt(s, "c").active && text != ""
    ensures Reachable(s') && s'.discarded == s.discarded + Tag("c", Rt(s, "c").pending)
    ensures s'.tasks == s.tasks && s'.bus == [] && s'.dispatcher == Storing(Message("c", text))
    ensures Rt(s', "c") == Runtime(false, []) && s'.late == s.late - {"c"}
  {
    s' := ReachableStep(s, Say(text));
    s' := ReachableStep(s', Dispatcher(Receive));
    s' := ReachableStep(s', Dispatcher(CheckActive));
    s' := ReachableStep(s', Dispatcher(ReplaceToken));
    s' := ReachableStep(s', Dispatcher(ClearPending));
  }

  /** A first message leaves its conversation busy with one handler. */
  lemma Started() returns (s: State)
    ensures Reachable(s) && s.bus == [] && s.dispatcher.Idle? && Rt(s, "c") == Runtime(true, [])
    ensures s.tasks == [Task(Message("c", "a"), Running)] && s.discarded == multiset{} && s.late == {}
  {
    assert Runs(INIT, []) && Exec(INIT, []) == INIT;
    s := RestartClears(INIT, "a");
    s := ReachableStep(s, Dispatcher(StoreInactive));
    s := ReachableStep(s, Dispatcher(SetActive));
    s := ReachableStep(s, Dispatcher(Spawn));
  }

  /** A second message is seen to find it busy. */
  lemma SeenBusy() returns (s: State)
    ensures Reachable(s) && s.bus == [] && s.dispatcher == Pushing(Message("c", "b"))
    ensures Rt(s, "c") == Runtime(true, []) && s.tasks == [Task(Message("c", "a"), Running)]
    ensures s.discarded == multiset{} && s.late == {}
  {
    s := Started();
    s := ReachableStep(s, Say("b"));
    s := ReachableStep(s, Dispatcher(Receive));
    s := ReachableStep(s, Dispatcher(CheckActive));
  }

  /** A message is buffered in time, and the handler is about to drain it. */
  lemma AboutToDrain() returns (s: State)
    ensures Reachable(s) && s.bus == [] && s.dispatcher.Idle? && Rt(s, "c") == Runtime(false, ["b"])
    ensures s.discarded == multiset{} && s.late == {}
  {
    s := SeenBusy();
    s := ReachableStep(s, Dispatcher(PushPending));
    s := ReachableStep(s, Handler(0, SetInactive));
  }

  /** The dispatcher restarts the conversation before the old handler's final drain. */
  lemma RestartBeforeFinalDrainLoses() returns (s: State)
    ensures Reachable(s) && s.discarded == multiset{Message("c", "b")} && s.late == {}
  {
    s := AboutToDrain();
    assert Tag("c", ["b"]) == multiset{Message("c", "b")};
    s := RestartClears(s, "d");
  }

  /** The dispatcher buffers after the handler it saw has gone: the message is stranded ... */
  lemma LatePushStrands() returns (s: State)
    ensures Reachable(s) && Quiet(s) && Rt(s, "c") == Runtime(false, ["b"])
    ensures s.discarded == multiset{}
  {
    s := SeenBusy();
    s := ReachableStep(s, Handler(0, SetInactive));
    s := ReachableStep(s, Handler(0, FinalDrain));
    s := ReachableStep(s, Handler(0, Exit));
    s := ReachableStep(s, Dispatcher(PushPending));
  }

  /** ... and the next message's `reset` throws it away, with no handler left to drain it. */
  lemma LatePushLoses() returns (s: State)
    ensures Reachable(s) && s.discarded == multiset{Message("c", "b")} && !DrainPending(s, "c")
  {
    s := LatePushStrands();
    assert Tag("c", ["b"]) == multiset{Message("c", "b")};
    s := RestartClears(s, "d");
  }

  /** A conversation jammed by its first handler, with the next message stuck in the buffer and nothing left to do. */
  lemma PanicStrands() returns (s: State)
    ensures Reachable(s) && Jammed(s, "c") && s.bus == [] && s.dispatcher.Idle? && Rt(s, "c") == Runtime(true, ["b"])
    ensures s.tasks == [Task(Message("c", "a"), Crashed)]
  {
    s := SeenBusy();
    s := ReachableStep(s, Handler(0, Crash));
    s := ReachableStep(s, Dispatcher(PushPending));
    assert s.tasks[0].phase.Crashed?;
  }
}

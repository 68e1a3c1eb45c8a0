/**
 The ReAct loop: call the model, run the tools it asks for, append both to the transcript,
 until it answers without tools, yields, or a budget is spent.  The provider, the tools, the
 pending messages, the cancellation token and the clock are arbitrary.
 */
module ReactLoop {
  import opened Prelude

  // ---- Repetition detection ----

  function LastN(s: seq<int>, n: nat): seq<int> {
    if |s| > n then s[|s| - n..] else s
  }

  function Count(s: seq<int>, x: int): nat {
    if s == [] then 0 else Count(s[..|s| - 1], x) + if s[|s| - 1] == x then 1 else 0
  }

  /** The fingerprint occurs at least `threshold` times among the last `window` calls, itself included. */
  predicate Repeats(window: nat, threshold: nat, history: seq<int>, fp: int) {
    Count(LastN(history + [fp], window), fp) >= threshold
  }

  class RepetitionTracker {
    const windowSize: nat
    const threshold: nat
    var fingerprints: seq<int>
    ghost var history: seq<int>

    ghost predicate Valid()
      reads this
    {
      fingerprints == LastN(history, windowSize)
    }

    constructor (windowSize: nat, threshold: nat)
      ensures Valid() && history == [] && this.windowSize == windowSize && this.threshold == threshold
    {
      this.windowSize, this.threshold := windowSize, threshold;
      fingerprints, history := [], [];
    }

    /** Only the window is kept, yet the answer is about the whole history. */
    method Record(fp: int) returns (hit: bool)
      requires Valid()
      modifies this
      ensures Valid() && history == old(history) + [fp]
      ensures hit <==> Repeats(windowSize, threshold, old(history), fp)
    {
      ghost var before := history;
      history := history + [fp];
      fingerprints := fingerprints + [fp];
      if |fingerprints| > windowSize {
        fingerprints := fingerprints[1..];
      }
      assert fingerprints == LastN(history, windowSize);
      var count := 0;
      for i := 0 to |fingerprints|
        invariant count == Count(fingerprints[..i], fp)
      {
        assert fingerprints[..i + 1][..i] == fingerprints[..i];
        if fingerprints[i] == fp {
          count := count + 1;
        }
      }
      assert fingerprints[..|fingerprints|] == fingerprints;
      return count >= threshold;
    }
  }

  // ---- Messages and the world ----

  datatype ToolCall = ToolCall(id: string, name: string, arguments: string)

  datatype ChatMessage =
    | User(text: string)
    | Assistant(content: string, toolCalls: seq<ToolCall>)
    | ToolResult(toolCallId: string, content: string)
    | Other(text: string)

  datatype Response = Response(content: string, toolCalls: seq<ToolCall>, outputTokens: nat)

  datatype ChatOutcome = Replied(response: Response) | Failed(error: string) | TimedOut

  /**
   Everything the loop does not decide.  Round `k` is the one before which `k` replies came in;
   tool results (after scrubbing and compaction) may depend on how many tools ran before.
   */
  datatype World = World(
    drain: nat -> seq<string>, cancelled: nat -> bool, expired: nat -> bool,
    chat: (nat, seq<ChatMessage>) -> ChatOutcome, tool: (nat, ToolCall) -> string, fingerprint: ToolCall -> int)

  datatype Config = Config(maxTurns: nat, maxOutputTokens: nat, repetitionWindow: nat, repetitionThreshold: nat)

  datatype TurnResult = TurnResult(content: string, toolCalls: nat, llmCalls: nat, outputTokens: nat)

  datatype ReactResult =
    | Completed(result: TurnResult)
    | BudgetExhausted(result: TurnResult)
    | Cancelled(turns: nat)
    | Yielded(turns: nat, call: ToolCall)
    | LlmError(error: string)
    | Timeout

  const YIELD := "yield_control"
  const EXHAUSTED := "[budget exhausted]"
  const WARNING :=
    User("You are repeating the same actions with the same arguments. "
         + "Try a different approach or explain what you are stuck on.")

  // ---- What a run looks like ----

  function Users(texts: seq<string>): seq<ChatMessage> {
    seq(|texts|, i requires 0 <= i < |texts| => User(texts[i]))
  }

  function Prints(w: World, calls: seq<ToolCall>): seq<int> {
    seq(|calls|, i requires 0 <= i < |calls| => w.fingerprint(calls[i]))
  }

  /** The answers to `calls`, the first of them being tool run number `first`. */
  function Answers(w: World, first: nat, calls: seq<ToolCall>): seq<ChatMessage> {
    seq(|calls|, i requires 0 <= i < |calls| => ToolResult(calls[i].id, w.tool(first + i, calls[i])))
  }

  predicate Hit(w: World, cfg: Config, history: seq<int>, call: ToolCall) {
    cfg.repetitionWindow > 0 && Repeats(cfg.repetitionWindow, cfg.repetitionThreshold, history, w.fingerprint(call))
  }

  /** The first `n` calls neither yield nor trip the detector. */
  ghost predicate Quiet(w: World, cfg: Config, history: seq<int>, calls: seq<ToolCall>, n: nat)
    requires n <= |calls|
  {
    forall i :: 0 <= i < n ==> calls[i].name != YIELD && !Hit(w, cfg, history + Prints(w, calls[..i]), calls[i])
  }

  /**
   A turn that goes on: a non-empty prefix of the calls is answered, in order; the detector
   cuts it short exactly at the first repetition, and then the warning follows.
   */
  ghost predicate TurnGoesOn(
    w: World, cfg: Config, history: seq<int>, calls: seq<ToolCall>, answered: nat, warned: bool) {
    && 0 < answered <= |calls| && Quiet(w, cfg, history, calls, answered - 1) && calls[answered - 1].name != YIELD
    && warned == Hit(w, cfg, history + Prints(w, calls[..answered - 1]), calls[answered - 1])
    && (warned || answered == |calls|)
  }

  /** What such a turn appends. */
  function Block(w: World, first: nat, reply: Response, answered: nat, warned: bool): seq<ChatMessage>
    requires answered <= |reply.toolCalls|
  {
    [Assistant(reply.content, reply.toolCalls)] + Answers(w, first, reply.toolCalls[..answered]) +
    if warned then [WARNING] else []
  }

  /** One call of the provider: what it was sent, what came back, and how its tool calls fared. */
  datatype Call = Call(sent: seq<ChatMessage>, outcome: ChatOutcome, answered: nat, warned: bool) {
    /** The tool calls that were run. */
    function Ran(): seq<ToolCall> {
      if outcome.Replied? && answered <= |outcome.response.toolCalls|
      then outcome.response.toolCalls[..answered] else []
    }

    function Cost(): nat {
      if outcome.Replied? then outcome.response.outputTokens else 0
    }
  }

  function Tokens(calls: seq<Call>): nat {
    if calls == [] then 0 else Tokens(calls[..|calls| - 1]) + calls[|calls| - 1].Cost()
  }

  function ToolRuns(calls: seq<Call>): nat {
    if calls == [] then 0 else ToolRuns(calls[..|calls| - 1]) + |calls[|calls| - 1].Ran()|
  }

  /** The fingerprints of every tool run so far. */
  function History(w: World, calls: seq<Call>): seq<int> {
    if calls == [] then [] else History(w, calls[..|calls| - 1]) + Prints(w, calls[|calls| - 1].Ran())
  }

  /** The budgets and the token allow a call after the settled ones. */
  ghost predicate MayCall(w: World, cfg: Config, settled: seq<Call>) {
    && |settled| < cfg.maxTurns && (cfg.maxOutputTokens == 0 || Tokens(settled) < cfg.maxOutputTokens)
    && !w.cancelled(|settled|) && !w.expired(|settled|)
  }

  /** `c` is an allowed call and carries what the provider said. */
  ghost predicate Permitted(w: World, cfg: Config, settled: seq<Call>, c: Call) {
    MayCall(w, cfg, settled) && c.outcome == w.chat(|settled|, c.sent)
  }

  /** The transcript once the settled calls were answered, before anything pending is drained. */
  ghost function Chat(w: World, initial: seq<ChatMessage>, settled: seq<Call>): seq<ChatMessage> {
    if settled == [] then initial
    else
      var front, c := settled[..|settled| - 1], settled[|settled| - 1];
      if c.outcome.Replied? && c.answered <= |c.outcome.response.toolCalls|
      then c.sent + Block(w, ToolRuns(front), c.outcome.response, c.answered, c.warned) else c.sent
  }

  /** `c` is a call the loop may make next: it is sent all that came before plus what was pending. */
  ghost predicate Next(w: World, cfg: Config, initial: seq<ChatMessage>, settled: seq<Call>, c: Call) {
    Permitted(w, cfg, settled, c) && c.sent == Chat(w, initial, settled) + Users(w.drain(|settled|))
  }

  ghost predicate WentOn(w: World, cfg: Config, settled: seq<Call>, c: Call) {
    c.outcome.Replied? && TurnGoesOn(w, cfg, History(w, settled), c.outcome.response.toolCalls, c.answered, c.warned)
  }

  ghost predicate Step(w: World, cfg: Config, initial: seq<ChatMessage>, settled: seq<Call>, c: Call) {
    Next(w, cfg, initial, settled, c) && WentOn(w, cfg, settled, c)
  }

  /** A run so far: each call was the next one and the loop went on from it. */
  ghost predicate Run(w: World, cfg: Config, initial: seq<ChatMessage>, settled: seq<Call>) {
    forall k {:trigger Step(w, cfg, initial, settled[..k], settled[k])} :: 0 <= k < |settled| ==>
      Step(w, cfg, initial, settled[..k], settled[k])
  }

  /** Why the loop ended: between two calls, or with the reply to the last one. */
  ghost predicate Ended(w: World, cfg: Config, initial: seq<ChatMessage>, calls: seq<Call>, r: ReactResult) {
    || (Run(w, cfg, initial, calls) && StopsBetween(w, cfg, calls, r))
    || (calls != [] && EndedWith(w, cfg, initial, calls[..|calls| - 1], calls[|calls| - 1], r))
  }

  ghost predicate EndedWith(
    w: World, cfg: Config, initial: seq<ChatMessage>, settled: seq<Call>, c: Call, r: ReactResult) {
    Run(w, cfg, initial, settled) && Next(w, cfg, initial, settled, c) && StopsWith(w, cfg, settled, c, r)
  }

  ghost predicate StopsBetween(w: World, cfg: Config, settled: seq<Call>, r: ReactResult) {
    match r
    case Cancelled(turns) => turns == |settled| && w.cancelled(turns)
    case BudgetExhausted(t) =>
      && t == TurnResult(EXHAUSTED, ToolRuns(settled), |settled|, Tokens(settled))
      && (|settled| >= cfg.maxTurns || (cfg.maxOutputTokens > 0 && Tokens(settled) >= cfg.maxOutputTokens))
    case Timeout => w.expired(|settled|)
    case _ => false
  }

  ghost predicate StopsWith(w: World, cfg: Config, settled: seq<Call>, c: Call, r: ReactResult) {
    match r
    case LlmError(e) => c.outcome == Failed(e)
    case Timeout => c.outcome.TimedOut?
    case Completed(t) =>
      && c.outcome.Replied? && c.outcome.response.toolCalls == []
      && t == TurnResult(c.outcome.response.content, ToolRuns(settled), |settled| + 1, Tokens(settled) + c.Cost())
    case Yielded(turns, call) =>
      && turns == |settled| + 1 && c.outcome.Replied? && c.answered < |c.outcome.response.toolCalls|
      && call == c.outcome.response.toolCalls[c.answered] && call.name == YIELD
      && Quiet(w, cfg, History(w, settled), c.outcome.response.toolCalls, c.answered)
    case _ => false
  }

  // ---- The loop ----

  /** Run the tool calls of one reply until one yields, the detector trips, or all are answered. */
  method ProcessCalls(
    w: World, cfg: Config, tracker: RepetitionTracker?, ghost history: seq<int>, chat: seq<ChatMessage>, first: nat,
    reply: Response)
    returns (chat': seq<ChatMessage>, answered: nat, warned: bool, yielded: bool)
    requires reply.toolCalls != [] && Tracks(tracker, cfg, history)
    modifies tracker
    ensures answered <= |reply.toolCalls| && chat' == chat + Block(w, first, reply, answered, warned)
    ensures Tracks(tracker, cfg, history + Prints(w, reply.toolCalls[..answered]))
    ensures !yielded ==> TurnGoesOn(w, cfg, history, reply.toolCalls, answered, warned)
    ensures yielded ==>
              && !warned && answered < |reply.toolCalls| && reply.toolCalls[answered].name == YIELD
              && Quiet(w, cfg, history, reply.toolCalls, answered)
  {
    var calls := reply.toolCalls;
    chat' := chat + [Assistant(reply.content, calls)];
    answered, warned, yielded := 0, false, false;
    BlockStarts(w, first, reply, chat);
    assert history + Prints(w, calls[..0]) == history;
    while answered < |calls|
      invariant answered <= |calls| && !warned && !yielded
      invariant chat' == chat + Block(w, first, reply, answered, false)
      invariant Tracks(tracker, cfg, history + Prints(w, calls[..answered]))
      invariant Quiet(w, cfg, history, calls, answered)
    {
      var call := calls[answered];
      if call.name == YIELD {
        yielded := true;
        return;
      }
      chat' := chat' + [ToolResult(call.id, w.tool(first + answered, call))];
      BlockGrows(w, first, reply, answered, chat, history);
      answered := answered + 1;
      if tracker != null {
        warned := tracker.Record(w.fingerprint(call));
        if warned {
          chat' := chat' + [WARNING];
          return;
        }
      }
    }
  }

  /** The checks before each call: cancellation, turns, tokens, deadline. */
  method CheckLimits(w: World, cfg: Config, ghost settled: seq<Call>, toolCalls: nat, llmCalls: nat, outputTokens: nat)
    returns (stop: Option<ReactResult>)
    requires toolCalls == ToolRuns(settled) && llmCalls == |settled| && outputTokens == Tokens(settled)
    ensures stop.Some? ==> StopsBetween(w, cfg, settled, stop.value)
    ensures stop.None? ==> MayCall(w, cfg, settled)
  {
    if w.cancelled(llmCalls) {
      return Some(Cancelled(llmCalls));
    }
    if llmCalls >= cfg.maxTurns {
      return Some(BudgetExhausted(TurnResult(EXHAUSTED, toolCalls, llmCalls, outputTokens)));
    }
    if cfg.maxOutputTokens > 0 && outputTokens >= cfg.maxOutputTokens {
      return Some(BudgetExhausted(TurnResult(EXHAUSTED, toolCalls, llmCalls, outputTokens)));
    }
    if w.expired(llmCalls) {
      return Some(Timeout);
    }
    return None;
  }

  /** The tracker, if there is one, has seen the history. */
  ghost predicate Tracks(tracker: RepetitionTracker?, cfg: Config, history: seq<int>)
    reads tracker
  {
    && (tracker == null <==> cfg.repetitionWindow == 0)
    && (tracker != null ==>
          && tracker.Valid() && tracker.history == history
          && tracker.windowSize == cfg.repetitionWindow && tracker.threshold == cfg.repetitionThreshold)
  }

  lemma AnswersPush(w: World, first: nat, calls: seq<ToolCall>, n: nat)
    requires n < |calls|
    ensures Answers(w, first, calls[..n + 1])
            == Answers(w, first, calls[..n]) + [ToolResult(calls[n].id, w.tool(first + n, calls[n]))]
    ensures Prints(w, calls[..n + 1]) == Prints(w, calls[..n]) + [w.fingerprint(calls[n])]
  {
  }

  lemma Regroup<T>(a: seq<T>, b: seq<T>, c: seq<T>, d: seq<T>)
    ensures a + (b + c) + d == a + (b + (c + d)) && (a + b) + c == a + (b + c)
  {
  }

  lemma BlockStarts(w: World, first: nat, reply: Response, chat: seq<ChatMessage>)
    ensures chat + [Assistant(reply.content, reply.toolCalls)] == chat + Block(w, first, reply, 0, false)
  {
    assert Answers(w, first, reply.toolCalls[..0]) == [];
  }

  lemma BlockGrows(w: World, first: nat, reply: Response, n: nat, chat: seq<ChatMessage>, history: seq<int>)
    requires n < |reply.toolCalls|
    ensures var call := reply.toolCalls[n];
            var grown := chat + Block(w, first, reply, n, false) + [ToolResult(call.id, w.tool(first + n, call))];
            && grown == chat + Block(w, first, reply, n + 1, false)
            && grown + [WARNING] == chat + Block(w, first, reply, n + 1, true)
    ensures history + Prints(w, reply.toolCalls[..n + 1])
            == history + Prints(w, reply.toolCalls[..n]) + [w.fingerprint(reply.toolCalls[n])]
  {
    AnswersPush(w, first, reply.toolCalls, n);
    var a := [Assistant(reply.content, reply.toolCalls)];
    var answers := Answers(w, first, reply.toolCalls[..n]);
    var last := [ToolResult(reply.toolCalls[n].id, w.tool(first + n, reply.toolCalls[n]))];
    assert Block(w, first, reply, n, false) == a + answers;
    assert Block(w, first, reply, n + 1, false) == a + (answers + last);
    assert Block(w, first, reply, n + 1, true) == a + (answers + last) + [WARNING];
    Regroup(chat, a, answers, last);
    Regroup(history, Prints(w, reply.toolCalls[..n]), [w.fingerprint(reply.toolCalls[n])], []);
    Regroup(chat, a + (answers + last), [WARNING], []);
  }

  lemma RunPush(w: World, cfg: Config, initial: seq<ChatMessage>, settled: seq<Call>, c: Call)
    requires Run(w, cfg, initial, settled) && Step(w, cfg, initial, settled, c)
    ensures Run(w, cfg, initial, settled + [c])
  {
    var all := settled + [c];
    forall k | 0 <= k < |all| ensures Step(w, cfg, initial, all[..k], all[k]) {
      assert all[..k] == settled[..k];
      if k == |settled| {
        assert settled[..k] == settled;
      } else {
        assert Step(w, cfg, initial, settled[..k], settled[k]);
      }
    }
  }

  lemma Settle(w: World, cfg: Config, initial: seq<ChatMessage>, settled: seq<Call>, c: Call)
    ensures Tokens(settled + [c]) == Tokens(settled) + c.Cost()
    ensures ToolRuns(settled + [c]) == ToolRuns(settled) + |c.Ran()|
    ensures History(w, settled + [c]) == History(w, settled) + Prints(w, c.Ran())
    ensures WentOn(w, cfg, settled, c) ==>
              Chat(w, initial, settled + [c])
                == c.sent + Block(w, ToolRuns(settled), c.outcome.response, c.answered, c.warned)
  {
    assert (settled + [c])[..|settled|] == settled;
  }

  lemma EndWith(w: World, cfg: Config, initial: seq<ChatMessage>, settled: seq<Call>, c: Call, r: ReactResult)
    requires EndedWith(w, cfg, initial, settled, c, r)
    ensures Ended(w, cfg, initial, settled + [c], r)
  {
    assert (settled + [c])[..|settled|] == settled;
  }

  /** One call of the provider, up to the point where the loop ends or goes on. */
  method TakeTurn(
    w: World, cfg: Config, tracker: RepetitionTracker?, ghost initial: seq<ChatMessage>, ghost settled: seq<Call>,
    chat: seq<ChatMessage>, toolCalls: nat, llmCalls: nat, outputTokens: nat)
    returns (c: Call, end: Option<ReactResult>, chat': seq<ChatMessage>)
    requires MayCall(w, cfg, settled) && chat == Chat(w, initial, settled) + Users(w.drain(|settled|))
    requires toolCalls == ToolRuns(settled) && llmCalls == |settled| && outputTokens == Tokens(settled)
    requires Tracks(tracker, cfg, History(w, settled))
    modifies tracker
    ensures Next(w, cfg, initial, settled, c)
    ensures end.Some? ==> StopsWith(w, cfg, settled, c, end.value)
    ensures end.None? ==>
              && WentOn(w, cfg, settled, c) && Tracks(tracker, cfg, History(w, settled) + Prints(w, c.Ran()))
              && chat' == c.sent + Block(w, toolCalls, c.outcome.response, c.answered, c.warned)
  {
    var outcome := w.chat(llmCalls, chat);
    c, end, chat' := Call(chat, outcome, 0, false), None, chat;
    match outcome {
      case Failed(e) => end := Some(LlmError(e));
      case TimedOut => end := Some(Timeout);
      case Replied(reply) =>
        if reply.toolCalls == [] {
          end := Some(Completed(TurnResult(reply.content, toolCalls, llmCalls + 1, outputTokens + reply.outputTokens)));
        } else {
          var answered, warned, yielded;
          chat', answered, warned, yielded :=
            ProcessCalls(w, cfg, tracker, History(w, settled), chat, toolCalls, reply);
          c := Call(chat, outcome, answered, warned);
          if yielded {
            end := Some(Yielded(llmCalls + 1, reply.toolCalls[answered]));
          }
        }
    }
  }

  method RunInner(w: World, cfg: Config, initial: seq<ChatMessage>) returns (r: ReactResult, calls: seq<Call>)
    ensures Ended(w, cfg, initial, calls, r)
  {
    var chat := initial;
    var toolCalls, llmCalls, outputTokens := 0, 0, 0;
    var tracker: RepetitionTracker? := null;
    if cfg.repetitionWindow > 0 {
      tracker := new RepetitionTracker(cfg.repetitionWindow, cfg.repetitionThreshold);
    }
    calls := [];
    while true
      invariant Run(w, cfg, initial, calls) && llmCalls == |calls| <= cfg.maxTurns
      invariant chat == Chat(w, initial, calls)
      invariant toolCalls == ToolRuns(calls) && outputTokens == Tokens(calls)
      invariant (tracker != null ==> fresh(tracker)) && Tracks(tracker, cfg, History(w, calls))
      decreases cfg.maxTurns - llmCalls
    {
      chat := chat + Users(w.drain(llmCalls));
      var stop := CheckLimits(w, cfg, calls, toolCalls, llmCalls, outputTokens);
      if stop.Some? {
        return stop.value, calls;
      }
      var c, end;
      c, end, chat := TakeTurn(w, cfg, tracker, initial, calls, chat, toolCalls, llmCalls, outputTokens);
      if end.Some? {
        EndWith(w, cfg, initial, calls, c, end.value);
        return end.value, calls + [c];
      }
      Settle(w, cfg, initial, calls, c);
      RunPush(w, cfg, initial, calls, c);
      llmCalls := llmCalls + 1;
      outputTokens := outputTokens + c.outcome.response.outputTokens;
      toolCalls := toolCalls + c.answered;
      calls := calls + [c];
    }
  }

  // ---- What every run promises ----

  lemma RunPrefix(w: World, cfg: Config, initial: seq<ChatMessage>, settled: seq<Call>, j: nat)
    requires Run(w, cfg, initial, settled) && j <= |settled|
    ensures Run(w, cfg, initial, settled[..j])
  {
    forall k | 0 <= k < j ensures Step(w, cfg, initial, settled[..j][..k], settled[..j][k]) {
      assert Step(w, cfg, initial, settled[..k], settled[k]);
      assert settled[..j][..k] == settled[..k];
    }
  }

  /** Every call of a run that ended was a next call of a run. */
  lemma EndedPrefix(w: World, cfg: Config, initial: seq<ChatMessage>, calls: seq<Call>, r: ReactResult, j: nat)
    requires Ended(w, cfg, initial, calls, r) && j < |calls|
    ensures Run(w, cfg, initial, calls[..j]) && Next(w, cfg, initial, calls[..j], calls[j])
  {
    if Run(w, cfg, initial, calls) {
      RunPrefix(w, cfg, initial, calls, j);
      assert Step(w, cfg, initial, calls[..j], calls[j]);
    } else {
      var settled := calls[..|calls| - 1];
      RunPrefix(w, cfg, initial, settled, j);
      assert settled[..j] == calls[..j];
      if j < |settled| { assert Step(w, cfg, initial, settled[..j], settled[j]); }
    }
  }

  /** Call `k` is sent all that came before. */
  ghost predicate Extends(initial: seq<ChatMessage>, calls: seq<Call>, k: nat)
    requires k < |calls|
  {
    if k == 0 then initial <= calls[0].sent else calls[k - 1].sent <= calls[k].sent
  }

  lemma NextExtends(w: World, cfg: Config, initial: seq<ChatMessage>, calls: seq<Call>, k: nat)
    requires k < |calls| && Next(w, cfg, initial, calls[..k], calls[k])
    ensures Extends(initial, calls, k)
  {
    if k > 0 { assert calls[..k][k - 1] == calls[k - 1]; }
  }

  ghost predicate Ascending(calls: seq<Call>) {
    forall k, m :: 0 <= k && k + 1 == m < |calls| ==> calls[k].sent <= calls[m].sent
  }

  lemma {:induction false} PrefixChain(calls: seq<Call>, i: nat, j: nat)
    requires Ascending(calls) && i <= j < |calls|
    ensures calls[i].sent <= calls[j].sent
    decreases j
  {
    if i < j {
      PrefixChain(calls, i, j - 1);
      assert calls[j - 1].sent <= calls[j].sent;
    }
  }

  lemma CallsAscend(w: World, cfg: Config, initial: seq<ChatMessage>, calls: seq<Call>, r: ReactResult, k: nat)
    requires Ended(w, cfg, initial, calls, r) && k < |calls|
    ensures Extends(initial, calls, k)
  {
    EndedPrefix(w, cfg, initial, calls, r, k);
    NextExtends(w, cfg, initial, calls, k);
  }

  /** The transcript only grows: the provider sees every earlier transcript again as a prefix. */
  lemma CallsGrow(w: World, cfg: Config, initial: seq<ChatMessage>, calls: seq<Call>, r: ReactResult)
    requires Ended(w, cfg, initial, calls, r) && calls != []
    ensures initial <= calls[0].sent && forall i, j :: 0 <= i <= j < |calls| ==> calls[i].sent <= calls[j].sent
  {
    CallsAscend(w, cfg, initial, calls, r, 0);
    forall k, m | 0 <= k && k + 1 == m < |calls| ensures calls[k].sent <= calls[m].sent {
      CallsAscend(w, cfg, initial, calls, r, m);
    }
    forall i, j | 0 <= i <= j < |calls| ensures calls[i].sent <= calls[j].sent {
      PrefixChain(calls, i, j);
    }
  }

  /**
   However the world behaves, each call was permitted when it was made, so there are at most
   `maxTurns` of them and the token limit is overrun by less than the last reply.
   */
  lemma CallsStayInBudget(w: World, cfg: Config, initial: seq<ChatMessage>, calls: seq<Call>, r: ReactResult)
    requires Ended(w, cfg, initial, calls, r)
    ensures |calls| <= cfg.maxTurns
    ensures forall k :: 0 <= k < |calls| ==> Permitted(w, cfg, calls[..k], calls[k])
    ensures cfg.maxOutputTokens > 0 && calls != [] ==> Tokens(calls) < cfg.maxOutputTokens + calls[|calls| - 1].Cost()
  {
    forall k | 0 <= k < |calls| ensures Permitted(w, cfg, calls[..k], calls[k]) {
      EndedPrefix(w, cfg, initial, calls, r, k);
    }
    if calls != [] { assert Permitted(w, cfg, calls[..|calls| - 1], calls[|calls| - 1]); }
  }

  // ---- The shape of the transcript, read off the messages alone ----

  /** The tool calls at `p` are answered in order by the next `n` messages: all of them, or up to a warning. */
  ghost predicate AnsweredBy(msgs: seq<ChatMessage>, p: nat, n: nat) {
    && p < |msgs| && msgs[p].Assistant? && 0 < n <= |msgs[p].toolCalls| && p + n < |msgs|
    && (forall i :: p < i <= p + n ==> msgs[i].ToolResult? && msgs[i].toolCallId == msgs[p].toolCalls[i - p - 1].id)
    && (n == |msgs[p].toolCalls| || (p + n + 1 < |msgs| && msgs[p + n + 1] == WARNING))
  }

  /** Every tool call list from `base` on is so answered, and every tool message there belongs to one. */
  ghost predicate Shaped(msgs: seq<ChatMessage>, base: nat) {
    && (forall p :: base <= p < |msgs| && msgs[p].Assistant? ==> exists n: nat :: AnsweredBy(msgs, p, n))
    && (forall p :: base <= p < |msgs| && msgs[p].ToolResult? ==>
          exists q: nat, n: nat :: base <= q < p <= q + n && AnsweredBy(msgs, q, n))
  }

  lemma AnsweredByExtends(msgs: seq<ChatMessage>, more: seq<ChatMessage>, p: nat, n: nat)
    requires AnsweredBy(msgs, p, n)
    ensures AnsweredBy(msgs + more, p, n)
  {
  }

  lemma UsersKeepShape(msgs: seq<ChatMessage>, base: nat, texts: seq<string>)
    requires Shaped(msgs, base)
    ensures Shaped(msgs + Users(texts), base)
  {
    var all := msgs + Users(texts);
    forall p | base <= p < |all| && all[p].Assistant? ensures exists n: nat :: AnsweredBy(all, p, n) {
      var n: nat :| AnsweredBy(msgs, p, n);
      AnsweredByExtends(msgs, Users(texts), p, n);
    }
    forall p | base <= p < |all| && all[p].ToolResult?
      ensures exists q: nat, n: nat :: base <= q < p <= q + n && AnsweredBy(all, q, n)
    {
      var q: nat, n: nat :| base <= q < p <= q + n && AnsweredBy(msgs, q, n);
      AnsweredByExtends(msgs, Users(texts), q, n);
    }
  }

  lemma BlockAnswers(w: World, msgs: seq<ChatMessage>, first: nat, reply: Response, answered: nat, warned: bool)
    requires 0 < answered <= |reply.toolCalls| && (warned || answered == |reply.toolCalls|)
    ensures AnsweredBy(msgs + Block(w, first, reply, answered, warned), |msgs|, answered)
  {
    var block := Block(w, first, reply, answered, warned);
    assert (msgs + block)[|msgs|] == block[0];
    forall i | |msgs| < i <= |msgs| + answered
      ensures var k := i - |msgs| - 1;
              (msgs + block)[i] == ToolResult(reply.toolCalls[k].id, w.tool(first + k, reply.toolCalls[k]))
    {
      assert (msgs + block)[i] == block[i - |msgs|];
    }
  }

  lemma BlockKeepsShape(
    w: World, msgs: seq<ChatMessage>, base: nat, first: nat, reply: Response, answered: nat, warned: bool)
    requires Shaped(msgs, base) && base <= |msgs|
    requires 0 < answered <= |reply.toolCalls| && (warned || answered == |reply.toolCalls|)
    ensures Shaped(msgs + Block(w, first, reply, answered, warned), base)
  {
    var block := Block(w, first, reply, answered, warned);
    var all := msgs + block;
    BlockAnswers(w, msgs, first, reply, answered, warned);
    forall p | base <= p < |all| && all[p].Assistant? ensures exists n: nat :: AnsweredBy(all, p, n) {
      if p < |msgs| {
        var n: nat :| AnsweredBy(msgs, p, n);
        AnsweredByExtends(msgs, block, p, n);
      } else {
        assert all[p] == block[p - |msgs|];
      }
    }
    forall p | base <= p < |all| && all[p].ToolResult?
      ensures exists q: nat, n: nat :: base <= q < p <= q + n && AnsweredBy(all, q, n)
    {
      if p < |msgs| {
        var q: nat, n: nat :| base <= q < p <= q + n && AnsweredBy(msgs, q, n);
        AnsweredByExtends(msgs, block, q, n);
      } else {
        assert all[p] == block[p - |msgs|];
      }
    }
  }

  lemma StepKeepsShape(w: World, cfg: Config, initial: seq<ChatMessage>, settled: seq<Call>, c: Call)
    requires Shaped(Chat(w, initial, settled), |initial|) && |initial| <= |Chat(w, initial, settled)|
    requires Step(w, cfg, initial, settled, c)
    ensures Shaped(Chat(w, initial, settled + [c]), |initial|) && |initial| <= |Chat(w, initial, settled + [c])|
  {
    Settle(w, cfg, initial, settled, c);
    UsersKeepShape(Chat(w, initial, settled), |initial|, w.drain(|settled|));
    BlockKeepsShape(w, c.sent, |initial|, ToolRuns(settled), c.outcome.response, c.answered, c.warned);
  }

  lemma {:induction false} RunKeepsShape(w: World, cfg: Config, initial: seq<ChatMessage>, settled: seq<Call>, n: nat)
    requires Run(w, cfg, initial, settled) && n <= |settled|
    ensures Shaped(Chat(w, initial, settled[..n]), |initial|) && |initial| <= |Chat(w, initial, settled[..n])|
  {
    if n > 0 {
      RunKeepsShape(w, cfg, initial, settled, n - 1);
      assert Step(w, cfg, initial, settled[..n - 1], settled[n - 1]);
      StepKeepsShape(w, cfg, initial, settled[..n - 1], settled[n - 1]);
      assert settled[..n] == settled[..n - 1] + [settled[n - 1]];
    }
  }

  /** Whatever the provider is sent, all tool calls in it have been answered in order, or up to a warning. */
  lemma CallsAreShaped(w: World, cfg: Config, initial: seq<ChatMessage>, calls: seq<Call>, r: ReactResult, j: nat)
    requires Ended(w, cfg, initial, calls, r) && j < |calls|
    ensures Shaped(calls[j].sent, |initial|)
  {
    EndedPrefix(w, cfg, initial, calls, r, j);
    RunKeepsShape(w, cfg, initial, calls[..j], j);
    assert calls[..j][..j] == calls[..j];
    UsersKeepShape(Chat(w, initial, calls[..j]), |initial|, w.drain(j));
  }
}

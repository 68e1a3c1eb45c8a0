/**
 What every run of the ReAct loop amounts to, read off the calls and the messages they were sent:
 counts as sums, the detector as a count of positions, the transcript message by message.
 */
module ReactRuns {
  import opened Prelude
  import opened ReactLoop

  // ---- The detector ----

  /** Where `x` stands among the last `window` entries. */
  function Recent(h: seq<int>, window: nat, x: int): set<int> {
    set i | 0 <= i < |h| && |h| <= i + window && h[i] == x
  }

  lemma {:induction false} CountIsCard(h: seq<int>, d: nat, x: int)
    requires d <= |h|
    ensures Count(h[d..], x) == |set i | d <= i < |h| && h[i] == x|
    decreases |h|
  {
    var at := set i | d <= i < |h| && h[i] == x;
    if d == |h| {
      assert at == {};
    } else {
      var n := |h| - 1;
      CountIsCard(h[..n], d, x);
      assert h[d..][..|h[d..]| - 1] == h[..n][d..];
      var before := set i | d <= i < n && h[..n][i] == x;
      assert at == if h[n] == x then before + {n} else before;
    }
  }

  /** A fingerprint repeats if it stands at `threshold` places of the window, the newest included. */
  lemma RepeatsMeans(window: nat, threshold: nat, history: seq<int>, fp: int)
    ensures Repeats(window, threshold, history, fp) <==> |Recent(history + [fp], window, fp)| >= threshold
  {
    var h := history + [fp];
    var d := if |h| > window then |h| - window else 0;
    assert LastN(h, window) == h[d..];
    CountIsCard(h, d, fp);
    assert Recent(h, window, fp) == set i | d <= i < |h| && h[i] == fp;
  }

  // ---- Counts ----

  function Sum(ns: seq<nat>): nat {
    if ns == [] then 0 else Sum(ns[..|ns| - 1]) + ns[|ns| - 1]
  }

  /** The output tokens of each reply. */
  function ReplyTokens(calls: seq<Call>): seq<nat> {
    seq(|calls|, k requires 0 <= k < |calls| =>
      if calls[k].outcome.Replied? then calls[k].outcome.response.outputTokens else 0)
  }

  /** How many tools each reply got to run. */
  function RunCounts(calls: seq<Call>): seq<nat> {
    seq(|calls|, k requires 0 <= k < |calls| =>
      if calls[k].outcome.Replied? && calls[k].answered <= |calls[k].outcome.response.toolCalls|
      then calls[k].answered else 0)
  }

  lemma {:induction false} CountsAreSums(calls: seq<Call>)
    ensures Tokens(calls) == Sum(ReplyTokens(calls)) && ToolRuns(calls) == Sum(RunCounts(calls))
  {
    if calls != [] {
      var front := calls[..|calls| - 1];
      CountsAreSums(front);
      assert ReplyTokens(calls)[..|front|] == ReplyTokens(front) && RunCounts(calls)[..|front|] == RunCounts(front);
    }
  }

  /** Each call is made in time, within the turns and below a nonzero token limit, and gets the provider's answer. */
  lemma CallsAreAllowed(w: World, cfg: Config, initial: seq<ChatMessage>, calls: seq<Call>, r: ReactResult, k: nat)
    requires Ended(w, cfg, initial, calls, r) && k < |calls|
    ensures k < cfg.maxTurns && !w.cancelled(k) && !w.expired(k) && calls[k].outcome == w.chat(k, calls[k].sent)
    ensures cfg.maxOutputTokens == 0 || Sum(ReplyTokens(calls[..k])) < cfg.maxOutputTokens
  {
    EndedPrefix(w, cfg, initial, calls, r, k);
    CountsAreSums(calls[..k]);
  }

  /** What each result says of the run. */
  ghost predicate Told(w: World, cfg: Config, calls: seq<Call>, r: ReactResult) {
    match r
    case Completed(t) =>
      && calls != [] && calls[|calls| - 1].outcome.Replied?
      && calls[|calls| - 1].outcome.response.toolCalls == [] && t.content == calls[|calls| - 1].outcome.response.content
      && Totalled(calls, t)
    case BudgetExhausted(t) =>
      && (|calls| == cfg.maxTurns || Sum(ReplyTokens(calls)) >= cfg.maxOutputTokens > 0) && Totalled(calls, t)
    case Cancelled(turns) => turns == |calls| && w.cancelled(turns)
    case Yielded(turns, call) =>
      && turns == |calls| && call.name == "yield_control" && turns > 0 && calls[turns - 1].outcome.Replied?
      && var c := calls[turns - 1];
      c.answered < |c.outcome.response.toolCalls| && call == c.outcome.response.toolCalls[c.answered]
    case LlmError(e) => calls != [] && calls[|calls| - 1].outcome == Failed(e)
    case Timeout => w.expired(|calls|) || (calls != [] && calls[|calls| - 1].outcome.TimedOut?)
  }

  ghost predicate Totalled(calls: seq<Call>, t: TurnResult) {
    t.llmCalls == |calls| && t.outputTokens == Sum(ReplyTokens(calls)) && t.toolCalls == Sum(RunCounts(calls))
  }

  lemma BetweenTells(w: World, cfg: Config, initial: seq<ChatMessage>, calls: seq<Call>, r: ReactResult)
    requires Run(w, cfg, initial, calls) && StopsBetween(w, cfg, calls, r)
    ensures Told(w, cfg, calls, r)
  {
    CountsAreSums(calls);
    if calls != [] { assert Step(w, cfg, initial, calls[..|calls| - 1], calls[|calls| - 1]); }
  }

  lemma SumPush(calls: seq<Call>)
    requires calls != []
    ensures var front, n := calls[..|calls| - 1], |calls| - 1;
            && Sum(ReplyTokens(calls)) == Sum(ReplyTokens(front)) + ReplyTokens(calls)[n]
            && Sum(RunCounts(calls)) == Sum(RunCounts(front)) + RunCounts(calls)[n]
  {
    var front := calls[..|calls| - 1];
    assert ReplyTokens(calls)[..|front|] == ReplyTokens(front) && RunCounts(calls)[..|front|] == RunCounts(front);
  }

  /** The result of every run is true of its calls, its counts being the sums over them. */
  lemma ResultTells(w: World, cfg: Config, initial: seq<ChatMessage>, calls: seq<Call>, r: ReactResult)
    requires Ended(w, cfg, initial, calls, r)
    ensures Told(w, cfg, calls, r)
  {
    if Run(w, cfg, initial, calls) && StopsBetween(w, cfg, calls, r) {
      BetweenTells(w, cfg, initial, calls, r);
    } else {
      CountsAreSums(calls[..|calls| - 1]);
      SumPush(calls);
    }
  }

  // ---- Which tool calls are run ----

  /** The fingerprints recorded before tool call `i` of call `k`. */
  ghost function Before(w: World, calls: seq<Call>, k: nat, i: nat): seq<int>
    requires k < |calls| && calls[k].outcome.Replied? && i <= |calls[k].outcome.response.toolCalls|
  {
    History(w, calls[..k]) + Prints(w, calls[k].outcome.response.toolCalls[..i])
  }

  /** The detector is on, and the fingerprint of tool call `i` of call `k` repeats. */
  ghost predicate Trips(w: World, cfg: Config, calls: seq<Call>, k: nat, i: nat)
    requires k < |calls| && calls[k].outcome.Replied? && i < |calls[k].outcome.response.toolCalls|
  {
    var fp := w.fingerprint(calls[k].outcome.response.toolCalls[i]);
    cfg.repetitionWindow > 0
    && |Recent(Before(w, calls, k, i) + [fp], cfg.repetitionWindow, fp)| >= cfg.repetitionThreshold
  }

  lemma TurnWentOn(w: World, cfg: Config, initial: seq<ChatMessage>, calls: seq<Call>, r: ReactResult, k: nat)
    requires Ended(w, cfg, initial, calls, r) && k + 1 < |calls|
    ensures WentOn(w, cfg, calls[..k], calls[k])
  {
    EndedPrefix(w, cfg, initial, calls, r, k + 1);
    assert Step(w, cfg, initial, calls[..k + 1][..k], calls[..k + 1][k]);
    assert calls[..k + 1][..k] == calls[..k];
  }

  /** The turn goes on by running tools: none of them a yield, only the last one tripping the detector. */
  ghost predicate RunsTools(w: World, cfg: Config, calls: seq<Call>, k: nat)
    requires k < |calls|
  {
    var c := calls[k];
    && c.outcome.Replied? && 0 < c.answered <= |c.outcome.response.toolCalls|
    && (forall i :: 0 <= i < c.answered ==>
         c.outcome.response.toolCalls[i].name != "yield_control"
         && (Trips(w, cfg, calls, k, i) <==> i == c.answered - 1 && c.warned))
    && (c.warned || c.answered == |c.outcome.response.toolCalls|)
  }

  lemma TripsIsHit(w: World, cfg: Config, calls: seq<Call>, k: nat, i: nat)
    requires k < |calls| && calls[k].outcome.Replied? && i < |calls[k].outcome.response.toolCalls|
    ensures Trips(w, cfg, calls, k, i) <==> Hit(w, cfg, Before(w, calls, k, i), calls[k].outcome.response.toolCalls[i])
  {
    RepeatsMeans(cfg.repetitionWindow, cfg.repetitionThreshold, Before(w, calls, k, i),
                 w.fingerprint(calls[k].outcome.response.toolCalls[i]));
  }

  lemma GoingOnRunsTools(w: World, cfg: Config, calls: seq<Call>, k: nat)
    requires k < |calls| && WentOn(w, cfg, calls[..k], calls[k])
    ensures RunsTools(w, cfg, calls, k)
  {
    var c := calls[k];
    forall i | 0 <= i < c.answered
      ensures c.outcome.response.toolCalls[i].name != "yield_control"
              && (Trips(w, cfg, calls, k, i) <==> i == c.answered - 1 && c.warned)
    {
      TripsIsHit(w, cfg, calls, k, i);
    }
  }

  /**
   After a call that was followed by another: its reply asked for tools, none of those run was a
   yield, none but the last tripped the detector, and all were run unless that one did.
   */
  lemma ToolsAreRun(w: World, cfg: Config, initial: seq<ChatMessage>, calls: seq<Call>, r: ReactResult, k: nat)
    requires Ended(w, cfg, initial, calls, r) && k + 1 < |calls|
    ensures RunsTools(w, cfg, calls, k)
  {
    TurnWentOn(w, cfg, initial, calls, r, k);
    GoingOnRunsTools(w, cfg, calls, k);
  }

  // ---- What the provider is sent ----

  /** The last messages are the texts, one user message each, in order. */
  ghost predicate EndsWithTexts(msgs: seq<ChatMessage>, texts: seq<string>) {
    |texts| <= |msgs| && forall i :: 0 <= i < |texts| ==> msgs[|msgs| - |texts| + i] == User(texts[i])
  }

  /**
   The messages are the reply with its tool calls, the answers of the tools that were run, the
   first of them run after `first` others, and the warning if there was one.
   */
  ghost predicate AnswersReply(w: World, msgs: seq<ChatMessage>, c: Call, first: nat) {
    && c.outcome.Replied? && c.answered <= |c.outcome.response.toolCalls|
    && |msgs| == 1 + c.answered + (if c.warned then 1 else 0)
    && var tools := c.outcome.response.toolCalls;
    && msgs[0] == Assistant(c.outcome.response.content, tools)
    && (forall i :: 1 <= i <= c.answered ==>
         msgs[i] == ToolResult(tools[i - 1].id, w.tool(first + i - 1, tools[i - 1])))
    && (c.warned ==> msgs[1 + c.answered] == WARNING)
  }

  lemma BlockAnswersReply(w: World, c: Call, first: nat)
    requires c.outcome.Replied? && c.answered <= |c.outcome.response.toolCalls|
    ensures AnswersReply(w, Block(w, first, c.outcome.response, c.answered, c.warned), c, first)
  {
  }

  lemma SentSplits(w: World, sent: seq<ChatMessage>, chat: seq<ChatMessage>, texts: seq<string>)
    requires sent == chat + Users(texts)
    ensures EndsWithTexts(sent, texts) && |sent| == |chat| + |texts| && sent[..|chat|] == chat
  {
  }

  lemma ChatAfterReply(w: World, initial: seq<ChatMessage>, settled: seq<Call>, c: Call)
    requires c.outcome.Replied? && c.answered <= |c.outcome.response.toolCalls|
    ensures Chat(w, initial, settled + [c])
            == c.sent + Block(w, ToolRuns(settled), c.outcome.response, c.answered, c.warned)
  {
    assert (settled + [c])[..|settled|] == settled;
  }

  lemma SentAfterReply(w: World, initial: seq<ChatMessage>, calls: seq<Call>, k: nat)
    requires 0 < k < |calls| && calls[k].sent == Chat(w, initial, calls[..k]) + Users(w.drain(k))
    requires var prev := calls[k - 1]; prev.outcome.Replied? && prev.answered <= |prev.outcome.response.toolCalls|
    ensures var sent, prev, n := calls[k].sent, calls[k - 1], |calls[k].sent| - |w.drain(k)|;
            && |prev.sent| <= n && prev.sent <= sent
            && AnswersReply(w, sent[|prev.sent|..n], prev, Sum(RunCounts(calls[..k - 1])))
  {
    var prev, settled := calls[k - 1], calls[..k - 1];
    assert calls[..k] == settled + [prev];
    ChatAfterReply(w, initial, settled, prev);
    var block := Block(w, ToolRuns(settled), prev.outcome.response, prev.answered, prev.warned);
    assert calls[k].sent[|prev.sent|..|calls[k].sent| - |w.drain(k)|] == block;
    BlockAnswersReply(w, prev, ToolRuns(settled));
    CountsAreSums(settled);
  }

  /**
   Call `k` is sent all that call `k - 1` was sent, the reply to it with the answers of the tools
   run, and one user message for each text drained, in order.
   */
  ghost predicate Continues(w: World, initial: seq<ChatMessage>, calls: seq<Call>, k: nat)
    requires k < |calls|
  {
    var sent, n := calls[k].sent, |calls[k].sent| - |w.drain(k)|;
    && EndsWithTexts(sent, w.drain(k))
    && if k == 0 then sent[..n] == initial
       else
         var prev := calls[k - 1];
         && |prev.sent| <= n && prev.sent <= sent
         && AnswersReply(w, sent[|prev.sent|..n], prev, Sum(RunCounts(calls[..k - 1])))
  }

  lemma NextContinues(w: World, cfg: Config, initial: seq<ChatMessage>, calls: seq<Call>, k: nat)
    requires k < |calls| && Next(w, cfg, initial, calls[..k], calls[k])
    requires k > 0 ==> RunsTools(w, cfg, calls, k - 1)
    ensures Continues(w, initial, calls, k)
  {
    SentSplits(w, calls[k].sent, Chat(w, initial, calls[..k]), w.drain(k));
    if k > 0 { SentAfterReply(w, initial, calls, k); }
  }

  lemma SentInOrder(w: World, cfg: Config, initial: seq<ChatMessage>, calls: seq<Call>, r: ReactResult, k: nat)
    requires Ended(w, cfg, initial, calls, r) && k < |calls|
    ensures Continues(w, initial, calls, k)
  {
    EndedPrefix(w, cfg, initial, calls, r, k);
    if k > 0 { ToolsAreRun(w, cfg, initial, calls, r, k - 1); }
    NextContinues(w, cfg, initial, calls, k);
  }

  /** The texts of the user messages, in order. */
  function UserTexts(msgs: seq<ChatMessage>): seq<string> {
    if msgs == [] then []
    else UserTexts(msgs[..|msgs| - 1]) + if msgs[|msgs| - 1].User? then [msgs[|msgs| - 1].text] else []
  }

  /** What the user side says right after a reply. */
  function Warning(c: Call): seq<string> {
    if c.warned then [WARNING.text] else []
  }

  /** What the user side has said up to call `k`: texts as they were drained, and a warning after each warned reply. */
  function Said(w: World, calls: seq<Call>, k: nat): seq<string>
    requires k < |calls|
  {
    if k == 0 then w.drain(0)
    else Said(w, calls, k - 1) + Warning(calls[k - 1]) + w.drain(k)
  }

  lemma {:induction false} UserTextsConcat(a: seq<ChatMessage>, b: seq<ChatMessage>)
    ensures UserTexts(a + b) == UserTexts(a) + UserTexts(b)
    decreases |b|
  {
    if b == [] {
      assert a + b == a;
    } else {
      assert (a + b)[..|a + b| - 1] == a + b[..|b| - 1];
      UserTextsConcat(a, b[..|b| - 1]);
    }
  }

  lemma {:induction false} TextsAreUserTexts(msgs: seq<ChatMessage>, texts: seq<string>)
    requires |msgs| == |texts| && forall i :: 0 <= i < |texts| ==> msgs[i] == User(texts[i])
    ensures UserTexts(msgs) == texts
    decreases |texts|
  {
    if texts != [] {
      TextsAreUserTexts(msgs[..|msgs| - 1], texts[..|texts| - 1]);
      assert texts == texts[..|texts| - 1] + [texts[|texts| - 1]];
    }
  }

  lemma {:induction false} NoUserTexts(msgs: seq<ChatMessage>)
    requires forall i :: 0 <= i < |msgs| ==> !msgs[i].User?
    ensures UserTexts(msgs) == []
  {
    if msgs != [] { NoUserTexts(msgs[..|msgs| - 1]); }
  }

  lemma ReplyUserTexts(w: World, msgs: seq<ChatMessage>, c: Call, first: nat)
    requires AnswersReply(w, msgs, c, first)
    ensures UserTexts(msgs) == Warning(c)
  {
    var n := 1 + c.answered;
    NoUserTexts(msgs[..n]);
    if !c.warned { assert msgs == msgs[..n]; }
  }

  lemma DrainedTexts(sent: seq<ChatMessage>, texts: seq<string>)
    requires EndsWithTexts(sent, texts)
    ensures UserTexts(sent[|sent| - |texts|..]) == texts
  {
    TextsAreUserTexts(sent[|sent| - |texts|..], texts);
  }

  lemma UserTextsSplit(msgs: seq<ChatMessage>, i: nat, j: nat, k: nat)
    requires i <= j <= k <= |msgs|
    ensures UserTexts(msgs[i..]) == UserTexts(msgs[i..j]) + UserTexts(msgs[j..k]) + UserTexts(msgs[k..])
  {
    assert msgs[i..] == msgs[i..j] + msgs[j..k] + msgs[k..];
    UserTextsConcat(msgs[i..j] + msgs[j..k], msgs[k..]);
    UserTextsConcat(msgs[i..j], msgs[j..k]);
  }

  lemma NextUserTexts(
    base: nat, before: seq<ChatMessage>, sent: seq<ChatMessage>, said: seq<string>, texts: seq<string>)
    requires base <= |before| && before <= sent && EndsWithTexts(sent, texts) && |before| <= |sent| - |texts|
    requires UserTexts(sent[|before|..|sent| - |texts|]) == said
    ensures UserTexts(sent[base..]) == UserTexts(before[base..]) + said + texts
  {
    DrainedTexts(sent, texts);
    UserTextsSplit(sent, base, |before|, |sent| - |texts|);
    assert sent[base..|before|] == before[base..];
  }

  /** Call `k` extends the one before it by the warning, if there was one, and the texts drained. */
  ghost predicate SaysNext(w: World, calls: seq<Call>, k: nat)
    requires 0 < k < |calls|
  {
    var before, sent, n := calls[k - 1].sent, calls[k].sent, |calls[k].sent| - |w.drain(k)|;
    && before <= sent && |before| <= n && EndsWithTexts(sent, w.drain(k))
    && UserTexts(sent[|before|..n]) == Warning(calls[k - 1])
  }

  lemma ReplySaid(w: World, initial: seq<ChatMessage>, calls: seq<Call>, k: nat)
    requires 0 < k < |calls| && Continues(w, initial, calls, k)
    ensures SaysNext(w, calls, k)
  {
    var prev, n := calls[k - 1], |calls[k].sent| - |w.drain(k)|;
    ReplyUserTexts(w, calls[k].sent[|prev.sent|..n], prev, Sum(RunCounts(calls[..k - 1])));
  }

  lemma FirstSaid(w: World, initial: seq<ChatMessage>, calls: seq<Call>)
    requires calls != [] && Continues(w, initial, calls, 0)
    ensures initial <= calls[0].sent && UserTexts(calls[0].sent[|initial|..]) == w.drain(0)
  {
    DrainedTexts(calls[0].sent, w.drain(0));
  }

  lemma {:induction false} SaidSoFar(w: World, base: nat, calls: seq<Call>, k: nat)
    requires k < |calls| && forall j :: 0 < j < |calls| ==> SaysNext(w, calls, j)
    requires base <= |calls[0].sent| && UserTexts(calls[0].sent[base..]) == w.drain(0)
    ensures calls[0].sent <= calls[k].sent && UserTexts(calls[k].sent[base..]) == Said(w, calls, k)
  {
    if k > 0 {
      SaidSoFar(w, base, calls, k - 1);
      assert SaysNext(w, calls, k);
      NextUserTexts(base, calls[k - 1].sent, calls[k].sent, Warning(calls[k - 1]), w.drain(k));
    }
  }

  /** Beyond the initial messages, the user messages sent are the drained texts and the warnings, as they came. */
  lemma UserMessagesInOrder(
    w: World, cfg: Config, initial: seq<ChatMessage>, calls: seq<Call>, r: ReactResult, k: nat)
    requires Ended(w, cfg, initial, calls, r) && k < |calls|
    ensures initial <= calls[k].sent && UserTexts(calls[k].sent[|initial|..]) == Said(w, calls, k)
  {
    SentInOrder(w, cfg, initial, calls, r, 0);
    FirstSaid(w, initial, calls);
    forall j | 0 < j < |calls| ensures SaysNext(w, calls, j) {
      SentInOrder(w, cfg, initial, calls, r, j);
      ReplySaid(w, initial, calls, j);
    }
    SaidSoFar(w, |initial|, calls, k);
  }
}

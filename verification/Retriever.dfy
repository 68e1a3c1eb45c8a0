/**
 Budgeted retrieval from a layered index: abstracts, then summaries, then whole transcripts,
 each layer picked greedily from a ranking.  The relevance scores are arbitrary reals.
 */
module Retriever {
  import opened Prelude
  import LI = LayeredIndex

  datatype Layer = L0 | L1 | L2

  datatype Config = Config(
    maxPromptTokens: nat, scoreThresholdHigh: real, top1Top2Margin: real, maxItemsL1: nat, maxItemsL2: nat)

  datatype Scored = Scored(index: nat, score: real)

  datatype Selection = Selection(nodeId: string, layer: Layer, content: string, tokens: nat, score: real)

  datatype Decision = Decision(reachedLayer: Option<Layer>, topScore: real)

  datatype TokenUsage = TokenUsage(budget: nat, used: nat, savingsRatio: real)

  datatype Retrieval = Retrieval(selections: seq<Selection>, decision: Decision, usage: TokenUsage)

  /**
   What the outside supplies for one query: the relevance of each abstract, the relevance of each
   summary among the candidates in ranked order, the token estimate and the store's answers.
   */
  datatype Query = Query(
    l0: nat -> real, l1: (seq<nat>, nat) -> real, estimate: string -> nat, read: string -> Option<string>)

  function Min(a: nat, b: nat): nat { if a <= b then a else b }

  // ---- Ranking ----

  /** Insert behind every item that scores at least as much. */
  function Insert(s: seq<Scored>, x: Scored): seq<Scored> {
    if s == [] || s[|s| - 1].score >= x.score then s + [x]
    else Insert(s[..|s| - 1], x) + [s[|s| - 1]]
  }

  /** The stable descending sort. */
  function Ranked(s: seq<Scored>): seq<Scored> {
    if s == [] then [] else Insert(Ranked(s[..|s| - 1]), s[|s| - 1])
  }

  ghost predicate Descending(s: seq<Scored>) {
    forall i, j :: 0 <= i < j < |s| ==> s[i].score >= s[j].score
  }

  ghost predicate Above(s: seq<Scored>, floor: real) {
    forall i :: 0 <= i < |s| ==> s[i].score >= floor
  }

  lemma {:induction false} InsertAbove(s: seq<Scored>, x: Scored, floor: real)
    requires Above(s, floor) && x.score >= floor
    ensures Above(Insert(s, x), floor)
  {
    if s != [] { InsertAbove(s[..|s| - 1], x, floor); }
  }

  lemma {:induction false} InsertCounts(s: seq<Scored>, x: Scored)
    ensures multiset(Insert(s, x)) == multiset(s) + multiset{x}
  {
    if s != [] {
      assert s == s[..|s| - 1] + [s[|s| - 1]];
      InsertCounts(s[..|s| - 1], x);
    }
  }

  lemma {:induction false} InsertRanks(s: seq<Scored>, x: Scored)
    requires Descending(s)
    ensures Descending(Insert(s, x))
  {
    if s != [] && s[|s| - 1].score < x.score {
      InsertRanks(s[..|s| - 1], x);
      InsertAbove(s[..|s| - 1], x, s[|s| - 1].score);
    }
  }

  lemma {:induction false} RankingSorts(s: seq<Scored>)
    ensures Descending(Ranked(s)) && multiset(Ranked(s)) == multiset(s) && |Ranked(s)| == |s|
  {
    if s != [] {
      RankingSorts(s[..|s| - 1]);
      InsertRanks(Ranked(s[..|s| - 1]), s[|s| - 1]);
      InsertCounts(Ranked(s[..|s| - 1]), s[|s| - 1]);
      assert s == s[..|s| - 1] + [s[|s| - 1]];
    }
    assert |multiset(Ranked(s))| == |Ranked(s)| && |multiset(s)| == |s|;
  }

  lemma InsertLast(s: seq<Scored>, x: Scored)
    requires s == [] || s[|s| - 1].score >= x.score
    ensures Insert(s, x) == s + [x]
  {
  }

  /** What is already in order keeps its order. */
  lemma {:induction false} RankingKeepsOrder(s: seq<Scored>)
    requires Descending(s)
    ensures Ranked(s) == s
  {
    if s != [] {
      var front, x := s[..|s| - 1], s[|s| - 1];
      RankingKeepsOrder(front);
      InsertLast(front, x);
      assert s == front + [x];
    }
  }

  /** Every rank names a node. */
  ghost predicate Names(s: seq<Scored>, n: nat) {
    forall k :: 0 <= k < |s| ==> s[k].index < n
  }

  lemma RankingNames(s: seq<Scored>, n: nat)
    requires Names(s, n)
    ensures Names(Ranked(s), n) && |Ranked(s)| == |s|
  {
    RankingSorts(s);
    forall k | 0 <= k < |s| ensures Ranked(s)[k].index < n {
      assert Ranked(s)[k] in multiset(s);
    }
  }

  function MaxRecency(nodes: seq<LI.Node>): (m: nat)
    ensures forall k :: 0 <= k < |nodes| ==> nodes[k].recencyRank <= m
    ensures nodes != [] ==> exists k :: 0 <= k < |nodes| && nodes[k].recencyRank == m
  {
    if nodes == [] then 0
    else
      var m, last := MaxRecency(nodes[..|nodes| - 1]), nodes[|nodes| - 1];
      assert nodes == nodes[..|nodes| - 1] + [last];
      if last.recencyRank > m then last.recencyRank
      else
        assert |nodes| > 1 || nodes[0].recencyRank == m;
        m
  }

  function Bonus(rank: nat, maxRecency: nat): real {
    if maxRecency > 0 then 0.08 * rank as real / maxRecency as real else 0.0
  }

  function ScoreL0(nodes: seq<LI.Node>, q: Query): (s: seq<Scored>)
    ensures Names(s, |nodes|)
  {
    seq(|nodes|, i requires 0 <= i < |nodes| => Scored(i, q.l0(i) + Bonus(nodes[i].recencyRank, MaxRecency(nodes))))
  }

  function Indices(s: seq<Scored>): seq<nat> {
    seq(|s|, i requires 0 <= i < |s| => s[i].index)
  }

  function ScoreL1(nodes: seq<LI.Node>, candidates: seq<Scored>, q: Query): (s: seq<Scored>)
    requires Names(candidates, |nodes|)
    ensures Names(s, |nodes|)
  {
    seq(|candidates|, i requires 0 <= i < |candidates| =>
      Scored(candidates[i].index,
             q.l1(Indices(candidates), i) + Bonus(nodes[candidates[i].index].recencyRank, MaxRecency(nodes))))
  }

  // ---- Greedy choice under a budget ----

  function Total(s: seq<Selection>): nat {
    if s == [] then 0 else Total(s[..|s| - 1]) + s[|s| - 1].tokens
  }

  lemma TotalPush(s: seq<Selection>, x: Selection)
    ensures Total(s + [x]) == Total(s) + x.tokens
  {
    assert (s + [x])[..|s|] == s;
  }

  /** The first of the forms, the preferred one first, that fits in the room left. */
  function FirstFit(forms: seq<Selection>, budget: nat, used: nat): Option<Selection> {
    if forms == [] then None
    else if used + forms[0].tokens <= budget then Some(forms[0])
    else FirstFit(forms[1..], budget, used)
  }

  lemma FirstFitLast(forms: seq<Selection>, budget: nat, used: nat)
    requires |forms| == 1 || (|forms| == 2 && used + forms[0].tokens > budget)
    ensures var last := forms[|forms| - 1];
            FirstFit(forms, budget, used) == if used + last.tokens <= budget then Some(last) else None
  {
    if |forms| == 2 {
      assert forms[1..] == [forms[1]];
      FirstFitLast(forms[1..], budget, used);
    } else {
      assert forms[1..] == [];
    }
  }

  /** Go through the offers once; of each, take the first form that still fits. */
  function Greedy(offers: seq<seq<Selection>>, budget: nat): seq<Selection> {
    if offers == [] then []
    else
      var chosen := Greedy(offers[..|offers| - 1], budget);
      Push(chosen, FirstFit(offers[|offers| - 1], budget, Total(chosen)))
  }

  function Push(chosen: seq<Selection>, pick: Option<Selection>): seq<Selection> {
    if pick.Some? then chosen + [pick.value] else chosen
  }

  lemma GreedyNext(offers: seq<seq<Selection>>, budget: nat, i: nat)
    requires i < |offers|
    ensures var chosen := Greedy(offers[..i], budget);
            var pick := FirstFit(offers[i], budget, Total(chosen));
            && Greedy(offers[..i + 1], budget) == Push(chosen, pick)
            && Total(Push(chosen, pick)) == Total(chosen) + if pick.Some? then pick.value.tokens else 0
  {
    var chosen := Greedy(offers[..i], budget);
    var pick := FirstFit(offers[i], budget, Total(chosen));
    assert offers[..i + 1][..i] == offers[..i];
    if pick.Some? { TotalPush(chosen, pick.value); }
  }

  /** Which offers `Greedy` takes a form of. */
  function Taken(offers: seq<seq<Selection>>, budget: nat): seq<nat> {
    if offers == [] then []
    else
      var front := offers[..|offers| - 1];
      if FirstFit(offers[|front|], budget, Total(Greedy(front, budget))).None? then Taken(front, budget)
      else Taken(front, budget) + [|front|]
  }

  /** Form `j` fits, and no preferred form did. */
  ghost predicate ChoiceAt(forms: seq<Selection>, budget: nat, used: nat, choice: Selection, j: nat) {
    && j < |forms| && choice == forms[j] && used + forms[j].tokens <= budget
    && forall m :: 0 <= m < j ==> used + forms[m].tokens > budget
  }

  /** No form of the offer fits into what `used` leaves of the budget. */
  ghost predicate Hopeless(forms: seq<Selection>, budget: nat, used: nat) {
    forall j :: 0 <= j < |forms| ==> used + forms[j].tokens > budget
  }

  ghost predicate Justified(forms: seq<Selection>, budget: nat, used: nat, choice: Selection) {
    exists j: nat :: ChoiceAt(forms, budget, used, choice, j)
  }

  lemma {:induction false} FirstFitMeans(forms: seq<Selection>, budget: nat, used: nat)
    ensures match FirstFit(forms, budget, used)
            case None => Hopeless(forms, budget, used)
            case Some(x) => Justified(forms, budget, used, x)
  {
    if forms != [] && used + forms[0].tokens > budget {
      FirstFitMeans(forms[1..], budget, used);
      var r := FirstFit(forms[1..], budget, used);
      if r.Some? {
        var j: nat :| ChoiceAt(forms[1..], budget, used, r.value, j);
        assert ChoiceAt(forms, budget, used, r.value, j + 1);
      } else {
        assert forall j :: 0 < j < |forms| ==> forms[j] == forms[1..][j - 1];
      }
    } else if forms != [] {
      assert ChoiceAt(forms, budget, used, forms[0], 0);
    }
  }

  ghost predicate Strict(taken: seq<nat>, n: nat) {
    && (forall k :: 0 <= k < |taken| ==> taken[k] < n)
    && forall i, k :: 0 <= i < k < |taken| ==> taken[i] < taken[k]
  }

  /**
   The choice stays within the budget, keeps the ranked order, takes at most one form of each
   offer and always the most preferred one that fits; and it is maximal: an offer left out
   would not fit in any form even into what is left at the end.
   */
  ghost predicate GreedyChoice(offers: seq<seq<Selection>>, budget: nat, chosen: seq<Selection>, taken: seq<nat>) {
    && Total(chosen) <= budget && |taken| == |chosen| && Strict(taken, |offers|)
    && (forall k :: 0 <= k < |chosen| ==> Justified(offers[taken[k]], budget, Total(chosen[..k]), chosen[k]))
    && forall i :: 0 <= i < |offers| && i !in taken ==> Hopeless(offers[i], budget, Total(chosen))
  }

  lemma SkipKeepsChoice(
    offers: seq<seq<Selection>>, forms: seq<Selection>, budget: nat, chosen: seq<Selection>, taken: seq<nat>)
    requires GreedyChoice(offers, budget, chosen, taken) && Hopeless(forms, budget, Total(chosen))
    ensures GreedyChoice(offers + [forms], budget, chosen, taken)
  {
    forall k | 0 <= k < |chosen|
      ensures Justified((offers + [forms])[taken[k]], budget, Total(chosen[..k]), chosen[k])
    {
      assert Justified(offers[taken[k]], budget, Total(chosen[..k]), chosen[k]);
    }
  }

  lemma TakeJustified(
    offers: seq<seq<Selection>>, forms: seq<Selection>, budget: nat, chosen: seq<Selection>, taken: seq<nat>,
    x: Selection, k: nat)
    requires GreedyChoice(offers, budget, chosen, taken) && Justified(forms, budget, Total(chosen), x) && k <= |chosen|
    ensures var chosen', taken' := chosen + [x], taken + [|offers|];
            Justified((offers + [forms])[taken'[k]], budget, Total(chosen'[..k]), chosen'[k])
  {
    assert (chosen + [x])[..k] == chosen[..k];
    if k < |chosen| {
      assert Justified(offers[taken[k]], budget, Total(chosen[..k]), chosen[k]);
    } else {
      assert chosen[..k] == chosen;
    }
  }

  lemma TakeHopeless(
    offers: seq<seq<Selection>>, forms: seq<Selection>, budget: nat, chosen: seq<Selection>, taken: seq<nat>,
    x: Selection, i: nat)
    requires GreedyChoice(offers, budget, chosen, taken) && i <= |offers| && i !in taken + [|offers|]
    ensures Hopeless((offers + [forms])[i], budget, Total(chosen + [x]))
  {
    TotalPush(chosen, x);
    assert (taken + [|offers|])[|taken|] == |offers|;
    assert Hopeless(offers[i], budget, Total(chosen));
  }

  lemma TakeKeepsChoice(
    offers: seq<seq<Selection>>, forms: seq<Selection>, budget: nat, chosen: seq<Selection>, taken: seq<nat>,
    x: Selection)
    requires GreedyChoice(offers, budget, chosen, taken) && Justified(forms, budget, Total(chosen), x)
    ensures GreedyChoice(offers + [forms], budget, chosen + [x], taken + [|offers|])
  {
    TotalPush(chosen, x);
    var chosen', taken' := chosen + [x], taken + [|offers|];
    forall k | 0 <= k < |chosen'|
      ensures Justified((offers + [forms])[taken'[k]], budget, Total(chosen'[..k]), chosen'[k])
    {
      TakeJustified(offers, forms, budget, chosen, taken, x, k);
    }
    forall i | 0 <= i < |offers + [forms]| && i !in taken'
      ensures Hopeless((offers + [forms])[i], budget, Total(chosen'))
    {
      TakeHopeless(offers, forms, budget, chosen, taken, x, i);
    }
  }

  lemma {:induction false} GreedyIsMaximal(offers: seq<seq<Selection>>, budget: nat)
    ensures GreedyChoice(offers, budget, Greedy(offers, budget), Taken(offers, budget))
  {
    if offers != [] {
      var front, forms := offers[..|offers| - 1], offers[|offers| - 1];
      assert offers == front + [forms];
      GreedyIsMaximal(front, budget);
      var chosen, taken := Greedy(front, budget), Taken(front, budget);
      FirstFitMeans(forms, budget, Total(chosen));
      match FirstFit(forms, budget, Total(chosen)) {
        case None => SkipKeepsChoice(front, forms, budget, chosen, taken);
        case Some(x) => TakeKeepsChoice(front, forms, budget, chosen, taken, x);
      }
    }
  }

  // ---- What each layer offers ----

  function Form(node: LI.Node, layer: Layer, content: string, score: real, q: Query): Selection {
    Selection(node.content.id, layer, content, q.estimate(content), score)
  }

  /** One form per ranked node: the abstract at L0, the summary above. */
  function LayerOffers(scored: seq<Scored>, nodes: seq<LI.Node>, layer: Layer, max: nat, q: Query): seq<seq<Selection>>
    requires Names(scored, |nodes|)
  {
    seq(Min(max, |scored|), i requires 0 <= i < Min(max, |scored|) =>
      var c := nodes[scored[i].index].content;
      [Form(nodes[scored[i].index], layer, if layer == L0 then c.abstractText else c.summary, scored[i].score, q)])
  }

  /** The transcript if the store has it, and the summary to fall back on. */
  function TranscriptForms(node: LI.Node, score: real, q: Query): seq<Selection> {
    var summary := Form(node, L1, node.content.summary, score, q);
    match q.read(node.content.id)
    case Some(transcript) => [Form(node, L2, transcript, score, q), summary]
    case None => [summary]
  }

  function RootForm(root: LI.Root, q: Query): Selection {
    Selection("root", L0, root.abstractText, q.estimate(root.abstractText), 1.0)
  }

  /** The root abstract first, then the candidates. */
  function TranscriptOffers(scored: seq<Scored>, index: LI.Index, max: nat, q: Query): (offers: seq<seq<Selection>>)
    requires Names(scored, |index.nodes|)
    ensures |offers| == 1 + Min(max, |scored|)
  {
    [[RootForm(index.root, q)]] +
    seq(Min(max, |scored|), i requires 0 <= i < Min(max, |scored|) =>
      TranscriptForms(index.nodes[scored[i].index], scored[i].score, q))
  }

  datatype Plan = Plan(decision: Decision, offers: seq<seq<Selection>>)

  function TopScore(s: seq<Scored>): real {
    if s == [] then 0.0 else s[0].score
  }

  function Margin(s: seq<Scored>): real {
    if |s| > 1 then s[0].score - s[1].score else 0.0
  }

  function RankL0(nodes: seq<LI.Node>, q: Query): (s: seq<Scored>)
    ensures Names(s, |nodes|) && |s| == |nodes|
  {
    RankingNames(ScoreL0(nodes, q), |nodes|);
    Ranked(ScoreL0(nodes, q))
  }

  function RankL1(nodes: seq<LI.Node>, candidates: seq<Scored>, q: Query): (s: seq<Scored>)
    requires Names(candidates, |nodes|)
    ensures Names(s, |nodes|) && |s| == |candidates|
  {
    RankingNames(ScoreL1(nodes, candidates, q), |nodes|);
    Ranked(ScoreL1(nodes, candidates, q))
  }

  /** Which layer answers, and what it offers in which order. */
  function PlanFor(cfg: Config, index: LI.Index, q: Query): Plan {
    var scored := RankL0(index.nodes, q);
    if TopScore(scored) >= cfg.scoreThresholdHigh then
      Plan(Decision(Some(L0), TopScore(scored)), LayerOffers(scored, index.nodes, L0, 3, q))
    else
      PlanL1(cfg, index, RankL1(index.nodes, scored[..Min(cfg.maxItemsL1, |scored|)], q), q)
  }

  function PlanL1(cfg: Config, index: LI.Index, scored: seq<Scored>, q: Query): Plan
    requires Names(scored, |index.nodes|)
  {
    if TopScore(scored) >= cfg.scoreThresholdHigh || Margin(scored) >= cfg.top1Top2Margin then
      Plan(Decision(Some(L1), TopScore(scored)), LayerOffers(scored, index.nodes, L1, cfg.maxItemsL1, q))
    else
      Plan(Decision(Some(L2), TopScore(scored)), TranscriptOffers(scored, index, cfg.maxItemsL2, q))
  }

  /** 45% of the prompt, at least 400. */
  function Budget(cfg: Config): nat {
    if cfg.maxPromptTokens * 45 / 100 >= 400 then cfg.maxPromptTokens * 45 / 100 else 400
  }

  /** The unused fraction of the budget. */
  function Savings(budget: nat, used: nat): (r: real)
    ensures used <= budget ==> 0.0 <= r <= 1.0
  {
    if budget > 0 then
      Fraction(budget as real, used as real);
      1.0 - used as real / budget as real
    else 0.0
  }

  lemma Fraction(whole: real, part: real)
    requires 0.0 <= part && 0.0 < whole
    ensures 0.0 <= part / whole && (part <= whole ==> part / whole <= 1.0)
  {
  }

  // ---- The same as code ----

  method SelectWithBudget(scored: seq<Scored>, nodes: seq<LI.Node>, budget: nat, layer: Layer, max: nat, q: Query)
    returns (selections: seq<Selection>)
    requires Names(scored, |nodes|)
    ensures selections == Greedy(LayerOffers(scored, nodes, layer, max, q), budget)
  {
    selections := [];
    var used := 0;
    ghost var offers := LayerOffers(scored, nodes, layer, max, q);
    for i := 0 to Min(max, |scored|)
      invariant selections == Greedy(offers[..i], budget) && used == Total(selections)
    {
      var node := nodes[scored[i].index];
      var content := if layer == L0 then node.content.abstractText else node.content.summary;
      var tokens := q.estimate(content);
      GreedyNext(offers, budget, i);
      FirstFitLast(offers[i], budget, used);
      if used + tokens <= budget {
        selections := selections + [Selection(node.content.id, layer, content, tokens, scored[i].score)];
        used := used + tokens;
      }
    }
    assert offers[..|offers|] == offers;
  }

  /** What one node contributes to the last layer. */
  method TranscriptOrSummary(
    node: LI.Node, score: real, used: nat, budget: nat, q: Query)
    returns (pick: Option<Selection>)
    ensures pick == FirstFit(TranscriptForms(node, score, q), budget, used)
  {
    var archived := q.read(node.content.id);
    if archived.Some? {
      var tokens := q.estimate(archived.value);
      if used + tokens <= budget {
        return Some(Selection(node.content.id, L2, archived.value, tokens, score));
      }
    }
    var tokens := q.estimate(node.content.summary);
    FirstFitLast(TranscriptForms(node, score, q), budget, used);
    if used + tokens <= budget {
      return Some(Selection(node.content.id, L1, node.content.summary, tokens, score));
    }
    return None;
  }

  method SelectRoot(root: LI.Root, budget: nat, q: Query) returns (selections: seq<Selection>)
    ensures selections == Greedy([[RootForm(root, q)]], budget)
    ensures Total(selections) == if |selections| > 0 then selections[0].tokens else 0
  {
    var form := RootForm(root, q);
    GreedyNext([[form]], budget, 0);
    assert [[form]][..0] == [] && [[form]][..1] == [[form]];
    TotalPush([], form);
    assert [] + [form] == [form];
    return if form.tokens <= budget then [form] else [];
  }

  lemma RootIsFirst(scored: seq<Scored>, index: LI.Index, max: nat, q: Query)
    requires Names(scored, |index.nodes|)
    ensures TranscriptOffers(scored, index, max, q)[..1] == [[RootForm(index.root, q)]]
  {
  }

  /** The node ranked `i` is offered after the root. */
  lemma OfferAt(scored: seq<Scored>, index: LI.Index, max: nat, q: Query, i: nat)
    requires Names(scored, |index.nodes|) && i < Min(max, |scored|)
    ensures TranscriptOffers(scored, index, max, q)[i + 1]
            == TranscriptForms(index.nodes[scored[i].index], scored[i].score, q)
  {
  }

  /** What is selected once one more node is offered, and its cost. */
  method PushPick(
    ghost offers: seq<seq<Selection>>, selections: seq<Selection>, used: nat, budget: nat, pick: Option<Selection>,
    ghost i: nat)
    returns (selections': seq<Selection>, used': nat)
    requires i < |offers| && selections == Greedy(offers[..i], budget) && used == Total(selections)
    requires pick == FirstFit(offers[i], budget, used)
    ensures selections' == Greedy(offers[..i + 1], budget) && used' == Total(selections')
  {
    GreedyNext(offers, budget, i);
    selections', used' := selections, used;
    if pick.Some? {
      selections' := selections + [pick.value];
      used' := used + pick.value.tokens;
    }
  }

  method SelectTranscripts(
    scored: seq<Scored>, index: LI.Index, budget: nat, max: nat, q: Query)
    returns (selections: seq<Selection>)
    requires Names(scored, |index.nodes|)
    ensures selections == Greedy(TranscriptOffers(scored, index, max, q), budget)
  {
    selections := SelectRoot(index.root, budget, q);
    var used := if |selections| > 0 then selections[0].tokens else 0;
    ghost var offers := TranscriptOffers(scored, index, max, q);
    RootIsFirst(scored, index, max, q);
    for i := 0 to Min(max, |scored|)
      invariant selections == Greedy(offers[..i + 1], budget) && used == Total(selections)
    {
      OfferAt(scored, index, max, q, i);
      var pick := TranscriptOrSummary(index.nodes[scored[i].index], scored[i].score, used, budget, q);
      selections, used := PushPick(offers, selections, used, budget, pick, i + 1);
    }
    assert offers[..|offers|] == offers;
  }

  method BuildResult(selections: seq<Selection>, decision: Decision, budget: nat) returns (r: Retrieval)
    ensures r.selections == selections && r.decision == decision
    ensures r.usage.budget == budget && r.usage.used == Total(selections)
    ensures r.usage.savingsRatio == Savings(budget, r.usage.used)
  {
    var used := 0;
    for i := 0 to |selections|
      invariant used == Total(selections[..i])
    {
      assert selections[..i + 1] == selections[..i] + [selections[i]];
      TotalPush(selections[..i], selections[i]);
      used := used + selections[i].tokens;
    }
    assert selections[..|selections|] == selections;
    return Retrieval(selections, decision, TokenUsage(budget, used, Savings(budget, used)));
  }

  const NOTHING := Retrieval([], Decision(None, 0.0), TokenUsage(0, 0, 0.0))

  ghost predicate Follows(plan: Plan, budget: nat, r: Retrieval) {
    var chosen := Greedy(plan.offers, budget);
    r == Retrieval(chosen, plan.decision, TokenUsage(budget, Total(chosen), Savings(budget, Total(chosen))))
  }

  ghost predicate Answers(cfg: Config, index: LI.Index, q: Query, r: Retrieval) {
    Follows(PlanFor(cfg, index, q), Budget(cfg), r)
  }

  method Retrieve(cfg: Config, index: LI.Index, q: Query) returns (r: Retrieval)
    ensures index.nodes == [] ==> r == NOTHING
    ensures index.nodes != [] ==> Answers(cfg, index, q, r)
  {
    if |index.nodes| == 0 {
      return NOTHING;
    }
    var scored := RankL0(index.nodes, q);
    var topScore := scored[0].score;
    if topScore >= cfg.scoreThresholdHigh {
      var selections := SelectWithBudget(scored, index.nodes, Budget(cfg), L0, 3, q);
      r := BuildResult(selections, Decision(Some(L0), topScore), Budget(cfg));
    } else {
      r := Escalate(cfg, index, RankL1(index.nodes, scored[..Min(cfg.maxItemsL1, |scored|)], q), q);
    }
  }

  method Escalate(cfg: Config, index: LI.Index, scored: seq<Scored>, q: Query) returns (r: Retrieval)
    requires Names(scored, |index.nodes|)
    ensures Follows(PlanL1(cfg, index, scored, q), Budget(cfg), r)
  {
    var topScore := if |scored| > 0 then scored[0].score else 0.0;
    var margin := if |scored| > 1 then scored[0].score - scored[1].score else 0.0;
    var selections;
    if topScore >= cfg.scoreThresholdHigh || margin >= cfg.top1Top2Margin {
      selections := SelectWithBudget(scored, index.nodes, Budget(cfg), L1, cfg.maxItemsL1, q);
      r := BuildResult(selections, Decision(Some(L1), topScore), Budget(cfg));
    } else {
      selections := SelectTranscripts(scored, index, Budget(cfg), cfg.maxItemsL2, q);
      r := BuildResult(selections, Decision(Some(L2), topScore), Budget(cfg));
    }
  }

  /** Every answer, on every layer, is a maximal choice within max(400, 45% of the prompt). */
  lemma AnswersStayInBudget(cfg: Config, index: LI.Index, q: Query, r: Retrieval)
    requires Answers(cfg, index, q, r)
    ensures r.usage.used == Total(r.selections) <= Budget(cfg) && 0.0 <= r.usage.savingsRatio <= 1.0
    ensures var offers := PlanFor(cfg, index, q).offers;
            GreedyChoice(offers, Budget(cfg), r.selections, Taken(offers, Budget(cfg)))
  {
    GreedyIsMaximal(PlanFor(cfg, index, q).offers, Budget(cfg));
  }

  // ---- The recency prior ----

  ghost predicate RanksOf(nodes: seq<LI.Node>) {
    forall k :: 0 <= k < |nodes| ==> nodes[k].recencyRank == |nodes| - 1 - k
  }

  lemma BonusGrows(a: nat, b: nat, m: nat)
    requires a > b && m > 0
    ensures Bonus(a, m) > Bonus(b, m)
  {
    Divided(0.08 * a as real, 0.08 * b as real, m as real);
  }

  lemma BonusEnds(m: nat)
    requires m > 0
    ensures Bonus(m, m) == 0.08 && Bonus(0, m) == 0.0
  {
    var d := m as real;
    assert 0.08 * d / d == 0.08;
  }

  lemma Divided(x: real, y: real, d: real)
    requires d > 0.0
    ensures x > y ==> x / d > y / d
  {
  }

  lemma MaxOfRanks(nodes: seq<LI.Node>)
    requires RanksOf(nodes) && nodes != []
    ensures MaxRecency(nodes) == |nodes| - 1
  {
    assert nodes[0].recencyRank == |nodes| - 1;
  }

  /**
   Over the ranks a build leaves, the prior falls strictly from +0.08 for the oldest chunk to
   nothing for the newest.
   */
  lemma OldestGetsTheBonus(nodes: seq<LI.Node>, i: nat, k: nat)
    requires RanksOf(nodes) && i < k < |nodes|
    ensures Bonus(nodes[i].recencyRank, MaxRecency(nodes)) > Bonus(nodes[k].recencyRank, MaxRecency(nodes))
    ensures i == 0 ==> Bonus(nodes[i].recencyRank, MaxRecency(nodes)) == 0.08
    ensures k == |nodes| - 1 ==> Bonus(nodes[k].recencyRank, MaxRecency(nodes)) == 0.0
  {
    MaxOfRanks(nodes);
    BonusGrows(nodes[i].recencyRank, nodes[k].recencyRank, |nodes| - 1);
    BonusEnds(|nodes| - 1);
  }

  /** So for a query that matches all chunks alike, an index just built is searched oldest first. */
  lemma EqualScoresRankOldestFirst(s: LI.State, b: LI.Build, q: Query, base: real)
    requires LI.Run(s, b).1.Ok? && forall i :: q.l0(i) == base
    ensures var nodes := LI.Run(s, b).1.value.nodes;
            forall k :: 0 <= k < |nodes| ==> RankL0(nodes, q)[k].index == k
  {
    var nodes := LI.Run(s, b).1.value.nodes;
    LI.BuildKeepsNewest(s, b, LI.Chunks(b));
    forall k: nat | k < |nodes| ensures nodes[k].recencyRank == |nodes| - 1 - k {
      LI.NewestRanks(b.tools.checksum, LI.Chunks(b), b.cfg.maxArchives, nodes, k);
    }
    assert RanksOf(nodes);
    forall i: nat, k: nat | i < k < |nodes| ensures ScoreL0(nodes, q)[i].score >= ScoreL0(nodes, q)[k].score {
      OldestGetsTheBonus(nodes, i, k);
    }
    RankingKeepsOrder(ScoreL0(nodes, q));
  }

  /** Over a directory that any builds left, no node's transcript is missing, and it is the right one. */
  lemma TranscriptsAreOnHand(
    builds: seq<LI.Build>, checksum: string -> string, texts: set<string>, k: nat, score: real, q: Query)
    requires LI.IdsFaithful(checksum, texts)
    requires forall i :: 0 <= i < |builds| ==>
             builds[i].tools.checksum == checksum && LI.Requests(texts, LI.Chunks(builds[i]))
    requires k < |LI.Saved(LI.RunAll(LI.EMPTY, builds))|
    requires var archives := LI.RunAll(LI.EMPTY, builds).archives;
             forall id :: q.read(id) == if id in archives then Some(archives[id].transcript) else None
    ensures var node := LI.Saved(LI.RunAll(LI.EMPTY, builds))[k];
            var forms := TranscriptForms(node, score, q);
            |forms| == 2 && forms[0].layer == L2 && checksum(forms[0].content) == node.content.checksum
  {
    LI.ArchivesBackTheIndex(builds, checksum, texts);
    var s := LI.RunAll(LI.EMPTY, builds);
    assert LI.NodeBacked(checksum, LI.Saved(s)[k], s.archives);
  }
}

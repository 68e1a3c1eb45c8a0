/**
 What an answer of the retriever holds and why its layer answered, read off the answer and the
 index.
 */
module RetrieverAnswers {
  import opened Prelude
  import opened Retriever
  import LI = LayeredIndex

  // ---- What is selected ----

  /** The ranking a layer selects from: all nodes by their abstracts, then the best of them by their summaries. */
  function Ranking(cfg: Config, index: LI.Index, q: Query, layer: Layer): (s: seq<Scored>)
    ensures Names(s, |index.nodes|)
  {
    var all := RankL0(index.nodes, q);
    if layer == L0 then all else RankL1(index.nodes, all[..Min(cfg.maxItemsL1, |all|)], q)
  }

  /** How many of the ranking a layer considers. */
  function Limit(cfg: Config, layer: Layer): nat {
    match layer
    case L0 => 3
    case L1 => cfg.maxItemsL1
    case L2 => cfg.maxItemsL2
  }

  /** The selection is the node's abstract, its summary, or on the last layer its stored transcript. */
  predicate OfNode(node: LI.Node, q: Query, layer: Layer, score: real, x: Selection) {
    && x.nodeId == node.content.id && x.tokens == q.estimate(x.content) && x.score == score
    && match layer
       case L0 => x.layer == L0 && x.content == node.content.abstractText
       case L1 => x.layer == L1 && x.content == node.content.summary
       case L2 =>
         || (x.layer == L2 && q.read(node.content.id) == Some(x.content))
         || (x.layer == L1 && x.content == node.content.summary)
  }

  predicate OfRoot(root: LI.Root, q: Query, x: Selection) {
    x == Selection("root", L0, root.abstractText, q.estimate(root.abstractText), 1.0)
  }

  predicate OfRank(cfg: Config, index: LI.Index, q: Query, layer: Layer, i: nat, x: Selection) {
    var ranking := Ranking(cfg, index, q, layer);
    i < |ranking| && i < Limit(cfg, layer) && OfNode(index.nodes[ranking[i].index], q, layer, ranking[i].score, x)
  }

  /** The selection is one of a node considered, or on the last layer the root's. */
  ghost predicate Genuine(cfg: Config, index: LI.Index, q: Query, layer: Layer, x: Selection) {
    || (exists i :: OfRank(cfg, index, q, layer, i, x))
    || (layer == L2 && OfRoot(index.root, q, x))
  }

  /** The cheapest a node has to offer on a layer. */
  function LastResort(node: LI.Node, layer: Layer): string {
    if layer == L0 then node.content.abstractText else node.content.summary
  }

  /** What offer `i` for the node ranked `i` holds, the last of it being its cheapest form. */
  ghost predicate OffersRank(cfg: Config, index: LI.Index, q: Query, layer: Layer, i: nat, forms: seq<Selection>) {
    var ranking := Ranking(cfg, index, q, layer);
    && i < |ranking| && forms != [] && (forall x :: x in forms ==> OfRank(cfg, index, q, layer, i, x))
    && forms[|forms| - 1].tokens == q.estimate(LastResort(index.nodes[ranking[i].index], layer))
  }

  /** Behind the root, if the layer has it, the offers are those of the ranking, as far as the limit goes. */
  ghost predicate OffersRanking(cfg: Config, index: LI.Index, q: Query, layer: Layer, offers: seq<seq<Selection>>) {
    var d := if layer == L2 then 1 else 0;
    && |offers| == d + Min(Limit(cfg, layer), |Ranking(cfg, index, q, layer)|)
    && (layer == L2 ==> |offers[0]| == 1 && OfRoot(index.root, q, offers[0][0]))
    && forall i: nat, j :: j == i + d && j < |offers| ==> OffersRank(cfg, index, q, layer, i, offers[j])
  }

  lemma LayerOffersRanking(cfg: Config, index: LI.Index, q: Query, layer: Layer)
    requires layer != L2
    ensures var scored := Ranking(cfg, index, q, layer);
            OffersRanking(cfg, index, q, layer, LayerOffers(scored, index.nodes, layer, Limit(cfg, layer), q))
  {
    var scored := Ranking(cfg, index, q, layer);
    var offers := LayerOffers(scored, index.nodes, layer, Limit(cfg, layer), q);
    forall i: nat | i < |offers| ensures OffersRank(cfg, index, q, layer, i, offers[i]) {
      assert OfRank(cfg, index, q, layer, i, offers[i][0]);
    }
  }

  lemma TranscriptsOfferRanking(cfg: Config, index: LI.Index, q: Query)
    ensures var scored := Ranking(cfg, index, q, L2);
            OffersRanking(cfg, index, q, L2, TranscriptOffers(scored, index, Limit(cfg, L2), q))
  {
    var scored := Ranking(cfg, index, q, L2);
    var offers := TranscriptOffers(scored, index, Limit(cfg, L2), q);
    forall i: nat, j | j == i + 1 && j < |offers| ensures OffersRank(cfg, index, q, L2, i, offers[j]) {
      OfferAt(scored, index, Limit(cfg, L2), q, i);
      forall x | x in offers[j] ensures OfRank(cfg, index, q, L2, i, x) {}
    }
  }

  lemma PlanOffersRanking(cfg: Config, index: LI.Index, q: Query)
    ensures var plan := PlanFor(cfg, index, q);
            && plan.decision.reachedLayer.Some?
            && var layer := plan.decision.reachedLayer.value;
            && OffersRanking(cfg, index, q, layer, plan.offers)
            && plan.decision.topScore == TopScore(Ranking(cfg, index, q, layer))
  {
    LayerOffersRanking(cfg, index, q, L0);
    LayerOffersRanking(cfg, index, q, L1);
    TranscriptsOfferRanking(cfg, index, q);
  }

  lemma GenuineOffer(
    cfg: Config, index: LI.Index, q: Query, layer: Layer, offers: seq<seq<Selection>>, j: nat, x: Selection)
    requires OffersRanking(cfg, index, q, layer, offers) && j < |offers| && x in offers[j]
    ensures Genuine(cfg, index, q, layer, x)
  {
    if layer != L2 {
      assert OffersRank(cfg, index, q, layer, j, offers[j]);
      assert OfRank(cfg, index, q, layer, j, x);
    } else if j > 0 {
      assert OffersRank(cfg, index, q, layer, j - 1, offers[j]);
      assert OfRank(cfg, index, q, layer, j - 1, x);
    }
  }

  /**
   Whatever the scores, an answer holds abstracts on the first layer, summaries on the second,
   and on the last stored transcripts, summaries in their stead and the root's abstract, each at
   its estimated cost and with its score, of the best ranked nodes.
   */
  lemma AnswersAreGenuine(cfg: Config, index: LI.Index, q: Query, r: Retrieval)
    requires Answers(cfg, index, q, r)
    ensures r.decision.reachedLayer.Some?
    ensures var layer := r.decision.reachedLayer.value;
            && (forall x :: x in r.selections ==> Genuine(cfg, index, q, layer, x))
            && var ranking := Ranking(cfg, index, q, layer);
            r.decision.topScore == if ranking == [] then 0.0 else ranking[0].score
  {
    PlanOffersRanking(cfg, index, q);
    var offers, budget, layer := PlanFor(cfg, index, q).offers, Budget(cfg), r.decision.reachedLayer.value;
    GreedyIsMaximal(offers, budget);
    var taken := Taken(offers, budget);
    forall x | x in r.selections ensures Genuine(cfg, index, q, layer, x) {
      var k :| 0 <= k < |r.selections| && r.selections[k] == x;
      assert Justified(offers[taken[k]], budget, Total(r.selections[..k]), x);
      GenuineOffer(cfg, index, q, layer, offers, taken[k], x);
    }
  }

  /** The node ranked `i` is in the answer, or not even its cheapest form would fit into what is left. */
  ghost predicate Considered(cfg: Config, index: LI.Index, q: Query, layer: Layer, i: nat, r: Retrieval) {
    var ranking := Ranking(cfg, index, q, layer);
    && i < |ranking|
    && ((exists x :: x in r.selections && OfRank(cfg, index, q, layer, i, x))
        || r.usage.used + q.estimate(LastResort(index.nodes[ranking[i].index], layer)) > r.usage.budget)
  }

  lemma OfferIsConsidered(
    cfg: Config, index: LI.Index, q: Query, layer: Layer, i: nat, offers: seq<seq<Selection>>, j: nat, r: Retrieval,
    taken: seq<nat>)
    requires j < |offers| && OffersRank(cfg, index, q, layer, i, offers[j])
    requires GreedyChoice(offers, r.usage.budget, r.selections, taken) && r.usage.used == Total(r.selections)
    ensures Considered(cfg, index, q, layer, i, r)
  {
    if j in taken {
      var k :| 0 <= k < |taken| && taken[k] == j;
      assert Justified(offers[taken[k]], r.usage.budget, Total(r.selections[..k]), r.selections[k]);
      assert r.selections[k] in offers[j];
      assert OfRank(cfg, index, q, layer, i, r.selections[k]);
    } else {
      assert Hopeless(offers[j], r.usage.budget, Total(r.selections));
    }
  }

  /** Of the ranked nodes, as far as the layer's limit goes, none is left out that would still fit. */
  lemma NothingFittingIsLeftOut(cfg: Config, index: LI.Index, q: Query, r: Retrieval, i: nat)
    requires Answers(cfg, index, q, r) && r.decision.reachedLayer.Some?
    requires var layer := r.decision.reachedLayer.value;
             i < Limit(cfg, layer) && i < |Ranking(cfg, index, q, layer)|
    ensures Considered(cfg, index, q, r.decision.reachedLayer.value, i, r)
  {
    PlanOffersRanking(cfg, index, q);
    var offers, layer := PlanFor(cfg, index, q).offers, r.decision.reachedLayer.value;
    var j := if layer == L2 then i + 1 else i;
    AnswersStayInBudget(cfg, index, q, r);
    assert OffersRank(cfg, index, q, layer, i, offers[j]);
    OfferIsConsidered(cfg, index, q, layer, i, offers, j, r, Taken(offers, Budget(cfg)));
  }

  /** On the last layer the root's abstract comes first, unless it alone is over the budget. */
  lemma RootComesFirst(cfg: Config, index: LI.Index, q: Query, r: Retrieval)
    requires Answers(cfg, index, q, r) && r.decision.reachedLayer == Some(L2)
    ensures if q.estimate(index.root.abstractText) <= r.usage.budget
            then r.selections != [] && OfRoot(index.root, q, r.selections[0])
            else forall x :: x in r.selections ==> !OfRoot(index.root, q, x)
  {
    PlanOffersRanking(cfg, index, q);
    var offers, budget := PlanFor(cfg, index, q).offers, Budget(cfg);
    var root: Selection := offers[0][0];
    assert offers[..0] == [] && offers[0] == [root];
    GreedyNext(offers, budget, 0);
    if root.tokens <= budget {
      assert Greedy(offers[..1], budget) == [root];
      GreedyExtends(offers, budget, 1);
    } else {
      AnswersStayInBudget(cfg, index, q, r);
      forall x | x in r.selections ensures !OfRoot(index.root, q, x) { WithinBudget(r.selections, x); }
    }
  }

  lemma {:induction false} GreedyExtends(offers: seq<seq<Selection>>, budget: nat, i: nat)
    requires i <= |offers|
    ensures Greedy(offers[..i], budget) <= Greedy(offers, budget)
    decreases |offers| - i
  {
    if i == |offers| {
      assert offers[..i] == offers;
    } else {
      GreedyNext(offers, budget, i);
      GreedyExtends(offers, budget, i + 1);
    }
  }

  lemma {:induction false} WithinBudget(s: seq<Selection>, x: Selection)
    requires x in s
    ensures x.tokens <= Total(s)
  {
    if x != s[|s| - 1] { WithinBudget(s[..|s| - 1], x); }
  }

  lemma UsageFollows(cfg: Config, index: LI.Index, q: Query, r: Retrieval)
    requires Answers(cfg, index, q, r)
    ensures r.usage.budget == Budget(cfg) && r.usage.savingsRatio == Savings(r.usage.budget, r.usage.used)
  {
  }

  /** The budget is 45% of the prompt, rounded down, but at least 400. */
  lemma BudgetIsTrue(cfg: Config, index: LI.Index, q: Query, r: Retrieval)
    requires Answers(cfg, index, q, r)
    ensures var b := r.usage.budget;
            b >= 400 && 100 * (b + 1) > 45 * cfg.maxPromptTokens && (b == 400 || 100 * b <= 45 * cfg.maxPromptTokens)
  {
    UsageFollows(cfg, index, q, r);
  }

  /** The savings are the unused fraction of the budget. */
  lemma SavingsAreTrue(budget: nat, used: nat)
    requires budget > 0
    ensures Savings(budget, used) * budget as real == budget as real - used as real
  {
    Rest(budget as real, used as real);
  }

  lemma Rest(whole: real, part: real)
    requires whole > 0.0
    ensures (1.0 - part / whole) * whole == whole - part
  {
  }

  // ---- Which layer answers ----

  /** The score of node `i`: its relevance, and the prior. */
  function NodeScore(nodes: seq<LI.Node>, q: Query, i: nat): real
    requires i < |nodes|
  {
    q.l0(i) +
    if MaxRecency(nodes) > 0 then 0.08 * nodes[i].recencyRank as real / MaxRecency(nodes) as real else 0.0
  }

  lemma TopIsHighest(s: seq<Scored>)
    requires s != []
    ensures |Ranked(s)| == |s| && exists i :: 0 <= i < |s| && s[i] == Ranked(s)[0]
    ensures forall i :: 0 <= i < |s| ==> s[i].score <= Ranked(s)[0].score
  {
    RankingSorts(s);
    var top := Ranked(s)[0];
    assert top in multiset(s);
    forall i | 0 <= i < |s| ensures s[i].score <= top.score {
      assert s[i] in multiset(Ranked(s));
    }
  }

  /** The first layer answers exactly if some node scores high enough, and the top score is the highest. */
  lemma FirstLayerIff(cfg: Config, index: LI.Index, q: Query, r: Retrieval)
    requires Answers(cfg, index, q, r) && index.nodes != []
    ensures r.decision.reachedLayer == Some(L0) <==>
            exists i :: 0 <= i < |index.nodes| && NodeScore(index.nodes, q, i) >= cfg.scoreThresholdHigh
    ensures r.decision.reachedLayer == Some(L0) ==>
              forall i :: 0 <= i < |index.nodes| ==> NodeScore(index.nodes, q, i) <= r.decision.topScore
  {
    var s := ScoreL0(index.nodes, q);
    TopIsHighest(s);
    assert forall i :: 0 <= i < |s| ==> s[i].score == NodeScore(index.nodes, q, i);
    var i :| 0 <= i < |s| && s[i] == Ranked(s)[0];
    assert NodeScore(index.nodes, q, i) == Ranked(s)[0].score;
  }

  lemma SecondPlanIff(cfg: Config, index: LI.Index, q: Query, scored: seq<Scored>)
    requires Names(scored, |index.nodes|)
    ensures PlanL1(cfg, index, scored, q).decision.reachedLayer == Some(L2) <==>
            TopScore(scored) < cfg.scoreThresholdHigh && Margin(scored) < cfg.top1Top2Margin
    ensures PlanL1(cfg, index, scored, q).decision.reachedLayer != Some(L0)
  {
  }

  lemma SecondPlanFollows(cfg: Config, index: LI.Index, q: Query, r: Retrieval)
    requires Answers(cfg, index, q, r) && r.decision.reachedLayer != Some(L0)
    ensures var best := RankL0(index.nodes, q)[..Min(cfg.maxItemsL1, |index.nodes|)];
            r.decision == PlanL1(cfg, index, RankL1(index.nodes, best, q), q).decision
  {
  }

  /**
   The last layer answers exactly if the first does not, no candidate's summary scores high
   enough, and the best of them is not clearly ahead of the second.
   */
  lemma LastLayerIff(cfg: Config, index: LI.Index, q: Query, r: Retrieval)
    requires Answers(cfg, index, q, r) && r.decision.reachedLayer != Some(L0)
    ensures var best := RankL0(index.nodes, q)[..Min(cfg.maxItemsL1, |index.nodes|)];
            var s := ScoreL1(index.nodes, best, q);
            r.decision.reachedLayer == Some(L2) <==>
              && (forall i :: 0 <= i < |s| ==> s[i].score < cfg.scoreThresholdHigh)
              && (s == [] ==> 0.0 < cfg.scoreThresholdHigh)
              && (if |s| > 1 then Ranked(s)[0].score - Ranked(s)[1].score else 0.0) < cfg.top1Top2Margin
  {
    var best := RankL0(index.nodes, q)[..Min(cfg.maxItemsL1, |index.nodes|)];
    var s := ScoreL1(index.nodes, best, q);
    SecondPlanFollows(cfg, index, q, r);
    SecondPlanIff(cfg, index, q, Ranked(s));
    RankingSorts(s);
    if s != [] { TopIsHighest(s); }
  }
}

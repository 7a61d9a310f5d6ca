/** MarketPredictorAgent (src/agents/market_predictor.py): simulating the
    population's reactions, scoring product-market fit from the SSR
    distributions of those reactions, and sampling feedback for the critic. */
module MarketPredictor {
  import opened Py
  import opened Records
  import opened Exceptions
  import opened MarketMetrics
  import Ranking

  // ---------------------------------------------------------------------
  // Simulating the population

  /** One persona's reaction to a concept, from the model; None when the
      call raised. */
  type Respond = (Persona, ProductConcept) -> Option<PersonaResponse>

  /** The reaction, labelled with the persona's name. */
  function Stamped(response: PersonaResponse, name: string): PersonaResponse {
    response.(personaName := name)
  }

  /** The responses of the personas whose call succeeded, in persona order. */
  function Simulated(concept: ProductConcept, personas: seq<Persona>, respond: Respond): (r: seq<PersonaResponse>)
    ensures |r| <= |personas|
    ensures (forall p | p in personas :: respond(p, concept).Some?) ==>
      |r| == |personas|
      && forall i | 0 <= i < |personas| :: r[i] == Stamped(respond(personas[i], concept).value, personas[i].name)
    ensures forall x | x in r ::
      exists p | p in personas :: respond(p, concept).Some? && x == Stamped(respond(p, concept).value, p.name)
  {
    if personas == [] then []
    else
      var init := personas[..|personas| - 1];
      var last := personas[|personas| - 1];
      var r0 := Simulated(concept, init, respond);
      assert forall p | p in init :: p in personas;
      assert personas == init + [last];
      var outcome := respond(last, concept);
      if outcome.Some? then r0 + [Stamped(outcome.value, last.name)] else r0
  }

  /** `simulate_market_response`: asks each persona in turn, skipping the
      ones whose call fails. */
  method SimulateMarketResponse(concept: ProductConcept, personas: seq<Persona>, respond: Respond)
    returns (responses: seq<PersonaResponse>)
    ensures responses == Simulated(concept, personas, respond)
  {
    responses := [];
    var k := 0;
    while k < |personas|
      invariant 0 <= k <= |personas|
      invariant responses == Simulated(concept, personas[..k], respond)
    {
      var outcome := respond(personas[k], concept);
      assert personas[..k + 1][..k] == personas[..k];
      if outcome.Some? {
        responses := responses + [Stamped(outcome.value, personas[k].name)];
      }
      k := k + 1;
    }
    assert personas[..k] == personas;
  }

  // ---------------------------------------------------------------------
  // Scoring

  /** The three SSR raters: each turns a free-text answer into a PMF over 1..5. */
  datatype Raters = Raters(interest: string -> Pmf, disappointment: string -> Pmf, recommendation: string -> Pmf)

  /** What the SSR library promises of every rating it produces. */
  ghost predicate ValidRaters(raters: Raters) {
    forall s: string :: ValidPmf(raters.interest(s)) && ValidPmf(raters.disappointment(s)) && ValidPmf(raters.recommendation(s))
  }

  function RateAll(raters: Raters, responses: seq<PersonaResponse>): (ratings: seq<Ratings>)
    ensures |ratings| == |responses|
  {
    seq(|responses|, i requires 0 <= i < |responses| =>
      Ratings(raters.interest(responses[i].interestResponse),
              raters.disappointment(responses[i].disappointmentResponse),
              raters.recommendation(responses[i].recommendationResponse)))
  }

  datatype Segmentation = Segmentation(
    superfansPct: real,
    enthusiastsPct: real,
    interestedPct: real,
    skepticalPct: real,
    veryDisappointedPct: real,
    somewhatDisappointedPct: real,
    notDisappointedPct: real,
    promotersPct: real,
    passivesPct: real,
    detractorsPct: real)

  const FreemiumMassMarketText: string := "Freemium/Mass Market: Wide adoption with premium tier for superfans. Example: Spotify (free tier + premium). Pricing: $0 free, $15-30/mo premium"
  const PremiumNicheText: string := "Premium/Niche: Target superfans willing to pay premium. Example: high-end audio, professional tools. Pricing: $30-100/mo or $300-1000 one-time"
  const ValueBasedPricingText: string := "Value-Based Pricing: Broad appeal with tiered pricing. Example: Notion, Figma. Pricing: $0-15/mo free, $20-40/mo pro"
  const PremiumCommunityText: string := "Premium/Community: Target niche with strong community. Example: Peloton, CrossFit. Pricing: $20-50/mo or $200-500 one-time"
  const MidMarketSaasText: string := "Mid-Market/SaaS: Balance accessibility and value. Example: most B2B SaaS. Pricing: $10-30/mo per user"
  const NeedsRefinementText: string := "Needs refinement: Insufficient market enthusiasm for clear monetization strategy. Iterate to create passionate advocates first."

  /** The business models calculate_pmf chooses between. */
  datatype BusinessModel =
    | FreemiumMassMarket | PremiumNiche | ValueBasedPricing | PremiumCommunity | MidMarketSaas | NeedsRefinement
  {
    function Text(): string {
      match this
      case FreemiumMassMarket => FreemiumMassMarketText
      case PremiumNiche => PremiumNicheText
      case ValueBasedPricing => ValueBasedPricingText
      case PremiumCommunity => PremiumCommunityText
      case MidMarketSaas => MidMarketSaasText
      case NeedsRefinement => NeedsRefinementText
    }
  }

  const ProceedMassMarketDetail: string := " (MASS MARKET): Strong core (10%+ superfans) + broad appeal (40%+ enthusiasts) - scale aggressively. This is exceptional for early-stage."
  const ProceedNicheDetail: string := " (NICHE): Viable superfan segment (10%+) - nail the niche first, expand later. Many successful products started here (Tesla, Peloton)."
  const RefineModerateDetail: string := ": Moderate interest (30%+ enthusiasts) but no superfans yet - iterate value prop to create passionate advocates"
  const RefineLukewarmDetail: string := ": Lukewarm response (50%+ mildly interested) - strengthen differentiation to convert interest into enthusiasm"
  const PivotDetail: string := ": Weak market fit - consider major changes, different positioning, or new target market"

  const ProceedPrefix: string := "✅ PROCEED"
  const RefinePrefix: string := "⚠️ REFINE"
  const PivotPrefix: string := "❌ PIVOT"

  /** The strategic recommendations calculate_pmf chooses between. */
  datatype Recommendation = ProceedMassMarket | ProceedNiche | RefineModerate | RefineLukewarm | Pivot
  {
    /** The verdict the text opens with. */
    function Tag(): string {
      match this
      case ProceedMassMarket => ProceedPrefix
      case ProceedNiche => ProceedPrefix
      case RefineModerate => RefinePrefix
      case RefineLukewarm => RefinePrefix
      case Pivot => PivotPrefix
    }

    /** The explanation that follows the verdict. */
    function Detail(): string {
      match this
      case ProceedMassMarket => ProceedMassMarketDetail
      case ProceedNiche => ProceedNicheDetail
      case RefineModerate => RefineModerateDetail
      case RefineLukewarm => RefineLukewarmDetail
      case Pivot => PivotDetail
    }

    /** The text calculate_pmf stores as the recommendation. */
    function Text(): string {
      Tag() + Detail()
    }
  }

  function ChooseBusinessModel(superfanRatio: real, enthusiastsPct: real): BusinessModel {
    if superfanRatio >= 0.15 then
      (if enthusiastsPct >= 40.0 then FreemiumMassMarket else PremiumNiche)
    else if superfanRatio >= 0.10 then
      (if enthusiastsPct >= 40.0 then ValueBasedPricing else PremiumCommunity)
    else if enthusiastsPct >= 30.0 then MidMarketSaas
    else NeedsRefinement
  }

  function ChooseRecommendation(superfanRatio: real, enthusiastsPct: real, interestedPct: real): Recommendation {
    if superfanRatio >= 0.10 then
      (if enthusiastsPct >= 40.0 then ProceedMassMarket else ProceedNiche)
    else if enthusiastsPct >= 30.0 then RefineModerate
    else if interestedPct >= 50.0 then RefineLukewarm
    else Pivot
  }

  /** calculate_pmf's result. The recommendation and business-model fields
      hold the choice; the text the Python field holds is its `Text()`. */
  datatype MarketFitScore = MarketFitScore(
    pmfScore: real,
    avgInterest: real,
    nps: int,
    segmentation: Segmentation,
    targetMarketSizePct: real,
    superfanRatio: real,
    interestDistribution: map<int, int>,
    topBenefits: seq<string>,
    topConcerns: seq<string>,
    recommendation: Recommendation,
    businessModelFit: BusinessModel,
    totalResponses: nat)

  /** The score, and whether the sample was below the ten responses calculate_pmf
      warns about. */
  datatype Assessment = Assessment(score: MarketFitScore, lowSampleWarning: bool)

  const ReliableSampleSize: nat := 10

  /** `int(((promoters - detractors) / total) * 100)` */
  function NpsOf(promoters: nat, detractors: nat, total: nat): int
    requires total > 0
  {
    TruncateTowardZero(((promoters - detractors) as real / total as real) * 100.0)
  }

  /** The NPS of a population from its promoter and detractor counts. */
  function Nps(ratings: seq<Ratings>): int
    requires ratings != []
  {
    NpsOf(CountIf(ratings, IsPromoter), CountIf(ratings, IsDetractor), |ratings|)
  }

  /** `mean(pmf[3] + pmf[4] over respondents) * 100` */
  function PmfScore(ratings: seq<Ratings>): real
    requires ratings != []
  {
    Mean(ratings, TopTwoMass) * 100.0
  }

  /** Interest mass at Likert level `level`, as a function value. */
  function InterestLevel(level: int): Ratings -> real
    requires 1 <= level <= 5
  {
    (r: Ratings) => r.interest[level - 1]
  }

  /** `{i + 1: int(round(interest_pmfs.sum(axis=0)[i])) for i in range(5)}` */
  function InterestDistribution(ratings: seq<Ratings>): map<int, int> {
    map level | 1 <= level <= 5 :: RoundHalfEven(SumOf(ratings, InterestLevel(level)))
  }

  function Segment(ratings: seq<Ratings>): Segmentation
    requires ratings != []
  {
    var total := |ratings|;
    var promoters := CountIf(ratings, IsPromoter);
    var detractors := CountIf(ratings, IsDetractor);
    Segmentation(
      Pct(CountIf(ratings, IsSuperfan), total),
      Pct(CountIf(ratings, IsEnthusiast), total),
      Pct(CountIf(ratings, IsInterested), total),
      Pct(CountIf(ratings, IsSkeptical), total),
      Pct(CountIf(ratings, IsVeryDisappointed), total),
      Pct(CountIf(ratings, IsSomewhatDisappointed), total),
      Pct(CountIf(ratings, IsNotDisappointed), total),
      Pct(promoters, total),
      Pct(total - promoters - detractors, total),
      Pct(detractors, total))
  }

  /** Every concern of every response, in order. */
  function AllConcerns(responses: seq<PersonaResponse>): seq<string> {
    if responses == [] then [] else responses[0].concerns + AllConcerns(responses[1..])
  }

  function Benefits(responses: seq<PersonaResponse>): (bs: seq<string>)
    ensures |bs| == |responses|
  {
    seq(|responses|, i requires 0 <= i < |responses| => responses[i].mainBenefit)
  }

  /** The MarketFitScore of a non-empty set of responses, rated as `ratings`. */
  function ScoreOf(responses: seq<PersonaResponse>, ratings: seq<Ratings>): MarketFitScore
    requires responses != [] && |ratings| == |responses|
  {
    var seg := Segment(ratings);
    var superfanRatio := CountIf(ratings, IsSuperfan) as real / |ratings| as real;
    MarketFitScore(
      PmfScore(ratings),
      Mean(ratings, InterestScore),
      Nps(ratings),
      seg,
      seg.superfansPct + seg.enthusiastsPct,
      superfanRatio,
      InterestDistribution(ratings),
      Ranking.MostCommon(Benefits(responses), 5),
      Ranking.MostCommon(AllConcerns(responses), 5),
      ChooseRecommendation(superfanRatio, seg.enthusiastsPct, seg.interestedPct),
      ChooseBusinessModel(superfanRatio, seg.enthusiastsPct),
      |responses|)
  }

  /** `calculate_pmf`: fails on an empty response list, warns below ten
      responses, and otherwise scores the SSR ratings of the responses. */
  function CalculatePmf(responses: seq<PersonaResponse>, raters: Raters): (r: Result<Assessment, Error>)
    ensures r.Failure? <==> responses == []
    ensures r.Failure? ==> r.error == InsufficientData(ReliableSampleSize, 0)
    ensures r.Success? ==> r.value.lowSampleWarning == (|responses| < ReliableSampleSize)
    ensures r.Success? ==> r.value.score.totalResponses == |responses|
  {
    if responses == [] then Failure(InsufficientData(ReliableSampleSize, 0))
    else Success(Assessment(ScoreOf(responses, RateAll(raters, responses)), |responses| < ReliableSampleSize))
  }

  // ---------------------------------------------------------------------
  // Properties of the score

  /** The enthusiast, interested and skeptical shares cover the population. */
  lemma InterestSegmentsPartition(ratings: seq<Ratings>)
    requires ratings != []
    ensures var s := Segment(ratings);
      s.enthusiastsPct + s.interestedPct + s.skepticalPct == 100.0
  {
    CountPartition3(ratings, IsEnthusiast, IsInterested, IsSkeptical);
    PctSum3(CountIf(ratings, IsEnthusiast), CountIf(ratings, IsInterested), CountIf(ratings, IsSkeptical), |ratings|);
  }

  /** The very, somewhat and not disappointed shares cover the population. */
  lemma DisappointmentSegmentsPartition(ratings: seq<Ratings>)
    requires ratings != []
    ensures var s := Segment(ratings);
      s.veryDisappointedPct + s.somewhatDisappointedPct + s.notDisappointedPct == 100.0
  {
    CountPartition3(ratings, IsVeryDisappointed, IsSomewhatDisappointed, IsNotDisappointed);
    PctSum3(CountIf(ratings, IsVeryDisappointed), CountIf(ratings, IsSomewhatDisappointed), CountIf(ratings, IsNotDisappointed), |ratings|);
  }

  /** Promoters and detractors never overlap, so the passives (the rest) are
      a share in [0, 100] and the three shares add up to 100. */
  lemma PromoterSegmentsPartition(ratings: seq<Ratings>)
    requires ratings != []
    ensures var s := Segment(ratings);
      && s.promotersPct + s.passivesPct + s.detractorsPct == 100.0
      && 0.0 <= s.passivesPct <= 100.0
  {
    var n := |ratings|;
    var p, d := CountIf(ratings, IsPromoter), CountIf(ratings, IsDetractor);
    CountDisjoint(ratings, IsPromoter, IsDetractor);
    var s := Segment(ratings);
    assert s.promotersPct == Pct(p, n) && s.passivesPct == Pct(n - p - d, n) && s.detractorsPct == Pct(d, n);
    PctSum3(p, n - p - d, d, n);
  }

  /** An NPS lies in [-100, 100] when promoters and detractors are disjoint,
      its sign follows promoters versus detractors, and it is 100 or -100
      exactly at the extremes. */
  lemma NpsOfBounds(p: nat, d: nat, n: nat)
    requires n > 0 && p + d <= n
    ensures -100 <= NpsOf(p, d, n) <= 100
    ensures NpsOf(p, d, n) > 0 ==> p > d
    ensures NpsOf(p, d, n) < 0 ==> p < d
    ensures p == n ==> NpsOf(p, d, n) == 100
    ensures d == n ==> NpsOf(p, d, n) == -100
  {
    RatioFacts(p - d, n);
    var q := (p - d) as real / n as real;
    assert -100.0 <= q * 100.0 <= 100.0;
  }

  /** NpsOfBounds for the counts of a rated population. */
  lemma NpsBounds(ratings: seq<Ratings>)
    requires ratings != []
    ensures -100 <= Nps(ratings) <= 100
    ensures Nps(ratings) > 0 ==> CountIf(ratings, IsPromoter) > CountIf(ratings, IsDetractor)
    ensures Nps(ratings) < 0 ==> CountIf(ratings, IsPromoter) < CountIf(ratings, IsDetractor)
    ensures CountIf(ratings, IsPromoter) == |ratings| ==> Nps(ratings) == 100
    ensures CountIf(ratings, IsDetractor) == |ratings| ==> Nps(ratings) == -100
  {
    CountDisjoint(ratings, IsPromoter, IsDetractor);
    NpsOfBounds(CountIf(ratings, IsPromoter), CountIf(ratings, IsDetractor), |ratings|);
  }

  /** With valid distributions the PMF score is a percentage and the average
      interest a Likert level. */
  lemma ScoreBounds(ratings: seq<Ratings>)
    requires ratings != []
    requires forall r | r in ratings :: ValidRatings(r)
    ensures 0.0 <= PmfScore(ratings) <= 100.0
    ensures 1.0 <= Mean(ratings, InterestScore) <= 5.0
  {
    MeanBounds(ratings, TopTwoMass, 0.0, 1.0);
    MeanBounds(ratings, InterestScore, 1.0, 5.0);
  }

  /** With raters that keep the SSR library's promise, the assessment
      `calculate_pmf` returns has its PMF score in [0, 100], its average
      interest in [1, 5] and its NPS in [-100, 100]. */
  lemma CalculatePmfBounds(responses: seq<PersonaResponse>, raters: Raters)
    requires ValidRaters(raters)
    ensures var r := CalculatePmf(responses, raters);
      r.Success? ==>
        && 0.0 <= r.value.score.pmfScore <= 100.0
        && 1.0 <= r.value.score.avgInterest <= 5.0
        && -100 <= r.value.score.nps <= 100
  {
    if responses != [] {
      var ratings := RateAll(raters, responses);
      forall r | r in ratings
        ensures ValidRatings(r)
      {
        var i :| 0 <= i < |ratings| && ratings[i] == r;
        assert ValidPmf(raters.interest(responses[i].interestResponse));
        assert ValidPmf(raters.disappointment(responses[i].disappointmentResponse));
        assert ValidPmf(raters.recommendation(responses[i].recommendationResponse));
      }
      ScoreBounds(ratings);
      NpsBounds(ratings);
    }
  }

  /** Raising any respondent's "very disappointed" mass never lowers the PMF score. */
  lemma PmfScoreMonotone(ratings: seq<Ratings>, raised: seq<Ratings>)
    requires ratings != [] && |raised| == |ratings|
    requires forall i | 0 <= i < |ratings| :: TopTwoMass(ratings[i]) <= TopTwoMass(raised[i])
    ensures PmfScore(ratings) <= PmfScore(raised)
  {
    MeanMonotone(ratings, raised, TopTwoMass);
  }

  /** Superfans are a subset of enthusiasts: the superfan ratio is the superfan
      share as a fraction, and the target market counts superfans twice. */
  lemma SuperfansAreEnthusiasts(responses: seq<PersonaResponse>, ratings: seq<Ratings>)
    requires responses != [] && |ratings| == |responses|
    ensures var m := ScoreOf(responses, ratings);
      && m.segmentation.superfansPct <= m.segmentation.enthusiastsPct
      && 0.0 <= m.superfanRatio <= 1.0
      && m.superfanRatio * 100.0 == m.segmentation.superfansPct
      && m.segmentation.enthusiastsPct <= m.targetMarketSizePct <= 2.0 * m.segmentation.enthusiastsPct
  {
    CountSubset(ratings, IsSuperfan, IsEnthusiast);
    PctMonotone(CountIf(ratings, IsSuperfan), CountIf(ratings, IsEnthusiast), |ratings|);
  }

  /** The recommendation proceeds exactly when at least 10% are superfans,
      refines when there are fewer superfans but 30%+ enthusiasts or 50%+
      interested, and pivots otherwise. */
  lemma RecommendationTable(ratio: real, enthusiasts: real, interested: real)
    ensures var rec := ChooseRecommendation(ratio, enthusiasts, interested);
      && ((rec == ProceedMassMarket || rec == ProceedNiche) <==> ratio >= 0.10)
      && (rec == ProceedMassMarket <==> ratio >= 0.10 && enthusiasts >= 40.0)
      && ((rec == RefineModerate || rec == RefineLukewarm) <==> ratio < 0.10 && (enthusiasts >= 30.0 || interested >= 50.0))
      && (rec == Pivot <==> ratio < 0.10 && enthusiasts < 30.0 && interested < 50.0)
  {
  }

  /** The text of a recommendation opens with PROCEED, REFINE or PIVOT
      according to its kind. */
  lemma RecommendationTextPrefix(rec: Recommendation)
    ensures StartsWith(rec.Text(), ProceedPrefix) <==> rec == ProceedMassMarket || rec == ProceedNiche
    ensures StartsWith(rec.Text(), RefinePrefix) <==> rec == RefineModerate || rec == RefineLukewarm
    ensures StartsWith(rec.Text(), PivotPrefix) <==> rec == Pivot
  {
    var tag, detail := rec.Tag(), rec.Detail();
    assert ProceedPrefix[0] == '✅' && RefinePrefix[0] == '⚠' && PivotPrefix[0] == '❌';
    StartsWithHead(tag, detail, ProceedPrefix);
    StartsWithHead(tag, detail, RefinePrefix);
    StartsWithHead(tag, detail, PivotPrefix);
  }

  /** The business model tiers on the superfan ratio, and "Needs refinement"
      is chosen exactly when the recommendation neither proceeds nor refines
      on moderate interest. */
  lemma BusinessModelTable(ratio: real, enthusiasts: real, interested: real)
    ensures var bm := ChooseBusinessModel(ratio, enthusiasts);
      var rec := ChooseRecommendation(ratio, enthusiasts, interested);
      && ((bm == FreemiumMassMarket || bm == PremiumNiche) <==> ratio >= 0.15)
      && ((bm == ValueBasedPricing || bm == PremiumCommunity) <==> 0.10 <= ratio < 0.15)
      && (bm == NeedsRefinement <==> rec == RefineLukewarm || rec == Pivot)
      && (bm == MidMarketSaas <==> rec == RefineModerate)
      && ((bm == FreemiumMassMarket || bm == ValueBasedPricing) <==> rec == ProceedMassMarket)
  {
  }

  /** Summing the interest distribution over levels gives the population
      size, up to the five roundings. */
  lemma InterestDistributionTotal(ratings: seq<Ratings>)
    requires forall r | r in ratings :: ValidRatings(r)
    ensures var d := InterestDistribution(ratings);
      && d.Keys == {1, 2, 3, 4, 5}
      && (forall level | level in d :: d[level] >= 0)
      && -2.5 <= (d[1] + d[2] + d[3] + d[4] + d[5]) as real - |ratings| as real <= 2.5
  {
    var d := InterestDistribution(ratings);
    LevelMassesTotal(ratings);
    forall level | 1 <= level <= 5 ensures SumOf(ratings, InterestLevel(level)) >= 0.0 {
      SumBounds(ratings, InterestLevel(level), 0.0, 1.0);
    }
    assert d.Keys == {1, 2, 3, 4, 5} by {
      forall level | level in {1, 2, 3, 4, 5} ensures level in d {
      }
    }
  }

  lemma {:induction false} LevelMassesTotal(ratings: seq<Ratings>)
    requires forall r | r in ratings :: ValidRatings(r)
    ensures SumOf(ratings, InterestLevel(1)) + SumOf(ratings, InterestLevel(2)) + SumOf(ratings, InterestLevel(3))
      + SumOf(ratings, InterestLevel(4)) + SumOf(ratings, InterestLevel(5)) == |ratings| as real
  {
    if ratings != [] {
      assert ValidRatings(ratings[0]);
      assert forall r | r in ratings[1..] :: r in ratings;
      LevelMassesTotal(ratings[1..]);
    }
  }

  /** The top benefits and concerns are `most_common(5)` of the benefits and
      of all concerns: at most five, distinct, most frequent first. */
  lemma TopListsSpec(responses: seq<PersonaResponse>, ratings: seq<Ratings>)
    requires responses != [] && |ratings| == |responses|
    ensures var m := ScoreOf(responses, ratings);
      && |m.topBenefits| == Min(5, |Ranking.Distinct(Benefits(responses))|)
      && |m.topConcerns| == Min(5, |Ranking.Distinct(AllConcerns(responses))|)
      && (forall b | b in m.topBenefits :: exists i | 0 <= i < |responses| :: responses[i].mainBenefit == b)
      && (forall c | c in m.topConcerns :: c in AllConcerns(responses))
      && Ranking.NoDuplicates(m.topBenefits) && Ranking.NoDuplicates(m.topConcerns)
  {
    var bs := Benefits(responses);
    Ranking.MostCommonSpec(bs, 5);
    Ranking.MostCommonSpec(AllConcerns(responses), 5);
    forall b | b in ScoreOf(responses, ratings).topBenefits
      ensures exists i | 0 <= i < |responses| :: responses[i].mainBenefit == b
    {
      var i :| 0 <= i < |bs| && bs[i] == b;
      assert responses[i].mainBenefit == b;
    }
  }

  /** A population whose every distribution is uniform scores 40 on the PMF
      score, but -100 on NPS: each respondent's expected recommendation maps
      to 5 on the 0..10 scale and counts as a detractor. */
  lemma UniformPopulation(responses: seq<PersonaResponse>, ratings: seq<Ratings>)
    requires responses != [] && |ratings| == |responses|
    requires forall r | r in ratings :: r == Ratings([0.2, 0.2, 0.2, 0.2, 0.2], [0.2, 0.2, 0.2, 0.2, 0.2], [0.2, 0.2, 0.2, 0.2, 0.2])
    ensures var m := ScoreOf(responses, ratings);
      && m.pmfScore == 40.0
      && m.avgInterest == 3.0
      && m.nps == -100
      && m.superfanRatio == 0.0
      && m.segmentation.interestedPct == 100.0
      && m.recommendation == RefineLukewarm
      && m.businessModelFit == NeedsRefinement
  {
    var u := Ratings([0.2, 0.2, 0.2, 0.2, 0.2], [0.2, 0.2, 0.2, 0.2, 0.2], [0.2, 0.2, 0.2, 0.2, 0.2]);
    var n := |ratings|;
    assert TopTwoMass(u) == 0.4 && InterestScore(u) == 3.0;
    MeanConstant(ratings, TopTwoMass, 0.4);
    MeanConstant(ratings, InterestScore, 3.0);
    assert IsDetractor(u) && !IsPromoter(u) && IsInterested(u) && !IsSuperfan(u) && !IsEnthusiast(u);
    CountIfAll(ratings, IsDetractor);
    CountIfNone(ratings, IsPromoter);
    CountIfAll(ratings, IsInterested);
    CountIfNone(ratings, IsSuperfan);
    CountIfNone(ratings, IsEnthusiast);
    NpsOfBounds(0, n, n);
    var seg := Segment(ratings);
    assert seg.superfansPct == 0.0 && seg.enthusiastsPct == 0.0 && seg.interestedPct == 100.0;
  }

  /** A population certain of the top level everywhere scores 100 on the PMF
      score and NPS, is all superfans, and reports a target market of 200%. */
  lemma UnanimousPopulation(responses: seq<PersonaResponse>, ratings: seq<Ratings>)
    requires responses != [] && |ratings| == |responses|
    requires forall r | r in ratings :: r == Ratings([0.0, 0.0, 0.0, 0.0, 1.0], [0.0, 0.0, 0.0, 0.0, 1.0], [0.0, 0.0, 0.0, 0.0, 1.0])
    ensures var m := ScoreOf(responses, ratings);
      && m.pmfScore == 100.0
      && m.avgInterest == 5.0
      && m.nps == 100
      && m.superfanRatio == 1.0
      && m.targetMarketSizePct == 200.0
      && m.recommendation == ProceedMassMarket
      && m.businessModelFit == FreemiumMassMarket
  {
    var t := Ratings([0.0, 0.0, 0.0, 0.0, 1.0], [0.0, 0.0, 0.0, 0.0, 1.0], [0.0, 0.0, 0.0, 0.0, 1.0]);
    var n := |ratings|;
    assert TopTwoMass(t) == 1.0 && InterestScore(t) == 5.0;
    MeanConstant(ratings, TopTwoMass, 1.0);
    MeanConstant(ratings, InterestScore, 5.0);
    assert IsPromoter(t) && !IsDetractor(t) && IsSuperfan(t) && IsEnthusiast(t);
    CountIfAll(ratings, IsPromoter);
    CountIfNone(ratings, IsDetractor);
    CountIfAll(ratings, IsSuperfan);
    CountIfAll(ratings, IsEnthusiast);
    NpsOfBounds(n, 0, n);
    var seg := Segment(ratings);
    assert seg.superfansPct == 100.0 && seg.enthusiastsPct == 100.0;
  }

  // ---------------------------------------------------------------------
  // Feedback for the critic

  /** `responses[:n] if len(responses) >= n else responses` */
  function Samples(responses: seq<PersonaResponse>, numSamples: int): (s: seq<PersonaResponse>)
    ensures 0 <= numSamples ==> s == responses[..Min(numSamples, |responses|)]
    ensures numSamples < 0 ==> s == responses[..Max(|responses| + numSamples, 0)]
  {
    if |responses| >= numSamples then Prefix(responses, numSamples) else responses
  }

  /** The header line of sample `i`. */
  function FeedbackHeader(i: nat, r: PersonaResponse): string {
    NatToString(i) + ". " + r.personaName + ":"
  }

  /** The lines under the header of a sample. */
  function FeedbackBody(r: PersonaResponse): string {
    "\n   - Interest: " + r.interestResponse
      + "\n   - Disappointment: " + r.disappointmentResponse
      + "\n   - Recommendation: " + r.recommendationResponse
      + "\n   - Main Benefit: " + r.mainBenefit
      + "\n   - Concerns: " + Join(r.concerns, ", ") + "\n"
  }

  /** One sample's text, stripped of surrounding whitespace. */
  function FeedbackEntry(i: nat, r: PersonaResponse): string {
    Strip(['\n'] + FeedbackHeader(i, r) + FeedbackBody(r), Whitespace)
  }

  function FeedbackEntries(samples: seq<PersonaResponse>): seq<string> {
    seq(|samples|, k requires 0 <= k < |samples| => FeedbackEntry(k + 1, samples[k]))
  }

  /** The text get_sample_feedback builds: the entries joined by blank lines. */
  function SampleFeedback(responses: seq<PersonaResponse>, numSamples: int): string {
    Join(FeedbackEntries(Samples(responses, numSamples)), "\n\n")
  }

  /** `get_sample_feedback`: numbered entries for the first samples, joined
      by blank lines. */
  method GetSampleFeedback(responses: seq<PersonaResponse>, numSamples: int) returns (text: string)
    ensures text == SampleFeedback(responses, numSamples)
  {
    var samples := Samples(responses, numSamples);
    var parts: seq<string> := [];
    var k := 0;
    while k < |samples|
      invariant 0 <= k <= |samples|
      invariant parts == FeedbackEntries(samples[..k])
    {
      parts := parts + [FeedbackEntry(k + 1, samples[k])];
      k := k + 1;
    }
    assert samples[..k] == samples;
    text := Join(parts, "\n\n");
  }

  /** Each entry starts with its 1-based number and the persona's name. */
  lemma FeedbackEntryHeader(i: nat, r: PersonaResponse)
    ensures StartsWith(FeedbackEntry(i, r), FeedbackHeader(i, r))
  {
    var head := FeedbackHeader(i, r);
    assert head[0] == NatToString(i)[0];
    DigitNotWhitespace(head[0]);
    StripKeepsHead('\n', head, FeedbackBody(r), Whitespace);
  }

  /** At most `numSamples` entries (for a non-negative count), the k-th built
      from the k-th response and numbered k + 1. */
  lemma FeedbackEntriesSpec(responses: seq<PersonaResponse>, numSamples: nat)
    ensures var entries := FeedbackEntries(Samples(responses, numSamples));
      && |entries| == Min(numSamples, |responses|)
      && forall k | 0 <= k < |entries| ::
           entries[k] == FeedbackEntry(k + 1, responses[k])
           && StartsWith(entries[k], FeedbackHeader(k + 1, responses[k]))
  {
    var samples := Samples(responses, numSamples);
    var entries := FeedbackEntries(samples);
    forall k | 0 <= k < |entries|
      ensures entries[k] == FeedbackEntry(k + 1, responses[k])
      ensures StartsWith(entries[k], FeedbackHeader(k + 1, responses[k]))
    {
      assert samples[k] == responses[k];
      assert entries[k] == FeedbackEntry(k + 1, samples[k]);
      FeedbackEntryHeader(k + 1, responses[k]);
    }
  }
}

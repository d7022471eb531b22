// Advice.evaluate: seven gates in order, and the price arithmetic behind the last.

module AdviceEvaluation {
  import opened Messaging
  import opened MatchLifecycle
  import CouponDraft

  datatype Decision = RECOMMENDED | REJECTED | ABSTAINED

  datatype Reason =
    | NO_PRODUCTION_DATA_PROVIDER
    | INSUFFICIENT_VERIFIED_DATA
    | RISK_POLICY_REJECTED
    | NO_APPROVED_MODEL
    | NO_VALID_ODDS
    | SUSPENDED_MARKET
    | STALE_ODDS
    | UNCERTAINTY_TOO_HIGH
    | EDGE_BELOW_THRESHOLD
    | EXPECTED_VALUE_BELOW_THRESHOLD

  datatype Prediction = Prediction(
    rawModelProbability: real,
    calibratedProbability: real,
    marketImpliedProbability: real,
    noVigMarketProbability: real,
    probabilityLowerBound: real,
    probabilityUpperBound: real,
    modelConfidence: real,
    dataQualityScore: real)
  {
    // What the constructor of PredictionValue lets through.
    predicate Valid() {
      && 0.0 <= rawModelProbability <= 1.0 && 0.0 <= calibratedProbability <= 1.0
      && 0.0 <= marketImpliedProbability <= 1.0 && 0.0 <= noVigMarketProbability <= 1.0
      && 0.0 <= modelConfidence <= 1.0 && 0.0 <= dataQualityScore <= 1.0
      && 0.0 <= probabilityLowerBound <= probabilityUpperBound <= 1.0
    }
  }

  type PredictionValue = p: Prediction | p.Valid() witness Prediction(0.0, 0.0, 0.0, 0.0, 0.0, 0.0, 0.0, 0.0)

  datatype Quote = Quote(id: string, decimalOdds: real, isSuspended: bool, stale: bool)

  // The constructor of OddsQuote refuses odds of one or less.
  type OddsQuote = q: Quote | q.decimalOdds > 1.0 witness Quote("", 2.0, false, false)

  datatype MatchRef = MatchRef(id: string, status: MatchStatus)

  datatype Params = Params(
    matchRef: Option<MatchRef>,
    prediction: Option<PredictionValue>,
    quote: Option<OddsQuote>,
    hasProvider: bool,
    hasModel: bool)

  datatype Advice = Advice(
    matchId: string,
    decision: Decision,
    rejectionReason: Option<Reason>,
    expectedValue: Option<real>,
    edge: Option<real>,
    calibratedProbability: Option<real>,
    modelVersion: Option<string>,
    oddsQuoteId: Option<string>)

  function Bare(matchId: string, decision: Decision, reason: Reason, modelVersion: Option<string>,
                quoteId: Option<string>): Advice {
    Advice(matchId, decision, Some(reason), None, None, None, modelVersion, quoteId)
  }

  // prediction.rawModelProbability ? 'model_v1' : 'unknown'
  function ModelOf(prediction: PredictionValue): string {
    if prediction.rawModelProbability != 0.0 then "model_v1" else "unknown"
  }

  function Evaluate(p: Params): Advice {
    if !p.hasProvider then
      Bare(if p.matchRef.Some? && p.matchRef.value.id != "" then p.matchRef.value.id else "unknown",
           ABSTAINED, NO_PRODUCTION_DATA_PROVIDER, None, None)
    else if p.matchRef.None? then Bare("unknown", ABSTAINED, INSUFFICIENT_VERIFIED_DATA, None, None)
    else if p.matchRef.value.status != SCHEDULED then
      Bare(p.matchRef.value.id, REJECTED, RISK_POLICY_REJECTED, None, None)
    else if !p.hasModel || p.prediction.None? then Bare(p.matchRef.value.id, ABSTAINED, NO_APPROVED_MODEL, None, None)
    else if p.quote.None? then
      Bare(p.matchRef.value.id, ABSTAINED, NO_VALID_ODDS, Some(ModelOf(p.prediction.value)), None)
    else Priced(p.matchRef.value.id, p.prediction.value, p.quote.value)
  }

  // From the suspension test on.
  function Priced(matchId: string, prediction: PredictionValue, quote: OddsQuote): Advice {
    var marketImplied := 1.0 / quote.decimalOdds;
    var edge := prediction.calibratedProbability - marketImplied;
    var ev := prediction.calibratedProbability * quote.decimalOdds - 1.0;
    var full := (decision: Decision, reason: Option<Reason>) =>
      Advice(matchId, decision, reason, Some(ev), Some(edge), Some(prediction.calibratedProbability),
             Some("model_v1"), Some(quote.id));
    if quote.isSuspended then Bare(matchId, ABSTAINED, SUSPENDED_MARKET, Some(ModelOf(prediction)), Some(quote.id))
    else if quote.stale then Bare(matchId, ABSTAINED, STALE_ODDS, Some(ModelOf(prediction)), Some(quote.id))
    else if prediction.dataQualityScore < 0.7 then
      Bare(matchId, ABSTAINED, INSUFFICIENT_VERIFIED_DATA, Some("model_v1"), Some(quote.id))
    else if prediction.probabilityUpperBound - prediction.probabilityLowerBound > 0.15 then
      Bare(matchId, ABSTAINED, UNCERTAINTY_TOO_HIGH, Some("model_v1"), Some(quote.id))
    else if edge < 0.03 then full(REJECTED, Some(EDGE_BELOW_THRESHOLD))
    else if ev < 0.05 then full(REJECTED, Some(EXPECTED_VALUE_BELOW_THRESHOLD))
    else full(RECOMMENDED, None)
  }

  // ---------------------------------------------------------------- the gates, in order

  function Edge(prediction: PredictionValue, quote: OddsQuote): real {
    prediction.calibratedProbability - 1.0 / quote.decimalOdds
  }

  function Ev(prediction: PredictionValue, quote: OddsQuote): real {
    prediction.calibratedProbability * quote.decimalOdds - 1.0
  }

  // The policy read as eleven independent tests, each with its verdict.
  datatype Gate =
    | PROVIDER | MATCH_KNOWN | MATCH_OPEN | MODEL | QUOTE | MARKET_OPEN | QUOTE_FRESH
    | DATA_QUALITY | UNCERTAINTY | EDGE | VALUE

  const GATES :=
    [PROVIDER, MATCH_KNOWN, MATCH_OPEN, MODEL, QUOTE, MARKET_OPEN, QUOTE_FRESH, DATA_QUALITY, UNCERTAINTY, EDGE, VALUE]

  predicate Fails(p: Params, gate: Gate) {
    match gate
    case PROVIDER => !p.hasProvider
    case MATCH_KNOWN => p.matchRef.None?
    case MATCH_OPEN => p.matchRef.Some? && p.matchRef.value.status != SCHEDULED
    case MODEL => !p.hasModel || p.prediction.None?
    case QUOTE => p.quote.None?
    case MARKET_OPEN => p.quote.Some? && p.quote.value.isSuspended
    case QUOTE_FRESH => p.quote.Some? && p.quote.value.stale
    case DATA_QUALITY => p.prediction.Some? && p.prediction.value.dataQualityScore < 0.7
    case UNCERTAINTY =>
      p.prediction.Some? && p.prediction.value.probabilityUpperBound - p.prediction.value.probabilityLowerBound > 0.15
    case EDGE => p.prediction.Some? && p.quote.Some? && Edge(p.prediction.value, p.quote.value) < 0.03
    case VALUE => p.prediction.Some? && p.quote.Some? && Ev(p.prediction.value, p.quote.value) < 0.05
  }

  function VerdictOf(gate: Gate): (Decision, Reason) {
    match gate
    case PROVIDER => (ABSTAINED, NO_PRODUCTION_DATA_PROVIDER)
    case MATCH_KNOWN => (ABSTAINED, INSUFFICIENT_VERIFIED_DATA)
    case MATCH_OPEN => (REJECTED, RISK_POLICY_REJECTED)
    case MODEL => (ABSTAINED, NO_APPROVED_MODEL)
    case QUOTE => (ABSTAINED, NO_VALID_ODDS)
    case MARKET_OPEN => (ABSTAINED, SUSPENDED_MARKET)
    case QUOTE_FRESH => (ABSTAINED, STALE_ODDS)
    case DATA_QUALITY => (ABSTAINED, INSUFFICIENT_VERIFIED_DATA)
    case UNCERTAINTY => (ABSTAINED, UNCERTAINTY_TOO_HIGH)
    case EDGE => (REJECTED, EDGE_BELOW_THRESHOLD)
    case VALUE => (REJECTED, EXPECTED_VALUE_BELOW_THRESHOLD)
  }

  // The first gates[k..] that fails, if any.
  function FirstFailing(p: Params, k: nat): Option<Gate>
    requires k <= |GATES|
    decreases |GATES| - k
  {
    if k == |GATES| then None else if Fails(p, GATES[k]) then Some(GATES[k]) else FirstFailing(p, k + 1)
  }

  // The first five gates let the evaluation through to the price.
  predicate HasInputs(p: Params) {
    && p.hasProvider && p.matchRef.Some? && p.matchRef.value.status == SCHEDULED
    && p.hasModel && p.prediction.Some? && p.quote.Some?
  }

  // The first failing gate decides; advice is RECOMMENDED if and only if none fails.
  lemma FirstFailingGateDecides(p: Params)
    ensures match FirstFailing(p, 0)
      case None => Evaluate(p).decision == RECOMMENDED && Evaluate(p).rejectionReason == None
      case Some(gate) =>
        (Evaluate(p).decision, Evaluate(p).rejectionReason) == (VerdictOf(gate).0, Some(VerdictOf(gate).1))
  {
    if HasInputs(p) {
      LateGates(p);
      assert FirstFailing(p, 0) == FirstFailing(p, 2) == FirstFailing(p, 4) == FirstFailing(p, 5);
    } else {
      EarlyGates(p);
    }
  }

  lemma EarlyGates(p: Params)
    requires !HasInputs(p)
    ensures FirstFailing(p, 0).Some?
    ensures (Evaluate(p).decision, Evaluate(p).rejectionReason) ==
      (VerdictOf(FirstFailing(p, 0).value).0, Some(VerdictOf(FirstFailing(p, 0).value).1))
  {
    assert FirstFailing(p, 0) == if Fails(p, PROVIDER) then Some(PROVIDER) else FirstFailing(p, 1);
    assert FirstFailing(p, 1) == if Fails(p, MATCH_KNOWN) then Some(MATCH_KNOWN) else FirstFailing(p, 2);
    assert FirstFailing(p, 2) == if Fails(p, MATCH_OPEN) then Some(MATCH_OPEN) else FirstFailing(p, 3);
    assert FirstFailing(p, 3) == if Fails(p, MODEL) then Some(MODEL) else FirstFailing(p, 4);
    assert FirstFailing(p, 4) == if Fails(p, QUOTE) then Some(QUOTE) else FirstFailing(p, 5);
  }

  lemma LateGates(p: Params)
    requires HasInputs(p)
    ensures match FirstFailing(p, 5)
      case None => Evaluate(p).decision == RECOMMENDED && Evaluate(p).rejectionReason == None
      case Some(gate) =>
        (Evaluate(p).decision, Evaluate(p).rejectionReason) == (VerdictOf(gate).0, Some(VerdictOf(gate).1))
  {
    assert FirstFailing(p, 5) == if Fails(p, MARKET_OPEN) then Some(MARKET_OPEN) else FirstFailing(p, 6);
    assert FirstFailing(p, 6) == if Fails(p, QUOTE_FRESH) then Some(QUOTE_FRESH) else FirstFailing(p, 7);
    assert FirstFailing(p, 7) == if Fails(p, DATA_QUALITY) then Some(DATA_QUALITY) else FirstFailing(p, 8);
    assert FirstFailing(p, 8) == if Fails(p, UNCERTAINTY) then Some(UNCERTAINTY) else FirstFailing(p, 9);
    assert FirstFailing(p, 9) == if Fails(p, EDGE) then Some(EDGE) else FirstFailing(p, 10);
    assert FirstFailing(p, 10) == if Fails(p, VALUE) then Some(VALUE) else None;
  }

  // ---------------------------------------------------------------- the price gate

  // Gates one to six have passed.
  predicate Eligible(p: Params) {
    && p.hasProvider && p.matchRef.Some? && p.matchRef.value.status == SCHEDULED
    && p.hasModel && p.prediction.Some? && p.quote.Some?
    && !p.quote.value.isSuspended && !p.quote.value.stale
    && p.prediction.value.dataQualityScore >= 0.7
    && p.prediction.value.probabilityUpperBound - p.prediction.value.probabilityLowerBound <= 0.15
  }

  lemma PriceDecides(p: Params)
    requires Eligible(p)
    ensures var edge, ev := Edge(p.prediction.value, p.quote.value), Ev(p.prediction.value, p.quote.value);
      && (Evaluate(p).decision == RECOMMENDED <==> edge >= 0.03 && ev >= 0.05)
      && (Evaluate(p).rejectionReason == Some(EDGE_BELOW_THRESHOLD) <==> edge < 0.03)
      && (Evaluate(p).rejectionReason == Some(EXPECTED_VALUE_BELOW_THRESHOLD) <==> edge >= 0.03 && ev < 0.05)
  {
  }

  lemma Scale(a: real, b: real, odds: real)
    requires odds > 0.0
    ensures a * odds >= b * odds <==> a >= b
  {
    assert (a - b) * odds == a * odds - b * odds;
    assert a > b ==> (a - b) * odds > 0.0;
    assert a < b ==> (b - a) * odds > 0.0;
  }

  lemma Inverse(odds: real)
    requires odds > 0.0
    ensures (1.0 / odds) * odds == 1.0 && (1.05 / odds) * odds == 1.05
  {
  }

  // EV is the edge paid out at the odds.
  lemma EvIsOddsTimesEdge(prediction: PredictionValue, quote: OddsQuote)
    ensures Ev(prediction, quote) == quote.decimalOdds * Edge(prediction, quote)
  {
    Inverse(quote.decimalOdds);
    var p, i, o := prediction.calibratedProbability, 1.0 / quote.decimalOdds, quote.decimalOdds;
    assert o * (p - i) == o * p - i * o;
  }

  // The threshold theorem: p must reach both 1/odds + 0.03 and 1.05/odds.
  lemma RecommendedExactly(p: Params)
    requires Eligible(p)
    ensures var prob, odds := p.prediction.value.calibratedProbability, p.quote.value.decimalOdds;
      && (Evaluate(p).decision == RECOMMENDED <==> prob >= 1.0 / odds + 0.03 && prob >= 1.05 / odds)
      && (Evaluate(p).rejectionReason == Some(EDGE_BELOW_THRESHOLD) <==> prob < 1.0 / odds + 0.03)
      && (Evaluate(p).rejectionReason == Some(EXPECTED_VALUE_BELOW_THRESHOLD)
          <==> 1.0 / odds + 0.03 <= prob < 1.05 / odds)
  {
    hide Evaluate;
    PriceDecides(p);
    var prob, odds := p.prediction.value.calibratedProbability, p.quote.value.decimalOdds;
    Inverse(odds);
    Scale(prob, 1.05 / odds, odds);
  }

  // The figures of an advice: those of its prediction and quote once gates one to six
  // have passed, whatever the verdict, and none before.
  lemma FiguresExactly(p: Params)
    ensures var a := Evaluate(p);
      if Eligible(p) then
        var prob, odds := p.prediction.value.calibratedProbability, p.quote.value.decimalOdds;
        && a.calibratedProbability == Some(prob)
        && a.expectedValue == Some(prob * odds - 1.0)
        && a.edge.Some? && a.edge.value * odds == a.expectedValue.value
      else a.calibratedProbability == None && a.expectedValue == None && a.edge == None
  {
    if Eligible(p) {
      EvIsOddsTimesEdge(p.prediction.value, p.quote.value);
    }
  }

  // What the advice refers to: the match if there is one, and the quote and the model
  // once a prediction and a quote were there to look at.
  lemma ReferencesExactly(p: Params)
    ensures var a := Evaluate(p);
      && a.matchId == (if p.matchRef.Some? && (p.hasProvider || p.matchRef.value.id != "")
                       then p.matchRef.value.id else "unknown")
      && a.oddsQuoteId == (if HasInputs(p) then Some(p.quote.value.id) else None)
      && (Eligible(p) ==> a.modelVersion == Some("model_v1"))
      && (a.modelVersion.Some? <==>
            p.hasProvider && p.matchRef.Some? && p.matchRef.value.status == SCHEDULED
            && p.hasModel && p.prediction.Some?)
  {
  }

  // Each reason is given exactly in its own circumstances.
  lemma EachReasonExactly(p: Params)
    ensures var reason := Evaluate(p).rejectionReason;
      && (reason == Some(NO_PRODUCTION_DATA_PROVIDER) <==> !p.hasProvider)
      && (reason == Some(RISK_POLICY_REJECTED) <==>
            p.hasProvider && p.matchRef.Some? && p.matchRef.value.status != SCHEDULED)
      && (reason == Some(NO_APPROVED_MODEL) <==>
            p.hasProvider && p.matchRef.Some? && p.matchRef.value.status == SCHEDULED
            && (!p.hasModel || p.prediction.None?))
      && (reason == Some(NO_VALID_ODDS) <==>
            p.hasProvider && p.matchRef.Some? && p.matchRef.value.status == SCHEDULED
            && p.hasModel && p.prediction.Some? && p.quote.None?)
      && (reason == Some(SUSPENDED_MARKET) <==> HasInputs(p) && p.quote.value.isSuspended)
      && (reason == Some(STALE_ODDS) <==> HasInputs(p) && !p.quote.value.isSuspended && p.quote.value.stale)
      && (reason == Some(INSUFFICIENT_VERIFIED_DATA) <==>
            || (p.hasProvider && p.matchRef.None?)
            || (HasInputs(p) && !p.quote.value.isSuspended && !p.quote.value.stale
                && p.prediction.value.dataQualityScore < 0.7))
      && (reason == Some(UNCERTAINTY_TOO_HIGH) <==>
            HasInputs(p) && !p.quote.value.isSuspended && !p.quote.value.stale
            && p.prediction.value.dataQualityScore >= 0.7
            && p.prediction.value.probabilityUpperBound - p.prediction.value.probabilityLowerBound > 0.15)
      && (reason == None <==> Evaluate(p).decision == RECOMMENDED)
      && (Evaluate(p).decision == REJECTED <==>
            reason in {Some(RISK_POLICY_REJECTED), Some(EDGE_BELOW_THRESHOLD), Some(EXPECTED_VALUE_BELOW_THRESHOLD)})
  {
  }

  // Which of the two thresholds binds: they meet at odds of five thirds.
  lemma ThresholdsCross(odds: real)
    requires odds > 1.0
    ensures 1.0 / odds + 0.03 < 1.05 / odds <==> odds < 5.0 / 3.0
    ensures 1.0 / odds + 0.03 <= 1.0 <==> odds >= 100.0 / 97.0
    ensures 1.05 / odds <= 1.0 <==> odds >= 1.05
  {
    Inverse(odds);
    Scale(1.0 / odds + 0.03, 1.05 / odds, odds);
    Scale(1.0, 1.0 / odds + 0.03, odds);
    Scale(1.0, 1.05 / odds, odds);
    assert (1.0 / odds + 0.03) * odds == 1.0 + 0.03 * odds;
  }

  // Advice is only recommended, or rejected for its EV, once gates one to six have passed.
  lemma PricedIsEligible(p: Params)
    ensures Evaluate(p).decision == RECOMMENDED ==> Eligible(p)
    ensures Evaluate(p).rejectionReason == Some(EXPECTED_VALUE_BELOW_THRESHOLD) ==> Eligible(p)
  {
  }

  // An evaluation at these odds that passes gates one to six.
  function AtPrice(prob: real, odds: real): Params
    requires 0.0 <= prob <= 1.0 && odds > 1.0
  {
    Params(Some(MatchRef("m", SCHEDULED)), Some(Prediction(prob, prob, prob, prob, prob, prob, 1.0, 1.0)),
           Some(Quote("q", odds, false, false)), true, true)
  }

  // EXPECTED_VALUE_BELOW_THRESHOLD is the outcome of some evaluation exactly at odds
  // from 100/97 up to but excluding 5/3.
  lemma EvReasonReachableExactly(odds: real)
    requires odds > 1.0
    ensures (exists p: Params :: p.quote.Some? && p.quote.value.decimalOdds == odds
              && Evaluate(p).rejectionReason == Some(EXPECTED_VALUE_BELOW_THRESHOLD))
      <==> 100.0 / 97.0 <= odds < 5.0 / 3.0
  {
    hide Evaluate;
    ThresholdsCross(odds);
    forall p: Params | p.quote.Some? && p.quote.value.decimalOdds == odds
        && Evaluate(p).rejectionReason == Some(EXPECTED_VALUE_BELOW_THRESHOLD)
      ensures 100.0 / 97.0 <= odds < 5.0 / 3.0
    {
      PricedIsEligible(p);
      RecommendedExactly(p);
    }
    if 100.0 / 97.0 <= odds < 5.0 / 3.0 {
      var p := AtPrice(1.0 / odds + 0.03, odds);
      assert Eligible(p);
      RecommendedExactly(p);
      assert Evaluate(p).rejectionReason == Some(EXPECTED_VALUE_BELOW_THRESHOLD);
    }
  }

  // Some evaluation ends in a recommendation exactly at odds of at least 1.05.
  lemma RecommendableExactly(odds: real)
    requires odds > 1.0
    ensures (exists p: Params :: p.quote.Some? && p.quote.value.decimalOdds == odds
              && Evaluate(p).decision == RECOMMENDED)
      <==> odds >= 1.05
  {
    hide Evaluate;
    ThresholdsCross(odds);
    forall p: Params | p.quote.Some? && p.quote.value.decimalOdds == odds && Evaluate(p).decision == RECOMMENDED
      ensures odds >= 1.05
    {
      PricedIsEligible(p);
      RecommendedExactly(p);
    }
    if odds >= 1.05 {
      var p := AtPrice(1.0, odds);
      assert Eligible(p);
      RecommendedExactly(p);
      assert Evaluate(p).decision == RECOMMENDED;
    }
  }

  // A better price or a higher probability never withdraws a recommendation.
  lemma Monotone(p: Params, q: Params)
    requires Eligible(p) && Eligible(q) && Evaluate(p).decision == RECOMMENDED
    requires q.prediction.value.calibratedProbability >= p.prediction.value.calibratedProbability
    requires q.quote.value.decimalOdds >= p.quote.value.decimalOdds
    ensures Evaluate(q).decision == RECOMMENDED
  {
    hide Evaluate;
    RecommendedExactly(p);
    RecommendedExactly(q);
    Cheaper(1.0, p.quote.value.decimalOdds, q.quote.value.decimalOdds);
    Cheaper(1.05, p.quote.value.decimalOdds, q.quote.value.decimalOdds);
  }

  lemma Cheaper(a: real, low: real, high: real)
    requires a >= 0.0 && 0.0 < low <= high
    ensures a / high <= a / low
  {
    var x, y := a / low, a / high;
    assert x * low == a && y * high == a && x >= 0.0;
    assert x * (high - low) >= 0.0;
    Scale(x, y, high);
  }

  // ---------------------------------------------------------------- downstream

  // What a coupon leg may rely on when it is taken from RECOMMENDED advice.
  lemma RecommendedLeg(p: Params, leg: CouponDraft.Leg)
    requires Evaluate(p).decision == RECOMMENDED
    requires leg.decimalOdds == p.quote.value.decimalOdds
    requires Evaluate(p).calibratedProbability == Some(leg.calibratedProbability)
    requires Evaluate(p).expectedValue == Some(leg.expectedValue)
    ensures CouponDraft.FromRecommended(leg) && leg.decimalOdds >= 1.05
  {
    hide Evaluate;
    PricedIsEligible(p);
    PriceDecides(p);
    FiguresExactly(p);
    CouponDraft.LegOdds(leg.calibratedProbability, leg.decimalOdds);
  }

  // No request sequence brings a match that went LIVE or was cancelled back to where
  // it could be recommended, whatever the model and the market say.
  lemma {:induction false} NotRecommendedAgain(m: Match, requests: seq<Request>, p: Params)
    requires m.status in {LIVE, CANCELLED} && Run(m, requests).Ok?
    requires p.matchRef == Some(MatchRef(m.id, Run(m, requests).value.status))
    ensures Evaluate(p).decision != RECOMMENDED
  {
    hide Evaluate;
    NeverScheduledAgain(m, requests);
    PricedIsEligible(p);
  }
}

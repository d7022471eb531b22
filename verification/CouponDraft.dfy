// CouponDraft.create: the risk rules of a coupon, and what its odds and EV mean.

module CouponDraft {
  import opened Messaging

  datatype Leg = Leg(
    adviceId: string,
    matchId: string,
    sport: string,
    competition: string,
    market: string,
    selection: string,
    decimalOdds: real,
    calibratedProbability: real,
    expectedValue: real)

  datatype Reason =
    | COUPON_EMPTY_LEGS
    | EXCEEDS_MAXIMUM_LEGS
    | CORRELATED_LEGS_SAME_MATCH
    | EXCESSIVE_SPORT_CONCENTRATION
    | EXCESSIVE_COMPETITION_CONCENTRATION

  datatype Decision = APPROVED | REJECTED

  datatype Draft = Draft(
    legs: seq<Leg>,
    combinedDecimalOdds: real,
    expectedValue: real,
    riskDecision: Decision,
    rejectionReasons: Option<seq<Reason>>)

  // ---------------------------------------------------------------- folds over legs

  // Array.prototype.reduce
  function Reduce<A>(f: (A, Leg) -> A, init: A, legs: seq<Leg>): A {
    if legs == [] then init else f(Reduce(f, init, legs[..|legs| - 1]), legs[|legs| - 1])
  }

  ghost predicate Commutes<A(!new)>(f: (A, Leg) -> A) {
    forall a: A, x: Leg, y: Leg :: f(f(a, x), y) == f(f(a, y), x)
  }

  function Without(legs: seq<Leg>, k: nat): seq<Leg>
    requires k < |legs|
  {
    legs[..k] + legs[k + 1..]
  }

  // An order-free fold may take any leg last.
  lemma {:induction false} PullOut<A(!new)>(f: (A, Leg) -> A, init: A, legs: seq<Leg>, k: nat)
    requires Commutes(f) && k < |legs|
    ensures Reduce(f, init, legs) == f(Reduce(f, init, Without(legs, k)), legs[k])
  {
    var n := |legs| - 1;
    if k == n {
      assert Without(legs, k) == legs[..n];
    } else {
      PullOut(f, init, legs[..n], k);
      assert Without(legs, k)[..n - 1] == Without(legs[..n], k) && Without(legs, k)[n - 1] == legs[n];
    }
  }

  lemma {:induction false} OrderFree<A(!new)>(f: (A, Leg) -> A, init: A, a: seq<Leg>, b: seq<Leg>)
    requires Commutes(f) && multiset(a) == multiset(b)
    ensures Reduce(f, init, a) == Reduce(f, init, b)
    decreases |a|
  {
    assert |a| == |multiset(a)| == |multiset(b)| == |b|;
    if a == [] {
    } else {
      var n := |a| - 1;
      assert a == a[..n] + [a[n]];
      assert a[n] in multiset(b);
      var k :| 0 <= k < |b| && b[k] == a[n];
      assert b == b[..k] + [b[k]] + b[k + 1..];
      assert multiset(a) == multiset(a[..n]) + multiset{a[n]};
      assert multiset(b) == multiset(Without(b, k)) + multiset{b[k]};
      assert multiset(a[..n]) == multiset(a) - multiset{a[n]} == multiset(Without(b, k));
      OrderFree(f, init, a[..n], Without(b, k));
      PullOut(f, init, b, k);
    }
  }

  // ---------------------------------------------------------------- counting

  datatype Field = MatchId | Sport | Competition

  function Get(field: Field, leg: Leg): string {
    match field
    case MatchId => leg.matchId
    case Sport => leg.sport
    case Competition => leg.competition
  }

  function Tally(field: Field, value: string): (nat, Leg) -> nat {
    (n: nat, leg: Leg) => if Get(field, leg) == value then n + 1 else n
  }

  // How many legs have this value in the field.
  function Count(field: Field, value: string, legs: seq<Leg>): nat {
    Reduce(Tally(field, value), 0, legs)
  }

  // Some value occurs more often than `limit` times.
  ghost predicate Concentrated(field: Field, legs: seq<Leg>, limit: nat) {
    exists leg :: leg in legs && Count(field, Get(field, leg), legs) > limit
  }

  lemma CountOrderFree(field: Field, value: string, a: seq<Leg>, b: seq<Leg>)
    requires multiset(a) == multiset(b)
    ensures Count(field, value, a) == Count(field, value, b)
  {
    assert Commutes(Tally(field, value));
    OrderFree(Tally(field, value), 0, a, b);
  }

  lemma {:induction false} CountPositive(field: Field, value: string, legs: seq<Leg>)
    ensures Count(field, value, legs) > 0 <==> exists leg :: leg in legs && Get(field, leg) == value
  {
    if legs == [] {
    } else {
      CountPositive(field, value, legs[..|legs| - 1]);
      assert legs == legs[..|legs| - 1] + [legs[|legs| - 1]];
    }
  }

  ghost predicate DistinctMatches(legs: seq<Leg>) {
    forall i, j :: 0 <= i < j < |legs| ==> legs[i].matchId != legs[j].matchId
  }

  lemma CountWithout(field: Field, legs: seq<Leg>, k: nat)
    requires k < |legs|
    ensures Count(field, Get(field, legs[k]), legs) == Count(field, Get(field, legs[k]), Without(legs, k)) + 1
  {
    assert Commutes(Tally(field, Get(field, legs[k])));
    PullOut(Tally(field, Get(field, legs[k])), 0, legs, k);
  }

  lemma RepeatedAt(legs: seq<Leg>, k: nat)
    requires k < |legs|
    ensures Count(MatchId, legs[k].matchId, legs) > 1 <==>
      exists i :: 0 <= i < |legs| && i != k && legs[i].matchId == legs[k].matchId
  {
    hide Count;
    var value, rest := legs[k].matchId, Without(legs, k);
    CountWithout(MatchId, legs, k);
    CountPositive(MatchId, value, rest);
    if leg :| leg in rest && Get(MatchId, leg) == value {
      var i :| 0 <= i < |rest| && rest[i] == leg;
      assert legs[if i < k then i else i + 1] == leg;
    }
    if i :| 0 <= i < |legs| && i != k && legs[i].matchId == value {
      var at := if i < k then i else i - 1;
      assert rest[at] == legs[i] && rest[at] in rest && Get(MatchId, rest[at]) == value;
    }
  }

  // "More than once" means two legs of one match.
  lemma RepeatedMatch(legs: seq<Leg>)
    ensures Concentrated(MatchId, legs, 1) <==> !DistinctMatches(legs)
  {
    hide Count;
    if leg :| leg in legs && Count(MatchId, Get(MatchId, leg), legs) > 1 {
      var k :| 0 <= k < |legs| && legs[k] == leg;
      RepeatedAt(legs, k);
    }
    if i, j :| 0 <= i < j < |legs| && legs[i].matchId == legs[j].matchId {
      RepeatedAt(legs, i);
      assert legs[i] in legs && Count(MatchId, Get(MatchId, legs[i]), legs) > 1;
    }
  }

  // ---------------------------------------------------------------- odds and EV

  function TimesOdds(acc: real, leg: Leg): real { acc * leg.decimalOdds }
  function PlusEv(acc: real, leg: Leg): real { acc + leg.expectedValue }
  function TimesReturn(acc: real, leg: Leg): real { acc * (1.0 + leg.expectedValue) }

  function CombinedOdds(legs: seq<Leg>): real { Reduce(TimesOdds, 1.0, legs) }
  function SumEv(legs: seq<Leg>): real { Reduce(PlusEv, 0.0, legs) }

  // The expected value of backing all legs in one coupon, were they independent.
  function JointEv(legs: seq<Leg>): real { Reduce(TimesReturn, 1.0, legs) - 1.0 }

  // legs.length || 1
  function AverageEv(legs: seq<Leg>): real {
    SumEv(legs) / (if legs == [] then 1.0 else |legs| as real)
  }

  // ---------------------------------------------------------------- the rules

  ghost function When(condition: bool, reason: Reason): seq<Reason> { if condition then [reason] else [] }

  ghost function Reasons(legs: seq<Leg>): seq<Reason> {
    When(legs == [], COUPON_EMPTY_LEGS)
    + When(|legs| > 5, EXCEEDS_MAXIMUM_LEGS)
    + When(Concentrated(MatchId, legs, 1), CORRELATED_LEGS_SAME_MATCH)
    + When(Concentrated(Sport, legs, 3), EXCESSIVE_SPORT_CONCENTRATION)
    + When(Concentrated(Competition, legs, 3), EXCESSIVE_COMPETITION_CONCENTRATION)
  }

  // The verdict that `create` reaches for these legs.
  ghost predicate Verdict(legs: seq<Leg>, draft: Draft) {
    && draft.legs == legs
    && draft.combinedDecimalOdds == CombinedOdds(legs)
    && draft.expectedValue == AverageEv(legs)
    && draft.riskDecision == (if Reasons(legs) == [] then APPROVED else REJECTED)
    && draft.rejectionReasons == (if Reasons(legs) == [] then None else Some(Reasons(legs)))
  }

  function MatchIds(legs: seq<Leg>): set<string> { set leg | leg in legs :: leg.matchId }

  lemma MatchIdsAppend(legs: seq<Leg>, leg: Leg)
    ensures MatchIds(legs + [leg]) == MatchIds(legs) + {leg.matchId}
    ensures DistinctMatches(legs + [leg]) <==> DistinctMatches(legs) && leg.matchId !in MatchIds(legs)
  {
    var all := legs + [leg];
    assert forall i :: 0 <= i < |legs| ==> all[i] == legs[i] && legs[i] in legs;
    assert all[|legs|] == leg;
    if DistinctMatches(all) {
      forall other | other in legs ensures other.matchId != leg.matchId {
        var i :| 0 <= i < |legs| && legs[i] == other;
        assert all[i].matchId != all[|legs|].matchId;
      }
    }
  }

  // new Set(matchIds).size === matchIds.length
  lemma {:induction false} SetSize(legs: seq<Leg>)
    ensures |MatchIds(legs)| <= |legs|
    ensures |MatchIds(legs)| == |legs| <==> DistinctMatches(legs)
  {
    if legs == [] {
    } else {
      var init, last := legs[..|legs| - 1], legs[|legs| - 1];
      assert legs == init + [last];
      SetSize(init);
      MatchIdsAppend(init, last);
    }
  }

  // The places where a value occurs.
  function Positions(field: Field, value: string, legs: seq<Leg>): set<nat> {
    set i: nat | i < |legs| && Get(field, legs[i]) == value
  }

  // Counting is counting places.
  lemma {:induction false} CountIsPositions(field: Field, value: string, legs: seq<Leg>)
    ensures Count(field, value, legs) == |Positions(field, value, legs)|
  {
    hide Positions;
    if legs == [] {
      NoPositions(field, value);
    } else {
      CountIsPositions(field, value, legs[..|legs| - 1]);
      LastPosition(field, value, legs);
    }
  }

  lemma NoPositions(field: Field, value: string)
    ensures Positions(field, value, []) == {}
  {
  }

  lemma LastPosition(field: Field, value: string, legs: seq<Leg>)
    requires legs != []
    ensures var n := |legs| - 1;
      var before := Positions(field, value, legs[..n]);
      && n !in before && |before + {n}| == |before| + 1
      && Positions(field, value, legs) == if Get(field, legs[n]) == value then before + {n} else before
  {
  }

  // sports.reduce((acc, s) => { acc[s] = (acc[s] || 0) + 1; return acc; }, {})
  method CountBy(field: Field, legs: seq<Leg>) returns (counts: map<string, nat>)
    ensures forall value :: value in counts <==> exists leg :: leg in legs && Get(field, leg) == value
    ensures forall value :: value in counts ==> counts[value] == Count(field, value, legs)
    ensures forall value :: value in counts ==> counts[value] == |Positions(field, value, legs)|
  {
    counts := map[];
    for i := 0 to |legs|
      invariant forall value :: value in counts <==> Count(field, value, legs[..i]) > 0
      invariant forall value :: value in counts ==> counts[value] == Count(field, value, legs[..i])
    {
      assert legs[..i + 1][..i] == legs[..i];
      var key := Get(field, legs[i]);
      counts := counts[key := (if key in counts then counts[key] else 0) + 1];
    }
    assert legs[..|legs|] == legs;
    forall value ensures value in counts <==> exists leg :: leg in legs && Get(field, leg) == value {
      CountPositive(field, value, legs);
    }
    forall value ensures Count(field, value, legs) == |Positions(field, value, legs)| {
      CountIsPositions(field, value, legs);
    }
  }

  method CombineOdds(legs: seq<Leg>) returns (combinedOdds: real)
    ensures combinedOdds == CombinedOdds(legs)
  {
    combinedOdds := 1.0;
    for i := 0 to |legs|
      invariant combinedOdds == CombinedOdds(legs[..i])
    {
      assert legs[..i + 1][..i] == legs[..i];
      combinedOdds := combinedOdds * legs[i].decimalOdds;
    }
    assert legs[..|legs|] == legs;
  }

  method AddUpEv(legs: seq<Leg>) returns (sumEv: real)
    ensures sumEv == SumEv(legs)
  {
    sumEv := 0.0;
    for i := 0 to |legs|
      invariant sumEv == SumEv(legs[..i])
    {
      assert legs[..i + 1][..i] == legs[..i];
      sumEv := sumEv + legs[i].expectedValue;
    }
    assert legs[..|legs|] == legs;
  }

  method CheckRules(legs: seq<Leg>) returns (rejectionReasons: seq<Reason>)
    ensures rejectionReasons == Reasons(legs)
  {
    hide Concentrated, Count, DistinctMatches, Positions, MatchIds;
    rejectionReasons := [];
    if |legs| == 0 {
      rejectionReasons := rejectionReasons + [COUPON_EMPTY_LEGS];
    }
    if |legs| > 5 {
      rejectionReasons := rejectionReasons + [EXCEEDS_MAXIMUM_LEGS];
    }
    var uniqueMatchIds := MatchIds(legs);
    SetSize(legs);
    RepeatedMatch(legs);
    if |uniqueMatchIds| != |legs| {
      rejectionReasons := rejectionReasons + [CORRELATED_LEGS_SAME_MATCH];
    }
    assert rejectionReasons == When(legs == [], COUPON_EMPTY_LEGS) + When(|legs| > 5, EXCEEDS_MAXIMUM_LEGS)
      + When(Concentrated(MatchId, legs, 1), CORRELATED_LEGS_SAME_MATCH);
    var sportCounts := CountBy(Sport, legs);
    var compCounts := CountBy(Competition, legs);
    CountsShowConcentration(Sport, legs, sportCounts);
    CountsShowConcentration(Competition, legs, compCounts);
    if exists sport :: sport in sportCounts && sportCounts[sport] > 3 {
      rejectionReasons := rejectionReasons + [EXCESSIVE_SPORT_CONCENTRATION];
    }
    if exists competition :: competition in compCounts && compCounts[competition] > 3 {
      rejectionReasons := rejectionReasons + [EXCESSIVE_COMPETITION_CONCENTRATION];
    }
  }

  method Create(legs: seq<Leg>) returns (draft: Draft)
    ensures Verdict(legs, draft)
  {
    hide Reasons, CombinedOdds, SumEv;
    var rejectionReasons := CheckRules(legs);
    var combinedOdds := CombineOdds(legs);
    var sumEv := AddUpEv(legs);
    var avgEv := sumEv / (if legs == [] then 1.0 else |legs| as real);
    var isRejected := |rejectionReasons| > 0;
    draft := Draft(legs, combinedOdds, avgEv,
                   if isRejected then REJECTED else APPROVED,
                   if isRejected then Some(rejectionReasons) else None);
  }

  lemma CountsShowConcentration(field: Field, legs: seq<Leg>, counts: map<string, nat>)
    requires forall value :: value in counts <==> exists leg :: leg in legs && Get(field, leg) == value
    requires forall value :: value in counts ==> counts[value] == Count(field, value, legs)
    ensures Concentrated(field, legs, 3) <==> exists value :: value in counts && counts[value] > 3
  {
    if value :| value in counts && counts[value] > 3 {
      var leg :| leg in legs && Get(field, leg) == value;
      assert Count(field, Get(field, leg), legs) > 3;
    }
    if Concentrated(field, legs, 3) {
      var leg :| leg in legs && Count(field, Get(field, leg), legs) > 3;
      assert Get(field, leg) in counts;
    }
  }

  // ---------------------------------------------------------------- approval

  // APPROVED means: one to five legs, all of different matches, and no sport or
  // competition more than three times.
  lemma ApprovedExactly(legs: seq<Leg>, draft: Draft)
    requires Verdict(legs, draft)
    ensures draft.riskDecision == APPROVED <==>
      && 1 <= |legs| <= 5
      && DistinctMatches(legs)
      && (forall value :: |Positions(Sport, value, legs)| <= 3 && |Positions(Competition, value, legs)| <= 3)
  {
    hide Count, Positions;
    RepeatedMatch(legs);
    forall value
      ensures Count(Sport, value, legs) == |Positions(Sport, value, legs)|
      ensures Count(Competition, value, legs) == |Positions(Competition, value, legs)|
      ensures Count(Sport, value, legs) > 3 ==> Concentrated(Sport, legs, 3)
      ensures Count(Competition, value, legs) > 3 ==> Concentrated(Competition, legs, 3)
    {
      CountPositive(Sport, value, legs);
      CountPositive(Competition, value, legs);
      CountIsPositions(Sport, value, legs);
      CountIsPositions(Competition, value, legs);
    }
  }

  // A rejected draft names exactly the rules that are broken, in the order of the rules.
  lemma ReasonsExactly(legs: seq<Leg>, draft: Draft)
    requires Verdict(legs, draft)
    ensures draft.rejectionReasons.Some? <==> draft.riskDecision == REJECTED
    ensures draft.rejectionReasons.Some? ==>
      var reasons := draft.rejectionReasons.value;
      && (COUPON_EMPTY_LEGS in reasons <==> |legs| == 0)
      && (EXCEEDS_MAXIMUM_LEGS in reasons <==> |legs| > 5)
      && (CORRELATED_LEGS_SAME_MATCH in reasons <==> !DistinctMatches(legs))
      && (EXCESSIVE_SPORT_CONCENTRATION in reasons <==> exists value :: |Positions(Sport, value, legs)| > 3)
      && (EXCESSIVE_COMPETITION_CONCENTRATION in reasons <==>
            exists value :: |Positions(Competition, value, legs)| > 3)
      && (forall i, j :: 0 <= i < j < |reasons| ==> Rank(reasons[i]) < Rank(reasons[j]))
  {
    hide Concentrated, DistinctMatches, Positions, When;
    RepeatedMatch(legs);
    ConcentratedPositions(Sport, legs, 3);
    ConcentratedPositions(Competition, legs, 3);
    InOrder(legs == [], |legs| > 5, Concentrated(MatchId, legs, 1), Concentrated(Sport, legs, 3),
            Concentrated(Competition, legs, 3));
  }

  lemma InOrder(empty: bool, long: bool, correlated: bool, sport: bool, competition: bool)
    ensures var reasons := When(empty, COUPON_EMPTY_LEGS) + When(long, EXCEEDS_MAXIMUM_LEGS)
        + When(correlated, CORRELATED_LEGS_SAME_MATCH) + When(sport, EXCESSIVE_SPORT_CONCENTRATION)
        + When(competition, EXCESSIVE_COMPETITION_CONCENTRATION);
      && (COUPON_EMPTY_LEGS in reasons <==> empty) && (EXCEEDS_MAXIMUM_LEGS in reasons <==> long)
      && (CORRELATED_LEGS_SAME_MATCH in reasons <==> correlated)
      && (EXCESSIVE_SPORT_CONCENTRATION in reasons <==> sport)
      && (EXCESSIVE_COMPETITION_CONCENTRATION in reasons <==> competition)
      && (forall i, j :: 0 <= i < j < |reasons| ==> Rank(reasons[i]) < Rank(reasons[j]))
  {
    hide When;
    var r0 := [];
    var r1 := OneMore(r0, empty, COUPON_EMPTY_LEGS);
    var r2 := OneMore(r1, long, EXCEEDS_MAXIMUM_LEGS);
    var r3 := OneMore(r2, correlated, CORRELATED_LEGS_SAME_MATCH);
    var r4 := OneMore(r3, sport, EXCESSIVE_SPORT_CONCENTRATION);
    var r5 := OneMore(r4, competition, EXCESSIVE_COMPETITION_CONCENTRATION);
    assert r1 == When(empty, COUPON_EMPTY_LEGS);
  }

  ghost predicate Ordered(reasons: seq<Reason>, below: nat) {
    && (forall i :: 0 <= i < |reasons| ==> Rank(reasons[i]) < below)
    && (forall i, j :: 0 <= i < j < |reasons| ==> Rank(reasons[i]) < Rank(reasons[j]))
  }

  lemma OneMore(reasons: seq<Reason>, condition: bool, reason: Reason) returns (more: seq<Reason>)
    requires Ordered(reasons, Rank(reason))
    ensures more == reasons + When(condition, reason) && Ordered(more, Rank(reason) + 1)
    ensures forall r :: r in more <==> r in reasons || (condition && r == reason)
  {
    more := reasons + When(condition, reason);
  }

  function Rank(reason: Reason): nat {
    match reason
    case COUPON_EMPTY_LEGS => 0
    case EXCEEDS_MAXIMUM_LEGS => 1
    case CORRELATED_LEGS_SAME_MATCH => 2
    case EXCESSIVE_SPORT_CONCENTRATION => 3
    case EXCESSIVE_COMPETITION_CONCENTRATION => 4
  }

  lemma ConcentratedPositions(field: Field, legs: seq<Leg>, limit: nat)
    ensures Concentrated(field, legs, limit) <==> exists value :: |Positions(field, value, legs)| > limit
  {
    hide Count;
    if leg :| leg in legs && Count(field, Get(field, leg), legs) > limit {
      CountIsPositions(field, Get(field, leg), legs);
    }
    if value :| |Positions(field, value, legs)| > limit {
      CountIsPositions(field, value, legs);
      CountPositive(field, value, legs);
      var leg :| leg in legs && Get(field, leg) == value;
      assert Count(field, Get(field, leg), legs) > limit;
    }
  }

  lemma ConcentratedOrderFree(field: Field, a: seq<Leg>, b: seq<Leg>, limit: nat)
    requires multiset(a) == multiset(b)
    ensures Concentrated(field, a, limit) ==> Concentrated(field, b, limit)
  {
    if leg :| leg in a && Count(field, Get(field, leg), a) > limit {
      CountOrderFree(field, Get(field, leg), a, b);
      assert leg in multiset(a);
      assert leg in b;
    }
  }

  // The order of the legs changes neither the decision, nor the reasons, nor the figures.
  lemma OrderDoesNotMatter(a: seq<Leg>, b: seq<Leg>, draftA: Draft, draftB: Draft)
    requires multiset(a) == multiset(b) && Verdict(a, draftA) && Verdict(b, draftB)
    ensures draftA.(legs := b) == draftB
  {
    assert |a| == |multiset(a)| == |multiset(b)| == |b|;
    forall field: Field, limit: nat ensures Concentrated(field, a, limit) <==> Concentrated(field, b, limit) {
      ConcentratedOrderFree(field, a, b, limit);
      ConcentratedOrderFree(field, b, a, limit);
    }
    OddsCommute();
    OrderFree(TimesOdds, 1.0, a, b);
    OrderFree(PlusEv, 0.0, a, b);
  }

  lemma OddsCommute()
    ensures Commutes(TimesOdds) && Commutes(PlusEv) && Commutes(TimesReturn)
  {
    forall acc: real, x: Leg, y: Leg ensures TimesOdds(TimesOdds(acc, x), y) == TimesOdds(TimesOdds(acc, y), x) {
      Swap(acc, x.decimalOdds, y.decimalOdds);
    }
    forall acc: real, x: Leg, y: Leg
      ensures TimesReturn(TimesReturn(acc, x), y) == TimesReturn(TimesReturn(acc, y), x)
    {
      Swap(acc, 1.0 + x.expectedValue, 1.0 + y.expectedValue);
    }
  }

  lemma Swap(a: real, x: real, y: real)
    ensures (a * x) * y == (a * y) * x
  {
  }

  lemma CountShrinks(field: Field, value: string, legs: seq<Leg>, k: nat)
    requires k < |legs|
    ensures Count(field, value, Without(legs, k)) <= Count(field, value, legs)
  {
    assert Commutes(Tally(field, value));
    PullOut(Tally(field, value), 0, legs, k);
  }

  lemma PositionsShrink(field: Field, value: string, legs: seq<Leg>, k: nat)
    requires k < |legs|
    ensures |Positions(field, value, Without(legs, k))| <= |Positions(field, value, legs)|
  {
    hide Positions, Count;
    CountShrinks(field, value, legs, k);
    CountIsPositions(field, value, legs);
    CountIsPositions(field, value, Without(legs, k));
  }

  // Dropping any leg of an approved coupon of two or more leaves it approved.
  lemma ApprovalIsHereditary(legs: seq<Leg>, k: nat, draft: Draft, smaller: Draft)
    requires k < |legs| && |legs| >= 2 && Verdict(legs, draft) && Verdict(Without(legs, k), smaller)
    requires draft.riskDecision == APPROVED
    ensures smaller.riskDecision == APPROVED
  {
    ApprovedExactly(legs, draft);
    ApprovedExactly(Without(legs, k), smaller);
    forall value
      ensures |Positions(Sport, value, Without(legs, k))| <= 3
      ensures |Positions(Competition, value, Without(legs, k))| <= 3
    {
      PositionsShrink(Sport, value, legs, k);
      PositionsShrink(Competition, value, legs, k);
      assert |Positions(Sport, value, legs)| <= 3 && |Positions(Competition, value, legs)| <= 3;
    }
    var rest := Without(legs, k);
    forall i, j | 0 <= i < j < |rest| ensures rest[i].matchId != rest[j].matchId {
      assert rest[i] == legs[if i < k then i else i + 1] && rest[j] == legs[if j < k then j else j + 1];
    }
  }

  // ---------------------------------------------------------------- what the figures are

  // No leg: odds of one and no value.
  lemma NoLegs(draft: Draft)
    requires Verdict([], draft)
    ensures draft.combinedDecimalOdds == 1.0 && draft.expectedValue == 0.0
  {
  }

  // One leg: its own odds and its own value.
  lemma OneLeg(leg: Leg, draft: Draft)
    requires Verdict([leg], draft)
    ensures draft.combinedDecimalOdds == leg.decimalOdds && draft.expectedValue == leg.expectedValue
  {
    assert [leg][..0] == [];
    assert Reduce(TimesOdds, 1.0, [leg]) == TimesOdds(Reduce(TimesOdds, 1.0, []), leg);
    assert Reduce(PlusEv, 0.0, [leg]) == PlusEv(Reduce(PlusEv, 0.0, []), leg);
  }

  // Put together, coupons multiply their odds and average their values by their size.
  // With the two lemmas above, this fixes both figures for every coupon.
  lemma Together(a: seq<Leg>, b: seq<Leg>, draftA: Draft, draftB: Draft, both: Draft)
    requires Verdict(a, draftA) && Verdict(b, draftB) && Verdict(a + b, both)
    ensures both.combinedDecimalOdds == draftA.combinedDecimalOdds * draftB.combinedDecimalOdds
    ensures both.expectedValue * (|a + b| as real)
      == draftA.expectedValue * (|a| as real) + draftB.expectedValue * (|b| as real)
  {
    OddsTogether(a, b, draftA, draftB, both);
    ValuesTogether(a, b, draftA, draftB, both);
  }

  lemma OddsTogether(a: seq<Leg>, b: seq<Leg>, draftA: Draft, draftB: Draft, both: Draft)
    requires Verdict(a, draftA) && Verdict(b, draftB) && Verdict(a + b, both)
    ensures both.combinedDecimalOdds == draftA.combinedDecimalOdds * draftB.combinedDecimalOdds
  {
    hide *;
    VerdictFigures(a, draftA);
    VerdictFigures(b, draftB);
    VerdictFigures(a + b, both);
    OddsMultiply(a, b);
  }

  lemma ValuesTogether(a: seq<Leg>, b: seq<Leg>, draftA: Draft, draftB: Draft, both: Draft)
    requires Verdict(a, draftA) && Verdict(b, draftB) && Verdict(a + b, both)
    ensures both.expectedValue * (|a + b| as real)
      == draftA.expectedValue * (|a| as real) + draftB.expectedValue * (|b| as real)
  {
    hide *;
    VerdictFigures(a, draftA);
    VerdictFigures(b, draftB);
    VerdictFigures(a + b, both);
    ValuesAdd(a, b);
    AverageTimesSize(a);
    AverageTimesSize(b);
    AverageTimesSize(a + b);
  }

  lemma {:induction false} OddsMultiply(a: seq<Leg>, b: seq<Leg>)
    ensures CombinedOdds(a + b) == CombinedOdds(a) * CombinedOdds(b)
    decreases |b|
  {
    if b == [] {
      assert a + b == a;
    } else {
      var n := |b| - 1;
      OddsMultiply(a, b[..n]);
      assert (a + b)[..|a + b| - 1] == a + b[..n] && (a + b)[|a + b| - 1] == b[n];
      Associate(CombinedOdds(a), CombinedOdds(b[..n]), b[n].decimalOdds);
    }
  }

  lemma Associate(x: real, y: real, z: real)
    ensures (x * y) * z == x * (y * z)
  {
  }

  lemma {:induction false} ValuesAdd(a: seq<Leg>, b: seq<Leg>)
    ensures SumEv(a + b) == SumEv(a) + SumEv(b)
    decreases |b|
  {
    if b == [] {
      assert a + b == a;
    } else {
      var n := |b| - 1;
      ValuesAdd(a, b[..n]);
      assert (a + b)[..|a + b| - 1] == a + b[..n] && (a + b)[|a + b| - 1] == b[n];
    }
  }

  // The sum and the joint value mean what their names say.
  lemma {:induction false} JointMultiplies(a: seq<Leg>, b: seq<Leg>)
    ensures 1.0 + JointEv(a + b) == (1.0 + JointEv(a)) * (1.0 + JointEv(b))
    decreases |b|
  {
    if b == [] {
      assert a + b == a;
    } else {
      var n := |b| - 1;
      JointMultiplies(a, b[..n]);
      assert (a + b)[..|a + b| - 1] == a + b[..n] && (a + b)[|a + b| - 1] == b[n];
      Associate(1.0 + JointEv(a), 1.0 + JointEv(b[..n]), 1.0 + b[n].expectedValue);
    }
  }

  lemma OneLegJoint(leg: Leg)
    ensures JointEv([]) == SumEv([]) == 0.0 && JointEv([leg]) == SumEv([leg]) == leg.expectedValue
  {
    assert [leg][..0] == [];
    assert Reduce(TimesReturn, 1.0, [leg]) == TimesReturn(Reduce(TimesReturn, 1.0, []), leg);
    assert Reduce(PlusEv, 0.0, [leg]) == PlusEv(Reduce(PlusEv, 0.0, []), leg);
  }

  lemma AverageTimesSize(legs: seq<Leg>)
    ensures AverageEv(legs) * (|legs| as real) == SumEv(legs)
  {
    if legs == [] {
      assert SumEv(legs) == 0.0;
    }
  }

  // ---------------------------------------------------------------- expected value

  lemma {:induction false} SumBounds(legs: seq<Leg>, low: real, high: real)
    requires forall leg :: leg in legs ==> low <= leg.expectedValue <= high
    ensures low * (|legs| as real) <= SumEv(legs) <= high * (|legs| as real)
  {
    if legs == [] {
    } else {
      var init := legs[..|legs| - 1];
      SumBounds(init, low, high);
      assert legs[|legs| - 1] in legs && forall leg :: leg in init ==> leg in legs;
      assert |legs| as real == |init| as real + 1.0;
      assert low * (|legs| as real) == low * (|init| as real) + low;
      assert high * (|legs| as real) == high * (|init| as real) + high;
    }
  }

  lemma Quotient(sum: real, n: real, low: real, high: real)
    requires n > 0.0 && low * n <= sum <= high * n
    ensures low <= sum / n <= high
  {
    var q := sum / n;
    assert q * n == sum;
    assert q < low ==> (low - q) * n > 0.0;
    assert q > high ==> (q - high) * n > 0.0;
  }

  // The reported EV lies between the least and the greatest EV of a leg.
  lemma AverageIsBetween(legs: seq<Leg>, low: real, high: real)
    requires legs != [] && forall leg :: leg in legs ==> low <= leg.expectedValue <= high
    ensures low <= AverageEv(legs) <= high
  {
    SumBounds(legs, low, high);
    Quotient(SumEv(legs), |legs| as real, low, high);
  }

  // A leg taken from RECOMMENDED advice.
  ghost predicate FromRecommended(leg: Leg) {
    && 0.0 <= leg.calibratedProbability <= 1.0 && leg.decimalOdds > 1.0
    && leg.expectedValue == leg.calibratedProbability * leg.decimalOdds - 1.0
    && leg.expectedValue >= 0.05
  }

  function Pow(base: real, n: nat): real { if n == 0 then 1.0 else Pow(base, n - 1) * base }

  lemma {:induction false} SumBelowJoint(legs: seq<Leg>)
    requires forall leg :: leg in legs ==> leg.expectedValue >= 0.0
    ensures 0.0 <= SumEv(legs) <= JointEv(legs)
  {
    if legs == [] {
    } else {
      var init, last := legs[..|legs| - 1], legs[|legs| - 1];
      assert last in legs && forall leg :: leg in init ==> leg in legs;
      SumBelowJoint(init);
      Compound(SumEv(init), JointEv(init), last.expectedValue);
    }
  }

  lemma Compound(sum: real, joint: real, ev: real)
    requires 0.0 <= sum <= joint && ev >= 0.0
    ensures sum + ev <= (1.0 + joint) * (1.0 + ev) - 1.0
  {
    assert (1.0 + joint) * (1.0 + ev) == 1.0 + joint + ev + joint * ev;
    assert joint * ev >= 0.0;
  }

  lemma {:induction false} OddsGrow(legs: seq<Leg>)
    requires forall leg :: leg in legs ==> FromRecommended(leg)
    ensures CombinedOdds(legs) >= Pow(1.05, |legs|) >= 1.0
  {
    if legs == [] {
    } else {
      var init, last := legs[..|legs| - 1], legs[|legs| - 1];
      assert last in legs && forall leg :: leg in init ==> leg in legs;
      OddsGrow(init);
      assert FromRecommended(last);
      LegOdds(last.calibratedProbability, last.decimalOdds);
      Product(CombinedOdds(init), Pow(1.05, |init|), last.decimalOdds, 1.05);
    }
  }

  lemma LegOdds(p: real, odds: real)
    requires 0.0 <= p <= 1.0 && odds > 1.0 && p * odds - 1.0 >= 0.05
    ensures odds >= 1.05
  {
    assert (1.0 - p) * odds >= 0.0;
  }

  lemma Product(a: real, b: real, x: real, y: real)
    requires a >= b >= 1.0 && x >= y >= 1.0
    ensures a * x >= b * y >= 1.0
  {
    assert (a - b) * x >= 0.0;
    assert b * (x - y) >= 0.0;
    assert (b - 1.0) * y >= 0.0;
  }

  // Of recommended legs the reported EV is conservative: at most the sum, which is at
  // most what the legs would yield together, and the odds compound at five per cent.
  lemma ConservativeEv(legs: seq<Leg>, draft: Draft)
    requires legs != [] && Verdict(legs, draft) && forall leg :: leg in legs ==> FromRecommended(leg)
    ensures 0.05 <= draft.expectedValue <= SumEv(legs) <= JointEv(legs)
    ensures draft.combinedDecimalOdds >= Pow(1.05, |legs|)
  {
    hide Verdict, SumEv, JointEv, CombinedOdds, Pow;
    assert draft.expectedValue == AverageEv(legs) && draft.combinedDecimalOdds == CombinedOdds(legs) by {
      VerdictFigures(legs, draft);
    }
    assert forall leg :: leg in legs ==> FromRecommended(leg) && leg.expectedValue >= 0.05;
    SumBelowJoint(legs);
    OddsGrow(legs);
    SumAbove(legs);
    AverageBelowSum(SumEv(legs), |legs| as real);
  }

  lemma VerdictFigures(legs: seq<Leg>, draft: Draft)
    requires Verdict(legs, draft)
    ensures draft.expectedValue == AverageEv(legs) && draft.combinedDecimalOdds == CombinedOdds(legs)
  {
  }

  lemma AverageBelowSum(sum: real, n: real)
    requires n >= 1.0 && sum >= 0.05 * n
    ensures 0.05 <= sum / n <= sum
  {
    assert sum * (n - 1.0) >= 0.0;
    Quotient(sum, n, 0.05, sum);
  }

  lemma {:induction false} SumAbove(legs: seq<Leg>)
    requires forall leg :: leg in legs ==> leg.expectedValue >= 0.05
    ensures SumEv(legs) >= 0.05 * (|legs| as real)
  {
    if legs == [] {
    } else {
      var init := legs[..|legs| - 1];
      assert legs[|legs| - 1] in legs && forall leg :: leg in init ==> leg in legs;
      SumAbove(init);
      assert |legs| as real == |init| as real + 1.0;
    }
  }
}

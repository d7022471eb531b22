// Match.transitionTo: the status machine with its version counter, over runs of any
// length.  SCHEDULED and POSTPONED form a cycle, so runs are unbounded.

module MatchLifecycle {
  import opened Messaging

  datatype MatchStatus = SCHEDULED | POSTPONED | CANCELLED | LIVE | FINISHED | ABANDONED

  datatype Match = Match(
    id: string,
    tenantId: string,
    homeTeam: string,
    awayTeam: string,
    kickoffAt: int,
    status: MatchStatus,
    createdAt: int,
    updatedAt: int,
    externalId: Option<string>,
    sport: string,
    competition: string,
    participants: seq<string>,
    version: int)

  // The table inside transitionTo.
  function Allowed(status: MatchStatus): set<MatchStatus> {
    match status
    case SCHEDULED => {LIVE, POSTPONED, CANCELLED}
    case POSTPONED => {SCHEDULED, CANCELLED}
    case LIVE => {FINISHED, ABANDONED}
    case FINISHED => {}
    case CANCELLED => {}
    case ABANDONED => {}
  }

  function TransitionTo(m: Match, newStatus: MatchStatus, now: int): Result<Match> {
    if newStatus !in Allowed(m.status) then Err("Invalid match status transition")
    else Ok(m.(status := newStatus, updatedAt := now, version := m.version + 1))
  }

  // A sequence of requested transitions, each with the time of the request.
  datatype Request = Request(target: MatchStatus, at: int)

  function Run(m: Match, requests: seq<Request>): Result<Match>
    decreases |requests|
  {
    if requests == [] then Ok(m)
    else match TransitionTo(m, requests[0].target, requests[0].at)
      case Ok(next) => Run(next, requests[1..])
      case Err(e) => Err(e)
  }

  function Targets(requests: seq<Request>): seq<MatchStatus> {
    seq(|requests|, i requires 0 <= i < |requests| => requests[i].target)
  }

  // As created by the repository: SCHEDULED, and version 1 by the column's default.
  predicate New(m: Match) { m.status == SCHEDULED && m.version == 1 }

  // ---------------------------------------------------------------- what a run keeps

  // The version counts transitions, and nothing but status, version and updatedAt moves.
  lemma {:induction false} VersionCounts(m: Match, requests: seq<Request>)
    requires Run(m, requests).Ok?
    ensures var last := Run(m, requests).value;
      && last.version == m.version + |requests|
      && last == m.(status := last.status, version := last.version, updatedAt := last.updatedAt)
      && (requests != [] ==>
            last.status == requests[|requests| - 1].target && last.updatedAt == requests[|requests| - 1].at)
    decreases |requests|
  {
    if requests == [] {
    } else {
      var next := TransitionTo(m, requests[0].target, requests[0].at).value;
      VersionCounts(next, requests[1..]);
    }
  }

  // ---------------------------------------------------------------- all runs

  // k postponements, each followed by a new date.
  function Cycle(k: nat): seq<MatchStatus> {
    if k == 0 then [] else [POSTPONED, SCHEDULED] + Cycle(k - 1)
  }

  const TAILS: set<seq<MatchStatus>> :=
    {[], [POSTPONED], [CANCELLED], [LIVE], [POSTPONED, CANCELLED], [LIVE, FINISHED], [LIVE, ABANDONED]}

  ghost predicate Shape(targets: seq<MatchStatus>) {
    exists k: nat, tail :: tail in TAILS && targets == Cycle(k) + tail
  }

  // Whether a run succeeds depends on the status alone.
  predicate Accepts(status: MatchStatus, targets: seq<MatchStatus>)
    decreases |targets|
  {
    targets == [] || (targets[0] in Allowed(status) && Accepts(targets[0], targets[1..]))
  }

  lemma {:induction false} RunAccepts(m: Match, requests: seq<Request>)
    ensures Run(m, requests).Ok? <==> Accepts(m.status, Targets(requests))
    decreases |requests|
  {
    if requests == [] {
    } else {
      assert Targets(requests)[1..] == Targets(requests[1..]);
      if requests[0].target in Allowed(m.status) {
        RunAccepts(TransitionTo(m, requests[0].target, requests[0].at).value, requests[1..]);
      }
    }
  }

  lemma {:induction false} ShapeAccepted(k: nat, tail: seq<MatchStatus>)
    requires tail in TAILS
    ensures Accepts(SCHEDULED, Cycle(k) + tail)
  {
    if k == 0 {
      assert Cycle(0) + tail == tail;
      if |tail| == 2 {
        assert tail[1..] == [tail[1]] && tail[1..][1..] == [];
      }
    } else {
      var targets := Cycle(k) + tail;
      assert targets[0] == POSTPONED && targets[1..][0] == SCHEDULED;
      assert targets[1..][1..] == Cycle(k - 1) + tail;
      ShapeAccepted(k - 1, tail);
    }
  }

  lemma Ends(status: MatchStatus, targets: seq<MatchStatus>)
    requires Accepts(status, targets)
    ensures status in {FINISHED, CANCELLED, ABANDONED} ==> targets == []
    ensures status == LIVE && targets != [] ==> targets in {[FINISHED], [ABANDONED]}
  {
    if status == LIVE && targets != [] {
      assert targets == [targets[0]] + targets[1..];
      assert targets == [FINISHED] || targets == [ABANDONED];
    }
  }

  lemma {:induction false} AcceptedHasShape(targets: seq<MatchStatus>)
    requires Accepts(SCHEDULED, targets)
    ensures Shape(targets)
    decreases |targets|
  {
    if targets == [] {
      assert targets == Cycle(0) + [];
    } else if targets[0] == POSTPONED && |targets| > 1 && targets[1] == SCHEDULED {
      assert targets[1..][1..] == targets[2..];
      AcceptedHasShape(targets[2..]);
      var k: nat, tail :| tail in TAILS && targets[2..] == Cycle(k) + tail;
      assert targets == Cycle(k + 1) + tail;
    } else {
      var rest := targets[1..];
      Ends(targets[0], rest);
      if targets[0] == POSTPONED && rest != [] {
        Ends(rest[0], rest[1..]);
        assert targets == [POSTPONED, CANCELLED];
      }
      assert targets == [targets[0]] + rest;
      assert targets[0] == LIVE && rest != [] ==> targets == [LIVE, FINISHED] || targets == [LIVE, ABANDONED];
      assert rest == [] ==> targets == [LIVE] || targets == [POSTPONED] || targets == [CANCELLED];
      assert targets == Cycle(0) + targets && targets in TAILS;
    }
  }

  // The runs from a new match are exactly: any number of postponements with a new
  // date, then one of seven endings.
  lemma RunsExactly(m: Match, requests: seq<Request>)
    requires New(m)
    ensures Run(m, requests).Ok? <==> Shape(Targets(requests))
  {
    RunAccepts(m, requests);
    if Run(m, requests).Ok? {
      AcceptedHasShape(Targets(requests));
    } else if Shape(Targets(requests)) {
      var k: nat, tail :| tail in TAILS && Targets(requests) == Cycle(k) + tail;
      ShapeAccepted(k, tail);
    }
  }

  lemma {:induction false} CycleFacts(k: nat)
    ensures |Cycle(k)| == 2 * k
    ensures forall i :: 0 <= i < 2 * k ==> Cycle(k)[i] == if i % 2 == 0 then POSTPONED else SCHEDULED
  {
    if k == 0 {
    } else {
      CycleFacts(k - 1);
    }
  }

  // Parity: a match that is SCHEDULED, FINISHED or ABANDONED has an odd version, one
  // that is POSTPONED or LIVE an even one.
  lemma VersionParity(m: Match, requests: seq<Request>)
    requires New(m) && Run(m, requests).Ok?
    ensures var last := Run(m, requests).value;
      && (last.status in {SCHEDULED, FINISHED, ABANDONED} ==> last.version % 2 == 1)
      && (last.status in {POSTPONED, LIVE} ==> last.version % 2 == 0)
  {
    VersionCounts(m, requests);
    RunsExactly(m, requests);
    var targets := Targets(requests);
    var k: nat, tail :| tail in TAILS && targets == Cycle(k) + tail;
    CycleFacts(k);
    assert requests != [] ==> requests[|requests| - 1].target == targets[|targets| - 1];
  }

  // A match that ended on the pitch was LIVE exactly once, immediately before.
  lemma LiveOnceBeforeTheEnd(m: Match, requests: seq<Request>)
    requires New(m) && Run(m, requests).Ok? && Run(m, requests).value.status in {FINISHED, ABANDONED}
    ensures |requests| >= 2
    ensures forall i :: 0 <= i < |requests| ==> (requests[i].target == LIVE <==> i == |requests| - 2)
  {
    VersionCounts(m, requests);
    RunsExactly(m, requests);
    var targets := Targets(requests);
    var k: nat, tail :| tail in TAILS && targets == Cycle(k) + tail;
    CycleFacts(k);
    assert targets[|targets| - 1] == requests[|requests| - 1].target;
    assert tail in {[LIVE, FINISHED], [LIVE, ABANDONED]};
    forall i | 0 <= i < |requests| ensures requests[i].target == LIVE <==> i == |requests| - 2 {
      assert targets[i] == requests[i].target;
    }
  }

  // Once a match has gone LIVE or been cancelled it is never SCHEDULED again.
  lemma {:induction false} NeverScheduledAgain(m: Match, requests: seq<Request>)
    requires m.status !in {SCHEDULED, POSTPONED} && Run(m, requests).Ok?
    ensures Run(m, requests).value.status !in {SCHEDULED, POSTPONED}
    decreases |requests|
  {
    if requests == [] {
    } else {
      NeverScheduledAgain(TransitionTo(m, requests[0].target, requests[0].at).value, requests[1..]);
    }
  }
}

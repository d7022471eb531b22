// What holds over whole runs of the outbox protocol, for every interleaving of
// workers, every failing call and every crash.

module OutboxTheorems {
  import opened Messaging
  import opened OutboxProtocol
  import opened OutboxInvariants

  // ---------------------------------------------------------------- attempts and copies

  lemma ReachableInv(c: Config, steps: seq<Step>)
    requires ValidRun(c, INIT, steps)
    ensures Inv(c, Exec(c, INIT, steps))
  {
    InitInv(c);
    RunKeepsInv(c, INIT, steps);
  }

  // Claims, attempts and queued copies agree in every reachable state.
  lemma AttemptAccounting(c: Config, steps: seq<Step>, id: EventId)
    requires ValidRun(c, INIT, steps)
    requires id in Exec(c, INIT, steps).outbox
    ensures var s := Exec(c, INIT, steps);
      var row, budget := s.outbox[id], if c.maxAttempts < 1 then 1 else c.maxAttempts;
      && id in s.claimedAt && id in s.unrecorded
      && |s.claimedAt[id]| == row.attemptCount + (if row.status in {CLAIMED, PUBLISHED} then 1 else 0)
      && |s.claimedAt[id]| <= budget
      && Copies(s.sent, id) <= |s.claimedAt[id]|
      && (row.status == PENDING ==> row.attemptCount < budget)
      && (row.status == FAILED ==> row.attemptCount == budget)
      && (row.status == PUBLISHED ==> Copies(s.sent, id) == 1 + s.unrecorded[id])
      && (row.status in {PENDING, FAILED} ==> Copies(s.sent, id) == s.unrecorded[id])
  {
    ReachableInv(c, steps);
    var s := Exec(c, INIT, steps);
    assert Attempts(c, s, id) && CopyCount(s, id);
  }

  // ---------------------------------------------------------------- ownership

  // Batches in flight are disjoint, and what a worker read at claim time still
  // stands in the table, so its write-back loses no update.
  lemma ExclusiveOwnership(c: Config, steps: seq<Step>, w: WorkerId, k: nat, v: WorkerId, j: nat)
    requires ValidRun(c, INIT, steps)
    requires var s := Exec(c, INIT, steps);
      && w in s.workers && k < |s.workers[w].todo|
      && v in s.workers && j < |s.workers[v].todo|
    ensures var s := Exec(c, INIT, steps);
      var e := s.workers[w].todo[k];
      && (e.id == s.workers[v].todo[j].id ==> w == v && k == j)
      && e.id in s.outbox
      && s.outbox[e.id].status == CLAIMED
      && s.outbox[e.id].attemptCount == e.attemptCount
      && s.outbox[e.id].content == e.content
  {
    ReachableInv(c, steps);
    var s := Exec(c, INIT, steps);
    assert JobInv(s, w) && JobInv(s, v);
    assert Fresh(s, w, s.workers[w].todo[k]) && Fresh(s, v, s.workers[v].todo[j]);
  }

  // An event no worker will touch again: settled, or claimed by a worker that gave up.
  ghost predicate Retired(s: State, id: EventId) {
    id in s.outbox && (s.outbox[id].status in {PUBLISHED, FAILED} || (s.outbox[id].status == CLAIMED && !Held(s, id)))
  }

  // No batch contains a retired event.
  lemma RetiredIsNotHeld(s: State, w: WorkerId, id: EventId)
    requires Ownership(s) && Retired(s, id) && w in s.workers
    ensures forall k :: 0 <= k < |s.workers[w].todo| ==> s.workers[w].todo[k].id != id
  {
    assert JobInv(s, w);
    forall k | 0 <= k < |s.workers[w].todo| ensures s.workers[w].todo[k].id != id {
      assert Fresh(s, w, s.workers[w].todo[k]);
    }
  }

  // An event enters a batch by being claimed, and in no other way.
  lemma HeldOnlyByClaim(c: Config, s: State, step: Step, v: WorkerId, id: EventId)
    requires Enabled(c, s, step) && Holds(Apply(c, s, step), v, id)
    ensures Holds(s, v, id) || (step.Claim? && id in step.batch)
  {
    var s' := Apply(c, s, step);
    var k :| 0 <= k < |s'.workers[v].todo| && s'.workers[v].todo[k].id == id;
    if step.Claim? && v == step.w {
      assert step.batch[k] in step.batch;
    } else {
      if step.MarkOk? || step.RecordOk? {
        AdvanceFacts(s, step.w);
      }
      var d := |s.workers[v].todo| - |s'.workers[v].todo|;
      assert s.workers[v].todo[k + d].id == id;
    }
  }

  lemma RetiredIsNotCurrent(s: State, w: WorkerId, id: EventId)
    requires Ownership(s) && Retired(s, id) && w in s.workers
    ensures s.workers[w].todo != [] && Current(s, w).id != id
  {
    assert JobInv(s, w);
    RetiredIsNotHeld(s, w, id);
  }

  lemma RetiredRowKept(c: Config, s: State, step: Step, id: EventId)
    requires Ownership(s) && Enabled(c, s, step) && Retired(s, id)
    ensures var s' := Apply(c, s, step);
      id in s'.outbox && s'.outbox[id] == s.outbox[id] && id in s'.claimedAt && s'.claimedAt[id] == s.claimedAt[id]
    ensures !(step.Claim? && id in step.batch)
  {
    if step.Claim? {
      assert id !in Eligible(s.outbox, s.now);
      assert id !in step.batch;
    } else if step.MarkOk? || step.RecordOk? {
      RetiredIsNotCurrent(s, step.w, id);
    }
  }

  lemma RetiredCopiesKept(c: Config, s: State, step: Step, id: EventId)
    requires Ownership(s) && Enabled(c, s, step) && Retired(s, id)
    ensures Copies(Apply(c, s, step).sent, id) == Copies(s.sent, id)
  {
    var s' := Apply(c, s, step);
    if s'.sent != s.sent {
      RetiredIsNotCurrent(s, step.w, id);
      CopiesAppend(s.sent, s'.sent[|s.sent|], id);
    }
  }

  lemma StepKeepsRetired(c: Config, s: State, step: Step, id: EventId)
    requires Ownership(s) && Enabled(c, s, step) && Retired(s, id)
    ensures var s' := Apply(c, s, step);
      Retired(s', id) && s'.outbox[id] == s.outbox[id]
      && id in s'.claimedAt && s'.claimedAt[id] == s.claimedAt[id] && Copies(s'.sent, id) == Copies(s.sent, id)
  {
    var s' := Apply(c, s, step);
    RetiredRowKept(c, s, step, id);
    RetiredCopiesKept(c, s, step, id);
    if Held(s', id) {
      HeldOnlyByClaim(c, s, step, s'.outbox[id].claimOwner.value, id);
    }
  }

  // PUBLISHED, FAILED and abandoned CLAIMED events keep their row for ever: no
  // further claim, no further copy, however much time passes.
  lemma {:induction false} NeverClaimedAgain(c: Config, s: State, later: seq<Step>, id: EventId)
    requires Inv(c, s) && Retired(s, id) && ValidRun(c, s, later)
    ensures var s' := Exec(c, s, later);
      Retired(s', id) && s'.outbox[id] == s.outbox[id]
      && id in s.claimedAt && id in s'.claimedAt && s'.claimedAt[id] == s.claimedAt[id]
      && Copies(s'.sent, id) == Copies(s.sent, id)
    decreases |later|
  {
    if later == [] {
    } else {
      StepKeepsRetired(c, s, later[0], id);
      StepKeepsInv(c, s, later[0]);
      NeverClaimedAgain(c, Apply(c, s, later[0]), later[1..], id);
    }
  }

  // ---------------------------------------------------------------- the claimed batch

  lemma {:induction false} DistinctSize(batch: seq<EventId>)
    requires Distinct(batch)
    ensures |IdSet(batch)| == |batch|
  {
    if batch == [] {
    } else {
      var init := batch[..|batch| - 1];
      DistinctSize(init);
      assert IdSet(batch) == IdSet(init) + {batch[|batch| - 1]};
      assert batch[|batch| - 1] !in IdSet(init);
    }
  }

  lemma SameSizeDifference<T>(a: set<T>, b: set<T>)
    requires |a| == |b|
    ensures |a - b| == |b - a|
  {
    assert a == (a * b) + (a - b) && b == (a * b) + (b - a);
  }

  // Two answers of the query to the same state differ in ties only.
  lemma SelectionsTie(c: Config, outbox: map<EventId, Row>, now: int, locked: set<EventId>, a: seq<EventId>,
                      b: seq<EventId>, x: EventId)
      returns (y: EventId)
    requires IsSelection(c, outbox, now, locked, a) && IsSelection(c, outbox, now, locked, b)
    requires x in a && x !in b
    ensures y in b && y !in a && x in outbox && y in outbox && outbox[x].createdAt == outbox[y].createdAt
  {
    DistinctSize(a);
    DistinctSize(b);
    SameSizeDifference(IdSet(a), IdSet(b));
    assert x in IdSet(a) - IdSet(b);
    y :| y in IdSet(b) - IdSet(a);
  }

  // So when no two rows share a creation time, the query leaves no choice but the order.
  lemma SelectionIsDetermined(c: Config, outbox: map<EventId, Row>, now: int, locked: set<EventId>, a: seq<EventId>,
                              b: seq<EventId>)
    requires IsSelection(c, outbox, now, locked, a) && IsSelection(c, outbox, now, locked, b)
    requires forall x, y :: x in outbox && y in outbox && outbox[x].createdAt == outbox[y].createdAt ==> x == y
    ensures multiset(a) == multiset(b)
  {
    forall x ensures x in a <==> x in b {
      if x in a && x !in b {
        var y := SelectionsTie(c, outbox, now, locked, a, b, x);
      }
      if x in b && x !in a {
        var y := SelectionsTie(c, outbox, now, locked, b, a, x);
      }
    }
    forall x ensures multiset(a)[x] == multiset(b)[x] {
      DistinctCount(a, x);
      DistinctCount(b, x);
    }
  }

  lemma {:induction false} DistinctCount(batch: seq<EventId>, x: EventId)
    requires Distinct(batch)
    ensures multiset(batch)[x] == if x in batch then 1 else 0
  {
    if batch == [] {
    } else {
      var init, last := batch[..|batch| - 1], batch[|batch| - 1];
      assert batch == init + [last];
      DistinctCount(init, x);
    }
  }

  // ---------------------------------------------------------------- nothing reads the lease

  // The table with the two columns a claim leaves behind blanked out.
  function BlankRows(outbox: map<EventId, Row>): map<EventId, Row> {
    map id | id in outbox :: outbox[id].(claimOwner := None, leaseUntil := None)
  }

  function Blank(s: State): State { s.(outbox := BlankRows(s.outbox)) }

  lemma BlankTwice(outbox: map<EventId, Row>)
    ensures BlankRows(BlankRows(outbox)) == BlankRows(outbox)
  {
  }

  lemma BlankUpdate(outbox: map<EventId, Row>, id: EventId, row: Row, blank: Row)
    requires blank.(claimOwner := None, leaseUntil := None) == row.(claimOwner := None, leaseUntil := None)
    ensures BlankRows(BlankRows(outbox)[id := blank]) == BlankRows(outbox[id := row])
  {
  }

  lemma BlankClaimRows(outbox: map<EventId, Row>, ids: set<EventId>, w: WorkerId, now: int)
    ensures BlankRows(ClaimRows(BlankRows(outbox), ids, w, now)) == BlankRows(ClaimRows(outbox, ids, w, now))
  {
  }

  lemma BlankEnables(c: Config, s: State, step: Step)
    ensures Enabled(c, Blank(s), step) <==> Enabled(c, s, step)
  {
    if step.Claim? || step.ClaimNothing? {
      var batch := if step.Claim? then step.batch else [];
      assert Eligible(Blank(s).outbox, s.now) == Eligible(s.outbox, s.now);
      assert IsSelection(c, Blank(s).outbox, s.now, step.locked, batch)
        <==> IsSelection(c, s.outbox, s.now, step.locked, batch);
    }
    hide IsSelection;
  }

  lemma BlankCommutes(c: Config, s: State, step: Step)
    requires Enabled(c, s, step) && Enabled(c, Blank(s), step)
    ensures Blank(Apply(c, Blank(s), step)) == Blank(Apply(c, s, step))
  {
    BlankTwice(s.outbox);
    match step {
      case Create(id, _, _) =>
        hide BlankRows, IsSelection;
        var row := Apply(c, s, step).outbox[id];
        BlankUpdate(s.outbox, id, row, row);
      case Claim(w, batch, locked) => BlankClaim(c, s, w, batch, locked);
      case MarkOk(w) => BlankWrite(c, s, w, step);
      case RecordOk(w, _) => BlankWrite(c, s, w, step);
      case _ => hide BlankRows, IsSelection;
    }
  }

  lemma BlankSnapshot(c: Config, s: State, locked: set<EventId>, batch: seq<EventId>)
    requires IsSelection(c, s.outbox, s.now, locked, batch)
    ensures forall id :: id in batch ==> id in s.outbox
    ensures Snapshot(BlankRows(s.outbox), batch) == Snapshot(s.outbox, batch)
  {
    forall k | 0 <= k < |batch| ensures batch[k] in s.outbox {
      assert batch[k] in batch;
    }
  }

  lemma BlankClaim(c: Config, s: State, w: WorkerId, batch: seq<EventId>, locked: set<EventId>)
    requires Enabled(c, s, Claim(w, batch, locked)) && Enabled(c, Blank(s), Claim(w, batch, locked))
    ensures Blank(Apply(c, Blank(s), Claim(w, batch, locked))) == Blank(Apply(c, s, Claim(w, batch, locked)))
  {
    hide IsSelection, BlankRows, Snapshot, ClaimRows;
    BlankSnapshot(c, s, locked, batch);
    BlankClaimRows(s.outbox, IdSet(batch), w, s.now);
  }

  lemma BlankWrite(c: Config, s: State, w: WorkerId, step: Step)
    requires step.MarkOk? || step.RecordOk?
    requires step.w == w && Enabled(c, s, step) && Enabled(c, Blank(s), step)
    ensures Blank(Apply(c, Blank(s), step)) == Blank(Apply(c, s, step))
  {
    hide IsSelection;
    var id := Current(s, w).id;
    assert Advance(Blank(s), w) == Advance(s, w);
    BlankUpdate(s.outbox, id, Apply(c, s, step).outbox[id], Apply(c, Blank(s), step).outbox[id]);
  }

  // The lease and its owner steer nothing: two states that differ in claim_owner and
  // lease_until alone allow the same runs, and these end in states that differ in
  // nothing else.  So no lease, expired or not, ever brings an event back.
  lemma {:induction false} LeaseIsInert(c: Config, s: State, t: State, steps: seq<Step>)
    requires Blank(s) == Blank(t)
    ensures ValidRun(c, s, steps) <==> ValidRun(c, t, steps)
    ensures ValidRun(c, s, steps) ==> Blank(Exec(c, s, steps)) == Blank(Exec(c, t, steps))
    decreases |steps|
  {
    if steps == [] {
    } else {
      BlankEnables(c, s, steps[0]);
      BlankEnables(c, t, steps[0]);
      if Enabled(c, s, steps[0]) {
        BlankCommutes(c, s, steps[0]);
        BlankCommutes(c, t, steps[0]);
        hide Enabled, Apply, Blank;
        LeaseIsInert(c, Apply(c, s, steps[0]), Apply(c, t, steps[0]), steps[1..]);
      }
    }
  }
}

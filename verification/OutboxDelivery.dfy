// Which events reach the queue: exactly once when nothing fails, and exactly when
// the table and the workers still allow it when something does.

module OutboxDelivery {
  import opened Messaging
  import opened OutboxProtocol
  import opened OutboxInvariants
  import opened OutboxTheorems

  // ---------------------------------------------------------------- runs without faults

  // Publishing may fail, but then enqueues nothing; every status write succeeds and
  // no worker dies.
  predicate IsFault(step: Step) {
    step.MarkError? || step.RecordError? || step.Crash? || (step.PublishError? && step.enqueued.Some?)
  }

  ghost predicate FaultFree(steps: seq<Step>) {
    forall i :: 0 <= i < |steps| ==> !IsFault(steps[i])
  }

  ghost predicate Calm(s: State) {
    forall id :: id in s.outbox && id in s.unrecorded ==>
      s.unrecorded[id] == 0 && (s.outbox[id].status == CLAIMED ==> Held(s, id))
  }

  lemma HeldAtClaim(c: Config, s: State, step: Step, id: EventId)
    requires Enabled(c, s, step) && step.Claim? && Held(s, id)
    ensures Held(Apply(c, s, step), id)
  {
    assert id !in Eligible(s.outbox, s.now);
    assert id !in step.batch;
    hide IsSelection, Eligible;
    var o := s.outbox[id].claimOwner.value;
    assert Apply(c, s, step).workers[o] == s.workers[o];
  }

  lemma HeldAtWrite(c: Config, s: State, step: Step, id: EventId)
    requires Ownership(s) && Enabled(c, s, step) && (step.MarkOk? || step.RecordOk?) && Held(s, id)
    ensures Apply(c, s, step).outbox[id].status == CLAIMED ==> Held(Apply(c, s, step), id)
  {
    hide IsSelection, Eligible;
    var s' := Apply(c, s, step);
    var o := s.outbox[id].claimOwner.value;
    var k :| 0 <= k < |s.workers[o].todo| && s.workers[o].todo[k].id == id;
    AdvanceFacts(s, step.w);
    assert JobInv(s, step.w) && JobInv(s, o);
    if step.w == o {
      assert k > 0 ==> s'.workers[o].todo[k - 1].id == id;
    } else {
      assert Fresh(s, step.w, s.workers[step.w].todo[0]) && Fresh(s, o, s.workers[o].todo[k]);
      assert s'.workers[o].todo[k].id == id;
    }
  }

  lemma HeldElse(c: Config, s: State, step: Step, id: EventId)
    requires Enabled(c, s, step) && Held(s, id)
    requires !step.Claim? && !step.MarkOk? && !step.RecordOk? && !IsFault(step)
    ensures Held(Apply(c, s, step), id)
  {
    hide IsSelection, Eligible;
    var s' := Apply(c, s, step);
    var o := s.outbox[id].claimOwner.value;
    var k :| 0 <= k < |s.workers[o].todo| && s.workers[o].todo[k].id == id;
    assert s'.workers[o].todo[k].id == id;
  }

  // A held event stays held until its row is written.
  lemma HeldKept(c: Config, s: State, step: Step, id: EventId)
    requires Ownership(s) && Enabled(c, s, step) && !IsFault(step) && Held(s, id)
    ensures id in Apply(c, s, step).outbox
    ensures Apply(c, s, step).outbox[id].status == CLAIMED ==> Held(Apply(c, s, step), id)
  {
    hide IsSelection, Eligible, Ownership;
    if step.Claim? {
      HeldAtClaim(c, s, step, id);
    } else if step.MarkOk? || step.RecordOk? {
      HeldAtWrite(c, s, step, id);
    } else {
      HeldElse(c, s, step, id);
    }
  }

  lemma StepKeepsCalm(c: Config, s: State, step: Step)
    requires Ownership(s) && Calm(s) && Enabled(c, s, step) && !IsFault(step)
    ensures Calm(Apply(c, s, step))
  {
    var s' := Apply(c, s, step);
    OwnershipKept(c, s, step);
    forall id | id in s'.outbox && id in s'.unrecorded
      ensures s'.unrecorded[id] == 0 && (s'.outbox[id].status == CLAIMED ==> Held(s', id))
    {
      if id in s.outbox {
        StepKeepsCalmRow(c, s, step, id);
      }
    }
  }

  lemma StepKeepsCalmRow(c: Config, s: State, step: Step, id: EventId)
    requires Ownership(s) && Calm(s) && Enabled(c, s, step) && !IsFault(step) && id in s.outbox
    ensures var s' := Apply(c, s, step);
      id in s'.unrecorded && s'.unrecorded[id] == 0
      && id in s'.outbox && (s'.outbox[id].status == CLAIMED ==> Held(s', id))
  {
    var s' := Apply(c, s, step);
    if s.outbox[id].status == CLAIMED {
      HeldKept(c, s, step, id);
    } else if step.Claim? && id in step.batch {
      var k :| 0 <= k < |step.batch| && step.batch[k] == id;
      assert s'.workers[step.w].todo[k].id == id;
    } else if step.MarkOk? || step.RecordOk? {
      assert JobInv(s, step.w) && Fresh(s, step.w, s.workers[step.w].todo[0]);
    }
  }

  lemma {:induction false} RunKeepsCalm(c: Config, s: State, steps: seq<Step>)
    requires Ownership(s) && Calm(s) && ValidRun(c, s, steps) && FaultFree(steps)
    ensures Calm(Exec(c, s, steps))
    decreases |steps|
  {
    if steps == [] {
    } else {
      assert !IsFault(steps[0]);
      assert forall i :: 0 <= i < |steps| - 1 ==> steps[1..][i] == steps[i + 1];
      StepKeepsCalm(c, s, steps[0]);
      OwnershipKept(c, s, steps[0]);
      RunKeepsCalm(c, Apply(c, s, steps[0]), steps[1..]);
    }
  }

  // Without faults: a PUBLISHED event has exactly one copy, a PENDING or FAILED one
  // has none, and a CLAIMED one is held by a worker.  So once no event is waiting and
  // no worker is busy, every event is PUBLISHED with one copy or FAILED with none.
  lemma SettledOutcome(c: Config, steps: seq<Step>, id: EventId)
    requires ValidRun(c, INIT, steps) && FaultFree(steps) && id in Exec(c, INIT, steps).outbox
    ensures var s := Exec(c, INIT, steps);
      match s.outbox[id].status
      case PUBLISHED => Copies(s.sent, id) == 1
      case FAILED => Copies(s.sent, id) == 0
      case PENDING => Copies(s.sent, id) == 0
      case CLAIMED =>
        Copies(s.sent, id) <= 1 && exists w, k ::
          w in s.workers && 0 <= k < |s.workers[w].todo| && s.workers[w].todo[k].id == id
  {
    InitInv(c);
    RunKeepsCalm(c, INIT, steps);
    ReachableInv(c, steps);
    AttemptAccounting(c, steps, id);
    var s := Exec(c, INIT, steps);
    assert Calm(s) && CopyCount(s, id);
    if s.outbox[id].status == CLAIMED {
      var w := s.outbox[id].claimOwner.value;
      var k :| 0 <= k < |s.workers[w].todo| && s.workers[w].todo[k].id == id;
    }
  }

  // The step leaves a copy of the event in the queue that the table does not learn of.
  predicate Hides(s: State, step: Step, id: EventId) {
    match step
    case PublishError(w, Some(_)) => At(s, w, Publishing) && Current(s, w).id == id
    case MarkError(w) => At(s, w, Marking) && Current(s, w).id == id
    case Crash(w) => At(s, w, Marking) && Current(s, w).id == id
    case _ => false
  }

  // How many steps of the run do so.
  function HidingSteps(c: Config, s: State, steps: seq<Step>, id: EventId): nat
    requires ValidRun(c, s, steps)
    decreases |steps|
  {
    if steps == [] then 0
    else (if Hides(s, steps[0], id) then 1 else 0) + HidingSteps(c, Apply(c, s, steps[0]), steps[1..], id)
  }

  ghost predicate SomeStepHides(c: Config, s: State, steps: seq<Step>, id: EventId)
    requires ValidRun(c, s, steps)
    decreases |steps|
  {
    steps != [] && (Hides(s, steps[0], id) || SomeStepHides(c, Apply(c, s, steps[0]), steps[1..], id))
  }

  function Unrecorded(s: State, id: EventId): nat { if id in s.unrecorded then s.unrecorded[id] else 0 }

  lemma StepHides(c: Config, s: State, step: Step, id: EventId)
    requires Enabled(c, s, step)
    ensures Unrecorded(Apply(c, s, step), id) == Unrecorded(s, id) + (if Hides(s, step, id) then 1 else 0)
  {
    hide IsSelection;
  }

  lemma {:induction false} RunHides(c: Config, s: State, steps: seq<Step>, id: EventId)
    requires ValidRun(c, s, steps)
    ensures Unrecorded(Exec(c, s, steps), id) == Unrecorded(s, id) + HidingSteps(c, s, steps, id)
    ensures HidingSteps(c, s, steps, id) > 0 <==> SomeStepHides(c, s, steps, id)
    decreases |steps|
  {
    hide Hides, Enabled, Apply, Unrecorded;
    if steps == [] {
    } else {
      StepHides(c, s, steps[0], id);
      RunHides(c, Apply(c, s, steps[0]), steps[1..], id);
    }
  }

  // In any run at all: a settled event has exactly the copies its status promises, one
  // if PUBLISHED and none if FAILED, if and only if no publish that enqueued it
  // reported an error, and no worker failed to mark it, or died before, once it was out.
  lemma ExactCopies(c: Config, steps: seq<Step>, id: EventId)
    requires ValidRun(c, INIT, steps)
    requires id in Exec(c, INIT, steps).outbox && Exec(c, INIT, steps).outbox[id].status in {PUBLISHED, FAILED}
    ensures var s := Exec(c, INIT, steps);
      Copies(s.sent, id) == (if s.outbox[id].status == PUBLISHED then 1 else 0) <==> !SomeStepHides(c, INIT, steps, id)
  {
    CopiesCounted(c, steps, id);
    RunHides(c, INIT, steps, id);
  }

  // Every copy is accounted for: by the PUBLISHED status, by a worker about to write
  // it, or by one hiding step of the run.
  lemma CopiesCounted(c: Config, steps: seq<Step>, id: EventId)
    requires ValidRun(c, INIT, steps) && id in Exec(c, INIT, steps).outbox
    ensures var s := Exec(c, INIT, steps);
      Copies(s.sent, id) == HidingSteps(c, INIT, steps, id)
        + (if s.outbox[id].status == PUBLISHED || AtMarking(s, id) then 1 else 0)
  {
    ReachableInv(c, steps);
    RunHides(c, INIT, steps, id);
    var s := Exec(c, INIT, steps);
    assert CopyCount(s, id);
  }

  // ---------------------------------------------------------------- who can still be delivered

  // A failure recorded now would leave the event PENDING in a relay that claims.
  predicate CanRetry(c: Config, row: Row) {
    c.batchSize >= 1 && row.attemptCount + 1 < Budget(c)
  }

  // The event's owner is in the catch block of its last attempt.
  ghost predicate GivingUp(c: Config, s: State, id: EventId) {
    && Held(s, id)
    && IsCurrent(s, s.outbox[id].claimOwner.value, id)
    && s.workers[s.outbox[id].claimOwner.value].stage == Recording
    && !CanRetry(c, s.outbox[id])
  }

  // The event is in the queue, or waiting to be claimed, or owned by a worker that
  // has not yet used up its last attempt.
  ghost predicate Deliverable(c: Config, s: State, id: EventId)
    requires id in s.outbox
  {
    || Copies(s.sent, id) > 0
    || (s.outbox[id].status == PENDING && c.batchSize >= 1)
    || (Held(s, id) && !GivingUp(c, s, id))
  }

  // A row nobody is publishing and nobody can claim.
  lemma UntouchedCopies(c: Config, s: State, step: Step, id: EventId)
    requires Ownership(s) && Enabled(c, s, step) && id in s.outbox
    requires forall w :: At(s, w, Publishing) ==> Current(s, w).id != id
    ensures Copies(Apply(c, s, step).sent, id) == Copies(s.sent, id)
  {
    var s' := Apply(c, s, step);
    if s'.sent != s.sent {
      assert At(s, step.w, Publishing);
      CopiesAppend(s.sent, s'.sent[|s.sent|], id);
    }
  }

  lemma GivingUpIsQuiet(c: Config, s: State, id: EventId, w: WorkerId)
    requires Ownership(s) && GivingUp(c, s, id) && w in s.workers && s.workers[w].todo != [] && Current(s, w).id == id
    ensures s.outbox[id].claimOwner == Some(w) && s.workers[w].stage == Recording
  {
    assert JobInv(s, w);
    assert Fresh(s, w, s.workers[w].todo[0]);
  }

  lemma GivingUpSendsNothing(c: Config, s: State, step: Step, id: EventId)
    requires Ownership(s) && Enabled(c, s, step) && GivingUp(c, s, id)
    ensures Copies(Apply(c, s, step).sent, id) == Copies(s.sent, id)
  {
    forall w | At(s, w, Publishing) ensures Current(s, w).id != id {
      if Current(s, w).id == id { GivingUpIsQuiet(c, s, id, w); }
    }
    UntouchedCopies(c, s, step, id);
  }

  // The last catch block ends in FAILED, in a row nobody claims, or in an orphan.
  lemma LastWrite(c: Config, s: State, step: Step, id: EventId)
    requires Ownership(s) && Enabled(c, s, step) && GivingUp(c, s, id) && Attempts(c, s, id) && Copies(s.sent, id) == 0
    requires IsWork(step) && Some(step.w) == s.outbox[id].claimOwner
    ensures id in Apply(c, s, step).outbox && !Deliverable(c, Apply(c, s, step), id)
  {
    hide IsSelection, Copies;
    var w := step.w;
    assert JobInv(s, w) && Fresh(s, w, s.workers[w].todo[0]);
    GivingUpSendsNothing(c, s, step, id);
    assert step.RecordOk? || step.RecordError? || step.Crash?;
  }

  lemma StepKeepsGivingUp(c: Config, s: State, step: Step, id: EventId)
    requires Ownership(s) && Enabled(c, s, step) && GivingUp(c, s, id) && Copies(s.sent, id) == 0
    requires Attempts(c, s, id)
    ensures id in Apply(c, s, step).outbox && !Deliverable(c, Apply(c, s, step), id)
  {
    var s' := Apply(c, s, step);
    var o := s.outbox[id].claimOwner.value;
    if IsWork(step) && step.w == o {
      LastWrite(c, s, step, id);
    } else {
      GivingUpSendsNothing(c, s, step, id);
      OwnerUndisturbed(c, s, step, id);
    }
  }

  lemma OwnerUndisturbed(c: Config, s: State, step: Step, id: EventId)
    requires Ownership(s) && Enabled(c, s, step) && GivingUp(c, s, id)
    requires !IsWork(step) || Some(step.w) != s.outbox[id].claimOwner
    ensures id in Apply(c, s, step).outbox && Apply(c, s, step).outbox[id] == s.outbox[id]
    ensures GivingUp(c, Apply(c, s, step), id)
  {
    var s' := Apply(c, s, step);
    var o := s.outbox[id].claimOwner.value;
    if IsWork(step) {
      OtherWorkElsewhere(c, s, step, id);
    } else if step.Claim? {
      assert id !in Eligible(s.outbox, s.now);
      assert id !in step.batch;
    } else {
      hide IsSelection;
    }
    hide Apply, Enabled;
    assert s'.workers[o] == s.workers[o];
  }

  lemma OtherWorkElsewhere(c: Config, s: State, step: Step, id: EventId)
    requires Ownership(s) && Enabled(c, s, step) && GivingUp(c, s, id)
    requires IsWork(step) && Some(step.w) != s.outbox[id].claimOwner
    ensures var s', o := Apply(c, s, step), s.outbox[id].claimOwner.value;
      && id in s'.outbox && s'.outbox[id] == s.outbox[id]
      && o in s'.workers && s'.workers[o] == s.workers[o]
  {
    assert step.w in s.workers by { hide IsSelection; }
    hide Apply, Enabled;
    assert JobInv(s, step.w);
    if Current(s, step.w).id == id { GivingUpIsQuiet(c, s, id, step.w); }
    OtherRowsStay(c, s, step, id);
    OtherWorkersStay(c, s, step, s.outbox[id].claimOwner.value);
  }

  lemma StepKeepsUnclaimable(c: Config, s: State, step: Step, id: EventId)
    requires Ownership(s) && Enabled(c, s, step) && Copies(s.sent, id) == 0
    requires id in s.outbox && s.outbox[id].status == PENDING && c.batchSize < 1
    ensures id in Apply(c, s, step).outbox && !Deliverable(c, Apply(c, s, step), id)
  {
    forall w | w in s.workers && s.workers[w].todo != [] ensures Current(s, w).id != id {
      assert JobInv(s, w) && Fresh(s, w, s.workers[w].todo[0]);
    }
    UntouchedCopies(c, s, step, id);
    assert Apply(c, s, step).outbox[id] == s.outbox[id];
  }

  lemma StepKeepsUndeliverable(c: Config, s: State, step: Step, id: EventId)
    requires Inv(c, s) && Enabled(c, s, step) && id in s.outbox && !Deliverable(c, s, id)
    ensures id in Apply(c, s, step).outbox && !Deliverable(c, Apply(c, s, step), id)
  {
    if s.outbox[id].status == PENDING {
      StepKeepsUnclaimable(c, s, step, id);
    } else if GivingUp(c, s, id) {
      assert Attempts(c, s, id);
      StepKeepsGivingUp(c, s, step, id);
    } else {
      StepKeepsRetired(c, s, step, id);
    }
  }

  lemma {:induction false} NeverDelivered(c: Config, s: State, later: seq<Step>, id: EventId)
    requires Inv(c, s) && id in s.outbox && !Deliverable(c, s, id) && ValidRun(c, s, later)
    ensures Copies(Exec(c, s, later).sent, id) == 0
    decreases |later|
  {
    if later == [] {
    } else {
      StepKeepsUndeliverable(c, s, later[0], id);
      StepKeepsInv(c, s, later[0]);
      NeverDelivered(c, Apply(c, s, later[0]), later[1..], id);
    }
  }

  // ---- the other direction: a schedule that delivers

  // Every call works, and no row is locked by anybody.
  predicate Smooth(step: Step) {
    !IsFault(step) && !step.PublishError? && ((step.Claim? || step.ClaimNothing?) ==> step.locked == {})
  }

  predicate SmoothRun(steps: seq<Step>) {
    forall i :: 0 <= i < |steps| ==> Smooth(steps[i])
  }

  // The run takes a copy of the event to the queue, and nothing goes wrong in it.
  ghost predicate Delivers(c: Config, s: State, later: seq<Step>, id: EventId) {
    ValidRun(c, s, later) && SmoothRun(later) && Copies(Exec(c, s, later).sent, id) > 0
  }

  lemma Prepend(c: Config, s: State, step: Step, rest: seq<Step>)
    requires Enabled(c, s, step) && ValidRun(c, Apply(c, s, step), rest)
    ensures ValidRun(c, s, [step] + rest) && Exec(c, s, [step] + rest) == Exec(c, Apply(c, s, step), rest)
  {
    hide Enabled, Apply;
    assert ([step] + rest)[1..] == rest;
  }

  lemma DeliversNext(c: Config, s: State, step: Step, rest: seq<Step>, id: EventId)
    requires Enabled(c, s, step) && Smooth(step) && Delivers(c, Apply(c, s, step), rest, id)
    ensures Delivers(c, s, [step] + rest, id)
  {
    hide Enabled, Apply, Smooth, Copies;
    Prepend(c, s, step, rest);
  }

  lemma DeliversLater(c: Config, s: State, first: seq<Step>, rest: seq<Step>, id: EventId)
    requires ValidRun(c, s, first) && SmoothRun(first) && Delivers(c, Exec(c, s, first), rest, id)
    ensures Delivers(c, s, first + rest, id)
  {
    hide Smooth, Copies, ValidRun, Exec;
    RunAppend(c, s, first, rest);
  }

  // ---- a worker goes through its batch

  lemma PublishCurrent(c: Config, s: State, w: WorkerId)
    requires Ownership(s) && At(s, w, Publishing)
    ensures Delivers(c, s, [PublishOk(w, "")], Current(s, w).id)
  {
    var step := PublishOk(w, "");
    Prepend(c, s, step, []);
    assert [step] + [] == [step];
    CopiesAppend(s.sent, Apply(c, s, step).sent[|s.sent|], Current(s, w).id);
  }

  // The worker is past its current event, and no other row has changed.
  ghost predicate Finished(s: State, s': State, w: WorkerId) {
    && w in s.workers && s.workers[w].todo != [] && s'.workers == Advance(s, w)
    && s'.now == s.now && s'.outbox.Keys == s.outbox.Keys
    && (forall id :: id in s.outbox && id != Current(s, w).id ==> s'.outbox[id] == s.outbox[id])
    && (s.workers[w].stage != Recording ==>
          Current(s, w).id in s.outbox && s'.outbox[Current(s, w).id].status == PUBLISHED)
  }

  lemma FinishByWrite(c: Config, s: State, w: WorkerId, step: Step)
    requires Ownership(s) && Enabled(c, s, step) && step in {MarkOk(w), RecordOk(w, 0)}
    ensures ValidRun(c, s, [step]) && Finished(s, Exec(c, s, [step]), w)
  {
    Prepend(c, s, step, []);
    assert [step] + [] == [step];
    var s' := Apply(c, s, step);
    assert s'.outbox.Keys == s.outbox.Keys;
  }

  // The steps that take worker w past its current event.
  lemma FinishCurrent(c: Config, s: State, w: WorkerId) returns (steps: seq<Step>)
    requires Inv(c, s) && w in s.workers
    ensures ValidRun(c, s, steps) && SmoothRun(steps) && Finished(s, Exec(c, s, steps), w)
  {
    hide IsSelection, Sent, Attempts, CopyCount, Spaced, Timed;
    assert JobInv(s, w) && Fresh(s, w, s.workers[w].todo[0]);
    if s.workers[w].stage == Publishing {
      steps := PublishAndMark(c, s, w);
    } else {
      var write := if s.workers[w].stage == Marking then MarkOk(w) else RecordOk(w, 0);
      hide Finished;
      FinishByWrite(c, s, w, write);
      steps := [write];
    }
  }

  lemma PublishAndMark(c: Config, s: State, w: WorkerId) returns (steps: seq<Step>)
    requires Ownership(s) && At(s, w, Publishing) && Writable(s, w)
    ensures ValidRun(c, s, steps) && SmoothRun(steps) && Finished(s, Exec(c, s, steps), w)
  {
    hide IsSelection;
    var publish := PublishOk(w, "");
    var s1 := Apply(c, s, publish);
    OwnershipKept(c, s, publish);
    hide Ownership;
    assert s1.workers[w].todo == s.workers[w].todo && s1.outbox == s.outbox && s1.now == s.now;
    FinishByWrite(c, s1, w, MarkOk(w));
    Prepend(c, s, publish, [MarkOk(w)]);
    assert Advance(s1, w) == Advance(s, w);
    steps := [publish] + [MarkOk(w)];
  }

  ghost function TodoIds(s: State, w: WorkerId): set<EventId>
    requires w in s.workers
  {
    set e | e in s.workers[w].todo :: e.id
  }

  // The worker has dropped its current event and is about to publish the next.
  ghost predicate OnNext(s: State, s1: State, w: WorkerId) {
    && w in s.workers && w in s1.workers && |s.workers[w].todo| > 1
    && s1.workers[w].stage == Publishing && s1.workers[w].todo == s.workers[w].todo[1..]
    && TodoIds(s, w) == {Current(s, w).id} + TodoIds(s1, w) && Current(s, w).id !in TodoIds(s1, w)
  }

  lemma TodoSplits(s: State, s1: State, w: WorkerId)
    requires Ownership(s) && Finished(s, s1, w)
    ensures |s.workers[w].todo| == 1 ==> (w !in s1.workers && TodoIds(s, w) == {Current(s, w).id})
    ensures |s.workers[w].todo| > 1 ==> OnNext(s, s1, w)
  {
    AdvanceFacts(s, w);
    assert JobInv(s, w);
    var todo := s.workers[w].todo;
    assert todo == [todo[0]] + todo[1..];
    if |todo| > 1 {
      forall e | e in todo[1..] ensures e.id != todo[0].id {
        var k :| 0 <= k < |todo[1..]| && todo[1..][k] == e;
        assert todo[k + 1] == e;
      }
    }
  }

  lemma FinishOne(c: Config, s: State, w: WorkerId) returns (steps: seq<Step>)
    requires Inv(c, s) && w in s.workers
    ensures ValidRun(c, s, steps) && SmoothRun(steps)
    ensures var s1 := Exec(c, s, steps);
      && Inv(c, s1) && Finished(s, s1, w) && s.workers[w].todo != []
      && (|s.workers[w].todo| == 1 ==> (w !in s1.workers && TodoIds(s, w) == {Current(s, w).id}))
      && (|s.workers[w].todo| > 1 ==> OnNext(s, s1, w))
  {
    assert Ownership(s);
    hide Inv, Ownership, ValidRun, Exec, SmoothRun, TodoIds, OnNext;
    steps := FinishCurrent(c, s, w);
    RunKeepsInv(c, s, steps);
    TodoSplits(s, Exec(c, s, steps), w);
  }

  lemma DeliverFirst(c: Config, s: State, w: WorkerId)
    requires Inv(c, s) && w in s.workers && s.workers[w].todo != [] && s.workers[w].stage == Publishing
    ensures Delivers(c, s, [PublishOk(w, "")], s.workers[w].todo[0].id)
  {
    assert Ownership(s);
    hide Inv, Ownership, Delivers;
    PublishCurrent(c, s, w);
  }

  // A batch that starts with an event to publish gets to each of its events.
  lemma {:induction false} DeliverInBatch(c: Config, s: State, w: WorkerId, k: nat) returns (later: seq<Step>)
    requires Inv(c, s) && w in s.workers && k < |s.workers[w].todo| && s.workers[w].stage == Publishing
    ensures Delivers(c, s, later, s.workers[w].todo[k].id)
    decreases k
  {
    hide Inv, Delivers, ValidRun, Exec, SmoothRun, Finished, TodoIds, Ownership;
    if k == 0 {
      DeliverFirst(c, s, w);
      later := [PublishOk(w, "")];
    } else {
      var first := FinishOne(c, s, w);
      assert OnNext(s, Exec(c, s, first), w);
      var s1 := Exec(c, s, first);
      assert s1.workers[w].todo[k - 1] == s.workers[w].todo[k];
      hide OnNext;
      var rest := DeliverInBatch(c, s1, w, k - 1);
      DeliversLater(c, s, first, rest, s.workers[w].todo[k].id);
      later := first + rest;
    }
  }

  // Exactly the events of the worker's batch were published; every other row is as it was.
  ghost predicate BatchDone(s: State, s': State, w: WorkerId) {
    && w in s.workers && w !in s'.workers && s'.now == s.now && s'.outbox.Keys == s.outbox.Keys
    && forall id :: id in s.outbox ==>
         if id in TodoIds(s, w) then s'.outbox[id].status == PUBLISHED else s'.outbox[id] == s.outbox[id]
  }

  lemma LastDone(s: State, s1: State, w: WorkerId)
    requires Finished(s, s1, w) && s.workers[w].stage == Publishing
    requires w !in s1.workers && TodoIds(s, w) == {Current(s, w).id}
    ensures BatchDone(s, s1, w)
  {
    hide TodoIds;
  }

  lemma RestDone(s: State, s1: State, s2: State, w: WorkerId)
    requires Finished(s, s1, w) && s.workers[w].stage == Publishing && OnNext(s, s1, w) && BatchDone(s1, s2, w)
    ensures BatchDone(s, s2, w)
  {
    hide TodoIds;
  }

  lemma {:induction false} FinishBatch(c: Config, s: State, w: WorkerId) returns (steps: seq<Step>)
    requires Inv(c, s) && w in s.workers && s.workers[w].stage == Publishing
    ensures ValidRun(c, s, steps) && SmoothRun(steps)
    ensures Inv(c, Exec(c, s, steps)) && BatchDone(s, Exec(c, s, steps), w)
    decreases |s.workers[w].todo|
  {
    hide Inv, ValidRun, Exec, Smooth, Finished, BatchDone, TodoIds;
    steps := FinishOne(c, s, w);
    var s1 := Exec(c, s, steps);
    if |s.workers[w].todo| == 1 {
      LastDone(s, s1, w);
    } else {
      var rest := FinishBatch(c, s1, w);
      RunAppend(c, s, steps, rest);
      RestDone(s, s1, Exec(c, s1, rest), w);
      steps := steps + rest;
    }
  }

  // ---- a claim when nobody holds a lock

  // The query has an answer, whatever the table looks like.
  lemma {:induction false} PickOldest(outbox: map<EventId, Row>, free: set<EventId>, n: nat)
    returns (batch: seq<EventId>)
    requires free <= outbox.Keys
    ensures Distinct(batch) && |batch| == Min(n, |free|) && forall id :: id in batch ==> id in free
    ensures forall id, left :: id in batch && left in free && left !in batch ==>
      outbox[id].createdAt <= outbox[left].createdAt
    decreases n
  {
    if n == 0 || free == {} {
      batch := [];
    } else {
      var oldest := Oldest(outbox, free);
      var rest := PickOldest(outbox, free - {oldest}, n - 1);
      batch := [oldest] + rest;
    }
  }

  lemma ClaimOldest(c: Config, s: State, w: WorkerId) returns (batch: seq<EventId>)
    requires Ownership(s) && Eligible(s.outbox, s.now) != {} && c.batchSize >= 1 && w !in s.workers
    ensures Enabled(c, s, Claim(w, batch, {})) && batch != [] && forall id :: id in batch ==>
      id in Eligible(s.outbox, s.now)
  {
    assert Eligible(s.outbox, s.now) - {} == Eligible(s.outbox, s.now);
    batch := PickOldest(s.outbox, Eligible(s.outbox, s.now), c.batchSize);
  }

  lemma Claimed(c: Config, s: State, w: WorkerId, batch: seq<EventId>)
    requires Enabled(c, s, Claim(w, batch, {}))
    ensures var s' := Apply(c, s, Claim(w, batch, {}));
      && w in s'.workers && s'.workers[w].stage == Publishing && |s'.workers[w].todo| == |batch|
      && (forall k :: 0 <= k < |batch| ==> s'.workers[w].todo[k].id == batch[k])
      && TodoIds(s', w) == IdSet(batch)
      && s'.now == s.now && s'.outbox.Keys == s.outbox.Keys
      && forall id :: id in s.outbox && id !in batch ==> s'.outbox[id] == s.outbox[id]
  {
    hide IsSelection;
    var s' := Apply(c, s, Claim(w, batch, {}));
    forall id | id in batch ensures id in TodoIds(s', w) {
      var k :| 0 <= k < |batch| && batch[k] == id;
      assert s'.workers[w].todo[k] in s'.workers[w].todo;
    }
    forall id | id in TodoIds(s', w) ensures id in batch {
      var e :| e in s'.workers[w].todo && e.id == id;
    }
  }

  // Claiming and finishing a batch takes just its events out of what is due.
  lemma FewerDue(c: Config, s: State, w: WorkerId, batch: seq<EventId>, s2: State)
    requires Enabled(c, s, Claim(w, batch, {})) && batch != []
    requires forall id :: id in batch ==> id in Eligible(s.outbox, s.now)
    requires BatchDone(Apply(c, s, Claim(w, batch, {})), s2, w)
    ensures Eligible(s2.outbox, s2.now) == Eligible(s.outbox, s.now) - IdSet(batch)
    ensures |Eligible(s2.outbox, s2.now)| < |Eligible(s.outbox, s.now)|
  {
    Claimed(c, s, w, batch);
    hide Apply, Enabled, TodoIds, Eligible;
    DueAfter(s.outbox, s.now, IdSet(batch), s2.outbox);
    assert batch[0] in batch;
    SmallerSet(Eligible(s.outbox, s.now), IdSet(batch), batch[0]);
  }

  lemma DueAfter(outbox: map<EventId, Row>, now: int, ids: set<EventId>, after: map<EventId, Row>)
    requires after.Keys == outbox.Keys
    requires forall id :: id in outbox ==> if id in ids then after[id].status == PUBLISHED else after[id] == outbox[id]
    ensures Eligible(after, now) == Eligible(outbox, now) - ids
  {
  }

  lemma SmallerSet<T>(a: set<T>, b: set<T>, x: T)
    requires x in a && x in b
    ensures |a - b| < |a|
  {
    assert a == (a - b) + (a * b);
  }

  // A claim, and where it leaves the event: in the batch, or due after the batch is done.
  lemma ClaimOrWait(c: Config, s: State, id: EventId) returns (w: WorkerId, batch: seq<EventId>)
    requires Inv(c, s) && id in Eligible(s.outbox, s.now) && c.batchSize >= 1
    ensures batch != [] && forall x :: x in batch ==> x in Eligible(s.outbox, s.now)
    ensures Enabled(c, s, Claim(w, batch, {})) && Inv(c, Apply(c, s, Claim(w, batch, {})))
    ensures var s1 := Apply(c, s, Claim(w, batch, {}));
      && w in s1.workers && s1.workers[w].stage == Publishing && |s1.workers[w].todo| == |batch|
      && forall k :: 0 <= k < |batch| ==> s1.workers[w].todo[k].id == batch[k]
  {
    assert Ownership(s);
    hide Inv, Ownership, Enabled, Apply, Eligible;
    w := UnusedId(s.workers.Keys);
    batch := ClaimOldest(c, s, w);
    StepKeepsInv(c, s, Claim(w, batch, {}));
    Claimed(c, s, w, batch);
  }

  // Claim the oldest due rows: either the event is among them, or its turn comes after.
  lemma {:induction false} DeliverDue(c: Config, s: State, id: EventId) returns (later: seq<Step>)
    requires Inv(c, s) && id in Eligible(s.outbox, s.now) && c.batchSize >= 1
    ensures Delivers(c, s, later, id)
    decreases |Eligible(s.outbox, s.now)|
  {
    hide *;
    var w, batch := ClaimOrWait(c, s, id);
    var s1 := Apply(c, s, Claim(w, batch, {}));
    var rest;
    if id in batch {
      var k :| 0 <= k < |batch| && batch[k] == id;
      rest := DeliverInBatch(c, s1, w, k);
    } else {
      var first := FinishBatch(c, s1, w);
      FewerDue(c, s, w, batch, Exec(c, s1, first));
      NotClaimed(batch, id);
      rest := DeliverDue(c, Exec(c, s1, first), id);
      DeliversLater(c, s1, first, rest, id);
      rest := first + rest;
    }
    ClaimIsSmooth(w, batch);
    DeliversNext(c, s, Claim(w, batch, {}), rest, id);
    later := [Claim(w, batch, {})] + rest;
  }

  lemma NotClaimed(batch: seq<EventId>, id: EventId)
    requires id !in batch
    ensures id !in IdSet(batch)
  {
  }

  lemma ClaimIsSmooth(w: WorkerId, batch: seq<EventId>)
    ensures Smooth(Claim(w, batch, {}))
  {
  }

  // Wait until the row is due, then claim and publish.
  lemma DeliverPending(c: Config, s: State, id: EventId) returns (later: seq<Step>)
    requires Inv(c, s) && id in s.outbox && s.outbox[id].status == PENDING && c.batchSize >= 1
    ensures Delivers(c, s, later, id)
  {
    hide Delivers, Inv;
    var wait := Tick(if s.outbox[id].nextAttemptAt > s.now then s.outbox[id].nextAttemptAt - s.now else 0);
    StepKeepsInv(c, s, wait);
    later := DeliverDue(c, Apply(c, s, wait), id);
    DeliversNext(c, s, wait, later, id);
    later := [wait] + later;
  }

  lemma DeliverMarked(c: Config, s: State, w: WorkerId)
    requires Inv(c, s) && At(s, w, Marking)
    ensures Delivers(c, s, [], Current(s, w).id)
  {
    var id := Current(s, w).id;
    assert JobInv(s, w) && Fresh(s, w, s.workers[w].todo[0]);
    assert CopyCount(s, id);
    assert IsCurrent(s, w, id);
  }

  lemma RecordedIsPending(c: Config, s: State, w: WorkerId)
    requires Ownership(s) && At(s, w, Recording) && Current(s, w).id in s.outbox
    requires CanRetry(c, s.outbox[Current(s, w).id])
    ensures Enabled(c, s, RecordOk(w, 0)) && Smooth(RecordOk(w, 0))
    ensures var s1, id := Apply(c, s, RecordOk(w, 0)), Current(s, w).id;
      id in s1.outbox && s1.outbox[id].status == PENDING
  {
    hide IsSelection;
    assert JobInv(s, w) && Fresh(s, w, s.workers[w].todo[0]);
  }

  lemma DeliverRecorded(c: Config, s: State, w: WorkerId) returns (later: seq<Step>)
    requires Inv(c, s) && At(s, w, Recording) && Current(s, w).id in s.outbox
    requires CanRetry(c, s.outbox[Current(s, w).id])
    ensures Delivers(c, s, later, Current(s, w).id)
  {
    assert Ownership(s);
    hide Inv, Ownership, Delivers, Enabled, Apply, Smooth, CanRetry;
    var id, record := Current(s, w).id, RecordOk(w, 0);
    RecordedIsPending(c, s, w);
    StepKeepsInv(c, s, record);
    later := DeliverPending(c, Apply(c, s, record), id);
    DeliversNext(c, s, record, later, id);
    later := [record] + later;
  }

  // Event id stands at position k of w's batch and still has a way to the queue.
  ghost predicate InLine(c: Config, s: State, w: WorkerId, k: nat, id: EventId) {
    && w in s.workers && k < |s.workers[w].todo| && s.workers[w].todo[k].id == id && id in s.outbox
    && ((k == 0 && s.workers[w].stage == Recording) ==> CanRetry(c, s.outbox[id]))
  }

  lemma DeliverHeld(c: Config, s: State, w: WorkerId, k: nat, id: EventId) returns (later: seq<Step>)
    requires Inv(c, s) && InLine(c, s, w, k, id)
    ensures Delivers(c, s, later, id)
  {
    hide Inv, Delivers, ValidRun, Exec;
    if s.workers[w].stage == Publishing {
      later := DeliverInBatch(c, s, w, k);
    } else if k > 0 {
      var first := FinishCurrent(c, s, w);
      RunKeepsInv(c, s, first);
      AdvanceFacts(s, w);
      var rest := DeliverInBatch(c, Exec(c, s, first), w, k - 1);
      DeliversLater(c, s, first, rest, id);
      later := first + rest;
    } else if s.workers[w].stage == Marking {
      DeliverMarked(c, s, w);
      later := [];
    } else {
      later := DeliverRecorded(c, s, w);
    }
  }

  lemma Delivered(c: Config, s: State, id: EventId) returns (later: seq<Step>)
    requires Inv(c, s) && id in s.outbox && Deliverable(c, s, id)
    ensures Delivers(c, s, later, id)
  {
    if Copies(s.sent, id) > 0 {
      later := [];
    } else if s.outbox[id].status == PENDING {
      later := DeliverPending(c, s, id);
    } else {
      var w := s.outbox[id].claimOwner.value;
      var k :| 0 <= k < |s.workers[w].todo| && s.workers[w].todo[k].id == id;
      later := DeliverHeld(c, s, w, k, id);
    }
  }

  // At-least-once delivery, exactly: from any reachable state an event can still
  // reach the queue if and only if it is Deliverable there.  If it is, a run without
  // any fault and without locks takes it there; if it is not, no run at all does.  An
  // orphan of a crashed worker is not, although its lease runs out: nothing reads
  // lease_until.
  lemma DeliveryExactly(c: Config, steps: seq<Step>, id: EventId)
    requires ValidRun(c, INIT, steps) && id in Exec(c, INIT, steps).outbox
    ensures Deliverable(c, Exec(c, INIT, steps), id) <==> exists later :: Delivers(c, Exec(c, INIT, steps), later, id)
    ensures !Deliverable(c, Exec(c, INIT, steps), id) ==>
      forall later :: ValidRun(c, Exec(c, INIT, steps), later) ==>
        Copies(Exec(c, Exec(c, INIT, steps), later).sent, id) == 0
  {
    ReachableInv(c, steps);
    var s := Exec(c, INIT, steps);
    if Deliverable(c, s, id) {
      var later := Delivered(c, s, id);
    } else {
      forall later | ValidRun(c, s, later) ensures Copies(Exec(c, s, later).sent, id) == 0 {
        NeverDelivered(c, s, later, id);
      }
    }
  }

  // The promise of at-least-once delivery fails: a worker that dies while holding an
  // event that has not been published leaves it CLAIMED and unsent for ever.
  lemma CrashLosesEvent(c: Config, s: State, w: WorkerId, k: nat, later: seq<Step>)
    requires Inv(c, s) && w in s.workers && k < |s.workers[w].todo|
    requires Copies(s.sent, s.workers[w].todo[k].id) == 0
    requires Enabled(c, s, Crash(w)) && ValidRun(c, Apply(c, s, Crash(w)), later)
    ensures var id := s.workers[w].todo[k].id;
      var s' := Exec(c, Apply(c, s, Crash(w)), later);
      id in s'.outbox && s'.outbox[id].status == CLAIMED && Copies(s'.sent, id) == 0
  {
    var id := s.workers[w].todo[k].id;
    assert JobInv(s, w) && Fresh(s, w, s.workers[w].todo[k]);
    StepKeepsInv(c, s, Crash(w));
    NeverClaimedAgain(c, Apply(c, s, Crash(w)), later, id);
  }

  // The event is committed and a worker claims it.
  lemma CreatedAndClaimed(c: Config, id: EventId, content: Content, w: WorkerId) returns (steps: seq<Step>)
    requires c.batchSize >= 1
    ensures ValidRun(c, INIT, steps) && Inv(c, Exec(c, INIT, steps))
    ensures var s := Exec(c, INIT, steps);
      At(s, w, Publishing) && Current(s, w).id == id && Copies(s.sent, id) == 0
  {
    var create := Create(id, content, 0);
    InitInv(c);
    var s1 := Apply(c, INIT, create);
    assert s1.sent == [] && Copies(s1.sent, id) == 0;
    StepKeepsInv(c, INIT, create);
    assert Eligible(s1.outbox, s1.now) == {id};
    var batch := ClaimOldest(c, s1, w);
    assert batch[0] in batch;
    var claim := Claim(w, batch, {});
    StepKeepsInv(c, s1, claim);
    Claimed(c, s1, w, batch);
    Prepend(c, s1, claim, []);
    Prepend(c, INIT, create, [claim] + []);
    steps := [create] + ([claim] + []);
  }

  // Such a run exists for every event and every relay that claims at all: the event is
  // committed, a worker claims it and dies, and nobody ever sends it.
  lemma CrashLosesEventReached(c: Config, id: EventId, content: Content, w: WorkerId) returns (steps: seq<Step>)
    requires c.batchSize >= 1
    ensures ValidRun(c, INIT, steps)
    ensures forall later :: ValidRun(c, Exec(c, INIT, steps), later) ==>
      var s := Exec(c, Exec(c, INIT, steps), later);
      id in s.outbox && s.outbox[id].status == CLAIMED && Copies(s.sent, id) == 0
  {
    hide Inv, Apply, IsSelection, Copies;
    var first := CreatedAndClaimed(c, id, content, w);
    var s := Exec(c, INIT, first);
    Prepend(c, s, Crash(w), []);
    assert [Crash(w)] + [] == [Crash(w)];
    RunAppend(c, INIT, first, [Crash(w)]);
    steps := first + [Crash(w)];
    forall later | ValidRun(c, Apply(c, s, Crash(w)), later)
      ensures var s' := Exec(c, Apply(c, s, Crash(w)), later);
        id in s'.outbox && s'.outbox[id].status == CLAIMED && Copies(s'.sent, id) == 0
    {
      CrashLosesEvent(c, s, w, 0, later);
    }
  }
}

// The relay service itself, as it runs: a flag, a loop over the claimed batch and
// rows written in place, with any other process free to act at every `await`.

module OutboxRelay {
  import opened Messaging
  import opened OutboxProtocol
  import opened OutboxInvariants
  import opened OutboxTheorems

  // ---------------------------------------------------------------- traces

  ghost predicate Ran(c: Config, s: State, trace: seq<Step>, s': State) {
    ValidRun(c, s, trace) && Exec(c, s, trace) == s'
  }

  lemma RanStep(c: Config, s: State, trace: seq<Step>, s1: State, step: Step)
    requires Ran(c, s, trace, s1) && Enabled(c, s1, step)
    ensures Ran(c, s, trace + [step], Apply(c, s1, step))
  {
    hide Enabled, Apply;
    assert [step][1..] == [];
    assert ValidRun(c, s1, [step]) && Exec(c, s1, [step]) == Apply(c, s1, step);
    RunAppend(c, s, trace, [step]);
  }

  lemma RanRun(c: Config, s: State, a: seq<Step>, s1: State, b: seq<Step>, s2: State)
    requires Ran(c, s, a, s1) && Ran(c, s1, b, s2)
    ensures Ran(c, s, a + b, s2)
  {
    RunAppend(c, s, a, b);
  }

  predicate IsOwn(step: Step, self: WorkerId) {
    !step.Create? && !step.Tick? && step.w == self
  }

  // The steps of a trace that worker `self` took, in order.
  function Own(trace: seq<Step>, self: WorkerId): seq<Step> {
    Select((step: Step) => IsOwn(step, self), trace)
  }

  // ---------------------------------------------------------------- interference

  // The part of `wanted` the other processes get to do: their own enabled steps.
  function Admitted(c: Config, s: State, self: WorkerId, wanted: seq<Step>): (steps: seq<Step>)
    ensures ValidRun(c, s, steps) && Own(steps, self) == []
    decreases |wanted|
  {
    if wanted == [] then []
    else if !IsOwn(wanted[0], self) && Enabled(c, s, wanted[0]) then
      var rest := Admitted(c, Apply(c, s, wanted[0]), self, wanted[1..]);
      assert ([wanted[0]] + rest)[1..] == rest;
      [wanted[0]] + rest
    else Admitted(c, s, self, wanted[1..])
  }

  // Other processes never touch this worker's batch.
  lemma {:induction false} OthersKeepJob(c: Config, s: State, self: WorkerId, steps: seq<Step>)
    requires ValidRun(c, s, steps) && Own(steps, self) == []
    ensures var s' := Exec(c, s, steps);
      && (self in s'.workers <==> self in s.workers)
      && (self in s.workers ==> s'.workers[self] == s.workers[self])
    decreases |steps|
  {
    if steps == [] {
    } else {
      assert !IsOwn(steps[0], self);
      OtherKeepsJob(c, s, self, steps[0]);
      OthersKeepJob(c, Apply(c, s, steps[0]), self, steps[1..]);
    }
  }

  lemma OtherKeepsJob(c: Config, s: State, self: WorkerId, step: Step)
    requires Enabled(c, s, step) && !IsOwn(step, self)
    ensures var s' := Apply(c, s, step);
      && (self in s'.workers <==> self in s.workers)
      && (self in s.workers ==> s'.workers[self] == s.workers[self])
  {
    if step.MarkOk? || step.RecordOk? {
      AdvanceFacts(s, step.w);
    }
  }

  // ---------------------------------------------------------------- what becomes of an event

  // Neither the event's row nor its copies have changed.
  ghost predicate Untouched(s: State, s': State, id: EventId) {
    id in s.outbox && id in s'.outbox && s'.outbox[id] == s.outbox[id] && Copies(s'.sent, id) == Copies(s.sent, id)
  }

  ghost predicate AllUntouched(s: State, s': State, events: seq<Event>) {
    forall k :: 0 <= k < |events| ==> Untouched(s, s', events[k].id)
  }

  lemma UntouchedTwice(s: State, s1: State, s2: State, events: seq<Event>)
    requires AllUntouched(s, s1, events) && AllUntouched(s1, s2, events)
    ensures AllUntouched(s, s2, events)
  {
    forall k | 0 <= k < |events| ensures Untouched(s, s2, events[k].id) {
      assert Untouched(s, s1, events[k].id) && Untouched(s1, s2, events[k].id);
    }
  }

  lemma UntouchedRest(s: State, s': State, events: seq<Event>)
    requires events != [] && AllUntouched(s, s', events)
    ensures Untouched(s, s', events[0].id) && AllUntouched(s, s', events[1..])
  {
  }

  // A step leaves the events of all other workers' batches alone.
  lemma OtherKeepsEvent(c: Config, s: State, self: WorkerId, step: Step, k: nat)
    requires Ownership(s) && Enabled(c, s, step) && !IsOwn(step, self)
    requires self in s.workers && k < |s.workers[self].todo|
    ensures Untouched(s, Apply(c, s, step), s.workers[self].todo[k].id)
  {
    var s', id := Apply(c, s, step), s.workers[self].todo[k].id;
    assert JobInv(s, self) && Fresh(s, self, s.workers[self].todo[k]);
    if IsWork(step) {
      OtherWorkKeepsEvent(c, s, self, step, id);
    } else if step.Claim? {
      assert id !in Eligible(s.outbox, s.now);
      assert id !in step.batch;
    } else {
      hide IsSelection, JobInv;
    }
  }

  lemma OtherWorkKeepsEvent(c: Config, s: State, self: WorkerId, step: Step, id: EventId)
    requires Ownership(s) && Enabled(c, s, step) && IsWork(step) && step.w != self
    requires id in s.outbox && s.outbox[id].claimOwner == Some(self)
    ensures Untouched(s, Apply(c, s, step), id)
  {
    var s' := Apply(c, s, step);
    assert step.w in s.workers by { hide IsSelection; }
    assert JobInv(s, step.w) && Fresh(s, step.w, s.workers[step.w].todo[0]);
    OtherRowsStay(c, s, step, id);
    hide IsSelection, Ownership, JobInv, Fresh;
    if s'.sent != s.sent {
      CopiesAppend(s.sent, s'.sent[|s.sent|], id);
    }
  }

  lemma {:induction false} OthersKeepEvents(c: Config, s: State, self: WorkerId, steps: seq<Step>)
    requires Ownership(s) && ValidRun(c, s, steps) && Own(steps, self) == [] && self in s.workers
    ensures AllUntouched(s, Exec(c, s, steps), s.workers[self].todo)
    decreases |steps|
  {
    if steps == [] {
      assert JobInv(s, self);
      forall k | 0 <= k < |s.workers[self].todo| ensures Untouched(s, s, s.workers[self].todo[k].id) {
        assert Fresh(s, self, s.workers[self].todo[k]);
      }
    } else {
      assert !IsOwn(steps[0], self);
      var s1 := Apply(c, s, steps[0]);
      forall k | 0 <= k < |s.workers[self].todo| ensures Untouched(s, s1, s.workers[self].todo[k].id) {
        OtherKeepsEvent(c, s, self, steps[0], k);
      }
      OwnershipKept(c, s, steps[0]);
      OtherKeepsJob(c, s, self, steps[0]);
      hide Apply, Enabled, Ownership, Untouched;
      OthersKeepEvents(c, s1, self, steps[1..]);
      UntouchedTwice(s, s1, Exec(c, s1, steps[1..]), s.workers[self].todo);
    }
  }

  // A worker's own step concerns the current event of its batch only.
  lemma OwnKeepsRest(c: Config, s: State, self: WorkerId, step: Step)
    requires Inv(c, s) && Enabled(c, s, step) && IsWork(step) && step.w == self && self in s.workers
    ensures s.workers[self].todo != [] && AllUntouched(s, Apply(c, s, step), s.workers[self].todo[1..])
  {
    var s', todo := Apply(c, s, step), s.workers[self].todo;
    assert JobInv(s, self);
    forall k | 0 <= k < |todo[1..]| ensures Untouched(s, s', todo[1..][k].id) {
      assert todo[1..][k] == todo[k + 1] && Fresh(s, self, todo[k + 1]);
      OtherRowsStay(c, s, step, todo[k + 1].id);
      OtherCopiesStay(c, s, step, todo[k + 1].id);
    }
  }

  lemma OtherCopiesStay(c: Config, s: State, step: Step, id: EventId)
    requires Enabled(c, s, step) && IsWork(step) && step.w in s.workers && s.workers[step.w].todo != []
    requires Current(s, step.w).id != id
    ensures Copies(Apply(c, s, step).sent, id) == Copies(s.sent, id)
  {
    hide IsSelection;
    var s' := Apply(c, s, step);
    if s'.sent != s.sent {
      CopiesAppend(s.sent, s'.sent[|s.sent|], id);
    }
  }

  // ---------------------------------------------------------------- what the outside world answers

  datatype PublishOutcome = Accepted(messageId: string) | Refused(enqueued: Option<string>)

  // The answers to one relayEvent call, and what the others do before each of its calls.
  datatype EventIo = EventIo(
    publish: PublishOutcome,
    markFails: bool,
    recordFails: bool,
    jitter: Jitter,
    beforePublish: seq<Step>,
    beforeMark: seq<Step>,
    beforeRecord: seq<Step>)

  datatype CycleIo = CycleIo(claimFails: bool, locked: set<EventId>, before: seq<Step>, events: nat -> EventIo)

  // ---------------------------------------------------------------- the program, as steps

  predicate Caught(io: EventIo) { io.publish.Refused? || io.markFails }

  predicate Throws(io: EventIo) { Caught(io) && io.recordFails }

  function PublishStep(self: WorkerId, outcome: PublishOutcome): Step {
    match outcome
    case Accepted(id) => PublishOk(self, id)
    case Refused(enqueued) => PublishError(self, enqueued)
  }

  // What one relayEvent does, given its answers.
  function EventProgram(self: WorkerId, io: EventIo): seq<Step> {
    (match io.publish
     case Accepted(id) => [PublishOk(self, id), if io.markFails then MarkError(self) else MarkOk(self)]
     case Refused(enqueued) => [PublishError(self, enqueued)])
    + (if !Caught(io) then [] else [if io.recordFails then RecordError(self) else RecordOk(self, io.jitter)])
  }

  lemma ProgramParts(self: WorkerId, io: EventIo)
    ensures
      var publish := [PublishStep(self, io.publish)];
      var mark := [if io.markFails then MarkError(self) else MarkOk(self)];
      var record := [if io.recordFails then RecordError(self) else RecordOk(self, io.jitter)];
      EventProgram(self, io) ==
        if io.publish.Refused? then publish + record
        else if io.markFails then (publish + mark) + record
        else publish + mark
  {
  }

  // The loop over the batch from event i on: it stops at the first event that throws.
  function BatchProgram(self: WorkerId, i: nat, n: nat, events: nat -> EventIo): seq<Step>
    decreases n - i
  {
    if i >= n then []
    else EventProgram(self, events(i)) + (if Throws(events(i)) then [] else BatchProgram(self, i + 1, n, events))
  }

  // One turn of the loop, seen from what has been done so far.
  lemma ProgramStep(self: WorkerId, own: seq<Step>, i: nat, n: nat, events: nat -> EventIo)
    requires i < n
    ensures Throws(events(i)) ==> own + BatchProgram(self, i, n, events) == own + EventProgram(self, events(i))
    ensures !Throws(events(i)) ==>
      own + BatchProgram(self, i, n, events)
        == (own + EventProgram(self, events(i))) + BatchProgram(self, i + 1, n, events)
  {
  }

  lemma ProgramEnd(self: WorkerId, n: nat, events: nat -> EventIo)
    ensures BatchProgram(self, n, n, events) == []
  {
  }

  // A cycle whose transaction fails (a negative LIMIT fails too) claims nothing.
  function CycleProgram(c: Config, self: WorkerId, batch: seq<EventId>, io: CycleIo): seq<Step> {
    if io.claimFails || c.batchSize < 0 then [ClaimError(self)]
    else if batch == [] then [ClaimNothing(self, io.locked)]
    else [Claim(self, batch, io.locked)] + BatchProgram(self, 0, |batch|, io.events)
  }

  // ---------------------------------------------------------------- what a relayed event comes to

  // The queue took the message, whatever the call reported.
  predicate Taken(io: EventIo) { io.publish.Accepted? || io.publish.enqueued.Some? }

  // From s to s' the event was relayed with these answers: its copy is out if the queue
  // took it, and its row says PUBLISHED; or counts one more attempt and waits for the
  // next, or gives up; or, if not even that could be written, is CLAIMED as before.
  ghost predicate Relayed(c: Config, s: State, s': State, e: Event, io: EventIo) {
    && e.id in s.outbox && e.id in s'.outbox
    && Copies(s'.sent, e.id) == Copies(s.sent, e.id) + (if Taken(io) then 1 else 0)
    && var row, row' := s.outbox[e.id], s'.outbox[e.id];
       if io.publish.Accepted? && !io.markFails then row' == row.(status := PUBLISHED)
       else if io.recordFails then row' == row
       else
         && row'.attemptCount == e.attemptCount + 1
         && row'.status == (if e.attemptCount + 1 >= c.maxAttempts then FAILED else PENDING)
         && row' == row.(attemptCount := row'.attemptCount, status := row'.status, nextAttemptAt := row'.nextAttemptAt)
         && var n := e.attemptCount + 1;
            var delay := io.jitter + if n >= 5 then 60000 else [0, 4000, 8000, 16000, 32000][n];
            s.now + delay <= row'.nextAttemptAt <= s'.now + delay
  }

  // What can be said of a relayed event for ever after, unless its last write failed.
  ghost predicate Lasting(c: Config, s: State, e: Event, io: EventIo) {
    && e.id in s.outbox
    && (Taken(io) ==> Copies(s.sent, e.id) >= 1)
    && (if io.publish.Accepted? && !io.markFails
        then s.outbox[e.id].status == PUBLISHED && s.outbox[e.id].attemptCount == e.attemptCount
        else
          && s.outbox[e.id].attemptCount >= e.attemptCount + 1
          && (e.attemptCount + 1 >= c.maxAttempts ==>
                s.outbox[e.id].status == FAILED && s.outbox[e.id].attemptCount == e.attemptCount + 1))
  }

  // The event is still CLAIMED, with the attempts it had when it was claimed.
  ghost predicate StillClaimed(s: State, e: Event) {
    e.id in s.outbox && s.outbox[e.id].status == CLAIMED && s.outbox[e.id].attemptCount == e.attemptCount
  }

  // The event's copy is out if the queue took it, and its row is as before.
  ghost predicate Out(s: State, s1: State, e: Event, io: EventIo) {
    && e.id in s.outbox && e.id in s1.outbox && s1.outbox[e.id] == s.outbox[e.id] && s1.now >= s.now
    && Copies(s1.sent, e.id) == Copies(s.sent, e.id) + (if Taken(io) then 1 else 0)
  }

  lemma OutAfterMark(s: State, s1: State, s2: State, e: Event, io: EventIo)
    requires Out(s, s1, e, io) && e.id in s2.outbox && s2.outbox[e.id] == s1.outbox[e.id] && s2.now >= s1.now
    requires Copies(s2.sent, e.id) == Copies(s1.sent, e.id)
    ensures Out(s, s2, e, io)
  {
    hide Copies;
  }

  lemma RelayedByMark(c: Config, s: State, s1: State, s2: State, e: Event, io: EventIo)
    requires Out(s, s1, e, io) && io.publish.Accepted? && !io.markFails
    requires e.id in s2.outbox && s2.outbox[e.id] == s1.outbox[e.id].(status := PUBLISHED)
    requires Copies(s2.sent, e.id) == Copies(s1.sent, e.id)
    ensures Relayed(c, s, s2, e, io)
  {
    hide Copies;
  }

  // The failure caught at s1 was written, unless the write failed too.
  ghost predicate Recorded(c: Config, s1: State, s2: State, e: Event, io: EventIo) {
    && e.id in s1.outbox && e.id in s2.outbox && s2.now >= s1.now
    && Copies(s2.sent, e.id) == Copies(s1.sent, e.id)
    && var n := e.attemptCount + 1;
       s2.outbox[e.id] ==
         if io.recordFails then s1.outbox[e.id]
         else s1.outbox[e.id].(
           attemptCount := n,
           status := if n >= c.maxAttempts then FAILED else PENDING,
           nextAttemptAt := s1.now + io.jitter + if n >= 5 then 60000 else [0, 4000, 8000, 16000, 32000][n])
  }

  lemma RelayedByRecord(c: Config, s: State, s1: State, s2: State, e: Event, io: EventIo)
    requires Out(s, s1, e, io) && (io.publish.Refused? || io.markFails)
    requires Recorded(c, s1, s2, e, io)
    ensures Relayed(c, s, s2, e, io)
  {
    hide Copies;
  }

  // The first `done` events of the batch were relayed.  If that is not all of it, the
  // next one failed and could not be recorded, and from there on the batch is CLAIMED.
  ghost predicate BatchRelayed(c: Config, s: State, claimed: seq<Event>, events: nat -> EventIo, done: nat) {
    && done <= |claimed|
    && (forall k :: 0 <= k < done ==>
          ((events(k).publish.Accepted? && !events(k).markFails) || !events(k).recordFails)
          && Lasting(c, s, claimed[k], events(k)))
    && (done < |claimed| ==> (events(done).publish.Refused? || events(done).markFails) && events(done).recordFails)
    && (forall k :: done <= k < |claimed| ==> StillClaimed(s, claimed[k]))
  }

  lemma StepKeepsGrowth(c: Config, s: State, step: Step, id: EventId)
    requires Inv(c, s) && Enabled(c, s, step) && id in s.outbox
    ensures var s' := Apply(c, s, step);
      id in s'.outbox && s'.outbox[id].attemptCount >= s.outbox[id].attemptCount
      && Copies(s'.sent, id) >= Copies(s.sent, id)
  {
    StepKeepsAttempts(c, s, step, id);
    StepSendsOne(c, s, step);
    hide Inv, Enabled, Apply;
    var s' := Apply(c, s, step);
    if s'.sent != s.sent {
      CopiesAppend(s.sent, s'.sent[|s.sent|], id);
    }
  }

  lemma StepSendsOne(c: Config, s: State, step: Step)
    requires Enabled(c, s, step)
    ensures var sent := Apply(c, s, step).sent;
      sent == s.sent || (|sent| == |s.sent| + 1 && sent == s.sent + [sent[|s.sent|]])
  {
    hide IsSelection;
  }

  lemma StepKeepsAttempts(c: Config, s: State, step: Step, id: EventId)
    requires Inv(c, s) && Enabled(c, s, step) && id in s.outbox
    ensures id in Apply(c, s, step).outbox
    ensures Apply(c, s, step).outbox[id].attemptCount >= s.outbox[id].attemptCount
  {
    if step.RecordOk? {
      hide IsSelection;
      assert JobInv(s, step.w) && Fresh(s, step.w, s.workers[step.w].todo[0]);
      hide Inv, JobInv, Fresh;
    } else {
      hide IsSelection, Inv;
    }
  }

  lemma {:induction false} RunKeepsGrowth(c: Config, s: State, steps: seq<Step>, id: EventId)
    requires Inv(c, s) && ValidRun(c, s, steps) && id in s.outbox
    ensures var s' := Exec(c, s, steps);
      id in s'.outbox && s'.outbox[id].attemptCount >= s.outbox[id].attemptCount
      && Copies(s'.sent, id) >= Copies(s.sent, id)
    decreases |steps|
  {
    hide Inv, Apply, Enabled, Copies;
    if steps == [] {
    } else {
      StepKeepsGrowth(c, s, steps[0], id);
      StepKeepsInv(c, s, steps[0]);
      RunKeepsGrowth(c, Apply(c, s, steps[0]), steps[1..], id);
    }
  }

  lemma LastingStays(c: Config, s: State, trace: seq<Step>, s': State, e: Event, io: EventIo)
    requires Inv(c, s) && Ran(c, s, trace, s') && Lasting(c, s, e, io)
    ensures Lasting(c, s', e, io)
  {
    RunKeepsGrowth(c, s, trace, e.id);
    if s.outbox[e.id].status in {PUBLISHED, FAILED} {
      assert Retired(s, e.id);
      NeverClaimedAgain(c, s, trace, e.id);
    }
  }

  ghost predicate SoFar(c: Config, s: State, claimed: seq<Event>, events: nat -> EventIo, i: nat) {
    && i <= |claimed|
    && forall k :: 0 <= k < i ==>
         ((events(k).publish.Accepted? && !events(k).markFails) || !events(k).recordFails)
         && Lasting(c, s, claimed[k], events(k))
  }

  // One turn of the loop over the batch.
  lemma BatchStep(c: Config, s: State, s1: State, more: seq<Step>, s2: State, claimed: seq<Event>,
                  events: nat -> EventIo, i: nat)
    requires i < |claimed| && Inv(c, s1) && Ran(c, s1, more, s2) && SoFar(c, s1, claimed, events, i)
    requires AllUntouched(s, s1, claimed[i..]) && AllUntouched(s1, s2, claimed[i + 1..])
    requires Relayed(c, s1, s2, claimed[i], events(i))
    requires forall k :: 0 <= k < |claimed| ==> StillClaimed(s, claimed[k])
    ensures AllUntouched(s, s2, claimed[i + 1..])
    ensures if (events(i).publish.Accepted? && !events(i).markFails) || !events(i).recordFails
            then SoFar(c, s2, claimed, events, i + 1)
            else BatchRelayed(c, s2, claimed, events, i)
  {
    assert Untouched(s, s1, claimed[i..][0].id);
    assert StillClaimed(s, claimed[i]);
    RelayedLasts(c, s1, s2, claimed[i], events(i));
    hide Inv, Ran, Relayed, Lasting, Copies;
    UntouchedRest(s, s1, claimed[i..]);
    assert claimed[i..][1..] == claimed[i + 1..];
    UntouchedTwice(s, s1, s2, claimed[i + 1..]);
    forall k | 0 <= k < i ensures Lasting(c, s2, claimed[k], events(k)) {
      LastingStays(c, s1, more, s2, claimed[k], events(k));
    }
    forall k | i < k < |claimed| ensures StillClaimed(s2, claimed[k]) {
      assert claimed[i + 1..][k - i - 1] == claimed[k];
      assert Untouched(s, s2, claimed[i + 1..][k - i - 1].id) && StillClaimed(s, claimed[k]);
    }
  }

  lemma BatchComplete(c: Config, s: State, claimed: seq<Event>, events: nat -> EventIo)
    requires SoFar(c, s, claimed, events, |claimed|)
    ensures BatchRelayed(c, s, claimed, events, |claimed|)
  {
  }

  // A relayed event lasts, or is still CLAIMED.
  lemma RelayedLasts(c: Config, s: State, s': State, e: Event, io: EventIo)
    requires Relayed(c, s, s', e, io) && StillClaimed(s, e)
    ensures if (io.publish.Accepted? && !io.markFails) || !io.recordFails then Lasting(c, s', e, io)
            else StillClaimed(s', e)
  {
  }

  // ---------------------------------------------------------------- the shared world

  // The outbox table, the queue, and what every process is doing with them.
  class Cluster {
    const cfg: Config
    var outbox: map<EventId, Row>
    var sent: seq<Envelope>
    var workers: map<WorkerId, Job>
    var now: int
    var claimedAt: map<EventId, seq<int>>
    var unrecorded: map<EventId, nat>

    function View(): State
      reads this
    {
      State(outbox, sent, workers, now, claimedAt, unrecorded)
    }

    constructor (cfg: Config)
      ensures this.cfg == cfg && View() == INIT && Inv(cfg, View())
    {
      this.cfg := cfg;
      outbox, sent, workers, now, claimedAt, unrecorded := map[], [], map[], 0, map[], map[];
    }

    // Everything the other processes do while `self` waits.
    method Yield(self: WorkerId, wanted: seq<Step>) returns (ghost steps: seq<Step>)
      requires Inv(cfg, View())
      modifies this
      ensures Ran(cfg, old(View()), steps, View()) && Own(steps, self) == [] && Inv(cfg, View())
      ensures self in workers <==> old(self in workers)
      ensures self in workers ==> workers[self] == old(workers)[self]
      ensures self in workers ==> AllUntouched(old(View()), View(), workers[self].todo)
      ensures View() == Exec(cfg, old(View()), Admitted(cfg, old(View()), self, wanted)) && now >= old(now)
    {
      steps := Admitted(cfg, View(), self, wanted);
      OthersKeepJob(cfg, View(), self, steps);
      if self in workers {
        OthersKeepEvents(cfg, View(), self, steps);
      }
      ClockRuns(cfg, View(), steps);
      RunKeepsInv(cfg, View(), steps);
      var s := Exec(cfg, View(), Admitted(cfg, View(), self, wanted));
      outbox, sent, workers := s.outbox, s.sent, s.workers;
      now, claimedAt, unrecorded := s.now, s.claimedAt, s.unrecorded;
    }

    // SELECT id .. ORDER BY created_at ASC LIMIT n FOR UPDATE SKIP LOCKED.
    method SelectForUpdate(locked: set<EventId>) returns (batch: seq<EventId>)
      requires cfg.batchSize >= 0
      ensures IsSelection(cfg, outbox, now, locked, batch)
    {
      var candidates := Eligible(outbox, now) - locked;
      var rest := candidates;
      batch := [];
      while |batch| < cfg.batchSize && rest != {}
        invariant rest <= candidates && |batch| + |rest| == |candidates| && |batch| <= cfg.batchSize
        invariant Distinct(batch)
        invariant forall id :: id in candidates ==> (id in rest <==> id !in batch)
        invariant forall id :: id in batch ==> id in candidates
        invariant forall id, left :: id in batch && left in rest ==> outbox[id].createdAt <= outbox[left].createdAt
        decreases |rest|
      {
        ghost var first := Oldest(outbox, rest);
        var oldest :| oldest in rest && forall id :: id in rest ==> outbox[oldest].createdAt <= outbox[id].createdAt;
        batch := batch + [oldest];
        rest := rest - {oldest};
      }
    }
  }

  // ---------------------------------------------------------------- the service

  // The rows a claim may take: PENDING, due, and not locked by another transaction.
  function Free(s: State, locked: set<EventId>): set<EventId> {
    set id | id in s.outbox && s.outbox[id].status == PENDING && s.outbox[id].nextAttemptAt <= s.now && id !in locked
  }

  // `claimed` are min(batchSize, free) distinct free rows, as they stood, and no older
  // free row is left.
  ghost predicate TookOldestDue(c: Config, s: State, locked: set<EventId>, claimed: seq<Event>) {
    var free := Free(s, locked);
    && |claimed| == (if c.batchSize <= |free| then c.batchSize else |free|)
    && (forall i :: 0 <= i < |claimed| ==>
          var id := claimed[i].id;
          id in free && claimed[i] == Event(id, s.outbox[id].attemptCount, s.outbox[id].content))
    && (forall i, j :: 0 <= i < j < |claimed| ==> claimed[i].id != claimed[j].id)
    && (forall i, left :: 0 <= i < |claimed| && left in free && left !in Ids(claimed) ==>
          s.outbox[claimed[i].id].createdAt <= s.outbox[left].createdAt)
  }

  // The claimed rows are CLAIMED by `self` for a minute; every other row, and the queue,
  // are as before.
  ghost predicate Leased(s: State, s': State, self: WorkerId, claimed: seq<Event>) {
    && s'.outbox.Keys == s.outbox.Keys && s'.sent == s.sent && s'.now == s.now
    && forall id :: id in s.outbox ==>
         var row := s.outbox[id];
         s'.outbox[id] ==
           if id in Ids(claimed)
           then Row(row.content, row.createdAt, CLAIMED, row.attemptCount, row.nextAttemptAt,
                    Some(self), Some(s.now + 60000))
           else row
  }

  lemma SelectionTakesOldestDue(c: Config, s: State, locked: set<EventId>, ids: seq<EventId>)
    requires IsSelection(c, s.outbox, s.now, locked, ids)
    ensures forall id :: id in ids ==> id in s.outbox
    ensures TookOldestDue(c, s, locked, Snapshot(s.outbox, ids)) && Ids(Snapshot(s.outbox, ids)) == ids
    ensures ids == [] ==> Snapshot(s.outbox, ids) == []
  {
    assert Free(s, locked) == Eligible(s.outbox, s.now) - locked;
    forall i | 0 <= i < |ids| ensures ids[i] in Free(s, locked) {
      assert ids[i] in ids;
    }
    assert Ids(Snapshot(s.outbox, ids)) == ids;
  }

  lemma EmptyLease(s: State, self: WorkerId)
    ensures Leased(s, s, self, [])
  {
  }

  lemma UpdateLeases(s: State, s': State, self: WorkerId, ids: seq<EventId>, claimed: seq<Event>)
    requires Ids(claimed) == ids && s'.outbox == ClaimRows(s.outbox, IdSet(ids), self, s.now) && s'.sent == s.sent
    requires s'.now == s.now
    ensures Leased(s, s', self, claimed)
  {
  }

  lemma {:induction false} ClockRuns(c: Config, s: State, steps: seq<Step>)
    requires ValidRun(c, s, steps)
    ensures Exec(c, s, steps).now >= s.now
    decreases |steps|
  {
    if steps == [] {
    } else {
      ClockRuns(c, Apply(c, s, steps[0]), steps[1..]);
    }
  }

  // A worker holding `todo`, ready to publish its first event.
  ghost predicate Ready(s: State, self: WorkerId, todo: seq<Event>) {
    if todo == [] then self !in s.workers
    else self in s.workers && s.workers[self].todo == todo && s.workers[self].stage == Publishing
  }

  // Worker `self` is at `stage` with `event`, whose row can be written.
  ghost predicate OnCurrent(s: State, self: WorkerId, stage: Stage, event: Event) {
    At(s, self, stage) && Current(s, self) == event && Writable(s, self)
  }

  lemma InvOnCurrent(c: Config, s: State, self: WorkerId)
    requires Inv(c, s) && self in s.workers
    ensures s.workers[self].todo != [] && OnCurrent(s, self, s.workers[self].stage, Current(s, self))
  {
    assert JobInv(s, self) && Fresh(s, self, s.workers[self].todo[0]);
  }

  lemma InvTracksClaims(c: Config, s: State)
    requires Inv(c, s)
    ensures s.claimedAt.Keys == s.outbox.Keys
  {
  }

  lemma HeldIsClaimed(c: Config, s: State, self: WorkerId, claimed: seq<Event>)
    requires Inv(c, s) && Ready(s, self, claimed)
    ensures forall k :: 0 <= k < |claimed| ==> StillClaimed(s, claimed[k])
  {
    if claimed != [] {
      assert JobInv(s, self);
      forall k | 0 <= k < |claimed| ensures StillClaimed(s, claimed[k]) {
        assert Fresh(s, self, s.workers[self].todo[k]);
      }
    }
  }

  lemma NothingHappened(s: State, claimed: seq<Event>)
    requires forall k :: 0 <= k < |claimed| ==> StillClaimed(s, claimed[k])
    ensures AllUntouched(s, s, claimed[0..])
  {
    forall k | 0 <= k < |claimed[0..]| ensures Untouched(s, s, claimed[0..][k].id) {
      assert StillClaimed(s, claimed[k]);
    }
  }

  ghost predicate SameRow(s: State, s': State, id: EventId) {
    id in s.outbox && id in s'.outbox && s'.outbox[id] == s.outbox[id]
  }

  // Over one call, the others' steps before it included, the rest of the batch stays.
  lemma AwaitedRest(c: Config, s: State, s1: State, step: Step, self: WorkerId)
    requires Inv(c, s1) && Enabled(c, s1, step) && IsWork(step) && step.w == self
    requires self in s.workers && self in s1.workers && s1.workers[self] == s.workers[self]
    requires AllUntouched(s, s1, s.workers[self].todo)
    ensures var todo := s.workers[self].todo;
      && todo != [] && AllUntouched(s, Apply(c, s1, step), todo[1..])
      && SameRow(s, s1, todo[0].id) && Copies(s1.sent, todo[0].id) == Copies(s.sent, todo[0].id)
  {
    hide Inv, Apply, Enabled, Copies;
    var todo := s.workers[self].todo;
    OwnKeepsRest(c, s1, self, step);
    UntouchedRest(s, s1, todo);
    UntouchedTwice(s, s1, Apply(c, s1, step), todo[1..]);
  }

  lemma PublishedCopies(s: State, s1: State, s2: State, event: Event, io: EventIo)
    requires Copies(s1.sent, event.id) == Copies(s.sent, event.id)
    requires
      var body := Body(event.id, event.content.kind, "", event.content.tenantId, event.content.adviceId);
      s2.sent == s1.sent +
        match io.publish
        case Accepted(messageId) => [Envelope(messageId, body)]
        case Refused(None) => []
        case Refused(Some(messageId)) => [Envelope(messageId, body)]
    ensures Copies(s2.sent, event.id) == Copies(s.sent, event.id) + (if Taken(io) then 1 else 0)
  {
    if Taken(io) {
      CopiesAppend(s1.sent, s2.sent[|s1.sent|], event.id);
    } else {
      assert s2.sent == s1.sent;
    }
  }

  // The table as a cycle finds it, after what the others do before its transaction.
  ghost function AtClaim(c: Config, s: State, self: WorkerId, io: CycleIo): State {
    Exec(c, s, Admitted(c, s, self, io.before))
  }

  lemma BatchOfNone(c: Config, s: State, events: nat -> EventIo)
    ensures BatchRelayed(c, s, [], events, 0)
  {
  }

  class OutboxRelayService {
    const self: WorkerId
    const cluster: Cluster
    var processing: bool

    constructor (self: WorkerId, cluster: Cluster)
      ensures this.self == self && this.cluster == cluster && !processing
    {
      this.self, this.cluster, processing := self, cluster, false;
    }

    // UPDATE outbox_events SET status = 'CLAIMED' .. WHERE id = ANY(ids), then the rows
    // are read back.
    method LeaseRows(ids: seq<EventId>) returns (claimed: seq<Event>)
      requires forall id :: id in ids ==> id in cluster.outbox
      modifies cluster
      ensures claimed == Snapshot(old(cluster.outbox), ids)
      ensures cluster.View() == old(cluster.View()).(
        outbox := ClaimRows(old(cluster.outbox), IdSet(ids), self, old(cluster.now)),
        workers := old(cluster.workers)[self := Job(claimed, Publishing, old(cluster.now))],
        claimedAt := map id | id in old(cluster.claimedAt) ::
          if id in ids then old(cluster.claimedAt)[id] + [old(cluster.now)] else old(cluster.claimedAt)[id])
    {
      claimed := Snapshot(cluster.outbox, ids);
      cluster.outbox := ClaimRows(cluster.outbox, IdSet(ids), self, cluster.now);
      cluster.claimedAt := map id | id in cluster.claimedAt ::
        if id in ids then cluster.claimedAt[id] + [cluster.now] else cluster.claimedAt[id];
      cluster.workers := cluster.workers[self := Job(claimed, Publishing, cluster.now)];
    }

    // The batch transaction: select, mark CLAIMED, read the rows back, commit.  It takes
    // exactly min(batchSize, free) distinct free rows, none while an older free one is
    // left, leases them to this worker for a minute and touches nothing else; the
    // worker gets them as they stood.
    method ClaimBatch(locked: set<EventId>) returns (claimed: seq<Event>, ghost step: Step)
      requires cluster.claimedAt.Keys == cluster.outbox.Keys && cluster.cfg.batchSize >= 0 && self !in cluster.workers
      modifies cluster
      ensures Enabled(cluster.cfg, old(cluster.View()), step)
      ensures cluster.View() == Apply(cluster.cfg, old(cluster.View()), step)
      ensures if claimed == [] then step == ClaimNothing(self, locked)
              else step == Claim(self, Ids(claimed), locked) && Ready(cluster.View(), self, claimed)
      ensures TookOldestDue(cluster.cfg, old(cluster.View()), locked, claimed)
      ensures Leased(old(cluster.View()), cluster.View(), self, claimed)
    {
      hide IsSelection, TookOldestDue, Leased, ClaimRows, Snapshot, IdSet;
      ghost var s := cluster.View();
      var ids := cluster.SelectForUpdate(locked);
      SelectionTakesOldestDue(cluster.cfg, s, locked, ids);
      if ids == [] {
        claimed, step := [], ClaimNothing(self, locked);
        EmptyLease(s, self);
        return;
      }
      step := Claim(self, ids, locked);
      claimed := LeaseRows(ids);
      UpdateLeases(s, cluster.View(), self, ids, claimed);
    }

    // messageQueue.publish
    method Publish(event: Event, outcome: PublishOutcome) returns (ok: bool, ghost step: Step)
      requires OnCurrent(cluster.View(), self, Publishing, event)
      modifies cluster
      ensures step == PublishStep(self, outcome)
      ensures Enabled(cluster.cfg, old(cluster.View()), step)
      ensures cluster.View() == Apply(cluster.cfg, old(cluster.View()), step)
      ensures ok == outcome.Accepted? && cluster.outbox == old(cluster.outbox) && cluster.now == old(cluster.now)
      ensures
        var body := Body(event.id, event.content.kind, "", event.content.tenantId, event.content.adviceId);
        cluster.sent == old(cluster.sent) +
          match outcome
          case Accepted(messageId) => [Envelope(messageId, body)]
          case Refused(None) => []
          case Refused(Some(messageId)) => [Envelope(messageId, body)]
      ensures self in cluster.workers
      ensures cluster.workers[self].todo == old(cluster.workers)[self].todo
      ensures cluster.workers[self].since == cluster.now
    {
      ok := outcome.Accepted?;
      step := PublishStep(self, outcome);
      var body := BodyOf(event.id, event.content);
      match outcome {
        case Accepted(messageId) => cluster.sent := cluster.sent + [Envelope(messageId, body)];
        case Refused(None) =>
        case Refused(Some(messageId)) =>
          cluster.sent := cluster.sent + [Envelope(messageId, body)];
          cluster.unrecorded := cluster.unrecorded[event.id := cluster.unrecorded[event.id] + 1];
      }
      cluster.workers := cluster.workers[self :=
        cluster.workers[self].(stage := if ok then Marking else Recording, since := cluster.now)];
    }

    // outboxRepo.update(event.id, { status: 'PUBLISHED', .. })
    method MarkPublished(event: Event, fails: bool) returns (ok: bool, ghost step: Step)
      requires OnCurrent(cluster.View(), self, Marking, event)
      modifies cluster
      ensures step == (if fails then MarkError(self) else MarkOk(self)) && ok == !fails
      ensures Enabled(cluster.cfg, old(cluster.View()), step)
      ensures cluster.View() == Apply(cluster.cfg, old(cluster.View()), step)
      ensures ok ==> Ready(cluster.View(), self, old(cluster.workers)[self].todo[1..])
      ensures cluster.sent == old(cluster.sent) && cluster.now == old(cluster.now)
      ensures cluster.outbox ==
        if ok then old(cluster.outbox)[event.id := old(cluster.outbox)[event.id].(status := PUBLISHED)]
        else old(cluster.outbox)
      ensures !ok ==> self in cluster.workers
      ensures !ok ==>
        cluster.workers[self].todo == old(cluster.workers)[self].todo && cluster.workers[self].since == cluster.now
    {
      AdvanceFacts(cluster.View(), self);
      ok := !fails;
      if ok {
        step := MarkOk(self);
        cluster.outbox := cluster.outbox[event.id := cluster.outbox[event.id].(status := PUBLISHED)];
        cluster.workers := Advance(cluster.View(), self);
      } else {
        step := MarkError(self);
        cluster.unrecorded := cluster.unrecorded[event.id := cluster.unrecorded[event.id] + 1];
        cluster.workers := cluster.workers[self := cluster.workers[self].(stage := Recording, since := cluster.now)];
      }
    }

    // The catch block: count the attempt and decide between PENDING and FAILED.
    method RecordFailure(event: Event, caughtAt: int, fails: bool, jitter: Jitter)
      returns (thrown: bool, ghost step: Step)
      requires OnCurrent(cluster.View(), self, Recording, event) && caughtAt == cluster.workers[self].since
      modifies cluster
      ensures step == (if fails then RecordError(self) else RecordOk(self, jitter)) && thrown == fails
      ensures Enabled(cluster.cfg, old(cluster.View()), step)
      ensures cluster.View() == Apply(cluster.cfg, old(cluster.View()), step)
      ensures thrown ==> self !in cluster.workers
      ensures !thrown ==> Ready(cluster.View(), self, old(cluster.workers)[self].todo[1..])
      ensures cluster.sent == old(cluster.sent) && cluster.now == old(cluster.now)
      ensures thrown ==> cluster.outbox == old(cluster.outbox)
      ensures !thrown ==>
        var n := event.attemptCount + 1;
        cluster.outbox == old(cluster.outbox)[event.id := old(cluster.outbox)[event.id].(
          attemptCount := n,
          status := if n >= cluster.cfg.maxAttempts then FAILED else PENDING,
          nextAttemptAt := caughtAt + jitter + if n >= 5 then 60000 else [0, 4000, 8000, 16000, 32000][n])]
    {
      AdvanceFacts(cluster.View(), self);
      DelayTable(event.attemptCount + 1);
      var nextAttempt := event.attemptCount + 1;
      var status := if nextAttempt >= cluster.cfg.maxAttempts then FAILED else PENDING;
      var nextAttemptAt := caughtAt + Min(MAX_DELAY_MS, BASE_DELAY_MS * Pow2(nextAttempt)) + jitter;
      thrown := fails;
      if thrown {
        step := RecordError(self);
        cluster.workers := cluster.workers - {self};
      } else {
        step := RecordOk(self, jitter);
        cluster.outbox := cluster.outbox[event.id :=
          cluster.outbox[event.id].(attemptCount := nextAttempt, status := status, nextAttemptAt := nextAttemptAt)];
        cluster.workers := Advance(cluster.View(), self);
      }
    }

    method AwaitPublish(event: Event, io: EventIo) returns (ok: bool, ghost trace: seq<Step>)
      requires Inv(cluster.cfg, cluster.View()) && OnCurrent(cluster.View(), self, Publishing, event)
      modifies cluster
      ensures Ran(cluster.cfg, old(cluster.View()), trace, cluster.View()) && Inv(cluster.cfg, cluster.View())
      ensures ok == io.publish.Accepted?
      ensures Own(trace, self) == [PublishStep(self, io.publish)]
      ensures OnCurrent(cluster.View(), self, if ok then Marking else Recording, event)
      ensures cluster.workers[self].todo == old(cluster.workers)[self].todo
      ensures cluster.workers[self].since == cluster.now
      ensures AllUntouched(old(cluster.View()), cluster.View(), old(cluster.workers)[self].todo[1..])
      ensures Out(old(cluster.View()), cluster.View(), event, io)
    {
      hide Inv, Ran, IsSelection, Untouched, Copies, Own;
      ghost var s := cluster.View();
      ghost var others := cluster.Yield(self, io.beforePublish);
      ghost var s1 := cluster.View();
      InvOnCurrent(cluster.cfg, s1, self);
      ghost var step;
      ok, step := Publish(event, io.publish);
      AwaitedStep(cluster.cfg, s, others, s1, step, self);
      AwaitedRest(cluster.cfg, s, s1, step, self);
      PublishedCopies(s, s1, cluster.View(), event, io);
      trace := others + [step];
      InvOnCurrent(cluster.cfg, cluster.View(), self);
    }

    method AwaitMark(event: Event, io: EventIo) returns (ok: bool, ghost trace: seq<Step>)
      requires Inv(cluster.cfg, cluster.View()) && OnCurrent(cluster.View(), self, Marking, event)
      modifies cluster
      ensures Ran(cluster.cfg, old(cluster.View()), trace, cluster.View()) && Inv(cluster.cfg, cluster.View())
      ensures ok == !io.markFails && Own(trace, self) == [if io.markFails then MarkError(self) else MarkOk(self)]
      ensures ok ==> Ready(cluster.View(), self, old(cluster.workers)[self].todo[1..])
      ensures !ok ==> OnCurrent(cluster.View(), self, Recording, event)
      ensures !ok ==>
        cluster.workers[self].todo == old(cluster.workers)[self].todo && cluster.workers[self].since == cluster.now
      ensures AllUntouched(old(cluster.View()), cluster.View(), old(cluster.workers)[self].todo[1..])
      ensures cluster.now >= old(cluster.now) && Copies(cluster.sent, event.id) == old(Copies(cluster.sent, event.id))
      ensures event.id in old(cluster.outbox) && event.id in cluster.outbox
      ensures cluster.outbox[event.id] ==
        if ok then old(cluster.outbox)[event.id].(status := PUBLISHED) else old(cluster.outbox)[event.id]
    {
      hide Inv, Ran, IsSelection, Untouched, Copies, Own;
      ghost var s := cluster.View();
      ghost var others := cluster.Yield(self, io.beforeMark);
      ghost var s1 := cluster.View();
      InvOnCurrent(cluster.cfg, s1, self);
      ghost var step;
      ok, step := MarkPublished(event, io.markFails);
      AwaitedStep(cluster.cfg, s, others, s1, step, self);
      AwaitedRest(cluster.cfg, s, s1, step, self);
      trace := others + [step];
      if !ok {
        InvOnCurrent(cluster.cfg, cluster.View(), self);
      }
    }

    method AwaitRecord(event: Event, io: EventIo) returns (thrown: bool, ghost trace: seq<Step>)
      requires Inv(cluster.cfg, cluster.View()) && OnCurrent(cluster.View(), self, Recording, event)
      requires cluster.workers[self].since == cluster.now
      modifies cluster
      ensures Ran(cluster.cfg, old(cluster.View()), trace, cluster.View()) && Inv(cluster.cfg, cluster.View())
      ensures thrown == io.recordFails
      ensures Own(trace, self) == [if thrown then RecordError(self) else RecordOk(self, io.jitter)]
      ensures if thrown then self !in cluster.workers
              else Ready(cluster.View(), self, old(cluster.workers)[self].todo[1..])
      ensures AllUntouched(old(cluster.View()), cluster.View(), old(cluster.workers)[self].todo[1..])
      ensures Recorded(cluster.cfg, old(cluster.View()), cluster.View(), event, io)
    {
      hide Inv, Ran, IsSelection, Untouched, Copies, Own;
      ghost var s := cluster.View();
      var caughtAt := cluster.now;
      ghost var others := cluster.Yield(self, io.beforeRecord);
      ghost var s1 := cluster.View();
      InvOnCurrent(cluster.cfg, s1, self);
      ghost var step;
      thrown, step := RecordFailure(event, caughtAt, io.recordFails, io.jitter);
      AwaitedStep(cluster.cfg, s, others, s1, step, self);
      AwaitedRest(cluster.cfg, s, s1, step, self);
      trace := others + [step];
    }

    // From the catch block on, wherever in the try block the error came from.
    method CatchError(event: Event, io: EventIo, ghost s: State, ghost before: seq<Step>)
      returns (thrown: bool, ghost trace: seq<Step>)
      requires Inv(cluster.cfg, cluster.View()) && OnCurrent(cluster.View(), self, Recording, event)
      requires cluster.workers[self].since == cluster.now && (io.publish.Refused? || io.markFails)
      requires Ran(cluster.cfg, s, before, cluster.View()) && Out(s, cluster.View(), event, io)
      requires AllUntouched(s, cluster.View(), cluster.workers[self].todo[1..])
      modifies cluster
      ensures Ran(cluster.cfg, s, trace, cluster.View()) && Inv(cluster.cfg, cluster.View()) && thrown == io.recordFails
      ensures Own(trace, self) == Own(before, self) + [if thrown then RecordError(self) else RecordOk(self, io.jitter)]
      ensures if thrown then self !in cluster.workers
              else Ready(cluster.View(), self, old(cluster.workers)[self].todo[1..])
      ensures Relayed(cluster.cfg, s, cluster.View(), event, io)
      ensures AllUntouched(s, cluster.View(), old(cluster.workers)[self].todo[1..])
    {
      ghost var rest := cluster.workers[self].todo[1..];
      hide Inv, Ran, OnCurrent, IsSelection, AllUntouched, Copies, Own, Ready, Out, Relayed, Recorded;
      ghost var s1 := cluster.View();
      thrown, trace := AwaitRecord(event, io);
      UntouchedTwice(s, s1, cluster.View(), rest);
      RelayedByRecord(cluster.cfg, s, s1, cluster.View(), event, io);
      JoinTraces(cluster.cfg, s, before, s1, trace, cluster.View(), self);
      trace := before + trace;
    }

    // Publish, mark, and on any error fall into the catch block.
    method RelayEvent(event: Event, io: EventIo) returns (thrown: bool, ghost trace: seq<Step>)
      requires Inv(cluster.cfg, cluster.View()) && OnCurrent(cluster.View(), self, Publishing, event)
      modifies cluster
      ensures Ran(cluster.cfg, old(cluster.View()), trace, cluster.View()) && Inv(cluster.cfg, cluster.View())
      ensures thrown == ((io.publish.Refused? || io.markFails) && io.recordFails)
      ensures Own(trace, self) == EventProgram(self, io)
      ensures if thrown then self !in cluster.workers
              else Ready(cluster.View(), self, old(cluster.workers)[self].todo[1..])
      ensures Relayed(cluster.cfg, old(cluster.View()), cluster.View(), event, io)
      ensures AllUntouched(old(cluster.View()), cluster.View(), old(cluster.workers)[self].todo[1..])
    {
      ghost var rest := cluster.workers[self].todo[1..];
      hide Inv, Ran, OnCurrent, IsSelection, AllUntouched, Copies, Own, Ready;
      hide Out, Relayed, PublishStep, EventProgram;
      ProgramParts(self, io);
      ghost var s := cluster.View();
      var ok;
      ok, trace := AwaitPublish(event, io);
      thrown := false;
      if ok {
        ghost var s1 := cluster.View();
        ghost var more;
        ok, more := AwaitMark(event, io);
        UntouchedTwice(s, s1, cluster.View(), rest);
        JoinTraces(cluster.cfg, s, trace, s1, more, cluster.View(), self);
        trace := trace + more;
        if ok {
          RelayedByMark(cluster.cfg, s, s1, cluster.View(), event, io);
          return;
        }
        OutAfterMark(s, s1, cluster.View(), event, io);
      }
      thrown, trace := CatchError(event, io, s, trace);
    }

    // The loop over the batch, up to the first event whose failure write throws.
    method RelayBatch(claimed: seq<Event>, events: nat -> EventIo) returns (ghost trace: seq<Step>, ghost done: nat)
      requires Inv(cluster.cfg, cluster.View()) && Ready(cluster.View(), self, claimed)
      modifies cluster
      ensures Ran(cluster.cfg, old(cluster.View()), trace, cluster.View()) && Inv(cluster.cfg, cluster.View())
      ensures Own(trace, self) == BatchProgram(self, 0, |claimed|, events)
      ensures self !in cluster.workers
      ensures BatchRelayed(cluster.cfg, cluster.View(), claimed, events, done)
      ensures done < |claimed| ==> AllUntouched(old(cluster.View()), cluster.View(), claimed[done + 1..])
    {
      hide Inv, Ran, EventProgram, BatchProgram, OnCurrent, Own;
      hide Relayed, Lasting, StillClaimed, Untouched, AllUntouched;
      ghost var s := cluster.View();
      trace, done := [], 0;
      HeldIsClaimed(cluster.cfg, s, self, claimed);
      NothingHappened(s, claimed);
      EmptyTrace(cluster.cfg, s, self);
      for i := 0 to |claimed|
        invariant Ran(cluster.cfg, s, trace, cluster.View()) && Inv(cluster.cfg, cluster.View())
        invariant Ready(cluster.View(), self, claimed[i..])
        invariant Own(trace, self) + BatchProgram(self, i, |claimed|, events) ==
          BatchProgram(self, 0, |claimed|, events)
        invariant done == i && SoFar(cluster.cfg, cluster.View(), claimed, events, i)
        invariant AllUntouched(s, cluster.View(), claimed[i..])
      {
        ghost var s1 := cluster.View();
        InvOnCurrent(cluster.cfg, s1, self);
        var thrown;
        ghost var more;
        thrown, more := RelayEvent(claimed[i], events(i));
        JoinTraces(cluster.cfg, s, trace, s1, more, cluster.View(), self);
        ProgramStep(self, Own(trace, self), i, |claimed|, events);
        trace := trace + more;
        assert claimed[i..][1..] == claimed[i + 1..];
        BatchStep(cluster.cfg, s, s1, more, cluster.View(), claimed, events, i);
        if thrown {
          return;
        }
        done := i + 1;
      }
      BatchComplete(cluster.cfg, cluster.View(), claimed, events);
      ProgramEnd(self, |claimed|, events);
    }

    // One relay cycle.  A cycle that starts while another is under way does nothing.
    // Otherwise the flag is cleared on every way out; unless its transaction fails, the
    // cycle claims the oldest due rows as it finds them; and it relays every claimed
    // event up to the first whose failure cannot be recorded, and leaves that one and
    // the rest CLAIMED.
    method ProcessOutbox(io: CycleIo) returns (claimed: seq<Event>, ghost trace: seq<Step>, ghost done: nat)
      requires Inv(cluster.cfg, cluster.View())
      requires !processing ==> self !in cluster.workers
      modifies this, cluster
      ensures Ran(cluster.cfg, old(cluster.View()), trace, cluster.View()) && Inv(cluster.cfg, cluster.View())
      ensures old(processing) ==> processing && trace == [] && cluster.View() == old(cluster.View())
      ensures !old(processing) ==> !processing && self !in cluster.workers
      ensures !old(processing) ==> Own(trace, self) == CycleProgram(cluster.cfg, self, Ids(claimed), io)
      ensures !old(processing) ==>
        if io.claimFails || cluster.cfg.batchSize < 0 then claimed == []
        else TookOldestDue(cluster.cfg, AtClaim(cluster.cfg, old(cluster.View()), self, io), io.locked, claimed)
      ensures !old(processing) ==> BatchRelayed(cluster.cfg, cluster.View(), claimed, io.events, done)
    {
      hide Inv, Ran, Own, TookOldestDue, Leased, BatchRelayed, BatchProgram, AllUntouched;
      ghost var s := cluster.View();
      claimed, trace, done := [], [], 0;
      BatchOfNone(cluster.cfg, cluster.View(), io.events);
      EmptyTrace(cluster.cfg, s, self);
      if processing {
        return;
      }
      processing := true;
      ghost var others := cluster.Yield(self, io.before);
      ghost var s1 := cluster.View();
      ghost var step := ClaimError(self);
      if !io.claimFails && cluster.cfg.batchSize >= 0 {
        InvTracksClaims(cluster.cfg, s1);
        claimed, step := ClaimBatch(io.locked);
      }
      AwaitedStep(cluster.cfg, s, others, s1, step, self);
      trace := others + [step];
      if claimed != [] {
        ghost var s2 := cluster.View();
        ghost var more;
        more, done := RelayBatch(claimed, io.events);
        JoinTraces(cluster.cfg, s, trace, s2, more, cluster.View(), self);
        trace := trace + more;
      } else {
        BatchOfNone(cluster.cfg, cluster.View(), io.events);
      }
      processing := false;
    }
  }

  // One call: the others act, then the call takes effect as one step of this worker.
  lemma AwaitedStep(c: Config, s: State, others: seq<Step>, s1: State, step: Step, self: WorkerId)
    requires Ran(c, s, others, s1) && Own(others, self) == [] && Inv(c, s1) && Enabled(c, s1, step) && IsOwn(step, self)
    ensures Ran(c, s, others + [step], Apply(c, s1, step)) && Own(others + [step], self) == [step]
    ensures Inv(c, Apply(c, s1, step))
  {
    RanStep(c, s, others, s1, step);
    SelectOne((other: Step) => IsOwn(other, self), others, step);
    StepKeepsInv(c, s1, step);
  }

  lemma EmptyTrace(c: Config, s: State, self: WorkerId)
    ensures Ran(c, s, [], s) && Own([], self) == []
  {
  }

  lemma JoinTraces(c: Config, s: State, a: seq<Step>, s1: State, b: seq<Step>, s2: State, self: WorkerId)
    requires Ran(c, s, a, s1) && Ran(c, s1, b, s2)
    ensures Ran(c, s, a + b, s2) && Own(a + b, self) == Own(a, self) + Own(b, self)
  {
    RanRun(c, s, a, s1, b, s2);
    SelectAppend((step: Step) => IsOwn(step, self), a, b);
  }

  function Ids(events: seq<Event>): (ids: seq<EventId>)
    ensures |ids| == |events| && forall i :: 0 <= i < |ids| ==> ids[i] == events[i].id
  {
    seq(|events|, i requires 0 <= i < |events| => events[i].id)
  }
}

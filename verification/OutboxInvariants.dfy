// What every step of the outbox protocol keeps.

module OutboxInvariants {
  import opened Messaging
  import opened OutboxProtocol

  // ---------------------------------------------------------------- ownership

  ghost predicate Holds(s: State, w: WorkerId, id: EventId) {
    w in s.workers && exists k :: 0 <= k < |s.workers[w].todo| && s.workers[w].todo[k].id == id
  }

  ghost predicate IsCurrent(s: State, w: WorkerId, id: EventId) {
    w in s.workers && s.workers[w].todo != [] && s.workers[w].todo[0].id == id
  }

  // The snapshot still describes its row, and the row names w as its owner.
  ghost predicate Fresh(s: State, w: WorkerId, e: Event) {
    && e.id in s.outbox
    && s.outbox[e.id].status == CLAIMED
    && s.outbox[e.id].claimOwner == Some(w)
    && s.outbox[e.id].attemptCount == e.attemptCount
    && s.outbox[e.id].content == e.content
  }

  ghost predicate DistinctIds(todo: seq<Event>) {
    forall i, j :: 0 <= i < j < |todo| ==> todo[i].id != todo[j].id
  }

  ghost predicate JobInv(s: State, w: WorkerId)
    requires w in s.workers
  {
    var todo := s.workers[w].todo;
    todo != [] && DistinctIds(todo) && forall k :: 0 <= k < |todo| ==> Fresh(s, w, todo[k])
  }

  ghost predicate Ownership(s: State) {
    && s.claimedAt.Keys == s.outbox.Keys
    && s.unrecorded.Keys == s.outbox.Keys
    && forall w :: w in s.workers ==> JobInv(s, w)
  }

  // A row that some worker still has to deal with.
  ghost predicate Held(s: State, id: EventId) {
    id in s.outbox && s.outbox[id].status == CLAIMED && s.outbox[id].claimOwner.Some?
    && Holds(s, s.outbox[id].claimOwner.value, id)
  }

  // ---------------------------------------------------------------- counting

  ghost predicate Attempts(c: Config, s: State, id: EventId)
    requires id in s.outbox && id in s.claimedAt
  {
    var row := s.outbox[id];
    && |s.claimedAt[id]| == row.attemptCount + (if row.status in {CLAIMED, PUBLISHED} then 1 else 0)
    && (row.status == FAILED ==> row.attemptCount == Budget(c))
    && (row.status != FAILED ==> row.attemptCount < Budget(c))
  }

  // The event's copy is in the queue and its owner is about to say so in the table.
  ghost predicate AtMarking(s: State, id: EventId)
    requires id in s.outbox
  {
    var row := s.outbox[id];
    row.status == CLAIMED && row.claimOwner.Some? && IsCurrent(s, row.claimOwner.value, id)
    && s.workers[row.claimOwner.value].stage == Marking
  }

  // The latest claim of the event has not yet been charged with a lost copy.
  ghost predicate Open(s: State, id: EventId)
    requires id in s.outbox
  {
    var row := s.outbox[id];
    || row.status == PUBLISHED
    || (Held(s, id) && !(IsCurrent(s, row.claimOwner.value, id) && s.workers[row.claimOwner.value].stage == Recording))
  }

  // Conservation of copies: each is accounted for by the PUBLISHED status, by a
  // worker about to write it, or by one recorded fault.
  ghost predicate CopyCount(s: State, id: EventId)
    requires id in s.outbox && id in s.claimedAt && id in s.unrecorded
  {
    && Copies(s.sent, id) == s.unrecorded[id] + (if s.outbox[id].status == PUBLISHED || AtMarking(s, id) then 1 else 0)
    && s.unrecorded[id] + (if Open(s, id) then 1 else 0) <= |s.claimedAt[id]|
  }

  // Everything in the queue is a copy of a row.
  ghost predicate Sent(s: State) {
    forall i :: 0 <= i < |s.sent| ==>
      var body := s.sent[i].body;
      body.Body? && body.eventId in s.outbox && body == BodyOf(body.eventId, s.outbox[body.eventId].content)
  }

  // ---------------------------------------------------------------- timing

  // The (k+1)-th claim waits out the back-off of the k-th attempt.
  ghost predicate Gap(times: seq<int>, k: nat)
    requires 1 <= k < |times|
  {
    times[k] >= times[k - 1] + Delay(k)
  }

  // The back-off after the n-th failed attempt, written out.
  lemma {:induction false} DelayTable(n: nat)
    ensures Pow2(n) >= 1 && (n >= 5 ==> Pow2(n) >= 32)
    ensures n >= 1 ==> Delay(n) == if n >= 5 then 60000 else [0, 4000, 8000, 16000, 32000][n]
  {
    if n == 0 {
    } else {
      DelayTable(n - 1);
      assert n <= 5 ==> Pow2(n) == [1, 2, 4, 8, 16, 32][n];
    }
  }

  ghost predicate Spaced(s: State, id: EventId)
    requires id in s.outbox && id in s.claimedAt
  {
    var times := s.claimedAt[id];
    && (forall k :: 1 <= k < |times| ==> Gap(times, k))
    && (times != [] ==> times[|times| - 1] <= s.now)
    && ((times != [] && s.outbox[id].status == PENDING) ==>
          s.outbox[id].nextAttemptAt >= times[|times| - 1] + Delay(|times|))
  }

  // A worker entered its stage after it claimed the event, and not in the future.
  ghost predicate Timed(s: State, w: WorkerId)
    requires w in s.workers
  {
    var job := s.workers[w];
    && job.todo != [] && job.todo[0].id in s.claimedAt
    && var times := s.claimedAt[job.todo[0].id];
       times != [] && times[|times| - 1] <= job.since <= s.now
  }

  ghost predicate Inv(c: Config, s: State) {
    && Ownership(s)
    && (forall w :: w in s.workers ==> Timed(s, w))
    && Sent(s)
    && forall id :: id in s.outbox ==> Attempts(c, s, id) && CopyCount(s, id) && Spaced(s, id)
  }

  // ---------------------------------------------------------------- preservation

  lemma InitInv(c: Config)
    ensures Inv(c, INIT)
  {
  }

  // Advancing drops exactly the current event from the batch.
  lemma AdvanceFacts(s: State, w: WorkerId)
    requires w in s.workers && s.workers[w].todo != []
    ensures var workers := Advance(s, w);
            && (forall v :: v in workers ==> v in s.workers)
            && (forall v :: v in s.workers && v != w ==> v in workers && workers[v] == s.workers[v])
            && (w in workers <==> |s.workers[w].todo| > 1)
            && (w in workers ==> workers[w] == Job(s.workers[w].todo[1..], Publishing, s.now))
  {
  }

  predicate IsQuiet(step: Step) { !step.Create? && !step.Claim? && !step.MarkOk? && !step.RecordOk? }

  // A quiet step writes no row and drops no event from a batch it does not end.
  lemma QuietFrame(c: Config, s: State, step: Step)
    requires IsQuiet(step) && Enabled(c, s, step)
    ensures var s' := Apply(c, s, step);
      && s'.outbox == s.outbox && s'.claimedAt == s.claimedAt && s'.now >= s.now
      && s'.unrecorded.Keys == s.unrecorded.Keys
      && (forall v :: v in s'.workers ==> v in s.workers && s'.workers[v].todo == s.workers[v].todo)
  {
    hide IsSelection;
  }

  lemma OwnershipKept(c: Config, s: State, step: Step)
    requires Ownership(s) && Enabled(c, s, step)
    ensures Ownership(Apply(c, s, step))
  {
    var s' := Apply(c, s, step);
    if IsQuiet(step) {
      hide Apply, Enabled;
      QuietFrame(c, s, step);
      QuietKeepsJobs(s, s');
    } else {
      hide IsSelection;
      match step {
        case Create(_, _, _) => QuietKeepsJobs(s, s');
        case Claim(w, batch, locked) => ClaimKeepsJobs(c, s, w, batch, locked);
        case MarkOk(w) => SettleKeepsJobs(s, s', w);
        case RecordOk(w, _) => SettleKeepsJobs(s, s', w);
      }
    }
  }

  // Steps that touch no row and drop no event from a batch, though they may end a batch.
  lemma QuietKeepsJobs(s: State, s': State)
    requires Ownership(s)
    requires forall v :: v in s'.workers ==> v in s.workers && s'.workers[v].todo == s.workers[v].todo
    requires forall id :: id in s.outbox ==> id in s'.outbox && s'.outbox[id] == s.outbox[id]
    ensures forall v :: v in s'.workers ==> JobInv(s', v)
  {
    forall v | v in s'.workers ensures JobInv(s', v) {
      assert JobInv(s, v);
      forall k | 0 <= k < |s.workers[v].todo| ensures Fresh(s', v, s.workers[v].todo[k]) {
        assert Fresh(s, v, s.workers[v].todo[k]);
      }
    }
  }

  lemma ClaimKeepsJobs(c: Config, s: State, w: WorkerId, batch: seq<EventId>, locked: set<EventId>)
    requires Ownership(s) && Enabled(c, s, Claim(w, batch, locked))
    ensures Ownership(Apply(c, s, Claim(w, batch, locked)))
  {
    var s' := Apply(c, s, Claim(w, batch, locked));
    assert s'.outbox.Keys == s.outbox.Keys;
    assert s'.claimedAt.Keys == s.claimedAt.Keys;
    forall v | v in s'.workers ensures JobInv(s', v) {
      var todo := s'.workers[v].todo;
      if v == w {
        forall k | 0 <= k < |todo| ensures Fresh(s', w, todo[k]) {
          assert batch[k] in batch;
        }
      } else {
        assert JobInv(s, v);
        forall k | 0 <= k < |todo| ensures Fresh(s', v, todo[k]) {
          assert Fresh(s, v, todo[k]);
        }
      }
    }
  }

  // Writing the current row and advancing disturbs no other snapshot.
  lemma SettleKeepsJobs(s: State, s': State, w: WorkerId)
    requires Ownership(s) && w in s.workers && s.workers[w].todo != []
    requires s'.workers == Advance(s, w)
    requires forall id :: id in s.outbox && id != Current(s, w).id ==> id in s'.outbox && s'.outbox[id] == s.outbox[id]
    ensures forall v :: v in s'.workers ==> JobInv(s', v)
  {
    AdvanceFacts(s, w);
    assert JobInv(s, w);
    assert Fresh(s, w, s.workers[w].todo[0]);
    forall v | v in s'.workers ensures JobInv(s', v) {
      assert JobInv(s, v);
      var todo, todo' := s.workers[v].todo, s'.workers[v].todo;
      var d := if v == w then 1 else 0;
      assert forall k :: 0 <= k < |todo'| ==> todo'[k] == todo[k + d];
      forall k | 0 <= k < |todo'| ensures Fresh(s', v, todo'[k]) {
        assert Fresh(s, v, todo[k + d]);
      }
    }
  }

  lemma SentKept(c: Config, s: State, step: Step)
    requires Ownership(s) && Sent(s) && Enabled(c, s, step)
    ensures Sent(Apply(c, s, step))
  {
    hide IsSelection;
    var s' := Apply(c, s, step);
    if step.PublishOk? || step.PublishError? {
      assert JobInv(s, step.w);
      assert Fresh(s, step.w, s.workers[step.w].todo[0]);
    } else {
      assert s'.sent == s.sent;
      ContentsStay(c, s, step);
    }
  }

  lemma ContentsStay(c: Config, s: State, step: Step)
    requires Ownership(s) && Enabled(c, s, step)
    ensures forall id :: id in s.outbox ==>
      id in Apply(c, s, step).outbox && Apply(c, s, step).outbox[id].content == s.outbox[id].content
  {
    hide IsSelection;
    if IsQuiet(step) {
      hide Apply, Enabled;
      QuietFrame(c, s, step);
    }
  }

  lemma ClaimAttempts(c: Config, s: State, w: WorkerId, batch: seq<EventId>, locked: set<EventId>, id: EventId)
    requires Ownership(s) && Enabled(c, s, Claim(w, batch, locked)) && id in s.outbox && Attempts(c, s, id)
    ensures id in Apply(c, s, Claim(w, batch, locked)).outbox && id in Apply(c, s, Claim(w, batch, locked)).claimedAt
    ensures Attempts(c, Apply(c, s, Claim(w, batch, locked)), id)
  {
    assert id in batch ==> id in Eligible(s.outbox, s.now);
  }

  lemma WriteAttempts(c: Config, s: State, w: WorkerId, step: Step, id: EventId)
    requires Ownership(s) && Enabled(c, s, step) && (step.MarkOk? || step.RecordOk?) && step.w == w
    requires id in s.outbox && Attempts(c, s, id)
    ensures id in Apply(c, s, step).outbox && id in Apply(c, s, step).claimedAt && Attempts(c, Apply(c, s, step), id)
  {
    hide IsSelection;
    assert JobInv(s, w) && Fresh(s, w, s.workers[w].todo[0]);
    hide Ownership, JobInv, Fresh;
  }

  lemma AttemptsKept(c: Config, s: State, step: Step, id: EventId)
    requires Ownership(s) && Enabled(c, s, step)
    requires id in s.outbox ==> Attempts(c, s, id)
    requires id in Apply(c, s, step).outbox
    ensures Apply(c, s, step).claimedAt.Keys == Apply(c, s, step).outbox.Keys
    ensures Attempts(c, Apply(c, s, step), id)
  {
    OwnershipKept(c, s, step);
    if IsQuiet(step) {
      hide Apply, Enabled;
      QuietFrame(c, s, step);
    } else {
      hide IsSelection;
      match step {
        case Create(_, _, _) =>
        case Claim(w, batch, locked) => ClaimAttempts(c, s, w, batch, locked, id);
        case MarkOk(w) => WriteAttempts(c, s, w, step, id);
        case RecordOk(w, _) => WriteAttempts(c, s, w, step, id);
      }
    }
  }

  // A row that is not PENDING afterwards only needs its claim times to stay as they are.
  lemma SpacedFrame(s: State, s': State, id: EventId)
    requires id in s.outbox && id in s.claimedAt && Spaced(s, id)
    requires id in s'.outbox && id in s'.claimedAt && s'.claimedAt[id] == s.claimedAt[id]
    requires s'.now >= s.now
    requires s'.outbox[id].status == PENDING ==> s'.outbox[id] == s.outbox[id]
    ensures Spaced(s', id)
  {
  }

  // A claim comes no earlier than nextAttemptAt allows.
  lemma ClaimIsSpaced(c: Config, s: State, w: WorkerId, batch: seq<EventId>, locked: set<EventId>, id: EventId)
    requires Ownership(s) && Enabled(c, s, Claim(w, batch, locked)) && id in batch
    requires id in s.outbox && id in s.claimedAt && Attempts(c, s, id) && Spaced(s, id)
    ensures id in Apply(c, s, Claim(w, batch, locked)).outbox
    ensures id in Apply(c, s, Claim(w, batch, locked)).claimedAt
    ensures Spaced(Apply(c, s, Claim(w, batch, locked)), id)
  {
    assert id in Eligible(s.outbox, s.now);
    var times := s.claimedAt[id];
    var times' := times + [s.now];
    assert Apply(c, s, Claim(w, batch, locked)).claimedAt[id] == times';
    forall k | 1 <= k < |times'| ensures Gap(times', k) {
      assert k < |times| ==> Gap(times, k);
    }
  }

  // The next attempt is put off by at least the delay that belongs to it.
  lemma RecordIsSpaced(c: Config, s: State, w: WorkerId, jitter: Jitter)
    requires Ownership(s) && Enabled(c, s, RecordOk(w, jitter)) && Timed(s, w)
    requires Attempts(c, s, Current(s, w).id) && Spaced(s, Current(s, w).id)
    ensures Spaced(Apply(c, s, RecordOk(w, jitter)), Current(s, w).id)
  {
    assert JobInv(s, w);
    assert Fresh(s, w, s.workers[w].todo[0]);
  }

  lemma SpacedKept(c: Config, s: State, step: Step, id: EventId)
    requires Ownership(s) && Enabled(c, s, step) && (step.RecordOk? ==> Timed(s, step.w))
    requires id in s.outbox ==> Attempts(c, s, id) && Spaced(s, id)
    requires id in Apply(c, s, step).outbox
    ensures id in Apply(c, s, step).claimedAt
    ensures Spaced(Apply(c, s, step), id)
  {
    OwnershipKept(c, s, step);
    var s' := Apply(c, s, step);
    if IsQuiet(step) {
      hide Apply, Enabled;
      QuietFrame(c, s, step);
      SpacedFrame(s, s', id);
    } else if step.Claim? && id in step.batch {
      ClaimIsSpaced(c, s, step.w, step.batch, step.locked, id);
    } else if step.RecordOk? && id == Current(s, step.w).id {
      RecordIsSpaced(c, s, step.w, step.jitter);
    } else if !(step.Create? && id == step.id) {
      hide IsSelection;
      SpacedFrame(s, s', id);
    }
  }

  // The last claim of a row that is CLAIMED lies in the past.
  lemma ClaimedInThePast(c: Config, s: State, w: WorkerId, e: Event)
    requires Ownership(s) && Fresh(s, w, e) && Attempts(c, s, e.id) && Spaced(s, e.id)
    ensures s.claimedAt[e.id] != [] && s.claimedAt[e.id][|s.claimedAt[e.id]| - 1] <= s.now
  {
  }

  // A worker whose job did not change, and whose event nobody can have claimed again.
  lemma SameJobTimed(c: Config, s: State, step: Step, v: WorkerId)
    requires Ownership(s) && Enabled(c, s, step) && v in s.workers && Timed(s, v)
    requires v in Apply(c, s, step).workers && Apply(c, s, step).workers[v] == s.workers[v]
    ensures Timed(Apply(c, s, step), v)
  {
    assert JobInv(s, v) && Fresh(s, v, s.workers[v].todo[0]);
    if step.Claim? {
      assert s.workers[v].todo[0].id !in Eligible(s.outbox, s.now);
      assert s.workers[v].todo[0].id !in step.batch;
    } else {
      hide IsSelection;
    }
  }

  // The worker that took the step entered its stage just now.
  lemma OwnStage(c: Config, s: State, step: Step)
    requires IsWork(step) && Enabled(c, s, step) && step.w in Apply(c, s, step).workers
    requires step.w in s.workers && s.workers[step.w].todo != []
    ensures var s' := Apply(c, s, step);
      var todo, job := s.workers[step.w].todo, s'.workers[step.w];
      && s'.claimedAt == s.claimedAt && s'.now == s.now && job.since == s.now
      && (job.todo == todo || (|todo| > 1 && job.todo == todo[1..]))
  {
    hide IsSelection;
    AdvanceFacts(s, step.w);
  }

  lemma OwnJobTimed(c: Config, s: State, step: Step)
    requires Ownership(s) && Enabled(c, s, step) && IsWork(step) && step.w in Apply(c, s, step).workers
    requires forall id :: id in s.outbox ==> id in s.claimedAt && Attempts(c, s, id) && Spaced(s, id)
    ensures Timed(Apply(c, s, step), step.w)
  {
    hide IsSelection, Attempts, Spaced;
    assert step.w in s.workers && JobInv(s, step.w);
    OwnStage(c, s, step);
    hide Apply, Enabled;
    var todo := s.workers[step.w].todo;
    var d := |todo| - |Apply(c, s, step).workers[step.w].todo|;
    assert Fresh(s, step.w, todo[d]);
    ClaimedInThePast(c, s, step.w, todo[d]);
  }

  lemma ClaimTimed(c: Config, s: State, w: WorkerId, batch: seq<EventId>, locked: set<EventId>)
    requires Enabled(c, s, Claim(w, batch, locked)) && w in Apply(c, s, Claim(w, batch, locked)).workers
    ensures Timed(Apply(c, s, Claim(w, batch, locked)), w)
  {
    hide IsSelection;
    assert batch[0] in batch;
  }

  lemma TimedKept(c: Config, s: State, step: Step, v: WorkerId)
    requires Inv(c, s) && Enabled(c, s, step) && v in Apply(c, s, step).workers
    ensures Timed(Apply(c, s, step), v)
  {
    if IsWork(step) {
      hide Apply, IsSelection;
      assert JobInv(s, step.w);
      if v == step.w {
        OwnJobTimed(c, s, step);
      } else {
        OtherWorkersStay(c, s, step, v);
        SameJobTimed(c, s, step, v);
      }
    } else if step.Claim? && v == step.w {
      ClaimTimed(c, s, v, step.batch, step.locked);
    } else {
      hide IsSelection, JobInv, Sent, Attempts, CopyCount, Spaced, Timed;
      SameJobTimed(c, s, step, v);
    }
  }

  // ---- copies

  // Nothing about the event changed: neither its row, nor its copies, nor its owner's progress.
  lemma CopyFrame(s: State, s': State, id: EventId)
    requires id in s.outbox && id in s.claimedAt && id in s.unrecorded && CopyCount(s, id)
    requires id in s'.outbox && id in s'.claimedAt && id in s'.unrecorded
    requires s'.outbox[id] == s.outbox[id] && s'.claimedAt[id] == s.claimedAt[id]
    requires s'.unrecorded[id] == s.unrecorded[id]
    requires Copies(s'.sent, id) == Copies(s.sent, id)
    requires AtMarking(s', id) <==> AtMarking(s, id)
    requires Open(s', id) ==> Open(s, id)
    ensures CopyCount(s', id)
  {
  }

  // Worker steps that deal with the current event of a batch.
  predicate IsWork(step: Step) {
    || step.PublishOk? || step.PublishError? || step.MarkOk? || step.MarkError?
    || step.RecordOk? || step.RecordError? || step.Crash?
  }

  // A worker's step leaves the accounts of every other event alone, except that
  // giving up the batch closes the open claims of the rest of it.
  lemma OtherEventsCopies(c: Config, s: State, step: Step, id: EventId)
    requires Ownership(s) && IsWork(step) && Enabled(c, s, step) && id in s.outbox && CopyCount(s, id)
    requires step.w in s.workers && s.workers[step.w].todo != [] && id != Current(s, step.w).id
    ensures id in Apply(c, s, step).outbox && Ownership(Apply(c, s, step))
    ensures CopyCount(Apply(c, s, step), id)
  {
    hide IsSelection;
    var s' := Apply(c, s, step);
    var w := step.w;
    OwnershipKept(c, s, step);
    assert JobInv(s, w);
    assert Fresh(s, w, s.workers[w].todo[0]);
    OtherEventsProgress(c, s, step, id);
    if s'.sent != s.sent {
      CopiesAppend(s.sent, s'.sent[|s.sent|], id);
    }
    CopyFrame(s, s', id);
  }

  // An event further down the same batch stays there, or its batch is given up.
  lemma BatchEventsProgress(c: Config, s: State, step: Step, id: EventId)
    requires IsWork(step) && Enabled(c, s, step)
    requires step.w in s.workers && s.workers[step.w].todo != [] && id != Current(s, step.w).id
    ensures Holds(Apply(c, s, step), step.w, id) ==> Holds(s, step.w, id)
    ensures IsCurrent(Apply(c, s, step), step.w, id) ==> Apply(c, s, step).workers[step.w].stage == Publishing
  {
    hide IsSelection;
    var s' := Apply(c, s, step);
    var w := step.w;
    AdvanceFacts(s, w);
    if Holds(s', w, id) {
      var k :| 0 <= k < |s'.workers[w].todo| && s'.workers[w].todo[k].id == id;
      var d := |s.workers[w].todo| - |s'.workers[w].todo|;
      assert s.workers[w].todo[k + d].id == id;
    }
  }

  lemma OtherWorkersStay(c: Config, s: State, step: Step, v: WorkerId)
    requires IsWork(step) && Enabled(c, s, step) && v != step.w
    requires step.w in s.workers && s.workers[step.w].todo != []
    ensures v in Apply(c, s, step).workers <==> v in s.workers
    ensures v in s.workers ==> Apply(c, s, step).workers[v] == s.workers[v]
  {
    hide IsSelection;
    AdvanceFacts(s, step.w);
  }

  lemma OtherEventsProgress(c: Config, s: State, step: Step, id: EventId)
    requires Ownership(s) && IsWork(step) && Enabled(c, s, step) && id in s.outbox
    requires step.w in s.workers && s.workers[step.w].todo != [] && id != Current(s, step.w).id
    ensures id in Apply(c, s, step).outbox && Apply(c, s, step).outbox[id] == s.outbox[id]
    ensures AtMarking(Apply(c, s, step), id) <==> AtMarking(s, id)
    ensures Open(Apply(c, s, step), id) ==> Open(s, id)
  {
    hide IsSelection;
    OtherRowsStay(c, s, step, id);
    hide Apply, Enabled;
    BatchEventsProgress(c, s, step, id);
    if s.outbox[id].claimOwner.Some? && s.outbox[id].claimOwner.value != step.w {
      OtherWorkersStay(c, s, step, s.outbox[id].claimOwner.value);
    }
  }

  lemma OtherRowsStay(c: Config, s: State, step: Step, id: EventId)
    requires IsWork(step) && Enabled(c, s, step) && id in s.outbox
    requires step.w in s.workers && s.workers[step.w].todo != [] && id != Current(s, step.w).id
    ensures id in Apply(c, s, step).outbox && Apply(c, s, step).outbox[id] == s.outbox[id]
  {
    hide IsSelection;
  }

  // Writing the current row, or giving it up: no message is sent.
  lemma CurrentRowCopies(c: Config, s: State, step: Step)
    requires Ownership(s) && Enabled(c, s, step) && (step.MarkOk? || step.RecordOk? || step.RecordError? || step.Crash?)
    requires step.w in s.workers && s.workers[step.w].todo != []
    requires Current(s, step.w).id in s.outbox && CopyCount(s, Current(s, step.w).id)
    ensures Current(s, step.w).id in Apply(c, s, step).outbox && Ownership(Apply(c, s, step))
    ensures CopyCount(Apply(c, s, step), Current(s, step.w).id)
  {
    hide IsSelection;
    var s' := Apply(c, s, step);
    var w, id := step.w, Current(s, step.w).id;
    OwnershipKept(c, s, step);
    assert JobInv(s, w);
    assert Fresh(s, w, s.workers[w].todo[0]);
    assert IsCurrent(s, w, id) && Holds(s, w, id);
    AdvanceFacts(s, w);
    assert (step.MarkOk? || step.RecordOk?) ==> !IsCurrent(s', w, id);
  }

  // The owner's progress with its current event, weighed against the copies.
  lemma StageCopies(s: State, s': State, w: WorkerId, id: EventId)
    requires id in s.outbox && id in s.claimedAt && id in s.unrecorded && id in s'.unrecorded && CopyCount(s, id)
    requires s'.outbox == s.outbox && s'.claimedAt == s.claimedAt
    requires s.outbox[id].status == CLAIMED && s.outbox[id].claimOwner == Some(w)
    requires IsCurrent(s, w, id) && Holds(s, w, id) && IsCurrent(s', w, id)
    requires s.workers[w].stage != Recording && s'.workers[w].stage != Publishing
    requires Copies(s'.sent, id) + s.unrecorded[id] + (if s.workers[w].stage == Marking then 1 else 0)
          == Copies(s.sent, id) + s'.unrecorded[id] + (if s'.workers[w].stage == Marking then 1 else 0)
    requires s'.unrecorded[id] <= s.unrecorded[id] + (if s'.workers[w].stage == Recording then 1 else 0)
    ensures CopyCount(s', id)
  {
    hide Copies;
  }

  // Calling the queue, or failing to say so in the table: no row is written.
  lemma CurrentCallCopies(c: Config, s: State, step: Step)
    requires Ownership(s) && Enabled(c, s, step) && (step.PublishOk? || step.PublishError? || step.MarkError?)
    requires step.w in s.workers && s.workers[step.w].todo != []
    requires Current(s, step.w).id in s.outbox && CopyCount(s, Current(s, step.w).id)
    ensures Current(s, step.w).id in Apply(c, s, step).outbox && Ownership(Apply(c, s, step))
    ensures CopyCount(Apply(c, s, step), Current(s, step.w).id)
  {
    hide IsSelection, CopyCount, Copies;
    var s' := Apply(c, s, step);
    var w, id := step.w, Current(s, step.w).id;
    OwnershipKept(c, s, step);
    assert JobInv(s, w) && Fresh(s, w, s.workers[w].todo[0]);
    hide Ownership, JobInv, Fresh;
    if s'.sent != s.sent {
      CopiesAppend(s.sent, s'.sent[|s.sent|], id);
    }
    StageCopies(s, s', w, id);
  }

  lemma ClaimCopies(c: Config, s: State, w: WorkerId, batch: seq<EventId>, locked: set<EventId>, id: EventId)
    requires Ownership(s) && Enabled(c, s, Claim(w, batch, locked)) && id in s.outbox && CopyCount(s, id)
    ensures id in Apply(c, s, Claim(w, batch, locked)).outbox && Ownership(Apply(c, s, Claim(w, batch, locked)))
    ensures CopyCount(Apply(c, s, Claim(w, batch, locked)), id)
  {
    var s' := Apply(c, s, Claim(w, batch, locked));
    ClaimKeepsJobs(c, s, w, batch, locked);
    if id in batch {
      assert id in Eligible(s.outbox, s.now);
    } else {
      var row := s.outbox[id];
      if row.claimOwner == Some(w) {
        forall k | 0 <= k < |batch| ensures s'.workers[w].todo[k].id != id {
          assert batch[k] in batch;
        }
      }
      CopyFrame(s, s', id);
    }
  }

  lemma CreateCopies(c: Config, s: State, step: Step)
    requires Ownership(s) && Sent(s) && step.Create? && Enabled(c, s, step)
    ensures step.id in Apply(c, s, step).outbox && Ownership(Apply(c, s, step))
    ensures CopyCount(Apply(c, s, step), step.id)
  {
    OwnershipKept(c, s, step);
    CopiesPositive(s.sent, step.id);
  }

  lemma CreateElsewhere(c: Config, s: State, step: Step, id: EventId)
    requires Ownership(s) && step.Create? && Enabled(c, s, step) && id in s.outbox && CopyCount(s, id)
    ensures id in Apply(c, s, step).outbox && Ownership(Apply(c, s, step))
    ensures CopyCount(Apply(c, s, step), id)
  {
    hide Copies, JobInv;
    OwnershipKept(c, s, step);
    CopyFrame(s, Apply(c, s, step), id);
  }

  // No worker and no row is involved.
  lemma IdleCopies(c: Config, s: State, step: Step, id: EventId)
    requires Ownership(s) && Enabled(c, s, step) && !step.Create? && !step.Claim? && !IsWork(step)
    requires id in s.outbox && CopyCount(s, id)
    ensures id in Apply(c, s, step).outbox && Ownership(Apply(c, s, step))
    ensures CopyCount(Apply(c, s, step), id)
  {
    hide IsSelection, Copies, JobInv;
    OwnershipKept(c, s, step);
    CopyFrame(s, Apply(c, s, step), id);
  }

  lemma CopiesKept(c: Config, s: State, step: Step, id: EventId)
    requires Ownership(s) && Sent(s) && Enabled(c, s, step)
    requires id in s.outbox ==> CopyCount(s, id)
    requires id in Apply(c, s, step).outbox
    ensures Ownership(Apply(c, s, step))
    ensures CopyCount(Apply(c, s, step), id)
  {
    hide IsSelection;
    OwnershipKept(c, s, step);
    if !step.Create? && !step.Claim? && !IsWork(step) {
      IdleCopies(c, s, step, id);
    } else if step.Create? {
      if id == step.id {
        CreateCopies(c, s, step);
      } else {
        CreateElsewhere(c, s, step, id);
      }
    } else if step.Claim? {
      ClaimCopies(c, s, step.w, step.batch, step.locked, id);
    } else {
      assert JobInv(s, step.w);
      if id == Current(s, step.w).id {
        if step.PublishOk? || step.PublishError? || step.MarkError? {
          CurrentCallCopies(c, s, step);
        } else {
          CurrentRowCopies(c, s, step);
        }
      } else {
        OtherEventsCopies(c, s, step, id);
      }
    }
  }

  lemma RecordIsTimed(c: Config, s: State, step: Step)
    requires Inv(c, s) && Enabled(c, s, step)
    ensures step.RecordOk? ==> step.w in s.workers && Timed(s, step.w)
  {
    hide IsSelection, Ownership, Sent, CopyCount, Spaced, Attempts, Timed;
  }

  lemma TablesMatch(c: Config, s: State, step: Step)
    requires Ownership(s) && Enabled(c, s, step)
    ensures Apply(c, s, step).claimedAt.Keys == Apply(c, s, step).outbox.Keys == Apply(c, s, step).unrecorded.Keys
  {
    hide Apply, Enabled, JobInv;
    OwnershipKept(c, s, step);
  }

  lemma RowKept(c: Config, s: State, step: Step, id: EventId)
    requires Inv(c, s) && Enabled(c, s, step) && id in Apply(c, s, step).outbox
    ensures id in Apply(c, s, step).claimedAt && id in Apply(c, s, step).unrecorded
    ensures Attempts(c, Apply(c, s, step), id) && CopyCount(Apply(c, s, step), id) && Spaced(Apply(c, s, step), id)
  {
    RecordIsTimed(c, s, step);
    TablesMatch(c, s, step);
    hide Apply, Enabled, Ownership, Sent, CopyCount, Spaced, Attempts, Timed;
    AttemptsKept(c, s, step, id);
    CopiesKept(c, s, step, id);
    SpacedKept(c, s, step, id);
  }

  lemma RowsKept(c: Config, s: State, step: Step)
    requires Inv(c, s) && Enabled(c, s, step)
    ensures var s' := Apply(c, s, step);
      && s'.claimedAt.Keys == s'.outbox.Keys == s'.unrecorded.Keys
      && forall id :: id in s'.outbox ==> Attempts(c, s', id) && CopyCount(s', id) && Spaced(s', id)
  {
    TablesMatch(c, s, step);
    hide Inv, Apply, Enabled, CopyCount, Spaced, Attempts;
    var s' := Apply(c, s, step);
    forall id | id in s'.outbox ensures Attempts(c, s', id) && CopyCount(s', id) && Spaced(s', id) {
      RowKept(c, s, step, id);
    }
  }

  lemma WorkersKept(c: Config, s: State, step: Step)
    requires Inv(c, s) && Enabled(c, s, step)
    ensures forall w :: w in Apply(c, s, step).workers ==> Timed(Apply(c, s, step), w)
  {
    hide Inv, Apply, Enabled, Timed;
    forall w | w in Apply(c, s, step).workers ensures Timed(Apply(c, s, step), w) {
      TimedKept(c, s, step, w);
    }
  }

  lemma StepKeepsInv(c: Config, s: State, step: Step)
    requires Inv(c, s) && Enabled(c, s, step)
    ensures Inv(c, Apply(c, s, step))
  {
    hide Apply, Enabled, Ownership, Sent, CopyCount, Spaced, Attempts, Timed;
    OwnershipKept(c, s, step);
    SentKept(c, s, step);
    RowsKept(c, s, step);
    WorkersKept(c, s, step);
  }

  lemma {:induction false} RunKeepsInv(c: Config, s: State, steps: seq<Step>)
    requires Inv(c, s) && ValidRun(c, s, steps)
    ensures Inv(c, Exec(c, s, steps))
    decreases |steps|
  {
    if steps == [] {
    } else {
      StepKeepsInv(c, s, steps[0]);
      RunKeepsInv(c, Apply(c, s, steps[0]), steps[1..]);
    }
  }
}

// When an event may be tried again, and how much work the relay can ever do.

module OutboxTiming {
  import opened Messaging
  import opened OutboxProtocol
  import opened OutboxInvariants
  import opened OutboxTheorems

  // ---------------------------------------------------------------- retry timing

  // Least time between the first claim of an event and its (n+1)-th.
  function BackoffSum(n: nat): nat {
    if n == 0 then 0 else BackoffSum(n - 1) + Delay(n)
  }

  lemma {:induction false} DelayCaps(n: nat)
    ensures Pow2(n) >= 1
    ensures n >= 5 ==> Pow2(n) >= 32 && Delay(n) == 60000
    ensures 1 <= n ==> 4000 <= Delay(n) <= 60000
  {
    if n == 0 {
    } else {
      DelayCaps(n - 1);
    }
    if n == 5 {
      assert Pow2(4) == 16;
    }
  }

  lemma {:induction false} BackoffSumClosed(n: nat)
    ensures n <= 4 ==> BackoffSum(n) == 4000 * (Pow2(n) - 1)
    ensures n >= 4 ==> BackoffSum(n) == 60000 * (n - 3)
  {
    if n == 0 {
    } else {
      BackoffSumClosed(n - 1);
      DelayCaps(n);
      assert n <= 4 ==> Pow2(n) == [1, 2, 4, 8, 16][n];
      assert n <= 4 ==> Pow2(n - 1) == [1, 2, 4, 8, 16][n - 1];
    }
  }

  lemma {:induction false} SpacedSum(times: seq<int>, n: nat)
    requires n < |times|
    requires forall k :: 1 <= k < |times| ==> Gap(times, k)
    ensures times[n] >= times[0] + BackoffSum(n)
  {
    if n == 0 {
    } else {
      SpacedSum(times, n - 1);
      assert Gap(times, n);
    }
  }

  // Whatever the workers do, the (n+1)-th claim of an event waits out n back-offs.
  lemma RetryTiming(c: Config, steps: seq<Step>, id: EventId, n: nat)
    requires ValidRun(c, INIT, steps)
    requires id in Exec(c, INIT, steps).claimedAt && n < |Exec(c, INIT, steps).claimedAt[id]|
    ensures var times := Exec(c, INIT, steps).claimedAt[id];
      && times[n] - times[0] >= BackoffSum(n)
      && (n <= 4 ==> times[n] - times[0] >= 4000 * (Pow2(n) - 1))
      && (n >= 4 ==> times[n] - times[0] >= 60000 * (n - 3))
  {
    ReachableInv(c, steps);
    var s := Exec(c, INIT, steps);
    assert Spaced(s, id);
    SpacedSum(s.claimedAt[id], n);
    BackoffSumClosed(n);
  }

  // A failed attempt puts the event off by 4 to 61 seconds, counted from the moment
  // the error was caught; it is FAILED exactly when it was the last attempt.
  lemma SingleDelay(c: Config, s: State, w: WorkerId, jitter: Jitter)
    requires Inv(c, s) && Enabled(c, s, RecordOk(w, jitter))
    ensures var s' := Apply(c, s, RecordOk(w, jitter));
      var id := Current(s, w).id;
      && id in s'.outbox
      && s.workers[w].since <= s.now
      && 4000 <= s'.outbox[id].nextAttemptAt - s.workers[w].since < 61000
      && (var n := s.outbox[id].attemptCount + 1;
          s'.outbox[id].nextAttemptAt == s.workers[w].since + jitter
            + if n >= 5 then 60000 else [0, 4000, 8000, 16000, 32000][n])
      && s'.outbox[id].attemptCount == s.outbox[id].attemptCount + 1
      && (s'.outbox[id].status == FAILED <==> s.outbox[id].attemptCount + 1 >= c.maxAttempts)
      && (s'.outbox[id].status == PENDING <==> s.outbox[id].attemptCount + 1 < c.maxAttempts)
  {
    hide IsSelection, Sent, CopyCount, Spaced;
    assert JobInv(s, w) && Fresh(s, w, s.workers[w].todo[0]) && Timed(s, w);
    assert Attempts(c, s, Current(s, w).id);
    DelayCaps(s.outbox[Current(s, w).id].attemptCount + 1);
    DelayTable(s.outbox[Current(s, w).id].attemptCount + 1);
  }

  // ---------------------------------------------------------------- bounded work

  // Claims and finishes the row may still take part in.
  function Weight(c: Config, row: Row): nat {
    var left := 2 * (Budget(c) - row.attemptCount);
    if row.attemptCount >= Budget(c) then 0
    else match row.status
      case PENDING => left
      case CLAIMED => left - 1
      case PUBLISHED => 0
      case FAILED => 0
  }

  ghost function Total(c: Config, outbox: map<EventId, Row>): nat
    decreases |outbox|
  {
    if outbox == map[] then 0
    else
      var id :| id in outbox;
      assert |outbox - {id}| < |outbox| by { MapShrinks(outbox, id); }
      Weight(c, outbox[id]) + Total(c, outbox - {id})
  }

  lemma MapShrinks(outbox: map<EventId, Row>, id: EventId)
    requires id in outbox
    ensures |outbox - {id}| == |outbox| - 1
  {
    assert (outbox - {id}).Keys == outbox.Keys - {id};
    assert |outbox.Keys| == |outbox.Keys - {id}| + 1;
    assert |(outbox - {id}).Keys| == |outbox - {id}|;
    assert |outbox.Keys| == |outbox|;
  }

  // The total does not depend on the row that is counted first.
  lemma {:induction false} TotalSplit(c: Config, outbox: map<EventId, Row>, id: EventId)
    requires id in outbox
    ensures Total(c, outbox) == Weight(c, outbox[id]) + Total(c, outbox - {id})
    decreases |outbox|
  {
    var first :| id in outbox && first in outbox &&
      Total(c, outbox) == Weight(c, outbox[first]) + Total(c, outbox - {first});
    if first == id {
    } else {
      MapShrinks(outbox, first);
      MapShrinks(outbox, id);
      TotalSplit(c, outbox - {first}, id);
      TotalSplit(c, outbox - {id}, first);
      assert outbox - {first} - {id} == outbox - {id} - {first};
    }
  }

  lemma TotalUpdate(c: Config, outbox: map<EventId, Row>, id: EventId, row: Row)
    ensures Total(c, outbox[id := row]) == Weight(c, row) + Total(c, outbox - {id})
    ensures id in outbox ==> Total(c, outbox[id := row]) == Total(c, outbox) - Weight(c, outbox[id]) + Weight(c, row)
  {
    TotalSplit(c, outbox[id := row], id);
    assert outbox[id := row] - {id} == outbox - {id};
    if id in outbox {
      TotalSplit(c, outbox, id);
    }
  }

  // Claiming costs one unit a row.
  lemma {:induction false} TotalClaim(c: Config, outbox: map<EventId, Row>, ids: set<EventId>, w: WorkerId, now: int)
    requires forall id :: id in ids ==>
      id in outbox && outbox[id].status == PENDING && outbox[id].attemptCount < Budget(c)
    ensures Total(c, ClaimRows(outbox, ids, w, now)) == Total(c, outbox) - |ids|
  {
    if ids == {} {
      assert ClaimRows(outbox, ids, w, now) == outbox;
    } else {
      var id :| id in ids;
      TotalClaim(c, outbox, ids - {id}, w, now);
      var before := ClaimRows(outbox, ids - {id}, w, now);
      var row := outbox[id].(status := CLAIMED, claimOwner := Some(w), leaseUntil := Some(now + LEASE_MS));
      assert ClaimRows(outbox, ids, w, now) == before[id := row];
      TotalUpdate(c, before, id, row);
    }
  }

  // Row claims plus finished events in a run.
  function StepWork(step: Step): nat {
    match step
    case Claim(_, batch, _) => |batch|
    case MarkOk(_) => 1
    case RecordOk(_, _) => 1
    case _ => 0
  }

  function Work(steps: seq<Step>): nat {
    if steps == [] then 0 else StepWork(steps[0]) + Work(steps[1..])
  }

  function Created(steps: seq<Step>): nat {
    if steps == [] then 0 else (if steps[0].Create? then 1 else 0) + Created(steps[1..])
  }

  // The work that the events created in a run may cost.
  function Granted(c: Config, steps: seq<Step>): nat {
    if steps == [] then 0 else (if steps[0].Create? then 2 * Budget(c) else 0) + Granted(c, steps[1..])
  }

  lemma {:induction false} GrantedIsLinear(c: Config, steps: seq<Step>)
    ensures Granted(c, steps) == 2 * Budget(c) * Created(steps)
  {
    if steps == [] {
    } else {
      GrantedIsLinear(c, steps[1..]);
      var b, n := Budget(c), Created(steps[1..]);
      assert 2 * b * (1 + n) == 2 * b + 2 * b * n;
    }
  }

  // Every claim and every finish uses up the measure; only a new event adds to it.
  lemma StepUsesTotal(c: Config, s: State, step: Step)
    requires Inv(c, s) && Enabled(c, s, step)
    ensures Total(c, Apply(c, s, step).outbox) + StepWork(step) <= Total(c, s.outbox) + Granted(c, [step])
  {
    assert Granted(c, [step]) == if step.Create? then 2 * Budget(c) else 0;
    if IsQuiet(step) {
      hide Inv, Apply, Enabled;
      QuietFrame(c, s, step);
    } else {
      hide Inv, IsSelection, Total;
      match step {
        case Create(id, content, stamp) => CreateAddsTotal(c, s, id, content, stamp);
        case Claim(w, batch, locked) => ClaimUsesTotal(c, s, w, batch, locked);
        case MarkOk(w) => FinishUsesTotal(c, s, w, Apply(c, s, step).outbox[Current(s, w).id]);
        case RecordOk(w, jitter) => FinishUsesTotal(c, s, w, Apply(c, s, step).outbox[Current(s, w).id]);
      }
    }
  }

  lemma CreateAddsTotal(c: Config, s: State, id: EventId, content: Content, stamp: int)
    requires Enabled(c, s, Create(id, content, stamp))
    ensures Total(c, Apply(c, s, Create(id, content, stamp)).outbox) == Total(c, s.outbox) + 2 * Budget(c)
  {
    TotalUpdate(c, s.outbox, id, Apply(c, s, Create(id, content, stamp)).outbox[id]);
    assert s.outbox - {id} == s.outbox;
  }

  lemma ClaimUsesTotal(c: Config, s: State, w: WorkerId, batch: seq<EventId>, locked: set<EventId>)
    requires Inv(c, s) && Enabled(c, s, Claim(w, batch, locked))
    ensures Total(c, Apply(c, s, Claim(w, batch, locked)).outbox) == Total(c, s.outbox) - |batch|
  {
    forall id | id in batch
      ensures id in s.outbox && s.outbox[id].status == PENDING && s.outbox[id].attemptCount < Budget(c)
    {
      assert id in Eligible(s.outbox, s.now);
      assert Attempts(c, s, id);
    }
    TotalClaim(c, s.outbox, IdSet(batch), w, s.now);
    DistinctSize(batch);
  }

  lemma FinishUsesTotal(c: Config, s: State, w: WorkerId, row: Row)
    requires Inv(c, s) && w in s.workers && s.workers[w].todo != []
    requires
      || row.status in {PUBLISHED, FAILED}
      || (row.status == PENDING && row.attemptCount == Current(s, w).attemptCount + 1)
    ensures Total(c, s.outbox[Current(s, w).id := row]) < Total(c, s.outbox)
  {
    var id := Current(s, w).id;
    assert JobInv(s, w) && Fresh(s, w, s.workers[w].todo[0]);
    assert Attempts(c, s, id);
    TotalUpdate(c, s.outbox, id, row);
  }

  lemma {:induction false} RunUsesTotal(c: Config, s: State, steps: seq<Step>)
    requires Inv(c, s) && ValidRun(c, s, steps)
    ensures Work(steps) + Total(c, Exec(c, s, steps).outbox) <= Total(c, s.outbox) + Granted(c, steps)
    decreases |steps|
  {
    if steps == [] {
    } else {
      StepUsesTotal(c, s, steps[0]);
      StepKeepsInv(c, s, steps[0]);
      RunUsesTotal(c, Apply(c, s, steps[0]), steps[1..]);
    }
  }

  // ---- one row per Create step

  lemma StepRows(c: Config, s: State, step: Step)
    requires Ownership(s) && Enabled(c, s, step)
    ensures step.Create? ==> Apply(c, s, step).outbox.Keys == s.outbox.Keys + {step.id} && step.id !in s.outbox.Keys
    ensures !step.Create? ==> Apply(c, s, step).outbox.Keys == s.outbox.Keys
  {
    if step.Create? {
    } else if step.Claim? {
      assert forall id :: id in ClaimRows(s.outbox, IdSet(step.batch), step.w, s.now) <==> id in s.outbox;
    } else if step.MarkOk? || step.RecordOk? {
      assert JobInv(s, step.w) && Fresh(s, step.w, s.workers[step.w].todo[0]);
    } else {
      assert Apply(c, s, step).outbox == s.outbox;
    }
  }

  lemma {:induction false} RunRows(c: Config, s: State, steps: seq<Step>)
    requires Ownership(s) && ValidRun(c, s, steps)
    ensures |Exec(c, s, steps).outbox.Keys| == |s.outbox.Keys| + Created(steps)
    decreases |steps|
  {
    if steps == [] {
    } else {
      StepRows(c, s, steps[0]);
      OwnershipKept(c, s, steps[0]);
      RunRows(c, Apply(c, s, steps[0]), steps[1..]);
    }
  }

  // N events take at most 2 * N * maxAttempts claims and finishes together, over
  // any run; `Total` is what is left of that allowance.
  lemma BoundedWork(c: Config, steps: seq<Step>)
    requires ValidRun(c, INIT, steps)
    ensures var budget := if c.maxAttempts < 1 then 1 else c.maxAttempts;
      Work(steps) + Total(c, Exec(c, INIT, steps).outbox) <= 2 * budget * |Exec(c, INIT, steps).outbox.Keys|
  {
    InitInv(c);
    RunUsesTotal(c, INIT, steps);
    RunRows(c, INIT, steps);
    GrantedIsLinear(c, steps);
    assert Total(c, map[]) == 0;
    assert Created(steps) == |Exec(c, INIT, steps).outbox.Keys|;
  }
}

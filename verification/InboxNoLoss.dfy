// When a message is deleted, has it been handled?  Always, for any number of consumers,
// in runs without four things: a failing reservation, a failing rollback, a crash, and
// a delivery that overlaps another one of the same key.  Each of them alone loses messages.

module InboxNoLoss {
  import opened Messaging
  import opened TenantKeys
  import opened InboxProtocol
  import opened InboxAtMostOnce

  const CONSUMER: ConsumerId := 0

  ghost predicate HasRun(runs: seq<HandlerRun>, key: string) {
    exists i :: 0 <= i < |runs| && runs[i].key == key
  }

  // Every deleted message with a type and a tenant has had its handler run.
  ghost predicate NoneLost(s: State) {
    forall i :: i in s.deleted ==> i < |s.sent| && (Proper(s.sent[i]) ==> HasRun(s.runs, KeyOf(s.sent[i])))
  }

  lemma RunsGrow(runs: seq<HandlerRun>, run: HandlerRun)
    ensures forall key :: HasRun(runs + [run], key) <==> (HasRun(runs, key) || run.key == key)
  {
    forall key ensures HasRun(runs + [run], key) <==> (HasRun(runs, key) || run.key == key) {
      if HasRun(runs, key) {
        var i :| 0 <= i < |runs| && runs[i].key == key;
        assert (runs + [run])[i].key == key;
      }
      if run.key == key {
        assert (runs + [run])[|runs|].key == key;
      }
    }
  }

  // ---------------------------------------------------------------- exactly when a message is lost

  // Whoever is past the handler has a run to show for it.
  ghost predicate HandledHasRun(s: State) {
    Handling(s) && forall k :: At(s, k, Handled) ==> HasRun(s.runs, Key(s, k))
  }

  // A refused message is deleted although no handler run for its key ever completed.
  ghost predicate BlindDrop(s: State, step: Step) {
    step.Drop? && step.gone && At(s, step.k, Refused) && !HasRun(s.runs, Key(s, step.k))
  }

  lemma StepKeepsHandled(s: State, step: Step)
    requires HandledHasRun(s) && Enabled(s, step)
    ensures HandledHasRun(Apply(s, step))
  {
    var s' := Apply(s, step);
    StepKeepsHandling(s, step);
    hide Apply, Enabled, Handling, At, Key, HasRun;
    forall k | At(s', k, Handled) ensures HasRun(s'.runs, Key(s', k)) {
      HandledStays(s, step, k);
      if At(s, k, Handled) && Key(s', k) == Key(s, k) {
        RunsOnlyGrow(s, step, Key(s, k));
      }
    }
  }

  lemma HandledStays(s: State, step: Step, k: ConsumerId)
    requires Handling(s) && Enabled(s, step) && At(Apply(s, step), k, Handled)
    ensures var s' := Apply(s, step);
      || (At(s, k, Handled) && Key(s', k) == Key(s, k))
      || (step.HandleOk? && step.k == k && HasRun(s'.runs, Key(s', k)))
  {
    var s' := Apply(s, step);
    hide KeyOf, Proper, EffectOf;
    if !IsOwn(step, k) {
      OthersStay(s, step, k);
      hide Apply, Enabled, Handling;
      SameHandler(s, s', k);
    } else if step.HandleOk? {
      RunsGrow(s.runs, s'.runs[|s.runs|]);
    }
  }

  // Of all steps of any number of consumers, failing and crashing as they may, the
  // blind drop is the one that loses a message.
  lemma StepLosesExactly(s: State, step: Step)
    requires HandledHasRun(s) && NoneLost(s) && Enabled(s, step)
    ensures NoneLost(Apply(s, step)) <==> !BlindDrop(s, step)
  {
    var s' := Apply(s, step);
    if step.HandleOk? {
      RunsGrow(s.runs, s'.runs[|s.runs|]);
    }
    if step.Drop? && step.gone {
      assert s.consumers[step.k].message in s'.deleted;
    }
  }

  // No state of the run has a message that was deleted unhandled.
  ghost predicate NeverLost(s: State, steps: seq<Step>)
    requires ValidRun(s, steps)
    decreases |steps|
  {
    NoneLost(s) && (steps == [] || NeverLost(Apply(s, steps[0]), steps[1..]))
  }

  ghost predicate NoBlindDrop(s: State, steps: seq<Step>)
    requires ValidRun(s, steps)
    decreases |steps|
  {
    steps == [] || (!BlindDrop(s, steps[0]) && NoBlindDrop(Apply(s, steps[0]), steps[1..]))
  }

  lemma {:induction false} RunLosesExactly(s: State, steps: seq<Step>)
    requires HandledHasRun(s) && NoneLost(s) && ValidRun(s, steps)
    ensures NeverLost(s, steps) <==> NoBlindDrop(s, steps)
    decreases |steps|
  {
    hide NoneLost, HandledHasRun, BlindDrop, Enabled, Apply;
    if steps == [] {
    } else {
      StepKeepsHandled(s, steps[0]);
      StepLosesExactly(s, steps[0]);
      if NoneLost(Apply(s, steps[0])) {
        RunLosesExactly(Apply(s, steps[0]), steps[1..]);
      }
    }
  }

  // Read off the run: a refused message is deleted only after some consumer completed
  // a handler for its key.  `handled` are the keys completed so far.
  ghost predicate DropsFollowHandlers(s: State, steps: seq<Step>, handled: set<string>)
    requires ValidRun(s, steps)
    decreases |steps|
  {
    steps == [] ||
    (((steps[0].Drop? && steps[0].gone) ==> Key(s, steps[0].k) in handled)
     && DropsFollowHandlers(Apply(s, steps[0]), steps[1..], handled + Completed(s, steps[0])))
  }

  ghost function Completed(s: State, step: Step): set<string>
    requires Enabled(s, step)
  {
    if step.HandleOk? then {Key(s, step.k)} else {}
  }

  ghost predicate Tracks(s: State, handled: set<string>) {
    forall key :: HasRun(s.runs, key) <==> key in handled
  }

  lemma StepTracks(s: State, step: Step, handled: set<string>)
    requires Enabled(s, step) && Tracks(s, handled)
    ensures Tracks(Apply(s, step), handled + Completed(s, step))
    ensures BlindDrop(s, step) <==> !((step.Drop? && step.gone) ==> Key(s, step.k) in handled)
  {
    hide KeyOf, Proper, EffectOf;
    if step.HandleOk? {
      RunsGrow(s.runs, Apply(s, step).runs[|s.runs|]);
    }
  }

  lemma {:induction false} BlindnessIsVisible(s: State, steps: seq<Step>, handled: set<string>)
    requires ValidRun(s, steps) && Tracks(s, handled)
    ensures NoBlindDrop(s, steps) <==> DropsFollowHandlers(s, steps, handled)
    decreases |steps|
  {
    hide Tracks, Completed, BlindDrop, Apply, Enabled;
    if steps == [] {
    } else {
      StepTracks(s, steps[0], handled);
      BlindnessIsVisible(Apply(s, steps[0]), steps[1..], handled + Completed(s, steps[0]));
    }
  }

  // With any number of consumers, redeliveries, failing writes and crashes: throughout
  // the run every message is handled before it is deleted, if and only if every refused
  // message that was deleted was so after a completed handler for its key.
  lemma LossExactly(steps: seq<Step>)
    requires ValidRun(INIT, steps)
    ensures NeverLost(INIT, steps) <==> DropsFollowHandlers(INIT, steps, {})
  {
    RunLosesExactly(INIT, steps);
    BlindnessIsVisible(INIT, steps, {});
  }

  // ---------------------------------------------------------------- what causes a loss

  // Consumer k has a message of this key in hand.
  ghost predicate Busy(s: State, k: ConsumerId, key: string) {
    && k in s.consumers && s.consumers[k].message < |s.sent|
    && Proper(s.sent[s.consumers[k].message]) && KeyOf(s.sent[s.consumers[k].message]) == key
  }

  // The queue delivers a message while another consumer has one of the same key in hand.
  ghost predicate Overlaps(s: State, step: Step) {
    step.Receive? && step.i < |s.sent| && Proper(s.sent[step.i]) && exists k :: Busy(s, k, KeyOf(s.sent[step.i]))
  }

  datatype Cause = RESERVE_FAULT | ROLLBACK_ERROR | CRASH | OVERLAP

  ghost predicate Causes(s: State, step: Step, cause: Cause) {
    match cause
    case RESERVE_FAULT => step.ReserveFault?
    case ROLLBACK_ERROR => step.RollbackError?
    case CRASH => step.Crash?
    case OVERLAP => Overlaps(s, step)
  }

  // Of the four causes, the run has these at most.
  ghost predicate OnlyCauses(s: State, steps: seq<Step>, permitted: set<Cause>)
    requires ValidRun(s, steps)
    decreases |steps|
  {
    steps == [] ||
    ((forall cause :: Causes(s, steps[0], cause) ==> cause in permitted)
     && OnlyCauses(Apply(s, steps[0]), steps[1..], permitted))
  }

  // A step that is none of the four.
  ghost predicate Orderly(s: State, step: Step) {
    !step.ReserveFault? && !step.RollbackError? && !step.Crash? && !Overlaps(s, step)
  }

  // ---- the invariant

  ghost predicate Owner(s: State, k: ConsumerId, key: string) {
    Active(s, k) && Key(s, k) == key
  }

  // Every key in the inbox has had its handler run, or is being handled.
  ghost predicate InboxHasRun(s: State) {
    forall key :: key in s.inbox ==> HasRun(s.runs, key) || exists k :: Owner(s, k, key)
  }

  ghost predicate OnePerKey(s: State) {
    forall k, l, key :: Busy(s, k, key) && Busy(s, l, key) ==> k == l
  }

  ghost predicate RefusedHasRun(s: State) {
    forall k :: At(s, k, Refused) ==> HasRun(s.runs, Key(s, k))
  }

  // Nothing is lost, nor about to be.
  ghost predicate Accounted(s: State) {
    HandledHasRun(s) && NoneLost(s) && OnePerKey(s) && InboxHasRun(s) && RefusedHasRun(s)
  }

  lemma OthersStay(s: State, step: Step, v: ConsumerId)
    requires Handling(s) && Enabled(s, step) && !IsOwn(step, v)
    ensures var s' := Apply(s, step);
      && s.sent <= s'.sent && (v in s'.consumers <==> v in s.consumers)
      && (v in s.consumers ==> s'.consumers[v] == s.consumers[v] && s.consumers[v].message < |s.sent|)
  {
    hide KeyOf, Proper, EffectOf;
    assert v in s.consumers ==> s.consumers[v].message < |s.sent|;
    hide Handling, At;
  }

  lemma SameHandler(s: State, s': State, v: ConsumerId)
    requires s.sent <= s'.sent && v in s.consumers && v in s'.consumers && s'.consumers[v] == s.consumers[v]
    requires s.consumers[v].message < |s.sent|
    ensures forall stage :: At(s', v, stage) <==> At(s, v, stage)
    ensures forall key :: Busy(s', v, key) <==> Busy(s, v, key)
    ensures forall key :: Owner(s', v, key) <==> Owner(s, v, key)
    ensures forall stage :: At(s, v, stage) ==> Key(s', v) == Key(s, v)
  {
    hide KeyOf, Proper;
    assert s'.sent[s.consumers[v].message] == s.sent[s.consumers[v].message];
  }

  // A consumer comes to a key by receiving a message of it.
  lemma BusyOnlyByReceive(s: State, step: Step, v: ConsumerId, key: string)
    requires Handling(s) && Enabled(s, step) && Busy(Apply(s, step), v, key)
    ensures Busy(s, v, key) ||
      (step.Receive? && step.k == v && Proper(s.sent[step.i]) && KeyOf(s.sent[step.i]) == key)
  {
    if IsOwn(step, v) {
      hide KeyOf, Proper, EffectOf;
    } else {
      OthersStay(s, step, v);
      hide Apply, Enabled;
      SameHandler(s, Apply(s, step), v);
    }
  }

  lemma StepKeepsOnePerKey(s: State, step: Step)
    requires Handling(s) && OnePerKey(s) && Enabled(s, step) && !Overlaps(s, step)
    ensures OnePerKey(Apply(s, step))
  {
    var s' := Apply(s, step);
    hide Apply, KeyOf, Proper;
    forall k, l, key | Busy(s', k, key) && Busy(s', l, key) ensures k == l {
      BusyOnlyByReceive(s, step, k, key);
      BusyOnlyByReceive(s, step, l, key);
    }
  }

  lemma RunsOnlyGrow(s: State, step: Step, key: string)
    requires Enabled(s, step) && HasRun(s.runs, key)
    ensures HasRun(Apply(s, step).runs, key)
  {
    var s' := Apply(s, step);
    if step.HandleOk? {
      RunsGrow(s.runs, s'.runs[|s.runs|]);
    }
  }

  // An owner stays one, unless it completes its handler or rolls back.
  lemma OwnerStays(s: State, step: Step, v: ConsumerId, key: string)
    requires Handling(s) && Enabled(s, step) && Owner(s, v, key) && !step.RollbackError? && !step.Crash?
    ensures var s' := Apply(s, step);
      || Owner(s', v, key)
      || (step.HandleOk? && step.k == v && HasRun(s'.runs, key))
      || (step.RollbackOk? && step.k == v && key !in s'.inbox)
  {
    var s' := Apply(s, step);
    hide KeyOf, Proper, EffectOf;
    if !IsOwn(step, v) {
      OthersStay(s, step, v);
      hide Apply, Enabled;
      SameHandler(s, s', v);
    } else {
      hide Handling, HasRun;
      OwnersStep(s, step, v);
      hide Apply, Enabled, Active, Key;
      if step.HandleOk? {
        OwnerHandles(s, v);
      }
    }
  }

  lemma OwnersStep(s: State, step: Step, v: ConsumerId)
    requires Enabled(s, step) && Active(s, v) && IsOwn(step, v) && !step.RollbackError? && !step.Crash?
    ensures var s' := Apply(s, step);
      || step == HandleOk(v)
      || (step == RollbackOk(v) && Key(s, v) !in s'.inbox)
      || (Active(s', v) && Key(s', v) == Key(s, v))
  {
    hide KeyOf, Proper, EffectOf;
  }

  lemma OwnerHandles(s: State, v: ConsumerId)
    requires Enabled(s, HandleOk(v))
    ensures HasRun(Apply(s, HandleOk(v)).runs, Key(s, v))
  {
    hide KeyOf, Proper, EffectOf;
    assert Apply(s, HandleOk(v)).runs[|s.runs|].key == Key(s, v);
  }

  lemma InboxGrowsByReservation(s: State, step: Step, key: string)
    requires Enabled(s, step) && key in Apply(s, step).inbox
    ensures key in s.inbox || (step.ReserveOk? && Owner(Apply(s, step), step.k, key))
  {
    hide KeyOf, Proper, EffectOf;
  }

  lemma StepKeepsInboxHasRun(s: State, step: Step)
    requires Handling(s) && InboxHasRun(s) && Enabled(s, step) && !step.RollbackError? && !step.Crash?
    ensures InboxHasRun(Apply(s, step))
  {
    var s' := Apply(s, step);
    hide Apply, Enabled, HasRun, Owner;
    forall key | key in s'.inbox ensures HasRun(s'.runs, key) || exists k :: Owner(s', k, key) {
      InboxGrowsByReservation(s, step, key);
      if key in s.inbox {
        if HasRun(s.runs, key) {
          RunsOnlyGrow(s, step, key);
        } else {
          var k :| Owner(s, k, key);
          OwnerStays(s, step, k, key);
        }
      }
    }
  }

  lemma OwnerIsBusy(s: State, k: ConsumerId, key: string)
    requires Handling(s) && Owner(s, k, key)
    ensures Busy(s, k, key)
  {
    hide KeyOf, Proper;
  }

  // A message that is refused as a duplicate has been handled: its key is in the inbox,
  // and nobody else has it in hand.
  lemma DuplicateHasRun(s: State, k: ConsumerId)
    requires Handling(s) && OnePerKey(s) && InboxHasRun(s) && Enabled(s, ReserveDuplicate(k))
    ensures HasRun(s.runs, Key(s, k))
  {
    hide KeyOf, Proper, HasRun;
    var key := Key(s, k);
    assert Busy(s, k, key) && !Owner(s, k, key);
    hide Busy, Owner;
    forall l ensures !Owner(s, l, key) {
      if Owner(s, l, key) {
        OwnerIsBusy(s, l, key);
      }
    }
  }

  lemma RefusedIsRefused(s: State, step: Step, v: ConsumerId)
    requires Handling(s) && Enabled(s, step) && At(Apply(s, step), v, Refused)
    ensures (At(s, v, Refused) && Key(Apply(s, step), v) == Key(s, v))
      || ((step.ReserveDuplicate? || step.ReserveFault?) && step.k == v && Key(Apply(s, step), v) == Key(s, v)
          && At(s, v, Received))
  {
    hide KeyOf, Proper, EffectOf, Enabled;
    if !IsOwn(step, v) {
      OthersStay(s, step, v);
      SameHandler(s, Apply(s, step), v);
    } else {
      RefusedByOwnStep(s, step, v);
    }
  }

  lemma RefusedByOwnStep(s: State, step: Step, v: ConsumerId)
    requires Enabled(s, step) && At(Apply(s, step), v, Refused) && IsOwn(step, v)
    ensures (step.ReserveDuplicate? || step.ReserveFault?) && At(s, v, Received)
    ensures Key(Apply(s, step), v) == Key(s, v)
  {
    hide KeyOf, Proper, EffectOf;
  }

  // After any step but a crash, a failed rollback or an overlapping delivery, whatever
  // was accounted for still is, unless a reservation failed for a key without a run.
  lemma StepKeepsRefused(s: State, step: Step)
    requires Handling(s) && OnePerKey(s) && InboxHasRun(s) && RefusedHasRun(s) && Enabled(s, step)
    requires step.ReserveFault? ==> HasRun(s.runs, Key(s, step.k))
    ensures RefusedHasRun(Apply(s, step))
  {
    var s' := Apply(s, step);
    forall v | At(s', v, Refused) ensures HasRun(s'.runs, Key(s', v)) {
      RefusedIsRefused(s, step, v);
      if step.ReserveDuplicate? && step.k == v {
        DuplicateHasRun(s, v);
      }
      hide Apply, Enabled, HasRun, KeyOf, Proper;
      RunsOnlyGrow(s, step, Key(s, v));
    }
  }

  lemma RefusedIsNotBlind(s: State, step: Step)
    requires RefusedHasRun(s)
    ensures !BlindDrop(s, step)
  {
  }

  lemma StepKeepsAccounted(s: State, step: Step)
    requires Accounted(s) && Enabled(s, step) && !step.RollbackError? && !step.Crash? && !Overlaps(s, step)
    requires step.ReserveFault? ==> HasRun(s.runs, Key(s, step.k))
    ensures Accounted(Apply(s, step)) && !BlindDrop(s, step)
  {
    hide Apply, Enabled, NoneLost, OnePerKey, InboxHasRun, RefusedHasRun, Overlaps, BlindDrop, KeyOf, HasRun;
    RefusedIsNotBlind(s, step);
    StepKeepsHandled(s, step);
    StepLosesExactly(s, step);
    StepKeepsOnePerKey(s, step);
    StepKeepsInboxHasRun(s, step);
    StepKeepsRefused(s, step);
  }

  lemma FaultBreaksAccount(s: State, step: Step)
    requires Enabled(s, step) && step.ReserveFault? && !HasRun(s.runs, Key(s, step.k))
    ensures !RefusedHasRun(Apply(s, step))
  {
    var s' := Apply(s, step);
    assert At(s', step.k, Refused) && Key(s', step.k) == Key(s, step.k);
  }

  // Where nobody crashes, fails to roll back or overlaps, the one step after which a
  // message is lost or about to be is a reservation that fails for a key without a run.
  lemma FaultLosesExactly(s: State, step: Step)
    requires Accounted(s) && Enabled(s, step) && !step.RollbackError? && !step.Crash? && !Overlaps(s, step)
    ensures Accounted(Apply(s, step)) <==> !(step.ReserveFault? && !HasRun(s.runs, Key(s, step.k)))
  {
    if step.ReserveFault? && !HasRun(s.runs, Key(s, step.k)) {
      FaultBreaksAccount(s, step);
    } else {
      StepKeepsAccounted(s, step);
    }
  }

  lemma OrderlyStep(s: State, steps: seq<Step>)
    requires ValidRun(s, steps) && steps != [] && OnlyCauses(s, steps, {})
    ensures Orderly(s, steps[0]) && OnlyCauses(Apply(s, steps[0]), steps[1..], {})
  {
    assert forall cause :: Causes(s, steps[0], cause) ==> cause in {};
    assert !Causes(s, steps[0], RESERVE_FAULT) && !Causes(s, steps[0], ROLLBACK_ERROR);
    assert !Causes(s, steps[0], CRASH) && !Causes(s, steps[0], OVERLAP);
  }

  lemma {:induction false} RunKeepsAccounted(s: State, steps: seq<Step>)
    requires Accounted(s) && ValidRun(s, steps) && OnlyCauses(s, steps, {})
    ensures Accounted(Exec(s, steps)) && NoBlindDrop(s, steps)
    decreases |steps|
  {
    hide Accounted, Apply, Enabled, BlindDrop, OnlyCauses, Overlaps;
    if steps == [] {
    } else {
      OrderlyStep(s, steps);
      StepKeepsAccounted(s, steps[0]);
      RunKeepsAccounted(Apply(s, steps[0]), steps[1..]);
    }
  }

  // Any number of consumers, without the four causes: nothing is ever deleted unhandled,
  // however the queue redelivers, handlers fail and prunes fall, and every key in the
  // inbox is that of a completed run or of a handler in flight.
  lemma OrderlyNeverLoses(steps: seq<Step>)
    requires ValidRun(INIT, steps) && OnlyCauses(INIT, steps, {})
    ensures NeverLost(INIT, steps)
    ensures NoneLost(Exec(INIT, steps)) && InboxHasRun(Exec(INIT, steps))
  {
    RunKeepsAccounted(INIT, steps);
    RunLosesExactly(INIT, steps);
  }

  // ---------------------------------------------------------------- one consumer

  // One consumer that does not die, whose rollbacks work and whose reservations fail
  // for duplicates only.
  predicate Sequential(step: Step) {
    match step
    case Receive(k, _) => k == CONSUMER
    case ReserveFault(_) => false
    case RollbackError(_) => false
    case Crash(_) => false
    case _ => true
  }

  predicate SequentialRun(steps: seq<Step>) {
    forall i :: 0 <= i < |steps| ==> Sequential(steps[i])
  }

  ghost predicate Sole(s: State) {
    Handling(s) && forall k :: k in s.consumers ==> k == CONSUMER
  }

  // What one consumer may do whose faults are limited to these causes.
  predicate Alone(step: Step, permitted: set<Cause>) {
    match step
    case Receive(k, _) => k == CONSUMER
    case ReserveFault(_) => RESERVE_FAULT in permitted
    case RollbackError(_) => ROLLBACK_ERROR in permitted
    case Crash(_) => CRASH in permitted
    case _ => true
  }

  // A consumer on its own overlaps with nobody.
  lemma StepKeepsSole(s: State, step: Step, permitted: set<Cause>)
    requires Sole(s) && Enabled(s, step) && Alone(step, permitted)
    ensures Sole(Apply(s, step))
    ensures forall cause :: Causes(s, step, cause) ==> cause in permitted
  {
    hide KeyOf, Proper, EffectOf;
  }

  lemma {:induction false} AloneNeverOverlaps(s: State, steps: seq<Step>, permitted: set<Cause>)
    requires Sole(s) && ValidRun(s, steps) && forall i :: 0 <= i < |steps| ==> Alone(steps[i], permitted)
    ensures OnlyCauses(s, steps, permitted)
    decreases |steps|
  {
    if steps == [] {
    } else {
      StepKeepsSole(s, steps[0], permitted);
      hide Sole, Apply, Enabled, Causes, Alone;
      AloneNeverOverlaps(Apply(s, steps[0]), steps[1..], permitted);
    }
  }

  // Nothing is ever deleted unhandled, and between messages every key in the inbox is
  // the key of a completed handler run.
  lemma NoLoss(steps: seq<Step>)
    requires ValidRun(INIT, steps) && SequentialRun(steps)
    ensures NeverLost(INIT, steps) && NoneLost(Exec(INIT, steps))
    ensures var s := Exec(INIT, steps);
      s.consumers == map[] ==> forall key :: key in s.inbox ==> HasRun(s.runs, key)
  {
    AloneNeverOverlaps(INIT, steps, {});
    OrderlyNeverLoses(steps);
    assert Exec(INIT, steps).consumers == map[] ==> forall k, key :: !Owner(Exec(INIT, steps), k, key);
  }

  // The inbox is the set of completed keys, plus the one being handled.
  ghost predicate InboxIsDone(s: State) {
    if Active(s, CONSUMER)
    then Key(s, CONSUMER) !in s.done && s.inbox == s.done[Key(s, CONSUMER) := s.consumers[CONSUMER].reservedAt]
    else s.inbox == s.done
  }

  // ---------------------------------------------------------------- the inbox, exactly

  lemma SparesTheConsumer(s: State, cutoff: int)
    requires Sole(s)
    ensures Spares(s, Prune(cutoff)) <==> (Active(s, CONSUMER) ==> s.consumers[CONSUMER].reservedAt >= cutoff)
  {
  }

  // A prune keeps the inbox in step with what was done if and only if it spares the
  // reservation of the handler in flight.
  lemma PruneKeepsInboxExactly(s: State, cutoff: int)
    requires Sole(s) && InboxIsDone(s) && Enabled(s, Prune(cutoff))
    ensures InboxIsDone(Apply(s, Prune(cutoff))) <==> Spares(s, Prune(cutoff))
  {
    SparesTheConsumer(s, cutoff);
    var s' := Apply(s, Prune(cutoff));
    assert s'.inbox == Since(s.inbox, cutoff) && s'.done == Since(s.done, cutoff);
    assert Active(s', CONSUMER) == Active(s, CONSUMER);
    assert Active(s, CONSUMER) ==> Key(s', CONSUMER) == Key(s, CONSUMER);
    assert s'.consumers == s.consumers;
    hide Sole, Spares, Active, Key, Enabled, Apply, Since;
    if Active(s, CONSUMER) {
      var key, at := Key(s, CONSUMER), s.consumers[CONSUMER].reservedAt;
      PruneUpdated(s.done, key, at, cutoff);
    }
  }

  lemma PruneUpdated(done: map<string, int>, key: string, at: int, cutoff: int)
    requires key !in done
    ensures at >= cutoff ==> Since(done[key := at], cutoff) == Since(done, cutoff)[key := at]
    ensures at < cutoff ==> key !in Since(done[key := at], cutoff)
  {
  }

  lemma StepKeepsInboxIsDone(s: State, step: Step)
    requires Sole(s) && InboxIsDone(s) && Enabled(s, step) && Sequential(step) && Spares(s, step)
    ensures InboxIsDone(Apply(s, step))
  {
    hide KeyOf, Proper, EffectOf;
    match step {
      case Prune(cutoff) => PruneKeepsInboxExactly(s, cutoff);
      case ReserveOk(_) => ReserveKeepsInboxIsDone(s, step);
      case RollbackOk(_) => LeaveKeepsInboxIsDone(s, step);
      case HandleError(_) => assert Active(s, CONSUMER);
      case HandleOk(_) => LeaveKeepsInboxIsDone(s, step);
      case _ => IdleKeepsInboxIsDone(s, step);
    }
  }

  lemma ReserveKeepsInboxIsDone(s: State, step: Step)
    requires Sole(s) && InboxIsDone(s) && Enabled(s, step) && step.ReserveOk?
    ensures InboxIsDone(Apply(s, step))
  {
    hide KeyOf, Proper, EffectOf;
    assert !Active(s, CONSUMER) && Active(Apply(s, step), CONSUMER);
  }

  lemma LeaveKeepsInboxIsDone(s: State, step: Step)
    requires Sole(s) && InboxIsDone(s) && Enabled(s, step) && (step.RollbackOk? || step.HandleOk?)
    ensures InboxIsDone(Apply(s, step))
  {
    hide KeyOf, Proper, EffectOf;
    assert Active(s, CONSUMER) && !Active(Apply(s, step), CONSUMER);
    assert step.RollbackOk? ==> Apply(s, step).inbox == s.done;
  }

  // Steps that change neither the inbox nor what is done, nor what the consumer is at.
  lemma IdleKeepsInboxIsDone(s: State, step: Step)
    requires Sole(s) && InboxIsDone(s) && Enabled(s, step) && Sequential(step)
    requires !step.Prune? && !step.ReserveOk? && !step.RollbackOk? && !step.HandleError? && !step.HandleOk?
    ensures InboxIsDone(Apply(s, step))
  {
    hide KeyOf, Proper, EffectOf;
    assert Active(Apply(s, step), CONSUMER) <==> Active(s, CONSUMER);
  }

  // No prune of the run reaches a reservation made at this time.
  predicate Survives(steps: seq<Step>, reservedAt: int) {
    forall j :: 0 <= j < |steps| && steps[j].Prune? ==> steps[j].cutoff <= reservedAt
  }

  // Some step of the run completes a handler for the key, and no later prune reaches
  // its reservation.
  ghost predicate CompletedUnpruned(s: State, steps: seq<Step>, key: string)
    requires ValidRun(s, steps)
    decreases |steps|
  {
    steps != [] &&
    (Completes(s, steps[0], key, steps[1..]) || CompletedUnpruned(Apply(s, steps[0]), steps[1..], key))
  }

  ghost predicate Completes(s: State, step: Step, key: string, rest: seq<Step>)
    requires Enabled(s, step)
  {
    step.HandleOk? && Key(s, step.k) == key && Survives(rest, s.consumers[step.k].reservedAt)
  }

  lemma SurvivesStep(steps: seq<Step>, reservedAt: int)
    requires steps != []
    ensures Survives(steps, reservedAt) <==>
      (steps[0].Prune? ==> steps[0].cutoff <= reservedAt) && Survives(steps[1..], reservedAt)
  {
    assert forall j :: 1 <= j < |steps| ==> steps[j] == steps[1..][j - 1];
    if Survives(steps, reservedAt) {
      forall j | 0 <= j < |steps[1..]| && steps[1..][j].Prune? ensures steps[1..][j].cutoff <= reservedAt {
        assert steps[j + 1] == steps[1..][j];
      }
    }
  }

  lemma DoneStep(s: State, step: Step, key: string)
    requires Sole(s) && InboxIsDone(s) && Enabled(s, step)
    ensures var s' := Apply(s, step);
      if step.HandleOk? && Key(s, step.k) == key
      then key !in s.done && key in s'.done && s'.done[key] == s.consumers[step.k].reservedAt
      else (key in s'.done <==> key in s.done && (step.Prune? ==> step.cutoff <= s.done[key]))
           && (key in s'.done ==> s'.done[key] == s.done[key])
  {
    assert step.HandleOk? ==> Active(s, CONSUMER);
  }

  // What `done` records, read off the run.
  lemma {:induction false} DoneMeans(s: State, steps: seq<Step>, key: string)
    requires Sole(s) && InboxIsDone(s) && ValidRun(s, steps) && SequentialRun(steps) && SparingRun(s, steps)
    ensures InboxIsDone(Exec(s, steps))
    ensures key in Exec(s, steps).done <==>
      CompletedUnpruned(s, steps, key) || (key in s.done && Survives(steps, s.done[key]))
    decreases |steps|
  {
    if steps == [] {
    } else {
      assert Sequential(steps[0]);
      StepKeepsSole(s, steps[0], {});
      StepKeepsInboxIsDone(s, steps[0]);
      DoneStep(s, steps[0], key);
      if key in s.done {
        SurvivesStep(steps, s.done[key]);
      }
      hide Sole, InboxIsDone, Causes, Apply, Enabled, Sequential, Spares, Survives;
      DoneMeans(Apply(s, steps[0]), steps[1..], key);
    }
  }

  // Between messages a key is in the inbox exactly when a handler run for it completed
  // and no later prune reached its reservation.
  lemma InboxIsExact(steps: seq<Step>, key: string)
    requires ValidRun(INIT, steps) && SequentialRun(steps) && SparingRun(INIT, steps)
    requires Exec(INIT, steps).consumers == map[]
    ensures key in Exec(INIT, steps).inbox <==> CompletedUnpruned(INIT, steps, key)
  {
    DoneMeans(INIT, steps, key);
  }

  // ---------------------------------------------------------------- how messages are lost

  // A message whose key is taken is refused and deleted.
  lemma DropDuplicate(s: State, b: ConsumerId) returns (steps: seq<Step>)
    requires CanReserve(s, b) && Key(s, b) in s.inbox
    ensures steps == [ReserveDuplicate(b), Drop(b, true)] && ValidRun(s, steps)
    ensures Exec(s, steps) == s.(consumers := s.consumers - {b}, deleted := s.deleted + {s.consumers[b].message})
  {
    hide KeyOf, Proper;
    var s1 := Apply(s, ReserveDuplicate(b));
    Prepend(s1, Drop(b, true), []);
    Prepend(s, ReserveDuplicate(b), [Drop(b, true)] + []);
    steps := [ReserveDuplicate(b)] + ([Drop(b, true)] + []);
    assert s1.consumers - {b} == s.consumers - {b};
  }

  // One consumer reserves, the other takes its message for a duplicate and deletes it.
  lemma ReserveThenDuplicate(s: State, a: ConsumerId, b: ConsumerId) returns (steps: seq<Step>)
    requires Handling(s) && a != b && CanReserve(s, a) && CanReserve(s, b)
    requires s.consumers[a].message == s.consumers[b].message && Key(s, a) !in s.inbox
    ensures steps == [ReserveOk(a), ReserveDuplicate(b), Drop(b, true)] && ValidRun(s, steps)
    ensures var s' := Exec(s, steps);
      && Active(s', a) && Key(s', a) == Key(s, a) && s'.sent == s.sent && s'.runs == s.runs
      && s'.deleted == s.deleted + {s.consumers[a].message}
  {
    hide KeyOf, Proper;
    var s1 := Apply(s, ReserveOk(a));
    assert CanReserve(s1, b) && Key(s1, b) in s1.inbox;
    var rest := DropDuplicate(s1, b);
    Prepend(s, ReserveOk(a), rest);
    steps := [ReserveOk(a)] + rest;
  }

  // With two consumers nothing has to go wrong but the handler: the second consumer
  // deletes the message as a duplicate, then the first one rolls back.
  lemma ConcurrentLoss(s: State, a: ConsumerId, b: ConsumerId) returns (steps: seq<Step>)
    requires Handling(s) && a != b && CanReserve(s, a) && CanReserve(s, b)
    requires s.consumers[a].message == s.consumers[b].message && Key(s, a) !in s.inbox && !HasRun(s.runs, Key(s, a))
    ensures ValidRun(s, steps)
    ensures forall i :: 0 <= i < |steps| ==> !steps[i].ReserveFault? && !steps[i].RollbackError? && !steps[i].Crash?
    ensures var s' := Exec(s, steps);
      s.consumers[a].message in s'.deleted && !HasRun(s'.runs, Key(s, a)) && Key(s, a) !in s'.inbox && !NoneLost(s')
  {
    var first := ReserveThenDuplicate(s, a, b);
    hide Enabled, Apply, KeyOf, ValidRun, Exec;
    var s' := Exec(s, first);
    var undo := RollBack(s', a);
    RunAppend(s, first, undo);
    steps := first + undo;
    assert s.consumers[a].message in Exec(s', undo).deleted;
  }

  // A rollback that fails, or a crash after the reservation, leaves a key without a
  // run behind: the redelivered message is deleted as a duplicate, unhandled.
  lemma StuckReservationLoses(s: State, k: ConsumerId, step: Step) returns (rest: seq<Step>)
    requires Handling(s) && Active(s, k) && Key(s, k) in s.inbox && !HasRun(s.runs, Key(s, k))
    requires step in {RollbackError(k), Crash(k)} && Enabled(s, step)
    ensures rest == [Receive(k, s.consumers[k].message), ReserveDuplicate(k), Drop(k, true)]
    ensures ValidRun(Apply(s, step), rest) && !NoneLost(Exec(Apply(s, step), rest))
  {
    hide KeyOf, Proper;
    var s1 := Apply(s, step);
    var i := s.consumers[k].message;
    var s2 := Apply(s1, Receive(k, i));
    rest := DropDuplicate(s2, k);
    Prepend(s1, Receive(k, i), rest);
    rest := [Receive(k, i)] + rest;
    assert i in Exec(s1, rest).deleted && Exec(s1, rest).runs == s.runs;
  }

  // ---- each cause loses messages

  // Two consumers take the first message, and it is lost although no write fails and
  // nobody crashes.
  lemma TwoConsumersLose(m: Envelope) returns (steps: seq<Step>)
    requires Proper(m)
    ensures ValidRun(INIT, steps) && !NoneLost(Exec(INIT, steps)) && OnlyCauses(INIT, steps, {OVERLAP})
  {
    var s1 := Apply(INIT, Send(m));
    var s2 := Apply(s1, Receive(0, 0));
    var s3 := Apply(s2, Receive(1, 0));
    var rest := ConcurrentLoss(s3, 0, 1);
    Prepend(s2, Receive(1, 0), rest);
    Prepend(s1, Receive(0, 0), [Receive(1, 0)] + rest);
    Prepend(INIT, Send(m), [Receive(0, 0)] + ([Receive(1, 0)] + rest));
    steps := [Send(m)] + ([Receive(0, 0)] + ([Receive(1, 0)] + rest));
    FaultlessOverlaps(INIT, steps);
  }

  lemma {:induction false} FaultlessOverlaps(s: State, steps: seq<Step>)
    requires ValidRun(s, steps)
    requires forall i :: 0 <= i < |steps| ==> !steps[i].ReserveFault? && !steps[i].RollbackError? && !steps[i].Crash?
    ensures OnlyCauses(s, steps, {OVERLAP})
    decreases |steps|
  {
    hide Overlaps, Apply, Enabled;
    if steps == [] {
    } else {
      assert !steps[0].ReserveFault? && !steps[0].RollbackError? && !steps[0].Crash?;
      FaultlessOverlaps(Apply(s, steps[0]), steps[1..]);
    }
  }

  lemma FaultedStates(m: Envelope)
    requires Proper(m)
    ensures var s1, s2 := State([m], {}, map[], [], map[], 0, map[]),
                          State([m], {}, map[], [], map[0 := Handler(0, Received, 0)], 0, map[]);
      var s3 := State([m], {}, map[], [], map[0 := Handler(0, Refused, 0)], 0, map[]);
      && Enabled(INIT, Send(m)) && Apply(INIT, Send(m)) == s1
      && Enabled(s1, Receive(0, 0)) && Apply(s1, Receive(0, 0)) == s2
      && Enabled(s2, ReserveFault(0)) && Apply(s2, ReserveFault(0)) == s3
      && Enabled(s3, Drop(0, true)) && Apply(s3, Drop(0, true)) == State([m], {0}, map[], [], map[], 0, map[])
  {
    hide KeyOf, EffectOf;
  }

  lemma FaultedRun(m: Envelope) returns (steps: seq<Step>)
    requires Proper(m)
    ensures steps == [Send(m), Receive(0, 0), ReserveFault(0), Drop(0, true)] && ValidRun(INIT, steps)
    ensures Exec(INIT, steps) == State([m], {0}, map[], [], map[], 0, map[])
  {
    hide KeyOf, EffectOf, Enabled, Apply;
    FaultedStates(m);
    var s1 := Apply(INIT, Send(m));
    var s2 := Apply(s1, Receive(0, 0));
    var s3 := Apply(s2, ReserveFault(0));
    Prepend(s3, Drop(0, true), []);
    Prepend(s2, ReserveFault(0), [Drop(0, true)] + []);
    Prepend(s1, Receive(0, 0), [ReserveFault(0)] + ([Drop(0, true)] + []));
    Prepend(INIT, Send(m), [Receive(0, 0)] + ([ReserveFault(0)] + ([Drop(0, true)] + [])));
    steps := [Send(m)] + ([Receive(0, 0)] + ([ReserveFault(0)] + ([Drop(0, true)] + [])));
  }

  // One consumer's reservation of the first message fails: it is taken for a duplicate.
  lemma FailedReservationLoses(m: Envelope) returns (steps: seq<Step>)
    requires Proper(m)
    ensures ValidRun(INIT, steps) && !NoneLost(Exec(INIT, steps)) && OnlyCauses(INIT, steps, {RESERVE_FAULT})
  {
    hide KeyOf, EffectOf, OnlyCauses, Exec, ValidRun, Apply, Enabled;
    steps := FaultedRun(m);
    assert Exec(INIT, steps).deleted == {0};
    AloneNeverOverlaps(INIT, steps, {RESERVE_FAULT});
  }

  // The first message is in hand, and its key is in the inbox.
  lemma InHand(m: Envelope, stage: Stage)
    requires Proper(m) && stage in {Reserved, RollingBack}
    ensures var s := State([m], {}, map[KeyOf(m) := 0], [], map[0 := Handler(0, stage, 0)], 0, map[]);
      && Handling(s) && Active(s, 0) && Key(s, 0) in s.inbox && !HasRun(s.runs, Key(s, 0))
      && (if stage == Reserved then Enabled(s, Crash(0)) else Enabled(s, RollbackError(0)))
  {
    hide KeyOf;
    ProperHasBody(m);
    hide Proper;
  }

  // One consumer dies with the first message in hand.
  lemma CrashLoses(m: Envelope) returns (steps: seq<Step>)
    requires Proper(m)
    ensures ValidRun(INIT, steps) && !NoneLost(Exec(INIT, steps)) && OnlyCauses(INIT, steps, {CRASH})
  {
    hide Enabled, Apply, KeyOf, Proper, Exec, ValidRun, NoneLost, OnlyCauses;
    var first := FirstReservation(m);
    steps := LoseFrom(m, first, Reserved, Crash(0));
    AloneNeverOverlaps(INIT, steps, {CRASH});
  }

  // The handler of the first message has failed.
  lemma FirstFailure(m: Envelope) returns (steps: seq<Step>)
    requires Proper(m)
    ensures steps == [Send(m), Receive(0, 0), ReserveOk(0), HandleError(0)] && ValidRun(INIT, steps)
    ensures Exec(INIT, steps) == State([m], {}, map[KeyOf(m) := 0], [], map[0 := Handler(0, RollingBack, 0)], 0, map[])
  {
    var first := FirstReservation(m);
    hide KeyOf, Proper;
    var s := Exec(INIT, first);
    assert Enabled(s, HandleError(0));
    assert Apply(s, HandleError(0)) ==
      State([m], {}, map[KeyOf(m) := 0], [], map[0 := Handler(0, RollingBack, 0)], 0, map[]);
    hide Enabled, Apply;
    Prepend(s, HandleError(0), []);
    RunAppend(INIT, first, [HandleError(0)] + []);
    steps := first + ([HandleError(0)] + []);
  }

  // One consumer goes on from the reservation of the first message.
  lemma LoseFrom(m: Envelope, first: seq<Step>, stage: Stage, step: Step) returns (steps: seq<Step>)
    requires Proper(m) && ValidRun(INIT, first)
    requires (stage, step) in {(Reserved, Crash(0)), (RollingBack, RollbackError(0))}
    requires Exec(INIT, first) == State([m], {}, map[KeyOf(m) := 0], [], map[0 := Handler(0, stage, 0)], 0, map[])
    ensures steps == first + ([step] + [Receive(0, 0), ReserveDuplicate(0), Drop(0, true)])
    ensures ValidRun(INIT, steps) && !NoneLost(Exec(INIT, steps))
  {
    hide Handling, HasRun, Enabled, Apply, Active, KeyOf, Proper, Exec, ValidRun, NoneLost;
    var s := Exec(INIT, first);
    InHand(m, stage);
    var rest := StuckReservationLoses(s, 0, step);
    Prepend(s, step, rest);
    RunAppend(INIT, first, [step] + rest);
    steps := first + ([step] + rest);
  }

  // One consumer's handler fails, and so does its rollback.
  lemma FailedRollbackLoses(m: Envelope) returns (steps: seq<Step>)
    requires Proper(m)
    ensures ValidRun(INIT, steps) && !NoneLost(Exec(INIT, steps)) && OnlyCauses(INIT, steps, {ROLLBACK_ERROR})
  {
    hide Enabled, Apply, KeyOf, Proper, Exec, ValidRun, NoneLost, OnlyCauses;
    var first := FirstFailure(m);
    steps := LoseFrom(m, first, RollingBack, RollbackError(0));
    AloneNeverOverlaps(INIT, steps, {ROLLBACK_ERROR});
  }

  // Any one of the four causes is enough to lose any message with a type and a tenant.
  lemma EachCauseLoses(m: Envelope, cause: Cause) returns (steps: seq<Step>)
    requires Proper(m)
    ensures ValidRun(INIT, steps) && !NoneLost(Exec(INIT, steps)) && OnlyCauses(INIT, steps, {cause})
  {
    match cause {
      case RESERVE_FAULT => steps := FailedReservationLoses(m);
      case ROLLBACK_ERROR => steps := FailedRollbackLoses(m);
      case CRASH => steps := CrashLoses(m);
      case OVERLAP => steps := TwoConsumersLose(m);
    }
  }

  lemma {:induction false} MoreCauses(s: State, steps: seq<Step>, few: set<Cause>, many: set<Cause>)
    requires ValidRun(s, steps) && OnlyCauses(s, steps, few) && few <= many
    ensures OnlyCauses(s, steps, many)
    decreases |steps|
  {
    hide Causes, Apply, Enabled;
    if steps == [] {
    } else {
      MoreCauses(Apply(s, steps[0]), steps[1..], few, many);
    }
  }

  lemma {:induction false} NeverLostAtTheEnd(s: State, steps: seq<Step>)
    requires ValidRun(s, steps) && NeverLost(s, steps)
    ensures NoneLost(Exec(s, steps))
    decreases |steps|
  {
    hide NoneLost, Apply, Enabled;
    if steps == [] {
    } else {
      NeverLostAtTheEnd(Apply(s, steps[0]), steps[1..]);
    }
  }

  lemma SomeProperMessage() returns (m: Envelope)
    ensures Proper(m)
  {
    m := Envelope("m", Body("e", ADVICE_GENERATED, "", "t", "a"));
    assert Canonical("t");
    SanitizeIdempotent("t");
  }

  // Which causes may a deployment allow without losing messages?  None of the four.
  lemma LossFreeExactly(permitted: set<Cause>)
    ensures (forall steps :: ValidRun(INIT, steps) && OnlyCauses(INIT, steps, permitted) ==> NeverLost(INIT, steps))
      <==> permitted == {}
  {
    if permitted == {} {
      forall steps | ValidRun(INIT, steps) && OnlyCauses(INIT, steps, permitted) ensures NeverLost(INIT, steps) {
        OrderlyNeverLoses(steps);
      }
    } else {
      var cause :| cause in permitted;
      var m := SomeProperMessage();
      var steps := EachCauseLoses(m, cause);
      MoreCauses(INIT, steps, {cause}, permitted);
      if NeverLost(INIT, steps) {
        NeverLostAtTheEnd(INIT, steps);
      }
    }
  }
}

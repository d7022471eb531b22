// At most one effect per key and week, over every run, and the one thing that can
// break it: pruning the reservation of a handler that is still in flight.

module InboxAtMostOnce {
  import opened Messaging
  import opened InboxProtocol

  // ---------------------------------------------------------------- the property

  // Two runs for one key were reserved more than seven days (604800000 ms) apart.
  ghost predicate Apart(runs: seq<HandlerRun>) {
    forall i, j :: 0 <= i < j < |runs| && runs[i].key == runs[j].key ==>
      runs[i].reservedAt + 604800000 < runs[j].reservedAt
  }

  // The handler relies on its reservation: it may still commit, or still roll back.
  ghost predicate Active(s: State, k: ConsumerId) {
    At(s, k, Reserved) || At(s, k, RollingBack)
  }

  // A prune leaves the reservations of handlers in flight alone.
  ghost predicate Spares(s: State, step: Step) {
    step.Prune? ==> forall k :: Active(s, k) ==> s.consumers[k].reservedAt >= step.cutoff
  }

  ghost predicate SparingRun(s: State, steps: seq<Step>)
    requires ValidRun(s, steps)
    decreases |steps|
  {
    steps == [] || (Spares(s, steps[0]) && SparingRun(Apply(s, steps[0]), steps[1..]))
  }

  // No handler is in flight for more than seven days.
  ghost predicate Timely(s: State) {
    forall k :: Active(s, k) ==> s.now <= s.consumers[k].reservedAt + 604800000
  }

  ghost predicate TimelyRun(s: State, steps: seq<Step>)
    requires ValidRun(s, steps)
    decreases |steps|
  {
    Timely(s) && (steps == [] || TimelyRun(Apply(s, steps[0]), steps[1..]))
  }

  lemma {:induction false} TimelyIsSparing(s: State, steps: seq<Step>)
    requires ValidRun(s, steps) && TimelyRun(s, steps)
    ensures SparingRun(s, steps)
    decreases |steps|
  {
    if steps == [] {
    } else {
      TimelyIsSparing(Apply(s, steps[0]), steps[1..]);
    }
  }

  // ---------------------------------------------------------------- the invariant

  // The handler's reservation stands in the inbox, as the handler made it.
  ghost predicate Owns(s: State, k: ConsumerId) {
    Active(s, k) && Key(s, k) in s.inbox && s.inbox[Key(s, k)] == s.consumers[k].reservedAt <= s.now
  }

  // No reservation of the run's key can follow within a week of it.
  ghost predicate Covered(s: State, run: HandlerRun) {
    && run.reservedAt <= s.now
    && (if run.key in s.inbox
        then s.inbox[run.key] == run.reservedAt || s.inbox[run.key] > run.reservedAt + WEEK_MS
        else s.now > run.reservedAt + WEEK_MS)
  }

  ghost predicate Later(s: State, k: ConsumerId, run: HandlerRun)
    requires Active(s, k)
  {
    run.key == Key(s, k) ==> run.reservedAt + WEEK_MS < s.consumers[k].reservedAt
  }

  // Consumers work on messages that were sent, and reserve for proper ones only.
  ghost predicate Handling(s: State) {
    forall k :: k in s.consumers ==>
      && s.consumers[k].message < |s.sent|
      && s.sent[s.consumers[k].message].body.Body?
      && (s.consumers[k].stage != Received ==> Proper(s.sent[s.consumers[k].message]))
  }

  lemma StepKeepsHandling(s: State, step: Step)
    requires Handling(s) && Enabled(s, step)
    ensures Handling(Apply(s, step)) && s.sent <= Apply(s, step).sent
  {
  }

  lemma ProperHasBody(m: Envelope)
    requires Proper(m)
    ensures m.body.Body?
  {
  }

  ghost predicate Inv(s: State) {
    && Handling(s)
    && (forall k :: Active(s, k) ==> Owns(s, k))
    && (forall k, l :: Active(s, k) && Active(s, l) && Key(s, k) == Key(s, l) ==> k == l)
    && (forall i :: 0 <= i < |s.runs| ==> Covered(s, s.runs[i]))
    && (forall k, i :: Active(s, k) && 0 <= i < |s.runs| ==> Later(s, k, s.runs[i]))
    && Apart(s.runs)
  }

  // Steps that touch neither the inbox nor the runs and make no handler active.
  lemma QuietKeepsInv(s: State, s': State)
    requires Inv(s) && Handling(s') && s'.inbox == s.inbox && s'.runs == s.runs && s'.now >= s.now
    requires forall k :: Active(s', k) ==>
      Active(s, k) && Key(s', k) == Key(s, k) && s'.consumers[k].reservedAt == s.consumers[k].reservedAt
    ensures Inv(s')
  {
    forall k | Active(s', k) ensures Owns(s', k) { assert Owns(s, k); }
    forall i | 0 <= i < |s'.runs| ensures Covered(s', s'.runs[i]) { assert Covered(s, s.runs[i]); }
    forall k, i | Active(s', k) && 0 <= i < |s'.runs| ensures Later(s', k, s'.runs[i]) {
      assert Later(s, k, s.runs[i]);
    }
  }

  lemma ReserveKeepsInv(s: State, k: ConsumerId)
    requires Inv(s) && Enabled(s, ReserveOk(k))
    ensures Inv(Apply(s, ReserveOk(k)))
  {
    var s' := Apply(s, ReserveOk(k));
    forall l | Active(s', l) && l != k ensures Active(s, l) && Key(s', l) == Key(s, l) && Key(s, l) != Key(s, k) {
      assert Owns(s, l);
    }
    assert Key(s', k) == Key(s, k);
    forall i | 0 <= i < |s'.runs| ensures Covered(s', s'.runs[i]) { assert Covered(s, s.runs[i]); }
    forall l, i | Active(s', l) && 0 <= i < |s'.runs| ensures Later(s', l, s'.runs[i]) {
      assert Covered(s, s.runs[i]);
      assert l != k ==> Later(s, l, s.runs[i]);
    }
    forall l | Active(s', l) ensures Owns(s', l) { assert l != k ==> Owns(s, l); }
  }

  lemma HandleKeepsInv(s: State, k: ConsumerId)
    requires Inv(s) && Enabled(s, HandleOk(k))
    ensures Inv(Apply(s, HandleOk(k)))
  {
    var s' := Apply(s, HandleOk(k));
    assert Active(s, k) && Owns(s, k);
    forall l | Active(s', l) ensures Active(s, l) && Key(s', l) == Key(s, l) && l != k { }
    forall l | Active(s', l) ensures Owns(s', l) { assert Owns(s, l); }
    forall i | 0 <= i < |s'.runs| ensures Covered(s', s'.runs[i]) { assert i < |s.runs| ==> Covered(s, s.runs[i]); }
    forall l, i | Active(s', l) && 0 <= i < |s'.runs| ensures Later(s', l, s'.runs[i]) {
      assert i < |s.runs| ==> Later(s, l, s.runs[i]);
    }
    forall i | 0 <= i < |s.runs| ensures Later(s, k, s.runs[i]) { }
  }

  lemma RollbackKeepsInv(s: State, k: ConsumerId)
    requires Inv(s) && Enabled(s, RollbackOk(k))
    ensures Inv(Apply(s, RollbackOk(k)))
  {
    var s' := Apply(s, RollbackOk(k));
    assert Active(s, k) && Owns(s, k);
    forall l | Active(s', l) ensures Active(s, l) && Key(s', l) == Key(s, l) && Key(s, l) != Key(s, k) { }
    forall l | Active(s', l) ensures Owns(s', l) { assert Owns(s, l); }
    forall i | 0 <= i < |s'.runs| ensures Covered(s', s'.runs[i]) {
      assert Covered(s, s.runs[i]) && Later(s, k, s.runs[i]);
    }
    forall l, i | Active(s', l) && 0 <= i < |s'.runs| ensures Later(s', l, s'.runs[i]) {
      assert Later(s, l, s.runs[i]);
    }
  }

  lemma PruneKeepsInv(s: State, cutoff: int)
    requires Inv(s) && Enabled(s, Prune(cutoff)) && Spares(s, Prune(cutoff))
    ensures Inv(Apply(s, Prune(cutoff)))
  {
    var s' := Apply(s, Prune(cutoff));
    forall l | Active(s', l) ensures Active(s, l) && Key(s', l) == Key(s, l) && Owns(s', l) {
      assert Active(s, l) && Owns(s, l);
    }
    forall i | 0 <= i < |s'.runs| ensures Covered(s', s'.runs[i]) { assert Covered(s, s.runs[i]); }
    forall l, i | Active(s', l) && 0 <= i < |s'.runs| ensures Later(s', l, s'.runs[i]) {
      assert Later(s, l, s.runs[i]);
    }
  }

  lemma StepKeepsInv(s: State, step: Step)
    requires Inv(s) && Enabled(s, step) && Spares(s, step)
    ensures Inv(Apply(s, step))
  {
    hide Inv;
    match step {
      case ReserveOk(k) => ReserveKeepsInv(s, k);
      case HandleOk(k) => HandleKeepsInv(s, k);
      case RollbackOk(k) => RollbackKeepsInv(s, k);
      case Prune(cutoff) => PruneKeepsInv(s, cutoff);
      case HandleError(k) => HandleErrorKeepsInv(s, k);
      case _ => OtherStepKeepsInv(s, step);
    }
  }

  lemma OtherStepKeepsInv(s: State, step: Step)
    requires Inv(s) && Enabled(s, step)
    requires !step.ReserveOk? && !step.HandleOk? && !step.RollbackOk? && !step.Prune? && !step.HandleError?
    ensures Inv(Apply(s, step))
  {
    hide KeyOf, Proper, EffectOf;
    var s' := Apply(s, step);
    forall k | Active(s', k) ensures Active(s, k) && Key(s', k) == Key(s, k) && s'.consumers[k] == s.consumers[k] { }
    QuietKeepsInv(s, s');
  }

  lemma HandleErrorKeepsInv(s: State, k: ConsumerId)
    requires Inv(s) && Enabled(s, HandleError(k))
    ensures Inv(Apply(s, HandleError(k)))
  {
    assert Active(s, k);
    QuietKeepsInv(s, Apply(s, HandleError(k)));
  }

  lemma {:induction false} RunKeepsInv(s: State, steps: seq<Step>)
    requires Inv(s) && ValidRun(s, steps) && SparingRun(s, steps)
    ensures Inv(Exec(s, steps))
    decreases |steps|
  {
    if steps == [] {
    } else {
      StepKeepsInv(s, steps[0]);
      RunKeepsInv(Apply(s, steps[0]), steps[1..]);
    }
  }

  // With any number of consumers, any redelivery, failing writes and crashes: two
  // committed effects for one inbox key are always reserved more than seven days apart.
  lemma AtMostOnce(steps: seq<Step>)
    requires ValidRun(INIT, steps) && SparingRun(INIT, steps)
    ensures Apart(Exec(INIT, steps).runs)
  {
    RunKeepsInv(INIT, steps);
  }

  lemma AtMostOnceIfTimely(steps: seq<Step>)
    requires ValidRun(INIT, steps) && TimelyRun(INIT, steps)
    ensures Apart(Exec(INIT, steps).runs)
  {
    TimelyIsSparing(INIT, steps);
    AtMostOnce(steps);
  }

  // ---------------------------------------------------------------- exactness

  lemma {:induction false} NoPruneIsSparing(s: State, steps: seq<Step>)
    requires ValidRun(s, steps) && forall i :: 0 <= i < |steps| ==> !steps[i].Prune?
    ensures SparingRun(s, steps)
    decreases |steps|
  {
    if steps == [] {
    } else {
      assert !steps[0].Prune?;
      NoPruneIsSparing(Apply(s, steps[0]), steps[1..]);
    }
  }

  // An idle consumer handles message i from start to finish.
  lemma ProcessAgain(s: State, k: ConsumerId, i: nat) returns (steps: seq<Step>)
    requires k !in s.consumers && i < |s.sent| && Proper(s.sent[i]) && KeyOf(s.sent[i]) !in s.inbox
    ensures ValidRun(s, steps) && forall j :: 0 <= j < |steps| ==> !steps[j].Prune?
    ensures var key, s' := KeyOf(s.sent[i]), Exec(s, steps);
      s'.sent == s.sent && s'.now == s.now && s'.inbox == s.inbox[key := s.now]
      && s'.consumers == s.consumers[k := Handler(i, Handled, s.now)]
      && s'.runs == s.runs + [HandlerRun(key, s.now, i, EffectOf(s.sent[i]))]
  {
    ProperHasBody(s.sent[i]);
    hide KeyOf, Proper, EffectOf;
    var s1 := Apply(s, Receive(k, i));
    var s2 := Apply(s1, ReserveOk(k));
    Prepend(s2, HandleOk(k), []);
    Prepend(s1, ReserveOk(k), [HandleOk(k)] + []);
    Prepend(s, Receive(k, i), [ReserveOk(k)] + ([HandleOk(k)] + []));
    steps := [Receive(k, i)] + ([ReserveOk(k)] + ([HandleOk(k)] + []));
  }

  // A handler in flight fails and rolls back, deleting whatever stands under its key.
  lemma RollBack(s: State, k: ConsumerId) returns (steps: seq<Step>)
    requires Active(s, k)
    ensures ValidRun(s, steps) && forall j :: 0 <= j < |steps| ==> steps[j] in {HandleError(k), RollbackOk(k)}
    ensures var s' := Exec(s, steps);
      s'.sent == s.sent && s'.now == s.now && s'.inbox == s.inbox - {Key(s, k)} && s'.runs == s.runs
      && s'.deleted == s.deleted && s'.consumers == s.consumers - {k}
  {
    if s.consumers[k].stage == Reserved {
      var s1 := Apply(s, HandleError(k));
      Prepend(s1, RollbackOk(k), []);
      Prepend(s, HandleError(k), [RollbackOk(k)] + []);
      steps := [HandleError(k)] + ([RollbackOk(k)] + []);
      assert s1.consumers - {k} == s.consumers - {k};
    } else {
      Prepend(s, RollbackOk(k), []);
      steps := [RollbackOk(k)] + [];
    }
  }

  lemma TwoRunsAtOnce(runs: seq<HandlerRun>, a: HandlerRun, b: HandlerRun)
    requires a.key == b.key && a.reservedAt == b.reservedAt
    ensures !Apart(runs + [a] + [b])
  {
    var all := runs + [a] + [b];
    assert all[|runs|] == a && all[|runs| + 1] == b;
  }

  // Once a reservation in flight is gone, its key can be handled twice in the same
  // millisecond: the slow handler's rollback deletes the fresh reservation.
  lemma DoubleEffect(s: State, k: ConsumerId) returns (steps: seq<Step>)
    requires Handling(s) && Active(s, k) && Key(s, k) !in s.inbox
    ensures ValidRun(s, steps) && SparingRun(s, steps) && !Apart(Exec(s, steps).runs)
  {
    var i, key := s.consumers[k].message, Key(s, k);
    var a := UnusedId(s.consumers.Keys);
    var first := ProcessAgain(s, a, i);
    var s1 := Exec(s, first);
    var undo := RollBack(s1, k);
    var s2 := Exec(s1, undo);
    var b := UnusedId(s2.consumers.Keys);
    var second := ProcessAgain(s2, b, i);
    RunAppend(s1, undo, second);
    RunAppend(s, first, undo + second);
    steps := first + (undo + second);
    NoPruneIsSparing(s, steps);
    var run := HandlerRun(key, s.now, i, EffectOf(s.sent[i]));
    TwoRunsAtOnce(s.runs, run, run);
  }

  // The first consumer has reserved the key of the first message.
  lemma FirstReservation(m: Envelope) returns (steps: seq<Step>)
    requires Proper(m)
    ensures steps == [Send(m), Receive(0, 0), ReserveOk(0)] && ValidRun(INIT, steps)
    ensures Exec(INIT, steps) == State([m], {}, map[KeyOf(m) := 0], [], map[0 := Handler(0, Reserved, 0)], 0, map[])
  {
    var s1 := Apply(INIT, Send(m));
    var s2 := Apply(s1, Receive(0, 0));
    assert s2 == State([m], {}, map[], [], map[0 := Handler(0, Received, 0)], 0, map[]);
    Prepend(s2, ReserveOk(0), []);
    Prepend(s1, Receive(0, 0), [ReserveOk(0)] + []);
    Prepend(INIT, Send(m), [Receive(0, 0)] + ([ReserveOk(0)] + []));
    steps := [Send(m)] + ([Receive(0, 0)] + ([ReserveOk(0)] + []));
  }

  // Any message with a type and a tenant can have two effects in the same millisecond:
  // its first handler outlives the week, a prune takes the reservation, and a second
  // consumer handles the message before the first one rolls back.
  lemma DoubleEffectReached(m: Envelope) returns (steps: seq<Step>)
    requires Proper(m)
    ensures ValidRun(INIT, steps) && !Apart(Exec(INIT, steps).runs)
  {
    var first := FirstReservation(m);
    var s := Exec(INIT, first);
    var late := Apply(s, Tick(WEEK_MS + 1));
    var pruned := Apply(late, Prune(1));
    assert Active(pruned, 0) && Key(pruned, 0) !in pruned.inbox;
    var rest := DoubleEffect(pruned, 0);
    Prepend(late, Prune(1), rest);
    Prepend(s, Tick(WEEK_MS + 1), [Prune(1)] + rest);
    RunAppend(INIT, first, [Tick(WEEK_MS + 1)] + ([Prune(1)] + rest));
    steps := first + ([Tick(WEEK_MS + 1)] + ([Prune(1)] + rest));
  }

  // A prune keeps the promise if and only if it spares the reservations in flight.
  lemma PruneIsSafeExactly(s: State, cutoff: int)
    requires Inv(s) && Enabled(s, Prune(cutoff))
    ensures Spares(s, Prune(cutoff)) <==>
      forall later :: ValidRun(Apply(s, Prune(cutoff)), later) && SparingRun(Apply(s, Prune(cutoff)), later)
        ==> Apart(Exec(Apply(s, Prune(cutoff)), later).runs)
  {
    var s' := Apply(s, Prune(cutoff));
    if Spares(s, Prune(cutoff)) {
      PruneKeepsInv(s, cutoff);
      forall later | ValidRun(s', later) && SparingRun(s', later) ensures Apart(Exec(s', later).runs) {
        RunKeepsInv(s', later);
      }
    } else {
      var k :| Active(s, k) && s.consumers[k].reservedAt < cutoff;
      assert Owns(s, k);
      assert Active(s', k) && Key(s', k) == Key(s, k);
      var later := DoubleEffect(s', k);
    }
  }
}

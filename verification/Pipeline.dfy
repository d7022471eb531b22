// The whole pipeline as one protocol: advice commits, relay workers, queue, consumers
// and one clock.  Its runs project onto runs of the two halves, so every theorem
// about a half holds in the whole; what follows relates the two ends.

module Pipeline {
  import opened Messaging
  import opened TenantKeys
  import O = OutboxProtocol
  import OInv = OutboxInvariants
  import OThm = OutboxTheorems
  import OTime = OutboxTiming
  import I = InboxProtocol
  import Once = InboxAtMostOnce
  import ODel = OutboxDelivery
  import Loss = InboxNoLoss

  datatype Advice = Advice(tenantId: string)

  // `eventOf` is history: the outbox event committed together with each advice row.
  datatype Sys = Sys(advice: map<string, Advice>, eventOf: map<string, O.EventId>, relay: O.State, inbox: I.State)

  datatype Step =
    | Commit(adviceId: string, tenantId: string, eventId: O.EventId, stamp: int)
    | Relay(relayStep: O.Step)
    | Consume(inboxStep: I.Step)
    | Tick(ms: nat)

  const INIT := Sys(map[], map[], O.INIT, I.INIT)

  function ContentFor(tenantId: string, adviceId: string): Content {
    Content(tenantId, I.ADVICE_GENERATED, adviceId)
  }

  function Creation(step: Step): O.Step
    requires step.Commit?
  {
    O.Create(step.eventId, ContentFor(step.tenantId, step.adviceId), step.stamp)
  }

  // Ids are fresh UUIDs; the tenant comes from the tenant context, so it is sanitised.
  predicate Enabled(c: O.Config, s: Sys, step: Step) {
    match step
    case Commit(adviceId, tenantId, eventId, _) =>
      && adviceId !in s.advice && adviceId != "" && eventId != ""
      && tenantId != "" && Canonical(tenantId)
      && O.Enabled(c, s.relay, Creation(step))
    case Relay(relayStep) => !relayStep.Create? && !relayStep.Tick? && O.Enabled(c, s.relay, relayStep)
    case Consume(inboxStep) => !inboxStep.Send? && !inboxStep.Tick? && I.Enabled(s.inbox, inboxStep)
    case Tick(_) => true
  }

  // The relay's queue is the consumers' queue, and both read one clock.
  function Apply(c: O.Config, s: Sys, step: Step): Sys
    requires Enabled(c, s, step)
  {
    match step
    case Commit(adviceId, tenantId, eventId, _) =>
      s.(advice := s.advice[adviceId := Advice(tenantId)], eventOf := s.eventOf[adviceId := eventId],
         relay := O.Apply(c, s.relay, Creation(step)))
    case Relay(relayStep) =>
      var relay := O.Apply(c, s.relay, relayStep);
      s.(relay := relay, inbox := s.inbox.(sent := relay.sent))
    case Consume(inboxStep) => s.(inbox := I.Apply(s.inbox, inboxStep))
    case Tick(ms) => s.(relay := O.Apply(c, s.relay, O.Tick(ms)), inbox := I.Apply(s.inbox, I.Tick(ms)))
  }

  predicate ValidRun(c: O.Config, s: Sys, steps: seq<Step>)
    decreases |steps|
  {
    steps == [] || (Enabled(c, s, steps[0]) && ValidRun(c, Apply(c, s, steps[0]), steps[1..]))
  }

  function Exec(c: O.Config, s: Sys, steps: seq<Step>): Sys
    requires ValidRun(c, s, steps)
    decreases |steps|
  {
    if steps == [] then s else Exec(c, Apply(c, s, steps[0]), steps[1..])
  }

  // ---------------------------------------------------------------- projections

  function RelayPart(step: Step): seq<O.Step> {
    match step
    case Commit(_, _, _, _) => [Creation(step)]
    case Relay(relayStep) => [relayStep]
    case Consume(_) => []
    case Tick(ms) => [O.Tick(ms)]
  }

  function RelayRun(steps: seq<Step>): seq<O.Step> {
    if steps == [] then [] else RelayPart(steps[0]) + RelayRun(steps[1..])
  }

  // A relay step that enqueues is a Send on the consumers' side.
  function InboxPart(c: O.Config, s: Sys, step: Step): seq<I.Step>
    requires Enabled(c, s, step)
  {
    match step
    case Commit(_, _, _, _) => []
    case Relay(relayStep) =>
      var sent := O.Apply(c, s.relay, relayStep).sent;
      if |sent| > |s.relay.sent| then [I.Send(sent[|s.relay.sent|])] else []
    case Consume(inboxStep) => [inboxStep]
    case Tick(ms) => [I.Tick(ms)]
  }

  function InboxRun(c: O.Config, s: Sys, steps: seq<Step>): seq<I.Step>
    requires ValidRun(c, s, steps)
    decreases |steps|
  {
    if steps == [] then [] else InboxPart(c, s, steps[0]) + InboxRun(c, Apply(c, s, steps[0]), steps[1..])
  }

  lemma SentGrowsByOne(c: O.Config, s: O.State, step: O.Step)
    requires O.Enabled(c, s, step)
    ensures var sent := O.Apply(c, s, step).sent;
      sent == s.sent || (|sent| == |s.sent| + 1 && sent == s.sent + [sent[|s.sent|]])
  {
  }

  lemma RelayPartRuns(c: O.Config, s: Sys, step: Step)
    requires Enabled(c, s, step)
    ensures O.ValidRun(c, s.relay, RelayPart(step)) && O.Exec(c, s.relay, RelayPart(step)) == Apply(c, s, step).relay
  {
    if RelayPart(step) != [] {
      var part := RelayPart(step)[0];
      assert O.ValidRun(c, O.Apply(c, s.relay, part), []);
      assert RelayPart(step)[1..] == [];
    }
  }

  lemma InboxPartRuns(c: O.Config, s: Sys, step: Step)
    requires Enabled(c, s, step) && s.inbox.sent == s.relay.sent
    ensures I.ValidRun(s.inbox, InboxPart(c, s, step))
    ensures I.Exec(s.inbox, InboxPart(c, s, step)) == Apply(c, s, step).inbox
    ensures Apply(c, s, step).inbox.sent == Apply(c, s, step).relay.sent
  {
    if step.Relay? {
      SentGrowsByOne(c, s.relay, step.relayStep);
    }
    if InboxPart(c, s, step) != [] {
      var part := InboxPart(c, s, step)[0];
      I.Prepend(s.inbox, part, []);
      assert [part] + [] == InboxPart(c, s, step);
    }
  }

  // Every pipeline run is a relay run and a consumer run side by side.
  lemma {:induction false} Projection(c: O.Config, s: Sys, steps: seq<Step>)
    requires ValidRun(c, s, steps) && s.inbox.sent == s.relay.sent
    ensures O.ValidRun(c, s.relay, RelayRun(steps)) && O.Exec(c, s.relay, RelayRun(steps)) == Exec(c, s, steps).relay
    ensures I.ValidRun(s.inbox, InboxRun(c, s, steps))
    ensures I.Exec(s.inbox, InboxRun(c, s, steps)) == Exec(c, s, steps).inbox
    ensures Exec(c, s, steps).inbox.sent == Exec(c, s, steps).relay.sent
    decreases |steps|
  {
    if steps == [] {
    } else {
      var s1 := Apply(c, s, steps[0]);
      RelayPartRuns(c, s, steps[0]);
      InboxPartRuns(c, s, steps[0]);
      Projection(c, s1, steps[1..]);
      O.RunAppend(c, s.relay, RelayPart(steps[0]), RelayRun(steps[1..]));
      I.RunAppend(s.inbox, InboxPart(c, s, steps[0]), InboxRun(c, s1, steps[1..]));
    }
  }

  // ---------------------------------------------------------------- advice and events

  // Advice rows and ADVICE_GENERATED events are in one-to-one correspondence.
  ghost predicate Paired(s: Sys) {
    && s.eventOf.Keys == s.advice.Keys
    && (forall a :: a in s.advice ==>
          && a != "" && s.eventOf[a] != ""
          && Canonical(s.advice[a].tenantId) && s.advice[a].tenantId != ""
          && s.eventOf[a] in s.relay.outbox
          && s.relay.outbox[s.eventOf[a]].content == ContentFor(s.advice[a].tenantId, a))
    && (forall e :: e in s.relay.outbox ==>
          var a := s.relay.outbox[e].content.adviceId; a in s.advice && s.eventOf[a] == e)
  }

  // The handler run is the run of a sent message.
  ghost predicate RunTraced(s: I.State, run: I.HandlerRun) {
    && run.message < |s.sent| && I.Proper(s.sent[run.message])
    && run.key == I.KeyOf(s.sent[run.message]) && run.audit == I.EffectOf(s.sent[run.message])
  }

  ghost predicate Traced(s: I.State) {
    forall i :: 0 <= i < |s.runs| ==> RunTraced(s, s.runs[i])
  }

  lemma CommitKeepsPaired(c: O.Config, s: Sys, step: Step)
    requires Paired(s) && step.Commit? && Enabled(c, s, step)
    ensures Paired(Apply(c, s, step))
  {
  }

  // No relay step adds an event or changes what an event says.
  lemma RelayKeepsPaired(c: O.Config, s: Sys, step: Step)
    requires OInv.Ownership(s.relay) && Paired(s) && step.Relay? && Enabled(c, s, step)
    ensures Paired(Apply(c, s, step))
  {
    OTime.StepRows(c, s.relay, step.relayStep);
    OInv.ContentsStay(c, s.relay, step.relayStep);
    hide O.Apply, O.Enabled;
  }

  lemma StepKeepsPaired(c: O.Config, s: Sys, step: Step)
    requires OInv.Ownership(s.relay) && Paired(s) && Enabled(c, s, step)
    ensures Paired(Apply(c, s, step))
  {
    hide O.Enabled, OInv.Ownership;
    match step {
      case Commit(_, _, _, _) => CommitKeepsPaired(c, s, step);
      case Relay(_) => RelayKeepsPaired(c, s, step);
      case Consume(_) =>
      case Tick(ms) =>
    }
  }

  lemma StepKeepsTraced(s: I.State, step: I.Step)
    requires Once.Handling(s) && Traced(s) && I.Enabled(s, step)
    ensures Traced(I.Apply(s, step)) && Once.Handling(I.Apply(s, step))
  {
    hide I.KeyOf, I.Proper, I.EffectOf;
    var s' := I.Apply(s, step);
    forall i | 0 <= i < |s'.runs| ensures RunTraced(s', s'.runs[i]) {
      assert i < |s.runs| ==> RunTraced(s, s.runs[i]);
    }
  }

  lemma {:induction false} RunKeepsTraced(s: I.State, steps: seq<I.Step>)
    requires Once.Handling(s) && Traced(s) && I.ValidRun(s, steps)
    ensures Traced(I.Exec(s, steps))
    decreases |steps|
  {
    hide Traced, Once.Handling, I.Apply, I.Enabled;
    if steps == [] {
    } else {
      StepKeepsTraced(s, steps[0]);
      RunKeepsTraced(I.Apply(s, steps[0]), steps[1..]);
    }
  }

  lemma {:induction false} RunKeepsPaired(c: O.Config, s: Sys, steps: seq<Step>)
    requires OInv.Inv(c, s.relay) && Paired(s) && ValidRun(c, s, steps)
    ensures Paired(Exec(c, s, steps))
    decreases |steps|
  {
    if steps == [] {
    } else {
      StepKeepsPaired(c, s, steps[0]);
      RelayPartRuns(c, s, steps[0]);
      OInv.RunKeepsInv(c, s.relay, RelayPart(steps[0]));
      RunKeepsPaired(c, Apply(c, s, steps[0]), steps[1..]);
    }
  }

  lemma Start(c: O.Config)
    ensures OInv.Inv(c, INIT.relay) && Paired(INIT) && INIT.inbox.sent == INIT.relay.sent
    ensures INIT.relay == O.INIT && INIT.inbox == I.INIT
    ensures Once.Handling(I.INIT) && Traced(I.INIT)
  {
    OInv.InitInv(c);
  }

  lemma Reachable(c: O.Config, steps: seq<Step>)
    requires ValidRun(c, INIT, steps)
    ensures var s := Exec(c, INIT, steps);
      OInv.Inv(c, s.relay) && Paired(s) && Traced(s.inbox) && s.inbox.sent == s.relay.sent
  {
    Start(c);
    hide OInv.Inv, Paired, Traced, Once.Handling, ValidRun, Exec;
    hide O.ValidRun, O.Exec, I.ValidRun, I.Exec, InboxRun, RelayRun;
    Projection(c, INIT, steps);
    OThm.ReachableInv(c, RelayRun(steps));
    RunKeepsPaired(c, INIT, steps);
    RunKeepsTraced(I.INIT, InboxRun(c, INIT, steps));
  }

  // Event e is the one outbox event of advice a, and says so.
  ghost predicate OnlyEvent(s: Sys, a: string, e: O.EventId)
    requires a in s.advice
  {
    && e in s.relay.outbox
    && s.relay.outbox[e].content == ContentFor(s.advice[a].tenantId, a)
    && forall other :: other in s.relay.outbox && s.relay.outbox[other].content.adviceId == a ==> other == e
  }

  // In every reachable state each advice row has exactly one outbox event and each
  // outbox event exactly one advice row, with the same id and tenant.
  lemma AdviceEventBijection(c: O.Config, steps: seq<Step>)
    requires ValidRun(c, INIT, steps)
    ensures var s := Exec(c, INIT, steps);
      && (forall a :: a in s.advice ==> exists e :: OnlyEvent(s, a, e))
      && (forall e :: e in s.relay.outbox ==>
            s.relay.outbox[e].content.adviceId in s.advice && OnlyEvent(s, s.relay.outbox[e].content.adviceId, e))
  {
    Reachable(c, steps);
    var s := Exec(c, INIT, steps);
    forall a | a in s.advice ensures exists e :: OnlyEvent(s, a, e) {
      assert OnlyEvent(s, a, s.eventOf[a]);
    }
  }

  // ---------------------------------------------------------------- end to end

  // A message of the relay, read by the consumer: nothing is lost in translation.
  lemma MessageReads(c: O.Config, s: Sys, i: nat)
    requires OInv.Sent(s.relay) && Paired(s) && s.inbox.sent == s.relay.sent && i < |s.inbox.sent|
    ensures var m := s.inbox.sent[i];
      && m.body.Body? && I.Proper(m) && m.body.eventId in s.relay.outbox
      && m.body.adviceId in s.advice && s.eventOf[m.body.adviceId] == m.body.eventId
      && I.EventIdOf(m) == m.body.eventId
      && I.TenantOf(m) == s.advice[m.body.adviceId].tenantId
      && I.EffectOf(m) == Some(I.AuditRow(s.advice[m.body.adviceId].tenantId, m.body.adviceId, m.body.eventId))
  {
    var m := s.inbox.sent[i];
    assert m == s.relay.sent[i];
    var a := s.relay.outbox[m.body.eventId].content.adviceId;
    SanitizeIdempotent(s.advice[a].tenantId);
  }

  // No phantom effects: every ADVICE_MESSAGE_PROCESSED row names a committed advice
  // of the same tenant, and the advice's own event, of which a copy was published.
  lemma NoPhantomEffects(c: O.Config, steps: seq<Step>, i: nat)
    requires ValidRun(c, INIT, steps)
    requires i < |Exec(c, INIT, steps).inbox.runs| && Exec(c, INIT, steps).inbox.runs[i].audit.Some?
    ensures var s := Exec(c, INIT, steps);
      var row := s.inbox.runs[i].audit.value;
      && row.entityId in s.advice
      && s.advice[row.entityId].tenantId == row.tenantId
      && row.eventId in s.relay.outbox
      && s.relay.outbox[row.eventId].content == ContentFor(row.tenantId, row.entityId)
      && Copies(s.relay.sent, row.eventId) > 0
      && row.eventId in s.relay.claimedAt && s.relay.claimedAt[row.eventId] != []
  {
    Reachable(c, steps);
    var s := Exec(c, INIT, steps);
    var k := s.inbox.runs[i].message;
    MessageReads(c, s, k);
    var e := s.inbox.sent[k].body.eventId;
    assert s.relay.sent[k] in s.relay.sent;
    CopiesPositive(s.relay.sent, e);
    assert OInv.CopyCount(s.relay, e) && OInv.Attempts(c, s.relay, e);
    Projection(c, INIT, steps);
    OThm.AttemptAccounting(c, RelayRun(steps), e);
  }

  // No prune of the run overtakes a handler in flight.
  ghost predicate Sparing(c: O.Config, s: Sys, steps: seq<Step>)
    requires ValidRun(c, s, steps)
    decreases |steps|
  {
    steps == [] ||
    ((steps[0].Consume? ==> Once.Spares(s.inbox, steps[0].inboxStep)) && Sparing(c, Apply(c, s, steps[0]), steps[1..]))
  }

  // No reservation or rollback fails, no consumer crashes and no delivery overlaps.
  ghost predicate Orderly(c: O.Config, s: Sys, steps: seq<Step>)
    requires ValidRun(c, s, steps)
    decreases |steps|
  {
    steps == [] ||
    ((steps[0].Consume? ==> Loss.Orderly(s.inbox, steps[0].inboxStep)) && Orderly(c, Apply(c, s, steps[0]), steps[1..]))
  }

  lemma {:induction false} SparingProjects(c: O.Config, s: Sys, steps: seq<Step>)
    requires ValidRun(c, s, steps) && s.inbox.sent == s.relay.sent && Sparing(c, s, steps)
    ensures I.ValidRun(s.inbox, InboxRun(c, s, steps)) && Once.SparingRun(s.inbox, InboxRun(c, s, steps))
    decreases |steps|
  {
    Projection(c, s, steps);
    if steps == [] {
    } else {
      var part, rest := InboxPart(c, s, steps[0]), InboxRun(c, Apply(c, s, steps[0]), steps[1..]);
      InboxPartRuns(c, s, steps[0]);
      SparingProjects(c, Apply(c, s, steps[0]), steps[1..]);
      hide O.Apply, O.Enabled, I.Enabled, I.Apply;
      PartFirst(part, rest);
    }
  }

  lemma {:induction false} OrderlyProjects(c: O.Config, s: Sys, steps: seq<Step>)
    requires ValidRun(c, s, steps) && s.inbox.sent == s.relay.sent && Orderly(c, s, steps)
    ensures I.ValidRun(s.inbox, InboxRun(c, s, steps)) && Loss.OnlyCauses(s.inbox, InboxRun(c, s, steps), {})
    decreases |steps|
  {
    Projection(c, s, steps);
    if steps == [] {
    } else {
      var part, rest := InboxPart(c, s, steps[0]), InboxRun(c, Apply(c, s, steps[0]), steps[1..]);
      InboxPartRuns(c, s, steps[0]);
      OrderlyProjects(c, Apply(c, s, steps[0]), steps[1..]);
      hide O.Apply, O.Enabled, I.Enabled, I.Apply, Loss.Overlaps;
      PartFirst(part, rest);
    }
  }

  lemma PartFirst(part: seq<I.Step>, rest: seq<I.Step>)
    ensures part == [] ==> part + rest == rest
    ensures part != [] ==> (part + rest)[0] == part[0] && (part + rest)[1..] == part[1..] + rest
  {
  }

  // End to end, at most once a week: two audit rows for one advice come from
  // reservations more than seven days apart, however often the relay published the
  // event and the queue delivered it.
  lemma EndToEndAtMostOnce(c: O.Config, steps: seq<Step>, i: nat, j: nat)
    requires ValidRun(c, INIT, steps) && Sparing(c, INIT, steps)
    requires var runs := Exec(c, INIT, steps).inbox.runs;
      i < j < |runs| && runs[i].audit.Some? && runs[j].audit.Some?
      && runs[i].audit.value.entityId == runs[j].audit.value.entityId
    ensures var runs := Exec(c, INIT, steps).inbox.runs;
      runs[i].reservedAt + 604800000 < runs[j].reservedAt
  {
    Reachable(c, steps);
    Projection(c, INIT, steps);
    SparingProjects(c, INIT, steps);
    var s := Exec(c, INIT, steps);
    Once.AtMostOnce(InboxRun(c, INIT, steps));
    MessageReads(c, s, s.inbox.runs[i].message);
    MessageReads(c, s, s.inbox.runs[j].message);
    assert s.inbox.runs[i].key == s.inbox.runs[j].key;
  }

  // The advice has its audit row.
  ghost predicate Audited(s: Sys, a: string)
    requires a in s.advice && a in s.eventOf
  {
    exists i :: 0 <= i < |s.inbox.runs| &&
      s.inbox.runs[i].audit == Some(I.AuditRow(s.advice[a].tenantId, a, s.eventOf[a]))
  }

  // Nothing is lost end to end: whatever the relay goes through, an advice whose
  // message was deleted by consumers that lost none has its audit row.
  lemma DeletedIsAudited(c: O.Config, steps: seq<Step>, i: nat)
    requires ValidRun(c, INIT, steps)
    requires Loss.NoneLost(Exec(c, INIT, steps).inbox) && i in Exec(c, INIT, steps).inbox.deleted
    ensures var s := Exec(c, INIT, steps);
      && i < |s.inbox.sent| && s.inbox.sent[i].body.Body?
      && var a := s.inbox.sent[i].body.adviceId;
         a in s.advice && a in s.eventOf && Audited(s, a)
  {
    Reachable(c, steps);
    var s := Exec(c, INIT, steps);
    MessageReads(c, s, i);
    var j := RunForKey(s.inbox, I.KeyOf(s.inbox.sent[i]), i);
    var m := s.inbox.runs[j].message;
    MessageReads(c, s, m);
    NoCrossSuppression(c, steps, i, m);
    hide *;
    AuditOfRun(s, j, s.inbox.sent[i].body.adviceId);
  }

  lemma RunForKey(s: I.State, key: string, i: nat) returns (j: nat)
    requires Loss.NoneLost(s) && Traced(s) && i in s.deleted && i < |s.sent| && I.Proper(s.sent[i])
    requires key == I.KeyOf(s.sent[i])
    ensures j < |s.runs| && s.runs[j].message < |s.sent| && I.Proper(s.sent[s.runs[j].message])
    ensures I.KeyOf(s.sent[s.runs[j].message]) == key && s.runs[j].audit == I.EffectOf(s.sent[s.runs[j].message])
  {
    hide I.Proper, I.KeyOf, I.EffectOf;
    j :| 0 <= j < |s.runs| && s.runs[j].key == key;
    assert RunTraced(s, s.runs[j]);
  }

  lemma AuditOfRun(s: Sys, j: nat, a: string)
    requires a in s.advice && a in s.eventOf && j < |s.inbox.runs|
    requires s.inbox.runs[j].audit == Some(I.AuditRow(s.advice[a].tenantId, a, s.eventOf[a]))
    ensures Audited(s, a)
  {
  }

  // Exactly once, as far as the code goes: with a relay that meets no fault, and any
  // number of consumers that meet none either and never overlap on a key, a PUBLISHED
  // advice event is in the queue exactly once, an advice whose message was deleted has
  // its audit row, and no two audit rows of one advice fall within a week.
  lemma EndToEnd(c: O.Config, steps: seq<Step>, a: string)
    requires ValidRun(c, INIT, steps) && Sparing(c, INIT, steps)
    requires ODel.FaultFree(RelayRun(steps)) && Orderly(c, INIT, steps)
    requires a in Exec(c, INIT, steps).advice
    ensures var s := Exec(c, INIT, steps);
      && a in s.eventOf && s.eventOf[a] in s.relay.outbox
      && Copies(s.inbox.sent, s.eventOf[a]) <= 1
      && (s.relay.outbox[s.eventOf[a]].status == O.PUBLISHED ==> Copies(s.inbox.sent, s.eventOf[a]) == 1)
      && ((exists i :: DeletedMessageOf(s, i, a)) ==> Audited(s, a))
      && (forall i, j :: 0 <= i < j < |s.inbox.runs| && IsAuditOf(s.inbox.runs[i], a) && IsAuditOf(s.inbox.runs[j], a)
            ==> s.inbox.runs[i].reservedAt + 604800000 < s.inbox.runs[j].reservedAt)
  {
    Reachable(c, steps);
    Projection(c, INIT, steps);
    var s := Exec(c, INIT, steps);
    ODel.SettledOutcome(c, RelayRun(steps), s.eventOf[a]);
    OrderlyProjects(c, INIT, steps);
    Loss.OrderlyNeverLoses(InboxRun(c, INIT, steps));
    forall i | DeletedMessageOf(s, i, a) ensures Audited(s, a) {
      DeletedIsAudited(c, steps, i);
    }
    forall i, j | 0 <= i < j < |s.inbox.runs| && IsAuditOf(s.inbox.runs[i], a) && IsAuditOf(s.inbox.runs[j], a)
      ensures s.inbox.runs[i].reservedAt + 604800000 < s.inbox.runs[j].reservedAt
    {
      EndToEndAtMostOnce(c, steps, i, j);
    }
  }

  // Message i of the queue carries the advice's event, and was deleted.
  ghost predicate DeletedMessageOf(s: Sys, i: nat, a: string)
    requires a in s.advice && a in s.eventOf
  {
    && i in s.inbox.deleted && i < |s.inbox.sent|
    && s.inbox.sent[i].body == BodyOf(s.eventOf[a], ContentFor(s.advice[a].tenantId, a))
  }

  ghost predicate IsAuditOf(run: I.HandlerRun, a: string) {
    run.audit.Some? && run.audit.value.entityId == a
  }

  // A duplicate is a duplicate of itself: the messages of two different advices
  // never share an inbox key, so neither can suppress the other.
  lemma NoCrossSuppression(c: O.Config, steps: seq<Step>, i: nat, j: nat)
    requires ValidRun(c, INIT, steps)
    requires i < |Exec(c, INIT, steps).inbox.sent| && j < |Exec(c, INIT, steps).inbox.sent|
    ensures var sent := Exec(c, INIT, steps).inbox.sent;
      && sent[i].body.Body? && sent[j].body.Body?
      && (I.KeyOf(sent[i]) == I.KeyOf(sent[j]) <==> sent[i].body.adviceId == sent[j].body.adviceId)
  {
    Reachable(c, steps);
    var s := Exec(c, INIT, steps);
    MessageReads(c, s, i);
    MessageReads(c, s, j);
    KeysInjective(I.TenantOf(s.inbox.sent[i]), I.EventIdOf(s.inbox.sent[i]),
                  I.TenantOf(s.inbox.sent[j]), I.EventIdOf(s.inbox.sent[j]));
  }
}

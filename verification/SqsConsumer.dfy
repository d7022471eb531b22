// The consumer service itself: parse, reserve, handle, then delete or roll back, with
// any other process free to act at every `await`.

module SqsConsumer {
  import opened Messaging
  import opened TenantKeys
  import opened InboxProtocol
  import opened InboxAtMostOnce

  // ---------------------------------------------------------------- traces

  ghost predicate Ran(s: State, trace: seq<Step>, s': State) {
    ValidRun(s, trace) && Exec(s, trace) == s'
  }

  // The steps of a trace that consumer `self` took, in order.
  function Own(trace: seq<Step>, self: ConsumerId): seq<Step> {
    Select((step: Step) => IsOwn(step, self), trace)
  }

  lemma {:induction false} RunKeepsHandling(s: State, steps: seq<Step>)
    requires Handling(s) && ValidRun(s, steps)
    ensures Handling(Exec(s, steps))
    decreases |steps|
  {
    hide Handling, Apply, Enabled;
    if steps == [] {
    } else {
      StepKeepsHandling(s, steps[0]);
      RunKeepsHandling(Apply(s, steps[0]), steps[1..]);
    }
  }

  lemma JoinTraces(s: State, a: seq<Step>, s1: State, b: seq<Step>, s2: State, self: ConsumerId)
    requires Ran(s, a, s1) && Ran(s1, b, s2)
    ensures Ran(s, a + b, s2) && Own(a + b, self) == Own(a, self) + Own(b, self)
  {
    RunAppend(s, a, b);
    SelectAppend((step: Step) => IsOwn(step, self), a, b);
  }

  // One call: the others act, then the call takes effect as one step of this consumer.
  lemma AwaitedStep(s: State, others: seq<Step>, s1: State, step: Step, self: ConsumerId)
    requires Ran(s, others, s1) && Own(others, self) == [] && Handling(s1) && Enabled(s1, step) && IsOwn(step, self)
    ensures Ran(s, others + [step], Apply(s1, step)) && Own(others + [step], self) == [step]
    ensures Handling(Apply(s1, step))
  {
    Prepend(s1, step, []);
    assert [step] + [] == [step];
    RunAppend(s, others, [step]);
    SelectOne((other: Step) => IsOwn(other, self), others, step);
    StepKeepsHandling(s1, step);
  }

  // ---------------------------------------------------------------- interference

  // The part of `wanted` the other processes get to do: their own enabled steps.
  function Admitted(s: State, self: ConsumerId, wanted: seq<Step>): (steps: seq<Step>)
    ensures ValidRun(s, steps) && Own(steps, self) == []
    decreases |wanted|
  {
    if wanted == [] then []
    else if !IsOwn(wanted[0], self) && Enabled(s, wanted[0]) then
      var rest := Admitted(Apply(s, wanted[0]), self, wanted[1..]);
      assert ([wanted[0]] + rest)[1..] == rest;
      [wanted[0]] + rest
    else Admitted(s, self, wanted[1..])
  }

  // The part of `wanted` that all processes together get to do.
  function Happening(s: State, wanted: seq<Step>): (steps: seq<Step>)
    ensures ValidRun(s, steps)
    decreases |wanted|
  {
    if wanted == [] then []
    else if Enabled(s, wanted[0]) then
      var rest := Happening(Apply(s, wanted[0]), wanted[1..]);
      assert ([wanted[0]] + rest)[1..] == rest;
      [wanted[0]] + rest
    else Happening(s, wanted[1..])
  }

  lemma OtherKeepsHandler(s: State, self: ConsumerId, step: Step)
    requires Handling(s) && Enabled(s, step) && !IsOwn(step, self)
    ensures var s' := Apply(s, step);
      && Handling(s') && s.sent <= s'.sent
      && (self in s'.consumers <==> self in s.consumers)
      && (self in s.consumers ==> s'.consumers[self] == s.consumers[self])
  {
    StepKeepsHandling(s, step);
    hide Handling, Proper, KeyOf, EffectOf;
  }

  // Other processes leave this consumer's handler alone and only add messages.
  lemma {:induction false} OthersKeepHandler(s: State, self: ConsumerId, steps: seq<Step>)
    requires Handling(s) && ValidRun(s, steps) && Own(steps, self) == []
    ensures var s' := Exec(s, steps);
      && Handling(s') && s.sent <= s'.sent
      && (self in s'.consumers <==> self in s.consumers)
      && (self in s.consumers ==> s'.consumers[self] == s.consumers[self])
    decreases |steps|
  {
    hide Handling, Enabled, Apply;
    if steps == [] {
    } else {
      assert !IsOwn(steps[0], self);
      OtherKeepsHandler(s, self, steps[0]);
      OthersKeepHandler(Apply(s, steps[0]), self, steps[1..]);
    }
  }

  // ---------------------------------------------------------------- the outside world

  // What the others do while the consumer waits, and whether one of them clears the
  // service's `running` flag (onModuleDestroy).
  datatype Pause = Pause(others: seq<Step>, stop: bool)

  // The answers to one message's calls, and what happens before each of them.
  datatype MessageIo = MessageIo(
    reserveFails: bool,
    handlerFails: bool,
    rollbackFails: bool,
    gone: bool,
    beforeReserve: Pause,
    beforeHandle: Pause,
    beforeDelete: Pause,
    beforeRollback: Pause)

  // How the reservation went: not tried, made, refused as a duplicate, or failed.
  datatype Reservation = NotTried | Fresh | Duplicate | Faulted

  // ---------------------------------------------------------------- the program, as steps

  // The delete call, by the stage it ends.
  function DeleteStep(self: ConsumerId, stage: Stage, gone: bool): Step {
    match stage
    case Received => Discard(self, gone)
    case Refused => Drop(self, gone)
    case _ => Finish(self, gone)
  }

  function HandlerProgram(self: ConsumerId, io: MessageIo): seq<Step> {
    if !io.handlerFails then [HandleOk(self), Finish(self, io.gone)]
    else [HandleError(self), if io.rollbackFails then RollbackError(self) else RollbackOk(self)]
  }

  function ReservationProgram(self: ConsumerId, io: MessageIo, reservation: Reservation): seq<Step> {
    match reservation
    case NotTried => [Discard(self, io.gone)]
    case Duplicate => [ReserveDuplicate(self)] + [Drop(self, io.gone)]
    case Faulted => [ReserveFault(self)] + [Drop(self, io.gone)]
    case Fresh => [ReserveOk(self)] + HandlerProgram(self, io)
  }

  // What processMessageWithRetry does with message i.  A body that is not JSON makes
  // it throw before it does anything.
  function MessageProgram(self: ConsumerId, i: nat, message: Envelope, io: MessageIo,
                          reservation: Reservation): seq<Step> {
    if message.body.Malformed? then [] else [Receive(self, i)] + ReservationProgram(self, io, reservation)
  }

  // The reservation is tried for proper messages only, and an error answer never reserves.
  predicate Plausible(message: Envelope, io: MessageIo, reservation: Reservation) {
    && (reservation == NotTried <==> !Proper(message))
    && (reservation == Fresh ==> !io.reserveFails)
    && (reservation == Faulted ==> io.reserveFails)
  }

  // The messages of one poll, up to the first that throws.
  function PollProgram(self: ConsumerId, sent: seq<Envelope>, indices: seq<nat>, ios: nat -> MessageIo,
                       reservations: seq<Reservation>): seq<Step>
    requires |reservations| <= |indices| && forall j :: 0 <= j < |indices| ==> indices[j] < |sent|
    decreases |reservations|
  {
    if reservations == [] then []
    else
      var last := |reservations| - 1;
      PollProgram(self, sent, indices, ios, reservations[..last])
      + MessageProgram(self, indices[last], sent[indices[last]], ios(last), reservations[last])
  }

  // ---------------------------------------------------------------- was the service stopped?

  predicate HandlerStops(io: MessageIo) {
    io.beforeHandle.stop || (if io.handlerFails then io.beforeRollback.stop else io.beforeDelete.stop)
  }

  // The flag was cleared at one of the calls that the message got to.
  predicate MessageStops(message: Envelope, io: MessageIo, reservation: Reservation) {
    !message.body.Malformed? &&
    match reservation
    case NotTried => io.beforeDelete.stop
    case Fresh => io.beforeReserve.stop || HandlerStops(io)
    case _ => io.beforeReserve.stop || io.beforeDelete.stop
  }

  predicate PollStops(sent: seq<Envelope>, indices: seq<nat>, ios: nat -> MessageIo, reservations: seq<Reservation>)
    requires |reservations| <= |indices| && forall j :: 0 <= j < |indices| ==> indices[j] < |sent|
  {
    exists j :: 0 <= j < |reservations| && MessageStops(sent[indices[j]], ios(j), reservations[j])
  }

  // One turn of the polling loop: what the queue offers, and what happens while the
  // consumer waits for it.
  datatype Turn = Turn(receiveFails: bool, offered: seq<nat>, ios: nat -> MessageIo, before: Pause)

  // What the turn came to: the queue as it was, the messages received and their fates.
  datatype Polled = Polled(sent: seq<Envelope>, indices: seq<nat>, reservations: seq<Reservation>)

  // The queue hands out only messages that were sent: of what it offers, in its order,
  // those it has.
  function InQueue(offered: seq<nat>, n: nat): (indices: seq<nat>)
    ensures forall j :: 0 <= j < |indices| ==> indices[j] < n
    ensures forall i :: i in indices <==> i in offered && i < n
    ensures (forall j :: 0 <= j < |offered| ==> offered[j] < n) ==> indices == offered
  {
    if offered == [] then []
    else (if offered[0] < n then [offered[0]] else []) + InQueue(offered[1..], n)
  }

  // Each message got the reservation that its content and the answers allow, up to the
  // first that does not parse.
  ghost predicate AllTried(sent: seq<Envelope>, indices: seq<nat>, ios: nat -> MessageIo,
                           reservations: seq<Reservation>)
    requires |reservations| <= |indices| && forall j :: 0 <= j < |indices| ==> indices[j] < |sent|
  {
    && (forall j :: 0 <= j < |reservations| && !sent[indices[j]].body.Malformed? ==>
          Plausible(sent[indices[j]], ios(j), reservations[j]))
    && (forall j :: 0 <= j < |reservations| && sent[indices[j]].body.Malformed? ==> j == |reservations| - 1)
    && (|reservations| < |indices| ==> reservations != [] && sent[indices[|reservations| - 1]].body.Malformed?)
  }

  // The messages so far did parse.
  ghost predicate Parsed(sent: seq<Envelope>, indices: seq<nat>, ios: nat -> MessageIo, reservations: seq<Reservation>)
    requires |reservations| <= |indices| && forall j :: 0 <= j < |indices| ==> indices[j] < |sent|
  {
    forall j :: 0 <= j < |reservations| ==>
      !sent[indices[j]].body.Malformed? && Plausible(sent[indices[j]], ios(j), reservations[j])
  }

  ghost predicate IsPollOf(turn: Turn, polled: Polled) {
    && polled.indices == (if turn.receiveFails then [] else InQueue(turn.offered, |polled.sent|))
    && (forall j :: 0 <= j < |polled.indices| ==> polled.indices[j] < |polled.sent|)
    && |polled.reservations| <= |polled.indices|
    && AllTried(polled.sent, polled.indices, turn.ios, polled.reservations)
  }

  // Taken apart anywhere, the offer is received part by part.
  lemma {:induction false} InQueueJoins(a: seq<nat>, b: seq<nat>, n: nat)
    ensures InQueue(a + b, n) == InQueue(a, n) + InQueue(b, n)
  {
    if a == [] {
      assert a + b == b;
    } else {
      assert (a + b)[1..] == a[1..] + b;
      InQueueJoins(a[1..], b, n);
    }
  }

  ghost predicate TurnSettled(s: State, before: nat, turn: Turn, polled: Polled)
    requires IsPollOf(turn, polled)
  {
    AllSettled(s, before, polled.sent, polled.indices, turn.ios, polled.reservations)
  }

  ghost predicate TurnStops(turn: Turn, polled: Polled)
    requires IsPollOf(turn, polled)
  {
    turn.before.stop || PollStops(polled.sent, polled.indices, turn.ios, polled.reservations)
  }

  // The turns of the loop, one after the other.
  ghost function LoopProgram(self: ConsumerId, turns: seq<Turn>, polls: seq<Polled>): seq<Step>
    requires |polls| <= |turns| && forall t :: 0 <= t < |polls| ==> IsPollOf(turns[t], polls[t])
    decreases |polls|
  {
    if polls == [] then []
    else
      var last := |polls| - 1;
      var polled := polls[last];
      assert IsPollOf(turns[last], polled);
      LoopProgram(self, turns, polls[..last])
      + PollProgram(self, polled.sent, polled.indices, turns[last].ios, polled.reservations)
  }

  // ---------------------------------------------------------------- what a message comes to

  // Runs are never taken back, and neither are deletions.
  ghost predicate Grows(s: State, s': State) {
    s.runs <= s'.runs && s.deleted <= s'.deleted
  }

  lemma {:induction false} RunGrows(s: State, steps: seq<Step>)
    requires ValidRun(s, steps)
    ensures Grows(s, Exec(s, steps))
    decreases |steps|
  {
    if steps == [] {
    } else {
      StepGrows(s, steps[0]);
      hide Apply, Enabled;
      RunGrows(Apply(s, steps[0]), steps[1..]);
    }
  }

  lemma StepGrows(s: State, step: Step)
    requires Enabled(s, step)
    ensures Grows(s, Apply(s, step))
  {
    hide KeyOf, Proper, EffectOf;
  }

  lemma RanGrows(s: State, trace: seq<Step>, s': State)
    requires Ran(s, trace, s')
    ensures Grows(s, s')
  {
    RunGrows(s, trace);
  }

  lemma FewerRuns(s: State, s': State)
    requires Grows(s, s')
    ensures |s.runs| <= |s'.runs|
  {
  }

  lemma GrowsNot(s: State)
    ensures Grows(s, s)
  {
  }

  // A handler for message i completed since there were `before` runs.
  ghost predicate HandledSince(s: State, before: nat, i: nat, message: Envelope) {
    Proper(message) &&
    exists j :: before <= j < |s.runs| && s.runs[j].message == i
      && s.runs[j].key == KeyOf(message) && s.runs[j].audit == EffectOf(message)
  }

  lemma HandledStays(s: State, s': State, before: nat, i: nat, message: Envelope)
    requires HandledSince(s, before, i, message) && Grows(s, s')
    ensures HandledSince(s', before, i, message)
  {
    assert message.body.Body?;
    hide KeyOf, Proper, EffectOf;
    var j :| before <= j < |s.runs| && s.runs[j].message == i
      && s.runs[j].key == KeyOf(message) && s.runs[j].audit == EffectOf(message);
    assert s'.runs[j] == s.runs[j];
  }

  lemma HandledEarlier(s: State, s1: State, s2: State, i: nat, message: Envelope)
    requires Grows(s, s1)
    ensures HandledSince(s2, |s1.runs|, i, message) ==> HandledSince(s2, |s.runs|, i, message)
  {
    hide KeyOf, Proper, EffectOf;
  }

  lemma HandledNow(s: State, s1: State, s2: State, at: int, i: nat, message: Envelope)
    requires Grows(s, s1) && Proper(message)
    requires s2.runs == s1.runs + [HandlerRun(KeyOf(message), at, i, EffectOf(message))]
    ensures HandledSince(s2, |s.runs|, i, message)
  {
    hide KeyOf, Proper, EffectOf;
    assert s2.runs[|s1.runs|].message == i;
  }

  // The run of a handler for this message: its key, its reservation, and for an
  // ADVICE_GENERATED event the audit row, all spelled out.
  ghost predicate IsRunOf(run: HandlerRun, message: Envelope, tenantId: string, handler: Handler) {
    message.body.Body? &&
    var m := message.body;
    var eventId := if m.eventId != "" then m.eventId else message.messageId;
    var kind := if m.kind != "" then m.kind else m.legacyKind;
    && run.key == tenantId + ":" + eventId + ":" + "SqsConsumerService"
    && run.reservedAt == handler.reservedAt && run.message == handler.message
    && run.audit ==
         if kind == "ADVICE_GENERATED"
         then Some(AuditRow(tenantId, if m.adviceId != "" then m.adviceId else "unknown", eventId))
         else None
  }

  lemma RunSpelledOut(message: Envelope, handler: Handler)
    requires Proper(message)
    ensures IsRunOf(HandlerRun(KeyOf(message), handler.reservedAt, handler.message, EffectOf(message)),
                    message, TenantOf(message), handler)
  {
    hide TenantOf;
  }

  // Whether these steps include a completed handler, and a delete call that worked.
  predicate Handles(own: seq<Step>) { exists k :: 0 <= k < |own| && own[k].HandleOk? }

  predicate Deletes(own: seq<Step>) {
    exists k :: 0 <= k < |own| && (own[k].Discard? || own[k].Drop? || own[k].Finish?) && own[k].gone
  }

  // What becomes of message i between s and s', and what part this consumer has in it.
  // Reserved and handled, it has a run and is deleted if the call works; if its handler
  // fails, its key is given back if that call works; in all other cases it is deleted
  // unhandled if the call works.
  ghost predicate Processed(s: State, s': State, i: nat, message: Envelope, io: MessageIo, reservation: Reservation,
                            own: seq<Step>) {
    var handled := reservation == Fresh && !io.handlerFails;
    && (Handles(own) <==> handled)
    && (Deletes(own) <==> io.gone && (reservation != Fresh || handled))
    && (handled ==> HandledSince(s', |s.runs|, i, message))
    && ((io.gone && (reservation != Fresh || handled)) ==> i in s'.deleted)
    && ((reservation == Fresh && io.handlerFails && !io.rollbackFails) ==>
          (message.body.Body? && KeyOf(message) !in s'.inbox))
  }

  lemma ProcessedBy(s: State, s': State, i: nat, message: Envelope, io: MessageIo, reservation: Reservation,
                    self: ConsumerId, own: seq<Step>)
    requires own == ReservationProgram(self, io, reservation) && message.body.Body?
    requires
      var handled := reservation == Fresh && !io.handlerFails;
      && (handled ==> HandledSince(s', |s.runs|, i, message))
      && ((io.gone && (reservation != Fresh || handled)) ==> i in s'.deleted)
      && ((reservation == Fresh && io.handlerFails && !io.rollbackFails) ==> KeyOf(message) !in s'.inbox)
    ensures Processed(s, s', i, message, io, reservation, own)
  {
    ProgramDoes(self, io, reservation, []);
    assert [] + own == own;
    hide HandledSince, KeyOf, Handles, Deletes;
  }

  // The part of it that lasts: completed runs and deletions.
  ghost predicate Settled(s: State, before: nat, i: nat, message: Envelope, io: MessageIo, reservation: Reservation) {
    var handled := reservation == Fresh && !io.handlerFails;
    && (handled ==> HandledSince(s, before, i, message))
    && ((io.gone && (reservation != Fresh || handled)) ==> i in s.deleted)
  }

  // It lasts for every message of a poll that did parse.
  ghost predicate AllSettled(s: State, before: nat, sent: seq<Envelope>, indices: seq<nat>, ios: nat -> MessageIo,
                             reservations: seq<Reservation>)
    requires |reservations| <= |indices| && forall j :: 0 <= j < |indices| ==> indices[j] < |sent|
  {
    forall j :: 0 <= j < |reservations| && !sent[indices[j]].body.Malformed? ==>
      Settled(s, before, indices[j], sent[indices[j]], ios(j), reservations[j])
  }

  lemma SettledStays(s: State, s': State, before: nat, earlier: nat, i: nat, message: Envelope, io: MessageIo,
                     reservation: Reservation)
    requires Settled(s, before, i, message, io, reservation) && Grows(s, s') && earlier <= before
    ensures Settled(s', earlier, i, message, io, reservation)
  {
    if reservation == Fresh && !io.handlerFails {
      HandledStays(s, s', before, i, message);
      hide KeyOf, Proper, EffectOf;
    }
  }

  lemma AllSettledStays(s: State, s': State, before: nat, earlier: nat, sent: seq<Envelope>, indices: seq<nat>,
                        ios: nat -> MessageIo, reservations: seq<Reservation>)
    requires |reservations| <= |indices| && forall j :: 0 <= j < |indices| ==> indices[j] < |sent|
    requires AllSettled(s, before, sent, indices, ios, reservations) && Grows(s, s') && earlier <= before
    ensures AllSettled(s', earlier, sent, indices, ios, reservations)
  {
    hide Settled, Grows;
    forall j | 0 <= j < |reservations| && !sent[indices[j]].body.Malformed?
      ensures Settled(s', earlier, indices[j], sent[indices[j]], ios(j), reservations[j])
    {
      SettledStays(s, s', before, earlier, indices[j], sent[indices[j]], ios(j), reservations[j]);
    }
  }

  lemma NoneSettled(s: State, before: nat, sent: seq<Envelope>, indices: seq<nat>, ios: nat -> MessageIo)
    requires forall j :: 0 <= j < |indices| ==> indices[j] < |sent|
    ensures AllSettled(s, before, sent, indices, ios, [])
  {
  }

  // One more message of the poll, between s1 and s2; `s` is where the poll began.
  lemma OneMoreSettled(s: State, s1: State, s2: State, sent: seq<Envelope>, indices: seq<nat>, ios: nat -> MessageIo,
                       reservations: seq<Reservation>, reservation: Reservation, own: seq<Step>)
    requires |reservations| < |indices| && forall j :: 0 <= j < |indices| ==> indices[j] < |sent|
    requires AllSettled(s1, |s.runs|, sent, indices, ios, reservations) && Grows(s, s1) && Grows(s1, s2)
    requires
      var n := |reservations|;
      !sent[indices[n]].body.Malformed? ==>
        Processed(s1, s2, indices[n], sent[indices[n]], ios(n), reservation, own)
    ensures AllSettled(s2, |s.runs|, sent, indices, ios, reservations + [reservation])
  {
    AllSettledStays(s1, s2, |s.runs|, |s.runs|, sent, indices, ios, reservations);
    var n, all := |reservations|, reservations + [reservation];
    hide HandledSince;
    if !sent[indices[n]].body.Malformed? {
      HandledEarlier(s, s1, s2, indices[n], sent[indices[n]]);
      assert Settled(s2, |s.runs|, indices[n], sent[indices[n]], ios(n), reservation);
    }
    hide Settled;
    forall j | 0 <= j < |all| && !sent[indices[j]].body.Malformed?
      ensures Settled(s2, |s.runs|, indices[j], sent[indices[j]], ios(j), all[j])
    {
      if j < n {
        assert all[j] == reservations[j];
      }
    }
  }

  lemma ProgramDoes(self: ConsumerId, io: MessageIo, reservation: Reservation, first: seq<Step>)
    requires forall k :: 0 <= k < |first| ==> first[k].Receive?
    ensures var own := first + ReservationProgram(self, io, reservation);
      var handled := reservation == Fresh && !io.handlerFails;
      && (Handles(own) <==> handled)
      && (Deletes(own) <==> io.gone && (reservation != Fresh || handled))
  {
    var program := ReservationProgram(self, io, reservation);
    var own := first + program;
    assert forall k :: 0 <= k < |program| ==> own[|first| + k] == program[k];
    if reservation == Fresh {
      assert program[1] == (if io.handlerFails then HandleError(self) else HandleOk(self));
      assert program[2] == HandlerProgram(self, io)[1];
      assert own[|first| + 1] == program[1] && own[|first| + 2] == program[2];
    } else {
      assert own[|own| - 1] == program[|program| - 1];
    }
  }

  // ---------------------------------------------------------------- the shared world

  // The queue, the inbox table, the completed handler runs with their audit rows,
  // and what every consumer is doing.
  class Broker {
    var sent: seq<Envelope>
    var deleted: set<nat>
    var inbox: map<string, int>
    var runs: seq<HandlerRun>
    var consumers: map<ConsumerId, Handler>
    var now: int
    var done: map<string, int>

    function View(): State
      reads this
    {
      State(sent, deleted, inbox, runs, consumers, now, done)
    }

    constructor ()
      ensures View() == INIT && Handling(View())
    {
      sent, deleted, inbox, runs, consumers, now, done := [], {}, map[], [], map[], 0, map[];
    }

    // Everything the other processes do while `self` waits.
    method Yield(self: ConsumerId, wanted: seq<Step>) returns (ghost steps: seq<Step>)
      requires Handling(View())
      modifies this
      ensures Ran(old(View()), steps, View()) && Own(steps, self) == [] && Handling(View()) && old(sent) <= sent
      ensures self in consumers <==> old(self in consumers)
      ensures self in consumers ==> consumers[self] == old(consumers)[self]
    {
      steps := Admitted(View(), self, wanted);
      OthersKeepHandler(View(), self, steps);
      Become(Exec(View(), Admitted(View(), self, wanted)));
    }

    // Everything that anybody does, this service's own polling loop included.
    method Elapse(wanted: seq<Step>) returns (ghost steps: seq<Step>)
      requires Handling(View())
      modifies this
      ensures steps == Happening(old(View()), wanted) && Ran(old(View()), steps, View()) && Handling(View())
      ensures View() == Exec(old(View()), steps)
    {
      steps := Happening(View(), wanted);
      RunKeepsHandling(View(), steps);
      Become(Exec(View(), Happening(View(), wanted)));
    }

    method Become(s: State)
      modifies this
      ensures View() == s
    {
      sent, deleted, inbox, runs := s.sent, s.deleted, s.inbox, s.runs;
      consumers, now, done := s.consumers, s.now, s.done;
    }
  }

  // ---------------------------------------------------------------- the service

  ghost predicate On(s: State, self: ConsumerId, stage: Stage, i: nat, message: Envelope) {
    At(s, self, stage) && s.consumers[self].message == i && s.sent[i] == message
  }

  class SqsConsumerService {
    const self: ConsumerId
    const broker: Broker
    const context: TenantContext
    var running: bool

    constructor (self: ConsumerId, broker: Broker, context: TenantContext)
      ensures this.self == self && this.broker == broker && this.context == context && !running
    {
      this.self, this.broker, this.context, running := self, broker, context, false;
    }

    // Everything the other processes do at an `await`; one of them may stop the service.
    method Await(pause: Pause) returns (ghost steps: seq<Step>)
      requires Handling(broker.View())
      modifies `running, broker
      ensures Ran(old(broker.View()), steps, broker.View()) && Own(steps, self) == []
      ensures Handling(broker.View()) && old(broker.sent) <= broker.sent
      ensures self in broker.consumers <==> old(self in broker.consumers)
      ensures self in broker.consumers ==> broker.consumers[self] == old(broker.consumers)[self]
      ensures running == (old(running) && !pause.stop)
    {
      steps := broker.Yield(self, pause.others);
      if pause.stop {
        running := false;
      }
    }

    // The queue no longer hands the message to this consumer; errors are swallowed.
    method DeleteMessage(i: nat, gone: bool)
      requires self in broker.consumers && broker.consumers[self].message == i
      modifies broker
      ensures broker.View() == Release(old(broker.View()), self, gone)
      ensures broker.deleted == (if gone then old(broker.deleted) + {i} else old(broker.deleted))
      ensures broker.inbox == old(broker.inbox) && broker.runs == old(broker.runs)
      ensures broker.consumers == old(broker.consumers) - {self}
    {
      if gone {
        broker.deleted := broker.deleted + {i};
      }
      broker.consumers := broker.consumers - {self};
    }

    // The delete call of a message that is not wanted, was refused, or is done.
    method AwaitDelete(i: nat, message: Envelope, io: MessageIo, ghost stage: Stage) returns (ghost trace: seq<Step>)
      requires Handling(broker.View()) && On(broker.View(), self, stage, i, message)
      requires (stage == Received && !Proper(message)) || stage == Refused || stage == Handled
      modifies `running, broker
      ensures Ran(old(broker.View()), trace, broker.View()) && Handling(broker.View())
      ensures old(broker.sent) <= broker.sent
      ensures Own(trace, self) == [DeleteStep(self, stage, io.gone)] && self !in broker.consumers
      ensures io.gone ==> i in broker.deleted
      ensures running == (old(running) && !io.beforeDelete.stop)
    {
      hide Ran, Handling, KeyOf, Proper;
      ghost var s := broker.View();
      ghost var others := Await(io.beforeDelete);
      ghost var s1 := broker.View();
      DeleteMessage(i, io.gone);
      AwaitedStep(s, others, s1, DeleteStep(self, stage, io.gone), self);
      trace := others + [DeleteStep(self, stage, io.gone)];
    }

    // inboxRepo.save, taken to insert or fail on the primary key; any error is taken
    // for a duplicate.
    method Reserve(i: nat, message: Envelope, inboxId: string, fails: bool)
      returns (reservation: Reservation, ghost step: Step)
      requires On(broker.View(), self, Received, i, message) && Proper(message) && inboxId == KeyOf(message)
      modifies broker
      ensures Enabled(old(broker.View()), step) && broker.View() == Apply(old(broker.View()), step)
      ensures reservation == (if inboxId in old(broker.inbox) then Duplicate else if fails then Faulted else Fresh)
      ensures step == match reservation
        case Fresh => ReserveOk(self)
        case Duplicate => ReserveDuplicate(self)
        case _ => ReserveFault(self)
      ensures On(broker.View(), self, if reservation == Fresh then Reserved else Refused, i, message)
      ensures broker.inbox ==
        (if reservation == Fresh then old(broker.inbox)[inboxId := broker.now] else old(broker.inbox))
      ensures broker.runs == old(broker.runs) && broker.deleted == old(broker.deleted)
    {
      if inboxId !in broker.inbox && !fails {
        reservation, step := Fresh, ReserveOk(self);
        broker.inbox := broker.inbox[inboxId := broker.now];
        broker.consumers := broker.consumers[self := Handler(i, Reserved, broker.now)];
      } else {
        reservation := if inboxId in broker.inbox then Duplicate else Faulted;
        step := if inboxId in broker.inbox then ReserveDuplicate(self) else ReserveFault(self);
        broker.consumers := broker.consumers[self := broker.consumers[self].(stage := Refused)];
      }
    }

    // The callback inside tenantContext.run: the audit row takes its tenant from the
    // context, which sanitises the tenant a second time.
    method RunCallback(message: Envelope, tenantId: string) returns (audit: Option<AuditRow>)
      requires Proper(message) && tenantId == TenantOf(message)
      modifies context
      ensures audit == EffectOf(message) && context.stores == old(context.stores)
    {
      SanitizeIdempotent(Or(message.body.tenantId, "default"));
      var entered := context.Enter(tenantId);
      audit := None;
      if KindOf(message) == ADVICE_GENERATED {
        var tenant := context.GetTenantId();
        audit := Some(AuditRow(tenant.value, Or(message.body.adviceId, "unknown"), EventIdOf(message)));
      }
      context.Leave();
    }

    // The handler: the callback, and the commit of its effect.
    method Handle(i: nat, message: Envelope, tenantId: string, fails: bool) returns (ok: bool, ghost step: Step)
      requires On(broker.View(), self, Reserved, i, message) && Proper(message) && tenantId == TenantOf(message)
      modifies broker, context
      ensures step == (if fails then HandleError(self) else HandleOk(self)) && ok == !fails
      ensures Enabled(old(broker.View()), step) && broker.View() == Apply(old(broker.View()), step)
      ensures On(broker.View(), self, if fails then RollingBack else Handled, i, message)
      ensures context.stores == old(context.stores)
      ensures broker.inbox == old(broker.inbox) && broker.deleted == old(broker.deleted)
      ensures fails ==> broker.runs == old(broker.runs)
      ensures !fails ==>
        |broker.runs| == |old(broker.runs)| + 1 && broker.runs[..|old(broker.runs)|] == old(broker.runs)
        && IsRunOf(broker.runs[|old(broker.runs)|], message, tenantId, old(broker.consumers)[self])
    {
      ok := !fails;
      step := if fails then HandleError(self) else HandleOk(self);
      if fails {
        broker.consumers := broker.consumers[self := broker.consumers[self].(stage := RollingBack)];
        return;
      }
      RunSpelledOut(message, broker.consumers[self]);
      hide IsRunOf, Proper, KeyOf, EffectOf, TenantOf;
      var audit := RunCallback(message, tenantId);
      var key := KeyOf(message);
      broker.runs := broker.runs + [HandlerRun(key, broker.consumers[self].reservedAt, i, audit)];
      broker.done := broker.done[key := broker.consumers[self].reservedAt];
      broker.consumers := broker.consumers[self := broker.consumers[self].(stage := Handled)];
    }

    // The catch block: delete the reservation by id, whoever made it.
    method Rollback(i: nat, message: Envelope, inboxId: string, fails: bool) returns (ghost step: Step)
      requires On(broker.View(), self, RollingBack, i, message) && inboxId == KeyOf(message)
      modifies broker
      ensures step == if fails then RollbackError(self) else RollbackOk(self)
      ensures Enabled(old(broker.View()), step) && broker.View() == Apply(old(broker.View()), step)
      ensures broker.inbox == if fails then old(broker.inbox) else old(broker.inbox) - {inboxId}
      ensures broker.runs == old(broker.runs) && broker.deleted == old(broker.deleted)
    {
      step := if fails then RollbackError(self) else RollbackOk(self);
      if !fails {
        broker.inbox := broker.inbox - {inboxId};
      }
      broker.consumers := broker.consumers - {self};
    }

    // From a reservation on: handle, then delete the message or roll back.
    method HandleReserved(i: nat, message: Envelope, tenantId: string, inboxId: string, io: MessageIo)
      returns (ghost trace: seq<Step>)
      requires Handling(broker.View()) && On(broker.View(), self, Reserved, i, message) && Proper(message)
      requires tenantId == TenantOf(message) && inboxId == KeyOf(message)
      modifies `running, broker, context
      ensures Ran(old(broker.View()), trace, broker.View()) && Handling(broker.View())
      ensures old(broker.sent) <= broker.sent
      ensures Own(trace, self) == HandlerProgram(self, io) && self !in broker.consumers
      ensures context.stores == old(context.stores)
      ensures running == (old(running) && !HandlerStops(io))
      ensures !io.handlerFails ==> HandledSince(broker.View(), |old(broker.runs)|, i, message)
      ensures !io.handlerFails && io.gone ==> i in broker.deleted
      ensures io.handlerFails && !io.rollbackFails ==> inboxId !in broker.inbox
    {
      hide Ran, Handling, KeyOf, TenantOf, Proper, EffectOf, HandledSince, Grows, Own;
      ghost var s := broker.View();
      ghost var others := Await(io.beforeHandle);
      ghost var s1 := broker.View();
      RanGrows(s, others, s1);
      var ok;
      ghost var step;
      ok, step := Handle(i, message, tenantId, io.handlerFails);
      AwaitedStep(s, others, s1, step, self);
      if ok {
        ghost var at := s1.consumers[self].reservedAt;
        assert broker.runs == s1.runs + [HandlerRun(KeyOf(message), at, i, EffectOf(message))];
        HandledNow(s, s1, broker.View(), at, i, message);
      }
      trace := others + [step];
      ghost var s2 := broker.View();
      ghost var more;
      if ok {
        more := AwaitDelete(i, message, io, Handled);
      } else {
        more := AwaitRollback(i, message, inboxId, io);
      }
      RanGrows(s2, more, broker.View());
      if ok {
        HandledStays(s2, broker.View(), |s.runs|, i, message);
      }
      JoinTraces(s, trace, s2, more, broker.View(), self);
      trace := trace + more;
    }

    method AwaitRollback(i: nat, message: Envelope, inboxId: string, io: MessageIo) returns (ghost trace: seq<Step>)
      requires Handling(broker.View()) && On(broker.View(), self, RollingBack, i, message) && inboxId == KeyOf(message)
      modifies `running, broker
      ensures Ran(old(broker.View()), trace, broker.View()) && Handling(broker.View())
      ensures old(broker.sent) <= broker.sent
      ensures Own(trace, self) == [if io.rollbackFails then RollbackError(self) else RollbackOk(self)]
      ensures self !in broker.consumers && running == (old(running) && !io.beforeRollback.stop)
      ensures !io.rollbackFails ==> inboxId !in broker.inbox
    {
      hide Ran, Handling, KeyOf, Proper;
      ghost var s := broker.View();
      ghost var others := Await(io.beforeRollback);
      ghost var s1 := broker.View();
      ghost var step := Rollback(i, message, inboxId, io.rollbackFails);
      AwaitedStep(s, others, s1, step, self);
      trace := others + [step];
    }

    // The message has been parsed: check its type and tenant, then reserve and handle.
    method ProcessParsed(i: nat, message: Envelope, io: MessageIo)
      returns (reservation: Reservation, ghost trace: seq<Step>)
      requires Handling(broker.View()) && On(broker.View(), self, Received, i, message)
      modifies `running, broker, context
      ensures Ran(old(broker.View()), trace, broker.View()) && Handling(broker.View())
      ensures old(broker.sent) <= broker.sent
      ensures self !in broker.consumers && context.stores == old(context.stores)
      ensures Plausible(message, io, reservation)
      ensures Own(trace, self) == ReservationProgram(self, io, reservation)
      ensures running == (old(running) && !MessageStops(message, io, reservation))
      ensures Processed(old(broker.View()), broker.View(), i, message, io, reservation, Own(trace, self))
    {
      hide Ran, Handling, HandledSince;
      var eventId := Or(message.body.eventId, message.messageId);
      var eventType := Or(message.body.kind, message.body.legacyKind);
      var tenantId := Keep(Lower(Trim(Or(message.body.tenantId, "default"))));
      if eventType == "" || tenantId == "" {
        reservation := NotTried;
        trace := AwaitDelete(i, message, io, Received);
        ProgramDoes(self, io, reservation, []);
        assert [] + ReservationProgram(self, io, reservation) == Own(trace, self);
        return;
      }
      var inboxId := tenantId + ":" + eventId + ":" + HANDLER;
      assert inboxId == KeyOf(message) && tenantId == TenantOf(message) && Proper(message);
      reservation, trace := ReserveAndHandle(i, message, tenantId, inboxId, io);
    }

    method ReserveAndHandle(i: nat, message: Envelope, tenantId: string, inboxId: string, io: MessageIo)
      returns (reservation: Reservation, ghost trace: seq<Step>)
      requires Handling(broker.View()) && On(broker.View(), self, Received, i, message) && Proper(message)
      requires tenantId == TenantOf(message) && inboxId == KeyOf(message)
      modifies `running, broker, context
      ensures Ran(old(broker.View()), trace, broker.View()) && Handling(broker.View())
      ensures old(broker.sent) <= broker.sent
      ensures self !in broker.consumers && context.stores == old(context.stores)
      ensures Plausible(message, io, reservation)
      ensures Own(trace, self) == ReservationProgram(self, io, reservation)
      ensures running == (old(running) && !MessageStops(message, io, reservation))
      ensures Processed(old(broker.View()), broker.View(), i, message, io, reservation, Own(trace, self))
    {
      hide Ran, Handling, KeyOf, TenantOf, Proper, EffectOf, HandledSince, Own, Handles, Deletes, Grows;
      hide HandlerProgram, HandlerStops, Processed;
      ghost var s := broker.View();
      ghost var others := Await(io.beforeReserve);
      ghost var s1 := broker.View();
      ghost var step;
      reservation, step := Reserve(i, message, inboxId, io.reserveFails);
      AwaitedStep(s, others, s1, step, self);
      trace := others + [step];
      ghost var s2 := broker.View();
      RanGrows(s, trace, s2);
      ghost var more;
      if reservation == Fresh {
        more := HandleReserved(i, message, tenantId, inboxId, io);
        HandledEarlier(s, s2, broker.View(), i, message);
      } else {
        more := AwaitDelete(i, message, io, Refused);
      }
      JoinTraces(s, trace, s2, more, broker.View(), self);
      trace := trace + more;
      ProcessedBy(s, broker.View(), i, message, io, reservation, self, Own(trace, self));
    }

    // Returns whether the call threw.  The consumer's own steps are exactly the
    // program's, whatever the others did in between.
    method ProcessMessageWithRetry(i: nat, io: MessageIo)
      returns (threw: bool, reservation: Reservation, ghost trace: seq<Step>)
      requires Handling(broker.View()) && self !in broker.consumers && i < |broker.sent|
      modifies `running, broker, context
      ensures Ran(old(broker.View()), trace, broker.View()) && Handling(broker.View())
      ensures old(broker.sent) <= broker.sent
      ensures self !in broker.consumers && context.stores == old(context.stores)
      ensures threw == old(broker.sent)[i].body.Malformed?
      ensures !threw ==> Plausible(old(broker.sent)[i], io, reservation)
      ensures Own(trace, self) == MessageProgram(self, i, old(broker.sent)[i], io, reservation)
      ensures running == (old(running) && !MessageStops(old(broker.sent)[i], io, reservation))
      ensures threw ==> broker.View() == old(broker.View()) && trace == []
      ensures !threw ==>
        Processed(old(broker.View()), broker.View(), i, old(broker.sent)[i], io, reservation, Own(trace, self))
    {
      hide Ran, Handling, Plausible, ReservationProgram, HandlerStops, HandledSince, Own, Handles, Deletes;
      ghost var s := broker.View();
      var message := broker.sent[i];
      threw, reservation, trace := false, NotTried, [];
      EmptyTrace(s, self);
      if message.body.Malformed? {
        threw := true;  // JSON.parse
        return;
      }
      broker.consumers := broker.consumers[self := Handler(i, Received, broker.now)];
      AwaitedStep(s, [], s, Receive(self, i), self);
      trace := [] + [Receive(self, i)];
      ghost var s1 := broker.View();
      ghost var more;
      reservation, more := ProcessParsed(i, message, io);
      JoinTraces(s, trace, s1, more, broker.View(), self);
      trace := trace + more;
      ProgramDoes(self, io, reservation, [Receive(self, i)]);
    }

    // The messages of one turn, in order; one that throws ends the turn.
    method Poll(indices: seq<nat>, ios: nat -> MessageIo)
      returns (reservations: seq<Reservation>, ghost trace: seq<Step>)
      requires Handling(broker.View()) && self !in broker.consumers
      requires forall j :: 0 <= j < |indices| ==> indices[j] < |broker.sent|
      modifies `running, broker, context
      ensures Ran(old(broker.View()), trace, broker.View()) && Handling(broker.View())
      ensures self !in broker.consumers && |reservations| <= |indices|
      ensures old(broker.sent) <= broker.sent && AllTried(old(broker.sent), indices, ios, reservations)
      ensures Own(trace, self) == PollProgram(self, old(broker.sent), indices, ios, reservations)
      ensures running == (old(running) && !PollStops(old(broker.sent), indices, ios, reservations))
      ensures AllSettled(broker.View(), |old(broker.runs)|, old(broker.sent), indices, ios, reservations)
    {
      hide Ran, Handling, MessageProgram, MessageStops, Plausible, PollProgram, PollStops, AllTried, Parsed, Own;
      hide Processed, AllSettled, Grows;
      ghost var s := broker.View();
      reservations, trace := [], [];
      EmptyTrace(s, self);
      EmptyPoll(self, s.sent, indices, ios);
      assert AllSettled(s, |s.runs|, s.sent, indices, ios, []) by { NoneSettled(s, |s.runs|, s.sent, indices, ios); }
      for j := 0 to |indices|
        invariant Ran(s, trace, broker.View()) && Handling(broker.View()) && s.sent <= broker.sent
        invariant self !in broker.consumers && |reservations| == j
        invariant Parsed(s.sent, indices, ios, reservations)
        invariant AllSettled(broker.View(), |s.runs|, s.sent, indices, ios, reservations)
        invariant Own(trace, self) == PollProgram(self, s.sent, indices, ios, reservations)
        invariant running == (old(running) && !PollStops(s.sent, indices, ios, reservations))
      {
        ghost var s1 := broker.View();
        var threw, reservation;
        ghost var more;
        threw, reservation, more := ProcessMessageWithRetry(indices[j], ios(j));
        JoinTraces(s, trace, s1, more, broker.View(), self);
        assert s1.sent[indices[j]] == s.sent[indices[j]];
        RanGrows(s, trace, s1);
        RanGrows(s1, more, broker.View());
        OneMoreSettled(s, s1, broker.View(), s.sent, indices, ios, reservations, reservation, Own(more, self));
        trace := trace + more;
        PollStep(self, s.sent, indices, ios, reservations, reservation);
        reservations := reservations + [reservation];
        if threw {
          return;
        }
      }
      ParsedAll(s.sent, indices, ios, reservations);
    }

    // Poll for as long as the flag is up, here for at most the turns given.  A turn
    // that fails, at the queue or at a message, does not end the loop; a flag cleared
    // at any call of a turn ends it with that turn.
    method PollLoop(turns: seq<Turn>) returns (ghost polls: seq<Polled>, ghost trace: seq<Step>)
      requires Handling(broker.View()) && self !in broker.consumers
      modifies `running, broker, context
      ensures Ran(old(broker.View()), trace, broker.View()) && Handling(broker.View()) && self !in broker.consumers
      ensures |polls| <= |turns| && forall t :: 0 <= t < |polls| ==> IsPollOf(turns[t], polls[t])
      ensures old(broker.sent) <= broker.sent
      ensures forall t :: 0 <= t < |polls| ==> old(broker.sent) <= polls[t].sent <= broker.sent
      ensures Own(trace, self) == LoopProgram(self, turns, polls)
      ensures !old(running) ==> polls == []
      ensures forall t :: 0 <= t < |polls| ==> TurnSettled(broker.View(), |old(broker.runs)|, turns[t], polls[t])
      ensures forall t :: 0 <= t < |polls| - 1 ==> !TurnStops(turns[t], polls[t])
      ensures running <==>
        (old(running) && |polls| == |turns| && forall t :: 0 <= t < |polls| ==> !TurnStops(turns[t], polls[t]))
    {
      hide Ran, Handling, PollProgram, IsPollOf, TurnStops, TurnSettled, LoopProgram, Own, Grows;
      ghost var s := broker.View();
      polls, trace := [], [];
      EmptyTrace(s, self);
      EmptyLoop(self, turns);
      var t := 0;
      while running && t < |turns|
        invariant |polls| == t <= |turns| && (running ==> old(running)) && (!old(running) ==> t == 0)
        invariant Ran(s, trace, broker.View()) && Handling(broker.View()) && self !in broker.consumers
        invariant forall u :: 0 <= u < |polls| ==> IsPollOf(turns[u], polls[u])
        invariant s.sent <= broker.sent && forall u :: 0 <= u < |polls| ==> s.sent <= polls[u].sent <= broker.sent
        invariant Own(trace, self) == LoopProgram(self, turns, polls)
        invariant forall u :: 0 <= u < |polls| ==> TurnSettled(broker.View(), |s.runs|, turns[u], polls[u])
        invariant forall u :: 0 <= u < |polls| - 1 ==> !TurnStops(turns[u], polls[u])
        invariant old(running) && t > 0 ==> (running <==> !TurnStops(turns[t - 1], polls[t - 1]))
        invariant old(running) && t == 0 ==> running
        decreases |turns| - t
      {
        ghost var s1 := broker.View();
        ghost var polled, more := PollOnce(turns[t]);
        JoinTraces(s, trace, s1, more, broker.View(), self);
        LoopStep(self, turns, polls, polled);
        RanGrows(s, trace, s1);
        RanGrows(s1, more, broker.View());
        TurnsStaySettled(s, s1, broker.View(), turns, polls, polled);
        trace := trace + more;
        polls := polls + [polled];
        t := t + 1;
      }
    }

    method PollOnce(turn: Turn) returns (ghost polled: Polled, ghost trace: seq<Step>)
      requires Handling(broker.View()) && self !in broker.consumers
      modifies `running, broker, context
      ensures Ran(old(broker.View()), trace, broker.View()) && Handling(broker.View()) && self !in broker.consumers
      ensures IsPollOf(turn, polled) && old(broker.sent) <= polled.sent <= broker.sent
      ensures TurnSettled(broker.View(), |old(broker.runs)|, turn, polled)
      ensures Own(trace, self) == PollProgram(self, polled.sent, polled.indices, turn.ios, polled.reservations)
      ensures running == (old(running) && !TurnStops(turn, polled))
    {
      hide Ran, Handling, Own, Grows, Settled, Plausible, PollProgram, PollStops, MessageStops;
      ghost var s := broker.View();
      trace := Await(turn.before);
      ghost var s1 := broker.View();
      RanGrows(s, trace, s1);
      FewerRuns(s, s1);
      var indices := if turn.receiveFails then [] else InQueue(turn.offered, |broker.sent|);
      var reservations;
      ghost var more;
      reservations, more := Poll(indices, turn.ios);
      JoinTraces(s, trace, s1, more, broker.View(), self);
      trace := trace + more;
      polled := Polled(s1.sent, indices, reservations);
      GrowsNot(broker.View());
      AllSettledStays(broker.View(), broker.View(), |s1.runs|, |s.runs|, s1.sent, indices, turn.ios, reservations);
    }

    // The cutoff is taken before the delete runs; the delete may fail.  The timer that
    // calls this does not wait for the polling loop, whose steps go on meanwhile.
    method PruneOldInboxMessages(meanwhile: seq<Step>, fails: bool) returns (ghost trace: seq<Step>)
      requires Handling(broker.View())
      modifies broker
      ensures Ran(old(broker.View()), trace, broker.View()) && Handling(broker.View())
      ensures trace ==
        Happening(old(broker.View()), meanwhile) + if fails then [] else [Prune(old(broker.now) - 604800000)]
      ensures
        var before := Exec(old(broker.View()), Happening(old(broker.View()), meanwhile));
        if fails then broker.View() == before
        else
          && (forall key :: key in broker.inbox <==>
                key in before.inbox && before.inbox[key] >= old(broker.now) - 604800000)
          && (forall key :: key in broker.inbox ==> broker.inbox[key] == before.inbox[key])
          && broker.runs == before.runs && broker.deleted == before.deleted
    {
      ghost var s := broker.View();
      var cutoff := broker.now - WEEK_MS;
      trace := broker.Elapse(meanwhile);
      ghost var s1 := broker.View();
      if !fails {
        NowGrows(s, trace);
        broker.inbox := Since(broker.inbox, cutoff);
        broker.done := Since(broker.done, cutoff);
        StepKeepsHandling(s1, Prune(cutoff));
        Prepend(s1, Prune(cutoff), []);
        assert [Prune(cutoff)] + [] == [Prune(cutoff)];
        assert Apply(s1, Prune(cutoff)) == broker.View();
        RunAppend(s, trace, [Prune(cutoff)]);
        trace := trace + [Prune(cutoff)];
      }
    }
  }

  lemma EmptyLoop(self: ConsumerId, turns: seq<Turn>)
    ensures LoopProgram(self, turns, []) == []
  {
  }

  lemma TurnsStaySettled(s: State, s1: State, s2: State, turns: seq<Turn>, polls: seq<Polled>, polled: Polled)
    requires |polls| < |turns| && IsPollOf(turns[|polls|], polled) && Grows(s, s1) && Grows(s1, s2)
    requires forall t :: 0 <= t < |polls| ==> IsPollOf(turns[t], polls[t])
    requires forall t :: 0 <= t < |polls| ==> TurnSettled(s1, |s.runs|, turns[t], polls[t])
    requires TurnSettled(s2, |s1.runs|, turns[|polls|], polled)
    ensures var all := polls + [polled];
      forall t :: 0 <= t < |all| ==> IsPollOf(turns[t], all[t]) && TurnSettled(s2, |s.runs|, turns[t], all[t])
  {
    hide IsPollOf, AllTried;
    var all := polls + [polled];
    forall t | 0 <= t < |all| ensures IsPollOf(turns[t], all[t]) && TurnSettled(s2, |s.runs|, turns[t], all[t]) {
      if t < |polls| {
        assert all[t] == polls[t];
        TurnStaysSettled(s1, s2, |s.runs|, |s.runs|, turns[t], polls[t]);
      } else {
        TurnStaysSettled(s2, s2, |s1.runs|, |s.runs|, turns[t], polled);
      }
    }
  }

  lemma TurnStaysSettled(s: State, s': State, before: nat, earlier: nat, turn: Turn, polled: Polled)
    requires IsPollOf(turn, polled) && TurnSettled(s, before, turn, polled) && Grows(s, s') && earlier <= before
    ensures TurnSettled(s', earlier, turn, polled)
  {
    AllSettledStays(s, s', before, earlier, polled.sent, polled.indices, turn.ios, polled.reservations);
  }

  lemma LoopStep(self: ConsumerId, turns: seq<Turn>, polls: seq<Polled>, polled: Polled)
    requires |polls| < |turns| && IsPollOf(turns[|polls|], polled)
    requires forall t :: 0 <= t < |polls| ==> IsPollOf(turns[t], polls[t])
    ensures forall t :: 0 <= t < |polls + [polled]| ==> IsPollOf(turns[t], (polls + [polled])[t])
    ensures LoopProgram(self, turns, polls + [polled]) == LoopProgram(self, turns, polls)
      + PollProgram(self, polled.sent, polled.indices, turns[|polls|].ios, polled.reservations)
  {
    hide PollProgram, AllTried, InQueue;
    assert forall t :: 0 <= t < |polls + [polled]| ==> IsPollOf(turns[t], (polls + [polled])[t]) by {
      hide IsPollOf;
    }
    assert (polls + [polled])[..|polls|] == polls;
  }

  lemma EmptyPoll(self: ConsumerId, sent: seq<Envelope>, indices: seq<nat>, ios: nat -> MessageIo)
    requires forall j :: 0 <= j < |indices| ==> indices[j] < |sent|
    ensures PollProgram(self, sent, indices, ios, []) == [] && !PollStops(sent, indices, ios, [])
    ensures Parsed(sent, indices, ios, [])
  {
  }

  // One more message of the poll.
  lemma PollStep(self: ConsumerId, sent: seq<Envelope>, indices: seq<nat>, ios: nat -> MessageIo,
                 reservations: seq<Reservation>, reservation: Reservation)
    requires |reservations| < |indices| && forall j :: 0 <= j < |indices| ==> indices[j] < |sent|
    requires Parsed(sent, indices, ios, reservations)
    ensures var n, all := |reservations|, reservations + [reservation];
      var message := sent[indices[n]];
      && PollProgram(self, sent, indices, ios, all)
           == PollProgram(self, sent, indices, ios, reservations)
              + MessageProgram(self, indices[n], message, ios(n), reservation)
      && (PollStops(sent, indices, ios, all) <==>
            PollStops(sent, indices, ios, reservations) || MessageStops(message, ios(n), reservation))
      && (if message.body.Malformed? then AllTried(sent, indices, ios, all)
          else Plausible(message, ios(n), reservation) ==> Parsed(sent, indices, ios, all))
  {
    hide MessageProgram, MessageStops, Plausible, PollStops;
    assert (reservations + [reservation])[..|reservations|] == reservations;
    PollStopsAppend(sent, indices, ios, reservations, reservation);
    hide PollProgram;
    ParsedAppend(sent, indices, ios, reservations, reservation);
  }

  lemma ParsedAppend(sent: seq<Envelope>, indices: seq<nat>, ios: nat -> MessageIo,
                     reservations: seq<Reservation>, reservation: Reservation)
    requires |reservations| < |indices| && forall j :: 0 <= j < |indices| ==> indices[j] < |sent|
    requires Parsed(sent, indices, ios, reservations)
    ensures var n, all := |reservations|, reservations + [reservation];
      if sent[indices[n]].body.Malformed? then AllTried(sent, indices, ios, all)
      else Plausible(sent[indices[n]], ios(n), reservation) ==> Parsed(sent, indices, ios, all)
  {
    hide Plausible;
    var all := reservations + [reservation];
    assert forall j :: 0 <= j < |reservations| ==> all[j] == reservations[j];
  }

  lemma ParsedAll(sent: seq<Envelope>, indices: seq<nat>, ios: nat -> MessageIo, reservations: seq<Reservation>)
    requires |reservations| == |indices| && forall j :: 0 <= j < |indices| ==> indices[j] < |sent|
    requires Parsed(sent, indices, ios, reservations)
    ensures AllTried(sent, indices, ios, reservations)
  {
  }

  lemma PollStopsAppend(sent: seq<Envelope>, indices: seq<nat>, ios: nat -> MessageIo, reservations: seq<Reservation>,
                        reservation: Reservation)
    requires |reservations| < |indices| && forall j :: 0 <= j < |indices| ==> indices[j] < |sent|
    ensures PollStops(sent, indices, ios, reservations + [reservation]) <==>
      || PollStops(sent, indices, ios, reservations)
      || MessageStops(sent[indices[|reservations|]], ios(|reservations|), reservation)
  {
    hide MessageStops;
    var all := reservations + [reservation];
    assert all[|reservations|] == reservation;
    assert forall j :: 0 <= j < |reservations| ==> all[j] == reservations[j];
    if PollStops(sent, indices, ios, reservations) {
      var j :| 0 <= j < |reservations| && MessageStops(sent[indices[j]], ios(j), reservations[j]);
      assert MessageStops(sent[indices[j]], ios(j), all[j]);
    }
    if MessageStops(sent[indices[|reservations|]], ios(|reservations|), reservation) {
      assert MessageStops(sent[indices[|reservations|]], ios(|reservations|), all[|reservations|]);
    }
  }

  lemma EmptyTrace(s: State, self: ConsumerId)
    ensures Ran(s, [], s) && Own([], self) == []
  {
  }

  lemma {:induction false} NowGrows(s: State, steps: seq<Step>)
    requires ValidRun(s, steps)
    ensures s.now <= Exec(s, steps).now
    decreases |steps|
  {
    if steps == [] {
    } else {
      NowGrows(Apply(s, steps[0]), steps[1..]);
    }
  }
}

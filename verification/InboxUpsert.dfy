// Why the reservation must insert or fail: TypeORM's save alone is an upsert, and under
// an upsert the inbox stops nothing.

module InboxUpsert {
  import opened Messaging
  import opened InboxProtocol
  import opened InboxAtMostOnce

  // The consumer's steps, with a reservation that overwrites a row it finds.
  datatype UpsertStep = Upsert(k: ConsumerId) | Other(step: Step)

  predicate Possible(s: State, u: UpsertStep) {
    match u
    case Upsert(k) => CanReserve(s, k)
    case Other(step) => !step.ReserveOk? && !step.ReserveDuplicate? && !step.ReserveFault? && Enabled(s, step)
  }

  function Take(s: State, u: UpsertStep): State
    requires Possible(s, u)
  {
    match u
    case Upsert(k) =>
      s.(inbox := s.inbox[Key(s, k) := s.now],
         consumers := s.consumers[k := Handler(s.consumers[k].message, Reserved, s.now)])
    case Other(step) => Apply(s, step)
  }

  predicate ValidUpserts(s: State, steps: seq<UpsertStep>)
    decreases |steps|
  {
    steps == [] || (Possible(s, steps[0]) && ValidUpserts(Take(s, steps[0]), steps[1..]))
  }

  function TakeAll(s: State, steps: seq<UpsertStep>): State
    requires ValidUpserts(s, steps)
    decreases |steps|
  {
    if steps == [] then s else TakeAll(Take(s, steps[0]), steps[1..])
  }

  lemma First(s: State, u: UpsertStep, rest: seq<UpsertStep>)
    requires Possible(s, u) && ValidUpserts(Take(s, u), rest)
    ensures ValidUpserts(s, [u] + rest) && TakeAll(s, [u] + rest) == TakeAll(Take(s, u), rest)
  {
    hide Possible, Take;
    assert ([u] + rest)[1..] == rest;
  }

  lemma TwoSteps(s: State, u: UpsertStep, v: UpsertStep)
    requires Possible(s, u) && Possible(Take(s, u), v)
    ensures ValidUpserts(s, [u, v]) && TakeAll(s, [u, v]) == Take(Take(s, u), v)
  {
    First(Take(s, u), v, []);
    First(s, u, [v] + []);
    assert [u] + ([v] + []) == [u, v];
  }

  // The steps that handle a message, up to the delete call, which fails.
  function Delivery(k: ConsumerId, i: nat): seq<UpsertStep> {
    [Other(Receive(k, i)), Upsert(k)] + [Other(HandleOk(k)), Other(Finish(k, false))]
  }

  lemma ReceiveAndReserve(s: State, k: ConsumerId, i: nat)
    requires k !in s.consumers && i < |s.sent| && Proper(s.sent[i]) && s.sent[i].body.Body?
    ensures ValidUpserts(s, [Other(Receive(k, i)), Upsert(k)])
    ensures TakeAll(s, [Other(Receive(k, i)), Upsert(k)]) == s.(
      inbox := s.inbox[KeyOf(s.sent[i]) := s.now], consumers := s.consumers[k := Handler(i, Reserved, s.now)])
  {
    hide KeyOf, Proper, EffectOf;
    var s1 := Take(s, Other(Receive(k, i)));
    TwoSteps(s, Other(Receive(k, i)), Upsert(k));
    assert s1.consumers[k := Handler(i, Reserved, s.now)] == s.consumers[k := Handler(i, Reserved, s.now)];
  }

  lemma HandleAndFinish(s: State, k: ConsumerId)
    requires At(s, k, Reserved)
    ensures ValidUpserts(s, [Other(HandleOk(k)), Other(Finish(k, false))])
    ensures TakeAll(s, [Other(HandleOk(k)), Other(Finish(k, false))]) == s.(
      runs := s.runs + [HandlerRun(Key(s, k), s.consumers[k].reservedAt, s.consumers[k].message,
                                   EffectOf(MessageOf(s, k)))],
      done := s.done[Key(s, k) := s.consumers[k].reservedAt], consumers := s.consumers - {k})
  {
    hide KeyOf, Proper, EffectOf;
    var s1 := Take(s, Other(HandleOk(k)));
    TwoSteps(s, Other(HandleOk(k)), Other(Finish(k, false)));
    assert s1.consumers - {k} == s.consumers - {k};
  }

  // Whatever the inbox holds, a delivered message is handled once more.
  lemma EveryDeliveryIsHandled(s: State, k: ConsumerId, i: nat)
    requires k !in s.consumers && i < |s.sent| && Proper(s.sent[i])
    ensures ValidUpserts(s, Delivery(k, i))
    ensures TakeAll(s, Delivery(k, i)) == s.(
      inbox := s.inbox[KeyOf(s.sent[i]) := s.now], done := s.done[KeyOf(s.sent[i]) := s.now],
      runs := s.runs + [HandlerRun(KeyOf(s.sent[i]), s.now, i, EffectOf(s.sent[i]))])
  {
    hide KeyOf, Proper, EffectOf;
    ProperHasBody(s.sent[i]);
    ReceiveAndReserve(s, k, i);
    hide Possible, Take, ValidUpserts, TakeAll, TenantOf, EventIdOf, KindOf;
    var s1 := TakeAll(s, [Other(Receive(k, i)), Upsert(k)]);
    assert At(s1, k, Reserved) && Key(s1, k) == KeyOf(s.sent[i]) && MessageOf(s1, k) == s.sent[i];
    assert s1.consumers[k].reservedAt == s.now && s1.consumers[k].message == i;
    assert s1.consumers - {k} == s.consumers;
    hide At, Key, MessageOf;
    HandleAndFinish(s1, k);
    Joined(s, [Other(Receive(k, i)), Upsert(k)], [Other(HandleOk(k)), Other(Finish(k, false))]);
  }

  // So for every message with a type and a tenant, a second delivery has a second effect
  // in the same millisecond, with no prune and no crash.
  lemma UpsertHandlesTwice(m: Envelope) returns (steps: seq<UpsertStep>)
    requires Proper(m)
    ensures ValidUpserts(INIT, steps) && !Apart(TakeAll(INIT, steps).runs)
    ensures forall u :: u in steps ==> !(u.Other? && (u.step.Prune? || u.step.Crash?))
  {
    var s1 := Take(INIT, Other(Send(m)));
    EveryDeliveryIsHandled(s1, 0, 0);
    var s2 := TakeAll(s1, Delivery(0, 0));
    EveryDeliveryIsHandled(s2, 0, 0);
    Joined(s1, Delivery(0, 0), Delivery(0, 0));
    First(INIT, Other(Send(m)), Delivery(0, 0) + Delivery(0, 0));
    steps := [Other(Send(m))] + (Delivery(0, 0) + Delivery(0, 0));
    var run := HandlerRun(KeyOf(m), 0, 0, EffectOf(m));
    TwoRunsAtOnce([], run, run);
  }

  lemma {:induction false} Joined(s: State, a: seq<UpsertStep>, b: seq<UpsertStep>)
    requires ValidUpserts(s, a) && ValidUpserts(TakeAll(s, a), b)
    ensures ValidUpserts(s, a + b) && TakeAll(s, a + b) == TakeAll(TakeAll(s, a), b)
    decreases |a|
  {
    hide Possible, Take;
    if a == [] {
      assert a + b == b;
    } else {
      Joined(Take(s, a[0]), a[1..], b);
      assert (a + b)[1..] == a[1..] + b;
    }
  }
}

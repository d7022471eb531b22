// The idempotent inbox as a step-based protocol: any number of consumers share one
// queue, one inbox table and one audit log.  Reservation, effect, rollback and
// deletion are separate writes, and the queue may hand out any message at any time.

module InboxProtocol {
  import opened Messaging
  import opened TenantKeys

  type ConsumerId = nat

  const WEEK_MS := 7 * 24 * 60 * 60 * 1000

  // Before the reservation, after a refused one, before the handler, after it, and in
  // the catch block.
  datatype Stage = Received | Refused | Reserved | Handled | RollingBack

  datatype Handler = Handler(message: nat, stage: Stage, reservedAt: int)

  datatype AuditRow = AuditRow(tenantId: string, entityId: string, eventId: string)

  // A completed handler callback, with the audit row it committed, if any.
  datatype HandlerRun = HandlerRun(key: string, reservedAt: int, message: nat, audit: Option<AuditRow>)

  // `consumers` holds the busy consumers; the inbox maps a key to its processed_at.
  // `done` is history: the keys whose handler completed and was not pruned since.
  datatype State = State(
    sent: seq<Envelope>,
    deleted: set<nat>,
    inbox: map<string, int>,
    runs: seq<HandlerRun>,
    consumers: map<ConsumerId, Handler>,
    now: int,
    done: map<string, int>)

  datatype Step =
    | Send(message: Envelope)
    | Receive(k: ConsumerId, i: nat)
    | Discard(k: ConsumerId, gone: bool)
    | ReserveOk(k: ConsumerId)
    | ReserveDuplicate(k: ConsumerId)
    | ReserveFault(k: ConsumerId)
    | Drop(k: ConsumerId, gone: bool)
    | HandleOk(k: ConsumerId)
    | HandleError(k: ConsumerId)
    | Finish(k: ConsumerId, gone: bool)
    | RollbackOk(k: ConsumerId)
    | RollbackError(k: ConsumerId)
    | Crash(k: ConsumerId)
    | Prune(cutoff: int)
    | Tick(ms: nat)

  // ---------------------------------------------------------------- reading a message

  // a || b
  function Or(a: string, b: string): string { if a == "" then b else a }

  function EventIdOf(m: Envelope): string
    requires m.body.Body?
  {
    Or(m.body.eventId, m.messageId)
  }

  function KindOf(m: Envelope): string
    requires m.body.Body?
  {
    Or(m.body.kind, m.body.legacyKind)
  }

  function TenantOf(m: Envelope): string
    requires m.body.Body?
  {
    Sanitize(Or(m.body.tenantId, "default"))
  }

  // The message has a type and a usable tenant: anything else is deleted unhandled.
  predicate Proper(m: Envelope) {
    m.body.Body? && KindOf(m) != "" && TenantOf(m) != ""
  }

  function KeyOf(m: Envelope): string
    requires m.body.Body?
  {
    InboxKey(TenantOf(m), EventIdOf(m))
  }

  // A message is handled exactly when it has a type and some character of its tenant
  // is left; without any tenant it belongs to the tenant "default".
  lemma ProperExactly(m: Envelope)
    ensures Proper(m) <==>
      && m.body.Body? && (m.body.kind != "" || m.body.legacyKind != "")
      && (m.body.tenantId == "" || exists i :: 0 <= i < |m.body.tenantId| && Image(m.body.tenantId[i]) != "")
  {
    if m.body.Body? {
      var tenant := Or(m.body.tenantId, "default");
      SanitizeIsCharacterwise(tenant);
      NothingLeft(tenant);
      assert Image("default"[0]) != "";
    }
  }

  // How the consumer reads a message: its own event id before the queue's, `type`
  // before `eventType`, and the key under which it is reserved.
  lemma ReadsExactly(m: Envelope)
    requires m.body.Body?
    ensures EventIdOf(m) == if m.body.eventId != "" then m.body.eventId else m.messageId
    ensures KindOf(m) == if m.body.kind != "" then m.body.kind else m.body.legacyKind
    ensures m.body.tenantId == "" ==> TenantOf(m) == "default"
    ensures m.body.tenantId != "" && Canonical(m.body.tenantId) ==> TenantOf(m) == m.body.tenantId
    ensures KeyOf(m) == TenantOf(m) + ":" + EventIdOf(m) + ":" + "SqsConsumerService"
  {
    assert Canonical("default");
    hide Sanitize, Canonical;
    SanitizeIdempotent("default");
    SanitizeIdempotent(m.body.tenantId);
  }

  const ADVICE_GENERATED := "ADVICE_GENERATED"

  // The handler's effect: one audit row for ADVICE_GENERATED, nothing for other types.
  function EffectOf(m: Envelope): Option<AuditRow>
    requires m.body.Body?
  {
    if KindOf(m) == ADVICE_GENERATED
    then Some(AuditRow(TenantOf(m), Or(m.body.adviceId, "unknown"), EventIdOf(m)))
    else None
  }

  // ---------------------------------------------------------------- the steps

  predicate At(s: State, k: ConsumerId, stage: Stage) {
    k in s.consumers && s.consumers[k].stage == stage && s.consumers[k].message < |s.sent|
    && s.sent[s.consumers[k].message].body.Body?
  }

  function MessageOf(s: State, k: ConsumerId): Envelope
    requires k in s.consumers && s.consumers[k].message < |s.sent|
  {
    s.sent[s.consumers[k].message]
  }

  function Key(s: State, k: ConsumerId): string
    requires k in s.consumers && s.consumers[k].message < |s.sent| && MessageOf(s, k).body.Body?
  {
    KeyOf(MessageOf(s, k))
  }

  predicate CanReserve(s: State, k: ConsumerId) {
    At(s, k, Received) && Proper(MessageOf(s, k))
  }

  // The insert fails exactly when the key is there (ReserveDuplicate) or the database
  // is in trouble (ReserveFault); the consumer cannot tell the two apart.
  predicate Enabled(s: State, step: Step) {
    match step
    case Send(_) => true
    case Receive(k, i) => k !in s.consumers && i < |s.sent| && s.sent[i].body.Body?
    case Discard(k, _) => At(s, k, Received) && !Proper(MessageOf(s, k))
    case ReserveOk(k) => CanReserve(s, k) && Key(s, k) !in s.inbox
    case ReserveDuplicate(k) => CanReserve(s, k) && Key(s, k) in s.inbox
    case ReserveFault(k) => CanReserve(s, k) && Key(s, k) !in s.inbox
    case Drop(k, _) => At(s, k, Refused)
    case HandleOk(k) => At(s, k, Reserved)
    case HandleError(k) => At(s, k, Reserved)
    case Finish(k, _) => At(s, k, Handled)
    case RollbackOk(k) => At(s, k, RollingBack)
    case RollbackError(k) => At(s, k, RollingBack)
    case Crash(k) => k in s.consumers
    case Prune(cutoff) => cutoff <= s.now - WEEK_MS
    case Tick(_) => true
  }

  function SetStage(s: State, k: ConsumerId, stage: Stage): State
    requires k in s.consumers
  {
    s.(consumers := s.consumers[k := s.consumers[k].(stage := stage)])
  }

  // The consumer is done with its message; `gone` says whether the delete call worked.
  function Release(s: State, k: ConsumerId, gone: bool): State
    requires k in s.consumers
  {
    s.(consumers := s.consumers - {k},
       deleted := if gone then s.deleted + {s.consumers[k].message} else s.deleted)
  }

  function Since(m: map<string, int>, cutoff: int): map<string, int> {
    map key | key in m && m[key] >= cutoff :: m[key]
  }

  function Apply(s: State, step: Step): State
    requires Enabled(s, step)
  {
    match step
    case Send(m) => s.(sent := s.sent + [m])
    case Receive(k, i) => s.(consumers := s.consumers[k := Handler(i, Received, s.now)])
    case Discard(k, gone) => Release(s, k, gone)
    case ReserveOk(k) =>
      s.(inbox := s.inbox[Key(s, k) := s.now],
         consumers := s.consumers[k := Handler(s.consumers[k].message, Reserved, s.now)])
    case ReserveDuplicate(k) => SetStage(s, k, Refused)
    case ReserveFault(k) => SetStage(s, k, Refused)
    case Drop(k, gone) => Release(s, k, gone)
    case HandleOk(k) =>
      var h := s.consumers[k];
      var s' := s.(runs := s.runs + [HandlerRun(Key(s, k), h.reservedAt, h.message, EffectOf(MessageOf(s, k)))],
                   done := s.done[Key(s, k) := h.reservedAt]);
      SetStage(s', k, Handled)
    case HandleError(k) => SetStage(s, k, RollingBack)
    case Finish(k, gone) => Release(s, k, gone)
    case RollbackOk(k) => Release(s.(inbox := s.inbox - {Key(s, k)}), k, false)
    case RollbackError(k) => Release(s, k, false)
    case Crash(k) => Release(s, k, false)
    case Prune(cutoff) => s.(inbox := Since(s.inbox, cutoff), done := Since(s.done, cutoff))
    case Tick(ms) => s.(now := s.now + ms)
  }

  // The step is taken by this consumer.
  predicate IsOwn(step: Step, self: ConsumerId) {
    !step.Send? && !step.Prune? && !step.Tick? && step.k == self
  }

  // ---------------------------------------------------------------- runs

  const INIT := State([], {}, map[], [], map[], 0, map[])

  predicate ValidRun(s: State, steps: seq<Step>)
    decreases |steps|
  {
    steps == [] || (Enabled(s, steps[0]) && ValidRun(Apply(s, steps[0]), steps[1..]))
  }

  function Exec(s: State, steps: seq<Step>): State
    requires ValidRun(s, steps)
    decreases |steps|
  {
    if steps == [] then s else Exec(Apply(s, steps[0]), steps[1..])
  }

  lemma {:induction false} RunAppend(s: State, a: seq<Step>, b: seq<Step>)
    requires ValidRun(s, a) && ValidRun(Exec(s, a), b)
    ensures ValidRun(s, a + b) && Exec(s, a + b) == Exec(Exec(s, a), b)
    decreases |a|
  {
    hide Enabled, Apply;
    if a == [] {
      assert a + b == b;
    } else {
      RunAppend(Apply(s, a[0]), a[1..], b);
      assert (a + b)[1..] == a[1..] + b;
    }
  }

  lemma Prepend(s: State, step: Step, rest: seq<Step>)
    requires Enabled(s, step) && ValidRun(Apply(s, step), rest)
    ensures ValidRun(s, [step] + rest) && Exec(s, [step] + rest) == Exec(Apply(s, step), rest)
  {
    hide Enabled, Apply;
    assert ([step] + rest)[1..] == rest;
  }
}

// The transactional outbox as a step-based protocol: any number of relay workers
// share one table and one queue, and every interleaving of their steps is a run.

module OutboxProtocol {
  import opened Messaging

  type EventId = string
  type WorkerId = nat

  // Math.random() * 1000 is below 1000, and `new Date(..)` drops the fraction.
  type Jitter = ms: nat | ms < 1000

  datatype Status = PENDING | CLAIMED | PUBLISHED | FAILED

  // One row of outbox_events.  `leaseUntil` is written by a claim and read by nothing.
  datatype Row = Row(
    content: Content,
    createdAt: int,
    status: Status,
    attemptCount: nat,
    nextAttemptAt: int,
    claimOwner: Option<WorkerId>,
    leaseUntil: Option<int>)

  // A claimed row as the worker read it back: a snapshot the table may outrun.
  datatype Event = Event(id: EventId, attemptCount: nat, content: Content)

  // Where a worker stands with todo[0]: before `publish`, before the PUBLISHED
  // write, or in the catch block before its write.
  datatype Stage = Publishing | Marking | Recording

  // `since` is when the worker entered the stage; the catch block reads the clock there.
  datatype Job = Job(todo: seq<Event>, stage: Stage, since: int)

  datatype Config = Config(batchSize: int, maxAttempts: int)

  // `workers` holds the busy workers only.  `claimedAt` and `unrecorded` are history:
  // when each event was claimed, and how many of its copies reached the queue
  // without the table ever learning of it.
  datatype State = State(
    outbox: map<EventId, Row>,
    sent: seq<Envelope>,
    workers: map<WorkerId, Job>,
    now: int,
    claimedAt: map<EventId, seq<int>>,
    unrecorded: map<EventId, nat>)

  datatype Step =
    | Create(id: EventId, content: Content, stamp: int)
    | Claim(w: WorkerId, batch: seq<EventId>, locked: set<EventId>)
    | ClaimNothing(w: WorkerId, locked: set<EventId>)
    | ClaimError(w: WorkerId)
    | PublishOk(w: WorkerId, messageId: string)
    | PublishError(w: WorkerId, enqueued: Option<string>)
    | MarkOk(w: WorkerId)
    | MarkError(w: WorkerId)
    | RecordOk(w: WorkerId, jitter: Jitter)
    | RecordError(w: WorkerId)
    | Crash(w: WorkerId)
    | Tick(ms: nat)

  // ---------------------------------------------------------------- arithmetic

  const BASE_DELAY_MS := 2000
  const MAX_DELAY_MS := 60000
  const LEASE_MS := 60000

  function Min(a: int, b: int): int { if a <= b then a else b }

  function Pow2(n: nat): nat { if n == 0 then 1 else 2 * Pow2(n - 1) }

  // Back-off after the n-th failed attempt, without the jitter.
  function Delay(n: nat): nat { Min(MAX_DELAY_MS, BASE_DELAY_MS * Pow2(n)) }

  // The number of attempts an event gets: `nextAttempt >= maxAttempts` is first
  // tested with nextAttempt == 1, so a limit below one behaves like one.
  function Budget(c: Config): nat { if c.maxAttempts < 1 then 1 else c.maxAttempts }

  // ---------------------------------------------------------------- the claim query

  function Eligible(outbox: map<EventId, Row>, now: int): set<EventId> {
    set id | id in outbox && outbox[id].status == PENDING && outbox[id].nextAttemptAt <= now
  }

  predicate Distinct<T(==)>(s: seq<T>) {
    forall i, j :: 0 <= i < j < |s| ==> s[i] != s[j]
  }

  // What `ORDER BY created_at ASC LIMIT n FOR UPDATE SKIP LOCKED` may return, in any
  // order: ties are broken freely and the rows are re-read without an ORDER BY.
  predicate IsSelection(c: Config, outbox: map<EventId, Row>, now: int, locked: set<EventId>, batch: seq<EventId>) {
    var candidates := Eligible(outbox, now) - locked;
    && Distinct(batch)
    && (forall id :: id in batch ==> id in candidates)
    && |batch| == Min(c.batchSize, |candidates|)
    && (forall id, left :: id in batch && left in candidates && left !in batch
          ==> outbox[id].createdAt <= outbox[left].createdAt)
  }

  lemma {:induction false} Oldest(outbox: map<EventId, Row>, ids: set<EventId>) returns (oldest: EventId)
    requires ids != {} && ids <= outbox.Keys
    ensures oldest in ids && forall id :: id in ids ==> outbox[oldest].createdAt <= outbox[id].createdAt
  {
    var first :| first in ids;
    if ids == {first} {
      oldest := first;
    } else {
      var other := Oldest(outbox, ids - {first});
      oldest := if outbox[first].createdAt <= outbox[other].createdAt then first else other;
      forall id | id in ids ensures outbox[oldest].createdAt <= outbox[id].createdAt {
        assert id == first || id in ids - {first};
      }
    }
  }

  function ClaimRows(outbox: map<EventId, Row>, ids: set<EventId>, w: WorkerId, now: int): map<EventId, Row> {
    map id | id in outbox ::
      if id in ids
      then outbox[id].(status := CLAIMED, claimOwner := Some(w), leaseUntil := Some(now + LEASE_MS))
      else outbox[id]
  }

  function Snapshot(outbox: map<EventId, Row>, batch: seq<EventId>): seq<Event>
    requires forall id :: id in batch ==> id in outbox
  {
    seq(|batch|, i requires 0 <= i < |batch| =>
      Event(batch[i], outbox[batch[i]].attemptCount, outbox[batch[i]].content))
  }

  function IdSet(batch: seq<EventId>): set<EventId> { set id | id in batch }

  // ---------------------------------------------------------------- the steps

  // Worker w is busy at the given stage.
  predicate At(s: State, w: WorkerId, stage: Stage) {
    w in s.workers && s.workers[w].stage == stage && s.workers[w].todo != []
  }

  function Current(s: State, w: WorkerId): Event
    requires w in s.workers && s.workers[w].todo != []
  {
    s.workers[w].todo[0]
  }

  // The current row can be written by primary key.
  predicate Writable(s: State, w: WorkerId) {
    w in s.workers && s.workers[w].todo != [] && Current(s, w).id in s.outbox && Current(s, w).id in s.unrecorded
  }

  // Worker w goes on to the next event of its batch, or becomes idle.
  function Advance(s: State, w: WorkerId): map<WorkerId, Job>
    requires w in s.workers && s.workers[w].todo != []
  {
    if |s.workers[w].todo| == 1 then s.workers - {w}
    else s.workers[w := Job(s.workers[w].todo[1..], Publishing, s.now)]
  }

  function Enqueue(s: State, w: WorkerId, messageId: string): State
    requires w in s.workers && s.workers[w].todo != []
  {
    s.(sent := s.sent + [Envelope(messageId, BodyOf(Current(s, w).id, Current(s, w).content))])
  }

  function Unrecord(s: State, id: EventId): State
    requires id in s.unrecorded
  {
    s.(unrecorded := s.unrecorded[id := s.unrecorded[id] + 1])
  }

  function SetStage(s: State, w: WorkerId, stage: Stage): State
    requires w in s.workers
  {
    s.(workers := s.workers[w := s.workers[w].(stage := stage, since := s.now)])
  }

  // The row the catch block writes, computed from the worker's snapshot and the time
  // it caught the error, which may be earlier than the write.
  function Failed(c: Config, row: Row, event: Event, caughtAt: int, jitter: Jitter): Row {
    var nextAttempt := event.attemptCount + 1;
    row.(attemptCount := nextAttempt,
         status := if nextAttempt >= c.maxAttempts then FAILED else PENDING,
         nextAttemptAt := caughtAt + Delay(nextAttempt) + jitter)
  }

  predicate Enabled(c: Config, s: State, step: Step) {
    match step
    case Create(id, content, stamp) =>
      id !in s.outbox && id !in s.claimedAt && id !in s.unrecorded && stamp <= s.now
    case Claim(w, batch, locked) =>
      && w !in s.workers && batch != []
      && IsSelection(c, s.outbox, s.now, locked, batch)
      && (forall id :: id in batch ==> id in s.claimedAt)
    case ClaimNothing(w, locked) => w !in s.workers && IsSelection(c, s.outbox, s.now, locked, [])
    case ClaimError(w) => w !in s.workers
    case PublishOk(w, _) => At(s, w, Publishing)
    case PublishError(w, _) => At(s, w, Publishing) && Writable(s, w)
    case MarkOk(w) => At(s, w, Marking) && Writable(s, w)
    case MarkError(w) => At(s, w, Marking) && Writable(s, w)
    case RecordOk(w, _) => At(s, w, Recording) && Writable(s, w)
    case RecordError(w) => At(s, w, Recording)
    case Crash(w) => w in s.workers && (At(s, w, Marking) ==> Writable(s, w))
    case Tick(_) => true
  }

  function Apply(c: Config, s: State, step: Step): State
    requires Enabled(c, s, step)
  {
    match step
    case Create(id, content, stamp) =>
      s.(outbox := s.outbox[id := Row(content, s.now, PENDING, 0, stamp, None, None)],
         claimedAt := s.claimedAt[id := []],
         unrecorded := s.unrecorded[id := 0])
    case Claim(w, batch, locked) =>
      s.(outbox := ClaimRows(s.outbox, IdSet(batch), w, s.now),
         workers := s.workers[w := Job(Snapshot(s.outbox, batch), Publishing, s.now)],
         claimedAt := map id | id in s.claimedAt ::
           if id in batch then s.claimedAt[id] + [s.now] else s.claimedAt[id])
    case ClaimNothing(_, _) => s
    case ClaimError(_) => s
    case PublishOk(w, messageId) => SetStage(Enqueue(s, w, messageId), w, Marking)
    case PublishError(w, None) => SetStage(s, w, Recording)
    case PublishError(w, Some(messageId)) =>
      // The queue took the message but the call reported an error.
      SetStage(Unrecord(Enqueue(s, w, messageId), Current(s, w).id), w, Recording)
    case MarkOk(w) =>
      var id := Current(s, w).id;
      s.(outbox := s.outbox[id := s.outbox[id].(status := PUBLISHED)], workers := Advance(s, w))
    case MarkError(w) => SetStage(Unrecord(s, Current(s, w).id), w, Recording)
    case RecordOk(w, jitter) =>
      var event := Current(s, w);
      s.(outbox := s.outbox[event.id := Failed(c, s.outbox[event.id], event, s.workers[w].since, jitter)],
         workers := Advance(s, w))
    case RecordError(w) =>
      // The exception leaves relayEvent and ends the loop over the batch.
      s.(workers := s.workers - {w})
    case Crash(w) =>
      var s' := if At(s, w, Marking) then Unrecord(s, Current(s, w).id) else s;
      s'.(workers := s.workers - {w})
    case Tick(ms) => s.(now := s.now + ms)
  }

  // ---------------------------------------------------------------- runs

  const INIT := State(map[], [], map[], 0, map[], map[])

  predicate ValidRun(c: Config, s: State, steps: seq<Step>)
    decreases |steps|
  {
    steps == [] || (Enabled(c, s, steps[0]) && ValidRun(c, Apply(c, s, steps[0]), steps[1..]))
  }

  function Exec(c: Config, s: State, steps: seq<Step>): State
    requires ValidRun(c, s, steps)
    decreases |steps|
  {
    if steps == [] then s else Exec(c, Apply(c, s, steps[0]), steps[1..])
  }

  lemma {:induction false} RunAppend(c: Config, s: State, a: seq<Step>, b: seq<Step>)
    requires ValidRun(c, s, a) && ValidRun(c, Exec(c, s, a), b)
    ensures ValidRun(c, s, a + b) && Exec(c, s, a + b) == Exec(c, Exec(c, s, a), b)
    decreases |a|
  {
    hide Enabled, Apply;
    if a == [] {
      assert a + b == b;
    } else {
      RunAppend(c, Apply(c, s, a[0]), a[1..], b);
      assert (a + b)[1..] == a[1..] + b;
    }
  }
}

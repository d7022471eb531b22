// createWithOutbox: the advice row and its outbox row are written in one transaction,
// step by step, and appear together or not at all.

module AdviceRepository {
  import opened Messaging
  import opened TenantKeys
  import opened OutboxProtocol
  import opened OutboxRelay
  import Inbox = InboxProtocol
  import Pipeline

  // The advice table beside the outbox table, and the pairing the two must keep.
  class Database {
    const cluster: Cluster
    var advice: map<string, Pipeline.Advice>
    var eventOf: map<string, EventId>

    constructor (cluster: Cluster)
      ensures this.cluster == cluster && advice == map[] && eventOf == map[]
    {
      this.cluster, advice, eventOf := cluster, map[], map[];
    }

    // The platform as the pipeline sees it, for any state of the consumers.
    ghost function View(inbox: Inbox.State): Pipeline.Sys
      reads this, cluster
    {
      Pipeline.Sys(advice, eventOf, cluster.View(), inbox)
    }
  }

  datatype NewEvent = NewEvent(id: EventId, content: Content, stamp: int)

  // A connection with at most one transaction, whose writes stay private until commit.
  class QueryRunner {
    var connected: bool
    var active: bool
    var advice: map<string, Pipeline.Advice>
    var events: seq<NewEvent>

    constructor ()
      ensures !connected && !active && advice == map[] && events == []
    {
      connected, active, advice, events := false, false, map[], [];
    }
  }

  // Where the call may fail, if it does.
  datatype Failure = Nowhere | Connect | Start | SaveAdvice | SaveEvent | Commit

  class TypeOrmAdviceRepository {
    const db: Database
    const context: TenantContext

    constructor (db: Database, context: TenantContext)
      ensures this.db == db && this.context == context
    {
      this.db, this.context := db, context;
    }

    // Make the transaction's two rows visible at once.  A row whose primary key is
    // taken makes the transaction fail.
    method CommitTransaction(runner: QueryRunner, adviceId: string, tenantId: string, event: NewEvent, fails: bool)
      returns (ok: bool)
      requires runner.active && runner.advice == map[adviceId := Pipeline.Advice(tenantId)] && runner.events == [event]
      requires db.advice.Keys == db.eventOf.Keys
      modifies runner, db, db.cluster
      ensures ok ==> !runner.active
      ensures !ok ==>
        runner.active == old(runner.active) && db.advice == old(db.advice) && db.eventOf == old(db.eventOf)
      ensures !ok ==> db.cluster.View() == old(db.cluster.View())
      ensures ok <==> !fails && adviceId !in old(db.advice) && IsNew(old(db.cluster.View()), event.id)
      ensures ok ==> db.advice == old(db.advice)[adviceId := Pipeline.Advice(tenantId)]
      ensures ok ==> db.eventOf == old(db.eventOf)[adviceId := event.id]
      ensures ok ==> db.cluster.View() == WithEvent(old(db.cluster.View()), event)
      ensures ok ==>
        db.cluster.outbox == old(db.cluster.outbox)[event.id :=
          Row(event.content, old(db.cluster.now), PENDING, 0, event.stamp, None, None)]
      ensures ok ==> db.cluster.now == old(db.cluster.now)
      ensures runner.connected == old(runner.connected)
    {
      var cluster := db.cluster;
      ok := !fails && adviceId !in db.advice && IsNew(cluster.View(), event.id);
      if ok {
        db.advice := db.advice[adviceId := runner.advice[adviceId]];
        db.eventOf := db.eventOf[adviceId := event.id];
        var row := Row(runner.events[0].content, cluster.now, PENDING, 0, runner.events[0].stamp, None, None);
        cluster.outbox := cluster.outbox[event.id := row];
        cluster.claimedAt := cluster.claimedAt[event.id := []];
        cluster.unrecorded := cluster.unrecorded[event.id := 0];
        runner.active := false;
      }
    }

    // Either both rows are committed, which is one Commit step of the pipeline whatever
    // the consumers are doing, or the call fails and no table has changed.  The connection is released in any case.
    method CreateWithOutbox(adviceId: string, eventId: EventId, failure: Failure, rollbackFails: bool)
      returns (r: Result<string>, runner: QueryRunner)
      requires db.advice.Keys == db.eventOf.Keys
      modifies db, db.cluster
      ensures fresh(runner) && !runner.connected
      ensures !rollbackFails ==> !runner.active
      ensures db.advice.Keys == db.eventOf.Keys
      ensures r.Err? ==>
        db.advice == old(db.advice) && db.eventOf == old(db.eventOf) && db.cluster.View() == old(db.cluster.View())
      ensures r.Ok? <==>
        && failure == Nowhere && context.stores != [] && context.stores[|context.stores| - 1] != ""
        && adviceId !in old(db.advice) && IsNew(old(db.cluster.View()), eventId)
      ensures r.Ok? ==>
        var tenantId := context.stores[|context.stores| - 1];
        && r.value == adviceId
        && db.advice == old(db.advice)[adviceId := Pipeline.Advice(tenantId)]
        && db.eventOf == old(db.eventOf)[adviceId := eventId]
        && db.cluster.View() ==
           WithEvent(old(db.cluster.View()),
                     NewEvent(eventId, Pipeline.ContentFor(tenantId, adviceId), old(db.cluster.now)))
        && db.cluster.outbox == old(db.cluster.outbox)[eventId :=
             Row(Content(tenantId, "ADVICE_GENERATED", adviceId), old(db.cluster.now), PENDING, 0,
                 old(db.cluster.now), None, None)]
      ensures (r.Ok? && adviceId != "" && eventId != "" && Canonical(context.stores[|context.stores| - 1])) ==>
        forall inbox :: IsCommit(db.cluster.cfg, old(db.View(inbox)), db.View(inbox),
                                 Pipeline.Commit(adviceId, context.stores[|context.stores| - 1], eventId,
                                                 old(db.cluster.now)))
    {
      hide WithEvent, IsNew, IsCommit, Canonical;
      runner := new QueryRunner();
      var tenant := context.GetTenantId();
      if tenant.Err? {
        return Err(tenant.error), runner;
      }
      var tenantId := tenant.value;
      var failed := true;
      if failure != Connect {
        runner.connected := true;
        if failure != Start {
          runner.active := true;
          if failure != SaveAdvice {
            runner.advice := runner.advice[adviceId := Pipeline.Advice(tenantId)];
            var event := NewEvent(eventId, Pipeline.ContentFor(tenantId, adviceId), db.cluster.now);
            if failure != SaveEvent {
              runner.events := runner.events + [event];
              var ok := CommitTransaction(runner, adviceId, tenantId, event, failure == Commit);
              failed := !ok;
            }
          }
        }
      }
      if failed {
        if runner.active && !rollbackFails {
          runner.advice, runner.events, runner.active := map[], [], false;
        }
        r := Err("createWithOutbox failed");
      } else {
        r := Ok(adviceId);
        CallIsCommit(db.cluster.cfg, old(db.advice), old(db.eventOf), old(db.cluster.View()),
                     adviceId, eventId, tenantId);
      }
      runner.connected := false;
    }
  }

  predicate IsNew(s: State, id: EventId) {
    id !in s.outbox && id !in s.claimedAt && id !in s.unrecorded
  }

  function WithEvent(s: State, event: NewEvent): State {
    s.(outbox := s.outbox[event.id := Row(event.content, s.now, PENDING, 0, event.stamp, None, None)],
       claimedAt := s.claimedAt[event.id := []],
       unrecorded := s.unrecorded[event.id := 0])
  }

  // The platform went from s to s' by this step.
  ghost predicate IsCommit(c: Config, s: Pipeline.Sys, s': Pipeline.Sys, step: Pipeline.Step) {
    Pipeline.Enabled(c, s, step) && s' == Pipeline.Apply(c, s, step)
  }

  // What a successful call does is the pipeline's Commit step, whenever the ids are
  // not empty and the tenant is one that TenantContext.run can have installed.
  lemma CallIsCommit(c: Config, advice: map<string, Pipeline.Advice>, eventOf: map<string, EventId>, relay: State,
                     adviceId: string, eventId: EventId, tenantId: string)
    ensures
      (adviceId !in advice && adviceId != "" && eventId != "" && IsNew(relay, eventId)
       && tenantId != "" && Canonical(tenantId)) ==>
      forall inbox :: IsCommit(
        c,
        Pipeline.Sys(advice, eventOf, relay, inbox),
        Pipeline.Sys(advice[adviceId := Pipeline.Advice(tenantId)], eventOf[adviceId := eventId],
                     WithEvent(relay, NewEvent(eventId, Pipeline.ContentFor(tenantId, adviceId), relay.now)), inbox),
        Pipeline.Commit(adviceId, tenantId, eventId, relay.now))
  {
  }
}

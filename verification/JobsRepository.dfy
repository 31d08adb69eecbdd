/** Administration of permanently failed jobs. */
module JobsRepository {
  import opened Common
  import opened LeaseQueue
  import opened LeaseMachine
  import opened LeaseRefinement
  import opened LeaseWorkers

  /** `locked_until = 'infinity'` */
  predicate Marked(r: Row) {
    r.Job? && r.job.lockedUntil.Infinity?
  }

  ghost function FailedIds(s: State): set<Id> {
    set id | id in s.rows && View(s, id).Failed?
  }

  /** What the `WHERE locked_until = 'infinity'` clause selects are exactly the abstractly failed items. */
  lemma MarkedIffFailed(s: State, id: Id)
    requires Inv(s) && s.kind.Jobs?
    ensures View(s, id).Failed? <==> id in s.rows && Marked(s.rows[id])
  {
    assert RowOk(s, id);
    assert TrailOk(s, id);
  }

  lemma RequeueEffect(s: State, id: Id, at: Time)
    requires Inv(s) && s.kind.Jobs?
    ensures var s' := Step(s, Event.Requeue(id, at));
            if View(s, id).Failed? then View(s', id) == Pending(at, 0, View(s, id).limit)
              && FailuresSince(Trail(s', id)) == 0
            else s' == s
  {
    MarkedIffFailed(s, id);
    assert RowOk(s, id);
  }

  lemma ElsewhereUnchanged(s: State, e: Event, other: Id)
    requires Inv(s) && s.kind.Jobs? && ((e.Requeue? || e.Discard?) && e.id != other)
    ensures View(Step(s, e), other) == View(s, other)
    ensures Trail(Step(s, e), other) == Trail(s, other)
  {
  }

  class Repository {
    const db: Database

    constructor (db: Database)
      ensures this.db == db
    {
      this.db := db;
    }

    /** RequeueFailed: a zero runAt means now; ErrFailedJobNotFound when no failed job matched. */
    method RequeueFailed(id: Id, runAt: Option<Time>, wallClock: Time) returns (found: bool)
      requires Inv(db.state) && db.state.kind.Jobs?
      modifies db
      ensures Inv(db.state) && db.state.kind.Jobs?
      ensures found <==> View(old(db.state), id).Failed?
      ensures found ==>
                && View(db.state, id)
                  == Pending(if runAt.Some? then runAt.value else wallClock, 0, View(old(db.state), id).limit)
                && FailuresSince(Trail(db.state, id)) == 0
      ensures !found ==> db.state == old(db.state)
      ensures forall other :: other != id ==>
                View(db.state, other) == View(old(db.state), other)
                  && Trail(db.state, other) == Trail(old(db.state), other)
    {
      var at := if runAt.Some? then runAt.value else wallClock;
      MarkedIffFailed(db.state, id);
      RequeueEffect(db.state, id, at);
      StepKeepsInv(db.state, Event.Requeue(id, at), true);
      forall other | other != id { ElsewhereUnchanged(db.state, Event.Requeue(id, at), other); }
      found := id in db.state.rows && Marked(db.state.rows[id]);
      db.Execute(Event.Requeue(id, at), true);
    }

    /** DiscardFailed deletes a failed job for good. */
    method DiscardFailed(id: Id) returns (found: bool)
      requires Inv(db.state) && db.state.kind.Jobs?
      modifies db
      ensures Inv(db.state) && db.state.kind.Jobs?
      ensures found <==> View(old(db.state), id).Failed?
      ensures found ==> View(db.state, id).Discarded? && FailedIds(db.state) == FailedIds(old(db.state)) - {id}
      ensures !found ==> db.state == old(db.state)
      ensures forall other :: other != id ==> View(db.state, other) == View(old(db.state), other)
    {
      MarkedIffFailed(db.state, id);
      StepKeepsInv(db.state, Event.Discard(id), true);
      forall other | other != id { ElsewhereUnchanged(db.state, Event.Discard(id), other); }
      found := id in db.state.rows && Marked(db.state.rows[id]);
      db.Execute(Event.Discard(id), true);
    }

    /** CountFailed counts the marked rows. */
    method CountFailed() returns (count: nat)
      requires Inv(db.state) && db.state.kind.Jobs?
      ensures count == |FailedIds(db.state)|
    {
      var keys := db.state.rows.Keys;
      count := 0;
      ghost var seen: set<Id> := {};
      while keys != {}
        invariant keys <= db.state.rows.Keys && count == |seen|
        invariant seen == set id | id in db.state.rows && id !in keys && View(db.state, id).Failed?
        decreases |keys|
      {
        var id :| id in keys;
        MarkedIffFailed(db.state, id);
        if Marked(db.state.rows[id]) {
          count := count + 1;
          seen := seen + {id};
        }
        keys := keys - {id};
      }
      assert seen == FailedIds(db.state);
    }
  }
}

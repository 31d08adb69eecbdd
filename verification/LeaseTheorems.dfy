/** What every run of any number of workers guarantees, for the jobs table and for the outbox table. */
module LeaseTheorems {
  import opened Common
  import opened LeaseQueue
  import opened LeaseMachine
  import opened LeaseRefinement
  import J = JobsSql
  import O = OutboxSql

  /** s is the state after the run es of workers whose `stop` joins its renewals, or need not. */
  ghost predicate Reached(kind: Kind, t0: Time, es: seq<Event>, joined: bool, s: State) {
    && ValidRun(Init(kind, t0), es, joined)
    && s == RunAll(Init(kind, t0), es)
  }

  lemma ReachedInv(kind: Kind, t0: Time, es: seq<Event>, joined: bool, s: State)
    requires Reached(kind, t0, es, joined, s)
    ensures Inv(s) && s.kind == kind
  {
    RunRefines(Init(kind, t0), es, "", joined);
    RunKeepsKind(Init(kind, t0), es);
  }

  // ---------------------------------------------------------------- exclusion

  /** Over a whole run, the valid leases of distinct tokens on one row never overlap. */
  lemma TableLeaseExclusion(kind: Kind, t0: Time, es: seq<Event>, joined: bool, s: State, id: Id, a: Token, b: Token,
                            t: Time)
    requires Reached(kind, t0, es, joined, s)
    requires HoldsAt(Trail(s, id), a, t) && HoldsAt(Trail(s, id), b, t)
    ensures a == b
  {
    ReachedInv(kind, t0, es, joined, s);
    assert TrailOk(s, id);
    LeaseExclusion(Trail(s, id), a, b, t);
  }

  /** The token is spent and no longer stands on its row. */
  ghost predicate Detached(s: State, token: Token) {
    && token.prefix in s.used
    && (token.row in s.rows ==> RowToken(s.rows[token.row]) != Some(token))
  }

  lemma DetachedClaim(s: State, e: Event, token: Token)
    requires Detached(s, token) && e.ClaimBatch? && e.prefix !in s.used && e.chosen <= s.rows.Keys
    ensures Detached(Step(s, e), token)
  {
  }

  lemma DetachedStep(s: State, e: Event, token: Token, joined: bool)
    requires Detached(s, token) && Enabled(s, e, joined)
    ensures Detached(Step(s, e), token)
  {
    if e.ClaimBatch? {
      DetachedClaim(s, e, token);
    } else {
      assert Step(s, e).used == s.used;
    }
  }

  /**
   A token that was replaced or cleared never returns to its row, and nothing it still does changes
   any row, however long the run; this needs no join.
   */
  lemma {:induction false} ReplacedTokenIsInert(s: State, es: seq<Event>, token: Token, joined: bool, ok: bool,
                                                delay: Time)
    requires Detached(s, token) && ValidRun(s, es, joined)
    ensures Detached(RunAll(s, es), token)
    ensures Step(RunAll(s, es), RunRenewal(token)).rows == RunAll(s, es).rows
    ensures Step(RunAll(s, es), Report(token, ok, delay)).rows == RunAll(s, es).rows
    decreases es
  {
    if es != [] {
      DetachedStep(s, es[0], token, joined);
      ReplacedTokenIsInert(Step(s, es[0]), es[1..], token, joined, ok, delay);
    }
  }

  // ---------------------------------------------------------------- enqueueing

  /**
   A row begins with no failures, ready when asked, and with the limit asked for; a job without a positive
   limit gets 5 attempts, a message without one is refused, and an id in use is left alone.
   */
  lemma EnqueuedAsRequested(s: State, id: Id, occurredAt: Time, ready: Time, requested: int)
    ensures var s' := Step(s, Insert(id, occurredAt, ready, requested));
            if id in s.rows || (s.kind.Outbox? && requested <= 0) then s' == s
            else
              var limit := if requested > 0 then requested else 5;
              && View(s', id) == Pending(ready, 0, limit)
              && Trail(s', id) == Trail(s, id) + [Entry(s.now, Enqueue(ready, limit))]
              && LimitOf(Trail(s', id)) == limit
              && id in s'.rows
              && forall t :: Eligible(s'.rows[id], t) <==> ready <= t
  {
  }

  // ---------------------------------------------------------------- attempts

  /**
   No lost updates: the outcome statement writes a number read at claim time, yet when it takes
   effect it adds exactly one to what is stored, and what is stored is the number of failures
   recorded since the enqueue or the last requeue.
   */
  lemma FailureAddsOne(kind: Kind, t0: Time, es: seq<Event>, joined: bool, s: State, token: Token, delay: Time)
    requires Reached(kind, t0, es, joined, s)
    requires Enabled(s, Report(token, false, delay), joined)
    requires token.row in s.rows && RowToken(s.rows[token.row]) == Some(token)
    ensures var id, s' := token.row, Step(s, Report(token, false, delay));
            && id in s'.rows
            && RowAttempt(s'.rows[id]) == RowAttempt(s.rows[id]) + 1
            && RowAttempt(s.rows[id]) == FailuresSince(Trail(s, id))
            && RowAttempt(s'.rows[id]) == FailuresSince(Trail(s', id))
            && (View(s', id).Failed? <==> FailuresSince(Trail(s', id)) >= RowLimit(s'.rows[id]))
            && (FailuresSince(Trail(s', id)) > RowLimit(s'.rows[id]) <==> RevivedSince(Trail(s, id)))
  {
    var id, e := token.row, Report(token, false, delay);
    ReachedInv(kind, t0, es, joined, s);
    assert RowOk(s, id) && TrailOk(s, id);
    StepKeepsInv(s, e, joined);
    assert RowOk(Step(s, e), id) && TrailOk(Step(s, e), id);
    AttemptsCountFailures(Trail(s, id));
    AttemptsCountFailures(Trail(Step(s, e), id));
  }

  /**
   In every reachable state a permanently failed row has used its attempts up, and any other row has
   attempts left exactly unless a late renewal revived it.
   */
  lemma AttemptsLeft(kind: Kind, t0: Time, es: seq<Event>, joined: bool, s: State, id: Id)
    requires Reached(kind, t0, es, joined, s) && id in s.rows && Live(View(s, id))
    ensures RowAttempt(s.rows[id]) == FailuresSince(Trail(s, id))
    ensures RowLimit(s.rows[id]) == LimitOf(Trail(s, id))
    ensures View(s, id).Failed? ==> RowAttempt(s.rows[id]) >= RowLimit(s.rows[id])
    ensures !View(s, id).Failed? ==> (RowAttempt(s.rows[id]) < RowLimit(s.rows[id]) <==> !RevivedSince(Trail(s, id)))
  {
    ReachedInv(kind, t0, es, joined, s);
    assert RowOk(s, id) && TrailOk(s, id);
    AttemptsCountFailures(Trail(s, id));
  }

  ghost predicate Unrevived(h: seq<Entry>) {
    forall i :: 0 <= i < |h| ==> !h[i].action.Revive?
  }

  lemma {:induction false} UnrevivedSince(h: seq<Entry>)
    requires Unrevived(h)
    ensures !RevivedSince(h)
    decreases |h|
  {
    if h != [] { UnrevivedSince(h[..|h|-1]); }
  }

  lemma JoinPreventsRevivalNow(s: State, e: Event, id: Id, joined: bool)
    requires Inv(s) && Enabled(s, e, joined) && (s.kind.Jobs? ==> Quiet(s)) && Unrevived(Trail(s, id))
    ensures Unrevived(Trail(Step(s, e), id))
  {
    StepRefines(s, e, id, joined);
    assert Trail(s, id) + [] == Trail(s, id);
    match AttemptOn(s, e, id)
    case None =>
    case Some(a) => if a.action.Revive? && Apply(View(s, id), a).Some? { NoRevivalWithJoin(s, e, id, a); }
  }

  lemma NoRevivalWithJoin(s: State, e: Event, id: Id, a: Entry)
    requires RowOk(s, id) && (s.kind.Jobs? ==> Quiet(s)) && AttemptOn(s, e, id) == Some(a) && a.action.Revive?
    requires e.RunRenewal? && e.token in s.holdings ==> s.holdings[e.token].inFlight > 0
    ensures Apply(View(s, id), a).None?
  {
  }

  lemma {:induction false} JoinPreventsRevival(s: State, es: seq<Event>, id: Id, joined: bool)
    requires Inv(s) && ValidRun(s, es, joined) && (s.kind.Jobs? ==> joined && Quiet(s)) && Unrevived(Trail(s, id))
    ensures Unrevived(Trail(RunAll(s, es), id))
    decreases es
  {
    if es != [] {
      JoinPreventsRevivalNow(s, es[0], id, joined);
      StepKeepsInv(s, es[0], joined);
      if s.kind.Jobs? { StepKeepsQuiet(s, es[0]); }
      JoinPreventsRevival(Step(s, es[0]), es[1..], id, joined);
    }
  }

  /** With the join, and in the outbox without it, a row is failed exactly when its attempts reached its limit. */
  lemma AttemptsLeftWithJoin(kind: Kind, t0: Time, es: seq<Event>, joined: bool, s: State, id: Id)
    requires Reached(kind, t0, es, joined, s) && (kind.Jobs? ==> joined) && id in s.rows && Live(View(s, id))
    ensures RowAttempt(s.rows[id]) <= RowLimit(s.rows[id])
    ensures View(s, id).Failed? <==> RowAttempt(s.rows[id]) == RowLimit(s.rows[id])
  {
    ReachedInv(kind, t0, es, joined, s);
    JoinPreventsRevival(Init(kind, t0), es, id, joined);
    UnrevivedSince(Trail(s, id));
    assert RowOk(s, id) && TrailOk(s, id);
    AttemptsCountFailures(Trail(s, id));
  }

  // ---------------------------------------------------------------- terminal states

  lemma ClosedStep(s: State, e: Event, id: Id, joined: bool)
    requires Inv(s) && s.kind.Outbox? && Enabled(s, e, joined)
    requires id in s.rows && s.rows[id].Message? && O.Closed(s.rows[id].msg)
    ensures var s' := Step(s, e);
            && id in s'.rows && s'.rows[id].Message?
            && s'.rows[id].msg.processedAt == s.rows[id].msg.processedAt
            && s'.rows[id].msg.failedAt == s.rows[id].msg.failedAt
  {
    assert RowOk(s, id);
  }

  /**
   In the outbox, processed_at and failed_at are never both set; once either is set both keep their
   value and the row is never eligible again. No join is assumed: `joined` may be false, so renewals
   may arrive at any time after the outcome.
   */
  lemma {:induction false} OutboxClosedForever(s: State, es: seq<Event>, id: Id, joined: bool, t: Time)
    requires Inv(s) && s.kind.Outbox? && ValidRun(s, es, joined)
    requires id in s.rows && s.rows[id].Message? && O.Closed(s.rows[id].msg)
    ensures var s' := RunAll(s, es);
            && id in s'.rows && s'.rows[id].Message?
            && s'.rows[id].msg.processedAt == s.rows[id].msg.processedAt
            && s'.rows[id].msg.failedAt == s.rows[id].msg.failedAt
            && (s'.rows[id].msg.processedAt.None? || s'.rows[id].msg.failedAt.None?)
            && !Eligible(s'.rows[id], t)
    decreases es
  {
    assert RowOk(s, id);
    if es != [] {
      ClosedStep(s, es[0], id, joined);
      StepKeepsInv(s, es[0], joined);
      OutboxClosedForever(Step(s, es[0]), es[1..], id, joined, t);
    }
  }

  ghost predicate FailedJob(s: State, id: Id) {
    && id in s.rows
    && s.rows[id].Job?
    && s.rows[id].job.lockedUntil.Infinity?
  }

  /** Exactly which steps take the 'infinity' mark off a job; the last one is the late renewal. */
  lemma MarkRemovedExactlyBy(s: State, e: Event, id: Id, joined: bool)
    requires Inv(s) && Enabled(s, e, joined) && FailedJob(s, id)
    ensures !FailedJob(Step(s, e), id) <==>
              || (e.Requeue? && e.id == id)
              || (e.Discard? && e.id == id)
              || (e.RunRenewal? && e.token.row == id && LateRenewal(s, e))
  {
    assert RowOk(s, id);
  }

  /** With the join, a permanent failure lasts until an administrator requeues or discards the job. */
  lemma {:induction false} JobFailureLasts(s: State, es: seq<Event>, id: Id)
    requires Inv(s) && Quiet(s) && s.kind.Jobs? && ValidRun(s, es, true) && FailedJob(s, id)
    requires forall i :: 0 <= i < |es| ==> es[i] != Event.Discard(id) && !(es[i].Requeue? && es[i].id == id)
    ensures FailedJob(RunAll(s, es), id)
    decreases es
  {
    if es != [] {
      if es[0].RunRenewal? { NoLateRenewal(s, es[0]); }
      StepKeepsQuiet(s, es[0]);
      MarkRemovedExactlyBy(s, es[0], id, true);
      StepKeepsInv(s, es[0], true);
      JobFailureLasts(Step(s, es[0]), es[1..], id);
    }
  }

  /**
   The late renewal turns the failed job back into a leased one that has no attempts left; unless it
   is renewed again, it can be claimed and delivered past its limit when that lease ends.
   */
  lemma LateRenewalRevives(s: State, e: Event, joined: bool)
    requires Inv(s) && Enabled(s, e, joined) && LateRenewal(s, e)
    ensures var id, s' := e.token.row, Step(s, e);
            && View(s, id).Failed? && View(s', id).Leased?
            && View(s', id).attempt >= View(s', id).limit
            && Eligible(s'.rows[id], View(s', id).until)
  {
    assert RowOk(s, e.token.row);
    assert HoldingsOk(s);
  }

  const TOKEN := Token(1, "j")

  /** A renewal sent while the handler ran reaches the table after the outcome. */
  const REVIVAL: seq<Event> := [
    Insert("j", 0, 0, 1), ClaimBatch(1, {"j"}, {}, 1, 10), SendRenewal(TOKEN), Stop(TOKEN), Report(TOKEN, false, 0)
  ]

  function RevivalState(k: nat): State
    requires k <= 5
  {
    var row := match k
      case 0 => J.Row(0, J.Null, None, 0, 1)
      case 1 => J.Row(0, J.Null, None, 0, 1)
      case 5 => J.Row(0, J.Infinity, Some(TOKEN), 1, 1)
      case _ => J.Row(0, J.At(10), Some(TOKEN), 0, 1);
    var phase := if k <= 3 then Running else if k == 4 then Stopped else Reported;
    var trail := [Entry(0, Enqueue(0, 1)), Entry(0, LeaseQueue.Claim(TOKEN, 10)), Entry(0, Exhaust(TOKEN))];
    State(Jobs, 0,
          if k == 0 then map[] else map["j" := Job(row)],
          if k <= 1 then map[] else map[TOKEN := Holding(0, 1, 10, phase, if k <= 2 then 0 else 1)],
          if k <= 1 then {} else {1},
          if k == 0 then map[] else map["j" := trail[..if k == 1 then 1 else if k == 5 then 3 else 2]])
  }

  /** Claiming the only row of a table that has no claims yet. */
  lemma ClaimOnlyRow(s: State, id: Id, row: Row, h: seq<Entry>, prefix: nat, lease: Time)
    requires s.rows == map[id := row] && s.holdings == map[] && s.history == map[id := h]
    ensures var s', token := Claimed(s, prefix, {id}, lease), Token(prefix, id);
            && s'.rows == map[id := ClaimRow(row, s.now, lease, token)]
            && s'.holdings == map[token := Holding(RowAttempt(row), RowLimit(row), lease, Running, 0)]
            && s'.history == map[id := h + [Entry(s.now, LeaseQueue.Claim(token, s.now + lease))]]
            && s'.used == s.used + {prefix}
  {
  }

  lemma RevivalClaim()
    ensures Enabled(RevivalState(1), REVIVAL[1], false)
    ensures Step(RevivalState(1), REVIVAL[1]) == RevivalState(2)
  {
    var s := RevivalState(1);
    ClaimOnlyRow(s, "j", s.rows["j"], s.history["j"], 1, 10);
    assert ValidSelection(s, {"j"}, {}, 1);
    assert Claimed(s, 1, {"j"}, 10).history["j"] == RevivalState(2).history["j"];
  }

  lemma RevivalStep(k: nat)
    requires k < 5
    ensures Enabled(RevivalState(k), REVIVAL[k], false)
    ensures Step(RevivalState(k), REVIVAL[k]) == RevivalState(k + 1)
  {
    if k == 1 {
      RevivalClaim();
    } else {
      var s, s' := RevivalState(k), Step(RevivalState(k), REVIVAL[k]);
      assert s'.history["j"] == RevivalState(k + 1).history["j"];
      assert s'.history == RevivalState(k + 1).history;
    }
  }

  lemma {:induction false} RevivalRun(k: nat)
    requires k <= 5
    ensures ValidRun(RevivalState(k), REVIVAL[k..], false)
    ensures RunAll(RevivalState(k), REVIVAL[k..]) == RevivalState(5)
    decreases 5 - k
  {
    if k < 5 {
      RevivalStep(k);
      RevivalRun(k + 1);
      assert REVIVAL[k..][0] == REVIVAL[k] && REVIVAL[k..][1..] == REVIVAL[k + 1..];
    }
  }

  /** Without the join, a run reaches a permanently failed job that a late renewal can still revive. */
  lemma LateRenewalReachable() returns (s: State)
    ensures ValidRun(Init(Jobs, 0), REVIVAL, false) && s == RunAll(Init(Jobs, 0), REVIVAL)
    ensures FailedJob(s, "j") && LateRenewal(s, RunRenewal(TOKEN)) && Enabled(s, RunRenewal(TOKEN), false)
    ensures !FailedJob(Step(s, RunRenewal(TOKEN)), "j")
  {
    RevivalRun(0);
    assert REVIVAL[0..] == REVIVAL;
    assert RevivalState(0) == Init(Jobs, 0);
    s := RevivalState(5);
  }

  // ---------------------------------------------------------------- conservation and delivery

  /**
   Every item ever enqueued is pending, leased or failed, or has been completed or discarded exactly
   once per enqueue; live items are exactly the open rows of the table.
   */
  lemma TableConservation(kind: Kind, t0: Time, es: seq<Event>, joined: bool, s: State, id: Id)
    requires Reached(kind, t0, es, joined, s)
    ensures var h := Trail(s, id);
            Enqueues(h) == Completions(h) + Discards(h) + if Live(View(s, id)) then 1 else 0
    ensures Live(View(s, id)) <==> id in s.rows && (s.rows[id].Message? ==> s.rows[id].msg.processedAt.None?)
    ensures Enqueues(Trail(s, id)) > 0 <==> View(s, id) != Absent
  {
    ReachedInv(kind, t0, es, joined, s);
    assert RowOk(s, id) && TrailOk(s, id);
    Conservation(Trail(s, id));
    EnqueuedFirst(Trail(s, id));
  }

  lemma {:induction false} EnqueuedFirst(h: seq<Entry>)
    requires Legal(h)
    ensures Enqueues(h) > 0 <==> Current(h) != Absent
    decreases |h|
  {
    if h != [] {
      var n := |h| - 1;
      StepOf(h, n);
      assert h[..n + 1] == h;
      EnqueuedFirst(h[..n]);
    }
  }

  /** An item completes only when the current holder reports a successful delivery. */
  lemma CompletionNeedsDelivery(s: State, e: Event, id: Id, joined: bool)
    requires Inv(s) && Enabled(s, e, joined)
    requires Completions(Trail(Step(s, e), id)) > Completions(Trail(s, id))
    ensures e.Report? && e.ok && LeasedTo(View(s, id), e.token)
  {
    StepRefines(s, e, id, joined);
    var a := AttemptOn(s, e, id).value;
  }

  /** The finite time from which an undelivered item can be claimed. */
  function ReadyAt(item: Item): Time
    requires item.Pending? || item.Leased?
  {
    match item case Pending(ready, _, _) => ready case Leased(_, until, _, _) => until
  }

  /** What makes a row eligible is the passage of its ready time and nothing else. */
  lemma EligibleExactlyFromReadyTime(kind: Kind, t0: Time, es: seq<Event>, joined: bool, s: State, id: Id, t: Time)
    requires Reached(kind, t0, es, joined, s) && id in s.rows && t >= s.now
    requires View(s, id).Pending? || View(s, id).Leased?
    ensures Eligible(s.rows[id], t) <==> ReadyAt(View(s, id)) <= t
  {
    ReachedInv(kind, t0, es, joined, s);
    assert RowOk(s, id);
  }

  /**
   At-least-once: whatever crashed and whoever holds leases, from every reachable state an undelivered
   item is delivered by one more worker alone: wait, claim, run the handler, report.
   */
  lemma AlwaysRecoverable(kind: Kind, t0: Time, es: seq<Event>, joined: bool, s: State, id: Id, prefix: nat,
                          lease: Time)
    requires Reached(kind, t0, es, joined, s) && id in s.rows && (View(s, id).Pending? || View(s, id).Leased?)
    requires prefix !in s.used && lease >= 1
    ensures var wait := if ReadyAt(View(s, id)) > s.now then ReadyAt(View(s, id)) - s.now else 0;
            var token := Token(prefix, id);
            var s1 := Step(s, Tick(wait));
            var claim := ClaimBatch(prefix, {id}, s.rows.Keys - {id}, 1, lease);
            var s2 := Step(s1, claim);
            var s3 := Step(s2, Stop(token));
            var s4 := Step(s3, Report(token, true, 0));
            && Enabled(s, Tick(wait), joined)
            && Enabled(s1, claim, joined)
            && LeasedTo(View(s2, id), token)
            && Enabled(s2, Stop(token), joined)
            && Enabled(s3, Report(token, true, 0), joined)
            && View(s4, id).Done?
            && Completions(Trail(s4, id)) == Completions(Trail(s, id)) + 1
  {
    ReachedInv(kind, t0, es, joined, s);
    var wait := if ReadyAt(View(s, id)) > s.now then ReadyAt(View(s, id)) - s.now else 0;
    EligibleExactlyFromReadyTime(kind, t0, es, joined, s, id, s.now + wait);
    RecoverFrom(Step(s, Tick(wait)), s, id, prefix, lease, joined);
  }

  lemma RecoverFrom(s1: State, s: State, id: Id, prefix: nat, lease: Time, joined: bool)
    requires Inv(s) && s.now <= s1.now && s1 == Step(s, Tick(s1.now - s.now))
    requires id in s.rows && Eligible(s.rows[id], s1.now) && prefix !in s.used && lease >= 1
    ensures var token := Token(prefix, id);
            var claim := ClaimBatch(prefix, {id}, s.rows.Keys - {id}, 1, lease);
            var s2 := Step(s1, claim);
            var s3 := Step(s2, Stop(token));
            var s4 := Step(s3, Report(token, true, 0));
            && Enabled(s1, claim, joined)
            && LeasedTo(View(s2, id), token)
            && Enabled(s2, Stop(token), joined)
            && Enabled(s3, Report(token, true, 0), joined)
            && View(s4, id).Done?
            && Completions(Trail(s4, id)) == Completions(Trail(s, id)) + 1
  {
    var token := Token(prefix, id);
    var claim := ClaimBatch(prefix, {id}, s.rows.Keys - {id}, 1, lease);
    TickRefines(s, Tick(s1.now - s.now), id);
    var s2 := Step(s1, claim);
    ClaimedHere(s1, prefix, {id}, lease, id);
    ClaimChosen(s1, claim, id);
    DeliverFrom(s2, id, token, joined);
  }

  lemma DeliverFrom(s2: State, id: Id, token: Token, joined: bool)
    requires RowOk(s2, id) && token.row == id && LeasedTo(View(s2, id), token)
    requires token in s2.holdings && s2.holdings[token].phase.Running? && s2.holdings[token].inFlight == 0
    ensures var s3 := Step(s2, Stop(token));
            var s4 := Step(s3, Report(token, true, 0));
            && Enabled(s2, Stop(token), joined)
            && Enabled(s3, Report(token, true, 0), joined)
            && View(s4, id).Done?
            && Completions(Trail(s4, id)) == Completions(Trail(s2, id)) + 1
  {
    var s3 := Step(s2, Stop(token));
    assert View(s3, id) == View(s2, id) && Trail(s3, id) == Trail(s2, id) && RowOk(s3, id);
    ReportRefines(s3, Report(token, true, 0), id);
  }

  // ---------------------------------------------------------------- timed retention

  const DEFAULT_LEASE: Time := 300_000_000_000

  function LeaseDuration(configured: Time): Time {
    if configured > 0 then configured else DEFAULT_LEASE
  }

  /** leaseRenewalInterval: the configured interval if it fits in the lease, otherwise half the lease. */
  function RenewalInterval(configuredLease: Time, configured: Time): Time {
    var lease := LeaseDuration(configuredLease);
    if 0 < configured < lease then configured
    else if lease / 2 <= 0 then 1 else lease / 2
  }

  /** Renewals come before the lease ends for every lease but the shortest one, one nanosecond. */
  lemma IntervalFitsLease(configuredLease: Time, configured: Time)
    ensures 0 < RenewalInterval(configuredLease, configured) <= LeaseDuration(configuredLease)
    ensures RenewalInterval(configuredLease, configured) < LeaseDuration(configuredLease) <==> configuredLease != 1
    ensures configuredLease > 0 ==> LeaseDuration(configuredLease) == configuredLease
    ensures 0 < configured < LeaseDuration(configuredLease) ==>
              RenewalInterval(configuredLease, configured) == configured
    ensures !(0 < configured < LeaseDuration(configuredLease)) && configuredLease != 1 ==>
              var twice := 2 * RenewalInterval(configuredLease, configured);
              LeaseDuration(configuredLease) - 1 <= twice <= LeaseDuration(configuredLease)
  {
  }

  ghost predicate FromOn(attempts: seq<Entry>, t: Time) {
    && (forall i :: 0 <= i < |attempts| ==> t <= attempts[i].at)
    && (forall i, j :: 0 <= i <= j < |attempts| ==> attempts[i].at <= attempts[j].at)
  }

  lemma {:induction false} AttemptTimes(s: State, es: seq<Event>, id: Id, joined: bool)
    requires ValidRun(s, es, joined)
    ensures FromOn(Attempts(s, es, id), s.now)
    decreases es
  {
    if es != [] {
      AttemptTimes(Step(s, es[0]), es[1..], id, joined);
      AttemptNow(s, es[0], id);
    }
  }

  lemma AttemptNow(s: State, e: Event, id: Id)
    ensures AttemptOn(s, e, id).Some? ==> AttemptOn(s, e, id).value.at == s.now
  {
  }

  /**
   A worker whose handler runs for any length of time keeps its row, against any interleaving of any
   number of other workers, as long as each of its renewals is attempted less than a lease after the
   one before it, and the first one before the lease taken at the claim ends.
   */
  lemma HandlerKeepsRow(s: State, es: seq<Event>, joined: bool, token: Token)
    requires Inv(s) && ValidRun(s, es, joined)
    requires LeasedTo(View(s, token.row), token) && token in s.holdings
    requires Covered(Attempts(s, es, token.row), token, s.holdings[token].lease, View(s, token.row).until)
    ensures LeasedTo(View(RunAll(s, es), token.row), token)
    ensures forall i :: |Trail(s, token.row)| <= i < |Trail(RunAll(s, es), token.row)| ==>
              var a := Trail(RunAll(s, es), token.row)[i].action; a.Renew? && a.token == token
  {
    var id := token.row;
    assert RowOk(s, id);
    RunRefines(s, es, id, joined);
    AttemptTimes(s, es, id, joined);
    CoveredHandlerKeepsLease(View(s, id), Attempts(s, es, id), token, s.holdings[token].lease);
  }

  /** With the configured interval, a ticker whose updates are late by no more than lease - interval does so. */
  lemma PunctualHandlerKeepsRow(s: State, es: seq<Event>, joined: bool, token: Token, start: Time,
                                configuredLease: Time, configuredInterval: Time, slack: Time)
    requires Inv(s) && ValidRun(s, es, joined)
    requires LeasedTo(View(s, token.row), token)
    requires token in s.holdings && s.holdings[token].lease == LeaseDuration(configuredLease)
    requires slack <= LeaseDuration(configuredLease) - RenewalInterval(configuredLease, configuredInterval)
    requires Punctual(Attempts(s, es, token.row), token, start, RenewalInterval(configuredLease, configuredInterval),
                      LeaseDuration(configuredLease), View(s, token.row).until, slack, 0)
    ensures LeasedTo(View(RunAll(s, es), token.row), token)
    ensures forall i :: |Trail(s, token.row)| <= i < |Trail(RunAll(s, es), token.row)| ==>
              var a := Trail(RunAll(s, es), token.row)[i].action; a.Renew? && a.token == token
  {
    var until := View(s, token.row).until;
    PunctualIsCovered(Attempts(s, es, token.row), token, start, RenewalInterval(configuredLease, configuredInterval),
                      LeaseDuration(configuredLease), until, slack, 0, until);
    HandlerKeepsRow(s, es, joined, token);
  }

  // ---------------------------------------------------------------- before the next renewal

  ghost predicate NoOutcome(es: seq<Event>, token: Token) {
    forall i :: 0 <= i < |es| ==> !(es[i].Report? && es[i].token == token)
  }

  lemma {:induction false} AttemptsWithin(s: State, es: seq<Event>, joined: bool, token: Token)
    requires ValidRun(s, es, joined) && NoOutcome(es, token)
    ensures s.now <= RunAll(s, es).now
    ensures forall i :: 0 <= i < |Attempts(s, es, token.row)| ==>
              var a := Attempts(s, es, token.row)[i]; a.at <= RunAll(s, es).now && !GivesUp(a.action, token)
    decreases es
  {
    if es != [] {
      AttemptsWithin(Step(s, es[0]), es[1..], joined, token);
      AttemptNow(s, es[0], token.row);
    }
  }

  /** Until the clock reaches the end of a lease, nothing but its holder's outcome takes the row away. */
  lemma LeaseHeldUntilEnd(s: State, es: seq<Event>, joined: bool, token: Token)
    requires Inv(s) && ValidRun(s, es, joined) && NoOutcome(es, token)
    requires LeasedTo(View(s, token.row), token) && RunAll(s, es).now < View(s, token.row).until
    ensures LeasedTo(View(RunAll(s, es), token.row), token)
  {
    RunRefines(s, es, token.row, joined);
    AttemptsWithin(s, es, joined, token);
    HeldUntilEnd(View(s, token.row), Attempts(s, es, token.row), token, View(s, token.row).until);
  }

  /** A run that ends by time `end` and leaves the row with someone else, without any outcome of `token`. */
  ghost predicate Loses(s: State, es: seq<Event>, joined: bool, token: Token, end: Time) {
    && ValidRun(s, es, joined) && NoOutcome(es, token)
    && RunAll(s, es).now <= end
    && !LeasedTo(View(RunAll(s, es), token.row), token)
  }

  ghost predicate CanLose(s: State, joined: bool, token: Token, end: Time) {
    exists es :: Loses(s, es, joined, token, end)
  }

  /**
   With `remaining` of a lease left, at the start of its handler or after any renewal, some run of other
   workers takes the row within `gap` exactly when the gap is at least `remaining`.
   */
  lemma RenewalInTimeIff(s: State, joined: bool, token: Token, remaining: Time, gap: Time, prefix: nat, lease: Time)
    requires Inv(s) && token in s.holdings && LeasedTo(View(s, token.row), token)
    requires View(s, token.row).until == s.now + remaining && remaining > 0 && gap >= 0
    requires prefix !in s.used && lease >= 1
    ensures CanLose(s, joined, token, s.now + gap) <==> gap >= remaining
  {
    var end := s.now + gap;
    if gap >= remaining {
      TakenAtEnd(s, joined, token, remaining, prefix, lease);
      var es :| Loses(s, es, joined, token, s.now + remaining);
      assert Loses(s, es, joined, token, end);
    } else if CanLose(s, joined, token, end) {
      var es :| Loses(s, es, joined, token, end);
      LeaseHeldUntilEnd(s, es, joined, token);
    }
  }

  lemma TwoSteps(s: State, a: Event, b: Event, joined: bool)
    requires Enabled(s, a, joined) && Enabled(Step(s, a), b, joined)
    ensures ValidRun(s, [a, b], joined)
    ensures RunAll(s, [a, b]) == Step(Step(s, a), b)
  {
    assert [a, b][1..] == [b] && [b][1..] == [];
    assert RunAll(Step(Step(s, a), b), []) == Step(Step(s, a), b);
    assert RunAll(Step(s, a), [b]) == Step(Step(s, a), b);
  }

  lemma TakenAtEnd(s: State, joined: bool, token: Token, remaining: Time, prefix: nat, lease: Time)
    requires Inv(s) && token in s.holdings && LeasedTo(View(s, token.row), token)
    requires View(s, token.row).until == s.now + remaining && remaining > 0 && prefix !in s.used && lease >= 1
    ensures CanLose(s, joined, token, s.now + remaining)
  {
    var id, claim := token.row, ClaimBatch(prefix, {token.row}, s.rows.Keys - {token.row}, 1, lease);
    var s1 := Step(s, Tick(remaining));
    assert RowOk(s, id);
    TickRefines(s, Tick(remaining), id);
    assert Enabled(s1, claim, joined);
    ClaimedHere(s1, prefix, {id}, lease, id);
    TwoSteps(s, Tick(remaining), claim, joined);
    assert HoldingsOk(s) && token.prefix != prefix;
    assert Loses(s, [Tick(remaining), claim], joined, token, s.now + remaining);
  }

  /** Such starts happen: an eligible row of any reachable state can be claimed and its handler started late. */
  lemma LateStart(s: State, joined: bool, id: Id, prefix: nat, lease: Time, remaining: Time)
    requires Inv(s) && id in s.rows && Eligible(s.rows[id], s.now) && prefix !in s.used && 0 < remaining <= lease
    ensures var token, claim := Token(prefix, id), ClaimBatch(prefix, {id}, s.rows.Keys - {id}, 1, lease);
            var s' := Step(Step(s, claim), Tick(lease - remaining));
            && Enabled(s, claim, joined)
            && Enabled(Step(s, claim), Tick(lease - remaining), joined)
            && token in s'.holdings
            && s'.holdings[token].phase.Running?
            && LeasedTo(View(s', id), token)
            && View(s', id).until == s'.now + remaining
  {
    assert RowOk(s, id);
    ClaimedHere(s, prefix, {id}, lease, id);
    ClaimChosen(s, ClaimBatch(prefix, {id}, s.rows.Keys - {id}, 1, lease), id);
  }
}

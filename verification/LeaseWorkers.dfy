/**
 The imperative side: a worker's batch loop against a shared database, with the statements of other
 workers, and late renewals of any worker, interleaved between any two of its own.
 */
module LeaseWorkers {
  import opened Common
  import opened LeaseQueue
  import opened LeaseMachine
  import opened LeaseRefinement
  import opened LeaseDelivery
  import opened LeaseRetention
  import opened LeaseTheorems
  import Backoff
  import JobsRegistry
  import EventRegistry

  // ---------------------------------------------------------------- what one claim leaves behind

  ghost predicate Unreported(s: State, token: Token) {
    forall i :: 0 <= i < |Trail(s, token.row)| ==> !GivesUp(Trail(s, token.row)[i].action, token)
  }

  /** The claim is held by a running handler, with no renewal on its way. */
  ghost predicate Fresh(s: State, token: Token) {
    && token in s.holdings
    && s.holdings[token].phase.Running?
    && s.holdings[token].inFlight == 0
    && Unreported(s, token)
  }

  /**
   Unanswered: the outcome statement was answered with an error or not at all, and nothing is reported.
   Crashed: computing the delay of the retry panicked, and the worker with it.
   */
  datatype Status = Delivered | Retried | FailedForGood | ClaimLost | Unanswered | Crashed

  /** The entry that a status speaks of; a retry is ready after the wait. */
  predicate Matches(status: Status, e: Entry, token: Token, wait: Option<int>) {
    match status
    case Delivered => e.action == Complete(token)
    case Retried => wait.Some? && e.action == Retry(token, e.at + wait.value)
    case FailedForGood => e.action == Exhaust(token)
    case _ => false
  }

  /** The status a worker reports is what the audit trail says about its claim. */
  ghost predicate Recorded(s: State, token: Token, status: Status, wait: Option<int>) {
    var h := Trail(s, token.row);
    if status.ClaimLost? || status.Crashed? then Unreported(s, token)
    else status.Unanswered? || exists i :: 0 <= i < |h| && Matches(status, h[i], token, wait)
  }

  ghost predicate CompletedBy(s: State, token: Token) {
    var h := Trail(s, token.row);
    exists i :: 0 <= i < |h| && h[i].action == Complete(token)
  }

  /**
   The status is truthful, and both it and the table agree with whether the handlers succeeded. A retry is
   ready at the time it was recorded plus the backoff of the next attempt.
   */
  ghost predicate Judged(s: State, token: Token, status: Status, ok: bool, base: int, draw: nat) {
    && token in s.holdings
    && var c := s.holdings[token];
       var wait := Backoff.Delay(base, c.attempt + 1, draw);
       && Recorded(s, token, status, wait)
       && (CompletedBy(s, token) || status.Delivered? ==> ok)
       && (status.Retried? ==> !ok && c.attempt + 1 < c.limit)
       && (status.FailedForGood? ==> !ok && c.attempt + 1 >= c.limit)
       && (status.Crashed? <==> !ok && c.attempt + 1 < c.limit && wait.None?)
  }

  ghost predicate Tracks(s0: State, es: seq<Event>, s: State, joined: bool) {
    ValidRun(s0, es, joined) && s == RunAll(s0, es)
  }

  // ---------------------------------------------------------------- handlers

  datatype HandlerResult = ReturnedNil | ReturnedError | Panicked

  /** Where a worker finds its handlers. */
  datatype Consumer = JobConsumer(jobs: JobsRegistry.Registry) | EventConsumer(events: EventRegistry.Registry)

  /** What each handler returns in one delivery, should it be called. */
  datatype Results = Results(ofJob: JobsRegistry.Handler -> HandlerResult,
                             ofEvent: EventRegistry.Handler -> HandlerResult)

  predicate Serves(consumer: Consumer, kind: Kind) {
    consumer.JobConsumer? <==> kind.Jobs?
  }

  ghost predicate Ready(consumer: Consumer)
    reads if consumer.JobConsumer? then {consumer.jobs} else {}
    reads if consumer.EventConsumer? then {consumer.events} else {}
  {
    match consumer case JobConsumer(jobs) => jobs.Valid() case EventConsumer(events) => events.Valid()
  }

  /** What is registered with a consumer. */
  datatype Handlers =
    | JobHandlers(byName: map<string, JobsRegistry.Handler>)
    | EventHandlers(byType: map<string, seq<EventRegistry.Handler>>)

  function HandlersOf(consumer: Consumer): Handlers
    reads if consumer.JobConsumer? then {consumer.jobs} else {}
    reads if consumer.EventConsumer? then {consumer.events} else {}
  {
    match consumer
    case JobConsumer(jobs) => JobHandlers(jobs.handlers)
    case EventConsumer(events) => EventHandlers(events.handlers)
  }

  ghost predicate Listens(byType: map<string, seq<EventRegistry.Handler>>, h: EventRegistry.Handler, eventType: string)
  {
    && EventRegistry.TypeOf(h) in byType
    && h in byType[EventRegistry.TypeOf(h)]
    && (EventRegistry.TypeOf(h) == eventType || EventRegistry.TypeOf(h) == EventRegistry.ANY_TYPE)
  }

  /**
   A job succeeds when its name has a handler and that returns nil; an event when at least one handler
   of its type or of "*" is registered and all of them return nil.
   */
  ghost predicate Succeeds(handlers: Handlers, name: string, results: Results) {
    match handlers
    case JobHandlers(byName) => name in byName && results.ofJob(byName[name]).ReturnedNil?
    case EventHandlers(byType) =>
      && (exists h :: Listens(byType, h, name))
      && forall h :: Listens(byType, h, name) ==> results.ofEvent(h).ReturnedNil?
  }

  /** outbox deliver: every handler runs, whatever the others return. */
  method DeliverEvent(events: EventRegistry.Registry, eventType: string, result: EventRegistry.Handler -> HandlerResult)
    returns (ok: bool, ran: seq<EventRegistry.Handler>)
    requires events.Valid()
    ensures ok <==>
              && (exists h :: Listens(events.handlers, h, eventType))
              && forall h :: Listens(events.handlers, h, eventType) ==> result(h).ReturnedNil?
    ensures forall h :: h in ran <==> Listens(events.handlers, h, eventType)
    ensures forall i, j :: 0 <= i < j < |ran| ==> ran[i] != ran[j]
  {
    var handlers := events.HandlersFor(eventType);
    if |handlers| == 0 { return false, []; }
    assert Listens(events.handlers, handlers[0], eventType);
    var errs := 0;
    ran := [];
    while |ran| < |handlers|
      invariant |ran| <= |handlers| && ran == handlers[..|ran|]
      invariant errs >= 0 && (errs == 0 <==> forall h :: h in ran ==> result(h).ReturnedNil?)
    {
      var h := handlers[|ran|];
      if !result(h).ReturnedNil? { errs := errs + 1; }
      ran := ran + [h];
    }
    assert ran == handlers;
    ok := errs == 0;
  }

  /** Runs the handler or handlers of one claimed row. */
  method Deliver(consumer: Consumer, name: string, results: Results) returns (ok: bool)
    requires Ready(consumer)
    ensures ok <==> Succeeds(HandlersOf(consumer), name, results)
  {
    match consumer
    case JobConsumer(jobs) =>
      var h := jobs.HandlerFor(name);
      ok := h.Some? && results.ofJob(h.value).ReturnedNil?;
    case EventConsumer(events) =>
      var ran;
      ok, ran := DeliverEvent(events, name, results.ofEvent);
  }

  // ---------------------------------------------------------------- the database and one worker

  /** One delivery: the job's name or the event's type, what the handlers return, and what happens around it. */
  datatype Plan = Plan(name: string, results: Results, course: Course)

  class Database {
    var state: State

    constructor (kind: Kind, now: Time)
      ensures state == Init(kind, now)
    {
      state := Init(kind, now);
    }

    /** Runs what happens in between: each statement that can run does, the rest never happen. */
    method Interleave(others: seq<Event>, token: Token, waiting: bool, joined: bool)
      modifies this
      ensures state == RunAll(old(state), Interleaved(old(state), others, token, waiting, joined))
    {
      assert others[0..] == others;
      for i := 0 to |others|
        invariant RunAll(state, Interleaved(state, others[i..], token, waiting, joined))
                  == RunAll(old(state), Interleaved(old(state), others, token, waiting, joined))
      {
        var e := others[i];
        InterleavedCons(state, others, i, token, waiting, joined);
        if Enabled(state, e, joined) && MayIntervene(state, e, token, waiting) { state := Step(state, e); }
      }
      assert others[|others|..] == [];
    }

    /** Runs one statement of this worker. */
    method Execute(e: Event, joined: bool)
      requires Enabled(state, e, joined)
      modifies this
      ensures state == Step(old(state), e)
    {
      state := Step(state, e);
    }

    /** The renewal statement; `affected` is RowsAffected() == 1. */
    method Renew(token: Token, joined: bool) returns (affected: bool)
      requires Enabled(state, RunRenewal(token), joined)
      modifies this
      ensures state == Step(old(state), RunRenewal(token))
      ensures affected <==> RenewalMatches(old(state), token)
    {
      affected := token.row in state.rows
                  && !RenewRow(state.rows[token.row], state.now, state.holdings[token].lease, token).NoMatch?;
      state := Step(state, RunRenewal(token));
    }

    /** The outcome statement; `affected` is RowsAffected() == 1. */
    method Report(token: Token, ok: bool, delay: Time, joined: bool) returns (affected: bool)
      requires Enabled(state, Event.Report(token, ok, delay), joined)
      modifies this
      ensures state == Step(old(state), Event.Report(token, ok, delay))
      ensures affected <==> token.row in old(state.rows) && RowToken(old(state.rows)[token.row]) == Some(token)
    {
      affected := token.row in state.rows && RowToken(state.rows[token.row]) == Some(token);
      state := Step(state, Event.Report(token, ok, delay));
    }
  }

  lemma TrackMore(s0: State, es: seq<Event>, s: State, more: seq<Event>, s': State, joined: bool)
    requires Tracks(s0, es, s, joined) && Tracks(s, more, s', joined)
    ensures Tracks(s0, es + more, s', joined)
  {
    RunConcat(s0, es, more, joined);
  }

  /** One tick of the renewal goroutine; it goes on unless a renewal found the claim gone. */
  method RenewOnTick(db: Database, token: Token, tick: RenewalTick, joined: bool) returns (owned: bool)
    requires Working(db.state, token)
    modifies db
    ensures db.state == RunAll(old(db.state), TickSteps(old(db.state), token, tick, joined))
    ensures owned <==> !ClaimGone(old(db.state), token, tick, joined)
  {
    ghost var s0 := db.state;
    SentCarries(s0, token, tick, joined);
    UpToRenewalCarries(s0, token, tick, joined);
    SentRuns(s0, token, tick, joined);
    db.Interleave(tick.before, token, false, joined);
    db.Execute(SendRenewal(token), joined);
    owned := true;
    if Awaited(tick.fate, joined) {
      WaitedRuns(s0, token, tick, joined);
      db.Interleave(tick.during, token, true, joined);
      if tick.fate.Lost? {
        db.Execute(LoseRenewal(token), joined);
      } else {
        owned := db.Renew(token, joined);
      }
    }
  }

  lemma SentRuns(s: State, token: Token, tick: RenewalTick, joined: bool)
    requires Working(s, token)
    ensures var s1 := RunAll(s, Interleaved(s, tick.before, token, false, joined));
            && Enabled(s1, SendRenewal(token), joined)
            && RunAll(s, Sent(s, token, tick, joined)) == Step(s1, SendRenewal(token))
            && (!Awaited(tick.fate, joined) ==> TickSteps(s, token, tick, joined) == Sent(s, token, tick, joined))
  {
    var before := Interleaved(s, tick.before, token, false, joined);
    InterleavedCarries(s, tick.before, token, false, joined);
    RunConcat(s, before, [SendRenewal(token)], joined);
    RunOne(RunAll(s, before), SendRenewal(token), joined);
  }

  lemma WaitedRuns(s: State, token: Token, tick: RenewalTick, joined: bool)
    requires Working(s, token) && Awaited(tick.fate, joined)
    ensures var s1 := RunAll(s, Sent(s, token, tick, joined));
            var s2 := RunAll(s1, Interleaved(s1, tick.during, token, true, joined));
            var answer := if tick.fate.Lost? then LoseRenewal(token) else RunRenewal(token);
            && s2 == RunAll(s, UpToRenewal(s, token, tick, joined))
            && Enabled(s2, answer, joined)
            && RunAll(s, TickSteps(s, token, tick, joined)) == Step(s2, answer)
  {
    var sent := Sent(s, token, tick, joined);
    var s1 := RunAll(s, sent);
    UpToRenewalCarries(s, token, tick, joined);
    RunConcat(s, sent, Interleaved(s1, tick.during, token, true, joined), joined);
    var answer := if tick.fate.Lost? then LoseRenewal(token) else RunRenewal(token);
    RunConcat(s, UpToRenewal(s, token, tick, joined), [answer], joined);
    RunOne(RunAll(s, UpToRenewal(s, token, tick, joined)), answer, joined);
  }

  /** What the renewal loop does, all in all. */
  ghost predicate Renewal(s: State, es: seq<Event>, s': State, token: Token, ticks: seq<RenewalTick>, joined: bool) {
    && Carried(s, es, s', token, joined)
    && RenewsEach(s, es, token, ticks, joined)
    && (Attended(s, token, ticks, joined) ==> RenewsExactly(s, es, token, ticks, joined))
  }

  lemma RenewalStepsRenew(s: State, token: Token, ticks: seq<RenewalTick>, joined: bool)
    requires Busy(s, token, joined)
    ensures var es := RenewalSteps(s, token, ticks, joined); Renewal(s, es, RunAll(s, es), token, ticks, joined)
  {
    RenewalsFollowTicks(s, token, ticks, joined);
    if Attended(s, token, ticks, joined) { AttendedRenewals(s, token, ticks, joined); }
  }

  /** What the renewal loop still does from its i-th tick on. */
  function Rest(s: State, token: Token, ticks: seq<RenewalTick>, i: nat, owned: bool, joined: bool): seq<Event>
    requires i <= |ticks|
  {
    if owned then RenewalSteps(s, token, ticks[i..], joined) else []
  }

  lemma TickWorks(s: State, token: Token, tick: RenewalTick, joined: bool)
    requires Working(s, token)
    ensures Working(RunAll(s, TickSteps(s, token, tick, joined)), token)
  {
    TickCarries(s, token, tick, joined);
  }

  lemma FirstOfRest(s: State, token: Token, ticks: seq<RenewalTick>, i: nat, joined: bool)
    requires i < |ticks|
    ensures var more := TickSteps(s, token, ticks[i], joined);
            Rest(s, token, ticks, i, true, joined)
            == more + Rest(RunAll(s, more), token, ticks, i + 1, !ClaimGone(s, token, ticks[i], joined), joined)
  {
    assert ticks[i..][0] == ticks[i] && ticks[i..][1..] == ticks[i + 1..];
  }

  /** The loop so far, and the loop still to come. */
  ghost predicate Renewing(s0: State, all: seq<Event>, es: seq<Event>, s: State, rest: seq<Event>) {
    s == RunAll(s0, es) && all == es + rest
  }

  lemma RenewingOn(s0: State, all: seq<Event>, es: seq<Event>, s: State, token: Token, ticks: seq<RenewalTick>, i: nat,
                   joined: bool)
    requires i < |ticks| && Working(s, token)
    requires Renewing(s0, all, es, s, Rest(s, token, ticks, i, true, joined))
    ensures var more, owned := TickSteps(s, token, ticks[i], joined), !ClaimGone(s, token, ticks[i], joined);
            var s' := RunAll(s, more);
            Working(s', token) && Renewing(s0, all, es + more, s', Rest(s', token, ticks, i + 1, owned, joined))
  {
    var more, owned := TickSteps(s, token, ticks[i], joined), !ClaimGone(s, token, ticks[i], joined);
    TickWorks(s, token, ticks[i], joined);
    FirstOfRest(s, token, ticks, i, joined);
    Advance(s0, all, es, s, more, RunAll(s, more), Rest(RunAll(s, more), token, ticks, i + 1, owned, joined));
  }

  lemma Advance(s0: State, all: seq<Event>, es: seq<Event>, s: State, more: seq<Event>, s': State, rest: seq<Event>)
    requires Renewing(s0, all, es, s, more + rest) && s' == RunAll(s, more)
    ensures Renewing(s0, all, es + more, s', rest)
  {
    RunConcat(s0, es, more, true);
    assert es + (more + rest) == es + more + rest;
  }

  lemma RenewalOver(s0: State, all: seq<Event>, es: seq<Event>, s: State, token: Token, ticks: seq<RenewalTick>,
                    owned: bool, joined: bool, i: nat)
    requires i <= |ticks| && (owned ==> i == |ticks|)
    requires Renewing(s0, all, es, s, Rest(s, token, ticks, i, owned, joined))
    ensures es == all && s == RunAll(s0, all)
  {
    assert owned ==> ticks[i..] == [];
    assert es + [] == es;
  }

  /**
   The renewal goroutine: one update per tick, in order, until the handler is done or an update finds the
   claim gone.
   */
  method RenewWhileRunning(db: Database, token: Token, ticks: seq<RenewalTick>, joined: bool)
    requires Busy(db.state, token, joined)
    modifies db
    ensures db.state == RunAll(old(db.state), RenewalSteps(old(db.state), token, ticks, joined))
    ensures var es := RenewalSteps(old(db.state), token, ticks, joined);
            Renewal(old(db.state), es, db.state, token, ticks, joined)
  {
    ghost var s0, es := db.state, [];
    ghost var all := RenewalSteps(s0, token, ticks, joined);
    var owned, i := true, 0;
    assert ticks[0..] == ticks;
    while i < |ticks| && owned
      invariant i <= |ticks| && Working(db.state, token)
      invariant Renewing(s0, all, es, db.state, Rest(db.state, token, ticks, i, owned, joined))
    {
      RenewingOn(s0, all, es, db.state, token, ticks, i, joined);
      es := es + TickSteps(db.state, token, ticks[i], joined);
      owned := RenewOnTick(db, token, ticks[i], joined);
      i := i + 1;
    }
    RenewalOver(s0, all, es, db.state, token, ticks, owned, joined, i);
    RenewalStepsRenew(s0, token, ticks, joined);
  }

  /** An outcome statement that matches its row adds its entry to the audit trail; any other adds nothing. */
  lemma ReportTrail(s: State, token: Token, ok: bool, delay: int, joined: bool)
    requires Inv(s) && Enabled(s, Event.Report(token, ok, delay), joined)
    ensures var matched := token.row in s.rows && RowToken(s.rows[token.row]) == Some(token);
            var entry := Entry(s.now, OutcomeAction(s.holdings[token], token, ok, s.now + delay));
            Trail(Step(s, Event.Report(token, ok, delay)), token.row)
            == Trail(s, token.row) + if matched then [entry] else []
    ensures var s' := Step(s, Event.Report(token, ok, delay));
            token in s'.holdings && s'.holdings[token] == s.holdings[token].(phase := Reported)
  {
    var e, id := Event.Report(token, ok, delay), token.row;
    assert RowOk(s, id);
    ReportRefines(s, e, id);
    assert AttemptOn(s, e, id).Some?;
  }

  /** The outcome statement records exactly what the worker reports about it. */
  lemma ReportRecords(s: State, token: Token, ok: bool, base: int, draw: nat, joined: bool, delay: int, affected: bool,
                      status: Status)
    requires Inv(s) && Enabled(s, Event.Report(token, ok, delay), joined) && Unreported(s, token)
    requires Some(delay) == NextDelay(s.holdings[token], ok, base, draw)
    requires affected <==> token.row in s.rows && RowToken(s.rows[token.row]) == Some(token)
    requires status == if !affected then ClaimLost else if ok then Delivered
                       else if s.holdings[token].attempt + 1 >= s.holdings[token].limit then FailedForGood else Retried
    ensures Judged(Step(s, Event.Report(token, ok, delay)), token, status, ok, base, draw)
    ensures Judged(Step(s, Event.Report(token, ok, delay)), token, Unanswered, ok, base, draw)
  {
    ReportTrail(s, token, ok, delay, joined);
    var entry := Entry(s.now, OutcomeAction(s.holdings[token], token, ok, s.now + delay));
    EntryJudged(s, Step(s, Event.Report(token, ok, delay)), token, ok, base, draw, delay, affected, status, entry);
  }

  lemma EntryJudged(s: State, s': State, token: Token, ok: bool, base: int, draw: nat, delay: int, affected: bool,
                    status: Status, entry: Entry)
    requires Unreported(s, token) && token in s.holdings && token in s'.holdings
    requires s'.holdings[token] == s.holdings[token].(phase := Reported)
    requires Some(delay) == NextDelay(s.holdings[token], ok, base, draw)
    requires entry.action == OutcomeAction(s.holdings[token], token, ok, entry.at + delay)
    requires Trail(s', token.row) == Trail(s, token.row) + if affected then [entry] else []
    requires status == if !affected then ClaimLost else if ok then Delivered
                       else if s.holdings[token].attempt + 1 >= s.holdings[token].limit then FailedForGood else Retried
    ensures Judged(s', token, status, ok, base, draw)
    ensures Judged(s', token, Unanswered, ok, base, draw)
  {
    if affected {
      var wait := Backoff.Delay(base, s.holdings[token].attempt + 1, draw);
      assert Matches(status, Trail(s', token.row)[|Trail(s, token.row)|], token, wait);
    }
  }

  /**
   A retried row becomes eligible at the time of the report plus the backoff of its next attempt, which lies
   in that attempt's window.
   */
  lemma RetryWaitsBackoff(s: State, token: Token, base: int, draw: nat, joined: bool, delay: int, t: Time)
    requires Inv(s) && Enabled(s, Event.Report(token, false, delay), joined) && t >= s.now
    requires token.row in s.rows && RowToken(s.rows[token.row]) == Some(token)
    requires var c := s.holdings[token];
             c.attempt + 1 < c.limit && Backoff.Delay(base, c.attempt + 1, draw) == Some(delay)
    ensures var s', n := Step(s, Event.Report(token, false, delay)), s.holdings[token].attempt + 1;
            && View(s', token.row) == Pending(s.now + delay, n, s.holdings[token].limit)
            && token.row in s'.rows
            && (Eligible(s'.rows[token.row], t) <==> t >= s.now + delay)
            && (0 < base && base * Backoff.Pow2(n) <= Backoff.TWO63 ==>
                  base * Backoff.Pow2(n - 1) <= delay < base * Backoff.Pow2(n))
  {
    var e, n := Event.Report(token, false, delay), s.holdings[token].attempt + 1;
    assert RowOk(s, token.row);
    ReportRefines(s, e, token.row);
    Backoff.ScaledIsPower(base, n);
    Backoff.ScaledIsPower(base, n - 1);
    if 0 < base && base * Backoff.Pow2(n) <= Backoff.TWO63 { Backoff.WindowHolds(base, n, draw); }
  }

  /** The delivery is over: its renewals, at most one outcome statement, and what it left behind. */
  ghost predicate Finished(s0: State, es: seq<Event>, s: State, token: Token, joined: bool, course: Course, base: int,
                           status: Status, ok: bool) {
    && Tracks(s0, es, s, joined)
    && OnlyOwn(es, token)
    && Inv(s)
    && token in s.holdings
    && (Attended(s0, token, course.ticks, joined) ==> s.holdings[token].inFlight == 0)
    && Renewed(s0, es, token, course.ticks, joined)
    && Reports(es, token) == ReportCount(status, course.reply)
    && (status.Unanswered? <==> course.reply.Silent? && !status.Crashed?)
    && Judged(s, token, status, ok, base, course.draw)
  }

  function ReportCount(status: Status, reply: Reply): nat {
    if status.Crashed? || reply == Silent(false) then 0 else 1
  }

  /** A verdict stays right as long as the claim records nothing more. */
  lemma JudgedLasts(s: State, s': State, token: Token, status: Status, ok: bool, base: int, draw: nat)
    requires Judged(s, token, status, ok, base, draw) && token in s'.holdings
    requires Wanes(s.holdings[token], s'.holdings[token])
    requires GrowsWithout(Trail(s, token.row), Trail(s', token.row), token)
    ensures Judged(s', token, status, ok, base, draw)
  {
  }

  /** What a delivery left behind stays so whatever happens next. */
  lemma FinishedLasts(s0: State, es: seq<Event>, s: State, done: seq<Event>, s': State, token: Token, joined: bool,
                      course: Course, base: int, status: Status, ok: bool)
    requires Finished(s0, es, s, token, joined, course, base, status, ok)
    requires Tracks(s, done, s', joined) && AllForeign(done, token.prefix)
    ensures Finished(s0, es + done, s', token, joined, course, base, status, ok)
  {
    ForeignNotBy(done, token);
    OthersLeaveToken(s, done, token, joined);
    JudgedLasts(s, s', token, status, ok, base, course.draw);
    OthersRenewNothing(s0, es, s, done, token, course.ticks, joined);
    TrackMore(s0, es, s, done, s', joined);
    NoReports(done, token);
    ReportsConcat(es, done, token);
  }

  /** Without an outcome statement. */
  lemma NoReportFinishes(s0: State, es: seq<Event>, s: State, token: Token, joined: bool, course: Course, base: int,
                         status: Status, ok: bool)
    requires Halted(s0, es, s, token, joined) && Renewed(s0, es, token, course.ticks, joined) && Unreported(s, token)
    requires Attended(s0, token, course.ticks, joined) ==> s.holdings[token].inFlight == 0
    requires if NextDelay(s.holdings[token], ok, base, course.draw).None? then status.Crashed?
             else status.Unanswered? && course.reply == Silent(false)
    ensures Finished(s0, es, s, token, joined, course, base, status, ok)
  {
  }

  lemma ReportTracked(s0: State, es: seq<Event>, s: State, token: Token, joined: bool, course: Course, e: Event)
    requires Halted(s0, es, s, token, joined) && Renewed(s0, es, token, course.ticks, joined)
    requires e.Report? && e.token == token && Enabled(s, e, joined)
    ensures Tracks(s0, es + [e], Step(s, e), joined) && Inv(Step(s, e)) && token in Step(s, e).holdings
    ensures Step(s, e).holdings[token].inFlight == s.holdings[token].inFlight
    ensures OnlyOwn(es + [e], token) && Reports(es + [e], token) == 1
    ensures Renewed(s0, es + [e], token, course.ticks, joined)
  {
    StepKeepsInv(s, e, joined);
    RunOne(s, e, joined);
    TrackMore(s0, es, s, [e], Step(s, e), joined);
    RenewedLasts(s0, es, s, [e], token, course.ticks, joined);
  }

  lemma ReportFinishes(s0: State, es: seq<Event>, s: State, token: Token, joined: bool, course: Course, base: int,
                       status: Status, ok: bool, delay: int, affected: bool)
    requires Halted(s0, es, s, token, joined) && Renewed(s0, es, token, course.ticks, joined) && Unreported(s, token)
    requires Attended(s0, token, course.ticks, joined) ==> s.holdings[token].inFlight == 0
    requires Some(delay) == NextDelay(s.holdings[token], ok, base, course.draw) && course.reply != Silent(false)
    requires affected <==> token.row in s.rows && RowToken(s.rows[token.row]) == Some(token)
    requires status == if course.reply.Silent? then Unanswered else if !affected then ClaimLost
                       else if ok then Delivered
                       else if s.holdings[token].attempt + 1 >= s.holdings[token].limit then FailedForGood else Retried
    ensures var e := Event.Report(token, ok, delay);
            Finished(s0, es + [e], Step(s, e), token, joined, course, base, status, ok)
  {
    var e := Event.Report(token, ok, delay);
    ReportRecords(s, token, ok, base, course.draw, joined, delay, affected,
                  if !affected then ClaimLost else if ok then Delivered
                  else if s.holdings[token].attempt + 1 >= s.holdings[token].limit then FailedForGood else Retried);
    ReportTracked(s0, es, s, token, joined, course, e);
  }

  /** The claim has stopped its renewals, as the start s0 of its delivery leads to. */
  ghost predicate AtStop(s0: State, s: State, token: Token, course: Course, joined: bool) {
    && Busy(s0, token, joined)
    && Unreported(s0, token)
    && s == RunAll(s0, StoppedSteps(s0, token, course, joined))
  }

  /** A stopped claim whose delivery has come to its outcome. */
  ghost predicate Due(s0: State, es: seq<Event>, s: State, token: Token, course: Course, joined: bool) {
    && Halted(s0, es, s, token, joined)
    && Renewed(s0, es, token, course.ticks, joined)
    && Unreported(s, token)
    && (Attended(s0, token, course.ticks, joined) ==> s.holdings[token].inFlight == 0)
  }

  lemma AtReport(s0: State, s: State, token: Token, course: Course, joined: bool)
    requires AtStop(s0, s, token, course, joined)
    ensures var es := StepsToReport(s0, token, course, joined);
            var s' := RunAll(s, Interleaved(s, course.beforeReport, token, false, joined));
            s' == RunAll(s0, es) && Due(s0, es, s', token, course, joined)
  {
    ReportReached(s0, token, course, joined);
    var a := StoppedSteps(s0, token, course, joined);
    RunConcat(s0, a, Interleaved(s, course.beforeReport, token, false, joined), joined);
  }

  /** The rest of a delivery after its outcome statement, or after none. */
  lemma AfterReport(s0: State, es: seq<Event>, s: State, token: Token, course: Course, joined: bool, base: int,
                    status: Status, ok: bool)
    requires Finished(s0, es, s, token, joined, course, base, status, ok)
    ensures var all := Between(s0, es, course.after, token, false, joined);
            var s' := RunAll(s, Interleaved(s, course.after, token, false, joined));
            s' == RunAll(s0, all) && Finished(s0, all, s', token, joined, course, base, status, ok)
  {
    var more := Interleaved(s, course.after, token, false, joined);
    InterleavedRuns(s, course.after, token, false, joined);
    RunConcat(s0, es, more, joined);
    FinishedLasts(s0, es, s, more, RunAll(s, more), token, joined, course, base, status, ok);
  }

  /** The outcome statement, if it is reached and not lost. */
  method RecordOutcome(db: Database, token: Token, ok: bool, course: Course, base: int, joined: bool, ghost s0: State,
                       ghost es: seq<Event>)
    returns (status: Status)
    requires Due(s0, es, db.state, token, course, joined) && 0 < base < Backoff.TWO63
    modifies db
    ensures var c := old(db.state).holdings[token];
            Finished(s0, es + ReportSteps(c, token, ok, base, course), db.state, token, joined, course, base, status,
                     ok)
    ensures LeasedTo(View(old(db.state), token.row), token) ==> !status.ClaimLost?
  {
    ghost var s := db.state;
    var c := db.state.holdings[token];
    var delay := Some(0);
    if !ok && c.attempt + 1 < c.limit { delay := Backoff.ComputeBackoff(base, c.attempt + 1, course.draw); }
    if delay.None? || course.reply == Silent(false) {
      status := if delay.None? then Crashed else Unanswered;
      NoReportFinishes(s0, es, s, token, joined, course, base, status, ok);
      assert es + [] == es;
    } else {
      var affected := db.Report(token, ok, delay.value, joined);
      status := if course.reply.Silent? then Unanswered else if !affected then ClaimLost else if ok then Delivered
                else if c.attempt + 1 >= c.limit then FailedForGood else Retried;
      if LeasedTo(View(s, token.row), token) { LeasedRowMatches(s, token); }
      ReportFinishes(s0, es, s, token, joined, course, base, status, ok, delay.value, affected);
    }
  }

  /** A stopped claim records its outcome, and others go on; s0 is where the delivery began. */
  method Conclude(db: Database, token: Token, ok: bool, course: Course, base: int, joined: bool, ghost s0: State)
    returns (status: Status)
    requires AtStop(s0, db.state, token, course, joined) && 0 < base < Backoff.TWO63
    modifies db
    ensures var es := DeliverySteps(s0, token, course, ok, base, joined);
            Finished(s0, es, db.state, token, joined, course, base, status, ok)
    ensures var s := RunAll(s0, StepsToReport(s0, token, course, joined));
            LeasedTo(View(s, token.row), token) ==> !status.ClaimLost?
  {
    AtReport(s0, db.state, token, course, joined);
    ghost var es := StepsToReport(s0, token, course, joined);
    db.Interleave(course.beforeReport, token, false, joined);
    ghost var c := db.state.holdings[token];
    assert ReportSteps(c, token, ok, base, course) == ReportSteps(s0.holdings[token], token, ok, base, course);
    status := RecordOutcome(db, token, ok, course, base, joined, s0, es);
    es := es + ReportSteps(c, token, ok, base, course);
    AfterReport(s0, es, db.state, token, course, joined, base, status, ok);
    db.Interleave(course.after, token, false, joined);
  }

  lemma LeasedRowMatches(s: State, token: Token)
    requires LeasedTo(View(s, token.row), token)
    ensures token.row in s.rows && RowToken(s.rows[token.row]) == Some(token)
  {
  }

  lemma StopRuns(s0: State, s: State, token: Token, course: Course, joined: bool)
    requires Busy(s0, token, joined) && s == RunAll(s0, RenewalSteps(s0, token, course.ticks, joined))
    ensures var s1 := RunAll(s, Interleaved(s, course.beforeStop, token, false, joined));
            && Enabled(s1, Stop(token), joined)
            && Step(s1, Stop(token)) == RunAll(s0, StoppedSteps(s0, token, course, joined))
  {
    StopEnabled(s0, token, course, joined);
    var a := RenewalSteps(s0, token, course.ticks, joined);
    var b := Interleaved(s, course.beforeStop, token, false, joined);
    RunConcat(s0, a, b, joined);
    RunConcat(s0, a + b, [Stop(token)], joined);
    RunOne(RunAll(s0, a + b), Stop(token), joined);
  }

  /** After the report no renewal is sent. */
  lemma OnlyTicksSend(s: State, token: Token, course: Course, ok: bool, base: int, joined: bool)
    requires token in s.holdings
    ensures Count(DeliverySteps(s, token, course, ok, base, joined), SendRenewal(token))
            == Count(StepsToReport(s, token, course, joined), SendRenewal(token))
  {
    var a := StepsToReport(s, token, course, joined);
    var b := ReportSteps(s.holdings[token], token, ok, base, course);
    var c := Interleaved(RunAll(s, a + b), course.after, token, false, joined);
    InterleavedRuns(RunAll(s, a + b), course.after, token, false, joined);
    CountNone(b, SendRenewal(token));
    CountNone(c, SendRenewal(token));
    CountConcat(a, b, SendRenewal(token));
    CountConcat(a + b, c, SendRenewal(token));
  }

  // ---------------------------------------------------------------- the batch loop

  /** After the claim statement, every row it chose starts a fresh claim. */
  lemma SelectedIsFresh(s: State, e: Event, id: Id)
    requires Inv(s) && e.ClaimBatch? && e.prefix !in s.used && e.lease >= 1
    requires ValidSelection(s, e.chosen, e.skipped, e.batch) && id in e.chosen
    ensures Fresh(Step(s, e), Token(e.prefix, id))
    ensures Step(s, e).holdings[Token(e.prefix, id)].lease == e.lease
  {
    assert RowOk(s, id) && TrailOk(s, id);
  }

  lemma SelectedIsLeased(s: State, e: Event, id: Id)
    requires RowOk(s, id) && e.ClaimBatch? && e.lease >= 1
    requires ValidSelection(s, e.chosen, e.skipped, e.batch) && id in e.chosen
    ensures LeasedTo(View(Step(s, e), id), Token(e.prefix, id)) && View(Step(s, e), id).until == s.now + e.lease
  {
    ClaimedHere(s, e.prefix, e.chosen, e.lease, id);
  }

  /** The time up to the end of a delivery, at most. */
  function TickTime(ticks: seq<RenewalTick>): nat {
    if ticks == [] then 0 else Elapsed(ticks[0].before) + Elapsed(ticks[0].during) + TickTime(ticks[1..])
  }

  function CourseTime(c: Course): nat {
    TickTime(c.ticks) + Elapsed(c.beforeStop) + Elapsed(c.beforeReport) + Elapsed(c.after)
  }

  function PlansTime(plans: seq<Plan>): nat {
    if plans == [] then 0 else PlansTime(plans[..|plans|-1]) + CourseTime(plans[|plans|-1].course)
  }

  lemma TickTakes(s: State, token: Token, tick: RenewalTick, joined: bool)
    ensures s.now <= RunAll(s, TickSteps(s, token, tick, joined)).now
    ensures RunAll(s, TickSteps(s, token, tick, joined)).now <= s.now + Elapsed(tick.before) + Elapsed(tick.during)
  {
    UpToRenewalTakes(s, token, tick, joined);
    var start, answer := UpToRenewal(s, token, tick, joined), Answer(token, tick, joined);
    RunConcat(s, start, answer, joined);
    if answer != [] {
      RunOne(RunAll(s, start), answer[0], joined);
      ClockStep(RunAll(s, start), answer[0]);
    }
  }

  lemma {:induction false} RenewalsTake(s: State, token: Token, ticks: seq<RenewalTick>, joined: bool)
    ensures s.now <= RunAll(s, RenewalSteps(s, token, ticks, joined)).now <= s.now + TickTime(ticks)
    decreases ticks
  {
    if ticks != [] {
      var es := TickSteps(s, token, ticks[0], joined);
      var s1 := RunAll(s, es);
      TickTakes(s, token, ticks[0], joined);
      RenewalsTake(s1, token, ticks[1..], joined);
      RunConcat(s, es, RenewalSteps(s1, token, ticks[1..], joined), joined);
      assert es + [] == es;
    }
  }

  lemma BetweenTakes(s: State, es: seq<Event>, others: seq<Event>, token: Token, joined: bool)
    ensures RunAll(s, Between(s, es, others, token, false, joined)).now == RunAll(s, es).now + Elapsed(others)
  {
    InterleavedTakes(RunAll(s, es), others, token, false, joined);
    RunConcat(s, es, Interleaved(RunAll(s, es), others, token, false, joined), joined);
  }

  lemma OneTakes(s: State, es: seq<Event>, e: Event)
    requires !e.Tick?
    ensures RunAll(s, es + [e]).now == RunAll(s, es).now
  {
    RunConcat(s, es, [e], true);
    RunOne(RunAll(s, es), e, true);
    ClockStep(RunAll(s, es), e);
  }

  lemma StoppedTakes(s: State, token: Token, course: Course, joined: bool)
    ensures s.now <= RunAll(s, StoppedSteps(s, token, course, joined)).now
              <= s.now + TickTime(course.ticks) + Elapsed(course.beforeStop)
  {
    var a := RenewalSteps(s, token, course.ticks, joined);
    RenewalsTake(s, token, course.ticks, joined);
    BetweenTakes(s, a, course.beforeStop, token, joined);
    OneTakes(s, Between(s, a, course.beforeStop, token, false, joined), Stop(token));
  }

  lemma DeliveryTakes(s: State, token: Token, course: Course, ok: bool, base: int, joined: bool)
    requires token in s.holdings
    ensures s.now <= RunAll(s, DeliverySteps(s, token, course, ok, base, joined)).now <= s.now + CourseTime(course)
  {
    var a := StoppedSteps(s, token, course, joined);
    StoppedTakes(s, token, course, joined);
    BetweenTakes(s, a, course.beforeReport, token, joined);
    var b, r := StepsToReport(s, token, course, joined), ReportSteps(s.holdings[token], token, ok, base, course);
    if r != [] { OneTakes(s, b, r[0]); } else { assert b + r == b; }
    BetweenTakes(s, b + r, course.after, token, joined);
  }

  /** What the worker reports, and whether the handlers succeeded. */
  datatype Outcome = Outcome(status: Status, ok: bool)

  /** What is promised about a row whose delivery is over. */
  ghost predicate Settled(s0: State, s: State, es: seq<Event>, token: Token, o: Outcome, plan: Plan,
                          base: int, joined: bool)
  {
    && Reports(es, token) == ReportCount(o.status, plan.course.reply)
    && (o.status.Unanswered? <==> plan.course.reply.Silent? && !o.status.Crashed?)
    && Judged(s, token, o.status, o.ok, base, plan.course.draw)
    && Renewed(s0, es, token, plan.course.ticks, joined)
  }

  /** With all gaps in time, from what is left of the lease when the delivery starts, the claim is not lost. */
  ghost predicate KeptIfPrompt(es: seq<Event>, token: Token, status: Status, plan: Plan, joined: bool, left: Time,
                               lease: Time) {
    Prompt(plan.course, joined, left, lease) ==>
      !status.ClaimLost? && Count(es, SendRenewal(token)) == |plan.course.ticks|
  }

  /** A claim of the batch whose turn has not come: held until `end`, with nothing done under it. */
  ghost predicate Waits(s: State, es: seq<Event>, token: Token, lease: Time, end: Time) {
    && Fresh(s, token)
    && s.holdings[token].lease == lease
    && Reports(es, token) == Count(es, SendRenewal(token)) == Count(es, RunRenewal(token)) == 0
    && (s.now < end ==> Holds(s, token, end - s.now))
  }

  lemma WaitsOn(s: State, es: seq<Event>, more: seq<Event>, s': State, token: Token, lease: Time, end: Time,
                joined: bool)
    requires Inv(s) && Waits(s, es, token, lease, end) && Tracks(s, more, s', joined) && NoneBy(more, token)
    ensures Waits(s', es + more, token, lease, end)
  {
    OthersLeaveToken(s, more, token, joined);
    NoReports(more, token);
    ReportsConcat(es, more, token);
    NoneInFlight(s, more, token, joined);
    CountNone(more, RunRenewal(token));
    CountNone(more, SendRenewal(token));
    CountConcat(es, more, RunRenewal(token));
    CountConcat(es, more, SendRenewal(token));
    NoReportNoOutcome(more, token);
    AttemptsWithin(s, more, joined, token);
    if s'.now < end { StretchHolds(s, more, s', token, end - s.now, joined); }
  }

  /** A settled row: what is promised stays so. */
  ghost predicate Concluded(s0: State, s: State, es: seq<Event>, token: Token, o: Outcome,
                       plan: Plan, base: int, joined: bool, left: Time, lease: Time)
  {
    && token in s.holdings
    && (Attended(s0, token, plan.course.ticks, joined) ==> s.holdings[token].inFlight == 0)
    && Settled(s0, s, es, token, o, plan, base, joined)
    && KeptIfPrompt(es, token, o.status, plan, joined, left, lease)
  }

  lemma ConcludedLasts(s0: State, s: State, es: seq<Event>, more: seq<Event>, s': State, token: Token, o: Outcome,
                       plan: Plan, base: int, joined: bool, left: Time, lease: Time)
    requires Tracks(s0, es, s, joined) && Inv(s) && Tracks(s, more, s', joined) && NoneBy(more, token)
    requires Concluded(s0, s, es, token, o, plan, base, joined, left, lease)
    ensures Concluded(s0, s', es + more, token, o, plan, base, joined, left, lease)
  {
    OthersLeaveToken(s, more, token, joined);
    JudgedLasts(s, s', token, o.status, o.ok, base, plan.course.draw);
    NoReports(more, token);
    ReportsConcat(es, more, token);
    OthersRenewNothing(s0, es, s, more, token, plan.course.ticks, joined);
    CountNone(more, SendRenewal(token));
    CountConcat(es, more, SendRenewal(token));
  }

  lemma {:induction false} PromptNeedsLease(ticks: seq<RenewalTick>, joined: bool, left: Time, lease: Time)
    requires Remaining(ticks, joined, left, lease).Some? && Remaining(ticks, joined, left, lease).value > 0
    ensures left > 0
  {
  }

  /** The row whose turn it was. */
  lemma Concludes(s0: State, s: State, es: seq<Event>, more: seq<Event>, s': State, token: Token, o: Outcome,
                    plan: Plan, base: int, joined: bool, left: Time, lease: Time, end: Time)
    requires Tracks(s0, es, s, joined) && Waits(s, es, token, lease, end)
    requires Finished(s, more, s', token, joined, plan.course, base, o.status, o.ok)
    requires Holds(s, token, left) ==> KeptIfPrompt(more, token, o.status, plan, joined, left, lease)
    requires s.now + left <= end
    ensures Concluded(s0, s', es + more, token, o, plan, base, joined, left, lease)
  {
    ReportsConcat(es, more, token);
    CountConcat(es, more, SendRenewal(token));
    RenewedAfter(s0, es, s, more, token, plan.course.ticks, joined);
    if Prompt(plan.course, joined, left, lease) {
      PromptNeedsLease(plan.course.ticks, joined, left, lease);
    }
  }

  /** A batch: who delivers, under which claims, what happens around each delivery, and the configuration. */
  datatype Batch = Batch(consumer: Consumer, prefix: nat, returned: seq<Id>, plans: seq<Plan>, backoff: int,
                         lease: Time, joined: bool)

  function TokenAt(b: Batch, j: nat): Token
    requires j < |b.returned|
  {
    Token(b.prefix, b.returned[j])
  }

  function BaseOf(b: Batch): int {
    Backoff.BaseDelay(b.backoff)
  }

  predicate Distinct(ids: seq<Id>) {
    forall i, j :: 0 <= i < j < |ids| ==> ids[i] != ids[j]
  }

  /** What is left of the lease when the j-th delivery begins, at least. */
  function LeftFor(b: Batch, j: nat): Time
    requires j <= |b.plans|
  {
    b.lease - PlansTime(b.plans[..j])
  }

  ghost predicate AllConcluded(s0: State, s: State, es: seq<Event>, b: Batch, outcomes: seq<Outcome>)
    requires |outcomes| <= |b.returned| && |outcomes| <= |b.plans|
    decreases |outcomes|
  {
    outcomes == [] ||
    (var n := |outcomes| - 1;
     && AllConcluded(s0, s, es, b, outcomes[..n])
     && Concluded(s0, s, es, TokenAt(b, n), outcomes[n], b.plans[n], BaseOf(b), b.joined, LeftFor(b, n), b.lease))
  }

  ghost predicate AllWait(s: State, es: seq<Event>, b: Batch, n: nat, end: Time) {
    forall j :: n <= j < |b.returned| ==> Waits(s, es, TokenAt(b, j), b.lease, end)
  }

  /**
   How far the batch is: the run so far is one of the machine, the first claims are concluded as reported, and
   the rest still wait.
   */
  ghost predicate Progress(s0: State, s: State, es: seq<Event>, b: Batch, outcomes: seq<Outcome>)
  {
    && |outcomes| <= |b.returned| && |outcomes| <= |b.plans|
    && Tracked(s0, s, es, b, |outcomes|)
    && AllConcluded(s0, s, es, b, outcomes)
    && AllWait(s, es, b, |outcomes|, s0.now + b.lease)
  }

  lemma OwnStepsOnly(es: seq<Event>, token: Token, other: Token)
    requires OnlyOwn(es, token) && other.prefix == token.prefix && other != token
    ensures NoneBy(es, other)
  {
  }

  lemma {:induction false} ConcludedStay(s0: State, s: State, es: seq<Event>, b: Batch, outcomes: seq<Outcome>, n: nat,
                                         more: seq<Event>, s': State)
    requires Tracks(s0, es, s, b.joined) && Inv(s) && Tracks(s, more, s', b.joined)
    requires |outcomes| <= n < |b.returned| && |outcomes| <= |b.plans| && Distinct(b.returned)
    requires AllConcluded(s0, s, es, b, outcomes) && OnlyOwn(more, TokenAt(b, n))
    ensures AllConcluded(s0, s', es + more, b, outcomes)
    decreases |outcomes|
  {
    if outcomes != [] {
      var j := |outcomes| - 1;
      ConcludedStay(s0, s, es, b, outcomes[..j], n, more, s');
      OwnStepsOnly(more, TokenAt(b, n), TokenAt(b, j));
      ConcludedLasts(s0, s, es, more, s', TokenAt(b, j), outcomes[j], b.plans[j], BaseOf(b), b.joined, LeftFor(b, j),
                     b.lease);
    }
  }

  lemma {:induction false} ConcludedAt(s0: State, s: State, es: seq<Event>, b: Batch, outcomes: seq<Outcome>, j: nat)
    requires |outcomes| <= |b.returned| && |outcomes| <= |b.plans| && j < |outcomes|
    requires AllConcluded(s0, s, es, b, outcomes)
    ensures Concluded(s0, s, es, TokenAt(b, j), outcomes[j], b.plans[j], BaseOf(b), b.joined, LeftFor(b, j), b.lease)
    decreases |outcomes|
  {
    if j < |outcomes| - 1 { ConcludedAt(s0, s, es, b, outcomes[..|outcomes|-1], j); }
  }

  lemma WaitingStay(s: State, es: seq<Event>, b: Batch, n: nat, end: Time, more: seq<Event>, s': State)
    requires Inv(s) && Tracks(s, more, s', b.joined) && n < |b.returned| && Distinct(b.returned)
    requires AllWait(s, es, b, n, end) && OnlyOwn(more, TokenAt(b, n))
    ensures AllWait(s', es + more, b, n + 1, end)
  {
    forall j | n < j < |b.returned| ensures Waits(s', es + more, TokenAt(b, j), b.lease, end) {
      OwnStepsOnly(more, TokenAt(b, n), TokenAt(b, j));
      WaitsOn(s, es, more, s', TokenAt(b, j), b.lease, end, b.joined);
    }
  }

  /** One more delivery of the batch. */
  ghost predicate Delivery(s: State, more: seq<Event>, s': State, token: Token, o: Outcome,
                           plan: Plan, base: int, joined: bool, lease: Time)
  {
    && Finished(s, more, s', token, joined, plan.course, base, o.status, o.ok)
    && (forall left :: Holds(s, token, left) ==> KeptIfPrompt(more, token, o.status, plan, joined, left, lease))
    && s'.now <= s.now + CourseTime(plan.course)
  }

  lemma TurnConcluded(s0: State, s: State, es: seq<Event>, b: Batch, n: nat, more: seq<Event>, s': State, o: Outcome)
    requires Tracks(s0, es, s, b.joined) && n < |b.returned| && n < |b.plans|
    requires s.now <= s0.now + PlansTime(b.plans[..n]) && Waits(s, es, TokenAt(b, n), b.lease, s0.now + b.lease)
    requires Delivery(s, more, s', TokenAt(b, n), o, b.plans[n], BaseOf(b), b.joined, b.lease)
    ensures Concluded(s0, s', es + more, TokenAt(b, n), o, b.plans[n], BaseOf(b), b.joined, LeftFor(b, n),
                      b.lease)
  {
    Concludes(s0, s, es, more, s', TokenAt(b, n), o, b.plans[n], BaseOf(b), b.joined, LeftFor(b, n), b.lease,
              s0.now + b.lease);
  }

  lemma OneMoreConcluded(s0: State, s: State, es: seq<Event>, b: Batch, outcomes: seq<Outcome>, o: Outcome)
    requires |outcomes| < |b.returned| && |outcomes| < |b.plans| && AllConcluded(s0, s, es, b, outcomes)
    requires var n := |outcomes|;
             Concluded(s0, s, es, TokenAt(b, n), o, b.plans[n], BaseOf(b), b.joined, LeftFor(b, n), b.lease)
    ensures AllConcluded(s0, s, es, b, outcomes + [o])
  {
    assert (outcomes + [o])[..|outcomes|] == outcomes;
  }

  /** A stretch of the batch's run in which only claim n takes steps. */
  ghost predicate Ran(s: State, more: seq<Event>, s': State, b: Batch, n: nat)
    requires n < |b.returned| && n < |b.plans|
  {
    && Tracks(s, more, s', b.joined) && Inv(s')
    && OnlyOwn(more, TokenAt(b, n))
    && s'.now <= s.now + CourseTime(b.plans[n].course)
  }

  /** How the run stands after n deliveries. */
  ghost predicate Tracked(s0: State, s: State, es: seq<Event>, b: Batch, n: nat)
    requires n <= |b.plans|
  {
    Tracks(s0, es, s, b.joined) && Inv(s) && s.now <= s0.now + PlansTime(b.plans[..n])
  }

  lemma TrackedStep(s0: State, s: State, es: seq<Event>, b: Batch, n: nat, more: seq<Event>, s': State)
    requires n < |b.returned| && n < |b.plans| && Tracked(s0, s, es, b, n) && Ran(s, more, s', b, n)
    ensures Tracked(s0, s', es + more, b, n + 1)
  {
    TrackMore(s0, es, s, more, s', b.joined);
    assert b.plans[..n + 1][..n] == b.plans[..n];
  }

  lemma WaitingStep(s0: State, s: State, es: seq<Event>, b: Batch, n: nat, more: seq<Event>, s': State)
    requires n < |b.returned| && n < |b.plans| && Tracked(s0, s, es, b, n) && Ran(s, more, s', b, n)
    requires Distinct(b.returned) && AllWait(s, es, b, n, s0.now + b.lease)
    ensures AllWait(s', es + more, b, n + 1, s0.now + b.lease)
  {
    WaitingStay(s, es, b, n, s0.now + b.lease, more, s');
  }

  lemma ConcludedStep(s0: State, s: State, es: seq<Event>, b: Batch, outcomes: seq<Outcome>, more: seq<Event>,
                      s': State, o: Outcome)
    requires |outcomes| < |b.returned| && |outcomes| < |b.plans| && Distinct(b.returned)
    requires Tracked(s0, s, es, b, |outcomes|) && AllConcluded(s0, s, es, b, outcomes)
    requires AllWait(s, es, b, |outcomes|, s0.now + b.lease)
    requires var n := |outcomes|; Delivery(s, more, s', TokenAt(b, n), o, b.plans[n], BaseOf(b), b.joined, b.lease)
    ensures Ran(s, more, s', b, |outcomes|)
    ensures AllConcluded(s0, s', es + more, b, outcomes + [o])
  {
    ConcludedStay(s0, s, es, b, outcomes, |outcomes|, more, s');
    TurnConcluded(s0, s, es, b, |outcomes|, more, s', o);
    OneMoreConcluded(s0, s', es + more, b, outcomes, o);
  }

  lemma ProgressStep(s0: State, s: State, es: seq<Event>, b: Batch, outcomes: seq<Outcome>, more: seq<Event>, s': State,
                     o: Outcome)
    requires |outcomes| < |b.returned| && |outcomes| < |b.plans| && Distinct(b.returned)
    requires Progress(s0, s, es, b, outcomes)
    requires var n := |outcomes|; Delivery(s, more, s', TokenAt(b, n), o, b.plans[n], BaseOf(b), b.joined, b.lease)
    ensures Progress(s0, s', es + more, b, outcomes + [o])
  {
    ConcludedStep(s0, s, es, b, outcomes, more, s', o);
    TrackedStep(s0, s, es, b, |outcomes|, more, s');
    WaitingStep(s0, s, es, b, |outcomes|, more, s');
  }

  lemma TurnComes(s0: State, s: State, es: seq<Event>, b: Batch, outcomes: seq<Outcome>)
    requires Progress(s0, s, es, b, outcomes) && |outcomes| < |b.returned|
    ensures var t := TokenAt(b, |outcomes|);
            Busy(s, t, b.joined) && Unreported(s, t) && s.holdings[t].lease == b.lease
  {
  }

  /** The handlers run, with one renewal per tick, and `stop` is called. */
  method RunHandlers(db: Database, consumer: Consumer, token: Token, plan: Plan, joined: bool) returns (ok: bool)
    requires Ready(consumer) && Busy(db.state, token, joined) && Unreported(db.state, token)
    modifies db
    ensures ok <==> Succeeds(old(HandlersOf(consumer)), plan.name, plan.results)
    ensures AtStop(old(db.state), db.state, token, plan.course, joined)
  {
    ghost var s0 := db.state;
    RenewWhileRunning(db, token, plan.course.ticks, joined);
    ok := Deliver(consumer, plan.name, plan.results);
    StopRuns(s0, db.state, token, plan.course, joined);
    db.Interleave(plan.course.beforeStop, token, false, joined);
    db.Execute(Stop(token), joined);
  }

  /** One iteration of the batch loop: renew while the handlers run, stop, record one outcome. */
  method DeliverOne(db: Database, consumer: Consumer, token: Token, plan: Plan, base: int, joined: bool)
    returns (o: Outcome, ghost es: seq<Event>)
    requires Ready(consumer) && Busy(db.state, token, joined) && Unreported(db.state, token)
    requires 0 < base < Backoff.TWO63
    modifies db
    ensures token in old(db.state).holdings && o.ok == Succeeds(old(HandlersOf(consumer)), plan.name, plan.results)
    ensures es == DeliverySteps(old(db.state), token, plan.course, o.ok, base, joined)
    ensures Delivery(old(db.state), es, db.state, token, o, plan, base, joined, old(db.state).holdings[token].lease)
  {
    ghost var s0 := db.state;
    var ok := RunHandlers(db, consumer, token, plan, joined);
    var status := Conclude(db, token, ok, plan.course, base, joined, s0);
    o, es := Outcome(status, ok), DeliverySteps(s0, token, plan.course, ok, base, joined);
    DeliveryTakes(s0, token, plan.course, ok, base, joined);
    PromptIsKept(s0, token, plan, ok, base, joined, status);
  }

  lemma PromptIsKept(s: State, token: Token, plan: Plan, ok: bool, base: int, joined: bool, status: Status)
    requires Busy(s, token, joined)
    requires LeasedTo(View(RunAll(s, StepsToReport(s, token, plan.course, joined)), token.row), token) ==>
               !status.ClaimLost?
    ensures var es := DeliverySteps(s, token, plan.course, ok, base, joined);
            forall left :: Holds(s, token, left) ==>
              KeptIfPrompt(es, token, status, plan, joined, left, s.holdings[token].lease)
  {
    forall left | Holds(s, token, left) && Prompt(plan.course, joined, left, s.holdings[token].lease)
      ensures !status.ClaimLost?
      ensures Count(DeliverySteps(s, token, plan.course, ok, base, joined), SendRenewal(token)) == |plan.course.ticks|
    {
      PromptDeliveryKeepsRow(s, token, plan.course, joined, left, StepsToReport(s, token, plan.course, joined));
      OnlyTicksSend(s, token, plan.course, ok, base, joined);
    }
  }

  function Chosen(returned: seq<Id>): set<Id> {
    set id | id in returned
  }

  lemma ClaimTracks(s: State, e: Event, joined: bool)
    requires Inv(s) && Enabled(s, e, joined)
    ensures Tracks(s, [e], Step(s, e), joined) && Inv(Step(s, e))
  {
    StepKeepsInv(s, e, joined);
    RunOne(s, e, joined);
  }

  lemma ClaimedHolds(s: State, e: Event, id: Id, joined: bool)
    requires Inv(s) && e.ClaimBatch? && Enabled(s, e, joined) && id in e.chosen
    ensures Holds(Step(s, e), Token(e.prefix, id), e.lease)
  {
    assert RowOk(s, id);
    SelectedIsFresh(s, e, id);
    SelectedIsLeased(s, e, id);
    StepKeepsInv(s, e, joined);
    ClockStep(s, e);
  }

  lemma WaitsFrom(s: State, e: Event, token: Token, lease: Time)
    requires Fresh(s, token) && s.holdings[token].lease == lease && Holds(s, token, lease) && e.ClaimBatch?
    ensures Waits(s, [e], token, lease, s.now + lease)
  {
    NoReports([e], token);
    CountNone([e], SendRenewal(token));
    CountNone([e], RunRenewal(token));
  }

  lemma AllClaimed(s: State, e: Event, b: Batch)
    requires Inv(s) && e.ClaimBatch? && Enabled(s, e, b.joined) && e.chosen == Chosen(b.returned)
    requires e.prefix == b.prefix && e.lease == b.lease
    ensures AllWait(Step(s, e), [e], b, 0, s.now + b.lease)
  {
    var s' := Step(s, e);
    ClockStep(s, e);
    forall j | 0 <= j < |b.returned| ensures Waits(s', [e], TokenAt(b, j), b.lease, s.now + b.lease) {
      assert b.returned[j] in e.chosen;
      SelectedIsFresh(s, e, b.returned[j]);
      ClaimedHolds(s, e, b.returned[j], b.joined);
      WaitsFrom(s', e, TokenAt(b, j), b.lease);
    }
  }

  function ClaimOf(b: Batch, skipped: set<Id>, size: int): Event {
    ClaimBatch(b.prefix, Chosen(b.returned), skipped, size, b.lease)
  }

  lemma BatchBegins(s: State, e: Event, b: Batch)
    requires Inv(s) && e.ClaimBatch? && Enabled(s, e, b.joined) && e.chosen == Chosen(b.returned)
    requires e.prefix == b.prefix && e.lease == b.lease
    ensures Progress(s, Step(s, e), [e], b, [])
  {
    ClaimTracks(s, e, b.joined);
    AllClaimed(s, e, b);
    ClockStep(s, e);
  }

  /** The claim statement: every row it returns starts a fresh claim that holds it for the lease. */
  method ClaimRows(db: Database, b: Batch, skipped: set<Id>, size: int) returns (ghost es: seq<Event>)
    requires Inv(db.state) && Enabled(db.state, ClaimOf(b, skipped, size), b.joined)
    modifies db
    ensures Progress(old(db.state), db.state, es, b, [])
  {
    var claim := ClaimOf(b, skipped, size);
    BatchBegins(db.state, claim, b);
    db.Execute(claim, b.joined);
    es := [claim];
  }

  /** Nothing follows a crash. */
  predicate CrashLast(outcomes: seq<Outcome>, crashed: bool) {
    && (forall i :: 0 <= i < |outcomes| - 1 ==> !outcomes[i].status.Crashed?)
    && (crashed <==> outcomes != [] && outcomes[|outcomes|-1].status.Crashed?)
  }

  function Oks(outcomes: seq<Outcome>): seq<bool> {
    seq(|outcomes|, j requires 0 <= j < |outcomes| => outcomes[j].ok)
  }

  /** Which deliveries succeed. */
  ghost function Successes(handlers: Handlers, plans: seq<Plan>): seq<bool> {
    if plans == [] then []
    else
      var plan := plans[|plans|-1];
      Successes(handlers, plans[..|plans|-1]) + [Succeeds(handlers, plan.name, plan.results)]
  }

  lemma OneMoreOutcome(outcomes: seq<Outcome>, o: Outcome)
    requires CrashLast(outcomes, false)
    ensures CrashLast(outcomes + [o], o.status.Crashed?) && Oks(outcomes + [o]) == Oks(outcomes) + [o.ok]
  {
  }

  /** The row whose turn it is. */
  method DeliverTurn(db: Database, b: Batch, n: nat, ghost s0: State, ghost es: seq<Event>,
                     ghost outcomes: seq<Outcome>)
    returns (o: Outcome, ghost more: seq<Event>)
    requires Ready(b.consumer) && Progress(s0, db.state, es, b, outcomes) && n == |outcomes|
    requires n < |b.plans| <= |b.returned| && b.backoff < Backoff.TWO63
    modifies db
    ensures Delivery(old(db.state), more, db.state, TokenAt(b, n), o, b.plans[n], BaseOf(b), b.joined, b.lease)
    ensures o.ok == Succeeds(old(HandlersOf(b.consumer)), b.plans[n].name, b.plans[n].results)
  {
    TurnComes(s0, db.state, es, b, outcomes);
    o, more := DeliverOne(db, b.consumer, TokenAt(b, n), b.plans[n], BaseOf(b), b.joined);
  }

  /** Delivers it, and keeps the account of the batch. */
  method DeliverAccounted(db: Database, b: Batch, ghost s0: State, ghost es: seq<Event>, outcomes: seq<Outcome>)
    returns (o: Outcome, ghost es': seq<Event>)
    requires Ready(b.consumer) && Progress(s0, db.state, es, b, outcomes)
    requires |outcomes| < |b.plans| <= |b.returned| && Distinct(b.returned) && b.backoff < Backoff.TWO63
    modifies db
    ensures Progress(s0, db.state, es', b, outcomes + [o])
    ensures var plan := b.plans[|outcomes|]; o.ok == Succeeds(old(HandlersOf(b.consumer)), plan.name, plan.results)
  {
    ghost var before, more := db.state, [];
    o, more := DeliverTurn(db, b, |outcomes|, s0, es, outcomes);
    ProgressStep(s0, before, es, b, outcomes, more, db.state, o);
    es' := es + more;
  }

  /** The account of a batch: how far it is, and that each row is judged by what its handlers returned. */
  ghost predicate Account(s0: State, s: State, es: seq<Event>, b: Batch, outcomes: seq<Outcome>, handlers: Handlers,
                          crashed: bool)
  {
    && Progress(s0, s, es, b, outcomes)
    && Oks(outcomes) == Successes(handlers, b.plans[..|outcomes|])
    && CrashLast(outcomes, crashed)
  }

  lemma AccountOn(s0: State, s: State, es: seq<Event>, b: Batch, outcomes: seq<Outcome>, handlers: Handlers, o: Outcome)
    requires |outcomes| < |b.plans| && CrashLast(outcomes, false)
    requires Oks(outcomes) == Successes(handlers, b.plans[..|outcomes|])
    requires o.ok == Succeeds(handlers, b.plans[|outcomes|].name, b.plans[|outcomes|].results)
    requires Progress(s0, s, es, b, outcomes + [o])
    ensures Account(s0, s, es, b, outcomes + [o], handlers, o.status.Crashed?)
  {
    OneMoreOutcome(outcomes, o);
    var n := |outcomes|;
    assert b.plans[..n + 1][..n] == b.plans[..n] && b.plans[..n + 1][n] == b.plans[n];
  }

  /**
   processBatch: whatever happens between any two statements, and whether or not `stop` joins its
   renewals, the batch is a run of the machine. Each row that is reached sends one renewal per tick, and
   gets one outcome statement, or none if that was lost; its status is what the audit trail says; a row
   completes under this claim only if its handlers succeeded; and a claim whose updates all come in time,
   counted from the claim statement, is not lost. A batch that breaks off (fewer plans than rows, or a
   crash) leaves the other rows with their claims and no outcome.
   */
  method ProcessBatch(db: Database, b: Batch, skipped: set<Id>, size: int)
    returns (outcomes: seq<Outcome>, crashed: bool, ghost es: seq<Event>)
    requires Inv(db.state) && Ready(b.consumer) && Serves(b.consumer, db.state.kind)
    requires |b.plans| <= |b.returned| && Distinct(b.returned) && b.backoff < Backoff.TWO63
    requires Enabled(db.state, ClaimOf(b, skipped, size), b.joined)
    modifies db
    ensures Account(old(db.state), db.state, es, b, outcomes, old(HandlersOf(b.consumer)), crashed)
    ensures |outcomes| < |b.plans| ==> crashed
  {
    ghost var s0, handlers := db.state, HandlersOf(b.consumer);
    es := ClaimRows(db, b, skipped, size);
    outcomes, crashed := [], false;
    while |outcomes| < |b.plans| && !crashed
      invariant HandlersOf(b.consumer) == handlers && Account(s0, db.state, es, b, outcomes, handlers, crashed)
    {
      ghost var before := outcomes;
      var o;
      o, es := DeliverAccounted(db, b, s0, es, outcomes);
      outcomes, crashed := outcomes + [o], o.status.Crashed?;
      AccountOn(s0, db.state, es, b, before, handlers, o);
    }
  }

  /** What it says of each row. */
  lemma BatchPromises(s0: State, s: State, es: seq<Event>, b: Batch, outcomes: seq<Outcome>, j: nat)
    requires Progress(s0, s, es, b, outcomes) && j < |b.returned|
    ensures ValidRun(s0, es, b.joined) && s == RunAll(s0, es)
    ensures j < |outcomes| ==>
              && Settled(s0, s, es, TokenAt(b, j), outcomes[j], b.plans[j], BaseOf(b), b.joined)
              && KeptIfPrompt(es, TokenAt(b, j), outcomes[j].status, b.plans[j], b.joined, LeftFor(b, j), b.lease)
    ensures j >= |outcomes| ==>
              var t := TokenAt(b, j); Fresh(s, t) && Reports(es, t) == 0 && Count(es, SendRenewal(t)) == 0
  {
    if j < |outcomes| { ConcludedAt(s0, s, es, b, outcomes, j); }
  }
}

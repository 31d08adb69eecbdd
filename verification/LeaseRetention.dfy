/**
 A worker whose own renewals come in time keeps its claim until its outcome is recorded, whatever others
 do meanwhile: the schedule of a delivery decides, not the state it meets.
 */
module LeaseRetention {
  import opened Common
  import opened LeaseQueue
  import opened LeaseMachine
  import opened LeaseRefinement
  import opened LeaseTheorems
  import opened LeaseDelivery

  // ---------------------------------------------------------------- the time a delivery takes

  function Elapsed(es: seq<Event>): nat {
    if es == [] then 0 else (if es[0].Tick? && es[0].d > 0 then es[0].d else 0) + Elapsed(es[1..])
  }

  /** From the previous renewal, or the start, to the renewal of this tick. */
  function Gap(tick: RenewalTick, joined: bool): nat {
    Elapsed(tick.before) + if Awaited(tick.fate, joined) then Elapsed(tick.during) else 0
  }

  /**
   What is left of the lease after the ticks, `left` being left of it before them; None when a gap uses
   it up. Only a renewal that runs brings it back to the whole lease.
   */
  function Remaining(ticks: seq<RenewalTick>, joined: bool, left: Time, lease: Time): Option<Time> {
    if ticks == [] then Some(left)
    else if Gap(ticks[0], joined) >= left then None
    else
      var next := if Runs(ticks[0].fate, joined) then lease else left - Gap(ticks[0], joined);
      Remaining(ticks[1..], joined, next, lease)
  }

  /** Each update, and the outcome, comes before the lease of the update before it ends. */
  predicate Prompt(course: Course, joined: bool, left: Time, lease: Time) {
    var r := Remaining(course.ticks, joined, left, lease);
    r.Some? && Elapsed(course.beforeStop) + Elapsed(course.beforeReport) < r.value
  }

  lemma ClockStep(s: State, e: Event)
    ensures Step(s, e).now == s.now + if e.Tick? then e.d else 0
  {
  }

  lemma {:induction false} InterleavedTakes(s: State, others: seq<Event>, token: Token, waiting: bool, joined: bool)
    ensures RunAll(s, Interleaved(s, others, token, waiting, joined)).now == s.now + Elapsed(others)
    decreases others
  {
    if others != [] {
      ClockStep(s, others[0]);
      InterleavedTakes(Step(s, others[0]), others[1..], token, waiting, joined);
      InterleavedTakes(s, others[1..], token, waiting, joined);
    }
  }

  // ---------------------------------------------------------------- attempts within one lease

  lemma {:induction false} AttemptsConcat(s: State, a: seq<Event>, b: seq<Event>, id: Id)
    ensures Attempts(s, a + b, id) == Attempts(s, a, id) + Attempts(RunAll(s, a), b, id)
    decreases a
  {
    if a == [] {
      assert a + b == b;
    } else {
      AttemptsConcat(Step(s, a[0]), a[1..], b, id);
      assert (a + b)[0] == a[0] && (a + b)[1..] == a[1..] + b;
      AttemptsHead(s, a, id);
      AttemptsHead(s, a + b, id);
      Associate(AttemptsOf(AttemptOn(s, a[0], id)), Attempts(Step(s, a[0]), a[1..], id), Attempts(RunAll(s, a), b, id));
    }
  }

  lemma Associate(x: seq<Entry>, y: seq<Entry>, z: seq<Entry>)
    ensures x + (y + z) == x + y + z
  {
  }

  lemma AttemptsHead(s: State, es: seq<Event>, id: Id)
    requires es != []
    ensures Attempts(s, es, id) == AttemptsOf(AttemptOn(s, es[0], id)) + Attempts(Step(s, es[0]), es[1..], id)
  {
  }

  lemma AttemptsCons(s: State, e: Event, es: seq<Event>, id: Id)
    ensures Attempts(s, [e] + es, id) == AttemptsOf(AttemptOn(s, e, id)) + Attempts(Step(s, e), es, id)
  {
    assert ([e] + es)[1..] == es;
  }

  /** An attempt made before `end` that keeps the claim; the claim's own updates take the lease past `end`. */
  ghost predicate Harmless(a: Entry, token: Token, lease: Time, end: Time) {
    && a.at < end
    && !GivesUp(a.action, token)
    && (a.action.Renew? && a.action.token == token ==> a.action.until == a.at + lease >= end)
  }

  ghost predicate AllHarmless(attempts: seq<Entry>, token: Token, lease: Time, end: Time) {
    forall i :: 0 <= i < |attempts| ==> Harmless(attempts[i], token, lease, end)
  }

  /** Up to where attempts that are covered up to `end` provide; None if they are not covered. */
  function CoverEnd(a: seq<Entry>, token: Token, lease: Time, end: Time): Option<Time>
    decreases a
  {
    if a == [] then Some(end)
    else if a[0].at >= end || GivesUp(a[0].action, token) then None
    else if a[0].action.Renew? && a[0].action.token == token then
      if a[0].action.until == a[0].at + lease then CoverEnd(a[1..], token, lease, a[0].at + lease) else None
    else CoverEnd(a[1..], token, lease, end)
  }

  lemma {:induction false} CoverEndCovers(a: seq<Entry>, token: Token, lease: Time, end: Time)
    ensures CoverEnd(a, token, lease, end).Some? <==> Covered(a, token, lease, end)
    decreases a
  {
    if a != [] {
      CoverEndCovers(a[1..], token, lease, end);
      CoverEndCovers(a[1..], token, lease, a[0].at + lease);
    }
  }

  lemma {:induction false} CoverEndConcat(a: seq<Entry>, b: seq<Entry>, token: Token, lease: Time, end: Time)
    ensures CoverEnd(a + b, token, lease, end) == match CoverEnd(a, token, lease, end)
                                                  case Some(e) => CoverEnd(b, token, lease, e)
                                                  case None => None
    decreases a
  {
    if a == [] {
      assert a + b == b;
    } else {
      assert (a + b)[0] == a[0] && (a + b)[1..] == a[1..] + b;
      CoverEndConcat(a[1..], b, token, lease, end);
      CoverEndConcat(a[1..], b, token, lease, a[0].at + lease);
    }
  }

  /** Covered up to `end`, attempts provide at least up to `end'`. */
  predicate Provides(a: seq<Entry>, token: Token, lease: Time, end: Time, end': Time) {
    CoverEnd(a, token, lease, end).Some? && CoverEnd(a, token, lease, end).value >= end'
  }

  lemma {:induction false} LongerCover(a: seq<Entry>, token: Token, lease: Time, end: Time, end': Time, longer: Time)
    requires Provides(a, token, lease, end, end') && end <= longer
    ensures Provides(a, token, lease, longer, end')
    decreases a
  {
    if a != [] {
      var renews := a[0].action.Renew? && a[0].action.token == token;
      LongerCover(a[1..], token, lease, if renews then a[0].at + lease else end, end',
                  if renews then a[0].at + lease else longer);
    }
  }

  lemma ProvidesConcat(a: seq<Entry>, b: seq<Entry>, token: Token, lease: Time, end: Time, end1: Time, end2: Time)
    requires Provides(a, token, lease, end, end1) && Provides(b, token, lease, end1, end2)
    ensures Provides(a + b, token, lease, end, end2)
  {
    CoverEndConcat(a, b, token, lease, end);
    LongerCover(b, token, lease, end1, end2, CoverEnd(a, token, lease, end).value);
  }

  /** Harmless attempts do not take what is provided back. */
  lemma {:induction false} HarmlessProvides(a: seq<Entry>, token: Token, lease: Time, end: Time, now: Time)
    requires AllHarmless(a, token, lease, end) && end <= now
    ensures Provides(a, token, lease, now, end)
    decreases a
  {
    if a != [] {
      assert Harmless(a[0], token, lease, end);
      var renews := a[0].action.Renew? && a[0].action.token == token;
      HarmlessProvides(a[1..], token, lease, end, if renews then a[0].at + lease else now);
    }
  }

  lemma AttemptHarmless(s: State, e: Event, token: Token, end: Time, start: Time)
    requires token in s.holdings && !(e.Report? && e.token == token) && AttemptOn(s, e, token.row).Some?
    requires start <= s.now < end <= start + s.holdings[token].lease
    ensures Harmless(AttemptOn(s, e, token.row).value, token, s.holdings[token].lease, end)
  {
  }

  /** What is attempted before the clock reaches `end`, the claim's outcome apart. */
  lemma {:induction false} RunHarmless(s: State, es: seq<Event>, token: Token, end: Time, start: Time, joined: bool)
    requires Inv(s) && ValidRun(s, es, joined) && token in s.holdings && NoOutcome(es, token)
    requires start <= s.now && RunAll(s, es).now < end <= start + s.holdings[token].lease
    ensures AllHarmless(Attempts(s, es, token.row), token, s.holdings[token].lease, end)
    decreases es
  {
    if es != [] {
      var e, s' := es[0], Step(s, es[0]);
      AttemptsWithin(s, es, joined, token);
      if AttemptOn(s, e, token.row).Some? { AttemptHarmless(s, e, token, end, start); }
      HoldingKept(s, e, token, joined);
      StepKeepsInv(s, e, joined);
      ClockStep(s, e);
      RunHarmless(s', es[1..], token, end, start, joined);
    }
  }

  lemma HoldingKept(s: State, e: Event, token: Token, joined: bool)
    requires HoldingsOk(s) && Enabled(s, e, joined) && token in s.holdings
    ensures token in Step(s, e).holdings && Step(s, e).holdings[token].lease == s.holdings[token].lease
  {
    if e.ClaimBatch? {
      ClaimLeavesHolding(s, e.prefix, e.chosen, e.lease, token);
    }
  }

  /** The claim is held with at least `left` of its lease to go. */
  ghost predicate Holds(s: State, token: Token, left: Time) {
    && token in s.holdings
    && LeasedTo(View(s, token.row), token)
    && View(s, token.row).until >= s.now + left && left > 0
  }

  /** A stretch shorter than what is left of the lease. */
  lemma StretchHolds(s: State, es: seq<Event>, s': State, token: Token, left: Time, joined: bool)
    requires Inv(s) && Holds(s, token, left) && ValidRun(s, es, joined) && s' == RunAll(s, es) && NoOutcome(es, token)
    requires s.now <= s'.now < s.now + left
    ensures token in s'.holdings && s'.holdings[token].lease == s.holdings[token].lease
    ensures Holds(s', token, left - (s'.now - s.now))
    ensures AllHarmless(Attempts(s, es, token.row), token, s.holdings[token].lease, s.now + left)
  {
    var id := token.row;
    assert RowOk(s, id);
    RunRefines(s, es, id, joined);
    AttemptsWithin(s, es, joined, token);
    HeldUntilEnd(View(s, id), Attempts(s, es, id), token, View(s, id).until);
    RunHarmless(s, es, token, s.now + left, s.now, joined);
    LeaseKept(s, es, token, joined);
  }

  lemma {:induction false} LeaseKept(s: State, es: seq<Event>, token: Token, joined: bool)
    requires Inv(s) && ValidRun(s, es, joined) && token in s.holdings
    ensures token in RunAll(s, es).holdings && RunAll(s, es).holdings[token].lease == s.holdings[token].lease
    decreases es
  {
    if es != [] {
      HoldingKept(s, es[0], token, joined);
      StepKeepsInv(s, es[0], joined);
      LeaseKept(Step(s, es[0]), es[1..], token, joined);
    }
  }

  /** A renewal that runs while the claim is held matches its row and gives it a whole lease again. */
  lemma RenewalHolds(s: State, token: Token, left: Time, joined: bool)
    requires Inv(s) && Holds(s, token, left) && Enabled(s, RunRenewal(token), joined)
    ensures RenewalMatches(s, token)
    ensures var s', lease := Step(s, RunRenewal(token)), s.holdings[token].lease;
            && Holds(s', token, lease)
            && View(s', token.row).until == s.now + lease
            && s'.now == s.now
            && s'.holdings[token].lease == lease
            && AttemptOn(s, RunRenewal(token), token.row) == Some(Entry(s.now, LeaseQueue.Renew(token, s.now + lease)))
  {
    assert RowOk(s, token.row);
  }

  // ---------------------------------------------------------------- prompt deliveries

  lemma {:induction false} NoReportNoOutcome(es: seq<Event>, token: Token)
    requires Reports(es, token) == 0
    ensures NoOutcome(es, token)
    decreases es
  {
    if es != [] {
      var n := |es| - 1;
      NoReportNoOutcome(es[..n], token);
      assert forall i :: 0 <= i < n ==> es[i] == es[..n][i];
    }
  }

  lemma UpToRenewalTakes(s: State, token: Token, tick: RenewalTick, joined: bool)
    ensures RunAll(s, UpToRenewal(s, token, tick, joined)).now == s.now + Gap(tick, joined)
  {
    var before := Interleaved(s, tick.before, token, false, joined);
    InterleavedTakes(s, tick.before, token, false, joined);
    RunConcat(s, before, [SendRenewal(token)], joined);
    RunOne(RunAll(s, before), SendRenewal(token), joined);
    var sent := Sent(s, token, tick, joined);
    ClockStep(RunAll(s, before), SendRenewal(token));
    InterleavedTakes(RunAll(s, sent), tick.during, token, true, joined);
    RunConcat(s, sent, Interleaved(RunAll(s, sent), tick.during, token, true, joined), joined);
  }

  /** A part of a delivery over which the claim is held, from `left` of its lease to `left'` of it. */
  ghost predicate Keeps(s: State, es: seq<Event>, s': State, token: Token, left: Time, left': Time) {
    && Holds(s, token, left) && Holds(s', token, left') && s' == RunAll(s, es)
    && s'.holdings[token].lease == s.holdings[token].lease
    && Provides(Attempts(s, es, token.row), token, s.holdings[token].lease, s.now + left, s'.now + left')
  }

  lemma KeepsConcat(s: State, a: seq<Event>, s1: State, b: seq<Event>, s2: State, token: Token, left: Time, left1: Time,
                    left2: Time)
    requires Keeps(s, a, s1, token, left, left1) && Keeps(s1, b, s2, token, left1, left2)
    ensures Keeps(s, a + b, s2, token, left, left2)
  {
    RunConcat(s, a, b, true);
    AttemptsConcat(s, a, b, token.row);
    ProvidesConcat(Attempts(s, a, token.row), Attempts(s1, b, token.row), token, s.holdings[token].lease, s.now + left,
                   s1.now + left1, s2.now + left2);
  }

  /** A stretch of steps without the claim's outcome, shorter than what is left. */
  lemma StretchKeeps(s: State, es: seq<Event>, s': State, token: Token, left: Time, joined: bool)
    requires Inv(s) && Holds(s, token, left) && ValidRun(s, es, joined) && s' == RunAll(s, es) && NoOutcome(es, token)
    requires s.now <= s'.now < s.now + left
    ensures Keeps(s, es, s', token, left, left - (s'.now - s.now))
  {
    StretchHolds(s, es, s', token, left, joined);
    HarmlessProvides(Attempts(s, es, token.row), token, s.holdings[token].lease, s.now + left, s.now + left);
  }

  lemma RenewalKeeps(s: State, token: Token, left: Time, joined: bool)
    requires Inv(s) && Holds(s, token, left) && Enabled(s, RunRenewal(token), joined)
    ensures RenewalMatches(s, token)
    ensures Keeps(s, [RunRenewal(token)], Step(s, RunRenewal(token)), token, left, s.holdings[token].lease)
  {
    var e, lease := RunRenewal(token), s.holdings[token].lease;
    RunOne(s, e, joined);
    RenewalHolds(s, token, left, joined);
    AttemptsCons(s, e, [], token.row);
    assert [e] + [] == [e];
    var renewal := Entry(s.now, LeaseQueue.Renew(token, s.now + lease));
    assert Attempts(s, [e], token.row) == [renewal];
    assert [renewal][1..] == [];
  }

  function LeftAfter(tick: RenewalTick, joined: bool, left: Time, lease: Time): Time {
    if Runs(tick.fate, joined) then lease else left - Gap(tick, joined)
  }

  /** A part of a delivery that takes less time than what is left. */
  lemma CarriedKeeps(s: State, es: seq<Event>, s': State, token: Token, left: Time, gap: nat, joined: bool)
    requires Inv(s) && Holds(s, token, left) && Carried(s, es, s', token, joined)
    requires s'.now == s.now + gap && gap < left
    ensures Keeps(s, es, s', token, left, left - gap)
  {
    NoReportNoOutcome(es, token);
    StretchKeeps(s, es, s', token, left, joined);
  }

  lemma GapKeeps(s: State, token: Token, tick: RenewalTick, joined: bool, left: Time)
    requires Working(s, token) && Holds(s, token, left) && Gap(tick, joined) < left
    ensures var es := UpToRenewal(s, token, tick, joined);
            Keeps(s, es, RunAll(s, es), token, left, left - Gap(tick, joined))
  {
    var es := UpToRenewal(s, token, tick, joined);
    UpToRenewalCarries(s, token, tick, joined);
    UpToRenewalTakes(s, token, tick, joined);
    CarriedKeeps(s, es, RunAll(s, es), token, left, Gap(tick, joined), joined);
  }

  lemma GapWorks(s: State, token: Token, tick: RenewalTick, joined: bool)
    requires Working(s, token)
    ensures var s' := RunAll(s, UpToRenewal(s, token, tick, joined));
            Working(s', token) && s'.holdings[token].inFlight >= 1
  {
    UpToRenewalCarries(s, token, tick, joined);
  }

  lemma AnswerKeeps(s: State, token: Token, tick: RenewalTick, joined: bool, left: Time)
    requires Working(s, token) && Holds(s, token, left) && s.holdings[token].inFlight >= 1
    ensures Runs(tick.fate, joined) ==> RenewalMatches(s, token)
    ensures var es := Answer(token, tick, joined);
            Keeps(s, es, RunAll(s, es), token, left,
                  if Runs(tick.fate, joined) then s.holdings[token].lease else left)
  {
    if Runs(tick.fate, joined) {
      RenewalKeeps(s, token, left, joined);
      RunOne(s, RunRenewal(token), joined);
    } else if Answer(token, tick, joined) == [] {
      NothingKeeps(s, token, left);
    } else {
      LossKeeps(s, token, left, joined);
    }
  }

  /** A tick whose gap is shorter than what is left: if its renewal runs, it finds the row still claimed. */
  lemma TickKeeps(s: State, token: Token, tick: RenewalTick, joined: bool, left: Time)
    requires Working(s, token) && Holds(s, token, left) && Gap(tick, joined) < left
    ensures !ClaimGone(s, token, tick, joined)
    ensures var es := TickSteps(s, token, tick, joined);
            Keeps(s, es, RunAll(s, es), token, left, LeftAfter(tick, joined, left, s.holdings[token].lease))
  {
    var start, answer := UpToRenewal(s, token, tick, joined), Answer(token, tick, joined);
    var s1, left1 := RunAll(s, start), left - Gap(tick, joined);
    GapKeeps(s, token, tick, joined, left);
    GapWorks(s, token, tick, joined);
    AnswerKeeps(s1, token, tick, joined, left1);
    RunConcat(s, start, answer, joined);
    KeepsConcat(s, start, s1, answer, RunAll(s1, answer), token, left, left1,
                if Runs(tick.fate, joined) then s1.holdings[token].lease else left1);
  }

  lemma LossKeeps(s: State, token: Token, left: Time, joined: bool)
    requires Inv(s) && Holds(s, token, left) && Enabled(s, LoseRenewal(token), joined)
    ensures Keeps(s, [LoseRenewal(token)], RunAll(s, [LoseRenewal(token)]), token, left, left)
  {
    RunOne(s, LoseRenewal(token), joined);
    ClockStep(s, LoseRenewal(token));
    StretchKeeps(s, [LoseRenewal(token)], Step(s, LoseRenewal(token)), token, left, joined);
  }

  /** The whole renewal loop: every tick is handled. */
  lemma {:induction false} TicksKeep(s: State, token: Token, ticks: seq<RenewalTick>, joined: bool, left: Time)
    requires Working(s, token) && Holds(s, token, left)
    requires Remaining(ticks, joined, left, s.holdings[token].lease).Some?
    ensures var es := RenewalSteps(s, token, ticks, joined);
            && Count(es, SendRenewal(token)) == |ticks|
            && Keeps(s, es, RunAll(s, es), token, left, Remaining(ticks, joined, left, s.holdings[token].lease).value)
    decreases ticks
  {
    if ticks == [] {
      NothingCarries(s, token, true);
      NothingKeeps(s, token, left);
    } else {
      var es, lease := TickSteps(s, token, ticks[0], joined), s.holdings[token].lease;
      var s1, left1 := RunAll(s, es), LeftAfter(ticks[0], joined, left, lease);
      TickCarries(s, token, ticks[0], joined);
      TickKeeps(s, token, ticks[0], joined, left);
      TicksKeep(s1, token, ticks[1..], joined, left1);
      var more := RenewalSteps(s1, token, ticks[1..], joined);
      CountConcat(es, more, SendRenewal(token));
      KeepsConcat(s, es, s1, more, RunAll(s1, more), token, left, left1,
                  Remaining(ticks[1..], joined, left1, lease).value);
    }
  }

  lemma NothingKeeps(s: State, token: Token, left: Time)
    requires Holds(s, token, left)
    ensures Keeps(s, [], s, token, left, left)
  {
    forall rest: seq<Entry> ensures [] + rest == rest { }
  }

  lemma InterleavedKeeps(s: State, others: seq<Event>, token: Token, joined: bool, left: Time)
    requires Inv(s) && Holds(s, token, left) && Elapsed(others) < left
    ensures var es := Interleaved(s, others, token, false, joined);
            Keeps(s, es, RunAll(s, es), token, left, left - Elapsed(others))
  {
    var es := Interleaved(s, others, token, false, joined);
    InterleavedCarries(s, others, token, false, joined);
    InterleavedTakes(s, others, token, false, joined);
    NoReportNoOutcome(es, token);
    StretchKeeps(s, es, RunAll(s, es), token, left, joined);
  }

  /** What others do next, after a part over which the claim is held. */
  lemma BetweenKeeps(s: State, es: seq<Event>, others: seq<Event>, token: Token, joined: bool, left: Time, left1: Time)
    requires Inv(RunAll(s, es)) && Keeps(s, es, RunAll(s, es), token, left, left1) && Elapsed(others) < left1
    ensures var all := Between(s, es, others, token, false, joined);
            && Inv(RunAll(s, all)) && Keeps(s, all, RunAll(s, all), token, left, left1 - Elapsed(others))
            && Count(all, SendRenewal(token)) == Count(es, SendRenewal(token))
  {
    var s1 := RunAll(s, es);
    InterleavedKeeps(s1, others, token, joined, left1);
    InterleavedCarries(s1, others, token, false, joined);
    var more := Interleaved(s1, others, token, false, joined);
    KeepsConcat(s, es, s1, more, RunAll(s1, more), token, left, left1, left1 - Elapsed(others));
    RunConcat(s, es, more, joined);
    CountConcat(es, more, SendRenewal(token));
  }

  lemma StopKeeps(s: State, es: seq<Event>, token: Token, joined: bool, left: Time, left1: Time)
    requires Inv(RunAll(s, es)) && Keeps(s, es, RunAll(s, es), token, left, left1)
    requires Enabled(RunAll(s, es), Stop(token), joined)
    ensures var all := es + [Stop(token)];
            && Inv(RunAll(s, all)) && Keeps(s, all, RunAll(s, all), token, left, left1)
            && Count(all, SendRenewal(token)) == Count(es, SendRenewal(token))
  {
    var s1 := RunAll(s, es);
    RunOne(s1, Stop(token), joined);
    ClockStep(s1, Stop(token));
    StepKeepsInv(s1, Stop(token), joined);
    StretchKeeps(s1, [Stop(token)], Step(s1, Stop(token)), token, left1, joined);
    KeepsConcat(s, es, s1, [Stop(token)], Step(s1, Stop(token)), token, left, left1, left1);
    RunConcat(s, es, [Stop(token)], joined);
    CountConcat(es, [Stop(token)], SendRenewal(token));
    CountNone([Stop(token)], SendRenewal(token));
  }

  /** From the renewals on: others, `stop`, and others again. */
  lemma RestKeeps(s: State, a: seq<Event>, token: Token, course: Course, joined: bool, left: Time, r: Time)
    requires Inv(RunAll(s, a)) && Keeps(s, a, RunAll(s, a), token, left, r)
    requires Elapsed(course.beforeStop) + Elapsed(course.beforeReport) < r
    requires Enabled(RunAll(s, Between(s, a, course.beforeStop, token, false, joined)), Stop(token), joined)
    ensures var stopped := Between(s, a, course.beforeStop, token, false, joined) + [Stop(token)];
            var es := Between(s, stopped, course.beforeReport, token, false, joined);
            && Keeps(s, es, RunAll(s, es), token, left, r - Elapsed(course.beforeStop) - Elapsed(course.beforeReport))
            && Count(es, SendRenewal(token)) == Count(a, SendRenewal(token))
  {
    var r1 := r - Elapsed(course.beforeStop);
    var b := Between(s, a, course.beforeStop, token, false, joined);
    BetweenKeeps(s, a, course.beforeStop, token, joined, left, r);
    StopKeeps(s, b, token, joined, left, r1);
    BetweenKeeps(s, b + [Stop(token)], course.beforeReport, token, joined, left, r1);
  }

  lemma MayStop(s: State, token: Token, course: Course, joined: bool)
    requires Busy(s, token, joined)
    ensures var a := RenewalSteps(s, token, course.ticks, joined);
            && Inv(RunAll(s, a))
            && Enabled(RunAll(s, Between(s, a, course.beforeStop, token, false, joined)), Stop(token), joined)
  {
    RenewalsRenew(s, token, course.ticks, joined);
    StopEnabled(s, token, course, joined);
  }

  lemma StepsFromRenewals(s: State, token: Token, course: Course, joined: bool, a: seq<Event>)
    requires a == RenewalSteps(s, token, course.ticks, joined)
    ensures var stopped := Between(s, a, course.beforeStop, token, false, joined) + [Stop(token)];
            StepsToReport(s, token, course, joined) == Between(s, stopped, course.beforeReport, token, false, joined)
  {
  }

  lemma ToReportKeeps(s: State, token: Token, course: Course, joined: bool, left: Time, es: seq<Event>, r: Time)
    requires Busy(s, token, joined) && Holds(s, token, left) && Prompt(course, joined, left, s.holdings[token].lease)
    requires es == StepsToReport(s, token, course, joined)
    requires r == Remaining(course.ticks, joined, left, s.holdings[token].lease).value
    ensures Keeps(s, es, RunAll(s, es), token, left, r - Elapsed(course.beforeStop) - Elapsed(course.beforeReport))
    ensures Count(es, SendRenewal(token)) == |course.ticks|
  {
    var a := RenewalSteps(s, token, course.ticks, joined);
    TicksKeep(s, token, course.ticks, joined, left);
    MayStop(s, token, course, joined);
    StepsFromRenewals(s, token, course, joined, a);
    RestKeeps(s, a, token, course, joined, left, r);
  }

  lemma PromptIsCovered(s: State, token: Token, course: Course, joined: bool, left: Time, es: seq<Event>)
    requires Busy(s, token, joined) && Holds(s, token, left) && Prompt(course, joined, left, s.holdings[token].lease)
    requires es == StepsToReport(s, token, course, joined)
    ensures Covered(Attempts(s, es, token.row), token, s.holdings[token].lease, View(s, token.row).until)
    ensures Count(es, SendRenewal(token)) == |course.ticks|
  {
    var r := Remaining(course.ticks, joined, left, s.holdings[token].lease).value;
    ToReportKeeps(s, token, course, joined, left, es, r);
    CoverEnds(Attempts(s, es, token.row), token, s.holdings[token].lease, s.now + left,
              RunAll(s, es).now + r - Elapsed(course.beforeStop) - Elapsed(course.beforeReport),
              View(s, token.row).until);
  }

  lemma ReportRuns(s: State, token: Token, course: Course, joined: bool, es: seq<Event>)
    requires Busy(s, token, joined) && es == StepsToReport(s, token, course, joined)
    ensures ValidRun(s, es, joined)
  {
    ReportReached(s, token, course, joined);
  }

  /**
   A prompt delivery: the attempts on its row, its own and everyone else's, are covered, so that the row
   is still claimed by the token when the outcome statement runs, every tick has sent its renewal, and
   nothing but the claim's own renewals has had an effect on the row.
   */
  lemma PromptDeliveryKeepsRow(s: State, token: Token, course: Course, joined: bool, left: Time, es: seq<Event>)
    requires Busy(s, token, joined) && Holds(s, token, left) && Prompt(course, joined, left, s.holdings[token].lease)
    requires es == StepsToReport(s, token, course, joined)
    ensures Covered(Attempts(s, es, token.row), token, s.holdings[token].lease, View(s, token.row).until)
    ensures LeasedTo(View(RunAll(s, es), token.row), token) && Count(es, SendRenewal(token)) == |course.ticks|
    ensures var h, h' := Trail(s, token.row), Trail(RunAll(s, es), token.row);
            forall i :: |h| <= i < |h'| ==> h'[i].action.Renew? && h'[i].action.token == token
  {
    PromptIsCovered(s, token, course, joined, left, es);
    ReportRuns(s, token, course, joined, es);
    HandlerKeepsRow(s, es, joined, token);
  }

  lemma CoverEnds(a: seq<Entry>, token: Token, lease: Time, end: Time, end': Time, until: Time)
    requires Provides(a, token, lease, end, end') && end <= until
    ensures Covered(a, token, lease, until)
  {
    LongerCover(a, token, lease, end, end', until);
    CoverEndCovers(a, token, lease, until);
  }
}

/**
 One delivery as a run of the machine: the worker's own statements in their order, with whatever others
 do between any two of them. The worker that runs these steps is in LeaseWorkers.
 */
module LeaseDelivery {
  import opened Common
  import opened LeaseQueue
  import opened LeaseMachine
  import opened LeaseRefinement
  import Backoff

  // ---------------------------------------------------------------- what happens around a delivery

  /**
   What becomes of a renewal: it runs, it is lost, or its answer is not waited for and it may run at
   any later time, which a `stop` that joins rules out.
   */
  datatype Fate = Ran | Lost | Left
  datatype RenewalTick = RenewalTick(before: seq<Event>, during: seq<Event>, fate: Fate)

  /** Whether the outcome statement is answered; if not, whether it ran. */
  datatype Reply = Answered | Silent(ran: bool)

  /** The ticks while the handlers run, the random draw for a retry, and what others do, all of it arbitrary. */
  datatype Course = Course(ticks: seq<RenewalTick>, beforeStop: seq<Event>, beforeReport: seq<Event>, draw: nat,
                           reply: Reply, after: seq<Event>)

  /** What may happen between two statements of a batch: anything but the batch's own next statements. */
  predicate Foreign(e: Event, prefix: nat) {
    match e
    case ClaimBatch(p, _, _, _, _) => p != prefix
    case SendRenewal(t) => t.prefix != prefix
    case Stop(t) => t.prefix != prefix
    case Report(t, _, _) => t.prefix != prefix
    case _ => true
  }

  ghost predicate AllForeign(es: seq<Event>, prefix: nat) {
    forall i :: 0 <= i < |es| ==> Foreign(es[i], prefix)
  }

  /** A renewal whose answer is waited for is the worker's own statement; only earlier ones may run meanwhile. */
  predicate MayIntervene(s: State, e: Event, token: Token, waiting: bool) {
    && Foreign(e, token.prefix)
    && (waiting && (e == RunRenewal(token) || e == LoseRenewal(token)) && token in s.holdings ==>
          s.holdings[token].inFlight > 1)
  }

  /** Of what happens in between, each statement that can run does, in the order given; the rest never happen. */
  function Interleaved(s: State, others: seq<Event>, token: Token, waiting: bool, joined: bool): seq<Event>
    decreases others
  {
    if others == [] then []
    else if Enabled(s, others[0], joined) && MayIntervene(s, others[0], token, waiting)
    then [others[0]] + Interleaved(Step(s, others[0]), others[1..], token, waiting, joined)
    else Interleaved(s, others[1..], token, waiting, joined)
  }

  function Between(s: State, es: seq<Event>, others: seq<Event>, token: Token, waiting: bool, joined: bool): seq<Event>
  {
    es + Interleaved(RunAll(s, es), others, token, waiting, joined)
  }

  // ---------------------------------------------------------------- the steps of a delivery

  /** A `stop` that joins waits for every answer. */
  predicate Awaited(fate: Fate, joined: bool) {
    joined || !fate.Left?
  }

  predicate Runs(fate: Fate, joined: bool) {
    Awaited(fate, joined) && !fate.Lost?
  }

  function Sent(s: State, token: Token, tick: RenewalTick, joined: bool): seq<Event> {
    Interleaved(s, tick.before, token, false, joined) + [SendRenewal(token)]
  }

  /** One tick up to the moment its renewal reaches the table, if the worker waits for that. */
  function UpToRenewal(s: State, token: Token, tick: RenewalTick, joined: bool): seq<Event> {
    var sent := Sent(s, token, tick, joined);
    if Awaited(tick.fate, joined) then Between(s, sent, tick.during, token, true, joined) else sent
  }

  /** How the renewal ends, as far as the worker sees it. */
  function Answer(token: Token, tick: RenewalTick, joined: bool): seq<Event> {
    if !Awaited(tick.fate, joined) then []
    else if tick.fate.Lost? then [LoseRenewal(token)] else [RunRenewal(token)]
  }

  function TickSteps(s: State, token: Token, tick: RenewalTick, joined: bool): seq<Event> {
    UpToRenewal(s, token, tick, joined) + Answer(token, tick, joined)
  }

  /** RowsAffected() == 1 of a renewal that runs now. */
  predicate RenewalMatches(s: State, token: Token) {
    && token in s.holdings
    && token.row in s.rows
    && !RenewRow(s.rows[token.row], s.now, s.holdings[token].lease, token).NoMatch?
  }

  /** The renewal of the tick ran and found that the claim is no longer there. */
  predicate ClaimGone(s: State, token: Token, tick: RenewalTick, joined: bool) {
    Runs(tick.fate, joined) && !RenewalMatches(RunAll(s, UpToRenewal(s, token, tick, joined)), token)
  }

  /** One renewal per tick, until the handlers are done or the claim is gone. */
  function RenewalSteps(s: State, token: Token, ticks: seq<RenewalTick>, joined: bool): seq<Event>
    decreases ticks
  {
    if ticks == [] then []
    else
      var es := TickSteps(s, token, ticks[0], joined);
      es + if ClaimGone(s, token, ticks[0], joined) then [] else RenewalSteps(RunAll(s, es), token, ticks[1..], joined)
  }

  /** The wait before the next attempt, which only a retry uses; None when drawing its jitter panics. */
  function NextDelay(c: Holding, ok: bool, base: int, draw: nat): Option<int> {
    if ok || c.attempt + 1 >= c.limit then Some(0) else Backoff.Delay(base, c.attempt + 1, draw)
  }

  function ReportSteps(c: Holding, token: Token, ok: bool, base: int, course: Course): seq<Event> {
    match NextDelay(c, ok, base, course.draw)
    case None => []
    case Some(delay) => if course.reply == Silent(false) then [] else [Report(token, ok, delay)]
  }

  function StoppedSteps(s: State, token: Token, course: Course, joined: bool): seq<Event> {
    Between(s, RenewalSteps(s, token, course.ticks, joined), course.beforeStop, token, false, joined) + [Stop(token)]
  }

  /** Everything up to the moment the outcome statement runs. */
  function StepsToReport(s: State, token: Token, course: Course, joined: bool): seq<Event> {
    Between(s, StoppedSteps(s, token, course, joined), course.beforeReport, token, false, joined)
  }

  function DeliverySteps(s: State, token: Token, course: Course, ok: bool, base: int, joined: bool): seq<Event>
    requires token in s.holdings
  {
    var es := StepsToReport(s, token, course, joined) + ReportSteps(s.holdings[token], token, ok, base, course);
    Between(s, es, course.after, token, false, joined)
  }

  // ---------------------------------------------------------------- runs

  lemma {:induction false} RunConcat(s: State, a: seq<Event>, b: seq<Event>, joined: bool)
    ensures RunAll(s, a + b) == RunAll(RunAll(s, a), b)
    ensures ValidRun(s, a + b, joined) <==> ValidRun(s, a, joined) && ValidRun(RunAll(s, a), b, joined)
    decreases a
  {
    if a == [] {
      assert a + b == b;
    } else {
      RunConcat(Step(s, a[0]), a[1..], b, joined);
      assert (a + b)[0] == a[0] && (a + b)[1..] == a[1..] + b;
    }
  }

  lemma RunOne(s: State, e: Event, joined: bool)
    ensures RunAll(s, [e]) == Step(s, e)
    ensures ValidRun(s, [e], joined) <==> Enabled(s, e, joined)
  {
    assert [e][1..] == [];
  }

  lemma InterleavedCons(s: State, others: seq<Event>, i: nat, token: Token, waiting: bool, joined: bool)
    requires i < |others|
    ensures var s1 := if Enabled(s, others[i], joined) && MayIntervene(s, others[i], token, waiting)
                      then Step(s, others[i]) else s;
            RunAll(s, Interleaved(s, others[i..], token, waiting, joined))
            == RunAll(s1, Interleaved(s1, others[i + 1..], token, waiting, joined))
  {
    assert others[i..][0] == others[i] && others[i..][1..] == others[i + 1..];
    var e, rest := others[i], others[i + 1..];
    if Enabled(s, e, joined) && MayIntervene(s, e, token, waiting) {
      var es := [e] + Interleaved(Step(s, e), rest, token, waiting, joined);
      assert es[1..] == Interleaved(Step(s, e), rest, token, waiting, joined);
    }
  }

  /** Interleaving is a run of others, and any such run can be given. */
  lemma {:induction false} InterleavedRuns(s: State, others: seq<Event>, token: Token, waiting: bool, joined: bool)
    ensures var es := Interleaved(s, others, token, waiting, joined);
            ValidRun(s, es, joined) && AllForeign(es, token.prefix)
    ensures ValidRun(s, others, joined) && AllForeign(others, token.prefix) && !waiting ==>
              Interleaved(s, others, token, waiting, joined) == others
    decreases others
  {
    if others != [] {
      InterleavedRuns(Step(s, others[0]), others[1..], token, waiting, joined);
      InterleavedRuns(s, others[1..], token, waiting, joined);
      assert [others[0]] + others[1..] == others;
    }
  }

  // ---------------------------------------------------------------- counting statements

  function Count(es: seq<Event>, e: Event): nat {
    if es == [] then 0 else (if es[0] == e then 1 else 0) + Count(es[1..], e)
  }

  lemma {:induction false} CountConcat(a: seq<Event>, b: seq<Event>, e: Event)
    ensures Count(a + b, e) == Count(a, e) + Count(b, e)
    decreases a
  {
    if a == [] {
      assert a + b == b;
    } else {
      CountConcat(a[1..], b, e);
      assert (a + b)[0] == a[0] && (a + b)[1..] == a[1..] + b;
    }
  }

  lemma {:induction false} CountNone(es: seq<Event>, e: Event)
    requires forall i :: 0 <= i < |es| ==> es[i] != e
    ensures Count(es, e) == 0
  {
    if es != [] { CountNone(es[1..], e); }
  }

  /** A renewal of `token` ran as step k and matched no row. */
  ghost predicate MissAt(s: State, es: seq<Event>, k: int, token: Token) {
    && 0 <= k < |es|
    && es[k] == RunRenewal(token)
    && !RenewalMatches(RunAll(s, es[..k]), token)
  }

  lemma MissConcat(s: State, a: seq<Event>, b: seq<Event>, k: int, token: Token)
    ensures MissAt(s, a + b, k, token) <==>
              if k < |a| then MissAt(s, a, k, token) else MissAt(RunAll(s, a), b, k - |a|, token)
  {
    if 0 <= k < |a| {
      assert (a + b)[..k] == a[..k];
    } else if |a| <= k < |a + b| {
      assert (a + b)[..k] == a + b[..k - |a|];
      RunConcat(s, a, b[..k - |a|], true);
    }
  }

  function RanTicks(ticks: seq<RenewalTick>, joined: bool): nat {
    if ticks == [] then 0 else (if Runs(ticks[0].fate, joined) then 1 else 0) + RanTicks(ticks[1..], joined)
  }

  // ---------------------------------------------------------------- what others leave alone

  /** The step is the doing of the claim that holds `token`; a renewal once sent may run at any later time. */
  predicate By(e: Event, token: Token) {
    && (e.SendRenewal? || e.Stop? || e.Report?)
    && e.token == token
  }

  function Reports(es: seq<Event>, token: Token): nat {
    if es == [] then 0
    else Reports(es[..|es|-1], token) + if es[|es|-1].Report? && es[|es|-1].token == token then 1 else 0
  }

  ghost predicate NoneBy(es: seq<Event>, token: Token) {
    forall i :: 0 <= i < |es| ==> !By(es[i], token)
  }

  lemma {:induction false} ReportsConcat(a: seq<Event>, b: seq<Event>, token: Token)
    ensures Reports(a + b, token) == Reports(a, token) + Reports(b, token)
    decreases b
  {
    if b == [] {
      assert a + b == a;
    } else {
      ReportsConcat(a, b[..|b|-1], token);
      assert (a + b)[..|a + b|-1] == a + b[..|b|-1];
    }
  }

  lemma {:induction false} NoReports(es: seq<Event>, token: Token)
    requires NoneBy(es, token)
    ensures Reports(es, token) == 0
  {
    if es != [] {
      NoReports(es[..|es|-1], token);
    }
  }

  /** The trail grew from h to h' without any outcome of `token`. */
  ghost predicate GrowsWithout(h: seq<Entry>, h': seq<Entry>, token: Token) {
    && h <= h'
    && forall i :: |h| <= i < |h'| ==> !GivesUp(h'[i].action, token)
  }

  /** The same claim in the same phase, with no more renewals on their way. */
  predicate Wanes(c: Holding, c': Holding) {
    && c' == c.(inFlight := c'.inFlight)
    && c'.inFlight <= c.inFlight
  }

  lemma ClaimLeavesHolding(s: State, prefix: nat, chosen: set<Id>, lease: Time, token: Token)
    requires chosen <= s.rows.Keys && token in s.holdings && token.prefix != prefix
    ensures token in Claimed(s, prefix, chosen, lease).holdings
    ensures Claimed(s, prefix, chosen, lease).holdings[token] == s.holdings[token]
  {
  }

  lemma OtherStepLeavesHolding(s: State, e: Event, token: Token)
    requires token in s.holdings && !By(e, token) && !e.ClaimBatch?
    ensures token in Step(s, e).holdings
    ensures Wanes(s.holdings[token], Step(s, e).holdings[token])
  {
  }

  lemma StepLeavesHolding(s: State, e: Event, token: Token, joined: bool)
    requires HoldingsOk(s) && Enabled(s, e, joined) && token in s.holdings && !By(e, token)
    ensures token in Step(s, e).holdings
    ensures Wanes(s.holdings[token], Step(s, e).holdings[token])
  {
    if e.ClaimBatch? {
      ClaimLeavesHolding(s, e.prefix, e.chosen, e.lease, token);
    } else {
      OtherStepLeavesHolding(s, e, token);
    }
  }

  lemma StepLeavesTrail(s: State, e: Event, token: Token, joined: bool)
    requires Inv(s) && Enabled(s, e, joined) && !(e.Report? && e.token == token)
    ensures GrowsWithout(Trail(s, token.row), Trail(Step(s, e), token.row), token)
  {
    StepRefines(s, e, token.row, joined);
  }

  /** What others do leaves a claim's holding alone and records no outcome in its name. */
  lemma {:induction false} OthersLeaveToken(s: State, es: seq<Event>, token: Token, joined: bool)
    requires Inv(s) && ValidRun(s, es, joined) && token in s.holdings && NoneBy(es, token)
    ensures var s' := RunAll(s, es);
            && Inv(s')
            && token in s'.holdings
            && Wanes(s.holdings[token], s'.holdings[token])
            && GrowsWithout(Trail(s, token.row), Trail(s', token.row), token)
    decreases es
  {
    if es != [] {
      var s1 := Step(s, es[0]);
      StepLeavesHolding(s, es[0], token, joined);
      StepLeavesTrail(s, es[0], token, joined);
      StepKeepsInv(s, es[0], joined);
      OthersLeaveToken(s1, es[1..], token, joined);
    }
  }

  // ---------------------------------------------------------------- one renewal per tick

  /** A claim whose handlers are running. */
  ghost predicate Working(s: State, token: Token) {
    Inv(s) && token in s.holdings && s.holdings[token].phase.Running?
  }

  lemma ForeignNotBy(es: seq<Event>, token: Token)
    requires AllForeign(es, token.prefix)
    ensures NoneBy(es, token)
  {
  }

  lemma InterleavedLeaves(s: State, others: seq<Event>, token: Token, waiting: bool, joined: bool)
    requires Inv(s) && token in s.holdings
    ensures var es := Interleaved(s, others, token, waiting, joined);
            var s' := RunAll(s, es);
            && ValidRun(s, es, joined) && AllForeign(es, token.prefix)
            && Inv(s') && token in s'.holdings
            && Wanes(s.holdings[token], s'.holdings[token])
            && GrowsWithout(Trail(s, token.row), Trail(s', token.row), token)
            && Count(es, SendRenewal(token)) == 0
  {
    var es := Interleaved(s, others, token, waiting, joined);
    InterleavedRuns(s, others, token, waiting, joined);
    ForeignNotBy(es, token);
    OthersLeaveToken(s, es, token, joined);
    CountNone(es, SendRenewal(token));
  }

  /** With nothing in flight but the renewal waited for, no renewal of the claim runs meanwhile. */
  lemma {:induction false} InterleavedAlone(s: State, others: seq<Event>, token: Token, waiting: bool, joined: bool)
    requires Inv(s) && token in s.holdings
    requires s.holdings[token].inFlight >= if waiting then 1 else 0
    ensures var s' := RunAll(s, Interleaved(s, others, token, waiting, joined));
            token in s'.holdings && s'.holdings[token].inFlight >= if waiting then 1 else 0
    ensures s.holdings[token].inFlight == (if waiting then 1 else 0) ==>
              var es := Interleaved(s, others, token, waiting, joined);
              forall i :: 0 <= i < |es| ==> es[i] != RunRenewal(token)
    decreases others
  {
    if others != [] {
      var e := others[0];
      if Enabled(s, e, joined) && MayIntervene(s, e, token, waiting) {
        StepLeavesHolding(s, e, token, joined);
        StepKeepsInv(s, e, joined);
        KeepsAwaited(s, e, token, waiting, joined);
        InterleavedAlone(Step(s, e), others[1..], token, waiting, joined);
      } else {
        InterleavedAlone(s, others[1..], token, waiting, joined);
      }
    }
  }

  lemma KeepsAwaited(s: State, e: Event, token: Token, waiting: bool, joined: bool)
    requires token in s.holdings && HoldingsOk(s) && Enabled(s, e, joined) && MayIntervene(s, e, token, waiting)
    requires s.holdings[token].inFlight >= if waiting then 1 else 0
    ensures token in Step(s, e).holdings && Step(s, e).holdings[token].inFlight >= if waiting then 1 else 0
  {
    StepLeavesHolding(s, e, token, joined);
  }

  /** Among the claims of one batch, the run contains only steps of `token`. */
  ghost predicate OnlyOwn(es: seq<Event>, token: Token) {
    forall i, t :: 0 <= i < |es| && By(es[i], t) && t.prefix == token.prefix ==> t == token
  }

  /** A part of a delivery in which the claim stays in its phase and nothing is reported. */
  ghost predicate Carried(s: State, es: seq<Event>, s': State, token: Token, joined: bool) {
    && ValidRun(s, es, joined) && s' == RunAll(s, es)
    && Inv(s') && token in s.holdings && token in s'.holdings
    && s'.holdings[token] == s.holdings[token].(inFlight := s'.holdings[token].inFlight)
    && GrowsWithout(Trail(s, token.row), Trail(s', token.row), token)
    && OnlyOwn(es, token) && Reports(es, token) == 0
  }

  lemma CarriedConcat(s: State, a: seq<Event>, s1: State, b: seq<Event>, s2: State, token: Token, joined: bool)
    requires Carried(s, a, s1, token, joined) && Carried(s1, b, s2, token, joined)
    ensures Carried(s, a + b, s2, token, joined)
    ensures Count(a + b, SendRenewal(token)) == Count(a, SendRenewal(token)) + Count(b, SendRenewal(token))
    ensures Count(a + b, RunRenewal(token)) == Count(a, RunRenewal(token)) + Count(b, RunRenewal(token))
  {
    RunConcat(s, a, b, joined);
    ReportsConcat(a, b, token);
    CountConcat(a, b, SendRenewal(token));
    CountConcat(a, b, RunRenewal(token));
  }

  lemma InterleavedCarries(s: State, others: seq<Event>, token: Token, waiting: bool, joined: bool)
    requires Inv(s) && token in s.holdings
    ensures var es := Interleaved(s, others, token, waiting, joined);
            && Carried(s, es, RunAll(s, es), token, joined) && Count(es, SendRenewal(token)) == 0
            && RunAll(s, es).holdings[token].inFlight <= s.holdings[token].inFlight
  {
    var es := Interleaved(s, others, token, waiting, joined);
    InterleavedLeaves(s, others, token, waiting, joined);
    ForeignNotBy(es, token);
    NoReports(es, token);
  }

  /** One renewal statement of the claim itself. */
  lemma RenewalCarries(s: State, e: Event, token: Token, joined: bool)
    requires Inv(s) && Enabled(s, e, joined)
    requires e == SendRenewal(token) || e == RunRenewal(token) || e == LoseRenewal(token)
    ensures Carried(s, [e], Step(s, e), token, joined)
    ensures Step(s, e).holdings[token].inFlight == s.holdings[token].inFlight + if e.SendRenewal? then 1 else -1
    ensures Count([e], SendRenewal(token)) == if e.SendRenewal? then 1 else 0
    ensures Count([e], RunRenewal(token)) == if e.RunRenewal? then 1 else 0
  {
    RunOne(s, e, joined);
    StepKeepsInv(s, e, joined);
    StepLeavesTrail(s, e, token, joined);
    assert [e][1..] == [] && [e][..0] == [];
  }

  lemma SentCarries(s: State, token: Token, tick: RenewalTick, joined: bool)
    requires Working(s, token)
    ensures var es := Sent(s, token, tick, joined);
            var s' := RunAll(s, es);
            && Carried(s, es, s', token, joined)
            && Count(es, SendRenewal(token)) == 1
            && s'.holdings[token].inFlight >= 1
            && (s.holdings[token].inFlight == 0 ==>
                  s'.holdings[token].inFlight == 1 && Count(es, RunRenewal(token)) == 0)
  {
    var before := Interleaved(s, tick.before, token, false, joined);
    var s1 := RunAll(s, before);
    InterleavedCarries(s, tick.before, token, false, joined);
    InterleavedAlone(s, tick.before, token, false, joined);
    if s.holdings[token].inFlight == 0 { CountNone(before, RunRenewal(token)); }
    RenewalCarries(s1, SendRenewal(token), token, joined);
    CarriedConcat(s, before, s1, [SendRenewal(token)], Step(s1, SendRenewal(token)), token, joined);
  }

  lemma UpToRenewalCarries(s: State, token: Token, tick: RenewalTick, joined: bool)
    requires Working(s, token)
    ensures var es := UpToRenewal(s, token, tick, joined);
            var s' := RunAll(s, es);
            && Carried(s, es, s', token, joined)
            && Count(es, SendRenewal(token)) == 1
            && s'.holdings[token].inFlight >= 1
            && (s.holdings[token].inFlight == 0 ==>
                  s'.holdings[token].inFlight == 1 && Count(es, RunRenewal(token)) == 0)
  {
    SentCarries(s, token, tick, joined);
    if Awaited(tick.fate, joined) {
      var sent := Sent(s, token, tick, joined);
      var s1 := RunAll(s, sent);
      var during := Interleaved(s1, tick.during, token, true, joined);
      InterleavedCarries(s1, tick.during, token, true, joined);
      InterleavedAlone(s1, tick.during, token, true, joined);
      if s1.holdings[token].inFlight == 1 { CountNone(during, RunRenewal(token)); }
      CarriedConcat(s, sent, s1, during, RunAll(s1, during), token, joined);
    }
  }

  lemma TickCarries(s: State, token: Token, tick: RenewalTick, joined: bool)
    requires Working(s, token)
    ensures var es := TickSteps(s, token, tick, joined);
            var s' := RunAll(s, es);
            && Carried(s, es, s', token, joined)
            && Count(es, SendRenewal(token)) == 1
            && Count(es, RunRenewal(token)) >= (if Runs(tick.fate, joined) then 1 else 0)
            && (s.holdings[token].inFlight == 0 && Awaited(tick.fate, joined) ==>
                  && s'.holdings[token].inFlight == 0
                  && Count(es, RunRenewal(token)) == if Runs(tick.fate, joined) then 1 else 0)
  {
    UpToRenewalCarries(s, token, tick, joined);
    var start := UpToRenewal(s, token, tick, joined);
    var s1 := RunAll(s, start);
    if Awaited(tick.fate, joined) {
      var e := if tick.fate.Lost? then LoseRenewal(token) else RunRenewal(token);
      RenewalCarries(s1, e, token, joined);
      CarriedConcat(s, start, s1, [e], Step(s1, e), token, joined);
    } else {
      assert start + [] == start;
    }
  }

  lemma {:induction false} CountedNot(es: seq<Event>, e: Event, k: nat)
    requires Count(es, e) == 0 && k < |es|
    ensures es[k] != e
    decreases k
  {
    if k > 0 { CountedNot(es[1..], e, k - 1); }
  }

  /** A renewal that misses is the last step of its tick, and the worker sees it. */
  lemma TickMisses(s: State, token: Token, tick: RenewalTick, joined: bool, k: int)
    requires Working(s, token)
    ensures var es := TickSteps(s, token, tick, joined);
            && (ClaimGone(s, token, tick, joined) ==> es != [] && MissAt(s, es, |es| - 1, token))
            && (s.holdings[token].inFlight == 0 && MissAt(s, es, k, token) ==>
                  k == |es| - 1 && ClaimGone(s, token, tick, joined))
  {
    UpToRenewalCarries(s, token, tick, joined);
    var start, answer := UpToRenewal(s, token, tick, joined), Answer(token, tick, joined);
    MissConcat(s, start, answer, |start|, token);
    assert answer[..0] == [];
    if s.holdings[token].inFlight == 0 && MissAt(s, start + answer, k, token) {
      MissConcat(s, start, answer, k, token);
      if k < |start| { CountedNot(start, RunRenewal(token), k); }
    }
  }

  /** No renewal of the claim is on its way, and the worker waits for every answer. */
  predicate Attended(s: State, token: Token, ticks: seq<RenewalTick>, joined: bool) {
    && (token in s.holdings ==> s.holdings[token].inFlight == 0)
    && (joined || forall i :: 0 <= i < |ticks| ==> !ticks[i].fate.Left?)
  }

  /**
   The renewal loop sends one renewal per tick; it leaves ticks unhandled only after a renewal that ran
   and matched no row. Each tick whose renewal is to run has it run.
   */
  ghost predicate RenewsEach(s: State, es: seq<Event>, token: Token, ticks: seq<RenewalTick>, joined: bool) {
    var n := Count(es, SendRenewal(token));
    && n <= |ticks|
    && Count(es, RunRenewal(token)) >= RanTicks(ticks[..n], joined)
    && (n < |ticks| ==> es != [] && MissAt(s, es, |es| - 1, token))
  }

  lemma RanTicksCons(ticks: seq<RenewalTick>, n: nat, joined: bool)
    requires n < |ticks|
    ensures RanTicks(ticks[..n + 1], joined)
            == (if Runs(ticks[0].fate, joined) then 1 else 0) + RanTicks(ticks[1..][..n], joined)
  {
    assert ticks[..n + 1][0] == ticks[0] && ticks[..n + 1][1..] == ticks[1..][..n];
  }

  /** The first tick, and what the loop does from there. */
  lemma RenewsOn(s: State, a: seq<Event>, s1: State, b: seq<Event>, s2: State, token: Token,
                 ticks: seq<RenewalTick>, joined: bool)
    requires ticks != [] && Carried(s, a, s1, token, joined) && Carried(s1, b, s2, token, joined)
    requires Count(a, SendRenewal(token)) == 1
    requires Count(a, RunRenewal(token)) >= if Runs(ticks[0].fate, joined) then 1 else 0
    requires RenewsEach(s1, b, token, ticks[1..], joined)
    ensures Carried(s, a + b, s2, token, joined) && RenewsEach(s, a + b, token, ticks, joined)
  {
    CarriedConcat(s, a, s1, b, s2, token, joined);
    RanTicksCons(ticks, Count(b, SendRenewal(token)), joined);
    MissConcat(s, a, b, |a + b| - 1, token);
  }

  lemma {:induction false} RenewalsFollowTicks(s: State, token: Token, ticks: seq<RenewalTick>, joined: bool)
    requires Working(s, token)
    ensures var es := RenewalSteps(s, token, ticks, joined);
            && Carried(s, es, RunAll(s, es), token, joined)
            && RenewsEach(s, es, token, ticks, joined)
    decreases ticks
  {
    if ticks == [] {
      NothingCarries(s, token, joined);
    } else {
      TickCarries(s, token, ticks[0], joined);
      var es := TickSteps(s, token, ticks[0], joined);
      var s1 := RunAll(s, es);
      if ClaimGone(s, token, ticks[0], joined) {
        TickMisses(s, token, ticks[0], joined, 0);
        RanTicksCons(ticks, 0, joined);
        assert es + [] == es;
      } else {
        RenewalsFollowTicks(s1, token, ticks[1..], joined);
        var rest := RenewalSteps(s1, token, ticks[1..], joined);
        RenewsOn(s, es, s1, rest, RunAll(s1, rest), token, ticks, joined);
      }
    }
  }

  lemma NothingCarries(s: State, token: Token, joined: bool)
    requires Inv(s) && token in s.holdings
    ensures RunAll(s, []) == s && Carried(s, [], s, token, joined)
  {
  }

  /** Exactly the renewals that are to run do, and one that matches no row is the last thing the loop does. */
  ghost predicate RenewsExactly(s: State, es: seq<Event>, token: Token, ticks: seq<RenewalTick>, joined: bool) {
    var n := Count(es, SendRenewal(token));
    && n <= |ticks|
    && Count(es, RunRenewal(token)) == RanTicks(ticks[..n], joined)
    && forall k :: MissAt(s, es, k, token) ==> k == |es| - 1
  }

  lemma RenewsExactlyOn(s: State, a: seq<Event>, s1: State, b: seq<Event>, s2: State, token: Token,
                        ticks: seq<RenewalTick>, joined: bool)
    requires ticks != [] && Carried(s, a, s1, token, joined) && Carried(s1, b, s2, token, joined)
    requires Count(a, SendRenewal(token)) == 1
    requires Count(a, RunRenewal(token)) == if Runs(ticks[0].fate, joined) then 1 else 0
    requires forall k :: !MissAt(s, a, k, token)
    requires RenewsExactly(s1, b, token, ticks[1..], joined)
    ensures RenewsExactly(s, a + b, token, ticks, joined)
  {
    CarriedConcat(s, a, s1, b, s2, token, joined);
    RanTicksCons(ticks, Count(b, SendRenewal(token)), joined);
    forall k | MissAt(s, a + b, k, token) ensures k == |a + b| - 1 {
      MissConcat(s, a, b, k, token);
    }
  }

  lemma {:induction false} AttendedRenewals(s: State, token: Token, ticks: seq<RenewalTick>, joined: bool)
    requires Working(s, token) && Attended(s, token, ticks, joined)
    ensures var es := RenewalSteps(s, token, ticks, joined);
            && RenewsExactly(s, es, token, ticks, joined)
            && token in RunAll(s, es).holdings && RunAll(s, es).holdings[token].inFlight == 0
    decreases ticks
  {
    if ticks != [] {
      TickCarries(s, token, ticks[0], joined);
      var es := TickSteps(s, token, ticks[0], joined);
      var s1 := RunAll(s, es);
      forall k | MissAt(s, es, k, token) ensures k == |es| - 1 && ClaimGone(s, token, ticks[0], joined) {
        TickMisses(s, token, ticks[0], joined, k);
      }
      if ClaimGone(s, token, ticks[0], joined) {
        RanTicksCons(ticks, 0, joined);
        assert es + [] == es;
      } else {
        AttendedRenewals(s1, token, ticks[1..], joined);
        RenewalsFollowTicks(s1, token, ticks[1..], joined);
        var rest := RenewalSteps(s1, token, ticks[1..], joined);
        RunConcat(s, es, rest, joined);
        RenewsExactlyOn(s, es, s1, rest, RunAll(s1, rest), token, ticks, joined);
      }
    }
  }

  // ---------------------------------------------------------------- up to the outcome

  /** Renewals as the ticks ask, whatever happens before and after them. */
  ghost predicate Renewed(s: State, es: seq<Event>, token: Token, ticks: seq<RenewalTick>, joined: bool) {
    var n := Count(es, SendRenewal(token));
    && n <= |ticks|
    && Count(es, RunRenewal(token)) >= RanTicks(ticks[..n], joined)
    && (Attended(s, token, ticks, joined) ==> Count(es, RunRenewal(token)) == RanTicks(ticks[..n], joined))
    && (n < |ticks| ==> exists k :: MissAt(s, es, k, token))
  }

  /** No renewal of a claim with none in flight runs without being sent. */
  lemma {:induction false} NoneInFlight(s: State, es: seq<Event>, token: Token, joined: bool)
    requires Inv(s) && ValidRun(s, es, joined) && token in s.holdings && s.holdings[token].inFlight == 0
    requires NoneBy(es, token)
    ensures forall i :: 0 <= i < |es| ==> es[i] != RunRenewal(token)
    decreases es
  {
    if es != [] {
      StepLeavesHolding(s, es[0], token, joined);
      StepKeepsInv(s, es[0], joined);
      NoneInFlight(Step(s, es[0]), es[1..], token, joined);
    }
  }

  /** Other steps around the renewals change nothing about them. */
  lemma RenewedLasts(s: State, es: seq<Event>, s1: State, more: seq<Event>, token: Token, ticks: seq<RenewalTick>,
                     joined: bool)
    requires Renewed(s, es, token, ticks, joined) && s1 == RunAll(s, es) && Inv(s1) && ValidRun(s1, more, joined)
    requires forall i :: 0 <= i < |more| ==> more[i] != SendRenewal(token)
    requires Attended(s, token, ticks, joined) ==> forall i :: 0 <= i < |more| ==> more[i] != RunRenewal(token)
    ensures Renewed(s, es + more, token, ticks, joined)
  {
    CountConcat(es, more, SendRenewal(token));
    CountConcat(es, more, RunRenewal(token));
    CountNone(more, SendRenewal(token));
    if Attended(s, token, ticks, joined) { CountNone(more, RunRenewal(token)); }
    if k :| MissAt(s, es, k, token) { MissConcat(s, es, more, k, token); }
  }

  /** A part of a delivery in which the claim is stopped. */
  ghost predicate Halted(s: State, es: seq<Event>, s': State, token: Token, joined: bool) {
    && ValidRun(s, es, joined) && s' == RunAll(s, es)
    && Inv(s') && token in s.holdings && token in s'.holdings
    && s'.holdings[token] == s.holdings[token].(inFlight := s'.holdings[token].inFlight, phase := Stopped)
    && GrowsWithout(Trail(s, token.row), Trail(s', token.row), token)
    && OnlyOwn(es, token) && Reports(es, token) == 0
  }

  lemma StopHalts(s: State, es: seq<Event>, s1: State, token: Token, joined: bool)
    requires Carried(s, es, s1, token, joined) && Enabled(s1, Stop(token), joined)
    ensures Halted(s, es + [Stop(token)], Step(s1, Stop(token)), token, joined)
    ensures Step(s1, Stop(token)).holdings[token].inFlight == s1.holdings[token].inFlight
  {
    var e := Stop(token);
    RunOne(s1, e, joined);
    StepKeepsInv(s1, e, joined);
    StepLeavesTrail(s1, e, token, joined);
    RunConcat(s, es, [e], joined);
    ReportsConcat(es, [e], token);
  }

  lemma HaltedLasts(s: State, a: seq<Event>, s1: State, b: seq<Event>, s2: State, token: Token, joined: bool)
    requires Halted(s, a, s1, token, joined) && Carried(s1, b, s2, token, joined)
    ensures Halted(s, a + b, s2, token, joined)
  {
    RunConcat(s, a, b, joined);
    ReportsConcat(a, b, token);
  }

  /** A handler is running; with the join none of its renewals is on its way. */
  ghost predicate Busy(s: State, token: Token, joined: bool) {
    Working(s, token) && (joined ==> s.holdings[token].inFlight == 0)
  }

  lemma RenewalsRenew(s: State, token: Token, ticks: seq<RenewalTick>, joined: bool)
    requires Busy(s, token, joined)
    ensures var es := RenewalSteps(s, token, ticks, joined);
            var s' := RunAll(s, es);
            && Carried(s, es, s', token, joined) && Renewed(s, es, token, ticks, joined)
            && (Attended(s, token, ticks, joined) ==> s'.holdings[token].inFlight == 0)
  {
    RenewalsFollowTicks(s, token, ticks, joined);
    if Attended(s, token, ticks, joined) { AttendedRenewals(s, token, ticks, joined); }
  }

  lemma StopEnabled(s: State, token: Token, course: Course, joined: bool)
    requires Busy(s, token, joined)
    ensures var es := Between(s, RenewalSteps(s, token, course.ticks, joined), course.beforeStop, token, false, joined);
            && Carried(s, es, RunAll(s, es), token, joined) && Enabled(RunAll(s, es), Stop(token), joined)
            && Renewed(s, es, token, course.ticks, joined)
            && (Attended(s, token, course.ticks, joined) ==> RunAll(s, es).holdings[token].inFlight == 0)
  {
    RenewalsRenew(s, token, course.ticks, joined);
    var a := RenewalSteps(s, token, course.ticks, joined);
    var s1 := RunAll(s, a);
    var b := Interleaved(s1, course.beforeStop, token, false, joined);
    InterleavedCarries(s1, course.beforeStop, token, false, joined);
    CarriedConcat(s, a, s1, b, RunAll(s1, b), token, joined);
    InterleavedLeaves(s1, course.beforeStop, token, false, joined);
    ForeignNotBy(b, token);
    OthersRenewNothing(s, a, s1, b, token, course.ticks, joined);
  }

  /** What happens before `stop`, and `stop` itself. */
  lemma StoppedHalts(s: State, token: Token, course: Course, joined: bool)
    requires Busy(s, token, joined)
    ensures var es := StoppedSteps(s, token, course, joined);
            var s' := RunAll(s, es);
            && Halted(s, es, s', token, joined) && Renewed(s, es, token, course.ticks, joined)
            && (Attended(s, token, course.ticks, joined) ==> s'.holdings[token].inFlight == 0)
  {
    StopEnabled(s, token, course, joined);
    var a := Between(s, RenewalSteps(s, token, course.ticks, joined), course.beforeStop, token, false, joined);
    var s1 := RunAll(s, a);
    StopHalts(s, a, s1, token, joined);
    RunOne(s1, Stop(token), joined);
    RenewedLasts(s, a, s1, [Stop(token)], token, course.ticks, joined);
    RunConcat(s, a, [Stop(token)], joined);
  }

  lemma OthersRenewNothing(s: State, es: seq<Event>, s1: State, more: seq<Event>, token: Token,
                           ticks: seq<RenewalTick>, joined: bool)
    requires Renewed(s, es, token, ticks, joined) && s1 == RunAll(s, es) && Inv(s1) && ValidRun(s1, more, joined)
    requires NoneBy(more, token) && token in s1.holdings
    requires Attended(s, token, ticks, joined) ==> s1.holdings[token].inFlight == 0
    ensures Renewed(s, es + more, token, ticks, joined)
  {
    if Attended(s, token, ticks, joined) { NoneInFlight(s1, more, token, joined); }
    RenewedLasts(s, es, s1, more, token, ticks, joined);
  }

  lemma ReportReached(s: State, token: Token, course: Course, joined: bool)
    requires Busy(s, token, joined)
    ensures var es := StepsToReport(s, token, course, joined);
            var s' := RunAll(s, es);
            && Halted(s, es, s', token, joined) && Renewed(s, es, token, course.ticks, joined)
            && (Attended(s, token, course.ticks, joined) ==> s'.holdings[token].inFlight == 0)
  {
    StoppedHalts(s, token, course, joined);
    var a := StoppedSteps(s, token, course, joined);
    var s1 := RunAll(s, a);
    var b := Interleaved(s1, course.beforeReport, token, false, joined);
    InterleavedCarries(s1, course.beforeReport, token, false, joined);
    InterleavedLeaves(s1, course.beforeReport, token, false, joined);
    HaltedLasts(s, a, s1, b, RunAll(s1, b), token, joined);
    ForeignNotBy(b, token);
    OthersRenewNothing(s, a, s1, b, token, course.ticks, joined);
  }

  /** A delivery that starts after a part in which nothing was done under its claim. */
  lemma RenewedAfter(s: State, a: seq<Event>, s1: State, b: seq<Event>, token: Token, ticks: seq<RenewalTick>,
                     joined: bool)
    requires Renewed(s1, b, token, ticks, joined) && s1 == RunAll(s, a)
    requires Count(a, SendRenewal(token)) == Count(a, RunRenewal(token)) == 0
    requires token in s1.holdings && s1.holdings[token].inFlight == 0
    ensures Renewed(s, a + b, token, ticks, joined)
  {
    CountConcat(a, b, SendRenewal(token));
    CountConcat(a, b, RunRenewal(token));
    if k :| MissAt(s1, b, k, token) { MissConcat(s, a, b, |a| + k, token); }
  }
}

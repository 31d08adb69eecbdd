/**
 The machine over either table refines the abstract lease queue: every step is, for every id, one
 attempt of the abstract queue or a stutter.
 */
module LeaseRefinement {
  import opened Common
  import opened LeaseQueue
  import opened LeaseMachine
  import J = JobsSql
  import O = OutboxSql

  // ---------------------------------------------------------------- the invariant

  /** The token on an open row belongs to a claim still waiting for its outcome, with the row's numbers. */
  ghost predicate HeldBy(s: State, id: Id, row: Row, token: Token, until: Time) {
    && token.row == id && token in s.holdings
    && var c := s.holdings[token];
       && !c.phase.Reported? && until <= s.now + c.lease
       && c.attempt == RowAttempt(row) && c.limit == RowLimit(row)
  }

  /** The token on a closed row belongs to a claim that has already recorded its outcome. */
  ghost predicate SettledBy(s: State, id: Id, token: Token) {
    && token.row == id
    && token in s.holdings
    && s.holdings[token].phase.Reported?
  }

  /** A job that a late renewal took back from its permanent failure. */
  ghost predicate RevivedBy(s: State, id: Id, token: Token, until: Time) {
    && SettledBy(s, id, token)
    && until <= s.now + s.holdings[token].lease
  }

  ghost predicate JobOk(s: State, id: Id, r: J.Row) {
    && r.maxAttempts >= 1
    && (r.lockedUntil.Null? <==> r.claimToken.None?)
    && (r.lockedUntil.Null? ==> r.attempt < r.maxAttempts)
    && (r.claimToken.Some? ==> r.runAt <= s.now)
    && (r.lockedUntil.At? ==>
          || HeldBy(s, id, Job(r), r.claimToken.value, r.lockedUntil.t)
          || RevivedBy(s, id, r.claimToken.value, r.lockedUntil.t))
    && (r.lockedUntil.Infinity? ==> r.attempt >= r.maxAttempts && SettledBy(s, id, r.claimToken.value))
  }

  ghost predicate MessageOk(s: State, id: Id, r: O.Row) {
    && (r.lockedUntil.None? <==> r.claimToken.None?)
    && !(r.processedAt.Some? && r.failedAt.Some?)
    && (r.failedAt.None? ==> r.attempt < r.maxAttempts)
    && (r.failedAt.Some? ==> r.attempt == r.maxAttempts)
    && (!O.Closed(r) && r.claimToken.Some? ==>
          r.lockedUntil == Some(r.processAfter) && HeldBy(s, id, Message(r), r.claimToken.value, r.processAfter))
    && (O.Closed(r) ==> r.claimToken.Some? && SettledBy(s, id, r.claimToken.value))
  }

  ghost predicate RowOk(s: State, id: Id) {
    id in s.rows ==>
      match s.rows[id]
      case Job(j) => s.kind.Jobs? && JobOk(s, id, j)
      case Message(m) => s.kind.Outbox? && MessageOk(s, id, m)
  }

  /** The audit trail is a legal history of the abstract queue and leads to the row's abstract item. */
  ghost predicate TrailOk(s: State, id: Id) {
    GoodTrail(Trail(s, id), View(s, id), s.now, s.used)
  }

  ghost predicate GoodTrail(h: seq<Entry>, item: Item, now: Time, used: set<nat>) {
    && Legal(h) && Current(h) == item
    && (forall i :: 0 <= i < |h| ==> h[i].at <= now)
    && (forall i :: 0 <= i < |h| && TokenOf(h[i].action).Some? ==> TokenOf(h[i].action).value.prefix in used)
  }

  ghost predicate HoldingsOk(s: State) {
    forall token :: token in s.holdings ==> token.prefix in s.used && s.holdings[token].lease >= 1
  }

  ghost predicate Inv(s: State) {
    && HoldingsOk(s)
    && forall id :: RowOk(s, id) && TrailOk(s, id)
  }

  /** A renewal that reaches a job after the same claim marked it permanently failed. */
  ghost predicate LateRenewal(s: State, e: Event) {
    && e.RunRenewal? && e.token.row in s.rows
    && Late(s.rows[e.token.row])
    && RowToken(s.rows[e.token.row]) == Some(e.token)
  }

  // ---------------------------------------------------------------- one step, one id

  /** How a step moves the abstract item and the audit trail of one id. */
  ghost predicate Moves(s: State, s': State, id: Id, attempt: Option<Entry>) {
    match attempt
    case None => View(s', id) == View(s, id) && Trail(s', id) == Trail(s, id)
    case Some(a) =>
      && View(s', id) == Perform(View(s, id), a)
      && Trail(s', id) == Trail(s, id) + if Apply(View(s, id), a).Some? then [a] else []
  }

  ghost predicate Refines(s: State, e: Event, s': State, id: Id) {
    Moves(s, s', id, AttemptOn(s, e, id))
  }

  lemma TickRefines(s: State, e: Event, id: Id)
    requires RowOk(s, id) && e.Tick? && e.d >= 0
    ensures Refines(s, e, Step(s, e), id) && RowOk(Step(s, e), id)
  {
  }

  lemma InsertRefines(s: State, e: Event, id: Id)
    requires RowOk(s, id) && TrailOk(s, id) && e.Insert?
    ensures Refines(s, e, Step(s, e), id) && RowOk(Step(s, e), id)
  {
  }

  function RowToken(r: Row): Option<Token> {
    match r case Job(j) => j.claimToken case Message(m) => m.claimToken
  }

  /** A row is unaffected by what happens to the holdings of other tokens. */
  lemma RowOkFrame(s: State, s': State, id: Id)
    requires RowOk(s, id) && s'.kind == s.kind && s'.now == s.now
    requires id in s'.rows <==> id in s.rows
    requires id in s.rows ==> s'.rows[id] == s.rows[id]
    requires id in s.rows && RowToken(s.rows[id]).Some? && RowToken(s.rows[id]).value in s.holdings ==>
               var t := RowToken(s.rows[id]).value; t in s'.holdings && s'.holdings[t] == s.holdings[t]
    ensures RowOk(s', id)
  {
  }

  lemma Untouched(s: State, e: Event, s': State, id: Id)
    requires RowOk(s, id) && s'.kind == s.kind && s'.now == s.now && AttemptOn(s, e, id).None?
    requires (id in s'.rows <==> id in s.rows) && Trail(s', id) == Trail(s, id)
    requires id in s.rows ==> s'.rows[id] == s.rows[id]
    requires id in s.rows && RowToken(s.rows[id]).Some? && RowToken(s.rows[id]).value in s.holdings ==>
               var t := RowToken(s.rows[id]).value; t in s'.holdings && s'.holdings[t] == s.holdings[t]
    ensures Refines(s, e, s', id) && RowOk(s', id)
  {
  }

  lemma ClaimNotChosen(s: State, e: Event, id: Id)
    requires RowOk(s, id) && e.ClaimBatch? && e.prefix !in s.used && HoldingsOk(s)
    requires e.chosen <= s.rows.Keys && id !in e.chosen
    ensures Refines(s, e, Step(s, e), id) && RowOk(Step(s, e), id)
  {
    Untouched(s, e, Claimed(s, e.prefix, e.chosen, e.lease), id);
  }

  lemma ClaimedHere(s: State, prefix: nat, chosen: set<Id>, lease: Time, id: Id)
    requires chosen <= s.rows.Keys && id in chosen && Eligible(s.rows[id], s.now) && lease >= 1
    requires RowOk(s, id)
    ensures var s', token := Claimed(s, prefix, chosen, lease), Token(prefix, id);
            && token in s'.holdings
            && s'.holdings[token].phase.Running?
            && s'.holdings[token].inFlight == 0
            && LeasedTo(View(s', id), token)
            && View(s', id).until == s.now + lease
            && Trail(s', id) == Trail(s, id) + [Entry(s.now, LeaseQueue.Claim(token, s.now + lease))]
  {
  }

  lemma ClaimChosen(s: State, e: Event, id: Id)
    requires RowOk(s, id) && e.ClaimBatch? && e.lease >= 1
    requires e.chosen <= s.rows.Keys && id in e.chosen && Eligible(s.rows[id], s.now)
    ensures Refines(s, e, Step(s, e), id) && RowOk(Step(s, e), id)
  {
    var s', token := Step(s, e), Token(e.prefix, id);
    assert s'.rows[id] == ClaimRow(s.rows[id], s.now, e.lease, token);
    assert s'.holdings[token] == Holding(RowAttempt(s.rows[id]), RowLimit(s.rows[id]), e.lease, Running, 0);
    assert Claimable(View(s, id), s.now);
  }

  lemma HoldingRefines(s: State, e: Event, id: Id, joined: bool)
    requires RowOk(s, id) && (e.SendRenewal? || e.LoseRenewal? || e.Stop?) && Enabled(s, e, joined)
    ensures Refines(s, e, Step(s, e), id) && RowOk(Step(s, e), id)
  {
  }

  lemma RenewalRefines(s: State, e: Event, id: Id)
    requires RowOk(s, id) && e.RunRenewal? && e.token in s.holdings && s.holdings[e.token].inFlight > 0
    ensures Refines(s, e, Step(s, e), id) && RowOk(Step(s, e), id)
  {
    if e.token.row == id && id in s.rows {
      match s.rows[id]
      case Job(_) => RenewJobRefines(s, e, id);
      case Message(_) => RenewMessageRefines(s, e, id);
    }
  }

  lemma RenewJobRefines(s: State, e: Event, id: Id)
    requires RowOk(s, id) && e.RunRenewal? && e.token in s.holdings && s.holdings[e.token].inFlight > 0
    requires e.token.row == id && id in s.rows && s.rows[id].Job?
    ensures Refines(s, e, Step(s, e), id) && RowOk(Step(s, e), id)
  {
    assert s.rows[id].job.claimToken == Some(e.token) <==> Carries(View(s, id), e.token);
  }

  /** A renewal of a closed message, however late, leaves its abstract item alone. */
  lemma RenewMessageRefines(s: State, e: Event, id: Id)
    requires RowOk(s, id) && e.RunRenewal? && e.token in s.holdings && s.holdings[e.token].inFlight > 0
    requires e.token.row == id && id in s.rows && s.rows[id].Message?
    ensures Refines(s, e, Step(s, e), id) && RowOk(Step(s, e), id)
  {
    assert !O.Closed(s.rows[id].msg) && s.rows[id].msg.claimToken == Some(e.token) <==> LeasedTo(View(s, id), e.token);
  }

  lemma ReportRefines(s: State, e: Event, id: Id)
    requires RowOk(s, id) && e.Report? && e.token in s.holdings && s.holdings[e.token].phase.Stopped?
    ensures Refines(s, e, Step(s, e), id) && RowOk(Step(s, e), id)
  {
    if e.token.row != id {
      RowOkFrame(s, Step(s, e), id);
    } else if id in s.rows {
      match s.rows[id]
      case Job(_) => ReportJobRefines(s, e, id);
      case Message(_) => ReportMessageRefines(s, e, id);
    }
  }

  lemma ReportJobRefines(s: State, e: Event, id: Id)
    requires RowOk(s, id) && e.Report? && e.token in s.holdings && s.holdings[e.token].phase.Stopped?
    requires e.token.row == id && id in s.rows && s.rows[id].Job?
    ensures Refines(s, e, Step(s, e), id) && RowOk(Step(s, e), id)
  {
    var r, c := s.rows[id].job, s.holdings[e.token];
    if r.claimToken == Some(e.token) {
      assert r.lockedUntil.At? && LeasedTo(View(s, id), e.token);
    } else {
      assert !LeasedTo(View(s, id), e.token);
      RowOkFrame(s, Step(s, e), id);
    }
  }

  lemma ReportMessageRefines(s: State, e: Event, id: Id)
    requires RowOk(s, id) && e.Report? && e.token in s.holdings && s.holdings[e.token].phase.Stopped?
    requires e.token.row == id && id in s.rows && s.rows[id].Message?
    ensures Refines(s, e, Step(s, e), id) && RowOk(Step(s, e), id)
  {
    var r, c := s.rows[id].msg, s.holdings[e.token];
    if r.claimToken == Some(e.token) {
      assert !O.Closed(r) && LeasedTo(View(s, id), e.token);
    } else {
      assert !LeasedTo(View(s, id), e.token);
      RowOkFrame(s, Step(s, e), id);
    }
  }

  lemma RequeueRefines(s: State, e: Event, id: Id)
    requires RowOk(s, id) && e.Requeue? && s.kind.Jobs?
    ensures Refines(s, e, Step(s, e), id) && RowOk(Step(s, e), id)
  {
    if e.id != id { RowOkFrame(s, Step(s, e), id); }
  }

  lemma DiscardRefines(s: State, e: Event, id: Id)
    requires RowOk(s, id) && e.Discard? && s.kind.Jobs?
    ensures Refines(s, e, Step(s, e), id) && RowOk(Step(s, e), id)
  {
    if e.id != id { RowOkFrame(s, Step(s, e), id); }
  }

  /** Every step is an abstract attempt or a stutter, on every id. */
  lemma StepRefines(s: State, e: Event, id: Id, joined: bool)
    requires Inv(s) && Enabled(s, e, joined)
    ensures Refines(s, e, Step(s, e), id) && RowOk(Step(s, e), id)
  {
    match e
    case Tick(_) => TickRefines(s, e, id);
    case Insert(_, _, _, _) => InsertRefines(s, e, id);
    case ClaimBatch(_, chosen, _, _, _) => if id in chosen { ClaimChosen(s, e, id); } else { ClaimNotChosen(s, e, id); }
    case RunRenewal(_) => RenewalRefines(s, e, id);
    case Report(_, _, _) => ReportRefines(s, e, id);
    case Requeue(_, _) => RequeueRefines(s, e, id);
    case Discard(_) => DiscardRefines(s, e, id);
    case _ => HoldingRefines(s, e, id, joined);
  }

  // ---------------------------------------------------------------- whole runs

  lemma LaterTrail(h: seq<Entry>, item: Item, now: Time, used: set<nat>, now': Time, used': set<nat>)
    requires GoodTrail(h, item, now, used) && used <= used' && now <= now'
    ensures GoodTrail(h, item, now', used')
  {
  }

  /** An attempt made now, whose token is new if it claims. */
  ghost predicate Timely(attempt: Option<Entry>, now: Time, used: set<nat>, used': set<nat>) {
    attempt.Some? ==>
      && attempt.value.at == now
      && (attempt.value.action.Claim? ==> attempt.value.action.token.prefix !in used)
      && (TokenOf(attempt.value.action).Some? ==> TokenOf(attempt.value.action).value.prefix in used')
  }

  lemma AttemptKeepsTrail(h: seq<Entry>, item: Item, now: Time, used: set<nat>, now': Time, used': set<nat>, a: Entry)
    requires GoodTrail(h, item, now, used) && used <= used' && now <= now' && Timely(Some(a), now, used, used')
    ensures GoodTrail(h + if Apply(item, a).Some? then [a] else [], Perform(item, a), now', used')
  {
    if Apply(item, a).Some? {
      var spent := if TokenOf(a.action).Some? then {TokenOf(a.action).value.prefix} else {};
      LaterTrail(h + [a], Perform(item, a), now, used + spent, now', used');
    } else {
      assert h + [] == h;
      LaterTrail(h, item, now, used, now', used');
    }
  }

  lemma MoveKeepsTrail(s: State, s': State, id: Id, attempt: Option<Entry>)
    requires TrailOk(s, id) && Moves(s, s', id, attempt) && s.used <= s'.used && s.now <= s'.now
    requires Timely(attempt, s.now, s.used, s'.used)
    ensures TrailOk(s', id)
  {
    match attempt
    case Some(a) => AttemptKeepsTrail(Trail(s, id), View(s, id), s.now, s.used, s'.now, s'.used, a);
    case None => LaterTrail(Trail(s, id), View(s, id), s.now, s.used, s'.now, s'.used);
  }

  lemma AttemptTokens(s: State, e: Event, id: Id, joined: bool, a: Entry)
    requires HoldingsOk(s) && Enabled(s, e, joined) && AttemptOn(s, e, id) == Some(a)
    ensures a.at == s.now
    ensures a.action.Claim? ==> a.action.token.prefix !in s.used && a.action.token.prefix in Step(s, e).used
    ensures !a.action.Claim? && TokenOf(a.action).Some? ==> TokenOf(a.action).value.prefix in s.used
  {
  }

  lemma StepKeepsTrail(s: State, e: Event, id: Id, joined: bool)
    requires Inv(s) && Enabled(s, e, joined)
    ensures TrailOk(Step(s, e), id)
  {
    StepRefines(s, e, id, joined);
    if AttemptOn(s, e, id).Some? { AttemptTokens(s, e, id, joined, AttemptOn(s, e, id).value); }
    MoveKeepsTrail(s, Step(s, e), id, AttemptOn(s, e, id));
  }

  /** The same lease in the same or a later phase. */
  ghost predicate Continues(c: Holding, c': Holding, joined: bool) {
    && c'.lease == c.lease
    && (c'.inFlight > c.inFlight ==> c'.phase.Running?)
    && (!c.phase.Running? ==> !c'.phase.Running?)
    && (joined && c.phase.Running? && !c'.phase.Running? ==> c'.inFlight == 0)
  }

  ghost predicate NewClaim(s: State, e: Event, token: Token) {
    && e.ClaimBatch?
    && token.prefix == e.prefix
    && token.row in e.chosen
  }

  lemma ClaimHolding(s: State, prefix: nat, chosen: set<Id>, lease: Time, token: Token)
    requires chosen <= s.rows.Keys && token in Claimed(s, prefix, chosen, lease).holdings
    ensures var s' := Claimed(s, prefix, chosen, lease);
            if token.prefix == prefix && token.row in chosen
            then s'.holdings[token].lease == lease && s'.holdings[token].phase.Running?
            else token in s.holdings && s'.holdings[token] == s.holdings[token]
  {
  }

  /** How a step may change what a worker remembers of one claim. */
  lemma HoldingStep(s: State, e: Event, joined: bool, token: Token)
    requires Enabled(s, e, joined) && token in Step(s, e).holdings
    ensures var c' := Step(s, e).holdings[token];
            if NewClaim(s, e, token) then c'.lease == e.lease && c'.phase.Running? && e.prefix in Step(s, e).used
            else token in s.holdings && Continues(s.holdings[token], c', joined)
  {
    if e.ClaimBatch? {
      ClaimHolding(s, e.prefix, e.chosen, e.lease, token);
    } else {
      OtherHolding(s, e, joined, token);
    }
  }

  lemma OtherHolding(s: State, e: Event, joined: bool, token: Token)
    requires Enabled(s, e, joined) && !e.ClaimBatch? && token in Step(s, e).holdings
    ensures token in s.holdings
    ensures Continues(s.holdings[token], Step(s, e).holdings[token], joined)
  {
  }

  lemma StepKeepsHoldings(s: State, e: Event, joined: bool)
    requires HoldingsOk(s) && Enabled(s, e, joined)
    ensures HoldingsOk(Step(s, e))
  {
    forall token | token in Step(s, e).holdings
      ensures token.prefix in Step(s, e).used
      ensures Step(s, e).holdings[token].lease >= 1
    {
      HoldingStep(s, e, joined, token);
    }
  }

  lemma StepKeepsInv(s: State, e: Event, joined: bool)
    requires Inv(s) && Enabled(s, e, joined)
    ensures Inv(Step(s, e))
  {
    StepKeepsHoldings(s, e, joined);
    forall id ensures RowOk(Step(s, e), id) && TrailOk(Step(s, e), id) {
      StepRefines(s, e, id, joined);
      StepKeepsTrail(s, e, id, joined);
    }
  }

  /** With the join, a claim that has stopped has no renewal on its way to the table. */
  ghost predicate Quiet(s: State) {
    forall token :: token in s.holdings && !s.holdings[token].phase.Running? ==> s.holdings[token].inFlight == 0
  }

  lemma StepKeepsQuiet(s: State, e: Event)
    requires Quiet(s) && Enabled(s, e, true)
    ensures Quiet(Step(s, e))
  {
    forall token | token in Step(s, e).holdings && !Step(s, e).holdings[token].phase.Running?
      ensures Step(s, e).holdings[token].inFlight == 0
    {
      HoldingStep(s, e, true, token);
    }
  }

  /** Outbox runs, and jobs runs whose `stop` joins, never bring a renewal to a failed job. */
  lemma NoLateRenewal(s: State, e: Event)
    requires Inv(s) && (s.kind.Jobs? ==> Quiet(s)) && e.RunRenewal? && e.token in s.holdings
               && s.holdings[e.token].inFlight > 0
    ensures !LateRenewal(s, e)
  {
    assert RowOk(s, e.token.row);
  }

  lemma ConsAttempt(s: State, s': State, id: Id, attempt: Option<Entry>, rest: seq<Entry>)
    requires Moves(s, s', id, attempt)
    ensures var attempts := AttemptsOf(attempt) + rest;
            && PerformAll(View(s, id), attempts) == PerformAll(View(s', id), rest)
            && Trail(s, id) + Effective(View(s, id), attempts) == Trail(s', id) + Effective(View(s', id), rest)
  {
    match attempt
    case None => assert [] + rest == rest;
    case Some(a) => ConsEffect(Trail(s, id), View(s, id), a, rest);
  }

  /**
   The refinement over whole runs: the abstract item of every id is what the abstract queue makes of
   the run's attempts on it, and the audit trail grows by exactly the effective ones.
   */
  lemma {:induction false} RunRefines(s: State, es: seq<Event>, id: Id, joined: bool)
    requires Inv(s) && ValidRun(s, es, joined)
    ensures Inv(RunAll(s, es))
    ensures View(RunAll(s, es), id) == PerformAll(View(s, id), Attempts(s, es, id))
    ensures Trail(RunAll(s, es), id) == Trail(s, id) + Effective(View(s, id), Attempts(s, es, id))
    decreases es
  {
    if es != [] {
      var e, s' := es[0], Step(s, es[0]);
      StepRefines(s, e, id, joined);
      StepKeepsInv(s, e, joined);
      RunRefines(s', es[1..], id, joined);
      ConsAttempt(s, s', id, AttemptOn(s, e, id), Attempts(s', es[1..], id));
    }
  }

  lemma {:induction false} RunKeepsKind(s: State, es: seq<Event>)
    ensures RunAll(s, es).kind == s.kind
    decreases es
  {
    if es != [] {
      RunKeepsKind(Step(s, es[0]), es[1..]);
    }
  }
}

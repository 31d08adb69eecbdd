/**
 Any number of workers over one table. Each SQL statement is one atomic step at the database clock;
 a worker that crashes simply takes no further step, and a statement that reports an error either
 ran (its step is in the run) or did not (it is not).
 */
module LeaseMachine {
  import opened Common
  import opened LeaseQueue
  import opened Statements
  import J = JobsSql
  import O = OutboxSql

  datatype Kind = Jobs | Outbox

  datatype Row = Job(job: J.Row) | Message(msg: O.Row)

  /** A worker's local view of one claimed row. */
  datatype Phase = Running | Stopped | Reported
  datatype Holding = Holding(attempt: nat, limit: nat, lease: Time, phase: Phase, inFlight: nat)

  /** `history` is the audit trail of the statements that affected an open row, per id. */
  datatype State = State(kind: Kind, now: Time, rows: map<Id, Row>, holdings: map<Token, Holding>,
                         used: set<nat>, history: map<Id, seq<Entry>>)

  datatype Event =
    | Tick(d: Time)
    | Insert(id: Id, occurredAt: Time, ready: Time, requested: int)
    | ClaimBatch(prefix: nat, chosen: set<Id>, skipped: set<Id>, batch: int, lease: Time)
    | SendRenewal(token: Token)
    | RunRenewal(token: Token)
    | LoseRenewal(token: Token)
    | Stop(token: Token)
    | Report(token: Token, ok: bool, delay: Time)
    | Requeue(id: Id, runAt: Time)
    | Discard(id: Id)

  function Init(kind: Kind, now: Time): State {
    State(kind, now, map[], map[], {}, map[])
  }

  function Trail(s: State, id: Id): seq<Entry> {
    if id in s.history then s.history[id] else []
  }

  // ---------------------------------------------------------------- the statements

  predicate Eligible(r: Row, now: Time) {
    match r case Job(j) => J.Eligible(j, now) case Message(m) => O.Eligible(m, now)
  }

  function OrderKey(r: Row): Time {
    match r case Job(j) => j.runAt case Message(m) => m.occurredAt
  }

  /** The subselect of the claim: eligible rows no one has locked, oldest first, at most `batch`. */
  predicate ValidSelection(s: State, chosen: set<Id>, skipped: set<Id>, batch: int) {
    && chosen <= s.rows.Keys && |chosen| <= batch
    && (forall id :: id in chosen ==> id !in skipped && Eligible(s.rows[id], s.now))
    && forall id :: id in s.rows && id !in skipped && id !in chosen && Eligible(s.rows[id], s.now) ==>
         |chosen| == batch && forall c :: c in chosen ==> OrderKey(s.rows[c]) <= OrderKey(s.rows[id])
  }

  function ClaimRow(r: Row, now: Time, lease: Time, token: Token): Row {
    match r case Job(j) => Job(J.Claim(j, now, lease, token)) case Message(m) => Message(O.Claim(m, now, lease, token))
  }

  function LiftJob(e: Effect<J.Row>): Effect<Row> {
    match e case NoMatch => NoMatch case Becomes(r) => Becomes(Job(r)) case Removed => Removed
  }

  function LiftMessage(e: Effect<O.Row>): Effect<Row> {
    match e case NoMatch => NoMatch case Becomes(r) => Becomes(Message(r)) case Removed => Removed
  }

  function RenewRow(r: Row, now: Time, lease: Time, token: Token): Effect<Row> {
    match r
    case Job(j) => LiftJob(J.Renew(j, now, lease, token))
    case Message(m) => LiftMessage(O.Renew(m, now, lease, token))
  }

  /** `locked_until > NOW()` lets a renewal through to a job that is already marked failed. */
  predicate Late(r: Row) {
    r.Job? && r.job.lockedUntil.Infinity?
  }

  function RenewAction(r: Row, token: Token, until: Time): Action {
    if Late(r) then Revive(token, until) else LeaseQueue.Renew(token, until)
  }

  function ReportRow(r: Row, now: Time, token: Token, c: Holding, ok: bool, delay: Time): Effect<Row> {
    match r
    case Job(j) => LiftJob(J.Report(j, now, token, c.attempt, c.limit, ok, delay))
    case Message(m) => LiftMessage(O.Report(m, now, token, c.attempt, c.limit, ok, delay))
  }

  /** A renewal of a processed or failed message moves its timestamps without reopening it. */
  predicate Open(r: Row) {
    r.Message? ==> !O.Closed(r.msg)
  }

  /** Runs a statement on one row; RowsAffected is 1 exactly when the effect is not NoMatch. */
  function RunOn(s: State, id: Id, effect: Effect<Row>, action: Action): State
    requires id in s.rows
  {
    var trail := if Open(s.rows[id]) then Trail(s, id) + [Entry(s.now, action)] else Trail(s, id);
    match effect
    case NoMatch => s
    case Becomes(row) => s.(rows := s.rows[id := row], history := s.history[id := trail])
    case Removed => s.(rows := s.rows - {id}, history := s.history[id := trail])
  }

  function OutcomeAction(c: Holding, token: Token, ok: bool, ready: Time): Action {
    if ok then Complete(token) else if c.attempt + 1 >= c.limit then Exhaust(token) else Retry(token, ready)
  }

  // ---------------------------------------------------------------- steps

  /**
   Which steps can happen. `joined` says whether `stop` waits until no renewal of the claim can
   still reach the table.
   */
  predicate Enabled(s: State, e: Event, joined: bool) {
    match e
    case Tick(d) => d >= 0
    case Insert(_, _, _, _) => true
    case ClaimBatch(prefix, chosen, skipped, batch, lease) =>
      prefix !in s.used && lease >= 1 && ValidSelection(s, chosen, skipped, batch)
    case SendRenewal(token) => token in s.holdings && s.holdings[token].phase.Running?
    case RunRenewal(token) => token in s.holdings && s.holdings[token].inFlight > 0
    case LoseRenewal(token) => token in s.holdings && s.holdings[token].inFlight > 0
    case Stop(token) =>
      && token in s.holdings && s.holdings[token].phase.Running?
      && (joined ==> s.holdings[token].inFlight == 0)
    case Report(token, _, delay) => token in s.holdings && s.holdings[token].phase.Stopped?
    case Requeue(_, _) => s.kind.Jobs?
    case Discard(_) => s.kind.Jobs?
  }

  function SetHolding(s: State, token: Token, c: Holding): State {
    s.(holdings := s.holdings[token := c])
  }

  function RowAttempt(r: Row): nat {
    match r case Job(j) => j.attempt case Message(m) => m.attempt
  }

  function RowLimit(r: Row): nat {
    match r case Job(j) => j.maxAttempts case Message(m) => m.maxAttempts
  }

  function Claimed(s: State, prefix: nat, chosen: set<Id>, lease: Time): State
    requires chosen <= s.rows.Keys
  {
    s.(rows := map id | id in s.rows ::
                 if id in chosen then ClaimRow(s.rows[id], s.now, lease, Token(prefix, id)) else s.rows[id],
       holdings := s.holdings + map id | id in chosen ::
                 Token(prefix, id) := Holding(RowAttempt(s.rows[id]), RowLimit(s.rows[id]), lease, Running, 0),
       used := s.used + {prefix},
       history := map id | id in s.history.Keys + chosen ::
                 if id in chosen then Trail(s, id) + [Entry(s.now, LeaseQueue.Claim(Token(prefix, id), s.now + lease))]
                 else s.history[id])
  }

  function InsertRow(kind: Kind, occurredAt: Time, ready: Time, requested: int): Option<Row> {
    match kind
    case Jobs => Some(Job(J.Insert(ready, requested)))
    case Outbox => if requested <= 0 then None else Some(Message(O.Insert(occurredAt, ready, requested)))
  }

  function Step(s: State, e: Event): State {
    match e
    case Tick(d) => s.(now := s.now + d)
    case Insert(id, occurredAt, ready, requested) =>
      (match InsertRow(s.kind, occurredAt, ready, requested)
       case None => s
       case Some(row) =>
         if id in s.rows then s
         else s.(rows := s.rows[id := row],
                 history := s.history[id := Trail(s, id) + [Entry(s.now, InsertAction(ready, row))]]))
    case ClaimBatch(prefix, chosen, _, _, lease) =>
      if chosen <= s.rows.Keys then Claimed(s, prefix, chosen, lease) else s
    case SendRenewal(token) =>
      if token !in s.holdings then s
      else var c := s.holdings[token]; SetHolding(s, token, c.(inFlight := c.inFlight + 1))
    case RunRenewal(token) =>
      if token !in s.holdings || s.holdings[token].inFlight == 0 then s
      else
        var c := s.holdings[token];
        var s1 := SetHolding(s, token, c.(inFlight := c.inFlight - 1));
        if token.row !in s.rows then s1
        else RunOn(s1, token.row, RenewRow(s.rows[token.row], s.now, c.lease, token),
                   RenewAction(s.rows[token.row], token, s.now + c.lease))
    case LoseRenewal(token) =>
      if token !in s.holdings || s.holdings[token].inFlight == 0 then s
      else var c := s.holdings[token]; SetHolding(s, token, c.(inFlight := c.inFlight - 1))
    case Stop(token) =>
      if token !in s.holdings then s else SetHolding(s, token, s.holdings[token].(phase := Stopped))
    case Report(token, ok, delay) =>
      if token !in s.holdings then s
      else
        var c := s.holdings[token];
        var s1 := SetHolding(s, token, c.(phase := Reported));
        if token.row !in s.rows then s1
        else RunOn(s1, token.row, ReportRow(s.rows[token.row], s.now, token, c, ok, delay),
                   OutcomeAction(c, token, ok, s.now + delay))
    case Requeue(id, runAt) =>
      if id in s.rows && s.rows[id].Job?
      then RunOn(s, id, LiftJob(J.Requeue(s.rows[id].job, runAt)), LeaseQueue.Requeue(runAt)) else s
    case Discard(id) =>
      if id in s.rows && s.rows[id].Job?
      then RunOn(s, id, LiftJob(J.Discard(s.rows[id].job)), LeaseQueue.Discard) else s
  }

  function InsertAction(ready: Time, row: Row): Action {
    Enqueue(ready, RowLimit(row))
  }

  // ---------------------------------------------------------------- the abstraction

  /** The abstract item that id stands for; deleted rows are told apart by their audit trail. */
  function View(s: State, id: Id): Item {
    if id in s.rows then
      match s.rows[id] case Job(j) => J.View(j) case Message(m) => O.View(m)
    else
      var trail := Trail(s, id);
      if trail == [] then Absent
      else match trail[|trail|-1].action
           case Complete(_) => Done
           case Discard => Discarded
           case _ => Absent
  }

  /** What a step attempts on id, in the terms of the abstract queue. */
  function AttemptOn(s: State, e: Event, id: Id): Option<Entry> {
    match e
    case Insert(id', occurredAt, ready, requested) =>
      (match InsertRow(s.kind, occurredAt, ready, requested)
       case Some(row) => if id' == id && id !in s.rows then Some(Entry(s.now, InsertAction(ready, row))) else None
       case None => None)
    case ClaimBatch(prefix, chosen, _, _, lease) =>
      if id in chosen then Some(Entry(s.now, LeaseQueue.Claim(Token(prefix, id), s.now + lease))) else None
    case RunRenewal(token) =>
      if token.row == id && id in s.rows && token in s.holdings
      then Some(Entry(s.now, RenewAction(s.rows[id], token, s.now + s.holdings[token].lease))) else None
    case Report(token, ok, delay) =>
      if token.row == id && token in s.holdings
      then Some(Entry(s.now, OutcomeAction(s.holdings[token], token, ok, s.now + delay))) else None
    case Requeue(id', runAt) => if id' == id then Some(Entry(s.now, LeaseQueue.Requeue(runAt))) else None
    case Discard(id') => if id' == id then Some(Entry(s.now, LeaseQueue.Discard)) else None
    case _ => None
  }

  // ---------------------------------------------------------------- runs

  function RunAll(s: State, es: seq<Event>): State
    decreases es
  {
    if es == [] then s else RunAll(Step(s, es[0]), es[1..])
  }

  predicate ValidRun(s: State, es: seq<Event>, joined: bool)
    decreases es
  {
    es == [] || (Enabled(s, es[0], joined) && ValidRun(Step(s, es[0]), es[1..], joined))
  }

  function AttemptsOf(attempt: Option<Entry>): seq<Entry> {
    match attempt case Some(a) => [a] case None => []
  }

  /** What a run attempts on id, in the terms of the abstract queue. */
  function Attempts(s: State, es: seq<Event>, id: Id): seq<Entry>
    decreases es
  {
    if es == [] then [] else AttemptsOf(AttemptOn(s, es[0], id)) + Attempts(Step(s, es[0]), es[1..], id)
  }
}

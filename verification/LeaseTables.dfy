/** What a statement does to the row named in its WHERE clause. */
module Statements {
  datatype Effect<+R> = NoMatch | Becomes(row: R) | Removed
}

/** The devengine_jobs table: the columns that decide claiming, and each statement on one row. */
module JobsSql {
  import opened Common
  import opened LeaseQueue
  import opened Statements

  const DEFAULT_MAX_ATTEMPTS := 5

  /** locked_until: NULL, a time, or 'infinity', which marks a permanent failure. */
  datatype Lock = Null | At(t: Time) | Infinity

  datatype Row = Row(runAt: Time, lockedUntil: Lock, claimToken: Option<Token>, attempt: nat, maxAttempts: nat)

  /** jobs.Enqueue: a non-positive limit becomes the default. */
  function Insert(runAt: Time, requested: int): Row {
    Row(runAt, Null, None, 0, if requested <= 0 then DEFAULT_MAX_ATTEMPTS else requested)
  }

  predicate Eligible(r: Row, now: Time) {
    && r.runAt <= now
    && (r.lockedUntil.Null? || (r.lockedUntil.At? && r.lockedUntil.t <= now))
  }

  function Claim(r: Row, now: Time, lease: Time, token: Token): Row {
    r.(lockedUntil := At(now + lease), claimToken := Some(token))
  }

  /** `locked_until > NOW()`, which also holds of 'infinity'. */
  predicate LockedAfter(l: Lock, now: Time) {
    l.Infinity? || (l.At? && l.t > now)
  }

  function Renew(r: Row, now: Time, lease: Time, token: Token): Effect<Row> {
    if r.claimToken == Some(token) && LockedAfter(r.lockedUntil, now)
    then Becomes(r.(lockedUntil := At(now + lease))) else NoMatch
  }

  /** The outcome statement writes the attempt number remembered at the claim, plus one. */
  function Report(r: Row, now: Time, token: Token, remembered: nat, limit: nat, ok: bool, delay: Time): Effect<Row> {
    if r.claimToken != Some(token) then NoMatch
    else if ok then Removed
    else if remembered + 1 >= limit then Becomes(r.(attempt := remembered + 1, lockedUntil := Infinity))
    else Becomes(Row(now + delay, Null, None, remembered + 1, r.maxAttempts))
  }

  function Requeue(r: Row, runAt: Time): Effect<Row> {
    if r.lockedUntil.Infinity? then Becomes(Row(runAt, Null, None, 0, r.maxAttempts)) else NoMatch
  }

  function Discard(r: Row): Effect<Row> {
    if r.lockedUntil.Infinity? then Removed else NoMatch
  }

  /** The abstract item a row stands for. */
  function View(r: Row): Item {
    match r.lockedUntil
    case Infinity => Failed(r.claimToken, r.attempt, r.maxAttempts)
    case Null => Pending(r.runAt, r.attempt, r.maxAttempts)
    case At(t) =>
      if r.claimToken.Some? then Leased(r.claimToken.value, t, r.attempt, r.maxAttempts)
      else Pending(r.runAt, r.attempt, r.maxAttempts)
  }
}

/** The outbox_messages table, likewise. */
module OutboxSql {
  import opened Common
  import opened LeaseQueue
  import opened Statements

  datatype Row = Row(occurredAt: Time, processAfter: Time, lockedUntil: Option<Time>, processedAt: Option<Time>,
                     failedAt: Option<Time>, claimToken: Option<Token>, attempt: nat, maxAttempts: nat)

  function Insert(occurredAt: Time, processAfter: Time, maxAttempts: nat): Row {
    Row(occurredAt, processAfter, None, None, None, None, 0, maxAttempts)
  }

  predicate Closed(r: Row) {
    r.processedAt.Some? || r.failedAt.Some?
  }

  predicate Eligible(r: Row, now: Time) {
    && !Closed(r)
    && r.processAfter <= now
    && (r.lockedUntil.None? || r.lockedUntil.value <= now)
  }

  function Claim(r: Row, now: Time, lease: Time, token: Token): Row {
    r.(processAfter := now + lease, lockedUntil := Some(now + lease), claimToken := Some(token))
  }

  function Renew(r: Row, now: Time, lease: Time, token: Token): Effect<Row> {
    if r.claimToken == Some(token) && r.lockedUntil.Some? && r.lockedUntil.value > now
    then Becomes(r.(processAfter := now + lease, lockedUntil := Some(now + lease))) else NoMatch
  }

  function Report(r: Row, now: Time, token: Token, remembered: nat, limit: nat, ok: bool, delay: Time): Effect<Row> {
    if r.claimToken != Some(token) then NoMatch
    else if ok then Becomes(r.(processedAt := Some(now)))
    else if remembered + 1 >= limit then Becomes(r.(failedAt := Some(now), attempt := remembered + 1))
    else Becomes(r.(attempt := remembered + 1, processAfter := now + delay, lockedUntil := None, claimToken := None))
  }

  function View(r: Row): Item {
    if r.processedAt.Some? then Done
    else if r.failedAt.Some? then Failed(r.claimToken, r.attempt, r.maxAttempts)
    else if r.claimToken.Some? && r.lockedUntil.Some?
    then Leased(r.claimToken.value, r.lockedUntil.value, r.attempt, r.maxAttempts)
    else Pending(r.processAfter, r.attempt, r.maxAttempts)
  }
}

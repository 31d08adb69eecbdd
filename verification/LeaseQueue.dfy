/**
 The abstract lease queue that the jobs table and the outbox table both implement.

 One work item moves through a small automaton. `Apply` is its transition function, guarded by
 what a queue user expects (who may do what, and when). A history is the sequence of transitions
 an item took; the theorems of this module are about every legal history.
 */
module LeaseQueue {
  import opened Common

  type Time = int
  type Id = string

  /** The text of a claim token is a fixed-width prefix, a colon and the row id. */
  datatype Token = Token(prefix: nat, row: Id)

  datatype Item =
    | Absent
    | Pending(ready: Time, attempt: nat, limit: nat)
    | Leased(token: Token, until: Time, attempt: nat, limit: nat)
    | Failed(owner: Option<Token>, attempt: nat, limit: nat)
    | Done
    | Discarded

  datatype Action =
    | Enqueue(ready: Time, limit: nat)
    | Claim(token: Token, until: Time)
    | Renew(token: Token, until: Time)
    | Complete(token: Token)
    | Retry(token: Token, ready: Time)
    | Exhaust(token: Token)
    | Revive(token: Token, until: Time)
    | Requeue(ready: Time)
    | Discard

  datatype Entry = Entry(at: Time, action: Action)

  /** Items that a delivery or an administrator still has to deal with. */
  predicate Live(item: Item) {
    item.Pending? || item.Leased? || item.Failed?
  }

  /** When an item may be claimed: at its ready time, or once the current lease has run out. */
  predicate Claimable(item: Item, now: Time) {
    match item
    case Pending(ready, _, _) => ready <= now
    case Leased(_, until, _, _) => until <= now
    case _ => false
  }

  predicate LeasedTo(item: Item, token: Token) {
    item.Leased? && item.token == token
  }

  /** A permanently failed item still carries the token of the claim that failed it. */
  predicate Carries(item: Item, token: Token) {
    LeasedTo(item, token) || (item.Failed? && item.owner == Some(token))
  }

  /** The transition function; None when the item does not allow the action. */
  function Apply(item: Item, e: Entry): Option<Item> {
    match e.action
    case Enqueue(ready, limit) =>
      if !Live(item) && limit >= 1 then Some(Pending(ready, 0, limit)) else None
    case Claim(token, until) =>
      if Claimable(item, e.at) && until > e.at then Some(Leased(token, until, item.attempt, item.limit)) else None
    case Renew(token, until) =>
      if LeasedTo(item, token) && item.until > e.at && until >= item.until then Some(item.(until := until)) else None
    case Complete(token) =>
      if LeasedTo(item, token) then Some(Done) else None
    case Retry(token, ready) =>
      if LeasedTo(item, token) && item.attempt + 1 < item.limit
      then Some(Pending(ready, item.attempt + 1, item.limit)) else None
    case Exhaust(token) =>
      if LeasedTo(item, token) && item.attempt + 1 >= item.limit
      then Some(Failed(Some(token), item.attempt + 1, item.limit)) else None
    case Revive(token, until) =>
      if item.Failed? && item.owner == Some(token) then Some(Leased(token, until, item.attempt, item.limit)) else None
    case Requeue(ready) =>
      if item.Failed? then Some(Pending(ready, 0, item.limit)) else None
    case Discard =>
      if item.Failed? then Some(Discarded) else None
  }

  /** An attempted action that the item does not allow changes nothing. */
  function Perform(item: Item, e: Entry): Item {
    match Apply(item, e)
    case Some(next) => next
    case None => item
  }

  function PerformAll(item: Item, attempts: seq<Entry>): Item
    decreases attempts
  {
    if attempts == [] then item else PerformAll(Perform(item, attempts[0]), attempts[1..])
  }

  /** The attempts that had an effect, in order. */
  function Effective(item: Item, attempts: seq<Entry>): seq<Entry>
    decreases attempts
  {
    if attempts == [] then []
    else
      (if Apply(item, attempts[0]).Some? then [attempts[0]] else [])
      + Effective(Perform(item, attempts[0]), attempts[1..])
  }

  /** The item a history leads to, from an absent item; None for a history no item can take. */
  function Replay(h: seq<Entry>): Option<Item> {
    if h == [] then Some(Absent)
    else
      match Replay(h[..|h|-1])
      case None => None
      case Some(item) => Apply(item, h[|h|-1])
  }

  function TokenOf(a: Action): Option<Token> {
    match a
    case Claim(t, _) => Some(t)
    case Renew(t, _) => Some(t)
    case Complete(t) => Some(t)
    case Retry(t, _) => Some(t)
    case Exhaust(t) => Some(t)
    case Revive(t, _) => Some(t)
    case _ => None
  }

  predicate Grants(a: Action, token: Token) {
    && (a.Claim? || a.Renew? || a.Revive?)
    && a.token == token
  }

  /** A recorded outcome gives the lease up. */
  predicate GivesUp(a: Action, token: Token) {
    && (a.Complete? || a.Retry? || a.Exhaust?)
    && a.token == token
  }

  ghost predicate Mentions(h: seq<Entry>, token: Token) {
    exists i :: 0 <= i < |h| && TokenOf(h[i].action) == Some(token)
  }

  ghost predicate TimeOrdered(h: seq<Entry>) {
    forall i, j :: 0 <= i <= j < |h| ==> h[i].at <= h[j].at
  }

  /** Every claim brings a token the history has not seen. */
  ghost predicate FreshClaims(h: seq<Entry>) {
    forall j :: 0 <= j < |h| && h[j].action.Claim? ==> !Mentions(h[..j], h[j].action.token)
  }

  ghost predicate Legal(h: seq<Entry>) {
    Replay(h).Some? && TimeOrdered(h) && FreshClaims(h)
  }

  function Current(h: seq<Entry>): Item
    requires Replay(h).Some?
  {
    Replay(h).value
  }

  // ---------------------------------------------------------------- prefixes and extension

  lemma {:induction false} PrefixLegal(h: seq<Entry>, k: nat)
    requires Legal(h) && k <= |h|
    ensures Legal(h[..k])
    decreases |h| - k
  {
    if k == |h| {
      assert h[..k] == h;
    } else {
      PrefixLegal(h, k + 1);
      var g := h[..k + 1];
      assert g[..|g|-1] == h[..k];
      forall j | 0 <= j < k && h[..k][j].action.Claim?
        ensures !Mentions(h[..k][..j], h[j].action.token)
      {
        assert h[..k][..j] == h[..j];
      }
    }
  }

  /** One step of a legal history. */
  lemma StepOf(h: seq<Entry>, k: nat)
    requires Legal(h) && k < |h|
    ensures Legal(h[..k]) && Legal(h[..k + 1])
    ensures Apply(Current(h[..k]), h[k]) == Some(Current(h[..k + 1]))
  {
    PrefixLegal(h, k);
    PrefixLegal(h, k + 1);
    assert h[..k + 1][..k] == h[..k];
  }

  lemma ReplaySnoc(h: seq<Entry>, e: Entry)
    requires Replay(h).Some?
    ensures Replay(h + [e]) == Apply(Current(h), e)
  {
  }

  /** The first of several attempts. */
  lemma ConsEffect(h: seq<Entry>, item: Item, e: Entry, rest: seq<Entry>)
    ensures PerformAll(item, [e] + rest) == PerformAll(Perform(item, e), rest)
    ensures h + Effective(item, [e] + rest)
            == h + (if Apply(item, e).Some? then [e] else []) + Effective(Perform(item, e), rest)
  {
  }

  /** Performing attempts after a history appends exactly the effective ones to it. */
  lemma {:induction false} PerformAllExtendsHistory(h: seq<Entry>, item: Item, attempts: seq<Entry>)
    requires Replay(h) == Some(item)
    ensures Replay(h + Effective(item, attempts)) == Some(PerformAll(item, attempts))
    decreases attempts
  {
    if attempts == [] {
      assert h + [] == h;
    } else {
      var e, rest := attempts[0], attempts[1..];
      var longer := h + if Apply(item, e).Some? then [e] else [];
      assert attempts == [e] + rest;
      ConsEffect(h, item, e, rest);
      if Apply(item, e).Some? { ReplaySnoc(h, e); } else { assert longer == h; }
      PerformAllExtendsHistory(longer, Perform(item, e), rest);
    }
  }

  // ---------------------------------------------------------------- lease exclusion

  /** `token` holds a valid lease at time t: granted, not run out, and not given up by then. */
  ghost predicate HoldsAt(h: seq<Entry>, token: Token, t: Time) {
    exists i :: GrantedAt(h, i, token, t)
  }

  ghost predicate GrantedAt(h: seq<Entry>, i: int, token: Token, t: Time) {
    && 0 <= i < |h| && Grants(h[i].action, token)
    && h[i].at <= t < h[i].action.until
    && forall k :: i < k < |h| && h[k].at <= t ==> !GivesUp(h[k].action, token)
  }

  /** The tenure that starts with grant i is over by step k. */
  ghost predicate Over(h: seq<Entry>, i: nat, k: nat)
    requires i < |h| && (h[i].action.Claim? || h[i].action.Renew? || h[i].action.Revive?)
  {
    && k < |h|
    && (GivesUp(h[k].action, h[i].action.token) || (h[k].action.Claim? && h[i].action.until <= h[k].at))
  }

  lemma {:induction false} TenureLasts(h: seq<Entry>, i: nat, j: nat)
    requires Legal(h) && i < j <= |h|
    requires h[i].action.Claim? || h[i].action.Renew? || h[i].action.Revive?
    ensures Legal(h[..j])
    ensures
      || (exists k :: i < k < j && Over(h, i, k))
      || (LeasedTo(Current(h[..j]), h[i].action.token) && Current(h[..j]).until >= h[i].action.until)
  {
    StepOf(h, j - 1);
    if j > i + 1 {
      TenureLasts(h, i, j - 1);
      if exists k :: i < k < j - 1 && Over(h, i, k) {
      } else if h[j - 1].action.Claim? || GivesUp(h[j - 1].action, h[i].action.token) {
        assert Over(h, i, j - 1);
      }
    }
  }

  lemma GrantsAreDisjoint(h: seq<Entry>, i: nat, j: nat, a: Token, b: Token, t: Time)
    requires Legal(h) && i < j < |h|
    requires GrantedAt(h, i, a, t) && GrantedAt(h, j, b, t)
    ensures a == b
  {
    assert forall k :: i < k < j ==> h[k].at <= h[j].at;
    TenureLasts(h, i, j);
    StepOf(h, j);
  }

  /** At no time do two distinct tokens hold a valid lease on one item. */
  lemma LeaseExclusion(h: seq<Entry>, a: Token, b: Token, t: Time)
    requires Legal(h) && HoldsAt(h, a, t) && HoldsAt(h, b, t)
    ensures a == b
  {
    var i :| GrantedAt(h, i, a, t);
    var j :| GrantedAt(h, j, b, t);
    if i < j {
      GrantsAreDisjoint(h, i, j, a, b, t);
    } else if j < i {
      GrantsAreDisjoint(h, j, i, b, a, t);
    }
  }

  // ---------------------------------------------------------------- stale tokens

  lemma {:induction false} CarriedTokenIsMentioned(h: seq<Entry>, token: Token)
    requires Legal(h) && Carries(Current(h), token)
    ensures Mentions(h, token)
  {
  }

  /** A token that has been replaced or cleared never comes back to the item. */
  lemma {:induction false} StaleForever(h: seq<Entry>, i: nat, j: nat, m: nat, token: Token)
    requires Legal(h) && i <= j <= m <= |h|
    requires Legal(h[..i]) && Legal(h[..j])
    requires Carries(Current(h[..i]), token) && !Carries(Current(h[..j]), token)
    ensures Legal(h[..m]) && !Carries(Current(h[..m]), token)
    decreases m
  {
    PrefixLegal(h, m);
    if j < m {
      StaleForever(h, i, j, m - 1, token);
      StepOf(h, m - 1);
      CarriedTokenIsMentioned(h[..i], token);
      MentionedLater(h, i, m - 1, token);
    }
  }

  lemma MentionedLater(h: seq<Entry>, i: nat, m: nat, token: Token)
    requires i <= m <= |h| && Mentions(h[..i], token)
    ensures Mentions(h[..m], token)
  {
  }

  /** Nothing a stale token attempts changes the item. */
  lemma StaleTokenIsInert(h: seq<Entry>, i: nat, j: nat, token: Token, e: Entry)
    requires Legal(h) && i <= j <= |h| && Legal(h[..i]) && Legal(h[..j])
    requires Carries(Current(h[..i]), token) && !Carries(Current(h[..j]), token)
    requires TokenOf(e.action) == Some(token) && !e.action.Claim?
    ensures Perform(Current(h), e) == Current(h)
  {
    StaleForever(h, i, j, |h|, token);
    assert h[..|h|] == h;
  }

  // ---------------------------------------------------------------- attempts

  /** Failures recorded since the item was last enqueued or requeued. */
  function FailuresSince(h: seq<Entry>): nat {
    if h == [] then 0
    else
      var before := FailuresSince(h[..|h|-1]);
      match h[|h|-1].action
      case Enqueue(_, _) => 0
      case Requeue(_) => 0
      case Retry(_, _) => before + 1
      case Exhaust(_) => before + 1
      case _ => before
  }

  /** The retry limit given at the latest enqueue. */
  function LimitOf(h: seq<Entry>): nat {
    if h == [] then 0
    else if h[|h|-1].action.Enqueue? then h[|h|-1].action.limit
    else LimitOf(h[..|h|-1])
  }

  /** Whether a late renewal has revived the item since it was last enqueued or requeued. */
  predicate RevivedSince(h: seq<Entry>) {
    if h == [] then false
    else
      var last := h[|h|-1].action;
      !last.Enqueue? && !last.Requeue? && (last.Revive? || RevivedSince(h[..|h|-1]))
  }

  /**
   The stored counter is the number of recorded failures. A failed item has used its limit up, exactly
   unless it was revived; any other item has attempts left exactly unless it was revived.
   */
  lemma {:induction false} AttemptsCountFailures(h: seq<Entry>)
    requires Legal(h) && Live(Current(h))
    ensures Current(h).attempt == FailuresSince(h)
    ensures Current(h).limit == LimitOf(h) >= 1
    ensures Current(h).Failed? ==> FailuresSince(h) >= LimitOf(h)
    ensures Current(h).Failed? && !RevivedSince(h) ==> FailuresSince(h) == LimitOf(h)
    ensures !Current(h).Failed? ==> (FailuresSince(h) < LimitOf(h) <==> !RevivedSince(h))
    decreases |h|
  {
    var n := |h| - 1;
    StepOf(h, n);
    assert h[..n + 1] == h;
    if Live(Current(h[..n])) {
      AttemptsCountFailures(h[..n]);
    }
  }

  /**
   A recorded failure is permanent exactly when the failures since enqueue or requeue reach the limit,
   and they go past it exactly when the item was revived.
   */
  lemma {:induction false} ExhaustedExactlyAtLimit(h: seq<Entry>)
    requires Legal(h) && h != []
    requires h[|h|-1].action.Retry? || h[|h|-1].action.Exhaust?
    ensures h[|h|-1].action.Exhaust? <==> FailuresSince(h) >= LimitOf(h)
    ensures FailuresSince(h) > LimitOf(h) <==> RevivedSince(h)
  {
    var n := |h| - 1;
    StepOf(h, n);
    assert h[..n + 1] == h;
    AttemptsCountFailures(h[..n]);
    AttemptsCountFailures(h);
  }

  // ---------------------------------------------------------------- conservation

  function Enqueues(h: seq<Entry>): nat {
    if h == [] then 0 else Enqueues(h[..|h|-1]) + if h[|h|-1].action.Enqueue? then 1 else 0
  }

  function Completions(h: seq<Entry>): nat {
    if h == [] then 0 else Completions(h[..|h|-1]) + if h[|h|-1].action.Complete? then 1 else 0
  }

  function Discards(h: seq<Entry>): nat {
    if h == [] then 0 else Discards(h[..|h|-1]) + if h[|h|-1].action.Discard? then 1 else 0
  }

  /** Every enqueue ends in one completion or one discard, or is still live: none is lost or doubled. */
  lemma {:induction false} Conservation(h: seq<Entry>)
    requires Legal(h)
    ensures Enqueues(h) == Completions(h) + Discards(h) + if Live(Current(h)) then 1 else 0
    decreases |h|
  {
    if h != [] {
      var n := |h| - 1;
      StepOf(h, n);
      assert h[..n + 1] == h;
      Conservation(h[..n]);
    }
  }

  // ---------------------------------------------------------------- terminal states

  /** A permanent failure lasts until the item is requeued, discarded or revived. */
  lemma {:induction false} FailureLasts(h: seq<Entry>, i: nat, m: nat)
    requires Legal(h) && i <= m <= |h| && Legal(h[..i]) && Current(h[..i]).Failed?
    requires forall k :: i <= k < m ==> !h[k].action.Requeue? && !h[k].action.Discard? && !h[k].action.Revive?
    ensures Legal(h[..m]) && Current(h[..m]) == Current(h[..i])
    decreases m
  {
    if i < m {
      FailureLasts(h, i, m - 1);
      StepOf(h, m - 1);
    }
  }

  /** A completed item is never delivered again unless its id is enqueued anew. */
  lemma {:induction false} CompletionLasts(h: seq<Entry>, i: nat, m: nat)
    requires Legal(h) && i <= m <= |h| && Legal(h[..i]) && Current(h[..i]).Done?
    requires forall k :: i <= k < m ==> !h[k].action.Enqueue?
    ensures Legal(h[..m]) && Current(h[..m]).Done? && m == i
    decreases m
  {
    if i < m {
      CompletionLasts(h, i, m - 1);
      StepOf(h, m - 1);
    }
  }

  // ---------------------------------------------------------------- timed retention

  /**
   The update attempts of a running handler come without gaps: each runs less than a lease after the one
   before it, the first one before the lease taken at the claim ends. `end` is what the latest update
   provides for: every attempt of anyone comes before it, or after a further update.
   */
  ghost predicate Covered(attempts: seq<Entry>, token: Token, lease: Time, end: Time)
    decreases attempts
  {
    attempts == [] ||
    (var e := attempts[0];
     && e.at < end
     && if e.action.Renew? && e.action.token == token
        then e.action.until == e.at + lease && Covered(attempts[1..], token, lease, e.at + lease)
        else !GivesUp(e.action, token) && Covered(attempts[1..], token, lease, end))
  }

  /**
   A handler of any length whose renewals leave no gap keeps its lease: whatever other workers attempt
   in between, the item stays leased to the token, and no other claim takes effect.
   */
  lemma {:induction false} CoveredHandlerKeepsLease(item: Item, attempts: seq<Entry>, token: Token, lease: Time)
    requires LeasedTo(item, token) && Covered(attempts, token, lease, item.until)
    requires forall i, j :: 0 <= i <= j < |attempts| ==> attempts[i].at <= attempts[j].at
    requires forall i :: 0 <= i < |attempts| ==> item.until - lease <= attempts[i].at
    ensures LeasedTo(PerformAll(item, attempts), token)
    ensures forall i :: 0 <= i < |Effective(item, attempts)| ==>
              Effective(item, attempts)[i].action.Renew? && Effective(item, attempts)[i].action.token == token
    decreases attempts
  {
    if attempts != [] {
      var e := attempts[0];
      assert !(e.action.Renew? && e.action.token == token) ==> Perform(item, e) == item;
      CoveredHandlerKeepsLease(Perform(item, e), attempts[1..], token, lease);
    }
  }

  /**
   A ticker's schedule: it started at `start`, ticks every `interval`, and the update of tick n (counting
   from 1) runs at or after start + n * interval. By the time of any attempt, every tick overdue by
   `slack` or more has had its update attempted. `n` counts the updates attempted so far.
   */
  ghost predicate Punctual(attempts: seq<Entry>, token: Token, start: Time, interval: Time, lease: Time,
                           claimEnd: Time, slack: Time, n: nat)
    decreases attempts
  {
    attempts == [] ||
    (var e := attempts[0];
     && e.at < (if n == 0 then claimEnd else start + (n + 1) * interval + slack)
     && (if e.action.Renew? && e.action.token == token
         then start + (n + 1) * interval <= e.at && e.action.until == e.at + lease
              && Punctual(attempts[1..], token, start, interval, lease, claimEnd, slack, n + 1)
         else !GivesUp(e.action, token)
              && Punctual(attempts[1..], token, start, interval, lease, claimEnd, slack, n)))
  }

  /** A schedule kept with less slack than lease - interval leaves no gap. */
  lemma {:induction false} PunctualIsCovered(attempts: seq<Entry>, token: Token, start: Time, interval: Time,
                                             lease: Time, claimEnd: Time, slack: Time, n: nat, end: Time)
    requires slack <= lease - interval
    requires Punctual(attempts, token, start, interval, lease, claimEnd, slack, n)
    requires if n == 0 then end == claimEnd else end >= start + n * interval + lease
    ensures Covered(attempts, token, lease, end)
    decreases attempts
  {
    if attempts != [] {
      var e := attempts[0];
      assert (n + 1) * interval == n * interval + interval;
      if e.action.Renew? && e.action.token == token {
        PunctualIsCovered(attempts[1..], token, start, interval, lease, claimEnd, slack, n + 1, e.at + lease);
      } else {
        PunctualIsCovered(attempts[1..], token, start, interval, lease, claimEnd, slack, n, end);
      }
    }
  }

  /** A claim at time t would take the item away. */
  predicate TakenAt(item: Item, other: Token, lease: Time, t: Time) {
    Apply(item, Entry(t, Claim(other, t + lease))).Some?
  }

  /**
   A gap that is too long can lose the lease: with `remaining` of it left, another claim can take the
   item before an update that comes after `gap` exactly when the gap is at least `remaining`.
   */
  lemma UpdateInTimeIff(token: Token, other: Token, now: Time, gap: Time, lease: Time, remaining: Time,
                        attempt: nat, limit: nat)
    requires 0 < remaining && 0 < lease && other != token && gap >= 0
    ensures var item := Leased(token, now + remaining, attempt, limit);
            (exists t :: now <= t <= now + gap && TakenAt(item, other, lease, t)) <==> gap >= remaining
  {
    var item := Leased(token, now + remaining, attempt, limit);
    if gap >= remaining {
      assert TakenAt(item, other, lease, now + remaining);
    }
  }

  /** Attempts made before a lease ends, none of them its holder's outcome, leave it in place. */
  lemma {:induction false} HeldUntilEnd(item: Item, attempts: seq<Entry>, token: Token, end: Time)
    requires LeasedTo(item, token) && item.until >= end
    requires forall i :: 0 <= i < |attempts| ==> attempts[i].at < end && !GivesUp(attempts[i].action, token)
    ensures LeasedTo(PerformAll(item, attempts), token)
    ensures PerformAll(item, attempts).until >= end
    decreases attempts
  {
    if attempts != [] {
      HeldUntilEnd(Perform(item, attempts[0]), attempts[1..], token, end);
    }
  }
}

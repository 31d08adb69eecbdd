/**
 Transactions with retry and nested calls. A callback is a program tree: it writes, may see a
 statement rejected, calls nested transactions and goes on differently when they fail. The
 connection runs it with named savepoints over one undo log; the tree semantics below says what
 that is supposed to mean.
 */
module Transactions {
  import opened Common
  import Backoff

  // ---------------------------------------------------------------- errors

  datatype Cause = Pg(code: string) | Canceled | DeadlineExceeded | Other

  /** An error is its chain of wrapped causes, outermost first. */
  type Err = seq<Cause>

  const IN_FAILED_TRANSACTION: Err := [Pg("25P02")]
  const COMMIT_ROLLED_BACK: Err := [Other]
  const ENDED: Err := [Other, Canceled]

  function Wrap(e: Err): Err {
    [Other] + e
  }

  /** errors.As: the first PgError of the chain. */
  function FirstPg(e: Err): Option<string> {
    if e == [] then None else if e[0].Pg? then Some(e[0].code) else FirstPg(e[1..])
  }

  ghost predicate RetryableSpec(e: Err, codes: seq<string>) {
    && Canceled !in e
    && DeadlineExceeded !in e
    && FirstPg(e).Some?
    && FirstPg(e).value in codes
  }

  method IsRetryable(err: Option<Err>, codes: seq<string>) returns (r: bool)
    ensures r <==> err.Some? && RetryableSpec(err.value, codes)
  {
    if err.None? { return false; }
    if Canceled in err.value || DeadlineExceeded in err.value { return false; }
    var pg := FirstPg(err.value);
    if pg.None? { return false; }
    for i := 0 to |codes|
      invariant forall k :: 0 <= k < i ==> codes[k] != pg.value
    {
      if pg.value == codes[i] { return true; }
    }
    return false;
  }

  /** Wrapping an error does not change whether it qualifies; a context error anywhere in the chain rules it out. */
  lemma WrappingKeepsClass(e: Err, codes: seq<string>)
    ensures RetryableSpec(Wrap(e), codes) <==> RetryableSpec(e, codes)
    ensures !RetryableSpec(e + [Canceled], codes) && !RetryableSpec(e + [DeadlineExceeded], codes)
  {
    assert Wrap(e)[0] == Other && Wrap(e)[1..] == e;
    assert Canceled in e + [Canceled] && DeadlineExceeded in e + [DeadlineExceeded];
  }

  // ---------------------------------------------------------------- callbacks

  /** How a callback returns: nil, an error of its own, or the error it saw last. */
  datatype Result = Nil | Fresh(err: Err) | Last

  /** A statement is accepted, refused by the server (which aborts the transaction), or never sent. */
  datatype Reply = Accepted | Refused(err: Err) | Unsent(err: Err)

  /** The context of a nested call: live throughout, over before its savepoint, or over when it leaves. */
  datatype Lifetime = Lives | EndsFirst | EndsInside

  datatype Prog =
    | Return(result: Result)
    | Exec(write: nat, reply: Reply, ok: Prog, failed: Prog)
    | Call(options: bool, ctx: Lifetime, child: Prog, ok: Prog, failed: Prog)

  function Returned(r: Result, last: Err): Option<Err> {
    match r case Nil => None case Fresh(e) => Some(e) case Last => Some(last)
  }

  // ---------------------------------------------------------------- tree semantics

  /** What a transaction has done so far; PostgreSQL refuses everything but a rollback once aborted. */
  datatype Tx = Healthy(log: seq<nat>) | Aborted

  /**
   How a nested call ends: one that fails leaves no effect and one that succeeds leaves its own, unless
   its context is over by then: neither ROLLBACK TO nor RELEASE is sent, and the effects stay in place.
   */
  function Left(ctx: Lifetime, tx: Tx, inner: Tx, r: Option<Err>): (Tx, Option<Err>) {
    if r.Some? then (if ctx.Lives? then tx else inner, r)
    else if !ctx.Lives? then (inner, Some(ENDED))
    else if inner.Aborted? then (Aborted, Some(Wrap(IN_FAILED_TRANSACTION)))
    else (inner, None)
  }

  function Eval(p: Prog, tx: Tx, last: Err): (Tx, Option<Err>)
    decreases p
  {
    match p
    case Return(r) => (tx, Returned(r, last))
    case Exec(w, reply, ok, failed) =>
      if reply.Unsent? then Eval(failed, tx, reply.err)
      else if tx.Aborted? then Eval(failed, Aborted, IN_FAILED_TRANSACTION)
      else if reply.Refused? then Eval(failed, Aborted, reply.err)
      else Eval(ok, Healthy(tx.log + [w]), last)
    case Call(options, ctx, child, ok, failed) =>
      if options then Eval(failed, tx, [Other])
      else if ctx.EndsFirst? then Eval(failed, tx, ENDED)
      else if tx.Aborted? then Eval(failed, Aborted, Wrap(IN_FAILED_TRANSACTION))
      else
        var (inner, r) := Eval(child, tx, last);
        var (next, e) := Left(ctx, tx, inner, r);
        if e.Some? then Eval(failed, next, e.value) else Eval(ok, next, last)
  }

  // ---------------------------------------------------------------- the connection

  datatype Save = Save(name: nat, pos: nat)

  /** One connection inside a transaction: an undo log, the savepoints that exist, the last name used. */
  datatype Conn = Conn(log: seq<nat>, saves: seq<Save>, names: nat, aborted: bool)

  function Find(saves: seq<Save>, name: nat): Option<nat> {
    if saves == [] then None
    else if saves[|saves|-1].name == name then Some(|saves|-1)
    else Find(saves[..|saves|-1], name)
  }

  /** SAVEPOINT sp_n, with a new n; refused when aborted. */
  function Savepoint(c: Conn): Conn {
    if c.aborted then c.(names := c.names + 1)
    else Conn(c.log, c.saves + [Save(c.names + 1, |c.log|)], c.names + 1, false)
  }

  /** RELEASE SAVEPOINT: forgets the savepoint and every later one, keeping the effects. */
  function Release(c: Conn, name: nat): Conn {
    match Find(c.saves, name)
    case Some(i) => if i <= |c.saves| then c.(saves := c.saves[..i]) else c
    case None => c
  }

  /** ROLLBACK TO SAVEPOINT: undoes everything since, and leaves the savepoint itself in place. */
  function RollbackTo(c: Conn, name: nat): Conn {
    match Find(c.saves, name)
    case Some(i) =>
      if i < |c.saves| && c.saves[i].pos <= |c.log|
      then Conn(c.log[..c.saves[i].pos], c.saves[..i + 1], c.names, false) else c
    case None => c
  }

  /** Leaving a nested call: COMMIT of the nested transaction, then its deferred Rollback. */
  function LeftConn(ctx: Lifetime, c: Conn, name: nat, r: Option<Err>): (Conn, Option<Err>) {
    if r.Some? then (if ctx.Lives? then RollbackTo(c, name) else c, r)
    else if !ctx.Lives? then (c, Some(ENDED))
    else if c.aborted then (c, Some(Wrap(IN_FAILED_TRANSACTION)))
    else (Release(c, name), None)
  }

  /** The callback as it runs: withSavepoint for every nested call. */
  function Run(p: Prog, c: Conn, last: Err): (Conn, Option<Err>)
    decreases p
  {
    match p
    case Return(r) => (c, Returned(r, last))
    case Exec(w, reply, ok, failed) =>
      if reply.Unsent? then Run(failed, c, reply.err)
      else if c.aborted then Run(failed, c, IN_FAILED_TRANSACTION)
      else if reply.Refused? then Run(failed, c.(aborted := true), reply.err)
      else Run(ok, c.(log := c.log + [w]), last)
    case Call(options, ctx, child, ok, failed) =>
      if options then Run(failed, c, [Other])
      else if ctx.EndsFirst? then Run(failed, c.(names := c.names + 1), ENDED)
      else
        var c1 := Savepoint(c);
        if c.aborted then Run(failed, c1, Wrap(IN_FAILED_TRANSACTION))
        else
          var (c2, r) := Run(child, c1, last);
          var (c3, e) := LeftConn(ctx, c2, c1.names, r);
          if e.Some? then Run(failed, c3, e.value) else Run(ok, c3, last)
  }

  function Abs(c: Conn): Tx {
    if c.aborted then Aborted else Healthy(c.log)
  }

  /** Savepoints lie within the log, and later ones have later names. */
  ghost predicate Wf(c: Conn) {
    && (forall i :: 0 <= i < |c.saves| ==> c.saves[i].pos <= |c.log| && c.saves[i].name <= c.names)
    && (forall i, j :: 0 <= i < j < |c.saves| ==> c.saves[i].name < c.saves[j].name && c.saves[i].pos <= c.saves[j].pos)
  }

  /** c' came from c without touching anything c could still roll back to. */
  ghost predicate Extends(c: Conn, c': Conn) {
    && c.log <= c'.log
    && c.saves <= c'.saves
    && c.names <= c'.names
    && Wf(c')
    && forall i :: |c.saves| <= i < |c'.saves| ==> c'.saves[i].pos >= |c.log| && c'.saves[i].name > c.names
  }

  lemma {:induction false} FindsOwn(saves: seq<Save>, i: nat)
    requires i < |saves| && forall a, b :: 0 <= a < b < |saves| ==> saves[a].name < saves[b].name
    ensures Find(saves, saves[i].name) == Some(i)
    decreases |saves|
  {
    if i < |saves| - 1 {
      assert saves[..|saves|-1][i] == saves[i];
      FindsOwn(saves[..|saves|-1], i);
    }
  }

  lemma ReleaseNested(c: Conn, c2: Conn)
    requires Wf(c) && !c.aborted && Extends(Savepoint(c), c2)
    ensures var name := Savepoint(c).names;
            Extends(c, Release(c2, name)) && Abs(Release(c2, name)) == Abs(c2)
  {
    assert c2.saves[|c.saves|] == Savepoint(c).saves[|c.saves|];
    FindsOwn(c2.saves, |c.saves|);
  }

  lemma RollBackNested(c: Conn, c2: Conn)
    requires Wf(c) && !c.aborted && Extends(Savepoint(c), c2)
    ensures var name := Savepoint(c).names;
            Extends(c, RollbackTo(c2, name)) && Abs(RollbackTo(c2, name)) == Healthy(c.log)
  {
    assert c2.saves[|c.saves|] == Savepoint(c).saves[|c.saves|];
    FindsOwn(c2.saves, |c.saves|);
    assert c2.log[..|c.log|] == c.log;
  }

  /** Leaving a nested call, by whichever door, puts the connection where the tree semantics says. */
  lemma LeaveNested(ctx: Lifetime, c: Conn, c2: Conn, r: Option<Err>)
    requires Wf(c) && !c.aborted && Extends(Savepoint(c), c2)
    ensures var (c3, e) := LeftConn(ctx, c2, Savepoint(c).names, r);
            Extends(c, c3) && (Abs(c3), e) == Left(ctx, Abs(c), Abs(c2), r)
  {
    if ctx.Lives? && r.Some? {
      RollBackNested(c, c2);
    } else if ctx.Lives? && !c2.aborted {
      ReleaseNested(c, c2);
    }
  }

  /** The stack and the tree semantics agree on p, run from c. */
  ghost predicate Implements(p: Prog, c: Conn, last: Err) {
    var (c', r) := Run(p, c, last);
    Extends(c, c') && (Abs(c'), r) == Eval(p, Abs(c), last)
  }

  /**
   The savepoint stack implements the tree semantics, for callbacks nested to any depth: same
   effects, same error, and every older savepoint still in place.
   */
  lemma {:induction false} StackImplementsTree(p: Prog, c: Conn, last: Err)
    requires Wf(c)
    ensures Implements(p, c, last)
    decreases p, 2
  {
    match p
    case Return(_) =>
    case Exec(_, _, _, _) => StackImplementsExec(p, c, last);
    case Call(options, ctx, child, ok, failed) =>
      if !options && !ctx.EndsFirst? && !c.aborted {
        StackImplementsCall(p, c, last);
      } else if options {
        StackImplementsTree(failed, c, [Other]);
      } else if ctx.EndsFirst? {
        StackImplementsTree(failed, c.(names := c.names + 1), ENDED);
      } else {
        StackImplementsTree(failed, Savepoint(c), Wrap(IN_FAILED_TRANSACTION));
      }
  }

  lemma {:induction false} StackImplementsExec(p: Prog, c: Conn, last: Err)
    requires Wf(c) && p.Exec?
    ensures Implements(p, c, last)
    decreases p, 1
  {
    if p.reply.Unsent? {
      StackImplementsTree(p.failed, c, p.reply.err);
    } else if c.aborted {
      StackImplementsTree(p.failed, c, IN_FAILED_TRANSACTION);
    } else if p.reply.Refused? {
      StackImplementsTree(p.failed, c.(aborted := true), p.reply.err);
    } else {
      StackImplementsRest(p.ok, c, c.(log := c.log + [p.write]), last);
    }
  }

  lemma {:induction false} StackImplementsCall(p: Prog, c: Conn, last: Err)
    requires Wf(c) && p.Call? && !p.options && !c.aborted && !p.ctx.EndsFirst?
    ensures Implements(p, c, last)
    decreases p, 1
  {
    var c1 := Savepoint(c);
    StackImplementsTree(p.child, c1, last);
    var (c2, r) := Run(p.child, c1, last);
    LeaveNested(p.ctx, c, c2, r);
    var (c3, e) := LeftConn(p.ctx, c2, c1.names, r);
    StackImplementsRest(if e.Some? then p.failed else p.ok, c, c3, if e.Some? then e.value else last);
  }

  /** The rest of a callback, from a connection that c has grown into. */
  lemma {:induction false} StackImplementsRest(p: Prog, c: Conn, d: Conn, last: Err)
    requires Extends(c, d)
    ensures Extends(c, Run(p, d, last).0)
    ensures (Abs(Run(p, d, last).0), Run(p, d, last).1) == Eval(p, Abs(d), last)
    decreases p, 3
  {
    StackImplementsTree(p, d, last);
  }

  // ---------------------------------------------------------------- one top-level attempt

  /** What COMMIT reports: done, refused by the server, or the connection is gone and nobody knows. */
  datatype CommitFate = Durable | Refused(code: string) | Unknown(applied: bool)

  datatype Attempt = Attempt(begin: Option<Err>, body: Prog, commit: CommitFate)

  /** runInTx on the committed log: begin, run the callback, commit or roll back. */
  function RunInTx(a: Attempt, db: seq<nat>): (seq<nat>, Option<Err>) {
    if a.begin.Some? then (db, Some(Wrap(a.begin.value)))
    else
      var (c, r) := Run(a.body, Conn(db, [], 0, false), []);
      if r.Some? then (db, r)
      else if c.aborted then (db, Some(Wrap(COMMIT_ROLLED_BACK)))
      else match a.commit
           case Durable => (c.log, None)
           case Refused(code) => (db, Some(Wrap([Pg(code)])))
           case Unknown(applied) => (if applied then c.log else db, Some(Wrap([Other])))
  }

  /** The effect the callback asks for, if it asks for one. */
  function Intended(a: Attempt, db: seq<nat>): Option<seq<nat>> {
    match Eval(a.body, Healthy(db), []) case (Healthy(log), None) => Some(log) case _ => None
  }

  /** An attempt commits all of its callback's effect or nothing; success means it committed. */
  lemma AttemptIsAtomic(a: Attempt, db: seq<nat>)
    ensures var (db', r) := RunInTx(a, db);
            && (db' == db || Intended(a, db) == Some(db'))
            && (r.None? ==> Intended(a, db) == Some(db'))
            && (r.Some? && db' != db ==> a.commit == Unknown(true))
            && db <= db'
  {
    StackImplementsTree(a.body, Conn(db, [], 0, false), []);
  }

  /**
   What an attempt reports, by the meaning of its callback: an error of the callback comes back as it is, and
   errors around it are wrapped.
   */
  lemma AttemptError(a: Attempt, db: seq<nat>)
    ensures var (inner, r) := Eval(a.body, Healthy(db), []);
            RunInTx(a, db).1 ==
            if a.begin.Some? then Some(Wrap(a.begin.value))
            else if r.Some? then r
            else if inner.Aborted? then Some(Wrap(COMMIT_ROLLED_BACK))
            else if a.commit.Durable? then None
            else Some(Wrap(if a.commit.Refused? then [Pg(a.commit.code)] else [Other]))
  {
    StackImplementsTree(a.body, Conn(db, [], 0, false), []);
  }

  /** An error that qualifies for a retry means that nothing was committed. */
  lemma RetryableLeavesNothing(a: Attempt, db: seq<nat>, codes: seq<string>)
    requires RunInTx(a, db).1.Some? && RetryableSpec(RunInTx(a, db).1.value, codes)
    ensures RunInTx(a, db).0 == db
  {
  }

  // ---------------------------------------------------------------- the retry loop

  const MAX_INT64 := 0x7FFF_FFFF_FFFF_FFFF
  const TWO_64 := 0x1_0000_0000_0000_0000
  const DEFAULT_INITIAL_BACKOFF := 20_000_000
  const DEFAULT_MAX_BACKOFF := 500_000_000
  const DEADLOCK_DETECTED := "40P01"

  /** Wraps like a 64-bit signed integer. */
  function Int64(x: int): int {
    var m := x % TWO_64;
    if m > MAX_INT64 then m - TWO_64 else m
  }

  function Min(a: int, b: int): int {
    if a < b then a else b
  }

  datatype RetryConfig = RetryConfig(maxAttempts: int, retryOn: seq<string>, initialBackoff: int, maxBackoff: int)

  function Normalised(c: RetryConfig): RetryConfig {
    RetryConfig(if c.maxAttempts <= 0 then 1 else c.maxAttempts,
                if c.retryOn == [] then [DEADLOCK_DETECTED] else c.retryOn,
                if c.initialBackoff <= 0 then DEFAULT_INITIAL_BACKOFF else c.initialBackoff,
                if c.maxBackoff <= 0 then DEFAULT_MAX_BACKOFF else c.maxBackoff)
  }

  /** What a call without a configuration uses. */
  const DEFAULT_CONFIG := RetryConfig(3, [DEADLOCK_DETECTED], DEFAULT_INITIAL_BACKOFF, DEFAULT_MAX_BACKOFF)

  /**
   A configuration is taken as it is where it says anything; the empty one means one attempt and the other
   defaults.
   */
  lemma NormalisedKeepsWhatIsSet(c: RetryConfig)
    ensures Normalised(c).maxAttempts >= 1 && Normalised(c).retryOn != []
    ensures Normalised(c).initialBackoff > 0 && Normalised(c).maxBackoff > 0
    ensures Normalised(c) == c <==>
              c.maxAttempts >= 1 && c.retryOn != [] && c.initialBackoff > 0 && c.maxBackoff > 0
    ensures c.maxAttempts <= 0 && c.retryOn == [] && c.initialBackoff <= 0 && c.maxBackoff <= 0 ==>
              Normalised(c) == DEFAULT_CONFIG.(maxAttempts := 1)
    ensures Normalised(DEFAULT_CONFIG) == DEFAULT_CONFIG
  {
  }

  /** The loop returns, or the jitter draw panics because the backoff leaves it no room. */
  datatype Finish = Finished(err: Option<Err>) | JitterPanic

  /**
   The surroundings of a call: what each attempt meets, whether the context is done before attempt k
   (counting from 1) or during the wait after it, the error of the context once it is done, and the jitter
   drawn, below half the backoff.
   */
  datatype World = World(attempts: nat -> Attempt, done: nat -> bool, doneWhileWaiting: nat -> bool,
                         ctxErr: Err, jitter: (nat, int) -> int)

  ghost predicate FairJitter(w: World) {
    forall k: nat, half: int :: half > 0 ==> 0 <= w.jitter(k, half) < half
  }

  /** Attempt k failed in a way that qualifies for another attempt. */
  ghost predicate FailedRetryably(w: World, k: nat, db: seq<nat>, codes: seq<string>) {
    var r := RunInTx(w.attempts(k), db).1;
    r.Some? && RetryableSpec(r.value, codes)
  }

  class Store {
    var committed: seq<nat>

    constructor (log: seq<nat>)
      ensures committed == log
    {
      committed := log;
    }
  }

  /** The backoff in force for the k-th wait, counting from 1. */
  function BackoffAt(c: RetryConfig, k: nat): int {
    if k <= 1 then c.initialBackoff else Min(Int64(BackoffAt(c, k - 1) * 2), c.maxBackoff)
  }

  /** The time spent in the first n waits. */
  function SleptAfter(c: RetryConfig, w: World, n: nat): int {
    if n == 0 then 0 else SleptAfter(c, w, n - 1) + BackoffAt(c, n) + w.jitter(n, BackoffAt(c, n) / 2)
  }

  /** Attempts 1 to n ran on a live context and failed in a way that qualifies for another. */
  ghost predicate AllRetried(c: RetryConfig, w: World, db: seq<nat>, n: int) {
    forall k :: 1 <= k <= n ==> !w.done(k) && FailedRetryably(w, k, db, c.retryOn)
  }

  /** The k-th wait has room for its jitter draw. */
  predicate Room(c: RetryConfig, k: nat) {
    BackoffAt(c, k) / 2 > 0
  }

  /** Waits 1 to n ended on a live context, and their jitter draws had room. */
  ghost predicate AllWaited(c: RetryConfig, w: World, n: nat) {
    forall k :: 1 <= k <= n ==> !w.doneWhileWaiting(k) && Room(c, k)
  }

  /** One attempt; only a final one leaves an effect, and then all of it. */
  method TryOnce(store: Store, w: World, k: nat, codes: seq<string>) returns (err: Option<Err>, again: bool)
    modifies store
    ensures (store.committed, err) == RunInTx(w.attempts(k), old(store.committed))
    ensures again <==> FailedRetryably(w, k, old(store.committed), codes)
    ensures again ==> store.committed == old(store.committed)
    ensures || store.committed == old(store.committed)
            || (Intended(w.attempts(k), old(store.committed)) == Some(store.committed)
                && (err.None? || w.attempts(k).commit == Unknown(true)))
  {
    AttemptIsAtomic(w.attempts(k), store.committed);
    ghost var db := store.committed;
    var (committed, e) := RunInTx(w.attempts(k), store.committed);
    store.committed, err := committed, e;
    again := IsRetryable(err, codes);
    if again { RetryableLeavesNothing(w.attempts(k), db, codes); }
  }

  /**
   Why the loop ended after `ran` attempts and `waits` waits, and with what: a context that was over gives its
   own error, and nothing else does; an attempt that does not qualify for another gives exactly its result;
   when the attempts are used up, the last error is wrapped.
   */
  ghost predicate Justified(c: RetryConfig, w: World, db: seq<nat>, ran: nat, waits: nat, finish: Finish) {
    if waits == ran then w.done(ran + 1) && finish == Finished(Some(w.ctxErr))
    else
      var err := RunInTx(w.attempts(ran), db).1;
      && ran == waits + 1
      && if !FailedRetryably(w, ran, db, c.retryOn) then finish == Finished(err)
         else if ran == c.maxAttempts then finish == Finished(Some(Wrap(err.value)))
         else if !Room(c, ran) then finish == JitterPanic
         else w.doneWhileWaiting(ran) && finish == Finished(Some(w.ctxErr))
  }

  /** One round: an attempt unless the context is over, and the wait after it unless it was the last. */
  method Round(store: Store, c: RetryConfig, w: World, before: nat, backoff: int)
    returns (stop: Option<Finish>, ran: nat, err: Option<Err>, sleep: int, next: int)
    requires before < c.maxAttempts && backoff == BackoffAt(c, before + 1)
    modifies store
    ensures ran == if w.done(before + 1) then before else before + 1
    ensures ran > before ==> (store.committed, err) == RunInTx(w.attempts(ran), old(store.committed))
    ensures ran == before ==> store.committed == old(store.committed) && stop.Some? && stop.value != Finished(None)
    ensures stop.Some? ==> Justified(c, w, old(store.committed), ran, before, stop.value)
    ensures stop.Some? && ran > before ==> (stop.value == Finished(None) <==> err.None?)
    ensures stop.None? ==>
              FailedRetryably(w, ran, old(store.committed), c.retryOn) && store.committed == old(store.committed)
    ensures stop.None? && ran < c.maxAttempts ==> !w.doneWhileWaiting(ran) && Room(c, ran)
    ensures sleep == SleptAfter(c, w, before + 1) - SleptAfter(c, w, before)
    ensures next == BackoffAt(c, before + 2)
  {
    sleep, next := backoff + w.jitter(before + 1, backoff / 2), Min(Int64(backoff * 2), c.maxBackoff);
    if w.done(before + 1) { return Some(Finished(Some(w.ctxErr))), before, None, sleep, next; }
    var again;
    err, again := TryOnce(store, w, before + 1, c.retryOn);
    ran := before + 1;
    stop := if !again then Some(Finished(err))
            else if ran == c.maxAttempts then None
            else if backoff / 2 <= 0 then Some(JitterPanic)
            else if w.doneWhileWaiting(ran) then Some(Finished(Some(w.ctxErr))) else None;
  }

  /** The loop, for a normalised configuration. */
  method RetryLoop(store: Store, c: RetryConfig, w: World)
    returns (finish: Finish, ran: nat, waits: nat, slept: int)
    requires c.maxAttempts >= 1
    modifies store
    ensures ran <= c.maxAttempts
    ensures waits < c.maxAttempts
    ensures waits <= ran <= waits + 1
    ensures AllRetried(c, w, old(store.committed), ran - 1)
    ensures (ran >= 1 ==> !w.done(ran))
    ensures AllWaited(c, w, waits)
    ensures slept == SleptAfter(c, w, waits)
    ensures store.committed ==
            if ran == 0 then old(store.committed) else RunInTx(w.attempts(ran), old(store.committed)).0
    ensures finish == Finished(None) <==> ran >= 1 && RunInTx(w.attempts(ran), old(store.committed)).1.None?
    ensures Justified(c, w, old(store.committed), ran, waits, finish)
  {
    ghost var db := store.committed;
    var backoff, lastErr := c.initialBackoff, None;
    slept, ran, waits := 0, 0, 0;
    while ran < c.maxAttempts
      invariant ran <= c.maxAttempts && store.committed == db
      invariant waits == if ran < c.maxAttempts then ran else c.maxAttempts - 1
      invariant AllRetried(c, w, db, ran) && AllWaited(c, w, waits)
      invariant ran >= 1 ==> lastErr.Some? && RunInTx(w.attempts(ran), db) == (db, lastErr)
      invariant ran < c.maxAttempts ==> backoff == BackoffAt(c, ran + 1)
      invariant slept == SleptAfter(c, w, waits)
    {
      var stop, sleep, next;
      stop, ran, lastErr, sleep, next := Round(store, c, w, ran, backoff);
      if stop.Some? { return stop.value, ran, waits, slept; }
      if ran < c.maxAttempts { slept, waits, backoff := slept + sleep, waits + 1, next; }
    }
    return Finished(Some(Wrap(lastErr.value))), ran, waits, slept;
  }

  /**
   withTransaction without an ambient transaction. Only the last attempt that ran can have left an
   effect, and it left all of its own; each earlier one failed retryably with a live context.
   */
  method WithTransaction(store: Store, config: RetryConfig, w: World)
    returns (finish: Finish, ran: nat, waits: nat, slept: int)
    modifies store
    ensures var c, db := Normalised(config), old(store.committed);
            && ran <= c.maxAttempts
            && waits < c.maxAttempts
            && waits <= ran <= waits + 1
            && AllRetried(c, w, db, ran - 1)
            && (ran >= 1 ==> !w.done(ran))
            && AllWaited(c, w, waits)
            && slept == SleptAfter(c, w, waits)
    ensures store.committed ==
            if ran == 0 then old(store.committed) else RunInTx(w.attempts(ran), old(store.committed)).0
    ensures || store.committed == old(store.committed)
            || (ran >= 1 && Intended(w.attempts(ran), old(store.committed)) == Some(store.committed)
                && (finish == Finished(None) || w.attempts(ran).commit == Unknown(true)))
    ensures finish == Finished(None) <==> ran >= 1 && RunInTx(w.attempts(ran), old(store.committed)).1.None?
    ensures Justified(Normalised(config), w, old(store.committed), ran, waits, finish)
    ensures var c, db := Normalised(config), old(store.committed);
            finish.JitterPanic? <==>
              ran == waits + 1 && ran < c.maxAttempts && FailedRetryably(w, ran, db, c.retryOn) && !Room(c, ran)
    ensures var a, db := w.attempts(ran), old(store.committed);
            var r := Eval(a.body, Healthy(db), []).1;
            ran == waits + 1 && a.begin.None? && r.Some? && !RetryableSpec(r.value, Normalised(config).retryOn) ==>
              finish == Finished(r)
  {
    ghost var db := store.committed;
    finish, ran, waits, slept := RetryLoop(store, Normalised(config), w);
    AttemptIsAtomic(w.attempts(ran), db);
    AttemptError(w.attempts(ran), db);
  }

  /** Backoffs that leave room for jitter and never overflow. */
  ghost predicate Tame(c: RetryConfig) {
    && c.initialBackoff >= 2
    && c.maxBackoff >= 2
    && 2 * c.initialBackoff <= MAX_INT64
    && 2 * c.maxBackoff <= MAX_INT64
  }

  lemma {:induction false} TameBackoff(c: RetryConfig, k: nat)
    requires Tame(c)
    ensures 2 <= BackoffAt(c, k) && 2 * BackoffAt(c, k) <= MAX_INT64
    ensures k >= 2 ==> BackoffAt(c, k) <= c.maxBackoff
    ensures BackoffAt(c, k) / 2 > 0
  {
    if k >= 2 {
      TameBackoff(c, k - 1);
    }
  }

  /** Each wait doubles the backoff before it, up to the maximum. */
  lemma {:induction false} BackoffScales(c: RetryConfig, k: nat)
    requires Tame(c) && k >= 2
    ensures BackoffAt(c, k) == Min(Backoff.Scaled(c.initialBackoff, k - 1), c.maxBackoff)
  {
    TameBackoff(c, k - 1);
    if k > 2 {
      BackoffScales(c, k - 1);
    } else {
      assert Backoff.Scaled(c.initialBackoff, 1) == 2 * Backoff.Scaled(c.initialBackoff, 0);
    }
  }

  lemma BackoffDoubles(c: RetryConfig, k: nat)
    requires Tame(c) && k >= 1
    ensures BackoffAt(c, k)
            == if k == 1 then c.initialBackoff else Min(c.initialBackoff * Backoff.Pow2(k - 1), c.maxBackoff)
  {
    if k >= 2 {
      BackoffScales(c, k);
      Backoff.ScaledIsPower(c.initialBackoff, k - 1);
    }
  }

  /** n >= 1 waits take less than one and a half times (initial + (n - 1) * max). */
  lemma {:induction false} SleepBound(c: RetryConfig, w: World, n: nat)
    requires Tame(c) && FairJitter(w) && n >= 1
    ensures 2 * SleptAfter(c, w, n) < 3 * (c.initialBackoff + (n - 1) * c.maxBackoff)
  {
    TameBackoff(c, n);
    var half := BackoffAt(c, n) / 2;
    assert w.jitter(n, half) < half;
    if n == 1 {
      assert SleptAfter(c, w, 0) == 0;
    } else {
      SleepBound(c, w, n - 1);
      assert (n - 1) * c.maxBackoff == (n - 2) * c.maxBackoff + c.maxBackoff;
    }
  }

  function Total(f: nat -> int, n: nat): int {
    if n == 0 then 0 else Total(f, n - 1) + f(n)
  }

  /** The k-th wait without its jitter: doubled from wait to wait, up to the maximum. */
  function Doubling(c: RetryConfig, k: nat): int {
    if k <= 1 then c.initialBackoff else Min(Backoff.Scaled(c.initialBackoff, k - 1), c.maxBackoff)
  }

  /** The k-th wait: its doubled backoff and a jitter drawn below half of it. */
  function WaitOf(c: RetryConfig, w: World): nat -> int {
    (k: nat) => Doubling(c, k) + w.jitter(k, Doubling(c, k) / 2)
  }

  lemma BackoffIsDoubling(c: RetryConfig, k: nat)
    requires Tame(c)
    ensures BackoffAt(c, k) == Doubling(c, k)
  {
    if k >= 2 { BackoffScales(c, k); }
  }

  /** The time slept is the sum of such waits. */
  lemma {:induction false} SleptExactly(c: RetryConfig, w: World, n: nat)
    requires Tame(c)
    ensures SleptAfter(c, w, n) == Total(WaitOf(c, w), n)
  {
    if n > 0 {
      SleptExactly(c, w, n - 1);
      BackoffIsDoubling(c, n);
      assert WaitOf(c, w)(n) == BackoffAt(c, n) + w.jitter(n, BackoffAt(c, n) / 2);
    }
  }

  /** withTransaction inside an ambient transaction: options are refused, otherwise one savepoint. */
  function Ambient(options: bool, ctx: Lifetime, child: Prog, c: Conn): (r: (Conn, Option<Err>, nat)) {
    if options then (c, Some([Other]), 0)
    else if ctx.EndsFirst? then (c.(names := c.names + 1), Some(ENDED), 0)
    else
      var c1 := Savepoint(c);
      if c.aborted then (c1, Some(Wrap(IN_FAILED_TRANSACTION)), 0)
      else
        var (c2, e) := Run(child, c1, []);
        var (c3, e3) := LeftConn(ctx, c2, c1.names, e);
        (c3, e3, 1)
  }

  /**
   An ambient call runs its callback at most once. Success keeps the callback's effect. After an error
   no effect stays, or the transaction is aborted, exactly unless the context was over when the call
   left: then all of the callback's effect stays, although the call reports an error.
   */
  lemma AmbientCallOnce(options: bool, ctx: Lifetime, child: Prog, c: Conn)
    requires Wf(c)
    ensures var (c', e, runs) := Ambient(options, ctx, child, c);
            var (inner, r) := Eval(child, Healthy(c.log), []);
            && runs <= 1
            && (runs == 1 <==> !options && !ctx.EndsFirst? && !c.aborted)
            && Extends(c, c')
            && (runs == 0 ==> e.Some? && Abs(c') == Abs(c))
            && (runs == 1 && ctx.Lives? ==> (e.None? <==> r.None? && inner.Healthy?))
            && (runs == 1 && e.None? ==> Abs(c') == inner)
            && (runs == 1 && ctx.Lives? && e.Some? ==> Abs(c') == if r.Some? then Abs(c) else Aborted)
            && (runs == 1 && ctx.EndsInside? ==> e.Some? && Abs(c') == inner)
  {
    if !options && !ctx.EndsFirst? && !c.aborted {
      StackImplementsTree(child, Savepoint(c), []);
      var (c2, r) := Run(child, Savepoint(c), []);
      LeaveNested(ctx, c, c2, r);
    }
  }

  /** A caller that goes on after such an error commits the failed call's writes. */
  lemma EndedContextLeaks(db: seq<nat>, write: nat, err: Err)
    ensures var failing := Exec(write, Accepted, Return(Fresh(err)), Return(Last));
            var a := Attempt(None, Call(false, EndsInside, failing, Return(Nil), Return(Nil)), Durable);
            RunInTx(a, db) == (db + [write], None)
  {
    var failing := Exec(write, Accepted, Return(Fresh(err)), Return(Last));
    var p := Call(false, EndsInside, failing, Return(Nil), Return(Nil));
    var c := Conn(db, [], 0, false);
    StackImplementsTree(p, c, []);
    assert Eval(failing, Healthy(db), []) == (Healthy(db + [write]), Some(err));
    assert Eval(p, Healthy(db), []) == (Healthy(db + [write]), None);
  }

  lemma NestedEval(child: Prog, log: seq<nat>, failed: Prog)
    requires failed == Return(Nil) || failed == Return(Last)
    ensures var (inner, r) := Eval(child, Healthy(log), []);
            Eval(Call(false, Lives, child, Return(Nil), failed), Healthy(log), []) ==
            if r.Some? then (Healthy(log), if failed == Return(Last) then r else None)
            else if inner.Aborted? then
              (Aborted, if failed == Return(Last) then Some(Wrap(IN_FAILED_TRANSACTION)) else None)
            else (inner, None)
  {
    var (inner, r) := Eval(child, Healthy(log), []);
    var (next, e) := Left(Lives, Healthy(log), inner, r);
    if e.Some? { assert Eval(failed, next, e.value) == (next, Returned(failed.result, e.value)); }
    assert Eval(Return(Nil), next, []) == (next, None);
  }

  /**
   A callback that writes and then makes a nested call, whatever that does: if it fails, a caller that handles
   the error commits its own write alone, and one that passes it on commits nothing; if it succeeds, both commit.
   */
  lemma NestedCallEffects(db: seq<nat>, write: nat, child: Prog, handled: bool)
    ensures var nested := Call(false, Lives, child, Return(Nil), if handled then Return(Nil) else Return(Last));
            var a := Attempt(None, Exec(write, Accepted, nested, Return(Last)), Durable);
            var (inner, r) := Eval(child, Healthy(db + [write]), []);
            RunInTx(a, db) ==
            if r.Some? then (if handled then (db + [write], None) else (db, r))
            else match inner
                 case Healthy(log) => (log, None)
                 case Aborted => (db, Some(Wrap(if handled then COMMIT_ROLLED_BACK else IN_FAILED_TRANSACTION)))
  {
    var nested := Call(false, Lives, child, Return(Nil), if handled then Return(Nil) else Return(Last));
    var body := Exec(write, Accepted, nested, Return(Last));
    StackImplementsTree(body, Conn(db, [], 0, false), []);
    NestedEval(child, db + [write], if handled then Return(Nil) else Return(Last));
    assert Eval(body, Healthy(db), []) == Eval(nested, Healthy(db + [write]), []);
  }

  // ---------------------------------------------------------------- the jitter draw

  /** An initial backoff of 1 ns leaves no room for jitter: the first retry of such a loop panics. */
  method OneNanosecondPanics(store: Store, config: RetryConfig, w: World) returns (finish: Finish, ran: nat)
    requires config.initialBackoff == 1 && config.maxAttempts >= 2 && !w.done(1)
    requires FailedRetryably(w, 1, store.committed, Normalised(config).retryOn)
    modifies store
    ensures finish.JitterPanic?
    ensures ran == 1
    ensures store.committed == old(store.committed)
  {
    RetryableLeavesNothing(w.attempts(1), store.committed, Normalised(config).retryOn);
    var waits, slept;
    finish, ran, waits, slept := WithTransaction(store, config, w);
    assert BackoffAt(Normalised(config), 1) == 1 && !Room(Normalised(config), 1);
  }

  /** A statement refused with a deadlock makes such an attempt. */
  lemma DeadlockIsRetried(db: seq<nat>, write: nat)
    ensures var body := Exec(write, Reply.Refused([Pg(DEADLOCK_DETECTED)]), Return(Nil), Return(Last));
            RunInTx(Attempt(None, body, Durable), db) == (db, Some([Pg(DEADLOCK_DETECTED)]))
    ensures RetryableSpec([Pg(DEADLOCK_DETECTED)], [DEADLOCK_DETECTED])
  {
    var body := Exec(write, Reply.Refused([Pg(DEADLOCK_DETECTED)]), Return(Nil), Return(Last));
    assert Run(body, Conn(db, [], 0, false), []).1 == Some([Pg(DEADLOCK_DETECTED)]);
  }
}

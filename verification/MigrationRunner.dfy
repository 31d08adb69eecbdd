/** Applying migrations to a database, and reporting on them, over whole histories of runs. */
module MigrationRunner {
  import opened Common
  import opened MigrationLoader

  datatype Row = Row(checksum: string, kind: Kind, name: string)

  /** The SQL that took effect, in order, and the metadata table once it exists. */
  datatype Db = Db(schema: seq<string>, meta: Option<map<int, Row>>)

  datatype RunError = ChecksumChanged(version: int) | Broken

  /**
   Where applying one migration breaks off, if it does: a statement or the process fails before the
   commit, or the commit itself is not acknowledged and may or may not have taken effect.
   */
  datatype Fault = NoFault | BeforeCommit | AtCommit(applied: bool)

  function Meta(db: Db): map<int, Row> {
    match db.meta case Some(m) => m case None => map[]
  }

  function Recorded(m: Migration): Row {
    Row(m.checksum, m.kind, m.name)
  }

  /** The transaction of one migration: its SQL and its metadata row, or neither; version is a primary key. */
  function Commit(db: Db, m: Migration): Db {
    if m.version in Meta(db) then db
    else Db(db.schema + [m.sql], Some(Meta(db)[m.version := Recorded(m)]))
  }

  /** applyOne, and whether it committed. */
  function ApplyOne(db: Db, m: Migration, fault: Fault): (Db, Option<RunError>) {
    if m.version in Meta(db) then
      if fault.BeforeCommit? then (db, Some(Broken))
      else if Meta(db)[m.version].checksum != m.checksum then (db, Some(ChecksumChanged(m.version)))
      else (db, None)
    else
      match fault
      case NoFault => (Commit(db, m), None)
      case BeforeCommit => (db, Some(Broken))
      case AtCommit(applied) => (if applied then Commit(db, m) else db, Some(Broken))
  }

  /** The migrations a loop over ms commits, and where it ends; `faults(i)` befalls the i-th of them. */
  function ApplyAll(db: Db, ms: seq<Migration>, faults: nat -> Fault, i: nat): (Db, Option<RunError>, seq<Migration>)
    requires i <= |ms|
    decreases |ms| - i
  {
    if i == |ms| then (db, None, [])
    else
      var (db1, error) := ApplyOne(db, ms[i], faults(i));
      if error.Some? then (db1, error, Here(db, db1, ms[i]))
      else
        var (db2, error2, rest) := ApplyAll(db1, ms, faults, i + 1);
        (db2, error2, Here(db, db1, ms[i]) + rest)
  }

  /** The database once the metadata table has been created if it was missing. */
  function Prepared(db: Db): Db {
    if db.meta.None? then db.(meta := Some(map[])) else db
  }

  class Database {
    var db: Db
    ghost var commits: seq<Migration>

    ghost predicate Valid()
      reads this
    {
      Consistent(db, commits)
    }

    constructor ()
      ensures Valid() && db == Db([], None) && commits == []
    {
      db, commits := Db([], None), [];
    }

    /** Apply under the advisory lock; createFails is the CREATE TABLE IF NOT EXISTS statement. */
    method Apply(sources: seq<Source>, sum: string -> string, createFails: bool, faults: nat -> Fault)
      returns (error: Option<RunError>, ghost done: seq<Migration>)
      requires Valid()
      modifies this
      ensures Valid() && commits == old(commits) + done
      ensures createFails ==> (db, error, done) == (old(db), Some(Broken), [])
      ensures !createFails && !Loadable(sources, sum) ==> (db, error, done) == (Prepared(old(db)), Some(Broken), [])
      ensures !createFails && Loadable(sources, sum) ==>
                (db, error, done) == ApplyAll(Prepared(old(db)), Sorted(Expected(sources, sum)), faults, 0)
      ensures Ascending(done)
      ensures forall m :: m in done ==> m in Expected(sources, sum) && m.version !in Meta(old(db))
      ensures error.None? ==> Loadable(sources, sum) && UpToDate(db, Expected(sources, sum))
    {
      done := [];
      if createFails {
        assert commits + [] == commits;
        return Some(Broken), [];
      }
      db := Prepared(db);
      var loaded := LoadSources(sources, sum);
      if loaded.Err? {
        assert commits + [] == commits;
        return Some(Broken), [];
      }
      ApplyAllConsistent(db, commits, loaded.value, faults, 0);
      ApplyAllShape(db, loaded.value, faults, 0);
      MembersByMultiset(loaded.value, Expected(sources, sum));
      error, done := ApplyEach(loaded.value, faults);
    }

    /** The loop: one migration after another, until one fails. */
    method ApplyEach(ms: seq<Migration>, faults: nat -> Fault)
      returns (error: Option<RunError>, ghost done: seq<Migration>)
      modifies this
      ensures (db, error, done) == ApplyAll(old(db), ms, faults, 0)
      ensures commits == old(commits) + done
    {
      error, done := None, [];
      assert [] + ApplyAll(db, ms, faults, 0).2 == ApplyAll(db, ms, faults, 0).2;
      for i := 0 to |ms|
        invariant error.None? && commits == old(commits) + done
        invariant var (db', error', rest) := ApplyAll(db, ms, faults, i);
                  ApplyAll(old(db), ms, faults, 0) == (db', error', done + rest)
      {
        ApplyAllStep(db, ms, faults, i, done);
        var (next, failure) := ApplyOne(db, ms[i], faults(i));
        ghost var here := Here(db, next, ms[i]);
        commits, done := commits + here, done + here;
        db := next;
        if failure.Some? { return failure, done; }
      }
      assert done + [] == done;
    }
  }

  // ---------------------------------------------------------------- consistency

  /**
   The schema is the committed SQL in commit order, no version was committed twice, and a version's
   metadata row exists, with the checksum of the SQL that ran, exactly when its SQL committed.
   */
  ghost predicate Consistent(db: Db, commits: seq<Migration>) {
    && db.schema == Sql(commits)
    && DistinctVersions(commits)
    && (forall v :: v in Meta(db) <==> v in Versions(commits))
    && (forall i :: 0 <= i < |commits| ==>
          commits[i].version in Meta(db) && Meta(db)[commits[i].version] == Recorded(commits[i]))
  }

  function Sql(ms: seq<Migration>): seq<string> {
    seq(|ms|, i requires 0 <= i < |ms| => ms[i].sql)
  }

  /** Applied with the checksum the file has now. */
  predicate InPlace(db: Db, m: Migration) {
    && m.version in Meta(db)
    && Meta(db)[m.version].checksum == m.checksum
  }

  ghost predicate UpToDate(db: Db, ms: seq<Migration>) {
    forall m :: m in ms ==> InPlace(db, m)
  }

  /** The migration transaction of m, if it takes effect. */
  function TookEffect(db: Db, m: Migration): seq<Migration> {
    if m.version in Meta(db) then [] else [m]
  }

  lemma CommitConsistent(db: Db, commits: seq<Migration>, m: Migration)
    requires Consistent(db, commits)
    ensures Consistent(Commit(db, m), commits + TookEffect(db, m))
    ensures Commit(db, m) != db <==> m.version !in Meta(db)
  {
    if m.version in Meta(db) {
      assert commits + [] == commits;
    } else {
      AddVersion(commits, m);
      var next := commits + [m];
      assert Sql(next) == Sql(commits) + [m.sql];
      forall i | 0 <= i < |next|
        ensures next[i].version in Meta(Commit(db, m)) && Meta(Commit(db, m))[next[i].version] == Recorded(next[i])
      {
        if i < |commits| { assert commits[i].version in Versions(commits); }
      }
    }
  }

  /** Rows are never changed or removed. */
  ghost predicate Grows(a: Db, b: Db) {
    forall v :: v in Meta(a) ==> v in Meta(b) && Meta(b)[v] == Meta(a)[v]
  }

  /** What the loop commits, whatever the faults: new versions only, in ascending order. */
  lemma {:induction false} ApplyAllShape(db: Db, ms: seq<Migration>, faults: nat -> Fault, i: nat)
    requires Ascending(ms) && i <= |ms|
    ensures var (db', error, done) := ApplyAll(db, ms, faults, i);
            && Grows(db, db') && Ascending(done)
            && (forall m :: m in done ==> m in ms[i..] && m.version !in Meta(db))
            && (error.None? ==> forall k :: i <= k < |ms| ==> InPlace(db', ms[k]))
    decreases |ms| - i
  {
    if i < |ms| {
      var (db1, error) := ApplyOne(db, ms[i], faults(i));
      if error.None? {
        ApplyAllShape(db1, ms, faults, i + 1);
        var rest := ApplyAll(db1, ms, faults, i + 1).2;
        assert ms[i..][1..] == ms[i + 1..];
        forall m | m in rest ensures m in ms[i..] && m.version !in Meta(db) && ms[i].version < m.version {
          Later(ms, i, m);
        }
        assert forall k :: 0 <= k < |rest| ==> rest[k] in rest;
      }
    }
  }

  lemma Later(ms: seq<Migration>, i: nat, m: Migration)
    requires Ascending(ms) && i < |ms| && m in ms[i + 1..]
    ensures m in ms[i..] && ms[i].version < m.version
  {
  }

  function Here(db: Db, db': Db, m: Migration): seq<Migration> {
    if db' != db then [m] else []
  }

  lemma ApplyOneConsistent(db: Db, commits: seq<Migration>, m: Migration, fault: Fault)
    requires Consistent(db, commits)
    ensures var db' := ApplyOne(db, m, fault).0; Consistent(db', commits + Here(db, db', m))
  {
    CommitConsistent(db, commits, m);
    assert commits + [] == commits;
  }

  lemma ApplyAllStep(db: Db, ms: seq<Migration>, faults: nat -> Fault, i: nat, commits: seq<Migration>)
    requires i < |ms|
    ensures var (db1, error) := ApplyOne(db, ms[i], faults(i));
            var (db', error', done) := ApplyAll(db, ms, faults, i);
            && (error.Some? ==> db' == db1 && error' == error && commits + done == commits + Here(db, db1, ms[i]))
            && (error.None? ==> var (db2, error2, rest) := ApplyAll(db1, ms, faults, i + 1);
                                db' == db2 && error' == error2
                                  && commits + done == commits + Here(db, db1, ms[i]) + rest)
  {
  }

  /** One run of the loop keeps the database consistent with the commits so far. */
  lemma {:induction false} ApplyAllConsistent(db: Db, commits: seq<Migration>, ms: seq<Migration>,
                                              faults: nat -> Fault, i: nat)
    requires Consistent(db, commits) && i <= |ms|
    ensures Consistent(ApplyAll(db, ms, faults, i).0, commits + ApplyAll(db, ms, faults, i).2)
    decreases |ms| - i
  {
    if i < |ms| {
      ApplyAllStep(db, ms, faults, i, commits);
      ApplyOneConsistent(db, commits, ms[i], faults(i));
      var (db1, error) := ApplyOne(db, ms[i], faults(i));
      if error.None? {
        ApplyAllConsistent(db1, commits + Here(db, db1, ms[i]), ms, faults, i + 1);
      }
    } else {
      assert commits + [] == commits;
    }
  }

  lemma MembersByMultiset(a: seq<Migration>, b: seq<Migration>)
    requires multiset(a) == multiset(b)
    ensures forall m :: m in a <==> m in b
  {
    forall m ensures m in a <==> m in b {
      assert m in a <==> m in multiset(a);
      assert m in b <==> m in multiset(b);
    }
  }

  // ---------------------------------------------------------------- histories

  /** A run as it was started: what its binary carries, and what went wrong. */
  datatype Run = Run(ms: seq<Migration>, faults: nat -> Fault)

  function History(db: Db, runs: seq<Run>): (Db, seq<Migration>)
    decreases runs
  {
    if runs == [] then (db, [])
    else
      var (db1, _, done) := ApplyAll(db, runs[0].ms, runs[0].faults, 0);
      var (db2, more) := History(db1, runs[1..]);
      (db2, done + more)
  }

  lemma Regroup(a: seq<Migration>, b: seq<Migration>, c: seq<Migration>)
    ensures a + b + c == a + (b + c) && a + [] == a && [] + c == c
  {
  }

  /**
   Over any sequence of runs, each with its own list of migrations and breaking off anywhere, the
   database stays consistent with the commits: nothing runs twice, nothing runs unrecorded.
   */
  lemma {:induction false} HistoryConsistent(db: Db, commits: seq<Migration>, runs: seq<Run>)
    requires Consistent(db, commits)
    ensures Consistent(History(db, runs).0, commits + History(db, runs).1)
    decreases runs
  {
    if runs == [] {
      Regroup(commits, [], []);
    } else {
      ApplyAllConsistent(db, commits, runs[0].ms, runs[0].faults, 0);
      var (db1, _, done) := ApplyAll(db, runs[0].ms, runs[0].faults, 0);
      HistoryConsistent(db1, commits + done, runs[1..]);
      Regroup(commits, done, History(db1, runs[1..]).1);
    }
  }

  /** Bare migration transactions one after another, and the ones that took effect. */
  function CommitEach(db: Db, ms: seq<Migration>): (Db, seq<Migration>)
    decreases ms
  {
    if ms == [] then (db, [])
    else
      var (db', rest) := CommitEach(Commit(db, ms[0]), ms[1..]);
      (db', TookEffect(db, ms[0]) + rest)
  }

  /**
   At-most-once does not even rest on the advisory lock: migration transactions of any number of
   runners, in any interleaving and after any stale inspection, keep the database consistent.
   */
  lemma {:induction false} UnlockedRunnersConsistent(db: Db, commits: seq<Migration>, ms: seq<Migration>)
    requires Consistent(db, commits)
    ensures Consistent(CommitEach(db, ms).0, commits + CommitEach(db, ms).1)
    decreases ms
  {
    if ms == [] {
      Regroup(commits, [], []);
    } else {
      var here := TookEffect(db, ms[0]);
      CommitConsistent(db, commits, ms[0]);
      UnlockedRunnersConsistent(Commit(db, ms[0]), commits + here, ms[1..]);
      Regroup(commits, here, CommitEach(Commit(db, ms[0]), ms[1..]).1);
    }
  }

  // ---------------------------------------------------------------- status

  datatype Status = Status(version: int, applied: bool, drift: bool)

  function StatusOf(db: Db, m: Migration): Status {
    Status(m.version, m.version in Meta(db), m.version in Meta(db) && Meta(db)[m.version].checksum != m.checksum)
  }

  /** Status: one line per known migration; without a metadata table everything is pending. */
  method ReportStatus(db: Db, ms: seq<Migration>) returns (out: seq<Status>)
    ensures |out| == |ms| && forall i :: 0 <= i < |ms| ==> out[i] == StatusOf(db, ms[i])
  {
    out := [];
    if db.meta.None? {
      for i := 0 to |ms|
        invariant |out| == i && forall k :: 0 <= k < i ==> out[k] == StatusOf(db, ms[k])
      {
        out := out + [Status(ms[i].version, false, false)];
      }
      return;
    }
    var applied := db.meta.value;
    for i := 0 to |ms|
      invariant |out| == i && forall k :: 0 <= k < i ==> out[k] == StatusOf(db, ms[k])
    {
      var drift, known := false, ms[i].version in applied;
      if known && applied[ms[i].version].checksum != ms[i].checksum { drift := true; }
      out := out + [Status(ms[i].version, known, drift)];
    }
  }

  /** After a successful run, the status shows everything applied and no drift. */
  lemma StatusAfterSuccess(db: Db, ms: seq<Migration>, faults: nat -> Fault, k: nat)
    requires Ascending(ms) && ApplyAll(db, ms, faults, 0).1.None? && k < |ms|
    ensures StatusOf(ApplyAll(db, ms, faults, 0).0, ms[k]) == Status(ms[k].version, true, false)
  {
    ApplyAllShape(db, ms, faults, 0);
  }

  /** What the status says is what was committed: applied and drifted exactly by the commits so far. */
  lemma StatusIsTruthful(db: Db, commits: seq<Migration>, m: Migration)
    requires Consistent(db, commits)
    ensures StatusOf(db, m).version == m.version
    ensures StatusOf(db, m).applied <==> exists i :: 0 <= i < |commits| && commits[i].version == m.version
    ensures StatusOf(db, m).drift <==>
              exists i :: 0 <= i < |commits| && commits[i].version == m.version && commits[i].checksum != m.checksum
  {
    if m.version in Meta(db) {
      assert m.version in Versions(commits);
      var i :| 0 <= i < |commits| && commits[i].version == m.version;
      assert Meta(db)[m.version] == Recorded(commits[i]);
    }
  }

  /** Nothing goes wrong with one migration: it is recorded as it is now, or its transaction commits. */
  predicate GoesWell(db: Db, m: Migration, fault: Fault) {
    if m.version in Meta(db) then !fault.BeforeCommit? && !StatusOf(db, m).drift else fault.NoFault?
  }

  /** A run of the loop succeeds exactly if nothing goes wrong with any migration. */
  lemma {:induction false} SucceedsIff(db: Db, ms: seq<Migration>, faults: nat -> Fault, i: nat)
    requires Ascending(ms) && i <= |ms|
    ensures ApplyAll(db, ms, faults, i).1.None? <==> forall j :: i <= j < |ms| ==> GoesWell(db, ms[j], faults(j))
    decreases |ms| - i
  {
    if i < |ms| {
      var (db1, error) := ApplyOne(db, ms[i], faults(i));
      assert error.None? <==> GoesWell(db, ms[i], faults(i));
      if error.None? {
        assert forall j :: i < j < |ms| ==> StatusOf(db1, ms[j]) == StatusOf(db, ms[j]);
        assert forall j :: i < j < |ms| ==> (GoesWell(db1, ms[j], faults(j)) <==> GoesWell(db, ms[j], faults(j)));
        SucceedsIff(db1, ms, faults, i + 1);
      }
    }
  }

  /** The migrations of ms[i..k] that the database does not have. */
  function Pending(db: Db, ms: seq<Migration>, i: nat, k: nat): seq<Migration>
    requires i <= k <= |ms|
    decreases k - i
  {
    if i == k then []
    else (if ms[i].version in Meta(db) then [] else [ms[i]]) + Pending(db, ms, i + 1, k)
  }

  lemma {:induction false} PendingFrame(db: Db, db': Db, ms: seq<Migration>, i: nat, k: nat)
    requires i <= k <= |ms| && forall j :: i <= j < k ==> (ms[j].version in Meta(db) <==> ms[j].version in Meta(db'))
    ensures Pending(db, ms, i, k) == Pending(db', ms, i, k)
    decreases k - i
  {
    if i < k { PendingFrame(db, db', ms, i + 1, k); }
  }

  /**
   With a changed checksum and no other error, the run applies exactly the pending versions below the
   smallest drifted one and stops there.
   */
  lemma {:induction false} StopsAtSmallestDrift(db: Db, ms: seq<Migration>, faults: nat -> Fault, i: nat, k: nat)
    requires Ascending(ms) && i <= k < |ms|
    requires forall j :: i <= j < |ms| ==> faults(j).NoFault?
    requires StatusOf(db, ms[k]).drift && forall j :: i <= j < k ==> !StatusOf(db, ms[j]).drift
    ensures var (db', error, done) := ApplyAll(db, ms, faults, i);
            && error == Some(ChecksumChanged(ms[k].version))
            && done == Pending(db, ms, i, k)
            && Grows(db, db')
            && forall j :: i <= j < k ==> InPlace(db', ms[j])
    decreases k - i
  {
    assert faults(i).NoFault?;
    if i < k {
      var db1 := ApplyOne(db, ms[i], faults(i)).0;
      assert !StatusOf(db, ms[i]).drift;
      assert forall j :: i < j < |ms| ==> StatusOf(db1, ms[j]) == StatusOf(db, ms[j]);
      StopsAtSmallestDrift(db1, ms, faults, i + 1, k);
      PendingFrame(db, db1, ms, i + 1, k);
    }
  }

  /** So it is for a whole run, whose migrations are the loadable ones in ascending order. */
  lemma RunStopsAtSmallestDrift(db: Db, sources: seq<Source>, sum: string -> string, faults: nat -> Fault, k: nat)
    requires Loadable(sources, sum) && k < |Expected(sources, sum)|
    requires forall j :: 0 <= j < |Expected(sources, sum)| ==> faults(j).NoFault?
    requires var ms := Sorted(Expected(sources, sum));
             |ms| == |Expected(sources, sum)| && StatusOf(db, ms[k]).drift
             && forall j :: 0 <= j < k ==> !StatusOf(db, ms[j]).drift
    ensures var ms := Sorted(Expected(sources, sum));
            var (_, error, done) := ApplyAll(Prepared(db), ms, faults, 0);
            error == Some(ChecksumChanged(ms[k].version)) && done == Pending(db, ms, 0, k)
  {
    var ms := Sorted(Expected(sources, sum));
    SortedAscending(Expected(sources, sum));
    assert Meta(Prepared(db)) == Meta(db);
    StopsAtSmallestDrift(Prepared(db), ms, faults, 0, k);
    PendingFrame(Prepared(db), db, ms, 0, k);
  }
}

/** What a probe answers and what a snapshot shows, read off the events of the run: what the checks returned. */
module HealthHistory {
  import opened Common
  import opened Health

  // ---------------------------------------------------------------- what the events say

  /** The check returned `ok`, and its goroutine took that result and not the timeout. */
  ghost predicate Returned(es: seq<Event>, p: nat, n: Name, ok: bool) {
    exists i, j :: 0 <= i < j < |es| && es[i] == Finish(p, n, ok) && es[j] == Decide(p, n, false)
  }

  ghost predicate TimedOut(es: seq<Event>, p: nat, n: Name) {
    Decide(p, n, true) in es
  }

  /** The check was refused because another body of its name was under way. */
  ghost predicate Refused(es: seq<Event>, p: nat, n: Name) {
    exists k :: 0 <= k < |es| && RefusedAt(es, k, p, n)
  }

  ghost predicate RefusedAt(es: seq<Event>, k: int, p: nat, n: Name) {
    && 0 <= k < |es| && es[k] == Launch(p, n)
    && ValidRun(INITIAL, es[..k])
    && exists b :: b in RunAll(INITIAL, es[..k]).bodies && b.name == n
  }

  // ---------------------------------------------------------------- runs, one step more

  lemma {:induction false} RunSnoc(s: State, es: seq<Event>, e: Event)
    requires ValidRun(s, es) && Enabled(RunAll(s, es), e)
    ensures ValidRun(s, es + [e]) && RunAll(s, es + [e]) == Step(RunAll(s, es), e)
    decreases es
  {
    if es == [] {
      assert [] + [e] == [e] && [e][1..] == [];
    } else {
      RunSnoc(Step(s, es[0]), es[1..], e);
      assert (es + [e])[0] == es[0] && (es + [e])[1..] == es[1..] + [e];
    }
  }

  lemma {:induction false} RunPrefix(s: State, es: seq<Event>)
    requires ValidRun(s, es) && es != []
    ensures var n := |es| - 1;
            && ValidRun(s, es[..n])
            && Enabled(RunAll(s, es[..n]), es[n])
            && RunAll(s, es) == Step(RunAll(s, es[..n]), es[n])
    decreases es
  {
    var n := |es| - 1;
    if n == 0 {
      assert es[..0] == [] && es[1..] == [];
    } else {
      RunPrefix(Step(s, es[0]), es[1..]);
      assert es[1..][..n - 1] == es[..n][1..] && es[1..][n - 1] == es[n];
    }
  }

  // ---------------------------------------------------------------- one check of one probe

  /** A result that a body left behind. */
  ghost predicate BodyFollows(es: seq<Event>, s: State, p: nat, n: Name) {
    forall ok :: Finish(p, n, ok) in es <==> Body(p, n) in s.results && s.results[Body(p, n)] == ok
  }

  /** Where a task stands is what happened to it. */
  ghost predicate TaskFollows(es: seq<Event>, s: State, p: nat, n: Name) {
    match TaskOf(s, p, n)
    case None => Undecided(es, p, n) && Launch(p, n) !in es
    case Some(NotStarted) => Undecided(es, p, n) && Launch(p, n) !in es
    case Some(Checking) => Undecided(es, p, n) && !Refused(es, p, n)
    case Some(Sent(r)) => Decided(es, p, n, r.ok)
    case Some(Received(r)) => Decided(es, p, n, r.ok)
  }

  ghost predicate Undecided(es: seq<Event>, p: nat, n: Name) {
    Decide(p, n, true) !in es && Decide(p, n, false) !in es
  }

  /** Exactly one of four things happened: the check passed, it failed, it timed out, it was refused. */
  ghost predicate Decided(es: seq<Event>, p: nat, n: Name, ok: bool) {
    && (ok <==> Returned(es, p, n, true))
    && (!ok <==> Returned(es, p, n, false) || TimedOut(es, p, n) || Refused(es, p, n))
  }

  lemma Snoc(es: seq<Event>, e: Event)
    ensures forall x :: x in es + [e] <==> x in es || x == e
  {
  }

  lemma ReturnedSnoc(es: seq<Event>, e: Event, p: nat, n: Name, ok: bool)
    ensures Returned(es + [e], p, n, ok) <==>
              Returned(es, p, n, ok) || (e == Decide(p, n, false) && Finish(p, n, ok) in es)
  {
    var all := es + [e];
    if e == Decide(p, n, false) && Finish(p, n, ok) in es {
      var i :| 0 <= i < |es| && es[i] == Finish(p, n, ok);
      assert all[i] == Finish(p, n, ok) && all[|es|] == Decide(p, n, false);
    }
    if Returned(es, p, n, ok) {
      var i, j :| 0 <= i < j < |es| && es[i] == Finish(p, n, ok) && es[j] == Decide(p, n, false);
      assert all[i] == Finish(p, n, ok) && all[j] == Decide(p, n, false);
    }
  }

  lemma RefusedSnoc(es: seq<Event>, e: Event, p: nat, n: Name)
    requires ValidRun(INITIAL, es)
    ensures Refused(es + [e], p, n) <==>
              || Refused(es, p, n)
              || (e == Launch(p, n) && exists b :: b in RunAll(INITIAL, es).bodies && b.name == n)
  {
    var all := es + [e];
    assert all[..|es|] == es;
    forall k | 0 <= k < |es| ensures RefusedAt(all, k, p, n) <==> RefusedAt(es, k, p, n) {
      assert all[..k] == es[..k];
    }
    if Refused(es, p, n) {
      var k :| 0 <= k < |es| && RefusedAt(es, k, p, n);
      assert RefusedAt(all, k, p, n);
    }
    if e == Launch(p, n) && exists b :: b in RunAll(INITIAL, es).bodies && b.name == n {
      assert RefusedAt(all, |es|, p, n);
    }
    if Refused(all, p, n) {
      var k :| 0 <= k < |all| && RefusedAt(all, k, p, n);
      if k < |es| { assert RefusedAt(es, k, p, n); } else { assert k == |es|; }
    }
  }

  lemma BodyFollowsStep(es: seq<Event>, s: State, e: Event, p: nat, n: Name)
    requires Enabled(s, e) && BodyFollows(es, s, p, n)
    ensures BodyFollows(es + [e], Step(s, e), p, n)
  {
    Snoc(es, e);
  }

  /** An event of another check or probe changes nothing. */
  lemma Unconcerned(es: seq<Event>, e: Event, p: nat, n: Name)
    requires ValidRun(INITIAL, es) && e != Launch(p, n) && e != Decide(p, n, true) && e != Decide(p, n, false)
    ensures Undecided(es + [e], p, n) <==> Undecided(es, p, n)
    ensures Launch(p, n) in es + [e] <==> Launch(p, n) in es
    ensures Refused(es + [e], p, n) <==> Refused(es, p, n)
    ensures forall ok :: Decided(es + [e], p, n, ok) <==> Decided(es, p, n, ok)
  {
    Snoc(es, e);
    ReturnedSnoc(es, e, p, n, true);
    ReturnedSnoc(es, e, p, n, false);
    RefusedSnoc(es, e, p, n);
  }

  lemma OtherFollows(es: seq<Event>, s: State, e: Event, p: nat, n: Name)
    requires ValidRun(INITIAL, es) && Enabled(s, e) && TaskFollows(es, s, p, n)
    requires e != Launch(p, n) && e != Decide(p, n, true) && e != Decide(p, n, false)
    ensures TaskFollows(es + [e], Step(s, e), p, n)
  {
    Unconcerned(es, e, p, n);
    if !Concerns(e, p, n) && !(e.Begin? && e.probe == p) { OtherTasksStay(s, e, p, n); }
  }

  lemma NothingYet(es: seq<Event>, p: nat, n: Name, ok: bool)
    requires Undecided(es, p, n)
    ensures !Returned(es, p, n, ok) && !TimedOut(es, p, n)
    ensures Launch(p, n) !in es ==> !Refused(es, p, n)
  {
  }

  lemma LaunchFollows(es: seq<Event>, s: State, p: nat, n: Name)
    requires ValidRun(INITIAL, es) && s == RunAll(INITIAL, es) && Enabled(s, Launch(p, n))
    requires SingleFlight(s.running, s.bodies) && TaskFollows(es, s, p, n)
    ensures TaskFollows(es + [Launch(p, n)], Step(s, Launch(p, n)), p, n)
  {
    var all := es + [Launch(p, n)];
    Snoc(es, Launch(p, n));
    NothingYet(es, p, n, true);
    RefusedSnoc(es, Launch(p, n), p, n);
    NothingYet(all, p, n, true);
    NothingYet(all, p, n, false);
  }

  lemma DecideFollows(es: seq<Event>, s: State, p: nat, n: Name, timeout: bool)
    requires ValidRun(INITIAL, es) && s == RunAll(INITIAL, es) && Enabled(s, Decide(p, n, timeout))
    requires BodyFollows(es, s, p, n) && TaskFollows(es, s, p, n)
    ensures TaskFollows(es + [Decide(p, n, timeout)], Step(s, Decide(p, n, timeout)), p, n)
  {
    var e := Decide(p, n, timeout);
    Snoc(es, e);
    NothingYet(es, p, n, true);
    NothingYet(es, p, n, false);
    ReturnedSnoc(es, e, p, n, true);
    ReturnedSnoc(es, e, p, n, false);
    RefusedSnoc(es, e, p, n);
  }

  lemma TaskFollowsStep(es: seq<Event>, e: Event, p: nat, n: Name)
    requires ValidRun(INITIAL, es) && Inv(RunAll(INITIAL, es)) && Enabled(RunAll(INITIAL, es), e)
    requires BodyFollows(es, RunAll(INITIAL, es), p, n) && TaskFollows(es, RunAll(INITIAL, es), p, n)
    ensures TaskFollows(es + [e], Step(RunAll(INITIAL, es), e), p, n)
  {
    if e == Launch(p, n) {
      LaunchFollows(es, RunAll(INITIAL, es), p, n);
    } else if e == Decide(p, n, true) || e == Decide(p, n, false) {
      DecideFollows(es, RunAll(INITIAL, es), p, n, e.timeout);
    } else {
      OtherFollows(es, RunAll(INITIAL, es), e, p, n);
    }
  }

  lemma {:induction false} RunFollows(es: seq<Event>, p: nat, n: Name)
    requires ValidRun(INITIAL, es)
    ensures BodyFollows(es, RunAll(INITIAL, es), p, n) && TaskFollows(es, RunAll(INITIAL, es), p, n)
    decreases |es|
  {
    if es != [] {
      var k := |es| - 1;
      RunPrefix(INITIAL, es);
      RunFollows(es[..k], p, n);
      RunKeepsInv(INITIAL, es[..k]);
      BodyFollowsStep(es[..k], RunAll(INITIAL, es[..k]), es[k], p, n);
      TaskFollowsStep(es[..k], es[k], p, n);
      assert es[..k] + [es[k]] == es;
    }
  }

  // ---------------------------------------------------------------- what a probe answers

  /**
   A result says ok exactly when its check returned nil before its timeout; otherwise the check returned an
   error, or it timed out, or it was refused because a body of its name was under way.
   */
  lemma ResultIsTheChecks(es: seq<Event>, p: nat, n: Name, r: CheckResult)
    requires ValidRun(INITIAL, es)
    requires var t := TaskOf(RunAll(INITIAL, es), p, n); t == Some(Sent(r)) || t == Some(Received(r))
    ensures r.ok <==> Returned(es, p, n, true)
    ensures !r.ok <==> Returned(es, p, n, false) || TimedOut(es, p, n) || Refused(es, p, n)
  {
    RunFollows(es, p, n);
  }

  /** A finished probe answers 503 exactly if a critical check of its snapshot failed, timed out or was refused. */
  lemma AnswerFollowsChecks(es: seq<Event>, p: nat)
    requires ValidRun(INITIAL, es) && p in RunAll(INITIAL, es).probes && Answered(RunAll(INITIAL, es).probes[p])
    ensures var probe := RunAll(INITIAL, es).probes[p];
            !probe.ready <==>
            exists n :: n in probe.snapshot && probe.snapshot[n].criticality.Critical?
                        && (Returned(es, p, n, false) || TimedOut(es, p, n) || Refused(es, p, n))
  {
    var probe := RunAll(INITIAL, es).probes[p];
    AnswerIsExact(es, p);
    forall n | n in probe.snapshot
      ensures !probe.tasks[n].result.ok <==> Returned(es, p, n, false) || TimedOut(es, p, n) || Refused(es, p, n)
    {
      ResultIsTheChecks(es, p, n, probe.tasks[n].result);
    }
    if !probe.ready {
      var n :| n in probe.snapshot && !probe.tasks[n].result.ok && probe.snapshot[n].criticality.Critical?;
      assert Returned(es, p, n, false) || TimedOut(es, p, n) || Refused(es, p, n);
    }
  }

  lemma {:induction false} ProbeKeepsSnapshot(s: State, es: seq<Event>, p: nat)
    requires ValidRun(s, es) && p in s.probes
    ensures p in RunAll(s, es).probes && RunAll(s, es).probes[p].snapshot == s.probes[p].snapshot
    decreases es
  {
    if es != [] {
      assert p in Step(s, es[0]).probes && Step(s, es[0]).probes[p].snapshot == s.probes[p].snapshot;
      ProbeKeepsSnapshot(Step(s, es[0]), es[1..], p);
    }
  }

  /** A probe runs exactly the checks that were registered when it began, whatever is added or removed later. */
  lemma ProbeRunsRegistered(es: seq<Event>, p: nat, more: seq<Event>)
    requires ValidRun(INITIAL, es) && Enabled(RunAll(INITIAL, es), Begin(p))
    requires ValidRun(Step(RunAll(INITIAL, es), Begin(p)), more)
    ensures var s := RunAll(INITIAL, es);
            var s' := RunAll(Step(s, Begin(p)), more);
            && p in s'.probes
            && s'.probes[p].snapshot == s.checks
            && s'.probes[p].tasks.Keys == s.checks.Keys
  {
    var s1 := Step(RunAll(INITIAL, es), Begin(p));
    ProbeKeepsSnapshot(s1, more, p);
    RunKeepsInv(INITIAL, es);
    StepKeepsInv(RunAll(INITIAL, es), Begin(p));
    RunKeepsInv(s1, more);
    assert ProbeOk(RunAll(s1, more).probes[p]);
  }

  // ---------------------------------------------------------------- what a snapshot shows

  /** Nothing that could change what is shown for n. */
  ghost predicate LeavesAlone(es: seq<Event>, n: Name) {
    forall i :: 0 <= i < |es| ==> match es[i]
                                  case Add(m, _) => m != n
                                  case Remove(m) => m != n
                                  case Receive(_, m) => m != n
                                  case _ => true
  }

  lemma {:induction false} ShownLasts(s: State, es: seq<Event>, n: Name)
    requires ValidRun(s, es) && LeavesAlone(es, n)
    ensures var s' := RunAll(s, es);
            && (n in s'.lastResults <==> n in s.lastResults)
            && (n in s.lastResults ==> s'.lastResults[n] == s.lastResults[n])
    decreases es
  {
    if es != [] { ShownLasts(Step(s, es[0]), es[1..], n); }
  }

  /**
   A snapshot shows for a check the result received last, as long as it belongs to the registration that is
   current when it is received; a result of an older registration never replaces what is shown.
   */
  lemma SnapshotShowsLatest(es: seq<Event>, p: nat, n: Name, more: seq<Event>)
    requires ValidRun(INITIAL, es) && Enabled(RunAll(INITIAL, es), Receive(p, n))
    requires ValidRun(Step(RunAll(INITIAL, es), Receive(p, n)), more) && LeavesAlone(more, n)
    ensures var s := RunAll(INITIAL, es);
            var s' := RunAll(Step(s, Receive(p, n)), more);
            && n in s.probes[p].snapshot
            && if n in s.checks && s.checks[n].generation == s.probes[p].snapshot[n].generation
               then n in s'.lastResults && s'.lastResults[n] == s.probes[p].tasks[n].result
               else (n in s'.lastResults <==> n in s.lastResults)
                    && (n in s.lastResults ==> s'.lastResults[n] == s.lastResults[n])
  {
    RunKeepsInv(INITIAL, es);
    assert ProbeOk(RunAll(INITIAL, es).probes[p]);
    ShownLasts(Step(RunAll(INITIAL, es), Receive(p, n)), more, n);
  }
}

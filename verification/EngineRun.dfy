/**
 The shutdown protocol of Engine.Run. Worker goroutines, the server goroutine, outside cancellation
 and the main goroutine interleave freely; every read of the context, channel operation and cancel
 is a step of its own.
 */
module EngineRun {
  import opened Common

  /** What a worker's Run returned: nil, an error that wraps context.Canceled, or any other error. */
  datatype Outcome = Clean | Canceled | Failed

  /** The outcome together with whether the run context was still live when the goroutine looked at it. */
  datatype Ending = Ending(outcome: Outcome, early: bool)

  /** A worker goroutine, from its call of Run to the closing of its done channel. */
  datatype Worker =
    | Running
    | Returned(outcome: Outcome)
    | Reporting(ending: Ending)
    | Cancelling(ending: Ending)
    | Closing(ending: Ending)
    | Done(ending: Ending)

  /** The server goroutine; nobody waits for it. */
  datatype Server = Absent | Serving | Broken | Alerting | Gone(failed: bool)

  datatype Failure =
    | WorkerFailed(index: nat)
    | ServerFailed
    | BadCause
    | ShutdownFailed
    | TimedOut(unfinished: seq<nat>)

  /** The main goroutine; `err` is runErr, empty for nil and longer than one when errors are joined. */
  datatype Main =
    | Selecting
    | Stopping(err: seq<Failure>)
    | Releasing(err: seq<Failure>)
    | Waiting(err: seq<Failure>, next: nat)
    | Listing(err: seq<Failure>, next: nat, names: seq<nat>)
    | Draining(err: seq<Failure>)
    | Finished(err: seq<Failure>)

  /** `cancelled` is None while the run context is live, else whether its cause is context.Canceled. */
  datatype State = State(capacity: nat, workers: seq<Worker>, server: Server, cancelled: Option<bool>,
                         errCh: seq<Failure>, main: Main)

  datatype Event =
    | Return(i: nat, outcome: Outcome)
    | Judge(i: nat)
    | Send(i: nat)
    | Cancel(i: nat)
    | Close(i: nat)
    | ServerStop(failed: bool)
    | ServerSend
    | ServerCancel
    | Outside(benign: bool)
    | SelectDone
    | SelectErr
    | Shutdown(ok: bool)
    | Release
    | WaitNext
    | WaitEnd
    | Timer
    | ListNext
    | ListEnd
    | Drain

  /** Run starts `workers` of the registered workers: all of them, or none when only HTTP is served. */
  function Start(registered: nat, http: bool, background: bool): State {
    State(registered + 1, if background then seq(registered, _ => Running) else [],
          if http then Serving else Absent, None, [], Selecting)
  }

  // ---------------------------------------------------------------- steps

  /** Which endings the goroutine turns into an error on errCh. */
  predicate Reports(e: Ending) {
    e.outcome.Failed? || (e.outcome.Clean? && e.early)
  }

  predicate Enabled(s: State, e: Event) {
    match e
    case Return(i, _) => i < |s.workers| && s.workers[i].Running?
    case Judge(i) => i < |s.workers| && s.workers[i].Returned?
    case Send(i) => i < |s.workers| && s.workers[i].Reporting?
    case Cancel(i) => i < |s.workers| && s.workers[i].Cancelling?
    case Close(i) => i < |s.workers| && s.workers[i].Closing?
    case ServerStop(failed) => s.server.Serving?
    case ServerSend => s.server.Broken?
    case ServerCancel => s.server.Alerting?
    case Outside(_) => true
    case SelectDone => s.main.Selecting? && s.cancelled.Some?
    case SelectErr => s.main.Selecting? && s.errCh != []
    case Shutdown(ok) => s.main.Stopping? && (s.server.Absent? ==> ok)
    case Release => s.main.Releasing?
    case WaitNext => s.main.Waiting? && s.main.next < |s.workers| && s.workers[s.main.next].Done?
    case WaitEnd => s.main.Waiting? && s.main.next >= |s.workers|
    case Timer => s.main.Waiting? && s.main.next < |s.workers|
    case ListNext => s.main.Listing? && s.main.next < |s.workers|
    case ListEnd => s.main.Listing? && s.main.next >= |s.workers|
    case Drain => s.main.Draining?
  }

  /** The first cancellation fixes the cause. */
  function Cancelled(c: Option<bool>, benign: bool): Option<bool> {
    if c.Some? then c else Some(benign)
  }

  /** A send that gives up when the channel is full. */
  function TrySend(s: State, f: Failure): State {
    if |s.errCh| < s.capacity then s.(errCh := s.errCh + [f]) else s
  }

  function Judged(w: Worker, live: bool): Worker
    requires w.Returned?
  {
    var e := Ending(w.outcome, live);
    if Reports(e) then Reporting(e) else Closing(e)
  }

  function Step(s: State, e: Event): State
    requires Enabled(s, e)
  {
    match e
    case Return(i, out) => s.(workers := s.workers[i := Returned(out)])
    case Judge(i) => s.(workers := s.workers[i := Judged(s.workers[i], s.cancelled.None?)])
    case Send(i) => TrySend(s, WorkerFailed(i)).(workers := s.workers[i := Cancelling(s.workers[i].ending)])
    case Cancel(i) =>
      s.(cancelled := Cancelled(s.cancelled, true), workers := s.workers[i := Closing(s.workers[i].ending)])
    case Close(i) => s.(workers := s.workers[i := Done(s.workers[i].ending)])
    case ServerStop(failed) => s.(server := if failed then Broken else Gone(false))
    case ServerSend => TrySend(s, ServerFailed).(server := Alerting)
    case ServerCancel => s.(cancelled := Cancelled(s.cancelled, true), server := Gone(true))
    case Outside(benign) => s.(cancelled := Cancelled(s.cancelled, benign))
    case SelectDone => s.(main := Stopping(if s.cancelled.value then [] else [BadCause]))
    case SelectErr => s.(main := Stopping([s.errCh[0]]), errCh := s.errCh[1..])
    case Shutdown(ok) => s.(main := Releasing(if !ok && s.main.err == [] then [ShutdownFailed] else s.main.err))
    case Release => s.(cancelled := Cancelled(s.cancelled, true), main := Waiting(s.main.err, 0))
    case WaitNext => s.(main := Waiting(s.main.err, s.main.next + 1))
    case WaitEnd => s.(main := Draining(s.main.err))
    case Timer => s.(main := Listing(s.main.err, 0, []))
    case ListNext =>
      var unfinished := if s.workers[s.main.next].Done? then [] else [s.main.next];
      s.(main := Listing(s.main.err, s.main.next + 1, s.main.names + unfinished))
    case ListEnd =>
      s.(main := Draining(if s.main.names == [] then s.main.err else s.main.err + [TimedOut(s.main.names)]))
    case Drain =>
      if s.main.err == [] && s.errCh != [] then s.(main := Finished([s.errCh[0]]), errCh := s.errCh[1..])
      else s.(main := Finished(s.main.err))
  }

  predicate ValidRun(s: State, es: seq<Event>)
    decreases es
  {
    es == [] || (Enabled(s, es[0]) && ValidRun(Step(s, es[0]), es[1..]))
  }

  function RunAll(s: State, es: seq<Event>): State
    requires ValidRun(s, es)
    decreases es
  {
    if es == [] then s else RunAll(Step(s, es[0]), es[1..])
  }

  // ---------------------------------------------------------------- invariants

  predicate Ended(w: Worker) {
    w.Reporting? || w.Cancelling? || w.Closing? || w.Done?
  }

  /** The goroutine is past its send. */
  predicate HasReported(w: Worker) {
    && (w.Cancelling? || w.Closing? || w.Done?)
    && Reports(w.ending)
  }

  predicate ServerReported(v: Server) {
    v.Alerting? || (v.Gone? && v.failed)
  }

  function Err(m: Main): seq<Failure> {
    if m.Selecting? then [] else m.err
  }

  function ReportCount(ws: seq<Worker>): nat {
    if ws == [] then 0 else (if HasReported(ws[0]) then 1 else 0) + ReportCount(ws[1..])
  }

  ghost predicate RoomLeft(s: State) {
    && s.capacity > |s.workers|
    && |s.errCh| <= ReportCount(s.workers) + (if ServerReported(s.server) then 1 else 0)
  }

  /** What the goroutine's own progress implies. */
  ghost predicate WorkerOk(s: State, w: Worker) {
    && (Ended(w) && !w.ending.early ==> s.cancelled.Some?)
    && (w.Reporting? || w.Cancelling? ==> Reports(w.ending))
    && (HasReported(w) ==> s.errCh != [] || Err(s.main) != [])
  }

  ghost predicate NoTimeout(err: seq<Failure>) {
    forall f :: f in err ==> !f.TimedOut?
  }

  ghost predicate MainOk(s: State) {
    match s.main
    case Waiting(_, next) =>
      s.cancelled.Some? && next <= |s.workers| && forall j :: 0 <= j < next ==> s.workers[j].Done?
    case Listing(_, next, names) =>
      && s.cancelled.Some?
      && next <= |s.workers|
      && (forall j :: 0 <= j < next ==> j in names || s.workers[j].Done?)
      && (forall j :: j in names ==> j < next)
    case Draining(err) =>
      s.cancelled.Some? && (NoTimeout(err) ==> forall j :: 0 <= j < |s.workers| ==> s.workers[j].Done?)
    case Finished(err) =>
      && s.cancelled.Some?
      && (NoTimeout(err) ==> forall j :: 0 <= j < |s.workers| ==> s.workers[j].Done?)
      && (err == [] ==> forall j :: 0 <= j < |s.workers| ==> !HasReported(s.workers[j]))
    case _ => true
  }

  /** A failure that is on its way, or returned, did happen. */
  ghost predicate Genuine(s: State, f: Failure) {
    match f
    case WorkerFailed(i) => i < |s.workers| && HasReported(s.workers[i])
    case ServerFailed => ServerReported(s.server)
    case BadCause => s.cancelled == Some(false)
    case ShutdownFailed => !s.server.Absent?
    case TimedOut(names) => names != [] && forall j :: j in names ==> j < |s.workers|
  }

  ghost predicate AllGenuine(s: State) {
    && (forall f :: f in s.errCh ==> Genuine(s, f) && (f.WorkerFailed? || f.ServerFailed?))
    && (forall f :: f in Err(s.main) ==> Genuine(s, f))
  }

  ghost predicate Inv(s: State) {
    && RoomLeft(s) && MainOk(s) && AllGenuine(s)
    && (ServerReported(s.server) && !s.main.Finished? ==> s.errCh != [] || Err(s.main) != [])
    && forall i :: 0 <= i < |s.workers| ==> WorkerOk(s, s.workers[i])
  }

  lemma {:induction false} CountUpdate(ws: seq<Worker>, i: nat, w: Worker)
    requires i < |ws|
    ensures ReportCount(ws[i := w]) + (if HasReported(ws[i]) then 1 else 0)
              == ReportCount(ws) + (if HasReported(w) then 1 else 0)
  {
    if i == 0 {
      assert ws[0 := w][1..] == ws[1..];
    } else {
      CountUpdate(ws[1..], i - 1, w);
      assert ws[i := w][1..] == ws[1..][i - 1 := w];
    }
  }

  lemma {:induction false} CountBound(ws: seq<Worker>)
    ensures ReportCount(ws) <= |ws|
    ensures (exists i :: 0 <= i < |ws| && !HasReported(ws[i])) ==> ReportCount(ws) < |ws|
  {
    if ws != [] {
      CountBound(ws[1..]);
      assert forall i :: 1 <= i < |ws| ==> ws[i] == ws[1..][i - 1];
    }
  }

  /** No send on errCh ever takes the default branch: the channel has room for every reporter. */
  lemma SendHasRoom(s: State, e: Event)
    requires RoomLeft(s) && Enabled(s, e) && (e.Send? || e.ServerSend?)
    ensures |s.errCh| < s.capacity
  {
    CountBound(s.workers);
    if e.Send? { assert !HasReported(s.workers[e.i]); }
  }

  lemma StepKeepsRoom(s: State, e: Event)
    requires RoomLeft(s) && Enabled(s, e) && forall i :: 0 <= i < |s.workers| ==> WorkerOk(s, s.workers[i])
    ensures RoomLeft(Step(s, e))
  {
    match e
    case Return(i, _) => CountUpdate(s.workers, i, Step(s, e).workers[i]);
    case Judge(i) => CountUpdate(s.workers, i, Step(s, e).workers[i]);
    case Send(i) => assert WorkerOk(s, s.workers[i]); CountUpdate(s.workers, i, Step(s, e).workers[i]);
    case Cancel(i) => assert WorkerOk(s, s.workers[i]); CountUpdate(s.workers, i, Step(s, e).workers[i]);
    case Close(i) => CountUpdate(s.workers, i, Step(s, e).workers[i]);
    case _ =>
  }

  /** Progress of one worker goroutine. */
  ghost predicate Advances(w: Worker, w': Worker) {
    && (w.Done? ==> w' == w)
    && (HasReported(w) ==> HasReported(w'))
  }

  lemma StepAdvances(s: State, e: Event, i: nat)
    requires Enabled(s, e) && i < |s.workers|
    ensures |Step(s, e).workers| == |s.workers|
    ensures Advances(s.workers[i], Step(s, e).workers[i])
    ensures s.cancelled.Some? ==> Step(s, e).cancelled == s.cancelled
    ensures ServerReported(s.server) ==> ServerReported(Step(s, e).server)
  {
  }

  lemma StepKeepsGenuine(s: State, e: Event, f: Failure)
    requires Enabled(s, e) && Genuine(s, f)
    ensures Genuine(Step(s, e), f)
  {
  }

  /** Failures only enter the channel or runErr when they happen. */
  lemma NewFailureGenuine(s: State, e: Event, f: Failure)
    requires Inv(s) && Enabled(s, e) && (f in Step(s, e).errCh || f in Err(Step(s, e).main))
    ensures Genuine(Step(s, e), f)
    ensures (f in Step(s, e).errCh ==> f.WorkerFailed? || f.ServerFailed?)
  {
    if f in s.errCh || f in Err(s.main) {
      StepKeepsGenuine(s, e, f);
    } else if e.Send? {
      assert WorkerOk(s, s.workers[e.i]);
    }
  }

  /** A failure in flight or already in runErr is not dropped by any step. */
  lemma StepKeepsPending(s: State, e: Event)
    requires Enabled(s, e) && (s.errCh != [] || Err(s.main) != [])
    ensures Step(s, e).errCh != [] || Err(Step(s, e).main) != []
  {
  }

  lemma StepKeepsWorker(s: State, e: Event, i: nat)
    requires Inv(s) && Enabled(s, e) && i < |Step(s, e).workers|
    ensures WorkerOk(Step(s, e), Step(s, e).workers[i])
  {
    StepAdvances(s, e, if i < |s.workers| then i else 0);
    assert WorkerOk(s, s.workers[i]);
    if s.errCh != [] || Err(s.main) != [] { StepKeepsPending(s, e); }
    if e.Send? { SendHasRoom(s, e); }
  }

  lemma ListEndKeepsMain(s: State)
    requires MainOk(s) && Enabled(s, ListEnd)
    ensures MainOk(Step(s, ListEnd))
  {
    var names, err := s.main.names, Step(s, ListEnd).main.err;
    assert names != [] ==> err[|err| - 1] == TimedOut(names);
  }

  lemma StepKeepsMain(s: State, e: Event)
    requires Inv(s) && Enabled(s, e)
    ensures MainOk(Step(s, e))
  {
    forall i | 0 <= i < |s.workers|
      ensures |Step(s, e).workers| == |s.workers|
      ensures Advances(s.workers[i], Step(s, e).workers[i])
      ensures WorkerOk(s, s.workers[i])
    {
      StepAdvances(s, e, i);
    }
    if e.ListEnd? { ListEndKeepsMain(s); }
  }

  lemma StepKeepsInv(s: State, e: Event)
    requires Inv(s) && Enabled(s, e)
    ensures Inv(Step(s, e))
  {
    StepKeepsRoom(s, e);
    StepKeepsMain(s, e);
    forall f | f in Step(s, e).errCh || f in Err(Step(s, e).main) 
      ensures Genuine(Step(s, e), f)
      ensures (f in Step(s, e).errCh ==> f.WorkerFailed? || f.ServerFailed?)
    {
      NewFailureGenuine(s, e, f);
    }
    forall i | 0 <= i < |Step(s, e).workers| ensures WorkerOk(Step(s, e), Step(s, e).workers[i]) {
      StepKeepsWorker(s, e, i);
    }
  }

  lemma {:induction false} RunKeepsInv(s: State, es: seq<Event>)
    requires Inv(s) && ValidRun(s, es)
    ensures Inv(RunAll(s, es))
    decreases es
  {
    if es != [] {
      StepKeepsInv(s, es[0]);
      RunKeepsInv(Step(s, es[0]), es[1..]);
    }
  }

  // ---------------------------------------------------------------- theorems about every run

  /** `s` can be reached by running an engine with that many workers under that profile. */
  ghost predicate Reachable(s: State) {
    exists registered: nat, http, background, es ::
      ValidRun(Start(registered, http, background), es) && RunAll(Start(registered, http, background), es) == s
  }

  lemma ReachableOk(s: State)
    requires Reachable(s)
    ensures Inv(s)
  {
    var registered: nat, http, background, es :|
      ValidRun(Start(registered, http, background), es) && RunAll(Start(registered, http, background), es) == s;
    RunKeepsInv(Start(registered, http, background), es);
  }

  /**
   If Run returns nil, every started worker has returned and closed its channel, none of them reported a
   failure or an early exit, and the run context was cancelled: a worker's nil came after the cancellation.
   */
  lemma NoLostWorkerFailure(s: State)
    requires Reachable(s) && s.main == Finished([])
    ensures s.cancelled.Some?
    ensures forall i :: 0 <= i < |s.workers| ==>
              s.workers[i].Done? && !s.workers[i].ending.outcome.Failed?
                && (s.workers[i].ending.early ==> s.workers[i].ending.outcome.Canceled?)
  {
    ReachableOk(s);
  }

  /** Run only leaves workers behind when it says so: without a timeout error all of them have returned. */
  lemma NoTimeoutMeansJoined(s: State)
    requires Reachable(s) && s.main.Finished? && forall f :: f in s.main.err ==> !f.TimedOut?
    ensures forall i :: 0 <= i < |s.workers| ==> s.workers[i].Done?
  {
    ReachableOk(s);
  }

  /** In every reachable state the channel takes the error about to be sent. */
  lemma SendNeverDrops(s: State, e: Event)
    requires Reachable(s) && Enabled(s, e) && (e.Send? || e.ServerSend?)
    ensures Step(s, e).errCh == s.errCh + [if e.Send? then WorkerFailed(e.i) else ServerFailed]
  {
    ReachableOk(s);
    SendHasRoom(s, e);
  }

  /** Every error Run returns names something that did happen. */
  lemma ReturnedErrorsAreGenuine(s: State, f: Failure)
    requires Reachable(s) && s.main.Finished? && f in s.main.err
    ensures match f
            case WorkerFailed(i) => i < |s.workers| && Ended(s.workers[i]) && Reports(s.workers[i].ending)
            case ServerFailed => s.server == Alerting || s.server == Gone(true)
            case BadCause => s.cancelled == Some(false)
            case ShutdownFailed => s.server != Absent
            case TimedOut(names) => names != [] && forall j :: j in names ==> j < |s.workers|
  {
    ReachableOk(s);
    assert f in Err(s.main) && Genuine(s, f);
  }

  /** Steps the main goroutine still has to make, at most. */
  function MainSteps(s: State): nat
    requires MainOk(s)
  {
    var n := |s.workers|;
    match s.main
    case Selecting => 2 * n + 7
    case Stopping(_) => 2 * n + 6
    case Releasing(_) => 2 * n + 5
    case Waiting(_, next) => 2 * n + 4 - next
    case Listing(_, next, _) => n + 3 - next
    case Draining(_) => 1
    case Finished(_) => 0
  }

  /**
   Run never hangs once anything failed or was cancelled: the main goroutine always has a step of its
   own that brings it closer to returning, whatever the workers do.
   */
  lemma MainAdvances(s: State) returns (e: Event)
    requires Reachable(s) && !s.main.Finished?
    requires
      || s.cancelled.Some?
      || ServerReported(s.server)
      || (exists i :: 0 <= i < |s.workers| && HasReported(s.workers[i]))
    ensures Enabled(s, e)
    ensures MainOk(s)
    ensures MainOk(Step(s, e))
    ensures MainSteps(Step(s, e)) < MainSteps(s)
  {
    ReachableOk(s);
    match s.main {
      case Selecting =>
        if s.cancelled.Some? {
          e := SelectDone;
        } else {
          e := SelectErr;
          if !ServerReported(s.server) {
            var i :| 0 <= i < |s.workers| && HasReported(s.workers[i]);
            assert WorkerOk(s, s.workers[i]);
          }
        }
      case Stopping(_) => e := Shutdown(true);
      case Releasing(_) => e := Release;
      case Waiting(_, next) => e := if next < |s.workers| then Timer else WaitEnd;
      case Listing(_, next, _) => e := if next < |s.workers| then ListNext else ListEnd;
      case Draining(_) => e := Drain;
    }
    StepKeepsMain(s, e);
  }

  /**
   Exactly when Run returns nil: nothing went wrong before the final drain, no worker reported, and the
   server goroutine, which nobody waits for, has not sent a failure by then.
   */
  lemma NilExactlyWhenNothingSent(s: State)
    requires Reachable(s) && s.main.Draining?
    ensures Step(s, Drain).main == Finished([]) <==>
              && s.main.err == [] && !ServerReported(s.server)
              && forall i :: 0 <= i < |s.workers| ==> !HasReported(s.workers[i])
  {
    ReachableOk(s);
    if s.errCh != [] { assert Genuine(s, s.errCh[0]); }
    forall i | 0 <= i < |s.workers| ensures WorkerOk(s, s.workers[i]) { }
  }

  // ---------------------------------------------------------------- what Run does let through

  /**
   An exit before shutdown is reported exactly when its error is not a cancellation: a worker that
   returns context.Canceled on its own, with the run context live, stops silently.
   */
  lemma EarlyExitReportedIff(s: State, i: nat)
    requires Reachable(s) && i < |s.workers| && s.workers[i].Done? && s.workers[i].ending.early
    ensures HasReported(s.workers[i]) <==> !s.workers[i].ending.outcome.Canceled?
    ensures !s.workers[i].ending.outcome.Canceled? ==> !(s.main == Finished([]))
  {
    ReachableOk(s);
  }

  /** Consecutive steps make a run. */
  lemma {:induction false} FollowsRun(states: seq<State>, es: seq<Event>)
    requires |states| == |es| + 1
    requires forall k :: 0 <= k < |es| ==> Enabled(states[k], es[k]) && Step(states[k], es[k]) == states[k + 1]
    ensures ValidRun(states[0], es) && RunAll(states[0], es) == states[|es|]
    decreases es
  {
    if es != [] {
      assert Enabled(states[0], es[0]) && Step(states[0], es[0]) == states[1];
      forall k | 0 <= k < |es[1..]|
        ensures Enabled(states[1..][k], es[1..][k]) && Step(states[1..][k], es[1..][k]) == states[1..][k + 1]
      {
        assert Enabled(states[k + 1], es[k + 1]);
      }
      FollowsRun(states[1..], es[1..]);
    }
  }

  const SILENT: seq<Event> :=
    [Return(0, Canceled), Judge(0), Close(0), Outside(true), SelectDone,
     Shutdown(true), Release, WaitNext, WaitEnd, Drain]

  function SilentState(k: nat): State {
    var w := if k == 0 then Running else if k == 1 then Returned(Canceled)
             else if k == 2 then Closing(Ending(Canceled, true)) else Done(Ending(Canceled, true));
    var main := if k < 5 then Selecting else if k == 5 then Stopping([]) else if k == 6 then Releasing([])
                else if k < 9 then Waiting([], k - 7) else if k == 9 then Draining([]) else Finished([]);
    State(2, [w], Absent, if k < 4 then None else Some(true), [], main)
  }

  lemma SilentStep(k: nat)
    requires k < |SILENT|
    ensures Enabled(SilentState(k), SILENT[k])
    ensures Step(SilentState(k), SILENT[k]) == SilentState(k + 1)
  {
  }

  /** The run in which the only worker is gone before shutdown and Run still returns nil. */
  lemma SilentCanceledExit()
    ensures ValidRun(Start(1, false, true), SILENT)
    ensures RunAll(Start(1, false, true), SILENT).main == Finished([])
    ensures RunAll(Start(1, false, true), SILENT).workers == [Done(Ending(Canceled, true))]
  {
    var states := seq(|SILENT| + 1, k requires 0 <= k <= |SILENT| => SilentState(k));
    forall k | 0 <= k < |SILENT| ensures Enabled(states[k], SILENT[k]) && Step(states[k], SILENT[k]) == states[k + 1] {
      SilentStep(k);
    }
    FollowsRun(states, SILENT);
    assert SilentState(0) == Start(1, false, true);
  }

  const LATE_SERVER: seq<Event> :=
    [ServerStop(true), Outside(true), SelectDone, Shutdown(true), Release, WaitEnd, Drain]

  /** Nobody joins the server goroutine: a failure it has not sent by the final drain is lost. */
  lemma ServerFailureCanBeLost()
    ensures ValidRun(Start(0, true, false), LATE_SERVER)
    ensures RunAll(Start(0, true, false), LATE_SERVER).main == Finished([])
    ensures RunAll(Start(0, true, false), LATE_SERVER).server == Broken
  {
    var states := [
      State(1, [], Serving, None, [], Selecting), State(1, [], Broken, None, [], Selecting),
      State(1, [], Broken, Some(true), [], Selecting), State(1, [], Broken, Some(true), [], Stopping([])),
      State(1, [], Broken, Some(true), [], Releasing([])), State(1, [], Broken, Some(true), [], Waiting([], 0)),
      State(1, [], Broken, Some(true), [], Draining([])), State(1, [], Broken, Some(true), [], Finished([]))];
    FollowsRun(states, LATE_SERVER);
    assert states[0] == Start(0, true, false);
  }
}

/**
 What Engine.Run returns, read off the events of the run alone: every error that it should return it does,
 and nil exactly when there is none.
 */
module EngineHistory {
  import opened Common
  import opened EngineRun

  // ---------------------------------------------------------------- what the events say

  /** The cause of the run context: that of the first cancellation. */
  function FirstCause(es: seq<Event>): Option<bool> {
    if es == [] then None
    else
      var before := FirstCause(es[..|es|-1]);
      if before.Some? then before
      else match es[|es|-1]
           case Cancel(_) => Some(true)
           case ServerCancel => Some(true)
           case Release => Some(true)
           case Outside(benign) => Some(benign)
           case _ => None
  }

  /** The first failure that a goroutine reported. */
  function FirstReport(es: seq<Event>): Option<Failure> {
    if es == [] then None
    else
      var before := FirstReport(es[..|es|-1]);
      if before.Some? then before
      else match es[|es|-1]
           case Send(i) => Some(WorkerFailed(i))
           case ServerSend => Some(ServerFailed)
           case _ => None
  }

  function Looks(es: seq<Event>): nat {
    if es == [] then 0 else Looks(es[..|es|-1]) + if es[|es|-1].ListNext? then 1 else 0
  }

  /** The workers found unfinished after the timeout: those whose channel was not closed when looked at. */
  function Unfinished(es: seq<Event>): seq<nat> {
    if es == [] then []
    else
      var before := es[..|es|-1];
      if es[|es|-1].ListNext? && Close(Looks(before)) !in before then Unfinished(before) + [Looks(before)]
      else Unfinished(before)
  }

  /** Up to the final look at the error channel. */
  function BeforeDrain(es: seq<Event>): seq<Event> {
    if es == [] then []
    else if Drain in es[..|es|-1] then BeforeDrain(es[..|es|-1])
    else if es[|es|-1].Drain? then es[..|es|-1] else es
  }

  /** Why Run stops: the first report, or a cancellation that is not context.Canceled. */
  function StopError(es: seq<Event>): seq<Failure> {
    if SelectErr in es then (match FirstReport(es) case Some(f) => [f] case None => [])
    else if FirstCause(es) == Some(false) then [BadCause] else []
  }

  /** A failed shutdown of the server counts when nothing came before it. */
  function ShutdownError(es: seq<Event>): seq<Failure> {
    if StopError(es) == [] && Shutdown(false) in es then [ShutdownFailed] else StopError(es)
  }

  /** Workers left behind are always reported. */
  function JoinError(es: seq<Event>): seq<Failure> {
    ShutdownError(es) + if Unfinished(es) == [] then [] else [TimedOut(Unfinished(es))]
  }

  /** What Run is to return. */
  function Verdict(es: seq<Event>): seq<Failure> {
    if JoinError(es) == [] && FirstReport(es).Some? then [FirstReport(es).value] else JoinError(es)
  }

  // ---------------------------------------------------------------- the state follows the events

  ghost predicate ChannelFollows(es: seq<Event>, s: State) {
    SelectErr !in es && Drain !in es ==>
      (s.errCh == [] <==> FirstReport(es).None?) && (s.errCh != [] ==> FirstReport(es) == Some(s.errCh[0]))
  }

  ghost predicate WorkersFollow(es: seq<Event>, s: State) {
    forall i :: 0 <= i < |s.workers| ==> (s.workers[i].Done? <==> Close(i) in es)
  }

  /** Something stopped the run: a report, or a cancellation. */
  predicate Stopped(es: seq<Event>) {
    if SelectErr in es then FirstReport(es).Some? else FirstCause(es).Some?
  }

  ghost predicate MainFollows(es: seq<Event>, s: State) {
    && (s.main.Selecting? ==> SelectErr !in es && SelectDone !in es)
    && (s.main.Selecting? || s.main.Stopping? ==> forall ok :: Shutdown(ok) !in es)
    && (s.main.Selecting? || s.main.Stopping? || s.main.Releasing? || s.main.Waiting? ==>
          Looks(es) == 0 && Unfinished(es) == [])
    && (s.main.Finished? <==> Drain in es)
    && (SelectErr in es ==> FirstReport(es).Some?)
    && (!s.main.Selecting? ==> Stopped(es))
    && match s.main
       case Selecting => true
       case Stopping(err) => err == StopError(es)
       case Releasing(err) => err == ShutdownError(es)
       case Waiting(err, _) => err == ShutdownError(es)
       case Listing(err, next, names) => err == ShutdownError(es) && next == Looks(es) && names == Unfinished(es)
       case Draining(err) => err == JoinError(es)
       case Finished(err) => err == Verdict(BeforeDrain(es)) && Stopped(BeforeDrain(es))
  }

  ghost predicate Follows(es: seq<Event>, s: State) {
    && s.cancelled == FirstCause(es)
    && ChannelFollows(es, s)
    && WorkersFollow(es, s)
    && MainFollows(es, s)
  }

  lemma Snoc(es: seq<Event>, e: Event)
    ensures (es + [e])[..|es + [e]| - 1] == es && (es + [e])[|es + [e]| - 1] == e
    ensures forall x :: x in es + [e] <==> x in es || x == e
  {
  }

  lemma CauseFollows(es: seq<Event>, s: State, e: Event)
    requires Enabled(s, e) && s.cancelled == FirstCause(es)
    ensures Step(s, e).cancelled == FirstCause(es + [e])
  {
    Snoc(es, e);
  }

  lemma WorkersFollowStep(es: seq<Event>, s: State, e: Event)
    requires Enabled(s, e) && WorkersFollow(es, s)
    ensures WorkersFollow(es + [e], Step(s, e))
  {
    Snoc(es, e);
  }

  lemma ChannelFollowsStep(es: seq<Event>, s: State, e: Event)
    requires Inv(s) && Enabled(s, e) && ChannelFollows(es, s)
    ensures ChannelFollows(es + [e], Step(s, e))
  {
    Snoc(es, e);
    if e.Send? || e.ServerSend? { SendHasRoom(s, e); }
  }

  /** What the events say is settled once the main goroutine is past the step that reads it. */
  lemma StopErrorLasts(es: seq<Event>, e: Event)
    requires !e.SelectErr? && Stopped(es)
    ensures StopError(es + [e]) == StopError(es)
    ensures SelectErr in es + [e] <==> SelectErr in es
    ensures !e.Shutdown? ==> ShutdownError(es + [e]) == ShutdownError(es)
    ensures !e.Shutdown? && !e.ListNext? ==> JoinError(es + [e]) == JoinError(es)
  {
    Snoc(es, e);
  }

  lemma LooksLast(es: seq<Event>, e: Event)
    requires !e.ListNext?
    ensures Looks(es + [e]) == Looks(es) && Unfinished(es + [e]) == Unfinished(es)
  {
    Snoc(es, e);
  }

  lemma DrainLasts(es: seq<Event>, e: Event)
    ensures Drain in es ==> BeforeDrain(es + [e]) == BeforeDrain(es)
    ensures Drain !in es && e.Drain? ==> BeforeDrain(es + [e]) == es
  {
    Snoc(es, e);
  }

  lemma ReportLasts(es: seq<Event>, e: Event)
    ensures FirstReport(es).Some? ==> FirstReport(es + [e]) == FirstReport(es)
    ensures FirstCause(es).Some? ==> FirstCause(es + [e]) == FirstCause(es)
  {
    Snoc(es, e);
  }

  /** A step of the main goroutine. */
  predicate OfMain(e: Event) {
    || e.SelectDone? || e.SelectErr? || e.Shutdown? || e.Release? || e.WaitNext? || e.WaitEnd? || e.Timer?
    || e.ListNext? || e.ListEnd? || e.Drain?
  }

  lemma OthersFollow(es: seq<Event>, s: State, e: Event)
    requires Enabled(s, e) && Follows(es, s) && !OfMain(e)
    ensures MainFollows(es + [e], Step(s, e))
  {
    Snoc(es, e);
    ReportLasts(es, e);
    LooksLast(es, e);
    DrainLasts(es, e);
    if !s.main.Selecting? { StopErrorLasts(es, e); }
  }

  lemma SelectFollows(es: seq<Event>, s: State, e: Event)
    requires Enabled(s, e) && Follows(es, s) && (e.SelectDone? || e.SelectErr?)
    ensures MainFollows(es + [e], Step(s, e))
  {
    Snoc(es, e);
    ReportLasts(es, e);
    LooksLast(es, e);
  }

  lemma ShutdownFollows(es: seq<Event>, s: State, e: Event)
    requires Enabled(s, e) && Follows(es, s) && e.Shutdown?
    ensures MainFollows(es + [e], Step(s, e))
  {
    Snoc(es, e);
    ReportLasts(es, e);
    LooksLast(es, e);
    StopErrorLasts(es, e);
    assert Shutdown(false) !in es;
  }

  lemma WaitFollows(es: seq<Event>, s: State, e: Event)
    requires Inv(s) && Enabled(s, e) && Follows(es, s) && (e.Release? || e.WaitNext? || e.WaitEnd? || e.Timer?)
    ensures MainFollows(es + [e], Step(s, e))
  {
    Snoc(es, e);
    ReportLasts(es, e);
    LooksLast(es, e);
    StopErrorLasts(es, e);
    assert ShutdownError(es) + [] == ShutdownError(es);
  }

  lemma ListFollows(es: seq<Event>, s: State, e: Event)
    requires Inv(s) && Enabled(s, e) && Follows(es, s) && (e.ListNext? || e.ListEnd?)
    ensures MainFollows(es + [e], Step(s, e))
  {
    Snoc(es, e);
    ReportLasts(es, e);
    StopErrorLasts(es, e);
    if e.ListEnd? { LooksLast(es, e); assert ShutdownError(es) + [] == ShutdownError(es); }
  }

  lemma DrainFollows(es: seq<Event>, s: State)
    requires Enabled(s, Drain) && Follows(es, s)
    ensures MainFollows(es + [Drain], Step(s, Drain))
  {
    Snoc(es, Drain);
    ReportLasts(es, Drain);
    DrainLasts(es, Drain);
  }

  lemma FollowsStep(es: seq<Event>, s: State, e: Event)
    requires Inv(s) && Enabled(s, e) && Follows(es, s)
    ensures Follows(es + [e], Step(s, e))
  {
    CauseFollows(es, s, e);
    WorkersFollowStep(es, s, e);
    ChannelFollowsStep(es, s, e);
    if !OfMain(e) {
      OthersFollow(es, s, e);
    } else if e.SelectDone? || e.SelectErr? {
      SelectFollows(es, s, e);
    } else if e.Shutdown? {
      ShutdownFollows(es, s, e);
    } else if e.ListNext? || e.ListEnd? {
      ListFollows(es, s, e);
    } else if e.Drain? {
      DrainFollows(es, s);
    } else {
      WaitFollows(es, s, e);
    }
  }

  /** The main goroutine does nothing after its last look at the channel. */
  ghost predicate MainBefore(es: seq<Event>) {
    Drain in es ==> forall e :: e in es && OfMain(e) ==> e in BeforeDrain(es) || e.Drain?
  }

  lemma MainBeforeStep(es: seq<Event>, s: State, e: Event)
    requires Enabled(s, e) && MainFollows(es, s) && MainBefore(es)
    ensures MainBefore(es + [e])
  {
    Snoc(es, e);
    DrainLasts(es, e);
  }

  /** s is where the history h has led. */
  ghost predicate Traces(h: seq<Event>, s: State) {
    Inv(s) && Follows(h, s) && MainBefore(h)
  }

  lemma TraceStep(h: seq<Event>, s: State, e: Event)
    requires Traces(h, s) && Enabled(s, e)
    ensures Traces(h + [e], Step(s, e))
  {
    FollowsStep(h, s, e);
    MainBeforeStep(h, s, e);
    StepKeepsInv(s, e);
  }

  lemma Same(h: seq<Event>, g: seq<Event>, s: State)
    requires Traces(h, s) && h == g
    ensures Traces(g, s)
  {
  }

  lemma {:induction false} RunTraces(h: seq<Event>, s: State, es: seq<Event>)
    requires Traces(h, s) && ValidRun(s, es)
    ensures Traces(h + es, RunAll(s, es))
    decreases es
  {
    if es == [] {
      Same(h, h + es, s);
    } else {
      TraceStep(h, s, es[0]);
      RunTraces(h + [es[0]], Step(s, es[0]), es[1..]);
      Same(h + [es[0]] + es[1..], h + es, RunAll(s, es));
    }
  }

  lemma StartFollows(registered: nat, http: bool, background: bool)
    ensures Traces([], Start(registered, http, background))
  {
  }

  // ---------------------------------------------------------------- what Run returns

  /** The engine was started so, took the steps es, and returned err. */
  ghost predicate Returns(registered: nat, http: bool, background: bool, es: seq<Event>, err: seq<Failure>) {
    && ValidRun(Start(registered, http, background), es)
    && RunAll(Start(registered, http, background), es).main == Finished(err)
  }

  /** Run returns exactly what its history up to the last look at the channel says. */
  lemma ReturnsVerdict(registered: nat, http: bool, background: bool, es: seq<Event>, err: seq<Failure>)
    requires Returns(registered, http, background, es, err)
    ensures err == Verdict(BeforeDrain(es)) && Stopped(BeforeDrain(es))
    ensures forall e :: e in es && OfMain(e) ==> e in BeforeDrain(es) || e.Drain?
  {
    StartFollows(registered, http, background);
    RunTraces([], Start(registered, http, background), es);
    assert [] + es == es;
  }

  /**
   A failed shutdown of the server never goes unnoticed: Run then returns an error, and the shutdown's own
   one exactly when neither a report nor a bad cause had stopped the run.
   */
  lemma ShutdownFailureReturned(registered: nat, http: bool, background: bool, es: seq<Event>, err: seq<Failure>)
    requires Returns(registered, http, background, es, err)
    ensures Shutdown(false) in es ==> err != []
    ensures ShutdownFailed in err <==> Shutdown(false) in es && StopError(BeforeDrain(es)) == []
  {
    ReturnsVerdict(registered, http, background, es, err);
    BeforeDrainIsPrefix(es);
    NotAReport(BeforeDrain(es));
  }

  lemma {:induction false} BeforeDrainIsPrefix(es: seq<Event>)
    ensures BeforeDrain(es) <= es
    decreases |es|
  {
    if es != [] { BeforeDrainIsPrefix(es[..|es|-1]); }
  }

  lemma {:induction false} NotAReport(es: seq<Event>)
    ensures FirstReport(es).Some? ==> FirstReport(es).value.WorkerFailed? || FirstReport(es).value.ServerFailed?
    decreases |es|
  {
    if es != [] { NotAReport(es[..|es|-1]); }
  }

  /** A cancellation whose cause is no cancellation is returned whenever it is what Run stopped for. */
  lemma BadCauseReturned(registered: nat, http: bool, background: bool, es: seq<Event>, err: seq<Failure>)
    requires Returns(registered, http, background, es, err)
    ensures BadCause in err <==> SelectErr !in es && FirstCause(BeforeDrain(es)) == Some(false)
  {
    ReturnsVerdict(registered, http, background, es, err);
    BeforeDrainIsPrefix(es);
    NotAReport(BeforeDrain(es));
  }

  lemma NilVerdict(h: seq<Event>)
    requires Stopped(h)
    ensures Verdict(h) == [] <==>
              FirstCause(h) == Some(true) && Shutdown(false) !in h && Unfinished(h) == [] && FirstReport(h).None?
  {
    if FirstReport(h).None? { assert SelectErr !in h; }
  }

  /**
   Run returns nil exactly when it stopped for a benign cancellation, the server shut down in time, no worker
   was found unfinished after the timeout, and nothing had been reported by the last look at the channel.
   */
  lemma NilExactlyWhen(registered: nat, http: bool, background: bool, es: seq<Event>, err: seq<Failure>)
    requires Returns(registered, http, background, es, err)
    ensures err == [] <==>
              && FirstCause(BeforeDrain(es)) == Some(true)
              && Shutdown(false) !in es
              && Unfinished(BeforeDrain(es)) == []
              && FirstReport(BeforeDrain(es)).None?
  {
    ReturnsVerdict(registered, http, background, es, err);
    BeforeDrainIsPrefix(es);
    NilVerdict(BeforeDrain(es));
  }
}

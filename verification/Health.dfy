/**
 The health registry: checks that are added, removed and re-added while readiness probes run them
 concurrently. Every critical section of the registry, and every channel operation of a probe, is
 one step of the machine below.
 */
module Health {
  import opened Common

  type Name = string

  datatype Criticality = Critical | Informational

  datatype Entry = Entry(criticality: Criticality, generation: nat)

  /** The outcome of a check, with the criticality shown in the response. */
  datatype CheckResult = CheckResult(ok: bool, criticality: Criticality)

  /** A check goroutine of a probe: about to start, waiting for its check, its result sent, received. */
  datatype Task = NotStarted | Checking | Sent(result: CheckResult) | Received(result: CheckResult)

  datatype Probe = Probe(snapshot: map<Name, Entry>, tasks: map<Name, Task>, ready: bool)

  /** The probe and name a check body was started for. */
  datatype Body = Body(probe: nat, name: Name)

  /** `results` holds the one-place result channels; `recorded` the generation of each last result. */
  datatype State = State(checks: map<Name, Entry>, running: set<Name>, lastResults: map<Name, CheckResult>,
                         nextGeneration: nat, probes: map<nat, Probe>, bodies: set<Body>, results: map<Body, bool>,
                         recorded: map<Name, nat>)

  datatype Event =
    | Add(name: Name, criticality: Criticality)
    | Remove(name: Name)
    | Begin(probe: nat)
    | Launch(probe: nat, name: Name)
    | Finish(probe: nat, name: Name, ok: bool)
    | CleanUp(probe: nat, name: Name)
    | Decide(probe: nat, name: Name, timeout: bool)
    | Receive(probe: nat, name: Name)

  const INITIAL := State(map[], {}, map[], 0, map[], {}, map[], map[])

  // ---------------------------------------------------------------- steps

  function TaskOf(s: State, p: nat, n: Name): Option<Task> {
    if p in s.probes && n in s.probes[p].tasks then Some(s.probes[p].tasks[n]) else None
  }

  predicate Enabled(s: State, e: Event) {
    match e
    case Add(_, _) => true
    case Remove(_) => true
    case Begin(p) => p !in s.probes
    case Launch(p, n) => TaskOf(s, p, n) == Some(NotStarted)
    case Finish(p, n, _) => Body(p, n) in s.bodies && Body(p, n) !in s.results
    case CleanUp(p, n) => Body(p, n) in s.bodies && Body(p, n) in s.results
    case Decide(p, n, timeout) => TaskOf(s, p, n) == Some(Checking) && (timeout || Body(p, n) in s.results)
    case Receive(p, n) => TaskOf(s, p, n).Some? && TaskOf(s, p, n).value.Sent?
  }

  function SetTask(s: State, p: nat, n: Name, t: Task): State
    requires p in s.probes
  {
    s.(probes := s.probes[p := s.probes[p].(tasks := s.probes[p].tasks[n := t])])
  }

  function CriticalityIn(p: Probe, n: Name): Criticality {
    if n in p.snapshot then p.snapshot[n].criticality else Critical
  }

  /** recordResult: only for the generation that is registered now. */
  function Record(s: State, n: Name, generation: nat, r: CheckResult): State {
    if n in s.checks && s.checks[n].generation == generation
    then s.(lastResults := s.lastResults[n := r], recorded := s.recorded[n := generation]) else s
  }

  /** Whether a result makes the probe answer 503. */
  predicate Fails(e: Entry, r: CheckResult) {
    !r.ok && e.criticality.Critical?
  }

  function Step(s: State, e: Event): State
    requires Enabled(s, e)
  {
    match e
    case Add(n, c) =>
      if n == "" then s
      else s.(nextGeneration := s.nextGeneration + 1, checks := s.checks[n := Entry(c, s.nextGeneration + 1)],
              lastResults := s.lastResults - {n}, recorded := s.recorded - {n})
    case Remove(n) => s.(checks := s.checks - {n}, lastResults := s.lastResults - {n}, recorded := s.recorded - {n})
    case Begin(p) => s.(probes := s.probes[p := Probe(s.checks, map n | n in s.checks :: NotStarted, true)])
    case Launch(p, n) =>
      if n in s.running then
        SetTask(s, p, n, Sent(CheckResult(false, CriticalityIn(s.probes[p], n))))
      else SetTask(s, p, n, Checking).(running := s.running + {n}, bodies := s.bodies + {Body(p, n)})
    case Finish(p, n, ok) => s.(results := s.results[Body(p, n) := ok])
    case CleanUp(p, n) => s.(running := s.running - {n}, bodies := s.bodies - {Body(p, n)})
    case Decide(p, n, timeout) =>
      var ok := !timeout && s.results[Body(p, n)];
      SetTask(s, p, n, Sent(CheckResult(ok, CriticalityIn(s.probes[p], n))))
    case Receive(p, n) =>
      var probe, r := s.probes[p], s.probes[p].tasks[n].result;
      if n !in probe.snapshot then s
      else
        var s1 := Record(s, n, probe.snapshot[n].generation, r);
        var ready := probe.ready && !Fails(probe.snapshot[n], r);
        s1.(probes := s1.probes[p := probe.(tasks := probe.tasks[n := Received(r)], ready := ready)])
  }

  predicate ValidRun(s: State, es: seq<Event>)
    decreases es
  {
    es == [] || (Enabled(s, es[0]) && ValidRun(Step(s, es[0]), es[1..]))
  }

  function RunAll(s: State, es: seq<Event>): State
    requires ValidRun(s, es)
    decreases es
  {
    if es == [] then s else RunAll(Step(s, es[0]), es[1..])
  }

  // ---------------------------------------------------------------- invariants

  /** Last results belong to registered checks, to their current generation and criticality. */
  ghost predicate ResultsCurrent(s: State) {
    && s.recorded.Keys == s.lastResults.Keys
    && forall n :: n in s.lastResults ==>
         n in s.checks && s.recorded[n] == s.checks[n].generation
           && s.lastResults[n].criticality == s.checks[n].criticality
  }

  /** An entry seen now or in a snapshot: no later registration reuses its generation number. */
  ghost predicate EntryOk(s: State, n: Name, e: Entry) {
    && e.generation <= s.nextGeneration
    && (n in s.checks && s.checks[n].generation == e.generation ==> s.checks[n] == e)
  }

  ghost predicate GenerationsUnique(s: State) {
    && (forall n :: n in s.checks ==> EntryOk(s, n, s.checks[n]))
    && forall p, n :: p in s.probes && n in s.probes[p].snapshot ==> EntryOk(s, n, s.probes[p].snapshot[n])
  }

  /** A name is marked running exactly while one body of that name is under way. */
  ghost predicate SingleFlight(running: set<Name>, bodies: set<Body>) {
    && (forall b :: b in bodies ==> b.name in running)
    && (forall n :: n in running ==> exists b :: b in bodies && b.name == n)
    && (forall a, b :: a in bodies && b in bodies && a.name == b.name ==> a == b)
  }

  /** Every task belongs to the snapshot, and results carry the snapshot's criticality. */
  ghost predicate ProbeOk(p: Probe) {
    && p.tasks.Keys == p.snapshot.Keys
    && (forall n :: n in p.tasks && (p.tasks[n].Sent? || p.tasks[n].Received?) ==>
          p.tasks[n].result.criticality == p.snapshot[n].criticality)
    && (p.ready <==> forall n :: n in p.tasks && p.tasks[n].Received? ==> !Fails(p.snapshot[n], p.tasks[n].result))
  }

  ghost predicate Inv(s: State) {
    && ResultsCurrent(s)
    && GenerationsUnique(s)
    && SingleFlight(s.running, s.bodies)
    && forall p :: p in s.probes ==> ProbeOk(s.probes[p])
  }

  lemma StepKeepsResults(s: State, e: Event)
    requires Inv(s) && Enabled(s, e)
    ensures ResultsCurrent(Step(s, e))
  {
    if e.Receive? { assert ProbeOk(s.probes[e.probe]); }
  }

  lemma StepKeepsGenerations(s: State, e: Event)
    requires GenerationsUnique(s) && Enabled(s, e)
    ensures GenerationsUnique(Step(s, e))
  {
  }

  lemma ReceiveKeepsProbe(s: State, e: Event)
    requires e.Receive? && Enabled(s, e) && ProbeOk(s.probes[e.probe])
    ensures ProbeOk(Step(s, e).probes[e.probe])
  {
  }

  /** A task that is not yet received may move on to any other state short of that. */
  lemma TaskMoves(p: Probe, n: Name, t: Task)
    requires ProbeOk(p) && n in p.tasks && !p.tasks[n].Received? && !t.Received?
    requires t.Sent? ==> t.result.criticality == p.snapshot[n].criticality
    ensures ProbeOk(p.(tasks := p.tasks[n := t]))
  {
  }

  lemma SendKeepsProbe(s: State, e: Event)
    requires (e.Launch? || e.Decide?) && Enabled(s, e) && ProbeOk(s.probes[e.probe])
    ensures ProbeOk(Step(s, e).probes[e.probe])
  {
    var p, p' := s.probes[e.probe], Step(s, e).probes[e.probe];
    TaskMoves(p, e.name, p'.tasks[e.name]);
    assert p' == p.(tasks := p.tasks[e.name := p'.tasks[e.name]]);
  }

  lemma StepKeepsProbes(s: State, e: Event, p: nat)
    requires Enabled(s, e) && p in Step(s, e).probes && (p in s.probes ==> ProbeOk(s.probes[p]))
    ensures ProbeOk(Step(s, e).probes[p])
  {
    if e.Receive? && e.probe == p {
      ReceiveKeepsProbe(s, e);
    } else if (e.Launch? || e.Decide?) && e.probe == p {
      SendKeepsProbe(s, e);
    } else if p in s.probes {
      assert Step(s, e).probes[p] == s.probes[p];
    }
  }

  lemma StepKeepsInv(s: State, e: Event)
    requires Inv(s) && Enabled(s, e)
    ensures Inv(Step(s, e))
  {
    StepKeepsResults(s, e);
    StepKeepsGenerations(s, e);
    forall p | p in Step(s, e).probes ensures ProbeOk(Step(s, e).probes[p]) {
      StepKeepsProbes(s, e, p);
    }
  }

  lemma {:induction false} RunKeepsInv(s: State, es: seq<Event>)
    requires Inv(s) && ValidRun(s, es)
    ensures Inv(RunAll(s, es))
    decreases es
  {
    if es != [] {
      StepKeepsInv(s, es[0]);
      RunKeepsInv(Step(s, es[0]), es[1..]);
    }
  }

  // ---------------------------------------------------------------- what probes can rely on

  /** At any time at most one check body per name is under way, even across re-registration. */
  lemma AtMostOneBody(es: seq<Event>, a: Body, b: Body)
    requires ValidRun(INITIAL, es) && a in RunAll(INITIAL, es).bodies && b in RunAll(INITIAL, es).bodies
               && a.name == b.name
    ensures a == b
  {
    RunKeepsInv(INITIAL, es);
  }

  /** Snapshot() shows registered checks only, each with a result of its current registration. */
  lemma SnapshotIsCurrent(es: seq<Event>, n: Name)
    requires ValidRun(INITIAL, es) && n in RunAll(INITIAL, es).lastResults
    ensures var s := RunAll(INITIAL, es);
            && n in s.checks
            && n in s.recorded
            && s.recorded[n] == s.checks[n].generation
            && s.lastResults[n].criticality == s.checks[n].criticality
  {
    RunKeepsInv(INITIAL, es);
  }

  ghost predicate Answered(p: Probe) {
    forall n :: n in p.tasks ==> p.tasks[n].Received?
  }

  /** A finished probe has one result per check of its snapshot, and answers 503 iff a critical one failed. */
  lemma AnswerIsExact(es: seq<Event>, p: nat)
    requires ValidRun(INITIAL, es) && p in RunAll(INITIAL, es).probes && Answered(RunAll(INITIAL, es).probes[p])
    ensures var probe := RunAll(INITIAL, es).probes[p];
            && probe.tasks.Keys == probe.snapshot.Keys
            && (!probe.ready <==>
                exists n :: n in probe.snapshot && !probe.tasks[n].result.ok && probe.snapshot[n].criticality.Critical?)
  {
    RunKeepsInv(INITIAL, es);
    assert ProbeOk(RunAll(INITIAL, es).probes[p]);
  }

  function Receipts(es: seq<Event>, p: nat, n: Name): nat {
    if es == [] then 0 else (if es[0] == Receive(p, n) then 1 else 0) + Receipts(es[1..], p, n)
  }

  predicate HasReceived(s: State, p: nat, n: Name) {
    && TaskOf(s, p, n).Some?
    && TaskOf(s, p, n).value.Received?
  }

  /** The one task an event may move. */
  predicate Concerns(e: Event, p: nat, n: Name) {
    && (e.Launch? || e.Decide? || e.Receive?)
    && e.probe == p
    && e.name == n
  }

  lemma OtherTasksStay(s: State, e: Event, p: nat, n: Name)
    requires Enabled(s, e) && !Concerns(e, p, n) && !(e.Begin? && e.probe == p)
    ensures TaskOf(Step(s, e), p, n) == TaskOf(s, p, n)
  {
  }

  lemma ReceiptStep(s: State, e: Event, p: nat, n: Name)
    requires Enabled(s, e) && (p in s.probes ==> ProbeOk(s.probes[p]))
    ensures HasReceived(Step(s, e), p, n) <==> HasReceived(s, p, n) || e == Receive(p, n)
    ensures e == Receive(p, n) ==> !HasReceived(s, p, n)
  {
    if e.Begin? && e.probe == p {
      assert !HasReceived(Step(s, e), p, n);
    } else if !Concerns(e, p, n) {
      OtherTasksStay(s, e, p, n);
    }
  }

  /** Over any run, a probe receives the result of a check at most once, and exactly once by the time it answers. */
  lemma {:induction false} OneResultPerCheck(s: State, es: seq<Event>, p: nat, n: Name)
    requires Inv(s) && ValidRun(s, es)
    ensures Receipts(es, p, n) + (if HasReceived(s, p, n) then 1 else 0)
            == if HasReceived(RunAll(s, es), p, n) then 1 else 0
    decreases es
  {
    if es != [] {
      ReceiptStep(s, es[0], p, n);
      StepKeepsInv(s, es[0]);
      OneResultPerCheck(Step(s, es[0]), es[1..], p, n);
    }
  }

  /** How far a task is from being received. */
  function Rank(t: Task): nat {
    match t case NotStarted => 3 case Checking => 2 case Sent(_) => 1 case Received(_) => 0
  }

  /** No probe ever gets stuck: an unanswered task always has a step of its own, even if its check never returns. */
  lemma NeverStuck(s: State, p: nat, n: Name) returns (e: Event)
    requires p in s.probes && ProbeOk(s.probes[p]) && n in s.probes[p].tasks && !s.probes[p].tasks[n].Received?
    ensures Enabled(s, e)
    ensures (e == Launch(p, n) || e == Decide(p, n, true) || e == Receive(p, n))
    ensures TaskOf(Step(s, e), p, n).Some?
    ensures Rank(TaskOf(Step(s, e), p, n).value) < Rank(s.probes[p].tasks[n])
  {
    match s.probes[p].tasks[n]
    case NotStarted => e := Launch(p, n);
    case Checking => e := Decide(p, n, true);
    case Sent(_) => e := Receive(p, n);
  }

  /**
   The loop that reads the result channel: the arrivals come in any order, one per name of the
   snapshot, as OneResultPerCheck shows they do.
   */
  method Collect(snapshot: map<Name, Entry>, arrivals: seq<(Name, CheckResult)>)
    returns (checks: map<Name, CheckResult>, ready: bool)
    requires forall i :: 0 <= i < |arrivals| ==> arrivals[i].0 in snapshot
    requires forall n :: n in snapshot ==> exists i :: 0 <= i < |arrivals| && arrivals[i].0 == n
    requires forall i, j :: 0 <= i < j < |arrivals| ==> arrivals[i].0 != arrivals[j].0
    ensures checks.Keys == snapshot.Keys
    ensures forall i :: 0 <= i < |arrivals| ==> arrivals[i].0 in checks && checks[arrivals[i].0] == arrivals[i].1
    ensures !ready <==> exists n :: n in snapshot && n in checks && !checks[n].ok && snapshot[n].criticality == Critical
  {
    checks, ready := map[], true;
    for k := 0 to |arrivals|
      invariant forall n :: n in checks ==> exists i :: 0 <= i < k && arrivals[i].0 == n
      invariant forall i :: 0 <= i < k ==> arrivals[i].0 in checks && checks[arrivals[i].0] == arrivals[i].1
      invariant !ready <==>
                exists n :: n in snapshot && n in checks && !checks[n].ok && snapshot[n].criticality == Critical
    {
      var (n, r) := arrivals[k];
      ghost var before, wasReady := checks, ready;
      assert n !in checks;
      checks := checks[n := r];
      assert forall m :: m in before ==> m in checks && checks[m] == before[m];
      if !r.ok && snapshot[n].criticality == Critical {
        ready := false;
        assert n in snapshot && n in checks && !checks[n].ok;
      } else if !wasReady {
        var m :| m in snapshot && m in before && !before[m].ok && snapshot[m].criticality == Critical;
        assert m in checks && !checks[m].ok;
      }
    }
  }

  // ---------------------------------------------------------------- the registry object

  /** The fields behind the mutex, and the methods that change them. */
  class Registry {
    var checks: map<Name, Entry>
    var running: set<Name>
    var lastResults: map<Name, CheckResult>
    var nextGeneration: nat
    ghost var world: State

    /** The object holds the registry part of a reachable state of the machine. */
    ghost predicate Valid()
      reads this
    {
      && Inv(world)
      && checks == world.checks
      && running == world.running
      && lastResults == world.lastResults
      && nextGeneration == world.nextGeneration
    }

    constructor ()
      ensures Valid() && world == INITIAL
    {
      checks, running, lastResults, nextGeneration, world := map[], {}, map[], 0, INITIAL;
    }

    method AddWithCriticality(name: Name, isNil: bool, c: Criticality)
      requires Valid()
      modifies this
      ensures Valid() && world == if isNil then old(world) else Step(old(world), Add(name, c))
      ensures !isNil && name != "" ==> name in checks && name !in lastResults && checks[name].criticality == c
    {
      if name == "" || isNil { return; }
      StepKeepsInv(world, Add(name, c));
      nextGeneration := nextGeneration + 1;
      checks := checks[name := Entry(c, nextGeneration)];
      lastResults := lastResults - {name};
      world := Step(world, Add(name, c));
    }

    method RemoveCheck(name: Name)
      requires Valid()
      modifies this
      ensures Valid() && world == Step(old(world), Remove(name))
      ensures name !in checks && name !in lastResults
    {
      StepKeepsInv(world, Remove(name));
      checks := checks - {name};
      lastResults := lastResults - {name};
      world := Step(world, Remove(name));
    }

    /** The critical section that starts a check, or refuses it while another is running. */
    method TryStart(probe: nat, name: Name) returns (started: bool)
      requires Valid() && Enabled(world, Launch(probe, name))
      modifies this
      ensures Valid() && world == Step(old(world), Launch(probe, name))
      ensures started <==> name !in old(running)
      ensures started ==>
                && Body(probe, name) in world.bodies
                && forall b :: b in world.bodies && b.name == name ==> b == Body(probe, name)
    {
      StepKeepsInv(world, Launch(probe, name));
      started := name !in running;
      if started { running := running + {name}; }
      world := Step(world, Launch(probe, name));
    }

    /** recordResult, as part of receiving a result. */
    method RecordResult(probe: nat, name: Name, generation: nat, r: CheckResult)
      requires Valid() && Enabled(world, Receive(probe, name))
      requires r == world.probes[probe].tasks[name].result
      requires name in world.probes[probe].snapshot && generation == world.probes[probe].snapshot[name].generation
      modifies this
      ensures Valid() && world == Step(old(world), Receive(probe, name))
      ensures lastResults != old(lastResults) ==> name in checks && checks[name].generation == generation
    {
      StepKeepsInv(world, Receive(probe, name));
      world := Step(world, Receive(probe, name));
      if name !in checks || checks[name].generation != generation { return; }
      lastResults := lastResults[name := r];
    }
  }
}

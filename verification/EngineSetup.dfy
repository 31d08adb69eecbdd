/** Engine composition before Run: registration of modules and workers, and the loop that waits for workers. */
module EngineSetup {
  import opened Common

  type Name = string

  /**
   A module is what its Register call does with the engine: register further modules, add workers, or
   overlap with the start of Run in another goroutine. It may pass an error of such a call on.
   */
  datatype Module = NilModule | Module(name: Name, actions: seq<Action>, fails: bool)

  datatype Action =
    | RegisterModules(modules: seq<Module>, passOn: bool)
    | AddWorkers(workers: seq<Option<Name>>, passOn: bool)
    | RunStarts

  datatype Setup = Setup(modules: seq<Name>, registered: set<Name>, workers: seq<Name>, workerNames: set<Name>,
                         started: bool)

  // ---------------------------------------------------------------- specification

  /** The state after adding workers up to the first bad one, and whether all were good. */
  function Added(s: Setup, ws: seq<Option<Name>>): (Setup, bool)
    decreases |ws|
  {
    if ws == [] then (s, true)
    else if ws[0].None? || ws[0].value == "" || ws[0].value in s.workerNames then (s, false)
    else Added(s.(workerNames := s.workerNames + {ws[0].value}, workers := s.workers + [ws[0].value]), ws[1..])
  }

  function WorkersAdded(s: Setup, ws: seq<Option<Name>>): (Setup, bool) {
    if s.started then (s, false) else Added(s, ws)
  }

  function Registered(s: Setup, ms: seq<Module>): (Setup, bool)
    decreases ms
  {
    if ms == [] then (s, true)
    else
      var m := ms[0];
      if m.NilModule? || m.name == "" || s.started || m.name in s.registered then (s, false)
      else
        var (s', ok) := Performed(s.(registered := s.registered + {m.name}), m.actions, m.fails);
        if !ok then (s'.(registered := s'.registered - {m.name}), false)
        else Registered(s'.(modules := s'.modules + [m.name]), ms[1..])
  }

  /** What a module's own Register does: its actions in order, stopping at an error it passes on. */
  function Performed(s: Setup, actions: seq<Action>, fails: bool): (Setup, bool)
    decreases actions
  {
    if actions == [] then (s, !fails)
    else
      match actions[0]
      case RegisterModules(ms, passOn) =>
        var (s', ok) := Registered(s, ms);
        if !ok && passOn then (s', false) else Performed(s', actions[1..], fails)
      case AddWorkers(ws, passOn) =>
        var (s', ok) := WorkersAdded(s, ws);
        if !ok && passOn then (s', false) else Performed(s', actions[1..], fails)
      case RunStarts => Performed(s.(started := true), actions[1..], fails)
  }

  // ---------------------------------------------------------------- what registration guarantees

  ghost predicate Distinct(names: seq<Name>) {
    forall i, j :: 0 <= i < j < |names| ==> names[i] != names[j]
  }

  ghost function Names(names: seq<Name>): set<Name> {
    set n | n in names
  }

  /** Names reserved by Register calls still in progress. */
  ghost function Reserved(s: Setup): set<Name> {
    s.registered - Names(s.modules)
  }

  ghost predicate Valid(s: Setup) {
    && Distinct(s.modules) && Names(s.modules) <= s.registered
    && Distinct(s.workers) && Names(s.workers) == s.workerNames
    && "" !in s.registered && "" !in s.workerNames
  }

  /** From `s` to `t`, lists only grew, reservations balance, and nothing was added once Run had started. */
  ghost predicate Extends(s: Setup, t: Setup) {
    && Valid(t)
    && s.modules <= t.modules
    && s.workers <= t.workers
    && Reserved(t) == Reserved(s)
    && (s.started ==> t.started && t.workers == s.workers)
  }

  lemma {:induction false} AddedExtends(s: Setup, ws: seq<Option<Name>>)
    requires Valid(s) && !s.started
    ensures Extends(s, Added(s, ws).0)
    ensures !Added(s, ws).0.started
    ensures Added(s, ws).0.modules == s.modules
    decreases |ws|
  {
    if ws != [] && ws[0].Some? && ws[0].value != "" && ws[0].value !in s.workerNames {
      var t := s.(workerNames := s.workerNames + {ws[0].value}, workers := s.workers + [ws[0].value]);
      assert Names(t.workers) == t.workerNames;
      AddedExtends(t, ws[1..]);
    }
  }

  lemma AppendModule(s: Setup, name: Name)
    requires Valid(s) && name in Reserved(s)
    ensures Valid(s.(modules := s.modules + [name]))
    ensures Reserved(s.(modules := s.modules + [name])) == Reserved(s) - {name}
  {
  }

  /**
   However modules register each other, fail, or race with Run: module and worker names stay distinct,
   every reservation is released exactly once, and the worker list is frozen from the moment Run starts.
   */
  lemma {:induction false} RegisteredExtends(s: Setup, ms: seq<Module>)
    requires Valid(s)
    ensures Extends(s, Registered(s, ms).0)
    decreases ms
  {
    if ms != [] && !ms[0].NilModule? && ms[0].name != "" && !s.started && ms[0].name !in s.registered {
      var m := ms[0];
      var reserved := s.(registered := s.registered + {m.name});
      assert Reserved(reserved) == Reserved(s) + {m.name};
      PerformedExtends(reserved, m.actions, m.fails);
      var (s', ok) := Performed(reserved, m.actions, m.fails);
      if ok {
        AppendModule(s', m.name);
        RegisteredExtends(s'.(modules := s'.modules + [m.name]), ms[1..]);
      }
    }
  }

  lemma {:induction false} PerformedExtends(s: Setup, actions: seq<Action>, fails: bool)
    requires Valid(s)
    ensures Extends(s, Performed(s, actions, fails).0)
    decreases actions
  {
    if actions != [] {
      match actions[0]
      case RegisterModules(ms, _) =>
        RegisteredExtends(s, ms);
        PerformedExtends(Registered(s, ms).0, actions[1..], fails);
      case AddWorkers(ws, _) =>
        if !s.started { AddedExtends(s, ws); }
        PerformedExtends(WorkersAdded(s, ws).0, actions[1..], fails);
      case RunStarts =>
        PerformedExtends(s.(started := true), actions[1..], fails);
    }
  }

  /** A module list registered without error is listed in full, each module once. */
  lemma {:induction false} SuccessListsAll(s: Setup, ms: seq<Module>)
    requires Valid(s) && Registered(s, ms).1
    ensures forall k :: 0 <= k < |ms| ==>
              ms[k].Module? && ms[k].name in Registered(s, ms).0.modules && ms[k].name !in s.registered
    ensures forall j, k :: 0 <= j < k < |ms| ==> ms[j].Module? && ms[k].Module? && ms[j].name != ms[k].name
    decreases |ms|
  {
    if ms != [] {
      var m := ms[0];
      var reserved := s.(registered := s.registered + {m.name});
      assert Reserved(reserved) == Reserved(s) + {m.name};
      PerformedExtends(reserved, m.actions, m.fails);
      var s' := Performed(reserved, m.actions, m.fails).0;
      AppendModule(s', m.name);
      var t := s'.(modules := s'.modules + [m.name]);
      RegisteredExtends(t, ms[1..]);
      SuccessListsAll(t, ms[1..]);
      RegisteredKeepsOld(s, reserved, s', t);
      assert forall k :: 1 <= k < |ms| ==> ms[k] == ms[1..][k - 1];
    }
  }

  /** Registered names are never forgotten while a module registers: they are listed or still reserved. */
  lemma RegisteredKeepsOld(s: Setup, reserved: Setup, s': Setup, t: Setup)
    requires Names(s.modules) <= s.registered <= reserved.registered && reserved.modules == s.modules
    requires s.modules <= s'.modules && Reserved(s') == Reserved(reserved) && Names(s'.modules) <= s'.registered
    requires t.registered == s'.registered
    ensures s.registered <= t.registered
  {
    forall n | n in s.registered ensures n in t.registered {
      if n in s.modules {
        assert n in s'.modules;
        assert n in Names(s'.modules);
      } else {
        assert n in Reserved(reserved);
      }
    }
  }

  // ---------------------------------------------------------------- when registration succeeds

  /** The first k of the given workers are there and their names are new; "" and nil are no workers. */
  ghost predicate GoodWorkers(s: Setup, ws: seq<Option<Name>>, k: nat) {
    && k <= |ws|
    && (forall i :: 0 <= i < k ==> ws[i].Some? && ws[i].value != "" && ws[i].value !in s.workerNames)
    && forall i, j :: 0 <= i < j < k ==> ws[i] != ws[j]
  }

  function NamesOf(ws: seq<Option<Name>>): seq<Name> {
    seq(|ws|, i requires 0 <= i < |ws| => match ws[i] case Some(n) => n case None => "")
  }

  /** AddWorkers adds exactly the workers before the first bad one, and succeeds exactly if there is none. */
  lemma {:induction false} AddsUpToFirstBad(s: Setup, ws: seq<Option<Name>>, k: nat)
    requires GoodWorkers(s, ws, k) && (k < |ws| ==> !GoodWorkers(s, ws, k + 1))
    ensures var (t, ok) := Added(s, ws);
            && (ok <==> k == |ws|)
            && t.workers == s.workers + NamesOf(ws[..k])
            && t.workerNames == s.workerNames + Names(NamesOf(ws[..k]))
            && t == s.(workers := t.workers, workerNames := t.workerNames)
    decreases |ws|
  {
    if k == 0 {
      assert NamesOf(ws[..0]) == [];
      assert s.workers + [] == s.workers && s.workerNames + Names([]) == s.workerNames;
    } else {
      var name := ws[0].value;
      var t := s.(workerNames := s.workerNames + {name}, workers := s.workers + [name]);
      FirstWorkerGood(s, t, ws, k);
      AddsUpToFirstBad(t, ws[1..], k - 1);
      assert NamesOf(ws[..k]) == [name] + NamesOf(ws[1..][..k - 1]);
    }
  }

  lemma FirstWorkerGood(s: Setup, t: Setup, ws: seq<Option<Name>>, k: nat)
    requires 1 <= k && GoodWorkers(s, ws, k) && t.workerNames == s.workerNames + {ws[0].value}
    requires k < |ws| ==> !GoodWorkers(s, ws, k + 1)
    ensures GoodWorkers(t, ws[1..], k - 1) && (k < |ws| ==> !GoodWorkers(t, ws[1..], k))
  {
    var rest := ws[1..];
    assert forall i :: 0 <= i < |rest| ==> rest[i] == ws[i + 1];
    if k < |ws| && GoodWorkers(t, rest, k) {
      forall i | 0 <= i < k + 1 ensures ws[i].Some? && ws[i].value != "" && ws[i].value !in s.workerNames {
        if i > 0 { assert rest[i - 1] == ws[i]; }
      }
      forall i, j | 0 <= i < j < k + 1 ensures ws[i] != ws[j] {
        assert rest[j - 1] == ws[j];
        if i > 0 { assert rest[i - 1] == ws[i]; }
      }
      assert GoodWorkers(s, ws, k + 1);
    }
  }

  /**
   One module is registered exactly if it is there, has a new name, Run has not started and its own Register
   succeeds; it is listed after the modules it registered itself, and otherwise its name is free again.
   */
  lemma RegistersOne(s: Setup, m: Module)
    requires Valid(s)
    ensures var (t, ok) := Registered(s, [m]);
            var fits := m.Module? && m.name != "" && !s.started && m.name !in s.registered;
            && (ok <==> fits && Performed(s.(registered := s.registered + {m.name}), m.actions, m.fails).1)
            && (!fits ==> t == s)
            && (ok ==> t.modules != [] && t.modules[|t.modules|-1] == m.name)
            && (fits && !ok ==> m.name !in t.registered)
  {
    assert [m][1..] == [];
  }

  /** Modules are registered one after the other, up to the first that fails. */
  lemma {:induction false} RegistersInOrder(s: Setup, a: seq<Module>, b: seq<Module>)
    ensures Registered(s, a + b) ==
            if Registered(s, a).1 then Registered(Registered(s, a).0, b) else Registered(s, a)
    decreases a
  {
    if a == [] {
      assert a + b == b;
    } else {
      var m := a[0];
      assert (a + b)[0] == m && (a + b)[1..] == a[1..] + b;
      if !m.NilModule? && m.name != "" && !s.started && m.name !in s.registered {
        var (s', ok) := Performed(s.(registered := s.registered + {m.name}), m.actions, m.fails);
        if ok { RegistersInOrder(s'.(modules := s'.modules + [m.name]), a[1..], b); }
      }
    }
  }

  // ---------------------------------------------------------------- the engine object

  class Engine {
    var modules: seq<Name>
    var registered: set<Name>
    var workers: seq<Name>
    var workerNames: set<Name>
    var started: bool

    function Value(): Setup
      reads this
    {
      Setup(modules, registered, workers, workerNames, started)
    }

    constructor ()
      ensures Value() == Setup([], {}, [], {}, false) && Valid(Value())
    {
      modules, registered, workers, workerNames, started := [], {}, [], {}, false;
    }

    method AddWorker(ws: seq<Option<Name>>) returns (ok: bool)
      requires Valid(Value())
      modifies this
      ensures (Value(), ok) == WorkersAdded(old(Value()), ws)
      ensures Extends(old(Value()), Value())
    {
      if started { return false; }
      ghost var before := Value();
      AddedExtends(before, ws);
      for k := 0 to |ws|
        invariant Added(before, ws) == Added(Value(), ws[k..]) && !started
      {
        assert ws[k..][0] == ws[k] && ws[k..][1..] == ws[k + 1..];
        if ws[k].None? || ws[k].value == "" || ws[k].value in workerNames { return false; }
        workerNames := workerNames + {ws[k].value};
        workers := workers + [ws[k].value];
      }
      ok := true;
    }

    method Register(ms: seq<Module>) returns (ok: bool)
      requires Valid(Value())
      modifies this
      ensures (Value(), ok) == Registered(old(Value()), ms)
      ensures Extends(old(Value()), Value())
      decreases ms
    {
      ghost var before := Value();
      RegisteredExtends(before, ms);
      for k := 0 to |ms|
        invariant Registered(before, ms) == Registered(Value(), ms[k..]) && Valid(Value())
      {
        var m := ms[k];
        assert ms[k..][0] == m && ms[k..][1..] == ms[k + 1..];
        if m.NilModule? || m.name == "" || started || m.name in registered { return false; }
        ghost var s := Value();
        registered := registered + {m.name};
        ghost var reserved := Value();
        assert Valid(reserved) && Reserved(reserved) == Reserved(s) + {m.name};
        var good := Perform(m.actions, m.fails);
        if !good {
          registered := registered - {m.name};
          return false;
        }
        AppendModule(Value(), m.name);
        modules := modules + [m.name];
      }
      ok := true;
    }

    /** A module's Register call. */
    method Perform(actions: seq<Action>, fails: bool) returns (ok: bool)
      requires Valid(Value())
      modifies this
      ensures (Value(), ok) == Performed(old(Value()), actions, fails)
      ensures Extends(old(Value()), Value())
      decreases actions
    {
      PerformedExtends(Value(), actions, fails);
      if actions == [] { return !fails; }
      match actions[0]
      case RegisterModules(ms, passOn) =>
        var good := Register(ms);
        if !good && passOn { return false; }
        ok := Perform(actions[1..], fails);
      case AddWorkers(ws, passOn) =>
        var good := AddWorker(ws);
        if !good && passOn { return false; }
        ok := Perform(actions[1..], fails);
      case RunStarts =>
        started := true;
        ok := Perform(actions[1..], fails);
    }
  }

  // ---------------------------------------------------------------- waiting for workers

  type Time = nat

  /** A started worker, and when its done channel closes, if ever. */
  datatype RunningWorker = RunningWorker(name: Name, doneAt: Option<Time>)

  predicate DoneBy(w: RunningWorker, t: Time) {
    w.doneAt.Some? && w.doneAt.value <= t
  }

  /** Each done channel is looked at once, at its own time. */
  method UnfinishedWorkerNames(ws: seq<RunningWorker>, looks: seq<Time>) returns (names: seq<Name>)
    requires |looks| == |ws|
    ensures forall n :: n in names <==> exists i :: 0 <= i < |ws| && ws[i].name == n && !DoneBy(ws[i], looks[i])
    ensures names == [] <==> forall i :: 0 <= i < |ws| ==> DoneBy(ws[i], looks[i])
  {
    names := [];
    for k := 0 to |ws|
      invariant forall n :: n in names <==> exists i :: 0 <= i < k && ws[i].name == n && !DoneBy(ws[i], looks[i])
      invariant names == [] <==> forall i :: 0 <= i < k ==> DoneBy(ws[i], looks[i])
    {
      ghost var before := names;
      if !DoneBy(ws[k], looks[k]) {
        names := names + [ws[k].name];
        assert forall n :: n in names <==> n in before || n == ws[k].name;
      }
    }
  }

  /**
   Waits for the workers one after the other until the timer fires; when a channel and the timer are
   ready together, `timerFirst` says which one the select takes. The outcome does not depend on it:
   nil exactly when every worker is done by the time it would be looked at after the deadline.
   */
  method WaitForWorkers(ws: seq<RunningWorker>, begin: Time, timeout: nat, timerFirst: seq<bool>, looks: seq<Time>)
    returns (err: Option<seq<Name>>, waited: Time)
    requires |looks| == |ws| && |timerFirst| == |ws|
    requires forall i :: 0 <= i < |ws| ==> looks[i] >= begin + timeout
    ensures err.None? <==> forall i :: 0 <= i < |ws| ==> DoneBy(ws[i], looks[i])
    ensures err.Some? ==> err.value != []
    ensures err.Some? ==>
              forall n :: n in err.value <==> exists i :: 0 <= i < |ws| && ws[i].name == n && !DoneBy(ws[i], looks[i])
    ensures waited <= timeout
    ensures waited < timeout ==> forall i :: 0 <= i < |ws| ==> DoneBy(ws[i], begin + waited)
  {
    var now, deadline := begin, begin + timeout;
    for k := 0 to |ws|
      invariant begin <= now <= deadline
      invariant forall i :: 0 <= i < k ==> DoneBy(ws[i], now)
    {
      var both := DoneBy(ws[k], deadline) && (if ws[k].doneAt.value < now then now else ws[k].doneAt.value) == deadline;
      if DoneBy(ws[k], deadline) && !(both && timerFirst[k]) {
        now := if ws[k].doneAt.value < now then now else ws[k].doneAt.value;
      } else {
        var names := UnfinishedWorkerNames(ws, looks);
        return if names == [] then None else Some(names), timeout;
      }
    }
    err, waited := None, now - begin;
  }
}

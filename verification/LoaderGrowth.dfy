/** What no operation of the module manager takes back, and how little a `define` call touches. */
module LoaderGrowth {
  import opened Options
  import opened Graphs
  import opened LoaderState
  import opened LoaderInvariant
  import opened LoaderSteps
  import opened LoaderCascade
  import opened LoaderResolve
  import opened LoadErrors
  import opened LoaderRuns

  /** What s says for good: the waiter list of an id that is not done only grows, at its end. */
  ghost predicate Grows(s: State, r: State) {
    && s.log <= r.log
    && (forall m :: m in s.declared ==> m in r.declared && r.declared[m] == s.declared[m])
    && (forall m :: m in s.mods ==> m in r.mods)
    && (forall m :: Done(s, m) ==> Done(r, m))
    && (forall m :: FailedEarly(s, m) ==> FailedEarly(r, m))
    && (forall m :: Waiting(r, m) && m in s.mods ==> Waiting(s, m))
    && (forall b :: !Done(r, b) ==> WaitersOf(s, b) <= WaitersOf(r, b))
  }

  /** From s to r only m begins to wait, fails, queues resources, or is warned about. */
  ghost predicate Touches(s: State, r: State, m: Id) {
    && (forall a, b :: a in WaitersOf(r, b) ==> a in WaitersOf(s, b) || (a == m && !FailedEarly(s, b)))
    && (forall d :: FailedEarly(r, d) ==> FailedEarly(s, d) || d == m)
    && QueuesOf(s, r, m)
    && WarnsOf(s.log, r.log, m)
    && FailsOf(s.log, r)
  }

  /** All that is new on a plugin's queue is a dependency of m. */
  ghost predicate QueuesOf(s: State, r: State, m: Id) {
    forall p, d :: d in QueueOf(r, p) ==> d in QueueOf(s, p) || AsksPlugin(r.declared, m, p, d)
  }

  ghost predicate AsksPlugin(declared: map<Id, Declaration>, m: Id, p: Id, d: Dependency) {
    m in declared && d.Plugin? && d.pluginId == p && d in declared[m].dependencies
  }

  /** All new warnings are about m. */
  ghost predicate WarnsOf(log: seq<Entry>, longer: seq<Entry>, m: Id) {
    forall d, x :: Warned(d, x) in longer ==> Warned(d, x) in log || x == m
  }

  /** All that is newly reported as failed has failed before it could complete. */
  ghost predicate FailsOf(log: seq<Entry>, r: State) {
    forall f :: |log| <= f < |r.log| && r.log[f].Failed? ==> FailedEarly(r, r.log[f].id)
  }

  /** The log has grown by entries that report no failure, and warn only about m. */
  ghost predicate Quietly(log: seq<Entry>, longer: seq<Entry>, m: Id) {
    WarnsOf(log, longer, m) && forall f :: |log| <= f < |longer| ==> !longer[f].Failed?
  }

  lemma OneMoreEntry(log: seq<Entry>, e: Entry, m: Id)
    ensures log <= log + [e]
    ensures !e.Failed? && (!e.Warned? || e.dependent == m) ==> Quietly(log, log + [e], m)
  {
    assert forall x :: x in log + [e] ==> x in log || x == e;
  }

  lemma NoMoreEntries(log: seq<Entry>, m: Id)
    ensures Quietly(log, log, m)
  {
  }

  lemma QuietlyAgain(a: seq<Entry>, b: seq<Entry>, c: seq<Entry>, m: Id)
    requires Quietly(a, b, m) && Quietly(b, c, m) && b <= c
    ensures Quietly(a, c, m)
  {
    WarnsAgain(a, b, c, m);
    hide WarnsOf;
  }

  lemma QuietIsHarmless(s: State, r: State, m: Id)
    requires Quietly(s.log, r.log, m)
    ensures WarnsOf(s.log, r.log, m) && FailsOf(s.log, r)
  {
    hide WarnsOf, FailedEarly;
  }

  ghost predicate Steps(s: State, r: State, m: Id) {
    Grows(s, r) && Touches(s, r, m)
  }

  lemma GrowsAgain(s: State, r: State, t: State)
    requires Grows(s, r) && Grows(r, t)
    ensures Grows(s, t)
  {
    hide Done, Waiting, FailedEarly, WaitersOf;
  }

  lemma QueuesAgain(s: State, r: State, t: State, m: Id)
    requires QueuesOf(s, r, m) && QueuesOf(r, t, m) && (m in r.declared ==> m in t.declared && t.declared[m] == r.declared[m])
    ensures QueuesOf(s, t, m)
  {
    hide QueueOf;
  }

  lemma TouchesAgain(s: State, r: State, t: State, m: Id)
    requires Grows(s, r) && Grows(r, t) && Touches(s, r, m) && Touches(r, t, m)
    ensures Touches(s, t, m)
  {
    hide FailedEarly, Done, Waiting, WaitersOf, QueuesOf, WarnsOf, FailsOf;
    QueuesAgain(s, r, t, m);
    WarnsAgain(s.log, r.log, t.log, m);
    FailsAgain(s.log, r, t);
  }

  lemma FailsAgain(log: seq<Entry>, r: State, t: State)
    requires FailsOf(log, r) && FailsOf(r.log, t) && r.log <= t.log && forall m :: FailedEarly(r, m) ==> FailedEarly(t, m)
    ensures FailsOf(log, t)
  {
    hide FailedEarly;
  }

  lemma WarnsAgain(a: seq<Entry>, b: seq<Entry>, c: seq<Entry>, m: Id)
    requires WarnsOf(a, b, m) && WarnsOf(b, c, m)
    ensures WarnsOf(a, c, m)
  {
  }

  lemma StepsAgain(s: State, r: State, t: State, m: Id)
    requires Steps(s, r, m) && Steps(r, t, m)
    ensures Steps(s, t, m)
  {
    hide Grows, Touches;
    GrowsAgain(s, r, t);
    TouchesAgain(s, r, t, m);
  }

  lemma StepsNowhere(s: State, m: Id)
    ensures Steps(s, s, m)
  {
  }

  // ---- completing -------------------------------------------------------------------------------

  lemma FinishedLogSteps(s: State, x: Id, m: Id)
    requires Waiting(s, x)
    ensures s.log <= Finished(s, x).log && Quietly(s.log, Finished(s, x).log, m)
  {
    FinishedRecord(s, x);
    var r := Finished(s, x);
    var e := CompletionEntry(s, x);
    OneMoreEntry(s.log, e, m);
    hide Finished, CompletionEntry;
    if r.log != s.log + [e] {
      var g :| r.log == s.log + [e] + [GlobalError(g)];
      OneMoreEntry(s.log + [e], GlobalError(g), m);
      QuietlyAgain(s.log, s.log + [e], r.log, m);
    }
  }

  lemma FinishedSteps(s: State, x: Id, m: Id)
    requires Waiting(s, x)
    ensures Steps(s, Finished(s, x), m)
  {
    FinishedCompletes(s, x);
    FinishedLogSteps(s, x, m);
    QuietIsHarmless(s, Finished(s, x), m);
    hide Finished, WarnsOf, FailsOf;
  }

  lemma DropSteps(s: State, x: Id, m: Id)
    requires x in s.mods
    ensures Steps(s, Drop(s, x), m)
  {
  }

  /** Nothing changes but the log and what is known. */
  lemma RequestSteps(s: State, r: State, m: Id)
    requires r == s.(known := r.known, log := r.log) && s.log <= r.log && Quietly(s.log, r.log, m)
    ensures Steps(s, r, m)
  {
    QuietIsHarmless(s, r, m);
    hide WarnsOf, FailsOf;
  }

  lemma LoadPluginSteps(s: State, plugin: Value, d: Dependency, m: Id)
    requires d.Plugin?
    ensures Steps(s, LoadPluginDependency(s, plugin, d), m)
  {
    OneMoreEntry(s.log, ResourceRequested(d.id, d.pluginId, d.param, plugin), m);
    hide Steps, Quietly;
    NoMoreEntries(s.log, m);
    RequestSteps(s, LoadPluginDependency(s, plugin, d), m);
  }

  lemma {:induction false} HandOverSteps(s: State, plugin: Value, queue: seq<Dependency>, m: Id)
    requires forall k :: 0 <= k < |queue| ==> queue[k].Plugin?
    ensures Steps(s, HandOver(s, plugin, queue), m)
    decreases |queue|
  {
    hide Steps, LoadPluginDependency;
    if queue == [] {
      StepsNowhere(s, m);
    } else {
      var s1 := LoadPluginDependency(s, plugin, queue[0]);
      LoadPluginSteps(s, plugin, queue[0], m);
      HandOverSteps(s1, plugin, queue[1..], m);
      StepsAgain(s, s1, HandOver(s, plugin, queue), m);
    }
  }

  lemma PluginPartSteps(s: State, x: Id, m: Id)
    requires x in s.mods && QueuesHoldPlugins(s)
    ensures Steps(s, PluginPart(s, x), m)
  {
    var s1 := s.(pluginWaiters := s.pluginWaiters - {x});
    NoMoreEntries(s.log, m);
    QuietIsHarmless(s, s1, m);
    assert Steps(s, s1, m) by {
      hide WarnsOf, FailsOf;
      forall p, d | d in QueueOf(s1, p) ensures d in QueueOf(s, p) {
      }
    }
    hide Steps, HandOver;
    HandOverSteps(s1, s.mods[x].exports, QueueOf(s, x), m);
    StepsAgain(s, s1, PluginPart(s, x), m);
  }

  lemma {:induction false} CompleteSteps(s: State, x: Id, m: Id)
    requires Linked(s) && QueuesHoldPlugins(s) && x in s.mods
    ensures Steps(s, Complete(s, x), m)
    decreases Incomplete(s), 0
  {
    hide Steps, Finished, PluginPart, WaitersOf;
    if s.mods[x].complete {
      StepsNowhere(s, m);
    } else {
      var s2 := Finished(s, x);
      FinishedSmaller(s, x);
      FinishedSteps(s, x, m);
      NotifySteps(s2, WaitersOf(s, x), m);
      var s3 := Notify(s2, WaitersOf(s, x));
      PluginPartSteps(s3, x, m);
      hide *;
      StepsAgain(s, s2, s3, m);
      StepsAgain(s, s3, PluginPart(s3, x), m);
      CompleteParts(s, x);
    }
  }

  lemma CompleteParts(s: State, x: Id)
    requires Linked(s) && QueuesHoldPlugins(s) && Waiting(s, x)
    ensures Linked(Finished(s, x)) && QueuesHoldPlugins(Finished(s, x))
    ensures forall k :: 0 <= k < |WaitersOf(s, x)| ==> WaitersOf(s, x)[k] in Finished(s, x).mods
    ensures var s3 := Notify(Finished(s, x), WaitersOf(s, x));
            x in s3.mods && QueuesHoldPlugins(s3) && Complete(s, x) == PluginPart(s3, x)
  {
    FinishedSmaller(s, x);
    hide Finished, PluginPart, Linked;
  }

  lemma {:induction false} NotifySteps(s: State, ws: seq<Id>, m: Id)
    requires Linked(s) && QueuesHoldPlugins(s)
    requires forall k :: 0 <= k < |ws| ==> ws[k] in s.mods
    ensures Steps(s, Notify(s, ws), m)
    decreases Incomplete(s), |ws|
  {
    hide Steps;
    if ws == [] {
      StepsNowhere(s, m);
    } else {
      var s1 := Drop(s, ws[0]);
      DropSteps(s, ws[0], m);
      DropSameIncomplete(s, ws[0]);
      if s1.mods[ws[0]].unresolved == 0 {
        var s2 := Complete(s1, ws[0]);
        CompleteSteps(s1, ws[0], m);
        NotifySteps(s2, ws[1..], m);
        hide Linked, QueuesHoldPlugins, Drop, Complete;
        StepsAgain(s, s1, s2, m);
        StepsAgain(s, s2, Notify(s2, ws[1..]), m);
      } else {
        NotifySteps(s1, ws[1..], m);
        hide Linked, QueuesHoldPlugins, Drop;
        StepsAgain(s, s1, Notify(s1, ws[1..]), m);
      }
    }
  }

  // ---- resolving --------------------------------------------------------------------------------

  lemma FetchSteps(s: State, d: Dependency, m: Id)
    requires m in s.declared && d in s.declared[m].dependencies
    ensures Steps(s, Fetch(s, d), m)
  {
    if d.Plugin? && !(d.pluginId in s.mods && s.mods[d.pluginId].complete) {
      var s1 := Enqueue(s, d);
      EnqueueSteps(s, d, m);
      LoadModuleSteps(s1, d.pluginId, m);
      hide Steps, Enqueue, LoadModule;
      StepsAgain(s, s1, LoadModule(s1, d.pluginId), m);
    } else if d.Plugin? {
      LoadPluginSteps(s, s.mods[d.pluginId].exports, d, m);
    } else {
      LoadModuleSteps(s, d.Target(), m);
    }
  }

  lemma EnqueueSteps(s: State, d: Dependency, m: Id)
    requires m in s.declared && d in s.declared[m].dependencies && d.Plugin?
    ensures Steps(s, Enqueue(s, d), m)
  {
    forall p, e | e in QueueOf(Enqueue(s, d), p) ensures e in QueueOf(s, p) || (e == d && p == d.pluginId) {
    }
  }

  lemma LoadModuleSteps(s: State, id: Id, m: Id)
    ensures Steps(s, LoadModule(s, id), m)
  {
    OneMoreEntry(s.log, Requested(id), m);
    NoMoreEntries(s.log, m);
    hide Steps, Quietly;
    RequestSteps(s, LoadModule(s, id), m);
  }

  lemma AddWaiterSteps(s: State, m: Id, d: Id)
    requires d in s.mods ==> !s.mods[d].complete
    ensures Steps(s, AddWaiter(s, m, d), m)
  {
  }

  /** m counts one less, or is given its exports; the log may grow. */
  lemma PassSteps(s: State, r: State, m: Id)
    requires Waiting(s, m) && m in r.mods && r.mods == s.mods[m := r.mods[m]]
    requires !r.mods[m].complete
    requires r.waiters == s.waiters && r.pluginWaiters == s.pluginWaiters && r.declared == s.declared
    requires s.log <= r.log && Quietly(s.log, r.log, m)
    ensures Steps(s, r, m)
  {
    QuietIsHarmless(s, r, m);
    hide WarnsOf, FailsOf;
  }

  lemma SkipSteps(s: State, m: Id, d: Dependency)
    requires Waiting(s, m)
    ensures Steps(s, SkipSpecial(s, m, d), m)
  {
    NoMoreEntries(s.log, m);
    hide Steps, Quietly;
    PassSteps(s, SkipSpecial(s, m, d), m);
  }

  lemma BreakSteps(s: State, m: Id, d: Dependency)
    requires Waiting(s, m)
    ensures Steps(s, BreakCycle(s, m, d), m)
  {
    var warned, path := Warned(d.Target(), m), Printed(PrintedPath(s.mods, d.Target(), m));
    OneMoreEntry(s.log, warned, m);
    OneMoreEntry(s.log + [warned], path, m);
    QuietlyAgain(s.log, s.log + [warned], s.log + [warned] + [path], m);
    hide Steps, Quietly, PrintedPath;
    PassSteps(s, BreakCycle(s, m, d), m);
  }

  lemma LookSteps(s: State, m: Id, d: Dependency)
    requires Waiting(s, m) && m in s.declared && d in s.declared[m].dependencies
    ensures Steps(s, Look(s, m, d), m)
  {
    hide Steps, Deps, Fetch, SkipSpecial, BreakCycle, Drop, AddWaiter;
    SkipSteps(s, m, d);
    BreakSteps(s, m, d);
    DropSteps(s, m, m);
    if !d.Special() && !(d.Target() in s.mods && s.mods[d.Target()].complete) {
      var s1 := AddWaiter(s, m, d.Target());
      AddWaiterSteps(s, m, d.Target());
      assert s1.declared == s.declared by {
        hide *;
        AddWaiterDeclares(s, m, d.Target());
      }
      FetchSteps(s1, d, m);
      StepsAgain(s, s1, Fetch(s1, d), m);
    }
  }

  lemma AddWaiterDeclares(s: State, m: Id, d: Id)
    ensures AddWaiter(s, m, d).declared == s.declared
  {
  }

  lemma FailSteps(s: State, m: Id, error: Error)
    requires Waiting(s, m) && s.mods[m].dependencies.Some?
    ensures Steps(s, Fail(s, m, error), m)
  {
    var r := Fail(s, m, error);
    var e := Failed(m, error, s.mods[m].errorback);
    assert r == s.(mods := r.mods, log := s.log + [e]);
    assert forall x :: x in r.log ==> x in s.log || x == e;
    assert WarnsOf(s.log, r.log, m) && FailsOf(s.log, r);
    hide WarnsOf, FailsOf;
    forall p, d | d in QueueOf(r, p) ensures d in QueueOf(s, p) {
    }
  }

  lemma {:induction false} ResolveSteps(s: State, m: Id, deps: seq<Dependency>, i: nat)
    requires Linked(s) && QueuesHoldPlugins(s) && Resolving(s, m, i) && deps == s.declared[m].dependencies
    ensures Steps(s, Resolve(s, m, deps, i), m)
    decreases |deps| - i, 1
  {
    hide *;
    Parts(s, m, i);
    ResolveUnfolds(s, m, deps, i);
    if i == |deps| {
      if s.mods[m].unresolved == 0 {
        CompleteSteps(s, m, m);
      } else {
        StepsNowhere(s, m);
      }
    } else if Poisoned(s, deps[i]) {
      WaitingHasDependencies(s, m, i);
      FailSteps(s, m, s.mods[deps[i].Target()].error.value);
    } else {
      ResolveStepsOn(s, m, deps, i);
    }
  }

  lemma {:induction false} ResolveStepsOn(s: State, m: Id, deps: seq<Dependency>, i: nat)
    requires Linked(s) && QueuesHoldPlugins(s) && Resolving(s, m, i) && deps == s.declared[m].dependencies
    requires i < |deps| && !Poisoned(s, deps[i])
    ensures Steps(s, Resolve(s, m, deps, i), m)
    decreases |deps| - i, 0
  {
    hide *;
    Parts(s, m, i);
    ResolveUnfolds(s, m, deps, i);
    var s1 := Look(s, m, deps[i]);
    LookSteps(s, m, deps[i]);
    LookKeeps(s, m, i);
    LookShape(s, m, deps[i]);
    ResolveSteps(s1, m, deps, i + 1);
    StepsAgain(s, s1, Resolve(s1, m, deps, i + 1), m);
  }

  lemma WaitingHasDependencies(s: State, m: Id, i: nat)
    requires ModsOk(s, m, i) && Waiting(s, m)
    ensures s.mods[m].dependencies.Some?
  {
    assert ModOk(s, m, m, i);
  }

  lemma DeclareSteps(s: State, m: Id, decl: Declaration, errorback: bool)
    requires m !in s.mods && m !in s.declared
    ensures Steps(s, Declare(s, m, decl, errorback), m)
  {
  }

  // ---- whole calls ------------------------------------------------------------------------------

  lemma DefineSteps(s: State, m: Id, decl: Declaration, errorback: bool, nextId: nat)
    requires AtRest(s) && Enabled(s, DefineCall(m, decl, errorback, nextId))
    ensures Linked(s) && QueuesHoldPlugins(s)
    ensures Steps(s, Define(s, m, decl, errorback, nextId), m)
  {
    InvGivesShape(s, multiset{}, 0, 0, {});
    var s0 := s.(nextId := nextId);
    NextIdGrows(s, nextId);
    assert m in s.declared ==> m in s.mods;
    assert Steps(s, s0, m) by { NextIdSteps(s, nextId, m); }
    if m !in s.mods {
      var s1 := Declare(s0, m, decl, errorback);
      DeclareSteps(s0, m, decl, errorback);
      assert AtRest(s0);
      hide AtRest, Resolving, Steps;
      DeclareKeeps(s0, m, decl, errorback);
      Parts(s1, m, 0);
      ResolveSteps(s1, m, decl.dependencies, 0);
      StepsAgain(s, s0, s1, m);
      StepsAgain(s, s1, Resolve(s1, m, decl.dependencies, 0), m);
    }
  }

  lemma NextIdSteps(s: State, n: nat, m: Id)
    ensures Steps(s, s.(nextId := n), m)
  {
  }

  lemma FailsGrows(s: State, r: State, id: Id, order: seq<Id>, tail: seq<Entry>)
    requires Fails(s, r, id, order, tail) && ModsOk(s, 0, 0)
    ensures Grows(s, r)
  {
    FailsDone(s, r, id, order, tail);
    hide FailedIn, QuietEntries, ModsOk;
  }

  /** Every call from outside only adds. */
  lemma StepGrows(s: State, e: Event)
    requires AtRest(s) && Enabled(s, e)
    ensures Grows(s, Step(s, e))
  {
    match e
    case DefineCall(m, decl, errorback, nextId) =>
      hide AtRest, Touches, Grows;
      DefineSteps(s, m, decl, errorback, nextId);
    case LoadError(id, cause) =>
      InvGivesShape(s, multiset{}, 0, 0, {});
      hide Fails, LoadFailed, Grows;
      var order, tail := LoadFailedFails(s, id, cause);
      FailsGrows(s, LoadFailed(s, id, cause), id, order, tail);
  }

  /** So do calls one after the other. */
  lemma {:induction false} PathGrows(s: State, events: seq<Event>, r: State)
    requires Path(s, events, r)
    ensures Grows(s, r)
    decreases |events|
  {
    hide Grows, Step, AtRest, Enabled;
    if events == [] {
      OnlyOneEmptyPath(s, r);
      assert Grows(s, s) by { StepsNowhere(s, 0); }
    } else {
      var before := LastStepOfPath(s, events, r);
      PathGrows(s, events[..|events| - 1], before);
      StepGrows(before, events[|events| - 1]);
      GrowsAgain(s, before, r);
    }
  }

  /** So does every part of a history. */
  lemma {:induction false} StatesGrow(s: State, events: seq<Event>, states: seq<State>, i: nat, j: nat)
    requires History(s, events, states) && i <= j <= |events|
    ensures |states| == |events| + 1 && Grows(states[i], states[j])
    decreases j - i
  {
    hide *;
    StatesOf(s, events, states);
    if i == j {
      StepsNowhere(states[i], 0);
      StepsGrow(states[i], states[i], 0);
    } else {
      CallAt(s, events, states, j - 1);
      StatesGrow(s, events, states, i, j - 1);
      LeadsGrow(states[j - 1], events[j - 1], states[j]);
      GrowsAgain(states[i], states[j - 1], states[j]);
    }
  }

  lemma StepsGrow(s: State, r: State, m: Id)
    requires Steps(s, r, m)
    ensures Grows(s, r)
  {
  }

  lemma LeadsGrow(s: State, e: Event, r: State)
    requires Leads(s, e, r)
    ensures Grows(s, r)
  {
    hide Grows;
    StepGrows(s, e);
  }

  lemma OnlyOneEmptyPath(s: State, r: State)
    requires Path(s, [], r)
    ensures s == r
  {
  }
}

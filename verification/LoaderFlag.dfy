/** Exactly which calls raise the cycle flag. */
module LoaderFlag {
  import opened Options
  import opened Graphs
  import opened LoaderState
  import opened LoaderInvariant
  import opened LoaderResolve
  import opened LoadErrors
  import opened LoaderRuns
  import opened LoaderGrowth
  import opened LoaderStranding
  import opened LoaderCycles

  /** The k-th dependency leads back to m along declared edges, and no failed one from the i-th to the k-th stops the loop. */
  ghost predicate ClosesAt(s: State, declared: map<Id, Declaration>, deps: seq<Dependency>, m: Id, i: nat, k: int) {
    && i <= k < |deps| && !deps[k].Special()
    && (forall j :: i <= j <= k ==> !Poisoned(s, deps[j]))
    && Joined(Declares(declared), deps[k].Target(), m)
  }

  ghost predicate ClosesFrom(s: State, declared: map<Id, Declaration>, deps: seq<Dependency>, m: Id, i: nat) {
    exists k :: ClosesAt(s, declared, deps, m, i, k)
  }

  /** The call defines a new module and closes a declared cycle at a dependency that it gets to. */
  ghost predicate Closes(s: State, e: Event) {
    e.DefineCall? && e.id !in s.mods && ClosesFrom(s, s.declared[e.id := e.decl], e.decl.dependencies, e.id, 0)
  }

  // ---- as long as the flag is down, the search misses nothing ---------------------------------------

  lemma NothingWarned(s: State, b: Id, a: Id)
    requires Links(s) && !s.cycle
    ensures Warned(b, a) !in s.log
  {
    if Warned(b, a) in s.log {
      var k :| 0 <= k < |s.log| && s.log[k] == Warned(b, a);
      assert HasWarning(s.log);
    }
  }

  lemma DeclaredByDone(s: State, m: Id, i: nat, a: Id, b: Id)
    requires LogOk(s.log, s.declared) && Links(s) && !s.cycle && Done(s, a) && a != m && Declares(s.declared)(a, b)
    ensures b < FIRST_FREE_ID || Done(s, b)
  {
    NothingWarned(s, b, a);
    assert Accepted(s, m, i)(a, b) by {
      var k :| 0 <= k < |s.declared[a].dependencies| && s.declared[a].dependencies[k].Target() == b;
      assert k < Reached(s, a, m, i);
    }
    DoneBehind(s, a, b, m, i);
  }

  lemma NothingLeavesBehind(s: State, m: Id, i: nat, d: Id)
    requires Ids(s) && ModsOk(s, m, i) && LogOk(s.log, s.declared) && Links(s) && !s.cycle && !Done(s, m)
    ensures Closed(Declares(s.declared), Behind(s, d))
  {
    hide LogOk, Links, Joined, DependsOn;
    forall a, b | Declares(s.declared)(a, b) && Behind(s, d)(a) ensures Behind(s, d)(b) {
      if Done(s, a) {
        DeclaredByDone(s, m, i, a, b);
      } else {
        assert ModOk(s, a, m, i);
        assert Deps(s)(a, b);
        if a == d {
          EdgeJoins(Deps(s), d, b);
        } else {
          JoinThenEdge(Deps(s), d, a, b);
        }
      }
    }
  }

  /** With the flag down, the search over the current arrays finds every declared way back to a new module. */
  lemma SearchIsComplete(s: State, m: Id, i: nat)
    requires Resolving(s, m, i) && i < |s.declared[m].dependencies| && !s.cycle
    ensures var d := s.declared[m].dependencies[i].Target(); Joined(Declares(s.declared), d, m) == Joined(Deps(s), d, m)
  {
    var d := s.declared[m].dependencies[i].Target();
    Parts(s, m, i);
    DepsAreDeclared(s, m, i);
    assert DependsOn(s.declared[m].dependencies, d);
    hide Resolving, Ids, ModsOk, LogOk, Links, Joined, Deps, Linked, QueuesHoldPlugins, WaitersOk, Sought;
    if Joined(Deps(s), d, m) {
      WiderJoined(Deps(s), Declares(s.declared), d, m);
    } else {
      NothingLeavesBehind(s, m, i, d);
      NotBehind(s, m, i, d);
      if Joined(Declares(s.declared), d, m) {
        JoinedStaysInside(Declares(s.declared), Behind(s, d), d, m);
      }
    }
  }

  lemma NoWayFromCompleteOne(s: State, m: Id, i: nat, d: Dependency)
    requires ModsOk(s, m, i) && !d.Special() && !Poisoned(s, d) && d.Target() in s.mods && s.mods[d.Target()].complete
    ensures !Joined(Deps(s), d.Target(), m)
  {
    assert ModOk(s, d.Target(), m, i);
    NoWayFromDone(s, d.Target(), m);
  }

  // ---- one dependency, one call, one run --------------------------------------------------------------

  lemma FetchFlag(s: State, m: Id, d: Dependency)
    ensures Fetch(AddWaiter(s, m, d.Target()), d).cycle == s.cycle
    ensures Fetch(AddWaiter(s, m, d.Target()), d).declared == s.declared
  {
    FetchSame(AddWaiter(s, m, d.Target()), d);
    hide Fetch;
  }

  /** Looking at a dependency raises the flag if and only if it leads back along declared edges. */
  lemma LookRaises(s: State, m: Id, i: nat)
    requires Resolving(s, m, i) && i < |s.declared[m].dependencies| && !Poisoned(s, s.declared[m].dependencies[i]) && !s.cycle
    ensures var d := s.declared[m].dependencies[i]; var r := Look(s, m, d);
            r.declared == s.declared && (r.cycle <==> !d.Special() && Joined(Declares(s.declared), d.Target(), m))
  {
    var d := s.declared[m].dependencies[i];
    Parts(s, m, i);
    SearchIsComplete(s, m, i);
    FetchFlag(s, m, d);
    if !d.Special() && d.Target() in s.mods && s.mods[d.Target()].complete {
      NoWayFromCompleteOne(s, m, i, d);
    }
    hide Resolving, Joined, Deps, Fetch, AddWaiter, ModsOk, LogOk, Links, Poisoned;
  }

  lemma FlagStaysUp(s: State, r: State)
    requires Links(s) && Links(r) && s.log <= r.log && s.cycle
    ensures r.cycle
  {
    var k :| 0 <= k < |s.log| && s.log[k].Warned?;
    assert r.log[k].Warned?;
  }

  lemma FlagStaysDown(s: State, r: State)
    requires Links(s) && Links(r) && SameEdges(s, r)
    ensures r.cycle == s.cycle
  {
    assert HasWarning(s.log) == HasWarning(r.log) by {
      if k :| 0 <= k < |s.log| && s.log[k].Warned? {
        assert Warned(s.log[k].dependency, s.log[k].dependent) in r.log;
      }
      if k :| 0 <= k < |r.log| && r.log[k].Warned? {
        assert Warned(r.log[k].dependency, r.log[k].dependent) in s.log;
      }
    }
  }

  lemma ClosesOneLater(s: State, r: State, declared: map<Id, Declaration>, deps: seq<Dependency>, m: Id, i: nat)
    requires i < |deps| && !Poisoned(s, deps[i]) && forall x :: Poisoned(r, x) == Poisoned(s, x)
    ensures ClosesFrom(s, declared, deps, m, i)
            <==> (!deps[i].Special() && Joined(Declares(declared), deps[i].Target(), m)) || ClosesFrom(r, declared, deps, m, i + 1)
  {
    hide Poisoned, Joined, Declares;
    if k :| ClosesAt(s, declared, deps, m, i, k) {
      assert k > i ==> ClosesAt(r, declared, deps, m, i + 1, k);
    }
    if !deps[i].Special() && Joined(Declares(declared), deps[i].Target(), m) {
      assert ClosesAt(s, declared, deps, m, i, i);
    }
    if ClosesFrom(r, declared, deps, m, i + 1) {
      var k :| ClosesAt(r, declared, deps, m, i + 1, k);
      assert ClosesAt(s, declared, deps, m, i, k);
    }
  }

  lemma ClosesNoMore(s: State, declared: map<Id, Declaration>, deps: seq<Dependency>, m: Id, i: nat)
    requires i < |deps| ==> Poisoned(s, deps[i])
    ensures !ClosesFrom(s, declared, deps, m, i)
  {
    hide Poisoned, Joined, Declares;
  }

  lemma StepsLog(s: State, r: State, m: Id)
    requires Steps(s, r, m)
    ensures s.log <= r.log
  {
  }

  lemma {:induction false} ResolveRaises(s: State, m: Id, deps: seq<Dependency>, i: nat)
    requires Linked(s) && QueuesHoldPlugins(s) && Resolving(s, m, i) && deps == s.declared[m].dependencies && !s.cycle
    ensures Resolve(s, m, deps, i).cycle <==> ClosesFrom(s, s.declared, deps, m, i)
    decreases |deps| - i, 1
  {
    hide *;
    Parts(s, m, i);
    ResolveKeeps(s, m, deps, i);
    RestLinks(Resolve(s, m, deps, i));
    ResolveUnfolds(s, m, deps, i);
    if i == |deps| {
      ClosesNoMore(s, s.declared, deps, m, i);
      if s.mods[m].unresolved == 0 {
        CompleteEdges(s, m);
        FlagStaysDown(s, Complete(s, m));
      }
    } else if Poisoned(s, deps[i]) {
      ClosesNoMore(s, s.declared, deps, m, i);
      FailFlag(s, m, s.mods[deps[i].Target()].error.value);
    } else {
      ResolveRaisesOn(s, m, deps, i);
    }
  }

  lemma FailFlag(s: State, m: Id, error: Error)
    requires m in s.mods
    ensures Fail(s, m, error).cycle == s.cycle
  {
  }

  lemma {:induction false} ResolveRaisesOn(s: State, m: Id, deps: seq<Dependency>, i: nat)
    requires Linked(s) && QueuesHoldPlugins(s) && Resolving(s, m, i) && deps == s.declared[m].dependencies && !s.cycle
    requires i < |deps| && !Poisoned(s, deps[i])
    ensures Resolve(s, m, deps, i).cycle <==> ClosesFrom(s, s.declared, deps, m, i)
    decreases |deps| - i, 0
  {
    hide *;
    Parts(s, m, i);
    ResolveUnfolds(s, m, deps, i);
    var r := Look(s, m, deps[i]);
    WaitingIsIncomplete(s, m);
    forall x ensures Poisoned(r, x) == Poisoned(s, x) {
      LookPoisons(s, m, deps[i], x);
    }
    LookRaises(s, m, i);
    ClosesOneLater(s, r, s.declared, deps, m, i);
    LookKeeps(s, m, i);
    LookShape(s, m, deps[i]);
    if r.cycle {
      Parts(r, m, i + 1);
      ResolveKeeps(r, m, deps, i + 1);
      RestLinks(Resolve(r, m, deps, i + 1));
      ResolveSteps(r, m, deps, i + 1);
      StepsLog(r, Resolve(r, m, deps, i + 1), m);
      FlagStaysUp(r, Resolve(r, m, deps, i + 1));
    } else {
      ResolveRaises(r, m, deps, i + 1);
    }
  }

  lemma ClosesWhenDeclared(s: State, e: Event)
    requires e.DefineCall? && e.id !in s.mods
    ensures ClosesFrom(Declared(s, e), Declared(s, e).declared, e.decl.dependencies, e.id, 0) == Closes(s, e)
  {
    forall x ensures Poisoned(Declared(s, e), x) == Poisoned(s, x) {
    }
    assert Declared(s, e).declared == s.declared[e.id := e.decl];
    hide Poisoned, Declared, Joined, Declares;
    var r, declared, deps := Declared(s, e), s.declared[e.id := e.decl], e.decl.dependencies;
    assert forall k :: ClosesAt(r, declared, deps, e.id, 0, k) == ClosesAt(s, declared, deps, e.id, 0, k);
  }

  /** A call raises the flag if and only if it closes a declared cycle. */
  lemma StepRaises(s: State, e: Event, r: State)
    requires Leads(s, e, r) && !s.cycle
    ensures r.cycle <==> Closes(s, e)
  {
    InvGivesShape(s, multiset{}, 0, 0, {});
    if e.LoadError? {
      hide AtRest, LoadFailed, Closes, Fails, Linked;
      var order, tail := LoadFailedFails(s, e.id, e.cause);
      assert Fails(s, r, e.id, order, tail);
      SameFlag(s, r, e.id, order, tail);
    } else if e.id in s.mods {
      assert r == s.(nextId := e.nextId);
    } else {
      StepIsResolve(s, e);
      hide *;
      ResolveRaises(Declared(s, e), e.id, e.decl.dependencies, 0);
      ClosesWhenDeclared(s, e);
      DeclaredFlag(s, e);
    }
  }

  lemma SameFlag(s: State, r: State, id: Id, order: seq<Id>, tail: seq<Entry>)
    requires Fails(s, r, id, order, tail)
    ensures r.cycle == s.cycle
  {
  }

  lemma DeclaredFlag(s: State, e: Event)
    requires e.DefineCall?
    ensures Declared(s, e).cycle == s.cycle && Declared(s, e).declared[e.id].dependencies == e.decl.dependencies
  {
  }

  lemma StaysUp(s: State, e: Event, r: State)
    requires Leads(s, e, r) && AtRest(r) && s.cycle
    ensures r.cycle
  {
    LeadsGrow(s, e, r);
    RestLinks(s);
    RestLinks(r);
    hide *;
    GrowsLog(s, r);
    FlagStaysUp(s, r);
  }

  lemma GrowsLog(s: State, r: State)
    requires Grows(s, r)
    ensures s.log <= r.log
  {
  }

  /** The k-th call closes a declared cycle. */
  ghost predicate ClosedBy(events: seq<Event>, states: seq<State>, k: int)
    requires |states| == |events| + 1 && 0 <= k < |events|
  {
    Closes(states[k], events[k])
  }

  lemma ClosedByIs(events: seq<Event>, states: seq<State>, k: nat)
    requires |states| == |events| + 1 && k < |events|
    ensures ClosedBy(events, states, k) == Closes(states[k], events[k])
  {
    hide Closes;
  }

  lemma DownAtFirst()
    ensures !INITIAL.cycle
  {
  }

  /** At every point of every run the flag is up if and only if some call before has closed a declared cycle. */
  lemma {:induction false} FlagUpTo(events: seq<Event>, states: seq<State>, n: nat)
    requires History(INITIAL, events, states) && n <= |events|
    ensures |states| == |events| + 1
    ensures states[n].cycle <==> exists k :: 0 <= k < n && ClosedBy(events, states, k)
  {
    hide *;
    StatesOf(INITIAL, events, states);
    DownAtFirst();
    if n > 0 {
      CallAt(INITIAL, events, states, n - 1);
      FlagUpTo(events, states, n - 1);
      ClosedByIs(events, states, n - 1);
      if states[n - 1].cycle {
        RunTo(events, states, n);
        RunsAtRest(events[..n], states[n]);
        StaysUp(states[n - 1], events[n - 1], states[n]);
      } else {
        StepRaises(states[n - 1], events[n - 1], states[n]);
      }
    }
  }

  /**
   The cycle flag, in every run: it is raised if and only if some `define` call closed a cycle of
   declared dependencies at a dependency that it got to, that is, with no failed one at or before it.
   */
  lemma CycleFlagIsExact(events: seq<Event>, states: seq<State>)
    requires History(INITIAL, events, states)
    ensures |states| == |events| + 1
    ensures states[|events|].cycle <==> exists k :: 0 <= k < |events| && ClosedBy(events, states, k)
  {
    FlagUpTo(events, states, |events|);
  }

  // ---- the cycles it misses -----------------------------------------------------------------------------

  /** The call defines a new module and fails it before any dependency on d is looked at. */
  ghost predicate StopsBefore(s: State, e: Event, d: Id) {
    && e.DefineCall? && e.id !in s.mods
    && forall k :: 0 <= k < |e.decl.dependencies| && e.decl.dependencies[k].Target() == d ==>
         exists j :: 0 <= j <= k && Poisoned(s, e.decl.dependencies[j])
  }

  lemma LeadsDeclared(s: State, e: Event, r: State)
    requires Leads(s, e, r)
    ensures r.declared == if e.DefineCall? && e.id !in s.mods then s.declared[e.id := e.decl] else s.declared
  {
    hide AtRest, Step, Enabled;
    StepDeclares(s, e);
  }

  /** A new module on a declared cycle was stopped before it got to the cycle, if the flag stays down. */
  lemma NewOnCycle(s: State, e: Event, r: State, p: seq<Id>, k: nat)
    requires Leads(s, e, r) && Ids(r) && !s.cycle && !r.cycle
    requires Walk(Declares(r.declared), p) && |p| >= 2 && p[0] == p[|p| - 1]
    requires k < |p| - 1 && p[k] in r.declared && p[k] !in s.declared
    ensures StopsBefore(s, e, p[k + 1]) && e.id == p[k]
  {
    LeadsDeclared(s, e, r);
    StepRaises(s, e, r);
    AroundTheCycle(Declares(r.declared), p, k);
    var _ := JoinedHasFirstEdge(Declares(r.declared), p[k + 1], p[k]);
    assert p[k + 1] in r.declared && p[k + 1] >= FIRST_FREE_ID;
    hide Leads, Joined, Declares, Poisoned;
    var deps := e.decl.dependencies;
    forall x | 0 <= x < |deps| && deps[x].Target() == p[k + 1] ensures exists j :: 0 <= j <= x && Poisoned(s, deps[j]) {
      assert !ClosesAt(s, r.declared, deps, e.id, 0, x);
    }
  }

  lemma WalkBefore(s: State, e: Event, r: State, p: seq<Id>)
    requires Leads(s, e, r) && |p| >= 2 && Walk(Declares(r.declared), p) && p[0] == p[|p| - 1]
    requires forall k :: 0 <= k < |p| - 1 ==> p[k] in s.declared
    ensures Walk(Declares(s.declared), p)
  {
    LeadsGrow(s, e, r);
    hide Leads;
    forall k | 0 <= k < |p| - 1 ensures Goes(Declares(s.declared), p, k) {
      assert Goes(Declares(r.declared), p, k);
    }
  }

  lemma WalkOfDeclared(declared: map<Id, Declaration>, p: seq<Id>, k: nat)
    requires Walk(Declares(declared), p) && k < |p| - 1
    ensures p[k] in declared
  {
    assert Goes(Declares(declared), p, k);
  }

  lemma {:induction false} MissedUpTo(events: seq<Event>, states: seq<State>, n: nat, p: seq<Id>) returns (i: nat, k: nat)
    requires History(INITIAL, events, states) && n <= |events| && |states| == |events| + 1 && !states[n].cycle
    requires |p| >= 2 && Walk(Declares(states[n].declared), p) && p[0] == p[|p| - 1]
    ensures i < n && k < |p| - 1 && StopsBefore(states[i], events[i], p[k + 1]) && events[i].id == p[k]
  {
    hide *;
    StatesOf(INITIAL, events, states);
    RunTo(events, states, n);
    RunParts(events[..n], states[n]);
    WalkOfDeclared(states[n].declared, p, 0);
    if n == 0 {
      NothingDeclaredAtFirst();
      assert false;
    }
    CallAt(INITIAL, events, states, n - 1);
    var s := states[n - 1];
    RunsAtRest(events[..n], states[n]);
    if s.cycle {
      StaysUp(s, events[n - 1], states[n]);
    }
    if forall x :: 0 <= x < |p| - 1 ==> p[x] in s.declared {
      WalkBefore(s, events[n - 1], states[n], p);
      i, k := MissedUpTo(events, states, n - 1, p);
    } else {
      i := n - 1;
      k :| 0 <= k < |p| - 1 && p[k] !in s.declared;
      WalkOfDeclared(states[n].declared, p, k);
      NewOnCycle(s, events[i], states[n], p, k);
    }
  }

  lemma NothingDeclaredAtFirst()
    ensures INITIAL.declared == map[]
  {
  }

  /**
   Every declared cycle that the flag misses goes through a module that its own `define` call failed,
   before the loop got to the dependency on the cycle.
   */
  lemma UnflaggedCyclesWereStopped(events: seq<Event>, states: seq<State>, p: seq<Id>) returns (i: nat, k: nat)
    requires History(INITIAL, events, states) && |states| == |events| + 1 && !states[|events|].cycle
    requires |p| >= 2 && Walk(Declares(states[|events|].declared), p) && p[0] == p[|p| - 1]
    ensures i < |events| && k < |p| - 1 && StopsBefore(states[i], events[i], p[k + 1]) && events[i].id == p[k]
    ensures FailedEarly(states[|events|], p[k])
  {
    hide *;
    i, k := MissedUpTo(events, states, |events|, p);
    StepOfDeclared(states[|events|].declared, p, k);
    StoppedFails(events, states, i, p[k + 1]);
  }

  /** In the i-th call, a new module found a failed dependency. */
  ghost predicate StoppedAt(events: seq<Event>, states: seq<State>, i: int)
    requires |states| == |events| + 1 && 0 <= i < |events|
  {
    events[i].DefineCall? && events[i].id !in states[i].mods && FindsFailed(states[i], events[i].decl.dependencies, 0)
  }

  lemma StepOfDeclared(declared: map<Id, Declaration>, p: seq<Id>, k: nat)
    requires Walk(Declares(declared), p) && k < |p| - 1
    ensures Declares(declared)(p[k], p[k + 1])
  {
    assert Goes(Declares(declared), p, k);
  }

  lemma FindsWhatStops(s: State, e: Event, d: Id)
    requires StopsBefore(s, e, d) && DependsOn(e.decl.dependencies, d)
    ensures FindsFailed(s, e.decl.dependencies, 0)
  {
    hide Poisoned;
    var k :| 0 <= k < |e.decl.dependencies| && e.decl.dependencies[k].Target() == d;
  }

  lemma DeclaredForGood(s: State, e: Event, r: State, final: State)
    requires Leads(s, e, r) && Grows(r, final) && e.DefineCall? && e.id !in s.mods
    ensures e.id in final.declared && final.declared[e.id] == e.decl
  {
    LeadsDeclared(s, e, r);
    hide Leads;
  }

  lemma FailedForGood(s: State, e: Event, r: State, final: State)
    requires Leads(s, e, r) && Grows(r, final) && e.DefineCall? && e.id !in s.mods && FindsFailed(s, e.decl.dependencies, 0)
    ensures FailedEarly(final, e.id)
  {
    hide AtRest, Step, Enabled, FindsFailed;
    FailsIfOneHasFailed(s, e);
    FailedStays(r, final, e.id);
  }

  lemma StoppedFails(events: seq<Event>, states: seq<State>, i: nat, d: Id)
    requires History(INITIAL, events, states) && |states| == |events| + 1 && i < |events|
    requires StopsBefore(states[i], events[i], d) && Declares(states[|events|].declared)(events[i].id, d)
    ensures FailedEarly(states[|events|], events[i].id) && StoppedAt(events, states, i)
  {
    var s, e, r, final := states[i], events[i], states[i + 1], states[|events|];
    assert e.DefineCall? && e.id !in s.mods;
    hide History, StopsBefore, FindsFailed, DependsOn, Leads, Grows, FailedEarly;
    CallAt(INITIAL, events, states, i);
    StatesGrow(INITIAL, events, states, i + 1, |events|);
    DeclaredForGood(s, e, r, final);
    FindsWhatStops(s, e, d);
    FailedForGood(s, e, r, final);
  }

  /**
   If no `define` call finds a failed dependency, which can be seen before the call, the flag is raised
   if and only if the declared dependencies have a cycle; factories may throw, and loads may fail.
   */
  lemma UnstoppedFlagIsExact(events: seq<Event>, states: seq<State>)
    requires History(INITIAL, events, states) && |states| == |events| + 1
    requires forall i :: 0 <= i < |events| ==> !StoppedAt(events, states, i)
    ensures states[|events|].cycle <==> Cyclic(Declares(states[|events|].declared))
  {
    var s := states[|events|];
    RunTo(events, states, |events|);
    hide History, StoppedAt, Declares, Run;
    if s.cycle {
      FlagMeansCycle(events[..|events|], s);
    } else if a :| Joined(Declares(s.declared), a, a) {
      var p :| Walk(Declares(s.declared), p) && |p| >= 2 && p[0] == a && p[|p| - 1] == a;
      hide Walk;
      var i, k := UnflaggedCyclesWereStopped(events, states, p);
      StepOfDeclared(s.declared, p, k);
      StoppedFails(events, states, i, p[k + 1]);
    }
  }
}

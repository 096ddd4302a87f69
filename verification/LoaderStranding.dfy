/** When a module is stuck for good, and the one kind of call that does it. */
module LoaderStranding {
  import opened Options
  import opened Graphs
  import opened LoaderState
  import opened LoaderInvariant
  import opened LoaderSteps
  import opened LoaderResolve
  import opened LoadErrors
  import opened LoaderRuns
  import opened LoaderGrowth
  import opened LoaderProgress

  // ---- for good -----------------------------------------------------------------------------------

  lemma {:induction false} PathAtRest(s: State, events: seq<Event>, r: State)
    requires AtRest(s) && Path(s, events, r)
    ensures AtRest(r)
    decreases |events|
  {
    hide AtRest, Step, Enabled;
    if events == [] {
      OnlyOneEmptyPath(s, r);
    } else {
      var before := LastStepOfPath(s, events, r);
      StepKeeps(before, events[|events| - 1]);
    }
  }

  /** Whatever calls follow: no module completes before the modules it waits for. */
  lemma NeverBeforeItsWait(s: State, events: seq<Event>, r: State, m: Id, d: Id)
    requires AtRest(s) && Path(s, events, r) && Joined(Waits(s), m, d) && !Done(r, d)
    ensures !Done(r, m)
  {
    PathAtRest(s, events, r);
    PathGrows(s, events, r);
    var p :| Walk(Waits(s), p) && |p| >= 2 && p[0] == m && p[|p| - 1] == d;
    hide AtRest, Grows, Waits;
    NeverAlong(s, r, p, 0);
  }

  lemma {:induction false} NeverAlong(s: State, r: State, p: seq<Id>, k: nat)
    requires AtRest(r) && Grows(s, r) && Walk(Waits(s), p) && k < |p| && !Done(r, p[|p| - 1])
    ensures !Done(r, p[k])
    decreases |p| - k
  {
    hide AtRest, Grows, Waits, Walk;
    if k < |p| - 1 {
      NeverAlong(s, r, p, k + 1);
      StepOfWaits(s, p, k);
      StillOnTheList(s, r, p[k], p[k + 1]);
    }
  }

  lemma StepOfWaits(s: State, p: seq<Id>, k: nat)
    requires Walk(Waits(s), p) && k < |p| - 1
    ensures p[k] in WaitersOf(s, p[k + 1])
  {
    assert Goes(Waits(s), p, k);
  }

  lemma StillOnTheList(s: State, r: State, a: Id, b: Id)
    requires AtRest(r) && Grows(s, r) && a in WaitersOf(s, b) && !Done(r, b)
    ensures !Done(r, a)
  {
    assert a in WaitersOf(r, b);
    var k :| 0 <= k < |r.waiters[b]| && r.waiters[b][k] == a;
  }

  /** A module that waits, directly or not, for a failed module never completes. */
  lemma BlockedByFailureForever(s: State, events: seq<Event>, r: State, m: Id, d: Id)
    requires AtRest(s) && Path(s, events, r) && Joined(Waits(s), m, d) && FailedEarly(s, d)
    ensures !Done(r, m)
  {
    PathGrows(s, events, r);
    hide Path, AtRest;
    NeverBeforeItsWait(s, events, r, m, d);
  }

  // ---- the call that strands ------------------------------------------------------------------------

  /** From the i-th on there is a failed dependency. */
  ghost predicate FindsFailed(s: State, deps: seq<Dependency>, i: nat) {
    exists k :: i <= k < |deps| && Poisoned(s, deps[k])
  }

  lemma FindsTheSame(s: State, r: State, deps: seq<Dependency>, i: nat)
    requires i < |deps| && !Poisoned(s, deps[i]) && forall x :: Poisoned(r, x) == Poisoned(s, x)
    ensures FindsFailed(s, deps, i) == FindsFailed(r, deps, i + 1)
  {
    hide Poisoned;
  }

  lemma FindsAtOnce(s: State, deps: seq<Dependency>, i: nat)
    ensures i < |deps| && Poisoned(s, deps[i]) ==> FindsFailed(s, deps, i)
    ensures i >= |deps| ==> !FindsFailed(s, deps, i)
  {
    hide Poisoned;
  }

  /** The call fails its module because of a failed dependency while somebody waits for that module. */
  ghost predicate Strands(s: State, e: Event) {
    e.DefineCall? && e.id !in s.mods && FindsFailed(s, e.decl.dependencies, 0) && exists w :: Waits(s)(w, e.id)
  }

  /** Looking at a dependency changes nothing about failed modules. */
  lemma LookPoisons(s: State, m: Id, d: Dependency, x: Dependency)
    requires m in s.mods && !s.mods[m].complete
    ensures Poisoned(Look(s, m, d), x) == Poisoned(s, x)
  {
    LookOneModule(s, m, d);
    hide Look;
  }

  /** Of all modules only m changes, and nothing about its end. */
  ghost predicate OneModule(s: State, r: State, m: Id)
    requires m in s.mods
  {
    && m in r.mods && r.mods == s.mods[m := r.mods[m]] && r.mods[m].complete == s.mods[m].complete
    && r.mods[m].error == s.mods[m].error && r.mods[m].errorback == s.mods[m].errorback
  }

  lemma CountingIsOne(s: State, m: Id, d: Dependency)
    requires m in s.mods
    ensures OneModule(s, Drop(s, m), m) && OneModule(s, SkipSpecial(s, m, d), m)
  {
  }

  lemma BreakingIsOne(s: State, m: Id, d: Dependency)
    requires m in s.mods
    ensures OneModule(s, BreakCycle(s, m, d), m)
  {
    hide PrintedPath;
  }

  lemma AwaitingIsOne(s: State, m: Id, d: Dependency)
    requires m in s.mods
    ensures OneModule(s, Fetch(AddWaiter(s, m, d.Target()), d), m)
  {
    FetchSame(AddWaiter(s, m, d.Target()), d);
    hide Fetch;
  }

  lemma LookOneModule(s: State, m: Id, d: Dependency)
    requires m in s.mods && !s.mods[m].complete
    ensures var r := Look(s, m, d);
            && m in r.mods && r.mods == s.mods[m := r.mods[m]] && !r.mods[m].complete
            && r.mods[m].error == s.mods[m].error && r.mods[m].errorback == s.mods[m].errorback
  {
    CountingIsOne(s, m, d);
    BreakingIsOne(s, m, d);
    AwaitingIsOne(s, m, d);
    hide Drop, SkipSpecial, BreakCycle, Fetch, AddWaiter, Deps, Joined;
  }

  lemma {:induction false} ResolveFails(s: State, m: Id, deps: seq<Dependency>, i: nat)
    requires Linked(s) && QueuesHoldPlugins(s) && Resolving(s, m, i) && deps == s.declared[m].dependencies
    ensures FailedEarly(Resolve(s, m, deps, i), m) <==> FindsFailed(s, deps, i)
    decreases |deps| - i, 1
  {
    hide *;
    Parts(s, m, i);
    ResolveUnfolds(s, m, deps, i);
    FindsAtOnce(s, deps, i);
    if i == |deps| {
      NotFailedYet(s, m);
      if s.mods[m].unresolved == 0 {
        CompleteDoesNotFail(s, m);
      }
    } else if Poisoned(s, deps[i]) {
      WaitingHasDependencies(s, m, i);
      FailFails(s, m, s.mods[deps[i].Target()].error.value);
    } else {
      ResolveFailsOn(s, m, deps, i);
    }
  }

  lemma {:induction false} ResolveFailsOn(s: State, m: Id, deps: seq<Dependency>, i: nat)
    requires Linked(s) && QueuesHoldPlugins(s) && Resolving(s, m, i) && deps == s.declared[m].dependencies
    requires i < |deps| && !Poisoned(s, deps[i])
    ensures FailedEarly(Resolve(s, m, deps, i), m) <==> FindsFailed(s, deps, i)
    decreases |deps| - i, 0
  {
    hide *;
    Parts(s, m, i);
    ResolveUnfolds(s, m, deps, i);
    var r := Look(s, m, deps[i]);
    WaitingIsIncomplete(s, m);
    forall x ensures Poisoned(r, x) == Poisoned(s, x) {
      LookPoisons(s, m, deps[i], x);
    }
    FindsTheSame(s, r, deps, i);
    LookKeeps(s, m, i);
    LookShape(s, m, deps[i]);
    ResolveFails(r, m, deps, i + 1);
  }

  lemma WaitingIsIncomplete(s: State, m: Id)
    requires Waiting(s, m)
    ensures m in s.mods && !s.mods[m].complete
  {
  }

  lemma NotFailedYet(s: State, m: Id)
    requires Waiting(s, m)
    ensures !FailedEarly(s, m)
  {
  }

  lemma FailFails(s: State, m: Id, error: Error)
    requires m in s.mods && s.mods[m].dependencies.Some?
    ensures FailedEarly(Fail(s, m, error), m)
  {
  }

  lemma CompleteDoesNotFail(s: State, m: Id)
    requires Linked(s) && QueuesHoldPlugins(s) && m in s.mods && !FailedEarly(s, m)
    ensures !FailedEarly(Complete(s, m), m)
  {
    hide *;
    CompleteSteps(s, m, m + 1);
    StepsFail(s, Complete(s, m), m + 1, m);
  }

  lemma StepsFail(s: State, r: State, m: Id, d: Id)
    requires Steps(s, r, m) && d != m && !FailedEarly(s, d)
    ensures !FailedEarly(r, d)
  {
  }

  /** A `define` call of a new module fails it if and only if one of its dependencies has failed before. */
  lemma FailsIfOneHasFailed(s: State, e: Event)
    requires AtRest(s) && Enabled(s, e) && e.DefineCall? && e.id !in s.mods
    ensures FailedEarly(Step(s, e), e.id) <==> FindsFailed(s, e.decl.dependencies, 0)
  {
    StepIsResolve(s, e);
    var r := Declared(s, e);
    PoisonedWhenDeclared(s, e);
    hide *;
    ResolveFails(r, e.id, e.decl.dependencies, 0);
  }

  lemma PoisonedWhenDeclared(s: State, e: Event)
    requires e.DefineCall? && e.id !in s.mods
    ensures FindsFailed(Declared(s, e), e.decl.dependencies, 0) == FindsFailed(s, e.decl.dependencies, 0)
  {
    forall x ensures Poisoned(Declared(s, e), x) == Poisoned(s, x) {
    }
    hide Poisoned, Declared;
  }

  // ---- nothing else does ------------------------------------------------------------------------------

  lemma WaitedBefore(s: State, r: State, m: Id, x: Id, d: Id)
    requires AtRest(s) && Steps(s, r, m) && m !in s.mods
    requires Waits(r)(x, d) && FailedEarly(r, d)
    ensures Waits(s)(x, d) && (FailedEarly(s, d) || d == m)
  {
    assert x in WaitersOf(s, d);
    var k :| 0 <= k < |s.waiters[d]| && s.waiters[d][k] == x;
    assert x in s.mods;
  }

  lemma InOrderToo(s: State, order: seq<Id>, id: Id, x: Id, d: Id)
    requires (forall m :: m in order <==> Reaches(s, id, m)) && d in order && x in WaitersOf(s, d)
    ensures x in order
  {
    hide Reaches;
    assert Reaches(s, id, d);
    ReachesNext(s, id, d, x);
  }

  lemma LoadErrorLeavesNone(s: State, id: Id, cause: int, x: Id, d: Id)
    requires Linked(s)
    requires var r := LoadFailed(s, id, cause); Waits(r)(x, d) && FailedEarly(r, d)
    ensures Waits(s)(x, d) && FailedEarly(s, d)
  {
    hide LoadFailed, Reaches, LoadErrorOf, Linked;
    var order := LoadErrorClosure(s, id, cause);
    ClosureLeaves(s, LoadFailed(s, id, cause), id, LoadErrorOf(s, id, cause), order, x, d);
  }

  lemma ClosureLeaves(s: State, r: State, id: Id, error: Error, order: seq<Id>, x: Id, d: Id)
    requires (forall m :: m in order <==> Reaches(s, id, m)) && ClosureFailed(s, r, id, error, order)
    requires Waits(r)(x, d) && FailedEarly(r, d)
    ensures Waits(s)(x, d) && FailedEarly(s, d)
  {
    assert r.waiters == s.waiters;
    assert Reaches(s, id, id);
    hide Reaches, FailureNotes, OneHandles;
    assert x in WaitersOf(s, d) && x !in order && x in s.mods;
    if d in order {
      InOrderToo(s, order, id, x, d);
    }
    assert d in s.mods && r.mods[d] == s.mods[d] && r.mods[x] == s.mods[x];
  }

  /** The k-th call fails its module while somebody waits for it. */
  ghost predicate StrandsAt(events: seq<Event>, states: seq<State>, k: int)
    requires |states| == |events| + 1 && 0 <= k < |events|
  {
    Strands(states[k], events[k])
  }

  /** And w is one of those who wait. */
  ghost predicate StrandedBy(events: seq<Event>, states: seq<State>, k: int, w: Id)
    requires |states| == |events| + 1 && 0 <= k < |events|
  {
    Strands(states[k], events[k]) && Waits(states[k])(w, events[k].id)
  }

  lemma LastLeads(events: seq<Event>, states: seq<State>)
    requires History(INITIAL, events, states) && events != []
    ensures var n := |events| - 1; History(INITIAL, events[..n], states[..n + 1]) && Leads(states[n], events[n], states[n + 1])
  {
    hide Leads;
    var n := |events| - 1;
    assert forall k :: 0 <= k < n ==> events[..n][k] == events[k];
    assert Leads(states[n], events[n], states[n + 1]);
  }

  lemma WaitStepsBack(s: State, e: Event, r: State, x: Id, d: Id)
    requires Leads(s, e, r) && Waits(r)(x, d) && FailedEarly(r, d)
    ensures Waits(s)(x, d) && (FailedEarly(s, d) || (Strands(s, e) && d == e.id))
  {
    InvGivesShape(s, multiset{}, 0, 0, {});
    match e
    case DefineCall(m, decl, errorback, nextId) =>
      DefineSteps(s, m, decl, errorback, nextId);
      if m in s.mods {
        assert r == s.(nextId := nextId);
      } else {
        FailsIfOneHasFailed(s, e);
        hide AtRest, Steps, Define, Enabled, FindsFailed, FailedEarly;
        WaitedBefore(s, r, m, x, d);
      }
    case LoadError(id, cause) =>
      hide AtRest, Waits, FailedEarly, LoadFailed;
      LoadErrorLeavesNone(s, id, cause, x, d);
  }

  lemma NobodyWaitsAtFirst(events: seq<Event>, states: seq<State>, x: Id, d: Id)
    requires History(INITIAL, events, states) && events == []
    ensures !Waits(states[0])(x, d)
  {
  }

  lemma LastStrands(events: seq<Event>, states: seq<State>, w: Id)
    requires |states| == |events| + 1 && events != []
    requires Strands(states[|events| - 1], events[|events| - 1]) && Waits(states[|events| - 1])(w, events[|events| - 1].id)
    ensures StrandedBy(events, states, |events| - 1, w)
  {
    hide Strands, Waits;
  }

  lemma StrandsEarlier(events: seq<Event>, states: seq<State>, k: nat, w: Id)
    requires |states| == |events| + 1 && k < |events| - 1
    requires StrandedBy(events[..|events| - 1], states[..|events|], k, w)
    ensures StrandedBy(events, states, k, w)
  {
    hide Strands, Waits;
  }

  /**
   In any run, if somebody waits for a failed module, the `define` call of that module stranded it: the
   call found a failed dependency while its module was waited for.
   */
  lemma {:induction false} WaitsForFailedWereStranded(events: seq<Event>, states: seq<State>, x: Id, d: Id) returns (k: nat)
    requires History(INITIAL, events, states) && Waits(states[|events|])(x, d) && FailedEarly(states[|events|], d)
    ensures k < |events| && StrandedBy(events, states, k, x) && events[k].id == d
    decreases |events|
  {
    hide *;
    StatesOf(INITIAL, events, states);
    if events == [] {
      NobodyWaitsAtFirst(events, states, x, d);
      assert false;
    }
    var n := |events| - 1;
    LastLeads(events, states);
    WaitStepsBack(states[n], events[n], states[n + 1], x, d);
    if FailedEarly(states[n], d) {
      k := WaitsForFailedWereStranded(events[..n], states[..n + 1], x, d);
      StrandsEarlier(events, states, k, x);
    } else {
      k := n;
      LastStrands(events, states, x);
    }
  }

  /** w waits for m, which has failed. */
  ghost predicate Stranded(s: State, w: Id, m: Id) {
    Waits(s)(w, m) && FailedEarly(s, m)
  }

  // ---- only a load failure gets at who is stranded -------------------------------------------------------

  /** A load failure after the k-th call spread to w. */
  ghost predicate ReachedLater(events: seq<Event>, states: seq<State>, k: nat, w: Id)
    requires |states| == |events| + 1
  {
    exists j :: k < j < |events| && events[j].LoadError? && Reaches(states[j], events[j].id, w)
  }

  lemma FailedStays(s: State, r: State, d: Id)
    requires Grows(s, r) && FailedEarly(s, d)
    ensures FailedEarly(r, d)
  {
  }

  lemma StaysOnFailedList(s: State, r: State, final: State, m: Id, w: Id, d: Id)
    requires Steps(s, r, m) && AtRest(final) && Grows(r, final) && Waits(s)(w, d) && w != m && FailedEarly(r, d)
    ensures Waiting(r, w) || FailedEarly(r, w)
    ensures !Done(final, w)
  {
    GrowsAgain(s, r, final);
    StillOnTheList(s, final, w, d);
    hide AtRest, Touches;
    assert w in s.mods && w in r.mods && !Done(r, w);
    assert r.mods[w].complete ==> r.mods[w].dependencies.Some?;
  }

  /** Who is stranded keeps waiting behind the call, and never completes normally. */
  lemma StrandedStays(s: State, e: Event, r: State, final: State, w: Id)
    requires Leads(s, e, r) && AtRest(final) && Grows(r, final) && Strands(s, e) && Waits(s)(w, e.id)
    ensures Waiting(r, w) && !Done(final, w)
  {
    DefineSteps(s, e.id, e.decl, e.errorback, e.nextId);
    FailsIfOneHasFailed(s, e);
    hide AtRest, Grows, Strands, Enabled, FindsFailed, QueuesOf, WarnsOf, FailsOf;
    assert w != e.id && !FailedEarly(s, w);
    StaysOnFailedList(s, r, final, e.id, w, e.id);
  }

  /** Only a load failure that spreads to a waiting module makes it complete without its factory. */
  lemma OnlyLoadErrorsFail(s: State, e: Event, r: State, w: Id)
    requires Leads(s, e, r) && Waiting(s, w) && !Waiting(r, w) && !Done(r, w) && w in r.mods
    ensures e.LoadError? && Reaches(s, e.id, w)
  {
    InvGivesShape(s, multiset{}, 0, 0, {});
    assert FailedEarly(r, w);
    match e
    case DefineCall(m, decl, errorback, nextId) =>
      DefineSteps(s, m, decl, errorback, nextId);
      hide AtRest, Grows, QueuesOf, WarnsOf, FailsOf;
    case LoadError(id, cause) =>
      hide AtRest, LoadFailed, Reaches, LoadErrorOf, Linked, FailureNotes, OneHandles;
      var order := LoadErrorClosure(s, id, cause);
  }

  lemma ReachedIsComplete(s: State, e: Event, r: State, w: Id)
    requires Leads(s, e, r) && e.LoadError? && Reaches(s, e.id, w) && w in s.mods
    ensures w in r.mods && !Waiting(r, w)
  {
    InvGivesShape(s, multiset{}, 0, 0, {});
    hide AtRest, LoadFailed, Reaches, LoadErrorOf, Linked;
    var order := LoadErrorClosure(s, e.id, e.cause);
  }

  lemma {:induction false} FailedOnTheWay(events: seq<Event>, states: seq<State>, i: nat, n: nat, w: Id) returns (j: nat)
    requires History(INITIAL, events, states) && i <= n <= |events| && |states| == |events| + 1
    requires Waiting(states[i], w) && !Waiting(states[n], w) && !Done(states[n], w)
    ensures i <= j < n && events[j].LoadError? && Reaches(states[j], events[j].id, w)
    decreases n - i
  {
    hide *;
    if i == n {
      assert false;
    }
    CallAt(INITIAL, events, states, n - 1);
    StatesGrow(INITIAL, events, states, i, n - 1);
    StatesGrow(INITIAL, events, states, n - 1, n);
    StillThere(states[i], states[n - 1], states[n], w);
    if Waiting(states[n - 1], w) {
      j := n - 1;
      OnlyLoadErrorsFail(states[j], events[j], states[n], w);
    } else {
      j := FailedOnTheWay(events, states, i, n - 1, w);
    }
  }

  lemma StillThere(s: State, r: State, t: State, w: Id)
    requires Waiting(s, w) && Grows(s, r) && Grows(r, t) && !Done(t, w)
    ensures w in r.mods && w in t.mods && !Done(r, w)
  {
  }

  lemma CompleteStaysComplete(s: State, r: State, w: Id)
    requires w in s.mods && !Waiting(s, w) && Grows(s, r)
    ensures !Waiting(r, w)
  {
  }

  /** Whoever is stranded and complete in the end was reached by a load failure. */
  lemma CompleteMeansReached(events: seq<Event>, states: seq<State>, k: nat, w: Id)
    requires History(INITIAL, events, states) && |states| == |events| + 1 && k < |events|
    requires StrandedBy(events, states, k, w) && !Waiting(states[|events|], w)
    ensures ReachedLater(events, states, k, w)
  {
    var s, e, r, final := states[k], events[k], states[k + 1], states[|events|];
    assert Strands(s, e) && Waits(s)(w, e.id);
    hide History, Strands, Waits, Run, Waiting, Reaches;
    CallAt(INITIAL, events, states, k);
    StatesGrow(INITIAL, events, states, k + 1, |events|);
    RunTo(events, states, |events|);
    RunsAtRest(events[..|events|], final);
    hide Leads, AtRest, Grows, Done;
    StrandedStays(s, e, r, final, w);
    var j := FailedOnTheWay(events, states, k + 1, |events|, w);
  }

  lemma LaterCall(events: seq<Event>, states: seq<State>, k: nat, w: Id) returns (j: nat)
    requires |states| == |events| + 1 && ReachedLater(events, states, k, w)
    ensures k < j < |events| && events[j].LoadError? && Reaches(states[j], events[j].id, w)
  {
    hide Reaches;
    j :| k < j < |events| && events[j].LoadError? && Reaches(states[j], events[j].id, w);
  }

  lemma StrandedIsThere(events: seq<Event>, states: seq<State>, k: nat, w: Id)
    requires |states| == |events| + 1 && k < |events| && StrandedBy(events, states, k, w)
    ensures w in states[k].mods
  {
  }

  lemma StaysThere(s: State, r: State, w: Id)
    requires Grows(s, r) && w in s.mods
    ensures w in r.mods
  {
  }

  lemma ReachedMeansComplete(events: seq<Event>, states: seq<State>, k: nat, w: Id)
    requires History(INITIAL, events, states) && |states| == |events| + 1 && k < |events|
    requires StrandedBy(events, states, k, w) && ReachedLater(events, states, k, w)
    ensures !Waiting(states[|events|], w)
  {
    hide *;
    var j := LaterCall(events, states, k, w);
    StrandedIsThere(events, states, k, w);
    CallAt(INITIAL, events, states, j);
    StatesGrow(INITIAL, events, states, k, j);
    StatesGrow(INITIAL, events, states, j + 1, |events|);
    StaysThere(states[k], states[j], w);
    ReachedIsComplete(states[j], events[j], states[j + 1], w);
    CompleteStaysComplete(states[j + 1], states[|events|], w);
  }

  /**
   The exact condition, for every run: with all requests answered, everything is complete if and only if
   every module that a call stranded, by failing what it waits for, was reached by a later load failure.
   */
  lemma StrandingIsExact(events: seq<Event>, states: seq<State>)
    requires History(INITIAL, events, states) && |states| == |events| + 1 && Answered(states[|events|])
    ensures (forall m :: m in states[|events|].mods ==> states[|events|].mods[m].complete)
            <==> forall k, w :: 0 <= k < |events| && StrandedBy(events, states, k, w) ==> ReachedLater(events, states, k, w)
  {
    var s := states[|events|];
    RunTo(events, states, |events|);
    hide History, Run, StrandedBy, ReachedLater, Answered;
    AllRequestsAnswered(events[..|events|], s);
    if forall m :: m in s.mods ==> s.mods[m].complete {
      forall k: nat, w | k < |events| && StrandedBy(events, states, k, w) ensures ReachedLater(events, states, k, w) {
        CompleteMeansReached(events, states, k, w);
      }
    } else {
      var x, d :| Waits(s)(x, d) && FailedEarly(s, d);
      var k := WaitsForFailedWereStranded(events, states, x, d);
      if ReachedLater(events, states, k, x) {
        ReachedMeansComplete(events, states, k, x);
      }
    }
  }

  ghost predicate AllDefines(events: seq<Event>) {
    forall k :: 0 <= k < |events| ==> events[k].DefineCall?
  }

  lemma StrandsSomebody(events: seq<Event>, states: seq<State>, k: nat)
    requires |states| == |events| + 1 && k < |events|
    ensures StrandsAt(events, states, k) <==> exists w :: StrandedBy(events, states, k, w)
  {
    hide FindsFailed, Waits;
    if StrandsAt(events, states, k) {
      var w :| Waits(states[k])(w, events[k].id);
      assert StrandedBy(events, states, k, w);
    }
  }

  lemma NoLoadErrors(events: seq<Event>, states: seq<State>, k: nat, w: Id)
    requires |states| == |events| + 1 && AllDefines(events)
    ensures !ReachedLater(events, states, k, w)
  {
    hide Reaches;
  }

  /** In a run of `define` calls alone, everything is complete if and only if no call stranded anybody. */
  lemma DefinesCompleteUnlessStranded(events: seq<Event>, states: seq<State>)
    requires History(INITIAL, events, states) && |states| == |events| + 1 && Answered(states[|events|]) && AllDefines(events)
    ensures (forall m :: m in states[|events|].mods ==> states[|events|].mods[m].complete)
            <==> forall k :: 0 <= k < |events| ==> !StrandsAt(events, states, k)
  {
    hide *;
    StrandingIsExact(events, states);
    forall k: nat, w | k < |events| ensures !ReachedLater(events, states, k, w) {
      NoLoadErrors(events, states, k, w);
    }
    forall k: nat | k < |events| ensures StrandsAt(events, states, k) <==> exists w :: StrandedBy(events, states, k, w) {
      StrandsSomebody(events, states, k);
    }
    if w, k :| 0 <= k < |events| && StrandedBy(events, states, k, w) {
      assert StrandsAt(events, states, k) && !ReachedLater(events, states, k, w);
    }
  }

  /** In any run in which all requests are answered and no call stranded anybody, everything is complete. */
  lemma UnstrandedCompletes(events: seq<Event>, states: seq<State>)
    requires History(INITIAL, events, states) && |states| == |events| + 1 && Answered(states[|events|])
    requires forall k :: 0 <= k < |events| ==> !StrandsAt(events, states, k)
    ensures forall m :: m in states[|events|].mods ==> states[|events|].mods[m].complete
  {
    StrandingIsExact(events, states);
    hide History, Answered, StrandsAt, StrandedBy;
    forall k: nat, w | k < |events| ensures !StrandedBy(events, states, k, w) {
      StrandsSomebody(events, states, k);
    }
  }
}

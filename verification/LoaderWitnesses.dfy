/** Short runs, step by step: what the module manager does at the inputs that decide a theorem. */
module LoaderWitnesses {
  import opened Options
  import opened Graphs
  import opened LoaderState
  import opened LoaderInvariant
  import opened LoadErrors
  import opened LoaderRuns
  import opened LoaderProgress
  import opened LoaderStranding
  import opened LoaderPlugins
  import opened LoaderHistory
  import opened LoaderGrowth
  import opened LoaderCycles
  import opened LoaderOrder

  const THROWER: Callback := Factory(args => FactoryRun(Threw(1), EmptyObject))

  /** The declaration of a module that exports nothing. */
  function Plain(deps: seq<Dependency>): Declaration {
    Declaration("plain", deps, NoCallback)
  }

  // ---- single calls -----------------------------------------------------------------------------

  /** Without waiters and resources a completion is only that of the module itself. */
  lemma CompletesAlone(s: State, m: Id)
    requires m in s.mods && !s.mods[m].complete && Linked(s) && QueuesHoldPlugins(s)
    requires m !in s.waiters && m !in s.pluginWaiters
    ensures Complete(s, m) == Finished(s, m)
  {
    FinishedSmaller(s, m);
    var f := Finished(s, m);
    hide Finished, Linked;
    assert WaitersOf(s, m) == [] && QueueOf(f, m) == [];
    assert Notify(f, []) == f;
    assert f.pluginWaiters - {m} == f.pluginWaiters;
  }

  /** From s to r, only module m and the log are new. */
  ghost predicate OnlyModule(s: State, r: State, m: Id, decl: Declaration) {
    && m !in s.mods && m in r.mods && r.mods == s.mods[m := r.mods[m]] && r.declared == s.declared[m := decl]
    && r == s.(mods := r.mods, declared := r.declared, log := r.log)
  }

  /** m has nobody waiting for it. */
  ghost predicate Unwanted(s: State, m: Id) {
    m !in s.mods && m !in s.waiters && m !in s.pluginWaiters
  }

  /** A `define` call of a new module, up to the first dependency. */
  lemma StepResolves(s: State, m: Id, decl: Declaration)
    requires AtRest(s) && FIRST_FREE_ID <= m < s.nextId && m !in s.mods
    requires forall k :: 0 <= k < |decl.dependencies| ==> decl.dependencies[k].Below(s.nextId)
    ensures var x := Declare(s, m, decl, false);
            var e := DefineCall(m, decl, false, s.nextId);
            && Linked(x) && QueuesHoldPlugins(x) && m in x.mods && Enabled(s, e)
            && Step(s, e) == Resolve(x, m, decl.dependencies, 0)
  {
    InvGivesShape(s, multiset{}, 0, 0, {});
    hide AtRest, Resolve;
    var x := Declare(s, m, decl, false);
    assert s.(nextId := s.nextId) == s;
    assert Linked(x) && QueuesHoldPlugins(x);
  }

  /** What a completion leaves, with a callback that does nothing or throws. */
  lemma FinishedPlainly(s: State, m: Id)
    requires Waiting(s, m) && m !in s.waiters && s.mods[m].error.None? && s.mods[m].exports == EmptyObject
    requires s.mods[m].callback == NoCallback || s.mods[m].callback == THROWER
    ensures var r := Finished(s, m);
            && Done(r, m) && r.mods == s.mods[m := r.mods[m]] && r == s.(mods := r.mods, log := r.log)
            && (s.mods[m].callback == NoCallback ==>
                  r.mods[m].error.None? && r.log == s.log + [Completed(m, Arguments(s, m), EmptyObject)])
            && (s.mods[m].callback == THROWER ==> r.mods[m].error.Some?)
  {
    hide Arguments;
    assert s.waiters - {m} == s.waiters;
  }

  /** A module without dependencies completes at once. */
  lemma LeafCompletes(s: State, m: Id, callback: Callback)
    requires AtRest(s) && FIRST_FREE_ID <= m < s.nextId && Unwanted(s, m) && (callback == NoCallback || callback == THROWER)
    ensures var decl := Declaration("leaf", [], callback);
            var e := DefineCall(m, decl, false, s.nextId);
            && Enabled(s, e) && OnlyModule(s, Step(s, e), m, decl) && Done(Step(s, e), m)
            && (callback == NoCallback ==>
                  Step(s, e).mods[m].error.None? && Step(s, e).log == s.log + [Completed(m, [], EmptyObject)])
            && (callback == THROWER ==> Step(s, e).mods[m].error.Some?)
  {
    var decl := Declaration("leaf", [], callback);
    hide AtRest, Step, Enabled, Complete, Resolve, Linked, QueuesHoldPlugins, Finished, Done;
    StepResolves(s, m, decl);
    var x := Declare(s, m, decl, false);
    ResolveUnfolds(x, m, [], 0);
    CompletesAlone(x, m);
    FinishedPlainly(x, m);
    assert Arguments(x, m) == [];
  }

  /** A module whose only dependency is done completes at once. */
  lemma ReadyCompletes(s: State, m: Id, d: Id)
    requires AtRest(s) && FIRST_FREE_ID <= m < s.nextId && Unwanted(s, m) && Done(s, d) && s.mods[d].error.None?
    requires d < s.nextId
    ensures var decl := Plain([Regular(d)]);
            var e := DefineCall(m, decl, false, s.nextId);
            && Enabled(s, e) && OnlyModule(s, Step(s, e), m, decl) && Done(Step(s, e), m)
            && Step(s, e).mods[m].error.None?
            && Step(s, e).log == s.log + [Completed(m, [s.mods[d].exports], EmptyObject)]
  {
    var deps := [Regular(d)];
    var decl := Plain(deps);
    hide AtRest, Step, Enabled, Complete, Resolve, Linked, QueuesHoldPlugins, Finished;
    StepResolves(s, m, decl);
    var x := Declare(s, m, decl, false);
    ResolveUnfolds(x, m, deps, 0);
    var y := Drop(x, m);
    assert Look(x, m, deps[0]) == y;
    hide Look;
    ResolveUnfolds(y, m, deps, 1);
    CompletesAlone(y, m);
    FinishedPlainly(y, m);
    assert Arguments(y, m) == [s.mods[d].exports];
    hide Done;
  }

  /** A module whose first dependency has failed is failed as well, and nothing else happens. */
  lemma PoisonedFails(s: State, m: Id, deps: seq<Dependency>)
    requires AtRest(s) && FIRST_FREE_ID <= m < s.nextId && m !in s.mods && deps != [] && Poisoned(s, deps[0])
    requires forall k :: 0 <= k < |deps| ==> deps[k].Below(s.nextId)
    ensures var decl := Plain(deps);
            var e := DefineCall(m, decl, false, s.nextId);
            Enabled(s, e) && OnlyModule(s, Step(s, e), m, decl) && FailedEarly(Step(s, e), m)
  {
    var decl := Plain(deps);
    hide AtRest, Step, Enabled, Resolve, Linked, QueuesHoldPlugins;
    StepResolves(s, m, decl);
    ResolveUnfolds(Declare(s, m, decl, false), m, deps, 0);
  }

  /** A module that needs an unknown id waits for it. */
  lemma UnknownIsAwaited(s: State, m: Id, d: Id)
    requires AtRest(s) && FIRST_FREE_ID <= m < s.nextId && m !in s.mods && d < s.nextId && d != m
    requires d !in s.mods && d !in s.known && d !in s.waiters
    ensures var decl := Plain([Regular(d)]);
            var e := DefineCall(m, decl, false, s.nextId);
            var r := Step(s, e);
            && Enabled(s, e) && Waiting(r, m) && r.mods == s.mods[m := NewModule(decl, false)]
            && r == s.(mods := r.mods, declared := s.declared[m := decl], known := s.known + {d}, log := r.log,
                       waiters := s.waiters[d := [m]])
  {
    var deps := [Regular(d)];
    var decl := Plain(deps);
    hide AtRest, Step, Enabled, Resolve, Linked, QueuesHoldPlugins;
    StepResolves(s, m, decl);
    var x := Declare(s, m, decl, false);
    ResolveUnfolds(x, m, deps, 0);
    if Joined(Deps(x), d, m) {
      var _ := JoinedHasFirstEdge(Deps(x), d, m);
    }
    var one: seq<Id> := [m];
    assert WaitersOf(x, d) + one == one;
    var y := Look(x, m, deps[0]);
    assert y == LoadModule(AddWaiter(x, m, d), d);
    ResolveUnfolds(y, m, deps, 1);
    hide Look;
  }

  /** A load is reported as failed of a module that is done and waited for by nobody. */
  lemma DoneFails(s: State, id: Id)
    requires AtRest(s) && Done(s, id) && id !in s.waiters && id < s.nextId
    ensures var r := Step(s, LoadError(id, 1));
            && Enabled(s, LoadError(id, 1)) && r == s.(mods := r.mods, log := r.log)
            && r.mods.Keys == s.mods.Keys && (forall m :: m in s.mods && m != id ==> r.mods[m] == s.mods[m])
            && |r.log| > |s.log| && r.log[..|s.log|] == s.log && r.log[|s.log|].Failed? && r.log[|s.log|].id == id
  {
    InvGivesShape(s, multiset{}, 0, 0, {});
    hide AtRest, LoadFailed, Reaches, ClosureFailed, Linked;
    var order := LoadErrorClosure(s, id, 1);
    forall m ensures Reaches(s, id, m) <==> m == id {
      NobodyReached(s, id, m);
    }
    OnlyOneInOrder(order, id);
    ClosureOfOne(s, LoadFailed(s, id, 1), id, LoadErrorOf(s, id, 1));
  }

  lemma ClosureOfOne(s: State, r: State, id: Id, error: Error)
    requires ClosureFailed(s, r, id, error, [id]) && id in s.mods
    ensures r == s.(mods := r.mods, log := r.log)
    ensures r.mods.Keys == s.mods.Keys && forall m :: m in s.mods && m != id ==> r.mods[m] == s.mods[m]
    ensures |r.log| > |s.log| && r.log[..|s.log|] == s.log && r.log[|s.log|].Failed? && r.log[|s.log|].id == id
  {
    var notes := FailureNotes(s, [id], error);
    assert |notes| == 1 && notes[0].Failed? && notes[0].id == id;
    hide FailureNotes, OneHandles;
  }

  lemma NobodyReached(s: State, id: Id, m: Id)
    requires id !in s.waiters
    ensures Reaches(s, id, m) <==> m == id
  {
    if m != id && Joined(NeededBy(s), id, m) {
      var x := JoinedHasFirstEdge(NeededBy(s), id, m);
    }
  }

  lemma OnlyOneInOrder(order: seq<Id>, id: Id)
    requires Distinct(order) && forall m :: m in order <==> m == id
    ensures order == [id]
  {
    assert id in order;
    TailIn(order);
  }

  lemma TailIn(order: seq<Id>)
    ensures forall k :: 0 < k < |order| ==> order[k] in order[1..]
    ensures forall k :: 0 <= k < |order| ==> order[k] in order
  {
    forall k | 0 < k < |order| ensures order[k] in order[1..] {
      assert order[1..][k - 1] == order[k];
    }
  }

  // ---- runs -------------------------------------------------------------------------------------

  /** The empty manager, with three ids handed out. */
  const START := INITIAL.(nextId := 6)

  lemma SameFromStart(e: Event)
    requires e.DefineCall? && e.nextId == 6 && Enabled(START, e) && AtRest(INITIAL) && AtRest(START)
    ensures Enabled(INITIAL, e) && Step(INITIAL, e) == Step(START, e)
  {
    hide AtRest;
    assert START.(nextId := 6) == INITIAL.(nextId := 6);
  }

  lemma FirstEvent(events: seq<Event>)
    requires events != [] && events[0].DefineCall? && events[0].nextId == 6 && Enabled(START, events[0])
    ensures AtRest(START) && Run(events[..1], Step(START, events[0])) && AtRest(Step(START, events[0]))
  {
    hide *;
    var e := events[0];
    EmptyRun();
    StartAtRest();
    SameFromStart(e);
    OneMoreEvent([], INITIAL, e);
    assert [] + [e] == events[..1];
  }

  lemma NextEvent(events: seq<Event>, s: State, k: nat)
    requires k < |events| && Run(events[..k], s) && AtRest(s) && Enabled(s, events[k])
    ensures Run(events[..k + 1], Step(s, events[k])) && AtRest(Step(s, events[k]))
    ensures k + 1 == |events| ==> Run(events, Step(s, events[k]))
  {
    hide AtRest, Run, Enabled, Step;
    OneMoreEvent(events[..k], s, events[k]);
    assert events[..k] + [events[k]] == events[..k + 1];
    assert events[..|events|] == events;
  }

  lemma StartAtRest()
    ensures AtRest(START)
  {
    EmptyRun();
    NextIdGrows(INITIAL, 6);
  }

  const LEAF := Declaration("leaf", [], NoCallback)
  const THROWING := Declaration("leaf", [], THROWER)

  function Calling(m: Id, decl: Declaration): Event {
    DefineCall(m, decl, false, 6)
  }

  // ---- a module that waits for a failed one -----------------------------------------------------

  /** Module 3 needs 4; 5 throws; 4 needs 5 and is failed without a word to 3, which waits for it. */
  const STRANDING: seq<Event> := [Calling(3, Plain([Regular(4)])), Calling(5, THROWING), Calling(4, Plain([Regular(5)]))]

  ghost predicate OneWaits(s: State) {
    && s.nextId == 6 && s.mods.Keys == {3} && Waiting(s, 3)
    && s.known == {4} && s.waiters == map[4 := [3]] && s.pluginWaiters == map[]
  }

  ghost predicate OneWaitsOneThrew(s: State) {
    && s.nextId == 6 && s.mods.Keys == {3, 5} && Waiting(s, 3) && Poisoned(s, Regular(5))
    && s.known == {4} && s.waiters == map[4 := [3]] && s.pluginWaiters == map[]
  }

  ghost predicate OneIsStranded(s: State) {
    s.mods.Keys == {3, 4, 5} && Stranded(s, 3, 4) && Answered(s)
  }

  lemma FirstWaits(s: State)
    requires s == START && AtRest(s)
    ensures Enabled(s, STRANDING[0]) && OneWaits(Step(s, STRANDING[0]))
  {
    hide AtRest, Step, Enabled;
    UnknownIsAwaited(s, 3, 4);
  }

  lemma SecondThrows(s: State)
    requires OneWaits(s) && AtRest(s)
    ensures Enabled(s, STRANDING[1]) && OneWaitsOneThrew(Step(s, STRANDING[1]))
  {
    hide AtRest, Step, Enabled;
    LeafCompletes(s, 5, THROWER);
  }

  lemma ThirdIsFailed(s: State)
    requires OneWaitsOneThrew(s) && AtRest(s)
    ensures Enabled(s, STRANDING[2]) && OneIsStranded(Step(s, STRANDING[2]))
  {
    hide AtRest, Step, Enabled;
    PoisonedFails(s, 4, [Regular(5)]);
    var r := Step(s, STRANDING[2]);
    assert 3 in WaitersOf(r, 4);
    assert forall p :: QueueOf(r, p) == [];
  }

  /** Every request is answered and nothing failed to load, but module 3 waits, and whatever follows, it never completes. */
  lemma FactoryErrorsCanStrand() returns (s: State)
    ensures Run(STRANDING, s) && Answered(s) && Waiting(s, 3)
    ensures forall more, r :: Path(s, more, r) ==> !Done(r, 3)
  {
    hide AtRest, Run, Path, Enabled, Step, OneWaits, OneWaitsOneThrew, Answered, Plain;
    StartAtRest();
    FirstWaits(START);
    FirstEvent(STRANDING);
    var s1 := Step(START, STRANDING[0]);
    SecondThrows(s1);
    NextEvent(STRANDING, s1, 1);
    var s2 := Step(s1, STRANDING[1]);
    ThirdIsFailed(s2);
    NextEvent(STRANDING, s2, 2);
    s := Step(s2, STRANDING[2]);
    EdgeJoins(Waits(s), 3, 4);
    forall more, r | Path(s, more, r) ensures !Done(r, 3) {
      BlockedByFailureForever(s, more, r, 3, 4);
    }
  }

  // ---- a cycle that is never looked at ------------------------------------------------------------

  /** Module 5 throws; 4 needs 5 and itself, and is failed before the cycle is noticed. */
  const UNNOTICED: seq<Event> := [Calling(5, THROWING), Calling(4, Plain([Regular(5), Regular(4)]))]

  ghost predicate OneThrew(s: State) {
    s.nextId == 6 && s.mods.Keys == {5} && Poisoned(s, Regular(5)) && !s.cycle
  }

  lemma LeafThrows(s: State)
    requires s == START && AtRest(s)
    ensures Enabled(s, UNNOTICED[0]) && OneThrew(Step(s, UNNOTICED[0]))
  {
    hide AtRest, Step, Enabled;
    LeafCompletes(s, 5, THROWER);
  }

  lemma CycleIsSkipped(s: State)
    requires OneThrew(s) && AtRest(s)
    ensures var r := Step(s, UNNOTICED[1]);
            && Enabled(s, UNNOTICED[1]) && FailedEarly(r, 4) && !r.cycle
            && 4 in r.declared && r.declared[4].dependencies == [Regular(5), Regular(4)]
  {
    hide AtRest, Step, Enabled;
    PoisonedFails(s, 4, [Regular(5), Regular(4)]);
  }

  /** Why a module must not have failed early for the flag to be exact. */
  lemma FailuresCanHideCycles() returns (s: State)
    ensures Run(UNNOTICED, s) && !s.cycle && Cyclic(Declares(s.declared)) && FailedEarly(s, 4)
  {
    hide AtRest, Run, Path, Enabled, Step, OneThrew, FailedEarly, Cyclic, Declares, Plain;
    StartAtRest();
    LeafThrows(START);
    FirstEvent(UNNOTICED);
    var s1 := Step(START, UNNOTICED[0]);
    CycleIsSkipped(s1);
    NextEvent(UNNOTICED, s1, 1);
    s := Step(s1, UNNOTICED[1]);
    SelfDependency(s.declared, 4, 1);
  }

  lemma SelfDependency(declared: map<Id, Declaration>, m: Id, k: nat)
    requires m in declared && k < |declared[m].dependencies| && declared[m].dependencies[k].Target() == m
    ensures Cyclic(Declares(declared))
  {
    EdgeJoins(Declares(declared), m, m);
  }

  // ---- a failure that comes too late ----------------------------------------------------------------

  /** Modules 3 and 4, which needs 3, are complete when the load of 3 fails; 5, which needs 4, completes all the same. */
  const LATE: seq<Event> := [Calling(3, LEAF), Calling(4, Plain([Regular(3)])), LoadError(3, 1), Calling(5, Plain([Regular(4)]))]

  ghost predicate Sound(s: State, m: Id) {
    Done(s, m) && s.mods[m].error.None?
  }

  ghost predicate LateOne(s: State) {
    s == START.(mods := s.mods, declared := map[3 := LEAF], log := s.log) && s.mods.Keys == {3} && Sound(s, 3)
  }

  ghost predicate LateTwo(s: State) {
    && s == START.(mods := s.mods, declared := map[3 := LEAF, 4 := Plain([Regular(3)])], log := s.log)
    && s.mods.Keys == {3, 4} && Done(s, 3) && Sound(s, 4)
  }

  ghost predicate LateThree(s: State, f: nat) {
    && s == START.(mods := s.mods, declared := map[3 := LEAF, 4 := Plain([Regular(3)])], log := s.log)
    && s.mods.Keys == {3, 4} && Sound(s, 4)
    && f < |s.log| && s.log[f].Failed? && s.log[f].id == 3
  }

  lemma LateFirst(s: State)
    requires s == START && AtRest(s)
    ensures Enabled(s, LATE[0]) && LateOne(Step(s, LATE[0]))
  {
    hide AtRest, Step, Enabled;
    LeafCompletes(s, 3, NoCallback);
  }

  lemma LateSecond(s: State)
    requires LateOne(s) && AtRest(s)
    ensures Enabled(s, LATE[1]) && LateTwo(Step(s, LATE[1]))
  {
    hide AtRest, Step, Enabled;
    ReadyCompletes(s, 4, 3);
  }

  lemma LateThird(s: State)
    requires LateTwo(s) && AtRest(s)
    ensures Enabled(s, LATE[2]) && LateThree(Step(s, LATE[2]), |s.log|)
  {
    hide AtRest, Step, Enabled;
    DoneFails(s, 3);
  }

  lemma LateFourth(s: State, f: nat)
    requires LateThree(s, f) && AtRest(s)
    ensures Enabled(s, LATE[3])
    ensures var r := Step(s, LATE[3]);
            && |r.log| == |s.log| + 1 && f < |s.log| && r.log[f].Failed? && r.log[f].id == 3
            && r.log[|s.log|].Completed? && r.log[|s.log|].id == 5 && !r.cycle
            && r.declared == map[3 := LEAF, 4 := Plain([Regular(3)]), 5 := Plain([Regular(4)])]
  {
    hide AtRest, Step, Enabled;
    ReadyCompletes(s, 5, 4);
  }

  /** In this run module 5 completes after the load of module 3, on which it depends, was reported as failed. */
  lemma LateFailuresDoNotStopFactories() returns (s: State, k: nat, f: nat)
    ensures Run(LATE, s) && f < k < |s.log|
    ensures s.log[f].Failed? && s.log[f].id == 3 && s.log[k].Completed? && s.log[k].id == 5 && Joined(Kept(s), 5, 3)
  {
    hide AtRest, Run, Path, Enabled, Step, LateOne, LateTwo, LateThree, Kept, Joined, Plain;
    StartAtRest();
    LateFirst(START);
    FirstEvent(LATE);
    var s1 := Step(START, LATE[0]);
    LateSecond(s1);
    NextEvent(LATE, s1, 1);
    var s2 := Step(s1, LATE[1]);
    LateThird(s2);
    NextEvent(LATE, s2, 2);
    var s3 := Step(s2, LATE[2]);
    f, k := |s2.log|, |s3.log|;
    LateFourth(s3, f);
    NextEvent(LATE, s3, 3);
    s := Step(s3, LATE[3]);
    LateChain(s);
  }

  lemma LateChain(s: State)
    requires Run(LATE, s) && !s.cycle
    requires s.declared == map[3 := LEAF, 4 := Plain([Regular(3)]), 5 := Plain([Regular(4)])]
    ensures Joined(Kept(s), 5, 3)
  {
    hide Run;
    KeptWithoutFlag(LATE, s, 5, 4);
    KeptWithoutFlag(LATE, s, 4, 3);
    hide Kept;
    EdgeJoins(Kept(s), 5, 4);
    JoinThenEdge(Kept(s), 5, 4, 3);
  }

  lemma KeptWithoutFlag(events: seq<Event>, s: State, m: Id, d: Id)
    requires Run(events, s) && !s.cycle && m in s.declared && s.declared[m].dependencies == [Regular(d)]
    ensures Kept(s)(m, d)
  {
    hide Run;
    NoFlagNoWarning(events, s, d, m);
    assert s.declared[m].dependencies[0].Target() == d;
  }

  // ---- a plugin that needs what it provides -----------------------------------------------------------

  /** Module 3 depends on resource 4, which it provides itself. */
  const SELF_SERVING: seq<Event> := [Calling(3, Plain([Plugin(4, 3, "x")]))]

  lemma PluginWaitsForItself(s: State)
    requires s == START && AtRest(s)
    ensures var r := Step(s, SELF_SERVING[0]);
            && Enabled(s, SELF_SERVING[0]) && Waiting(r, 3) && r.mods.Keys == {3} && r.known == {} && r.log == []
            && Waits(r)(3, 4) && IsQueued(r, 4, 3) && r.declared.Keys == {3}
  {
    var d := Plugin(4, 3, "x");
    var deps := [d];
    var decl := Plain(deps);
    hide AtRest, Step, Enabled, Resolve, Linked, QueuesHoldPlugins;
    StepResolves(s, 3, decl);
    var x := Declare(s, 3, decl, false);
    ResolveUnfolds(x, 3, deps, 0);
    if Joined(Deps(x), 4, 3) {
      var _ := JoinedHasFirstEdge(Deps(x), 4, 3);
    }
    var y := Look(x, 3, d);
    assert y == LoadModule(Enqueue(AddWaiter(x, 3, 4), d), 3);
    ResolveUnfolds(y, 3, deps, 1);
    assert WaitersOf(y, 4)[0] == 3 && QueueOf(y, 3)[0] == d;
    hide Look;
  }

  /** What is declared later has been called for. */
  lemma {:induction false} DeclaredByCalls(s: State, events: seq<Event>, r: State, id: Id)
    requires Path(s, events, r) && id in r.declared
    ensures id in s.declared || exists k :: 0 <= k < |events| && events[k].DefineCall? && events[k].id == id
    decreases |events|
  {
    hide Path, Leads;
    if events == [] {
      OnlyOneEmptyPath(s, r);
    } else {
      var before := LastStepOfPath(s, events, r);
      var n := |events| - 1;
      LeadsDeclares(before, events[n], r);
      if id in before.declared {
        DeclaredByCalls(s, events[..n], before, id);
        assert forall k :: 0 <= k < n ==> events[..n][k] == events[k];
      }
    }
  }

  lemma LeadsDeclares(s: State, e: Event, r: State)
    requires Leads(s, e, r)
    ensures forall id :: id in r.declared ==> id in s.declared || (e.DefineCall? && e.id == id)
  {
    hide AtRest, Step, Enabled;
    StepDeclares(s, e);
  }

  ghost predicate NeverDefines(events: seq<Event>, id: Id) {
    forall k :: 0 <= k < |events| && events[k].DefineCall? ==> events[k].id != id
  }

  /** A module that waits for a resource never completes before somebody defines that resource. */
  lemma NeverWithoutResource(s: State, events: seq<Event>, r: State, m: Id, resource: Id)
    requires AtRest(s) && Path(s, events, r) && Waits(s)(m, resource) && resource !in s.declared
    requires NeverDefines(events, resource)
    ensures !Done(r, m)
  {
    hide AtRest, Path, Waits;
    PathAtRest(s, events, r);
    if resource in r.declared {
      DeclaredByCalls(s, events, r, resource);
      assert false;
    }
    OnlyDeclaredIsDone(r, resource);
    EdgeJoins(Waits(s), m, resource);
    NeverBeforeItsWait(s, events, r, m, resource);
  }

  lemma OnlyDeclaredIsDone(s: State, m: Id)
    requires AtRest(s)
    ensures Done(s, m) ==> m in s.declared
  {
    assert m in s.mods ==> ModOk(s, m, 0, 0);
  }

  /**
   The plugin waits for its own resource, which is not even requested, and does so in every
   continuation in which nobody else defines that resource.
   */
  lemma SelfServingPluginWaits() returns (s: State)
    ensures Run(SELF_SERVING, s) && Waiting(s, 3) && s.known == {} && s.mods.Keys == {3} && IsQueued(s, 4, 3)
    ensures forall more, r :: Path(s, more, r) && NeverDefines(more, 4) ==>
              !Done(r, 3)
  {
    hide AtRest, Run, Path, Enabled, Step, Plain, NeverDefines;
    StartAtRest();
    PluginWaitsForItself(START);
    FirstEvent(SELF_SERVING);
    assert SELF_SERVING[..1] == SELF_SERVING;
    s := Step(START, SELF_SERVING[0]);
    forall more, r | Path(s, more, r) && NeverDefines(more, 4)
      ensures !Done(r, 3)
    {
      NeverWithoutResource(s, more, r, 3, 4);
    }
  }
}

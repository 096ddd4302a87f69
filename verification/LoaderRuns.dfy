/** Whole runs of the module manager: any calls from outside, in any order. */
module LoaderRuns {
  import opened Options
  import opened Graphs
  import opened LoaderState
  import opened LoaderInvariant
  import opened LoaderSteps
  import opened LoaderCascade
  import opened LoaderResolve
  import opened LoadErrors

  /** A call from outside: a `define`, or the report that a script could not be loaded. */
  datatype Event =
    | DefineCall(id: Id, decl: Declaration, errorback: bool, nextId: nat)
    | LoadError(id: Id, cause: int)

  /** The ids an event mentions have been handed out, and no user module takes a reserved id. */
  ghost predicate Enabled(s: State, e: Event) {
    match e
    case DefineCall(id, decl, _, nextId) =>
      && s.nextId <= nextId && FIRST_FREE_ID <= id < nextId
      && forall k :: 0 <= k < |decl.dependencies| ==> decl.dependencies[k].Below(nextId)
    case LoadError(id, _) => id < s.nextId
  }

  ghost function Step(s: State, e: Event): State
    requires AtRest(s) && Enabled(s, e)
  {
    InvGivesShape(s, multiset{}, 0, 0, {});
    match e
    case DefineCall(id, decl, errorback, nextId) => Define(s, id, decl, errorback, nextId)
    case LoadError(id, cause) => LoadFailed(s, id, cause)
  }

  // ---- a new module -------------------------------------------------------------------------------

  lemma InitialAtRest()
    ensures AtRest(INITIAL)
  {
    assert forall a, b :: !Waits(INITIAL)(a, b);
    assert Ranked(Waits(INITIAL), (x: Id) => 0 as nat, 1);
    assert !HasWarning(INITIAL.log);
  }

  lemma NextIdGrows(s: State, n: nat)
    requires AtRest(s) && s.nextId <= n
    ensures AtRest(s.(nextId := n))
  {
    var r := s.(nextId := n);
    assert Ids(r) by {
      forall m, k | m in s.declared && 0 <= k < |s.declared[m].dependencies|
        ensures s.declared[m].dependencies[k].Below(n)
      {
        assert s.declared[m].dependencies[k].Below(s.nextId);
      }
    }
    assert Counted(r, multiset{}) by {
      MoreIdsSameWaiters(s.waiters, s.nextId, n);
      forall x | Waiting(r, x) ensures Waiting(s, x) {
      }
    }
    hide Ids, Counted;
    NextIdRest(s, n);
  }

  lemma NextIdRest(s: State, n: nat)
    requires ModsOk(s, 0, 0) && WaitersOk(s) && NothingReady(s, 0) && Settled(s, 0, 0)
    requires QueuesOk(s, {}) && Sought(s) && Links(s) && Layered(Waits(s))
    ensures var r := s.(nextId := n);
            && ModsOk(r, 0, 0) && WaitersOk(r) && NothingReady(r, 0) && Settled(r, 0, 0)
            && QueuesOk(r, {}) && Sought(r) && Links(r) && Layered(Waits(r))
  {
    var r := s.(nextId := n);
    RequestsShapeOnly(s, r);
    FewerWaits(s, r);
  }

  lemma RequestsShapeOnly(s: State, r: State)
    requires r == s.(nextId := r.nextId)
    requires ModsOk(s, 0, 0) && WaitersOk(s) && Settled(s, 0, 0) && Sought(s)
    ensures ModsOk(r, 0, 0) && WaitersOk(r) && Settled(r, 0, 0) && Sought(r)
  {
    forall m | m in r.mods ensures ModOk(r, m, 0, 0) {
      assert ModOk(s, m, 0, 0);
    }
    forall x, k | Waiting(r, x) && x in r.declared && 0 <= k < Reached(r, x, 0, 0)
      ensures SettledDep(r, x, r.declared[x].dependencies[k])
    {
      assert SettledDep(s, x, s.declared[x].dependencies[k]);
    }
    forall d | d in r.waiters && r.waiters[d] != [] ensures IsSought(r, d) {
      assert IsSought(s, d);
      assert Queued(s, d) ==> Queued(r, d);
    }
  }

  /** From s to r, module m is new and waits for nothing yet. */
  ghost predicate Declares1(s: State, r: State, m: Id, decl: Declaration) {
    && m !in s.mods && m !in s.declared && FIRST_FREE_ID <= m < s.nextId
    && (forall k :: 0 <= k < |decl.dependencies| ==> decl.dependencies[k].Below(s.nextId))
    && m in r.mods && r.mods == s.mods[m := r.mods[m]]
    && m in r.declared && r.declared == s.declared[m := decl]
    && r.mods[m] == NewModule(decl, r.mods[m].errorback)
    && r.nextId == s.nextId && r.known == s.known && r.waiters == s.waiters && r.pluginWaiters == s.pluginWaiters
    && r.log == s.log && r.cycle == s.cycle
  }

  lemma DeclareShape(s: State, r: State, m: Id, decl: Declaration)
    requires Declares1(s, r, m, decl) && Ids(s) && ModsOk(s, 0, 0) && WaitersOk(s)
    ensures Ids(r) && ModsOk(r, m, 0) && WaitersOk(r)
  {
    forall x | x in r.mods ensures ModOk(r, x, m, 0) {
      if x != m {
        assert ModOk(s, x, 0, 0);
      }
    }
  }

  lemma DeclareCounts(s: State, r: State, m: Id, decl: Declaration)
    requires Declares1(s, r, m, decl) && Ids(s) && ModsOk(s, 0, 0) && WaitersOk(s)
    requires Counted(s, multiset{}) && NothingReady(s, 0)
    ensures Counted(r, Left(m, |decl.dependencies|)) && NothingReady(r, m)
  {
    OnSomeList(s.waiters, s.nextId, m);
    assert AllWaiters(s.waiters, s.nextId)[m] == 0;
    forall x | Waiting(r, x) && x != m ensures Waiting(s, x) && x != 0 {
      assert ModOk(s, x, 0, 0);
    }
  }

  lemma DeclareRest(s: State, r: State, m: Id, decl: Declaration)
    requires Declares1(s, r, m, decl) && Settled(s, 0, 0) && QueuesOk(s, {}) && Sought(s) && Links(s) && Ids(s)
    ensures Settled(r, m, 0) && QueuesOk(r, {}) && Sought(r) && Links(r)
  {
    forall x, k | Waiting(r, x) && x in r.declared && 0 <= k < Reached(r, x, m, 0)
      ensures SettledDep(r, x, r.declared[x].dependencies[k])
    {
      assert Waiting(s, x);
      assert SettledDep(s, x, s.declared[x].dependencies[k]);
    }
    forall d | d in r.waiters && r.waiters[d] != [] ensures IsSought(r, d) {
      SoughtMore(s, r, d);
    }
  }

  lemma DeclareLayered(s: State, r: State, m: Id, decl: Declaration)
    requires Declares1(s, r, m, decl) && WaitersOk(s) && Layered(Waits(s))
    ensures Layered(Waits(r))
  {
    forall a, b | Waits(r)(a, b) ensures Waits(s)(a, b) {
      assert a in WaitersOf(s, b);
      var k :| 0 <= k < |s.waiters[b]| && s.waiters[b][k] == a;
      assert a in s.declared;
      assert Waiting(s, a);
    }
    NarrowerLayered(Waits(r), Waits(s));
  }

  lemma DeclareIs(s: State, m: Id, decl: Declaration, errorback: bool)
    requires Ids(s) && m !in s.mods && FIRST_FREE_ID <= m < s.nextId
    requires forall k :: 0 <= k < |decl.dependencies| ==> decl.dependencies[k].Below(s.nextId)
    ensures var r := Declare(s, m, decl, errorback);
            && Declares1(s, r, m, decl) && Waiting(r, m) && r.declared[m].dependencies == decl.dependencies
            && forall x :: x in s.declared ==> x in r.declared && r.declared[x] == s.declared[x]
  {
  }

  lemma DeclareKeeps(s: State, m: Id, decl: Declaration, errorback: bool)
    requires AtRest(s) && m !in s.mods && FIRST_FREE_ID <= m < s.nextId
    requires forall k :: 0 <= k < |decl.dependencies| ==> decl.dependencies[k].Below(s.nextId)
    ensures Resolving(Declare(s, m, decl, errorback), m, 0)
  {
    var r := Declare(s, m, decl, errorback);
    hide Ids, ModsOk, WaitersOk, Counted, NothingReady, Settled, QueuesOk, Sought, LogOk, Links, Layered, Waits, Declares1, Left;
    DeclareIs(s, m, decl, errorback);
    MoreDeclarations(s.log, s.declared, r.declared);
    DeclareShape(s, r, m, decl);
    DeclareCounts(s, r, m, decl);
    DeclareRest(s, r, m, decl);
    DeclareLayered(s, r, m, decl);
  }

  lemma DefineKeeps(s: State, m: Id, decl: Declaration, errorback: bool, nextId: nat)
    requires AtRest(s) && Enabled(s, DefineCall(m, decl, errorback, nextId))
    ensures Linked(s) && QueuesHoldPlugins(s)
    ensures AtRest(Define(s, m, decl, errorback, nextId))
  {
    InvGivesShape(s, multiset{}, 0, 0, {});
    var s0 := s.(nextId := nextId);
    NextIdGrows(s, nextId);
    if m !in s.mods {
      var s1 := Declare(s0, m, decl, errorback);
      hide AtRest, Resolving;
      DeclareKeeps(s0, m, decl, errorback);
      Parts(s1, m, 0);
      ResolveKeeps(s1, m, decl.dependencies, 0);
    }
  }

  /** The state in which a new module is about to be resolved. */
  function Declared(s: State, e: Event): State
    requires e.DefineCall?
  {
    Declare(s.(nextId := e.nextId), e.id, e.decl, e.errorback)
  }

  lemma StepIsResolve(s: State, e: Event)
    requires AtRest(s) && Enabled(s, e) && e.DefineCall? && e.id !in s.mods
    ensures var r := Declared(s, e);
            && Linked(r) && QueuesHoldPlugins(r) && Resolving(r, e.id, 0) && e.decl.dependencies == r.declared[e.id].dependencies
            && Step(s, e) == Resolve(r, e.id, e.decl.dependencies, 0)
  {
    var r := Declared(s, e);
    NextIdGrows(s, e.nextId);
    assert AtRest(s.(nextId := e.nextId));
    InvGivesShape(s, multiset{}, 0, 0, {});
    hide AtRest, Resolving, Resolve;
    DeclareKeeps(s.(nextId := e.nextId), e.id, e.decl, e.errorback);
    Parts(r, e.id, 0);
  }

  /** Every call from outside leaves the manager at rest, whatever came before. */
  lemma StepKeeps(s: State, e: Event)
    requires AtRest(s) && Enabled(s, e)
    ensures AtRest(Step(s, e))
  {
    hide AtRest;
    match e
    case DefineCall(id, decl, errorback, nextId) => DefineKeeps(s, id, decl, errorback, nextId);
    case LoadError(id, cause) => LoadFailedKeeps(s, id, cause);
  }

  lemma RestLinks(s: State)
    requires AtRest(s)
    ensures Links(s)
  {
  }

  ghost predicate Leads(s: State, e: Event, r: State) {
    AtRest(s) && Enabled(s, e) && r == Step(s, e)
  }

  /** Each event leads from the state before it to the one behind it. */
  ghost predicate History(s: State, events: seq<Event>, states: seq<State>) {
    && |states| == |events| + 1 && states[0] == s
    && forall k {:trigger events[k]} :: 0 <= k < |events| ==> Leads(states[k], events[k], states[k + 1])
  }

  /** The calls lead from s to r. */
  ghost predicate Path(s: State, events: seq<Event>, r: State) {
    exists states: seq<State> :: History(s, events, states) && states[|events|] == r
  }

  /** The calls lead from the empty manager to s. */
  ghost predicate Run(events: seq<Event>, s: State) {
    Path(INITIAL, events, s)
  }

  lemma CallAt(s: State, events: seq<Event>, states: seq<State>, k: nat)
    requires History(s, events, states) && k < |events|
    ensures |states| == |events| + 1 && Leads(states[k], events[k], states[k + 1])
  {
    hide Leads;
    assert Leads(states[k], events[k], states[k + 1]);
  }

  lemma StatesOf(s: State, events: seq<Event>, states: seq<State>)
    requires History(s, events, states)
    ensures |states| == |events| + 1 && states[0] == s
  {
    hide Leads;
  }

  /** A history up to one of its states is a run. */
  lemma RunTo(events: seq<Event>, states: seq<State>, k: nat)
    requires History(INITIAL, events, states) && k <= |events|
    ensures |states| == |events| + 1 && Run(events[..k], states[k])
  {
    hide Leads;
    forall j | 0 <= j < k ensures Leads(states[..k + 1][j], events[..k][j], states[..k + 1][j + 1]) {
      assert Leads(states[j], events[j], states[j + 1]);
    }
    assert History(INITIAL, events[..k], states[..k + 1]) && states[..k + 1][k] == states[k];
  }

  lemma NoEvents(s: State)
    ensures Path(s, [], s)
  {
    assert History(s, [], [s]) && [s][0] == s;
  }

  lemma EmptyRun()
    ensures Run([], INITIAL) && AtRest(INITIAL)
  {
    InitialAtRest();
    NoEvents(INITIAL);
  }

  lemma LastStepOfPath(s: State, events: seq<Event>, r: State) returns (before: State)
    requires Path(s, events, r) && events != []
    ensures Path(s, events[..|events| - 1], before) && Leads(before, events[|events| - 1], r)
  {
    hide Leads;
    var n := |events| - 1;
    var states: seq<State> :| History(s, events, states) && states[|events|] == r;
    before := states[n];
    assert forall k :: 0 <= k < n ==> events[..n][k] == events[k];
    assert History(s, events[..n], states[..n + 1]) && states[..n + 1][n] == before;
    assert Leads(states[n], events[n], states[n + 1]);
  }

  lemma LastStep(events: seq<Event>, s: State) returns (before: State)
    requires Run(events, s) && events != []
    ensures Run(events[..|events| - 1], before) && Leads(before, events[|events| - 1], s)
  {
    hide Path, Leads;
    before := LastStepOfPath(INITIAL, events, s);
  }

  lemma LongerPath(s: State, events: seq<Event>, r: State, e: Event)
    requires Path(s, events, r) && AtRest(r) && Enabled(r, e)
    ensures Path(s, events + [e], Step(r, e)) && AtRest(Step(r, e))
  {
    hide AtRest, Enabled, Step;
    StepKeeps(r, e);
    assert Leads(r, e, Step(r, e));
    hide Leads;
    var states: seq<State> :| History(s, events, states) && states[|events|] == r;
    var more, longer := events + [e], states + [Step(r, e)];
    forall k | 0 <= k < |more| ensures Leads(longer[k], more[k], longer[k + 1]) {
      assert k < |events| ==> more[k] == events[k];
    }
    assert History(s, more, longer) && longer[|more|] == Step(r, e);
  }

  lemma OneMoreEvent(events: seq<Event>, s: State, e: Event)
    requires Run(events, s) && AtRest(s) && Enabled(s, e)
    ensures Run(events + [e], Step(s, e)) && AtRest(Step(s, e))
  {
    hide Path, AtRest, Enabled, Step;
    LongerPath(INITIAL, events, s, e);
  }

  /** Every state reached by a run satisfies the invariant. */
  lemma {:induction false} RunsAtRest(events: seq<Event>, s: State)
    requires Run(events, s)
    ensures AtRest(s)
  {
    hide Run, AtRest;
    if events == [] {
      EmptyRun();
      OnlyOneEmptyRun(s);
    } else {
      var before := LastStep(events, s);
      StepKeeps(before, events[|events| - 1]);
    }
  }

  lemma OnlyOneEmptyRun(s: State)
    requires Run([], s)
    ensures s == INITIAL
  {
  }

  lemma RunParts(events: seq<Event>, s: State)
    requires Run(events, s)
    ensures Ids(s) && ModsOk(s, 0, 0) && WaitersOk(s)
    ensures Counted(s, multiset{}) && NothingReady(s, 0) && Settled(s, 0, 0)
    ensures QueuesOk(s, {}) && Sought(s) && LogOk(s.log, s.declared) && Links(s) && Layered(Waits(s))
  {
    RunsAtRest(events, s);
    hide Run, Ids, ModsOk, WaitersOk, Counted, NothingReady, Settled, QueuesOk, Sought, LogOk, Links, Layered;
  }
}

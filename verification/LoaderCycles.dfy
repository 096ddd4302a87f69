/** The cycle flag and the declared dependencies: no cycle gets past the search unless a module fails. */
module LoaderCycles {
  import opened Options
  import opened Graphs
  import opened LoaderState
  import opened LoaderInvariant
  import opened LoaderSteps
  import opened LoaderCascade
  import opened LoaderResolve
  import opened LoadErrors
  import opened LoaderRuns
  import opened LoaderGrowth

  /** The declared edges of modules that have not failed early, looked at so far and not cut off to break a cycle. */
  ghost function Accepted(s: State, r: Id, i: nat): Rel {
    (m: Id, d: Id) => m in s.declared && !FailedEarly(s, m) && Warned(d, m) !in s.log &&
      exists k :: 0 <= k < Reached(s, m, r, i) && s.declared[m].dependencies[k].Target() == d
  }

  // ---- what a completion does not change -----------------------------------------------------------

  /** The declarations and the warnings of s and r are the same. */
  ghost predicate SameEdges(s: State, r: State) {
    r.declared == s.declared && forall d, m :: Warned(d, m) in r.log <==> Warned(d, m) in s.log
  }

  lemma FinishedEdges(s: State, m: Id)
    requires Waiting(s, m)
    ensures SameEdges(s, Finished(s, m))
  {
  }

  lemma {:induction false} HandOverEdges(s: State, plugin: Value, queue: seq<Dependency>)
    requires forall k :: 0 <= k < |queue| ==> queue[k].Plugin?
    ensures SameEdges(s, HandOver(s, plugin, queue))
    decreases |queue|
  {
    if queue != [] {
      HandOverEdges(LoadPluginDependency(s, plugin, queue[0]), plugin, queue[1..]);
    }
  }

  lemma {:induction false} CompleteEdges(s: State, m: Id)
    requires Linked(s) && QueuesHoldPlugins(s) && m in s.mods
    ensures SameEdges(s, Complete(s, m))
    decreases Incomplete(s), 0
  {
    if !s.mods[m].complete {
      var s2 := Finished(s, m);
      FinishedSmaller(s, m);
      FinishedEdges(s, m);
      hide Finished, Linked;
      NotifyEdges(s2, WaitersOf(s, m));
      var s3 := Notify(s2, WaitersOf(s, m));
      HandOverEdges(s3.(pluginWaiters := s3.pluginWaiters - {m}), s3.mods[m].exports, QueueOf(s3, m));
    }
  }

  lemma {:induction false} NotifyEdges(s: State, ws: seq<Id>)
    requires Linked(s) && QueuesHoldPlugins(s)
    requires forall k :: 0 <= k < |ws| ==> ws[k] in s.mods
    ensures SameEdges(s, Notify(s, ws))
    decreases Incomplete(s), |ws|
  {
    if ws != [] {
      var s1 := Drop(s, ws[0]);
      DropSameIncomplete(s, ws[0]);
      if s1.mods[ws[0]].unresolved == 0 {
        CompleteEdges(s1, ws[0]);
        NotifyEdges(Complete(s1, ws[0]), ws[1..]);
      } else {
        NotifyEdges(s1, ws[1..]);
      }
    }
  }

  lemma {:induction false} ResolveDeclares(s: State, m: Id, deps: seq<Dependency>, i: nat)
    requires m in s.mods && Linked(s) && QueuesHoldPlugins(s) && i <= |deps|
    ensures Resolve(s, m, deps, i).declared == s.declared
    decreases |deps| - i
  {
    ResolveUnfolds(s, m, deps, i);
    hide Linked, QueuesHoldPlugins, Complete, Look, Resolve, Poisoned;
    if i == |deps| {
      CompleteEdges(s, m);
    } else if !Poisoned(s, deps[i]) {
      LookShape(s, m, deps[i]);
      ResolveDeclares(Look(s, m, deps[i]), m, deps, i + 1);
    }
  }

  /** A `define` call of a new module declares it, and no call declares anything else. */
  lemma StepDeclares(s: State, e: Event)
    requires AtRest(s) && Enabled(s, e)
    ensures Step(s, e).declared == if e.DefineCall? && e.id !in s.mods then s.declared[e.id := e.decl] else s.declared
  {
    match e
    case DefineCall(m, decl, errorback, nextId) =>
      if m !in s.mods {
        StepIsResolve(s, e);
        hide AtRest, Resolve, Step, Enabled, Linked, QueuesHoldPlugins;
        ResolveDeclares(Declared(s, e), m, decl.dependencies, 0);
      }
    case LoadError(id, cause) =>
      InvGivesShape(s, multiset{}, 0, 0, {});
      hide AtRest, LoadFailed;
      var order, tail := LoadFailedFails(s, id, cause);
  }

  // ---- the accepted edges keep a layering --------------------------------------------------------

  ghost predicate Accepts(s: State, r: Id, i: nat) {
    Layered(Accepted(s, r, i))
  }

  /** Reserved ids, completed modules, and what the path search from d finds. */
  ghost function Behind(s: State, d: Id): Id -> bool {
    (x: Id) => x < FIRST_FREE_ID || Done(s, x) || x == d || Joined(Deps(s), d, x)
  }

  lemma DoneBehind(s: State, a: Id, b: Id, r: Id, i: nat)
    requires LogOk(s.log, s.declared) && Links(s) && Done(s, a) && Accepted(s, r, i)(a, b)
    ensures b < FIRST_FREE_ID || Done(s, b)
  {
    assert CompletedIn(s.log, a);
    var k :| 0 <= k < |s.log| && s.log[k].Completed? && s.log[k].id == a;
    LogAt(s.log, s.declared, k);
    var j :| 0 <= j < Reached(s, a, r, i) && s.declared[a].dependencies[j].Target() == b;
    var d := s.declared[a].dependencies[j];
    assert ArgumentOk(s.log[..k], a, s.declared[a].name, d, s.log[k].args[j]);
    if !d.Special() {
      assert forall e :: e in s.log[..k] ==> e in s.log;
      var x :| 0 <= x < k && s.log[..k][x].Completed? && s.log[..k][x].id == b;
      assert s.log[x].Completed? && s.log[x].id == b;
    }
  }

  lemma BehindIsClosed(s: State, m: Id, i: nat, d: Id)
    requires Ids(s) && ModsOk(s, m, i) && LogOk(s.log, s.declared) && Links(s)
    ensures Closed(Accepted(s, m, i), Behind(s, d))
  {
    forall a, b | Accepted(s, m, i)(a, b) && Behind(s, d)(a) ensures Behind(s, d)(b) {
      if Done(s, a) {
        DoneBehind(s, a, b, m, i);
      } else {
        assert ModOk(s, a, m, i);
        assert Deps(s)(a, b);
        if a == d {
          EdgeJoins(Deps(s), d, b);
        } else {
          JoinThenEdge(Deps(s), d, a, b);
        }
      }
    }
  }

  lemma NotBehind(s: State, m: Id, i: nat, d: Id)
    requires Ids(s) && ModsOk(s, m, i) && Waiting(s, m) && m in s.declared
    requires DependsOn(s.declared[m].dependencies, d) && !Joined(Deps(s), d, m)
    ensures !Behind(s, d)(m)
  {
    assert ModOk(s, m, m, i);
    assert Deps(s)(m, d);
    if m == d {
      EdgeJoins(Deps(s), m, m);
    }
  }

  lemma NoWayFromDone(s: State, d: Id, m: Id)
    requires Done(s, d)
    ensures !Joined(Deps(s), d, m)
  {
    if Joined(Deps(s), d, m) {
      var _ := JoinedHasFirstEdge(Deps(s), d, m);
    }
  }

  lemma LookEdges(s: State, m: Id, i: nat)
    requires m in s.mods && m in s.declared && i < |s.declared[m].dependencies|
    ensures var r := Look(s, m, s.declared[m].dependencies[i]);
            r.declared == s.declared && s.log <= r.log
  {
    var d := s.declared[m].dependencies[i];
    FetchLog(AddWaiter(s, m, d.Target()), d);
    FetchSame(AddWaiter(s, m, d.Target()), d);
    hide Fetch, Deps;
  }

  lemma FetchLog(s: State, d: Dependency)
    ensures s.log <= Fetch(s, d).log
  {
  }

  lemma LookWarns(s: State, m: Id, d: Dependency)
    requires m in s.mods && !d.Special() && !(d.Target() in s.mods && s.mods[d.Target()].complete)
    requires Joined(Deps(s), d.Target(), m)
    ensures Warned(d.Target(), m) in Look(s, m, d).log
  {
    hide Deps, Fetch;
    var r := BreakCycle(s, m, d);
    assert r.log[|s.log|] == Warned(d.Target(), m);
  }

  lemma NewEdges(s: State, r: State, m: Id, i: nat)
    requires m in s.declared && i < |s.declared[m].dependencies| && r.declared == s.declared && Grows(s, r)
    ensures forall a, b :: Accepted(r, m, i + 1)(a, b) ==>
              Accepted(s, m, i)(a, b) || (a == m && b == s.declared[m].dependencies[i].Target() && Warned(b, a) !in r.log)
  {
    forall a, b | Accepted(r, m, i + 1)(a, b)
      ensures Accepted(s, m, i)(a, b) || (a == m && b == s.declared[m].dependencies[i].Target() && Warned(b, a) !in r.log)
    {
      assert Warned(b, a) !in s.log && !FailedEarly(s, a);
      var k :| 0 <= k < Reached(r, a, m, i + 1) && r.declared[a].dependencies[k].Target() == b;
      assert a != m || k != i ==> k < Reached(s, a, m, i);
    }
  }

  lemma LookAccepts(s: State, m: Id, i: nat)
    requires Resolving(s, m, i) && i < |s.declared[m].dependencies| && !Poisoned(s, s.declared[m].dependencies[i])
    requires Accepts(s, m, i)
    ensures Accepts(Look(s, m, s.declared[m].dependencies[i]), m, i + 1)
  {
    var d := s.declared[m].dependencies[i];
    var r := Look(s, m, d);
    Parts(s, m, i);
    LookEdges(s, m, i);
    LookSteps(s, m, d);
    hide Resolving, Links, LogOk, Linked, QueuesHoldPlugins, WaitersOk, Sought, Layered, Accepted, Deps, Fetch, BreakCycle,
      SkipSpecial, Drop, AddWaiter, Grows, Touches;
    NewEdges(s, r, m, i);
    if d.Special() {
      SpecialAccepts(s, r, m, i);
    } else if d.Target() in s.mods && s.mods[d.Target()].complete {
      assert Done(s, d.Target()) by { assert ModOk(s, d.Target(), m, i); }
      NoWayFromDone(s, d.Target(), m);
      OneMoreAccepts(s, r, m, i);
    } else if Joined(Deps(s), d.Target(), m) {
      LookWarns(s, m, d);
      NarrowerLayered(Accepted(r, m, i + 1), Accepted(s, m, i));
    } else {
      OneMoreAccepts(s, r, m, i);
    }
  }

  lemma SpecialAccepts(s: State, r: State, m: Id, i: nat)
    requires m in s.declared && i < |s.declared[m].dependencies| && s.declared[m].dependencies[i].Special() && Ids(s)
    requires Layered(Accepted(s, m, i))
    requires forall a, b :: Accepted(r, m, i + 1)(a, b) ==>
               Accepted(s, m, i)(a, b) || (a == m && b == s.declared[m].dependencies[i].Target() && Warned(b, a) !in r.log)
    ensures Layered(Accepted(r, m, i + 1))
  {
    var inside := (x: Id) => x < FIRST_FREE_ID;
    assert Closed(Accepted(s, m, i), inside);
    hide Accepted;
    AddEdge(Accepted(s, m, i), Accepted(r, m, i + 1), inside, m, s.declared[m].dependencies[i].Target());
  }

  lemma OneMoreAccepts(s: State, r: State, m: Id, i: nat)
    requires Ids(s) && ModsOk(s, m, i) && LogOk(s.log, s.declared) && Links(s)
    requires Waiting(s, m) && m in s.declared && i < |s.declared[m].dependencies|
    requires !Joined(Deps(s), s.declared[m].dependencies[i].Target(), m)
    requires Layered(Accepted(s, m, i))
    requires forall a, b :: Accepted(r, m, i + 1)(a, b) ==>
               Accepted(s, m, i)(a, b) || (a == m && b == s.declared[m].dependencies[i].Target() && Warned(b, a) !in r.log)
    ensures Layered(Accepted(r, m, i + 1))
  {
    var d := s.declared[m].dependencies[i].Target();
    assert DependsOn(s.declared[m].dependencies, d);
    hide Accepted, LogOk, Links, Ids, ModsOk, Joined, Deps, Layered;
    BehindIsClosed(s, m, i, d);
    NotBehind(s, m, i, d);
    AddEdge(Accepted(s, m, i), Accepted(r, m, i + 1), Behind(s, d), m, d);
  }

  // ---- over calls and runs ------------------------------------------------------------------------

  lemma SameEdgesAccept(s: State, r: State, m: Id, i: nat)
    requires SameEdges(s, r) && Grows(s, r) && Accepts(s, m, i) && (m in s.declared ==> i == |s.declared[m].dependencies|)
    ensures Accepts(r, 0, 0)
  {
    hide Layered;
    forall a, b | Accepted(r, 0, 0)(a, b) ensures Accepted(s, m, i)(a, b) {
      assert !FailedEarly(s, a);
    }
    NarrowerLayered(Accepted(r, 0, 0), Accepted(s, m, i));
  }

  lemma {:induction false} ResolveAccepts(s: State, m: Id, deps: seq<Dependency>, i: nat)
    requires Linked(s) && QueuesHoldPlugins(s)
    requires Resolving(s, m, i) && deps == s.declared[m].dependencies && Accepts(s, m, i)
    ensures Accepts(Resolve(s, m, deps, i), 0, 0)
    decreases |deps| - i, 1
  {
    hide *;
    Parts(s, m, i);
    ResolveUnfolds(s, m, deps, i);
    if i == |deps| {
      CompleteAccepts(s, m, i);
    } else if Poisoned(s, deps[i]) {
      FailAccepts(s, m, i, s.mods[deps[i].Target()].error.value);
    } else {
      ResolveAcceptsOn(s, m, deps, i);
    }
  }

  lemma CompleteAccepts(s: State, m: Id, i: nat)
    requires Linked(s) && QueuesHoldPlugins(s) && Waiting(s, m) && m in s.declared && Accepts(s, m, i)
    requires i == |s.declared[m].dependencies|
    ensures m in s.mods && Accepts(Complete(s, m), 0, 0) && Accepts(s, 0, 0)
  {
    assert m in s.mods;
    hide *;
    CompleteEdges(s, m);
    CompleteSteps(s, m, m);
    StepsGrow(s, Complete(s, m), m);
    SameEdgesAccept(s, Complete(s, m), m, i);
    NoEdgesChange(s);
    SameEdgesAccept(s, s, m, i);
  }

  lemma {:induction false} ResolveAcceptsOn(s: State, m: Id, deps: seq<Dependency>, i: nat)
    requires Linked(s) && QueuesHoldPlugins(s)
    requires Resolving(s, m, i) && deps == s.declared[m].dependencies && Accepts(s, m, i)
    requires i < |deps| && !Poisoned(s, deps[i])
    ensures Accepts(Resolve(s, m, deps, i), 0, 0)
    decreases |deps| - i, 0
  {
    hide *;
    Parts(s, m, i);
    ResolveUnfolds(s, m, deps, i);
    LookAccepts(s, m, i);
    LookKeeps(s, m, i);
    LookShape(s, m, deps[i]);
    ResolveAccepts(Look(s, m, deps[i]), m, deps, i + 1);
  }

  lemma NoEdgesChange(s: State)
    ensures SameEdges(s, s) && Grows(s, s)
  {
  }

  lemma FailAccepts(s: State, m: Id, i: nat, error: Error)
    requires Waiting(s, m) && ModsOk(s, m, i) && Accepts(s, m, i)
    ensures Accepts(Fail(s, m, error), 0, 0)
  {
    var r := Fail(s, m, error);
    assert ModOk(s, m, m, i);
    FailSteps(s, m, error);
    hide Layered, ModsOk;
    forall a, b | Accepted(r, 0, 0)(a, b) ensures Accepted(s, m, i)(a, b) {
      assert FailedEarly(r, m);
      assert !FailedEarly(s, a);
    }
    NarrowerLayered(Accepted(r, 0, 0), Accepted(s, m, i));
  }

  lemma DeclareAccepts(s: State, m: Id, decl: Declaration, errorback: bool)
    requires m !in s.mods && m !in s.declared && 0 !in s.declared && Accepts(s, 0, 0)
    ensures Accepts(Declare(s, m, decl, errorback), m, 0)
  {
    var r := Declare(s, m, decl, errorback);
    hide Layered;
    forall a, b | Accepted(r, m, 0)(a, b) ensures Accepted(s, 0, 0)(a, b) {
      assert a != m && a in s.declared;
      assert FailedEarly(s, a) == FailedEarly(r, a);
    }
    NarrowerLayered(Accepted(r, m, 0), Accepted(s, 0, 0));
  }

  lemma DefineAccepts(s: State, e: Event)
    requires AtRest(s) && Enabled(s, e) && Accepts(s, 0, 0) && e.DefineCall? && e.id !in s.mods
    ensures Accepts(Step(s, e), 0, 0)
  {
    StepIsResolve(s, e);
    assert e.id !in s.declared && 0 !in s.declared;
    hide AtRest, Resolving, Accepts, Step, Resolve, Enabled, Linked, QueuesHoldPlugins;
    MoreIdsAccept(s, e.nextId);
    DeclareAccepts(s.(nextId := e.nextId), e.id, e.decl, e.errorback);
    ResolveAccepts(Declared(s, e), e.id, e.decl.dependencies, 0);
  }

  lemma MoreIdsAccept(s: State, n: nat)
    requires Accepts(s, 0, 0) && 0 !in s.declared
    ensures Accepts(s.(nextId := n), 0, 0)
  {
    NextIdSteps(s, n, 0);
    SameEdgesAccept(s, s.(nextId := n), 0, 0);
  }

  lemma StepAccepts(s: State, e: Event)
    requires AtRest(s) && Enabled(s, e) && Accepts(s, 0, 0)
    ensures Accepts(Step(s, e), 0, 0)
  {
    InvGivesShape(s, multiset{}, 0, 0, {});
    assert 0 !in s.declared;
    match e
    case DefineCall(m, decl, errorback, nextId) =>
      hide AtRest, Accepts;
      if m in s.mods {
        MoreIdsAccept(s, nextId);
      } else {
        DefineAccepts(s, e);
      }
    case LoadError(id, cause) =>
      hide AtRest, Accepts, Fails, LoadFailed;
      var order, tail := LoadFailedFails(s, id, cause);
      StepGrows(s, e);
      FailsEdges(s, LoadFailed(s, id, cause), id, order, tail);
      SameEdgesAccept(s, LoadFailed(s, id, cause), 0, 0);
  }

  lemma FailsEdges(s: State, r: State, id: Id, order: seq<Id>, tail: seq<Entry>)
    requires Fails(s, r, id, order, tail)
    ensures SameEdges(s, r)
  {
    forall d, m ensures Warned(d, m) in r.log <==> Warned(d, m) in s.log {
      assert forall x :: x in s.log + tail <==> x in s.log || x in tail;
    }
  }

  lemma {:induction false} RunAccepts(events: seq<Event>, s: State)
    requires Run(events, s)
    ensures Accepts(s, 0, 0)
  {
    if events == [] {
      assert forall a, b :: !Accepted(s, 0, 0)(a, b);
      assert Ranked(Accepted(s, 0, 0), (x: Id) => 0 as nat, 1);
    } else {
      hide *;
      var before := LastStep(events, s);
      RunAccepts(events[..|events| - 1], before);
      StepAccepts(before, events[|events| - 1]);
    }
  }

  /** A raised flag always means a cycle among the declared dependencies. */
  lemma FlagMeansCycle(events: seq<Event>, s: State)
    requires Run(events, s) && s.cycle
    ensures Cyclic(Declares(s.declared))
  {
    hide Run;
    RunParts(events, s);
    var k :| 0 <= k < |s.log| && s.log[k].Warned?;
    LogAt(s.log, s.declared, k);
    JoinThenEdge(Declares(s.declared), s.log[k].dependency, s.log[k].dependent, s.log[k].dependency);
  }

  /** The declared edges of modules that did not fail before they could complete. */
  ghost function DeclaresOf(s: State): Rel {
    (a: Id, b: Id) => Declares(s.declared)(a, b) && !FailedEarly(s, a)
  }

  lemma NoFlagMeansLayered(events: seq<Event>, s: State)
    requires Run(events, s) && !s.cycle
    ensures Layered(DeclaresOf(s))
  {
    hide Run, Layered;
    RunParts(events, s);
    RunAccepts(events, s);
    forall a, b | DeclaresOf(s)(a, b) ensures Accepted(s, 0, 0)(a, b) {
      assert Declares(s.declared)(a, b) && !HasWarning(s.log);
      var k :| 0 <= k < |s.declared[a].dependencies| && s.declared[a].dependencies[k].Target() == b;
      assert k < Reached(s, a, 0, 0);
    }
    NarrowerLayered(DeclaresOf(s), Accepted(s, 0, 0));
  }

  /** No declared module has failed before it could complete. */
  ghost predicate NoneFailedEarly(s: State) {
    forall m :: m in s.declared ==> !FailedEarly(s, m)
  }

  lemma NoFlagNoCycle(events: seq<Event>, s: State)
    requires Run(events, s) && NoneFailedEarly(s) && !s.cycle
    ensures Layered(Declares(s.declared))
  {
    NoFlagMeansLayered(events, s);
    hide Run;
    NarrowerLayered(Declares(s.declared), DeclaresOf(s));
  }
}

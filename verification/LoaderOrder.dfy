/** The order in which `define` calls arrive does not matter. */
module LoaderOrder {
  import opened Options
  import opened Graphs
  import opened LoaderState
  import opened LoaderInvariant
  import opened LoaderSteps
  import opened LoaderCascade
  import opened LoaderResolve
  import opened LoadErrors
  import opened LoaderRuns
  import opened LoaderProgress
  import opened LoaderHistory
  import opened LoaderCycles

  // ---- runs in which nothing can fail ---------------------------------------------------------------

  ghost predicate NeverThrows(callback: Callback) {
    callback.Factory? ==> forall args :: !callback.run(args).result.Threw?
  }

  ghost predicate OnlyDefines(events: seq<Event>) {
    forall k :: 0 <= k < |events| ==> events[k].DefineCall? && NeverThrows(events[k].decl.callback)
  }

  /** No errors, and none in sight. */
  ghost predicate Clean(s: State) {
    forall m :: m in s.mods ==>
      s.mods[m].error.None? && (s.mods[m].complete || NeverThrows(s.mods[m].callback))
  }

  lemma {:induction false} CompleteClean(s: State, m: Id)
    requires Linked(s) && QueuesHoldPlugins(s) && m in s.mods && Clean(s)
    ensures Clean(Complete(s, m))
    decreases Incomplete(s), 0
  {
    if !s.mods[m].complete {
      var s2 := Finished(s, m);
      FinishedSmaller(s, m);
      FinishedClean(s, m);
      hide Finished, Linked, Clean;
      NotifyClean(s2, WaitersOf(s, m));
      var s3 := Notify(s2, WaitersOf(s, m));
      PluginPartShape(s3, m);
      SameModsClean(s3, PluginPart(s3, m));
    }
  }

  lemma FinishedClean(s: State, m: Id)
    requires Waiting(s, m) && Clean(s)
    ensures Clean(Finished(s, m))
  {
  }

  lemma SameModsClean(s: State, r: State)
    requires r.mods == s.mods && Clean(s)
    ensures Clean(r)
  {
  }

  lemma {:induction false} NotifyClean(s: State, ws: seq<Id>)
    requires Linked(s) && QueuesHoldPlugins(s) && Clean(s)
    requires forall k :: 0 <= k < |ws| ==> ws[k] in s.mods
    ensures Clean(Notify(s, ws))
    decreases Incomplete(s), |ws|
  {
    if ws != [] {
      var s1 := Drop(s, ws[0]);
      DropSameIncomplete(s, ws[0]);
      assert Clean(s1);
      hide Clean;
      if s1.mods[ws[0]].unresolved == 0 {
        CompleteClean(s1, ws[0]);
        NotifyClean(Complete(s1, ws[0]), ws[1..]);
      } else {
        NotifyClean(s1, ws[1..]);
      }
    }
  }

  lemma LookClean(s: State, m: Id, d: Dependency)
    requires m in s.mods && Clean(s)
    ensures Clean(Look(s, m, d))
  {
    FetchSame(AddWaiter(s, m, d.Target()), d);
    hide Fetch, Deps;
  }

  lemma {:induction false} ResolveClean(s: State, m: Id, deps: seq<Dependency>, i: nat)
    requires m in s.mods && Linked(s) && QueuesHoldPlugins(s) && i <= |deps| && Clean(s)
    ensures Clean(Resolve(s, m, deps, i))
    decreases |deps| - i
  {
    ResolveUnfolds(s, m, deps, i);
    if i == |deps| {
      CompleteClean(s, m);
    } else {
      assert !Poisoned(s, deps[i]);
      hide Clean, Linked, QueuesHoldPlugins, Complete, Look;
      LookClean(s, m, deps[i]);
      ResolveClean(Look(s, m, deps[i]), m, deps, i + 1);
    }
  }

  // ---- what a run declares ----------------------------------------------------------------------------

  ghost predicate DistinctIds(events: seq<Event>) {
    forall j, k :: 0 <= j < k < |events| ==> events[j].id != events[k].id
  }

  ghost predicate Calls(events: seq<Event>, m: Id, decl: Declaration) {
    exists k :: 0 <= k < |events| && events[k].DefineCall? && events[k].id == m
                && decl == events[k].decl
  }

  /** The calls of the run, and nothing else, are declared. */
  ghost predicate DeclaresCalls(events: seq<Event>, s: State) {
    forall m, decl :: Calls(events, m, decl) <==> m in s.declared && s.declared[m] == decl
  }

  /** What one call does to the declarations, in a clean state. */
  lemma DefineClean(s: State, e: Event)
    requires AtRest(s) && Enabled(s, e) && e.DefineCall? && NeverThrows(e.decl.callback)
    requires Clean(s) && s.mods.Keys == s.declared.Keys
    ensures var r := Step(s, e);
            && Clean(r) && r.mods.Keys == r.declared.Keys
            && r.declared == if e.id in s.declared then s.declared
                             else s.declared[e.id := e.decl]
  {
    InvGivesShape(s, multiset{}, 0, 0, {});
    var s0 := s.(nextId := e.nextId);
    if e.id !in s.mods {
      var s1 := Declare(s0, e.id, e.decl, e.errorback);
      DeclareClean(s0, e);
      assert Step(s, e) == Resolve(s1, e.id, e.decl.dependencies, 0) by {
        hide AtRest, Clean, Resolve;
      }
      hide *;
      ResolveClean(s1, e.id, e.decl.dependencies, 0);
      ResolveDeclares(s1, e.id, e.decl.dependencies, 0);
      ResolveKeys(s1, e.id, e.decl.dependencies, 0);
    }
  }

  lemma DeclareClean(s: State, e: Event)
    requires e.DefineCall? && NeverThrows(e.decl.callback) && e.id !in s.mods && Linked(s) && QueuesHoldPlugins(s)
    requires Clean(s) && s.mods.Keys == s.declared.Keys
    ensures var r := Declare(s, e.id, e.decl, e.errorback);
            && Clean(r) && Linked(r) && QueuesHoldPlugins(r) && e.id in r.mods && r.mods.Keys == r.declared.Keys
            && r.declared == s.declared[e.id := e.decl]
  {
  }

  lemma {:induction false} ResolveKeys(s: State, m: Id, deps: seq<Dependency>, i: nat)
    requires m in s.mods && Linked(s) && QueuesHoldPlugins(s) && i <= |deps|
    ensures Resolve(s, m, deps, i).mods.Keys == s.mods.Keys
    decreases |deps| - i
  {
    ResolveUnfolds(s, m, deps, i);
    if i == |deps| {
      hide Complete;
    } else if !Poisoned(s, deps[i]) {
      hide Complete, Linked, QueuesHoldPlugins;
      LookKeys(s, m, deps[i]);
      hide Look;
      ResolveKeys(Look(s, m, deps[i]), m, deps, i + 1);
    }
  }

  lemma LookKeys(s: State, m: Id, d: Dependency)
    requires m in s.mods
    ensures Look(s, m, d).mods.Keys == s.mods.Keys
  {
    FetchSame(AddWaiter(s, m, d.Target()), d);
    hide Fetch, Deps;
  }

  lemma {:induction false} RunDeclares(events: seq<Event>, s: State)
    requires Run(events, s) && OnlyDefines(events) && DistinctIds(events)
    ensures Clean(s) && s.mods.Keys == s.declared.Keys && DeclaresCalls(events, s)
  {
    if events != [] {
      EarlierCalls(events);
      hide *;
      var before := LastStep(events, s);
      RunDeclares(events[..|events| - 1], before);
      DefineClean(before, events[|events| - 1]);
      LastIsNew(events, before);
      DeclaresOneMore(events, before, s);
    }
  }

  lemma EarlierCalls(events: seq<Event>)
    requires events != [] && OnlyDefines(events) && DistinctIds(events)
    ensures OnlyDefines(events[..|events| - 1]) && DistinctIds(events[..|events| - 1])
    ensures events[|events| - 1].DefineCall? && NeverThrows(events[|events| - 1].decl.callback)
  {
  }

  lemma LastIsNew(events: seq<Event>, before: State)
    requires events != [] && DistinctIds(events) && DeclaresCalls(events[..|events| - 1], before)
    ensures events[|events| - 1].id !in before.declared
  {
    var init := events[..|events| - 1];
    var last := events[|events| - 1];
    assert forall k :: 0 <= k < |init| ==> init[k].id != last.id;
    assert last.id in before.declared ==> Calls(init, last.id, before.declared[last.id]);
  }

  lemma DeclaresOneMore(events: seq<Event>, before: State, s: State)
    requires events != [] && DeclaresCalls(events[..|events| - 1], before) && events[|events| - 1].DefineCall?
    requires events[|events| - 1].id !in before.declared
    requires s.declared == before.declared[events[|events| - 1].id :=
                                             events[|events| - 1].decl]
    ensures DeclaresCalls(events, s)
  {
    var init := events[..|events| - 1];
    forall m, decl
      ensures Calls(events, m, decl) <==> m in s.declared && s.declared[m] == decl
    {
      CallsOneMore(events, m, decl);
      assert Calls(init, m, decl) <==> m in before.declared && before.declared[m] == decl;
    }
  }

  lemma CallsOneMore(events: seq<Event>, m: Id, decl: Declaration)
    requires events != [] && events[|events| - 1].DefineCall?
    ensures var last := events[|events| - 1];
            Calls(events, m, decl) <==>
              Calls(events[..|events| - 1], m, decl) || (last.id == m && decl == last.decl)
  {
    var init := events[..|events| - 1];
    assert forall k :: 0 <= k < |init| ==> init[k] == events[k];
  }

  // ---- completion -------------------------------------------------------------------------------------

  /** Every dependency that is not special is the id of a declared module. */
  ghost predicate ClosedUnderDependencies(declared: map<Id, Declaration>) {
    forall m, k :: m in declared && 0 <= k < |declared[m].dependencies| && !declared[m].dependencies[k].Special() ==>
      declared[m].dependencies[k].Target() in declared
  }

  /** However the `define` calls of a dependency-closed set arrive, all modules complete. */
  lemma AnyOrderCompletes(events: seq<Event>, s: State)
    requires Run(events, s) && OnlyDefines(events) && DistinctIds(events) && ClosedUnderDependencies(s.declared)
    ensures NoErrors(s) && forall m :: m in s.declared ==> Done(s, m)
  {
    RunDeclares(events, s);
    assert NoErrors(s);
    RunParts(events, s);
    forall d | d in s.waiters && s.waiters[d] != [] ensures d in s.mods {
      var w := s.waiters[d][0];
      assert AsksFor(s.declared[w].dependencies, d);
    }
    hide Run, Clean;
    AllDefinedAllDone(events, s);
  }

  // ---- results ------------------------------------------------------------------------------------------

  lemma NoWarning(log: seq<Entry>, d: Id, m: Id)
    requires !HasWarning(log)
    ensures Warned(d, m) !in log
  {
    forall w | 0 <= w < |log| ensures log[w] != Warned(d, m) {
    }
  }

  /** The log entry of a completed module. */
  lemma DoneEntry(events: seq<Event>, s: State, m: Id) returns (k: nat)
    requires Run(events, s) && Done(s, m)
    ensures k < |s.log| && s.log[k].Completed? && s.log[k].id == m && m in s.declared
    ensures var deps := s.declared[m].dependencies;
            && |s.log[k].args| == |deps|
            && s.mods[m].exports == Produce(m, s.declared[m].callback, HasExports(deps, |deps|), EmptyObject, s.log[k].args).0
  {
    hide Run;
    RunParts(events, s);
    hide Ids, ModsOk, WaitersOk, Counted, NothingReady, Settled, QueuesOk, Sought, LogOk, Layered;
    k :| 0 <= k < |s.log| && s.log[k].Completed? && s.log[k].id == m;
    EntryJustified(events, s, k);
  }

  /** Without a raised flag, every argument is what the dependency exports for good. */
  lemma ArgumentFromExports(events: seq<Event>, s: State, k: nat, i: nat)
    requires Run(events, s) && !s.cycle && k < |s.log| && s.log[k].Completed?
    requires s.log[k].id in s.declared && i < |s.declared[s.log[k].id].dependencies|
    ensures i < |s.log[k].args|
    ensures var d := s.declared[s.log[k].id].dependencies[i];
            if d.Special() then ArgumentOk([], s.log[k].id, s.declared[s.log[k].id].name, d, s.log[k].args[i])
            else Done(s, d.Target()) && s.log[k].args[i] == s.mods[d.Target()].exports
  {
    hide Run;
    EntryJustified(events, s, k);
    var d := s.declared[s.log[k].id].dependencies[i];
    if !d.Special() {
      NoFlagNoWarning(events, s, d.Target(), s.log[k].id);
      assert forall e :: e in s.log[..k] ==> e in s.log;
      hide EntryOk;
      var j := DependenciesComeFirst(events, s, k, i);
      ExportsAreFinal(events, s, j);
    }
  }

  lemma NoFlagNoWarning(events: seq<Event>, s: State, d: Id, m: Id)
    requires Run(events, s) && !s.cycle
    ensures Warned(d, m) !in s.log
  {
    hide Run;
    RunParts(events, s);
    NoWarning(s.log, d, m);
  }

  // ---- the same modules under other numbers ---------------------------------------------------------------

  /** f is a renumbering of the ids, g the way back; the reserved ids keep their numbers. */
  ghost predicate Renumbers(f: Id -> Id, g: Id -> Id) {
    && (forall x {:trigger f(x)} :: g(f(x)) == x)
    && (forall x {:trigger g(x)} :: f(g(x)) == x)
    && (forall x: Id :: x < FIRST_FREE_ID ==> f(x) == x)
  }

  ghost function Renumbered(f: Id -> Id, d: Dependency): Dependency {
    match d
    case Regular(id) => Regular(f(id))
    case Plugin(id, pluginId, param) => Plugin(f(id), f(pluginId), param)
    case _ => d
  }

  /** The same name and callback, and the same dependencies under their new numbers. */
  ghost predicate SameDeclaration(f: Id -> Id, a: Declaration, b: Declaration) {
    && b.name == a.name && b.callback == a.callback && |b.dependencies| == |a.dependencies|
    && forall k :: 0 <= k < |a.dependencies| ==> b.dependencies[k] == Renumbered(f, a.dependencies[k])
  }

  ghost predicate SameDeclarations(f: Id -> Id, a: map<Id, Declaration>, b: map<Id, Declaration>) {
    && (forall m :: m in a ==> f(m) in b && SameDeclaration(f, a[m], b[f(m)]))
    && (forall n :: n in b ==> exists m :: m in a && f(m) == n)
  }

  lemma {:induction false} SameExportsByRank(ev1: seq<Event>, s1: State, ev2: seq<Event>, s2: State, m: Id,
                                             f: Id -> Id, rank: Id -> nat, top: nat)
    requires Run(ev1, s1) && Run(ev2, s2) && SameDeclarations(f, s1.declared, s2.declared) && !s1.cycle && !s2.cycle
    requires Ranked(Declares(s1.declared), rank, top)
    requires Done(s1, m) && Done(s2, f(m)) && m in s1.declared
    ensures s1.mods[m].exports == s2.mods[f(m)].exports
    decreases rank(m)
  {
    hide Run, Done;
    var k1 := DoneEntry(ev1, s1, m);
    var k2 := DoneEntry(ev2, s2, f(m));
    var deps := s1.declared[m].dependencies;
    assert SameDeclaration(f, s1.declared[m], s2.declared[f(m)]);
    forall i | 0 <= i < |deps| ensures s1.log[k1].args[i] == s2.log[k2].args[i] {
      ArgumentFromExports(ev1, s1, k1, i);
      ArgumentFromExports(ev2, s2, k2, i);
      assert s2.declared[f(m)].dependencies[i] == Renumbered(f, deps[i]);
      if !deps[i].Special() {
        assert Declares(s1.declared)(m, deps[i].Target());
        DoneIsDeclared(ev1, s1, deps[i].Target());
        SameExportsByRank(ev1, s1, ev2, s2, deps[i].Target(), f, rank, top);
      }
    }
    assert s1.log[k1].args == s2.log[k2].args;
    SameExportsProperty(f, s1.declared[m], s2.declared[f(m)]);
  }

  lemma SameExportsProperty(f: Id -> Id, a: Declaration, b: Declaration)
    requires SameDeclaration(f, a, b)
    ensures HasExports(a.dependencies, |a.dependencies|) == HasExports(b.dependencies, |b.dependencies|)
  {
    forall k | 0 <= k < |a.dependencies| ensures a.dependencies[k].Exports? == b.dependencies[k].Exports? {
      assert b.dependencies[k] == Renumbered(f, a.dependencies[k]);
    }
  }

  lemma DoneIsDeclared(events: seq<Event>, s: State, m: Id)
    requires Run(events, s) && Done(s, m)
    ensures m in s.declared
  {
    hide Run, Done;
    var k := DoneEntry(events, s, m);
  }

  /** The two runs make the same calls, in whatever order and with whatever numbers. */
  ghost predicate SameCalls(f: Id -> Id, ev1: seq<Event>, ev2: seq<Event>) {
    && (forall m, a :: Calls(ev1, m, a) ==> exists b :: Calls(ev2, f(m), b) && SameDeclaration(f, a, b))
    && (forall n, b :: Calls(ev2, n, b) ==> exists m, a :: Calls(ev1, m, a) && f(m) == n)
  }

  lemma SameCallsDeclareTheSame(f: Id -> Id, ev1: seq<Event>, s1: State, ev2: seq<Event>, s2: State)
    requires DeclaresCalls(ev1, s1) && DeclaresCalls(ev2, s2) && SameCalls(f, ev1, ev2)
    ensures SameDeclarations(f, s1.declared, s2.declared)
  {
    hide Calls, SameDeclaration;
    forall m | m in s1.declared ensures f(m) in s2.declared && SameDeclaration(f, s1.declared[m], s2.declared[f(m)]) {
      assert Calls(ev1, m, s1.declared[m]);
      var b :| Calls(ev2, f(m), b) && SameDeclaration(f, s1.declared[m], b);
    }
    forall n | n in s2.declared ensures exists m :: m in s1.declared && f(m) == n {
      assert Calls(ev2, n, s2.declared[n]);
      var m, a :| Calls(ev1, m, a) && f(m) == n;
    }
  }

  lemma SameClosed(f: Id -> Id, g: Id -> Id, a: map<Id, Declaration>, b: map<Id, Declaration>)
    requires Renumbers(f, g) && SameDeclarations(f, a, b) && ClosedUnderDependencies(a)
    ensures ClosedUnderDependencies(b)
  {
    forall n, k | n in b && 0 <= k < |b[n].dependencies| && !b[n].dependencies[k].Special()
      ensures b[n].dependencies[k].Target() in b
    {
      var m :| m in a && f(m) == n;
      assert SameDeclaration(f, a[m], b[n]);
      assert b[n].dependencies[k] == Renumbered(f, a[m].dependencies[k]);
      assert f(a[m].dependencies[k].Target()) in b;
    }
  }

  lemma EdgeBack(f: Id -> Id, g: Id -> Id, a: map<Id, Declaration>, b: map<Id, Declaration>, x: Id, y: Id)
    requires Renumbers(f, g) && SameDeclarations(f, a, b) && Declares(b)(x, y)
    ensures Declares(a)(g(x), g(y))
  {
    var k :| 0 <= k < |b[x].dependencies| && b[x].dependencies[k].Target() == y;
    var m :| m in a && f(m) == x;
    assert SameDeclaration(f, a[m], b[x]);
    var d := a[m].dependencies[k];
    assert b[x].dependencies[k] == Renumbered(f, d);
    TargetBack(f, g, d);
    assert g(f(m)) == m;
  }

  lemma TargetBack(f: Id -> Id, g: Id -> Id, d: Dependency)
    requires Renumbers(f, g)
    ensures g(Renumbered(f, d).Target()) == d.Target()
  {
    assert g(f(d.Target())) == d.Target();
  }

  lemma SameRanks(f: Id -> Id, g: Id -> Id, a: map<Id, Declaration>, b: map<Id, Declaration>, rank: Id -> nat, top: nat)
    requires Renumbers(f, g) && SameDeclarations(f, a, b) && Ranked(Declares(a), rank, top)
    ensures Layered(Declares(b))
  {
    var there := (x: Id) => rank(g(x));
    forall x, y | Declares(b)(x, y) ensures there(y) < there(x) {
      EdgeBack(f, g, a, b, x, y);
    }
    hide Declares, Renumbers, SameDeclarations;
    forall x ensures there(x) < top {
      assert rank(g(x)) < top;
    }
    assert Ranked(Declares(b), there, top);
  }

  lemma CleanIsUnflagged(events: seq<Event>, s: State)
    requires Run(events, s) && Clean(s) && !Cyclic(Declares(s.declared))
    ensures !s.cycle && Layered(Declares(s.declared))
  {
    RunParts(events, s);
    assert NoErrors(s);
    hide Run, NoErrors, Clean;
    NoErrorsNoneFailed(s);
    if s.cycle {
      FlagMeansCycle(events, s);
    }
    NoFlagNoCycle(events, s);
  }

  /**
   Order independence: for an acyclic, dependency-closed set of modules, any two arrival orders, and
   whatever numbers the ids get in them, complete every module, raise no flag, and give every module
   the same exports.
   */
  lemma OrderDoesNotMatter(ev1: seq<Event>, s1: State, ev2: seq<Event>, s2: State, f: Id -> Id, g: Id -> Id, m: Id)
    requires Run(ev1, s1) && OnlyDefines(ev1) && DistinctIds(ev1)
    requires Run(ev2, s2) && OnlyDefines(ev2) && DistinctIds(ev2)
    requires Renumbers(f, g) && SameCalls(f, ev1, ev2)
    requires ClosedUnderDependencies(s1.declared) && !Cyclic(Declares(s1.declared)) && m in s1.declared
    ensures Done(s1, m) && Done(s2, f(m)) && !s1.cycle && !s2.cycle
    ensures s1.mods[m].exports == s2.mods[f(m)].exports
  {
    RunDeclares(ev1, s1);
    RunDeclares(ev2, s2);
    SameCallsDeclareTheSame(f, ev1, s1, ev2, s2);
    SameClosed(f, g, s1.declared, s2.declared);
    hide Run, NoErrors, DeclaresCalls, OnlyDefines, DistinctIds, SameCalls, ClosedUnderDependencies;
    AnyOrderCompletes(ev1, s1);
    AnyOrderCompletes(ev2, s2);
    hide Clean, Done;
    CleanIsUnflagged(ev1, s1);
    var rank, top :| Ranked(Declares(s1.declared), rank, top);
    SameRanks(f, g, s1.declared, s2.declared, rank, top);
    LayeredIsAcyclic(Declares(s2.declared));
    CleanIsUnflagged(ev2, s2);
    SameExportsByRank(ev1, s1, ev2, s2, m, f, rank, top);
  }
}

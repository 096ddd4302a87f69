/** Resolving the dependencies of a new module keeps the invariant. */
module LoaderResolve {
  import opened Options
  import opened Graphs
  import opened LoaderState
  import opened LoaderInvariant
  import opened LoaderSteps
  import opened LoaderCascade
  import opened CyclePaths

  /** m is being resolved and its first i dependencies have been looked at. */
  ghost predicate Resolving(s: State, m: Id, i: nat) {
    && Waiting(s, m) && m in s.declared && i <= |s.declared[m].dependencies|
    && Inv(s, Left(m, |s.declared[m].dependencies| - i), m, i, {})
  }

  ghost function Left(m: Id, n: nat): multiset<Id> {
    multiset{}[m := n]
  }

  // ---- dependencies that need no waiting ----------------------------------------------------

  /** From s to r, m no longer counts its i-th dependency; the log may grow. */
  ghost predicate Passes(s: State, r: State, m: Id, i: nat)
    requires m in s.declared && i < |s.declared[m].dependencies|
  {
    && m in s.mods
    && r.mods == s.mods[m := s.mods[m].(
         unresolved := s.mods[m].unresolved - 1,
         exportsPassedIn := s.mods[m].exportsPassedIn || s.declared[m].dependencies[i].Exports?)]
    && r.nextId == s.nextId && r.known == s.known && r.waiters == s.waiters
    && r.pluginWaiters == s.pluginWaiters && r.declared == s.declared
    && s.log <= r.log
  }

  lemma PassShape(s: State, r: State, m: Id, i: nat)
    requires Waiting(s, m) && m in s.declared && i < |s.declared[m].dependencies| && Passes(s, r, m, i)
    requires Ids(s) && ModsOk(s, m, i) && WaitersOk(s)
    ensures Ids(r) && ModsOk(r, m, i + 1) && WaitersOk(r)
  {
    var deps := s.declared[m].dependencies;
    assert HasExports(deps, i + 1) == (HasExports(deps, i) || deps[i].Exports?);
    forall x | x in r.mods ensures ModOk(r, x, m, i + 1) {
      assert ModOk(s, x, m, i);
    }
  }

  lemma PassCounts(s: State, r: State, m: Id, i: nat)
    requires Waiting(s, m) && m in s.declared && i < |s.declared[m].dependencies| && Passes(s, r, m, i)
    requires Counted(s, Left(m, |s.declared[m].dependencies| - i)) && NothingReady(s, m)
    ensures Counted(r, Left(m, |s.declared[m].dependencies| - (i + 1))) && NothingReady(r, m)
  {
    forall x | Waiting(r, x) ensures Waiting(s, x) {
    }
  }

  lemma PassSettled(s: State, r: State, m: Id, i: nat)
    requires Waiting(s, m) && m in s.declared && i < |s.declared[m].dependencies| && Passes(s, r, m, i)
    requires Settled(s, m, i) && QueuesOk(s, {}) && Sought(s)
    requires SettledDep(r, m, s.declared[m].dependencies[i])
    ensures Settled(r, m, i + 1) && QueuesOk(r, {}) && Sought(r)
  {
    forall x, k | Waiting(r, x) && x in r.declared && 0 <= k < Reached(r, x, m, i + 1)
      ensures SettledDep(r, x, r.declared[x].dependencies[k])
    {
      if x != m || k != i {
        assert Waiting(s, x) && k < Reached(s, x, m, i);
        assert SettledDep(s, x, s.declared[x].dependencies[k]);
      }
    }
  }

  lemma PassLayered(s: State, r: State, m: Id, i: nat)
    requires Waiting(s, m) && m in s.declared && i < |s.declared[m].dependencies| && Passes(s, r, m, i)
    requires Layered(Waits(s))
    ensures Layered(Waits(r))
  {
    FewerWaits(s, r);
  }

  lemma PassKeeps(s: State, r: State, m: Id, i: nat)
    requires Resolving(s, m, i) && i < |s.declared[m].dependencies| && Passes(s, r, m, i)
    requires LogOk(r.log, r.declared) && Links(r) && SettledDep(r, m, s.declared[m].dependencies[i])
    ensures Resolving(r, m, i + 1)
  {
    hide Ids, ModsOk, WaitersOk, Counted, NothingReady, Settled, QueuesOk, Sought, LogOk, Links, Layered, Waits, Left, SettledDep;
    PassShape(s, r, m, i);
    PassCounts(s, r, m, i);
    PassSettled(s, r, m, i);
    PassLayered(s, r, m, i);
    assert Waiting(r, m);
  }

  lemma PassLinks(s: State, r: State, m: Id, i: nat)
    requires Waiting(s, m) && m in s.declared && i < |s.declared[m].dependencies| && Passes(s, r, m, i)
    requires Links(s)
    requires r.log == s.log && r.cycle == s.cycle
    ensures Links(r)
  {
  }

  lemma Parts(s: State, m: Id, i: nat)
    requires Resolving(s, m, i)
    ensures Waiting(s, m) && m in s.mods && m in s.declared && i <= |s.declared[m].dependencies|
    ensures Links(s) && LogOk(s.log, s.declared) && Ids(s) && ModsOk(s, m, i) && WaitersOk(s)
    ensures Linked(s) && QueuesHoldPlugins(s) && Sought(s)
  {
    hide Core;
    CoreParts(s, Left(m, |s.declared[m].dependencies| - i), m, i, {});
    InvGivesShape(s, Left(m, |s.declared[m].dependencies| - i), m, i, {});
  }

  lemma SkipPasses(s: State, m: Id, i: nat)
    requires Waiting(s, m) && m in s.declared && i < |s.declared[m].dependencies|
    ensures Passes(s, SkipSpecial(s, m, s.declared[m].dependencies[i]), m, i)
  {
  }

  lemma SkipKeeps(s: State, m: Id, i: nat)
    requires Resolving(s, m, i) && i < |s.declared[m].dependencies| && s.declared[m].dependencies[i].Special()
    ensures Resolving(SkipSpecial(s, m, s.declared[m].dependencies[i]), m, i + 1)
  {
    var r := SkipSpecial(s, m, s.declared[m].dependencies[i]);
    Parts(s, m, i);
    SkipPasses(s, m, i);
    hide Resolving, Links, LogOk, Ids, ModsOk, Linked, QueuesHoldPlugins, WaitersOk;
    PassLinks(s, r, m, i);
    PassKeeps(s, r, m, i);
  }

  lemma DoneDependencyKeeps(s: State, m: Id, i: nat)
    requires Resolving(s, m, i) && i < |s.declared[m].dependencies|
    requires var d := s.declared[m].dependencies[i].Target();
             d in s.mods && s.mods[d].complete && s.mods[d].error.None? && !s.declared[m].dependencies[i].Special()
    ensures Resolving(Drop(s, m), m, i + 1)
  {
    var d := s.declared[m].dependencies[i].Target();
    var r := Drop(s, m);
    Parts(s, m, i);
    assert Done(s, d) by { assert ModOk(s, d, m, i); }
    hide Resolving, Links, LogOk, Ids, ModsOk, Linked, QueuesHoldPlugins, WaitersOk;
    PassLinks(s, r, m, i);
    PassKeeps(s, r, m, i);
  }

  // ---- cycles -------------------------------------------------------------------------------

  /** The `dependencies` arrays hold declared dependencies. */
  lemma DepsAreDeclared(s: State, r: Id, i: nat)
    requires ModsOk(s, r, i)
    ensures forall a, b :: Deps(s)(a, b) ==> Declares(s.declared)(a, b)
  {
    forall a, b | Deps(s)(a, b) ensures Declares(s.declared)(a, b) {
      assert ModOk(s, a, r, i);
    }
  }

  lemma WarningJustified(s: State, m: Id, i: nat)
    requires Ids(s) && ModsOk(s, m, i) && m in s.declared && i < |s.declared[m].dependencies|
    requires !s.declared[m].dependencies[i].Special()
    requires Joined(Deps(s), s.declared[m].dependencies[i].Target(), m)
    ensures EntryOk(s.log, s.declared, Warned(s.declared[m].dependencies[i].Target(), m))
  {
    var d := s.declared[m].dependencies[i].Target();
    DepsAreDeclared(s, m, i);
    WiderJoined(Deps(s), Declares(s.declared), d, m);
  }

  lemma BrokenLinks(s: State, m: Id, d: Dependency)
    requires Links(s) && Waiting(s, m)
    ensures Links(BreakCycle(s, m, d))
  {
    var path := Printed(PrintedPath(s.mods, d.Target(), m));
    LogFacts(s.log, Warned(d.Target(), m));
    LogFacts(s.log + [Warned(d.Target(), m)], path);
    hide PrintedPath, CompletedIn, FailedIn, RequestedIn, HasWarning;
  }

  lemma PrintedJustified(s: State, m: Id, i: nat)
    requires Ids(s) && ModsOk(s, m, i) && Waiting(s, m) && m in s.declared && i < |s.declared[m].dependencies|
    requires Joined(Deps(s), s.declared[m].dependencies[i].Target(), m)
    ensures PrintedOk(s.declared, PrintedPath(s.mods, s.declared[m].dependencies[i].Target(), m))
  {
    var d := s.declared[m].dependencies[i].Target();
    DepsAreDeclared(s, m, i);
    CyclePathIsExact(s, d, m);
    hide Deps, CyclePath, Ids, ModsOk;
    var back := CyclePath(s.mods, d, m, 0).value;
    var path := PrintedPath(s.mods, d, m);
    var p := path[..|back|];
    forall k | 0 <= k < |p| - 1 ensures Goes(Declares(s.declared), p, k) {
      assert Deps(s)(back[|back| - 1 - k], back[|back| - 2 - k]);
    }
    assert Declares(s.declared)(m, d);
  }

  lemma BreakPasses(s: State, m: Id, i: nat)
    requires Waiting(s, m) && m in s.declared && i < |s.declared[m].dependencies|
    requires !s.declared[m].dependencies[i].Special()
    ensures var d := s.declared[m].dependencies[i];
            var r := BreakCycle(s, m, d);
            Passes(s, r, m, i) && SettledDep(r, m, d) && r.log == s.log + [Warned(d.Target(), m)] + [Printed(PrintedPath(s.mods, d.Target(), m))]
  {
    var d := s.declared[m].dependencies[i];
    assert BreakCycle(s, m, d).log[|s.log|] == Warned(d.Target(), m);
  }

  lemma BreakKeeps(s: State, m: Id, i: nat)
    requires Resolving(s, m, i) && i < |s.declared[m].dependencies|
    requires !s.declared[m].dependencies[i].Special()
    requires Joined(Deps(s), s.declared[m].dependencies[i].Target(), m)
    ensures Resolving(BreakCycle(s, m, s.declared[m].dependencies[i]), m, i + 1)
  {
    var d := s.declared[m].dependencies[i];
    Parts(s, m, i);
    hide Resolving, Links, LogOk, Ids, ModsOk, Linked, QueuesHoldPlugins, WaitersOk, EntryOk, Deps, BreakCycle, SettledDep;
    WarningJustified(s, m, i);
    PrintedJustified(s, m, i);
    LogGrows(s.log, s.declared, Warned(d.Target(), m));
    LogGrows(s.log + [Warned(d.Target(), m)], s.declared, Printed(PrintedPath(s.mods, d.Target(), m)));
    BrokenLinks(s, m, d);
    BreakPasses(s, m, i);
    PassKeeps(s, BreakCycle(s, m, d), m, i);
  }

  // ---- waiting --------------------------------------------------------------------------------

  lemma WaiterShape(s: State, m: Id, i: nat)
    requires Waiting(s, m) && m in s.declared && i < |s.declared[m].dependencies|
    requires Ids(s) && ModsOk(s, m, i) && WaitersOk(s)
    requires var d := s.declared[m].dependencies[i]; !d.Special() && (d.Target() in s.mods ==> !s.mods[d.Target()].complete)
    requires !s.declared[m].dependencies[i].Exports?
    ensures var r := AddWaiter(s, m, s.declared[m].dependencies[i].Target());
            Ids(r) && ModsOk(r, m, i + 1) && WaitersOk(r)
  {
    var deps := s.declared[m].dependencies;
    var r := AddWaiter(s, m, deps[i].Target());
    assert HasExports(deps, i + 1) == HasExports(deps, i);
    forall x | x in r.mods ensures ModOk(r, x, m, i + 1) {
      assert ModOk(s, x, m, i);
    }
  }

  lemma WaiterCounts(s: State, m: Id, i: nat)
    requires Waiting(s, m) && m in s.declared && i < |s.declared[m].dependencies| && Ids(s)
    requires Counted(s, Left(m, |s.declared[m].dependencies| - i)) && NothingReady(s, m)
    ensures var r := AddWaiter(s, m, s.declared[m].dependencies[i].Target());
            Counted(r, Left(m, |s.declared[m].dependencies| - (i + 1))) && NothingReady(r, m)
  {
    var d := s.declared[m].dependencies[i].Target();
    var r := AddWaiter(s, m, d);
    WaitersReplaced(s.waiters, r.waiters, d, s.nextId);
    assert AllWaiters(r.waiters, s.nextId) == AllWaiters(s.waiters, s.nextId) + multiset{m} by {
      assert multiset(WaitersOf(r, d)) == multiset(WaitersOf(s, d)) + multiset{m};
      var before, after := AllWaiters(s.waiters, s.nextId), AllWaiters(r.waiters, s.nextId);
      var listed := multiset(WaitersOf(s, d));
      forall x ensures after[x] == (before + multiset{m})[x] {
        assert (after + listed)[x] == (before + multiset(WaitersOf(r, d)))[x];
      }
    }
    forall x | Waiting(r, x) ensures Waiting(s, x) {
    }
  }

  lemma WaiterSettled(s: State, m: Id, i: nat)
    requires Waiting(s, m) && m in s.declared && i < |s.declared[m].dependencies|
    requires Settled(s, m, i) && QueuesOk(s, {})
    ensures var r := AddWaiter(s, m, s.declared[m].dependencies[i].Target());
            Settled(r, m, i + 1) && QueuesOk(r, {})
  {
    var d := s.declared[m].dependencies[i].Target();
    var r := AddWaiter(s, m, d);
    assert forall x :: x in WaitersOf(s, d) ==> x in WaitersOf(r, d);
    assert WaitersOf(r, d)[|WaitersOf(s, d)|] == m;
    forall x, k | Waiting(r, x) && x in r.declared && 0 <= k < Reached(r, x, m, i + 1)
      ensures SettledDep(r, x, r.declared[x].dependencies[k])
    {
      if x != m || k != i {
        assert Waiting(s, x) && k < Reached(s, x, m, i);
        assert SettledDep(s, x, s.declared[x].dependencies[k]);
      }
    }
  }

  lemma WaiterLinks(s: State, m: Id, d: Id)
    requires Links(s)
    ensures Links(AddWaiter(s, m, d))
  {
  }

  /** The new edge closes no cycle: the path search has found no way back. */
  lemma WaiterLayered(s: State, m: Id, i: nat, d: Id)
    requires Waiting(s, m) && ModsOk(s, m, i) && WaitersOk(s) && Layered(Waits(s))
    requires m in s.declared && DependsOn(s.declared[m].dependencies, d)
    requires !Joined(Deps(s), d, m)
    ensures Layered(Waits(AddWaiter(s, m, d)))
  {
    var e := Deps(s);
    var inside := (x: Id) => x == d || Joined(e, d, x);
    assert !inside(m) by {
      if m == d {
        assert ModOk(s, m, m, i);
        EdgeJoins(e, d, m);
      }
    }
    forall a, b | Waits(s)(a, b) && inside(a) ensures inside(b) {
      assert Waiting(s, a) && a in WaitersOf(s, b);
      var k :| 0 <= k < |s.waiters[b]| && s.waiters[b][k] == a;
      assert ModOk(s, a, m, i);
      assert AsksFor(s.declared[a].dependencies, b);
      assert e(a, b);
      if a == d {
        EdgeJoins(e, d, b);
      } else {
        JoinThenEdge(e, d, a, b);
      }
    }
    var r := AddWaiter(s, m, d);
    forall a, b | Waits(r)(a, b) ensures Waits(s)(a, b) || (a == m && b == d) {
      assert Waiting(s, a);
    }
    AddEdge(Waits(s), Waits(r), inside, m, d);
  }

  lemma WaiterKeeps(s: State, m: Id, i: nat)
    requires Resolving(s, m, i) && i < |s.declared[m].dependencies|
    requires var d := s.declared[m].dependencies[i]; !d.Special() && (d.Target() in s.mods ==> !s.mods[d.Target()].complete)
    requires !Joined(Deps(s), s.declared[m].dependencies[i].Target(), m)
    ensures var r := AddWaiter(s, m, s.declared[m].dependencies[i].Target());
            Core(r, Left(m, |s.declared[m].dependencies| - (i + 1)), m, i + 1, {})
  {
    hide Ids, ModsOk, WaitersOk, Counted, NothingReady, Settled, QueuesOk, Sought, LogOk, Links, Layered, Waits, Left, Deps;
    var d := s.declared[m].dependencies[i];
    WaiterShape(s, m, i);
    WaiterCounts(s, m, i);
    WaiterSettled(s, m, i);
    WaiterLinks(s, m, d.Target());
    assert DependsOn(s.declared[m].dependencies, d.Target());
    WaiterLayered(s, m, i, d.Target());
  }

  lemma EnqueueParts(s: State, d: Dependency)
    requires d.Plugin? && QueuesOk(s, {}) && Links(s)
    requires d.pluginId in s.mods ==> !s.mods[d.pluginId].complete
    requires d.pluginId in s.mods || d.pluginId in s.known
    ensures var r := Enqueue(s, d);
            && QueuesOk(r, {}) && Links(r) && OnlyRequests(s, r)
            && IsSought(r, d.id) && forall x :: IsSought(s, x) ==> IsSought(r, x)
  {
    var r := Enqueue(s, d);
    assert r.pluginWaiters[d.pluginId][|QueueOf(s, d.pluginId)|] == d;
    forall x | IsSought(s, x) ensures IsSought(r, x) {
      if x !in s.mods && x !in s.known {
        var p, k :| p in s.pluginWaiters && 0 <= k < |s.pluginWaiters[p]| && s.pluginWaiters[p][k].Target() == x;
        assert r.pluginWaiters[p][k] == s.pluginWaiters[p][k];
      }
    }
  }

  lemma EnqueueKeeps(s: State, d: Dependency, owed: multiset<Id>, m: Id, i: nat)
    requires Core(s, owed, m, i, {}) && d.Plugin?
    requires d.pluginId in s.mods ==> !s.mods[d.pluginId].complete
    ensures var r := LoadModule(Enqueue(s, d), d.pluginId);
            && Core(r, owed, m, i, {}) && IsSought(r, d.id)
            && forall x :: IsSought(s, x) ==> IsSought(r, x)
  {
    hide Core, QueuesOk, Links, LogOk, IsSought, OnlyRequests, Ids, ModsOk, WaitersOk;
    var s1 := LoadModule(s, d.pluginId);
    LoadModuleKeeps(s, d.pluginId, owed, m, i, {});
    CoreParts(s1, owed, m, i, {});
    assert d.pluginId in s1.mods || d.pluginId in s1.known;
    EnqueueParts(s1, d);
    RequestsKeepCore(s1, Enqueue(s1, d), owed, m, i, {});
    assert Enqueue(s1, d) == LoadModule(Enqueue(s, d), d.pluginId);
  }

  /** Whatever a wait for d needs is started, and nothing sought before is lost. */
  lemma FetchKeeps(s: State, d: Dependency, owed: multiset<Id>, m: Id, i: nat)
    requires Core(s, owed, m, i, {})
    ensures var r := Fetch(s, d);
            && Core(r, owed, m, i, {}) && IsSought(r, d.Target())
            && forall x :: IsSought(s, x) ==> IsSought(r, x)
  {
    hide Core, QueuesOk, Links, LogOk, Ids, ModsOk, WaitersOk;
    if !d.Plugin? {
      LoadModuleKeeps(s, d.Target(), owed, m, i, {});
    } else if d.pluginId in s.mods && s.mods[d.pluginId].complete {
      CoreParts(s, owed, m, i, {});
      CompleteIsReady(s, d.pluginId);
      LoadPluginKeeps(s, s.mods[d.pluginId].exports, d, owed, m, i, {});
      LoadPluginSeeks(s, s.mods[d.pluginId].exports, d);
    } else {
      hide Enqueue, LoadModule, IsSought;
      EnqueueKeeps(s, d, owed, m, i);
    }
  }

  lemma CompleteIsReady(s: State, p: Id)
    requires Links(s) && p in s.mods && s.mods[p].complete
    ensures PluginReady(s.log, p, s.mods[p].exports)
  {
    if Done(s, p) {
      DoneHasExports(s, p);
    }
  }

  lemma AwaitSought(s: State, m: Id, d: Dependency)
    requires Sought(s)
    requires var r := Fetch(AddWaiter(s, m, d.Target()), d);
             IsSought(r, d.Target()) && forall x :: IsSought(AddWaiter(s, m, d.Target()), x) ==> IsSought(r, x)
    ensures Sought(Fetch(AddWaiter(s, m, d.Target()), d))
  {
    hide Fetch, IsSought;
    var s1 := AddWaiter(s, m, d.Target());
    var r := Fetch(s1, d);
    FetchSame(s1, d);
    forall x | x in r.waiters && r.waiters[x] != [] ensures IsSought(r, x) {
      SoughtSame(s, s1, x);
    }
  }

  lemma AwaitKeeps(s: State, m: Id, i: nat)
    requires Resolving(s, m, i) && i < |s.declared[m].dependencies|
    requires var d := s.declared[m].dependencies[i]; !d.Special() && (d.Target() in s.mods ==> !s.mods[d.Target()].complete)
    requires !Joined(Deps(s), s.declared[m].dependencies[i].Target(), m)
    ensures var d := s.declared[m].dependencies[i];
            Resolving(Fetch(AddWaiter(s, m, d.Target()), d), m, i + 1)
  {
    var d := s.declared[m].dependencies[i];
    var s1 := AddWaiter(s, m, d.Target());
    var r := Fetch(s1, d);
    assert s1.declared == s.declared && s1.mods == s.mods;
    hide *;
    Parts(s, m, i);
    FetchSame(s1, d);
    WaiterKeeps(s, m, i);
    FetchKeeps(s1, d, Left(m, |s.declared[m].dependencies| - (i + 1)), m, i + 1);
    AwaitSought(s, m, d);
    StillResolving(s, r, m, i);
  }

  lemma StillResolving(s: State, r: State, m: Id, i: nat)
    requires Waiting(s, m) && m in s.declared && i < |s.declared[m].dependencies|
    requires r.declared == s.declared && r.mods == s.mods
    requires Core(r, Left(m, |s.declared[m].dependencies| - (i + 1)), m, i + 1, {}) && Sought(r)
    ensures Resolving(r, m, i + 1)
  {
    hide Core, Sought, Left;
  }

  lemma SoughtSame(s: State, r: State, x: Id)
    requires r.mods == s.mods && r.known == s.known && r.pluginWaiters == s.pluginWaiters
    ensures IsSought(s, x) ==> IsSought(r, x)
  {
  }

  // ---- the whole loop ---------------------------------------------------------------------------

  lemma FailLinks(s: State, m: Id, error: Error)
    requires Links(s) && Waiting(s, m) && s.mods[m].dependencies.Some?
    ensures Links(Fail(s, m, error))
  {
    LogFacts(s.log, Failed(m, error, s.mods[m].errorback));
  }

  lemma FailShape(s: State, m: Id, i: nat, error: Error)
    requires Waiting(s, m) && Ids(s) && ModsOk(s, m, i) && WaitersOk(s)
    ensures Ids(Fail(s, m, error)) && ModsOk(Fail(s, m, error), 0, 0) && WaitersOk(Fail(s, m, error))
  {
    var r := Fail(s, m, error);
    assert ModOk(s, m, m, i);
    forall x | x in r.mods ensures ModOk(r, x, 0, 0) {
      assert ModOk(s, x, m, i);
    }
    assert forall d :: Done(r, d) ==> Done(s, d);
  }

  lemma FailRest(s: State, m: Id, i: nat, error: Error, n: nat)
    requires Waiting(s, m) && Counted(s, Left(m, n)) && NothingReady(s, m) && Settled(s, m, i)
    requires QueuesOk(s, {}) && Sought(s) && s.mods[m].dependencies.Some?
    ensures var r := Fail(s, m, error);
            Counted(r, multiset{}) && NothingReady(r, 0) && Settled(r, 0, 0) && QueuesOk(r, {}) && Sought(r)
  {
    var r := Fail(s, m, error);
    forall x, k | Waiting(r, x) && x in r.declared && 0 <= k < Reached(r, x, 0, 0)
      ensures SettledDep(r, x, r.declared[x].dependencies[k])
    {
      assert Waiting(s, x) && k < Reached(s, x, m, i);
      assert SettledDep(s, x, s.declared[x].dependencies[k]);
    }
    forall x | Waiting(r, x) ensures r.mods[x].unresolved == AllWaiters(r.waiters, r.nextId)[x] {
      assert Waiting(s, x) && x != m;
      assert Left(m, n)[x] == 0;
    }
    forall d | d in r.waiters && r.waiters[d] != [] ensures IsSought(r, d) {
      SoughtMore(s, r, d);
    }
  }

  lemma SoughtMore(s: State, r: State, x: Id)
    requires s.mods.Keys <= r.mods.Keys && r.known == s.known && r.pluginWaiters == s.pluginWaiters
    ensures IsSought(s, x) ==> IsSought(r, x)
  {
  }

  lemma FailKeeps(s: State, m: Id, i: nat, error: Error)
    requires Resolving(s, m, i)
    ensures AtRest(Fail(s, m, error))
  {
    Parts(s, m, i);
    assert ModOk(s, m, m, i);
    var r := Fail(s, m, error);
    LogGrows(s.log, s.declared, Failed(m, error, s.mods[m].errorback));
    hide Ids, ModsOk, WaitersOk, Counted, NothingReady, Settled, QueuesOk, Sought, LogOk, Links, Layered, Waits, Left;
    FailShape(s, m, i, error);
    FailRest(s, m, i, error, |s.declared[m].dependencies| - i);
    FailLinks(s, m, error);
    FailLayered(s, m, error);
  }

  lemma FailLayered(s: State, m: Id, error: Error)
    requires Waiting(s, m) && Layered(Waits(s))
    ensures Layered(Waits(Fail(s, m, error)))
  {
    var r := Fail(s, m, error);
    FewerWaits(s, r);
  }

  lemma ResolvedRests(s: State, m: Id)
    requires m in s.declared && Resolving(s, m, |s.declared[m].dependencies|)
    ensures Inv(s, multiset{}, m, Full(s, m), {})
    ensures s.mods[m].unresolved != 0 ==> AtRest(s)
  {
    hide Core;
    assert Left(m, 0) == multiset{};
    if s.mods[m].unresolved != 0 {
      NoneResolving(s, multiset{}, m, {});
    }
  }

  lemma LookKeeps(s: State, m: Id, i: nat)
    requires Resolving(s, m, i) && i < |s.declared[m].dependencies| && !Poisoned(s, s.declared[m].dependencies[i])
    ensures Resolving(Look(s, m, s.declared[m].dependencies[i]), m, i + 1)
  {
    var d := s.declared[m].dependencies[i];
    hide Resolving, Deps, Fetch, SkipSpecial, BreakCycle, Drop;
    if d.Special() {
      SkipKeeps(s, m, i);
    } else if d.Target() in s.mods && s.mods[d.Target()].complete {
      DoneDependencyKeeps(s, m, i);
    } else if Joined(Deps(s), d.Target(), m) {
      BreakKeeps(s, m, i);
    } else {
      AwaitKeeps(s, m, i);
    }
  }

  lemma {:induction false} ResolveKeeps(s: State, m: Id, deps: seq<Dependency>, i: nat)
    requires Linked(s) && QueuesHoldPlugins(s)
    requires Resolving(s, m, i) && deps == s.declared[m].dependencies
    ensures AtRest(Resolve(s, m, deps, i))
    decreases |deps| - i
  {
    hide Core, Linked, QueuesHoldPlugins, Complete, Look, Fail, Full;
    if i == |deps| {
      ResolvedRests(s, m);
      if s.mods[m].unresolved == 0 {
        CompleteKeeps(s, m, multiset{}, {});
      }
    } else if Poisoned(s, deps[i]) {
      FailKeeps(s, m, i, s.mods[deps[i].Target()].error.value);
    } else {
      LookKeeps(s, m, i);
      LookShape(s, m, deps[i]);
      ResolveKeeps(Look(s, m, deps[i]), m, deps, i + 1);
    }
  }
}

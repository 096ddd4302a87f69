/** Each single step of the module manager keeps the invariant. */
module LoaderSteps {
  import opened Options
  import opened Graphs
  import opened LoaderState
  import opened LoaderInvariant

  // ---- appending to the log -----------------------------------------------------------------

  lemma CompletedInGrows(log: seq<Entry>, e: Entry)
    ensures forall m :: CompletedIn(log + [e], m) <==> CompletedIn(log, m) || (e.Completed? && e.id == m)
  {
    var log' := log + [e];
    assert log'[|log|] == e;
    assert forall k :: 0 <= k < |log| ==> log'[k] == log[k];
  }

  lemma FailedInGrows(log: seq<Entry>, e: Entry)
    ensures forall m :: FailedIn(log + [e], m) <==> FailedIn(log, m) || (e.Failed? && e.id == m)
  {
    var log' := log + [e];
    assert log'[|log|] == e;
    assert forall k :: 0 <= k < |log| ==> log'[k] == log[k];
  }

  lemma RequestedInGrows(log: seq<Entry>, e: Entry)
    ensures forall m :: RequestedIn(log + [e], m) <==>
              RequestedIn(log, m) || ((e.Requested? || e.ResourceRequested?) && e.id == m)
    ensures HasWarning(log + [e]) <==> HasWarning(log) || e.Warned?
  {
    var log' := log + [e];
    assert log'[|log|] == e;
    assert forall k :: 0 <= k < |log| ==> log'[k] == log[k];
  }

  lemma LogFacts(log: seq<Entry>, e: Entry)
    ensures forall m :: CompletedIn(log + [e], m) <==> CompletedIn(log, m) || (e.Completed? && e.id == m)
    ensures forall m :: FailedIn(log + [e], m) <==> FailedIn(log, m) || (e.Failed? && e.id == m)
    ensures forall m :: RequestedIn(log + [e], m) <==>
              RequestedIn(log, m) || ((e.Requested? || e.ResourceRequested?) && e.id == m)
    ensures HasWarning(log + [e]) <==> HasWarning(log) || e.Warned?
  {
    CompletedInGrows(log, e);
    FailedInGrows(log, e);
    RequestedInGrows(log, e);
  }

  // ---- the cascade ------------------------------------------------------------------------------

  ghost function Full(s: State, m: Id): nat {
    if m in s.declared then |s.declared[m].dependencies| else 0
  }

  lemma NoneResolving(s: State, owed: multiset<Id>, m: Id, busy: set<Id>)
    requires Inv(s, owed, m, Full(s, m), busy)
    requires Waiting(s, m) ==> s.mods[m].unresolved != 0
    ensures Inv(s, owed, 0, 0, busy)
  {
  }

  lemma DropShape(s: State, m: Id)
    requires m in s.mods && Ids(s) && ModsOk(s, 0, 0) && WaitersOk(s)
    ensures Ids(Drop(s, m)) && ModsOk(Drop(s, m), m, Full(s, m)) && WaitersOk(Drop(s, m))
  {
  }

  lemma DropCounts(s: State, owed: multiset<Id>, m: Id)
    requires m in s.mods && Counted(s, owed) && NothingReady(s, 0) && owed[m] > 0 && Ids(s) && ModsOk(s, 0, 0)
    ensures Counted(Drop(s, m), owed - multiset{m}) && NothingReady(Drop(s, m), m)
  {
  }

  lemma DropSettled(s: State, m: Id, busy: set<Id>)
    requires m in s.mods && Settled(s, 0, 0) && QueuesOk(s, busy) && Sought(s) && Ids(s)
    ensures Settled(Drop(s, m), m, Full(s, m)) && QueuesOk(Drop(s, m), busy) && Sought(Drop(s, m))
  {
  }

  lemma DropLog(s: State, m: Id)
    requires m in s.mods && Links(s) && Layered(Waits(s))
    ensures Links(Drop(s, m)) && Layered(Waits(Drop(s, m)))
  {
    var r := Drop(s, m);
    FewerWaits(s, r);
  }

  lemma DropKeeps(s: State, owed: multiset<Id>, m: Id, busy: set<Id>)
    requires Inv(s, owed, 0, 0, busy) && m in s.mods && owed[m] > 0
    ensures Inv(Drop(s, m), owed - multiset{m}, m, Full(s, m), busy)
  {
    DropShape(s, m);
    DropCounts(s, owed, m);
    DropSettled(s, m, busy);
    DropLog(s, m);
  }

  /** From s to r, m completes and its waiter list goes; the log may grow. */
  ghost predicate Completes(s: State, r: State, m: Id) {
    && Waiting(s, m) && m in r.mods
    && r.mods == s.mods[m := r.mods[m]] && r.mods[m].complete && r.mods[m].dependencies.None?
    && r.waiters == s.waiters - {m}
    && r.nextId == s.nextId && r.known == s.known && r.pluginWaiters == s.pluginWaiters
    && r.declared == s.declared && r.cycle == s.cycle
  }

  lemma FinishedCompletes(s: State, m: Id)
    requires Waiting(s, m)
    ensures Completes(s, Finished(s, m), m)
  {
  }

  /** A module without unresolved dependencies is on no waiter list. */
  lemma ReadyIsOnNoList(s: State, owed: multiset<Id>, m: Id)
    requires Counted(s, owed) && Waiting(s, m) && s.mods[m].unresolved == 0 && Ids(s)
    ensures forall d, k :: d in s.waiters && 0 <= k < |s.waiters[d]| ==> s.waiters[d][k] != m
  {
    OnSomeList(s.waiters, s.nextId, m);
    forall d, k | d in s.waiters && 0 <= k < |s.waiters[d]| ensures s.waiters[d][k] != m {
      assert s.waiters[d][k] in s.waiters[d];
    }
  }

  lemma FinishedShape(s: State, r: State, m: Id)
    requires Completes(s, r, m) && Ids(s) && ModsOk(s, m, Full(s, m)) && WaitersOk(s)
    requires forall d, k :: d in s.waiters && 0 <= k < |s.waiters[d]| ==> s.waiters[d][k] != m
    ensures Ids(r) && ModsOk(r, 0, 0) && WaitersOk(r)
  {
  }

  lemma FinishedCounts(s: State, r: State, owed: multiset<Id>, m: Id)
    requires Completes(s, r, m) && Counted(s, owed) && NothingReady(s, m) && Ids(s)
    ensures Counted(r, owed + multiset(WaitersOf(s, m))) && NothingReady(r, 0)
  {
    WaitersReplaced(s.waiters, r.waiters, m, s.nextId);
    assert AllWaiters(r.waiters, s.nextId) + multiset(WaitersOf(s, m)) == AllWaiters(s.waiters, s.nextId);
    forall x | Waiting(r, x)
      ensures r.mods[x].unresolved == (AllWaiters(r.waiters, s.nextId) + (owed + multiset(WaitersOf(s, m))))[x]
    {
      assert Waiting(s, x);
    }
  }

  lemma FinishedSettled(s: State, r: State, m: Id, busy: set<Id>)
    requires Completes(s, r, m) && Settled(s, m, Full(s, m)) && QueuesOk(s, busy) && Sought(s) && Ids(s)
    requires forall e :: e in s.log ==> e in r.log
    ensures Settled(r, 0, 0) && QueuesOk(r, busy + {m}) && Sought(r)
  {
    forall x, k | Waiting(r, x) && x in r.declared && 0 <= k < Reached(r, x, 0, 0)
      ensures SettledDep(r, x, r.declared[x].dependencies[k])
    {
      assert Waiting(s, x);
      assert SettledDep(s, x, s.declared[x].dependencies[k]);
    }
  }

  lemma FinishedLayered(s: State, r: State, m: Id)
    requires Completes(s, r, m) && Layered(Waits(s))
    ensures Layered(Waits(r))
  {
    FewerWaits(s, r);
  }

  /** A dependency that was cut off as part of a cycle is a declared module. */
  lemma WarnedIsDefined(s: State, d: Id, m: Id)
    requires LogOk(s.log, s.declared) && Warned(d, m) in s.log
    ensures d in s.declared
  {
    var k :| 0 <= k < |s.log| && s.log[k] == Warned(d, m);
    LogAt(s.log, s.declared, k);
    var _ := JoinedHasFirstEdge(Declares(s.declared), d, m);
  }

  lemma DoneHasExports(s: State, d: Id)
    requires Links(s) && Done(s, d)
    ensures CompletedWith(s.log, d, s.mods[d].exports)
  {
  }

  /** A module without unresolved dependencies is handed the final exports of all it waited for. */
  lemma ArgumentsOk(s: State, owed: multiset<Id>, m: Id, k: nat, busy: set<Id>)
    requires Inv(s, owed, m, Full(s, m), busy) && Waiting(s, m) && s.mods[m].unresolved == 0
    requires k < |s.declared[m].dependencies|
    ensures var d := s.declared[m].dependencies[k];
            ArgumentOk(s.log, m, s.declared[m].name, d, Argument(s, m, d))
  {
    var d := s.declared[m].dependencies[k];
    if !d.Special() {
      assert SettledDep(s, m, d);
      if Warned(d.Target(), m) in s.log {
        WarnedIsDefined(s, d.Target(), m);
        assert ModOk(s, d.Target(), m, Full(s, m));
        if Done(s, d.Target()) {
          DoneHasExports(s, d.Target());
        }
      } else if Done(s, d.Target()) {
        DoneHasExports(s, d.Target());
      } else {
        OnSomeList(s.waiters, s.nextId, m);
        assert false;
      }
    }
  }

  lemma FinishedCompletion(s: State, owed: multiset<Id>, m: Id, busy: set<Id>, args: seq<Value>)
    requires Inv(s, owed, m, Full(s, m), busy) && Waiting(s, m) && s.mods[m].unresolved == 0
    requires args == Arguments(s, m)
    ensures EntryOk(s.log, s.declared,
                    Completed(m, args, Produce(m, s.mods[m].callback, s.mods[m].exportsPassedIn, s.mods[m].exports, args).0))
  {
    assert ModOk(s, m, m, Full(s, m));
    forall k | 0 <= k < |args| ensures ArgumentOk(s.log, m, s.declared[m].name, s.declared[m].dependencies[k], args[k]) {
      ArgumentsOk(s, owed, m, k, busy);
    }
  }

  function CompletionEntry(s: State, m: Id): Entry
    requires m in s.mods
  {
    var args := Arguments(s, m);
    Completed(m, args, Produce(m, s.mods[m].callback, s.mods[m].exportsPassedIn, s.mods[m].exports, args).0)
  }

  lemma FinishedRecord(s: State, m: Id)
    requires Waiting(s, m)
    ensures var r := Finished(s, m);
            var e := CompletionEntry(s, m);
            && r.mods[m].exports == e.exports
            && (r.log == s.log + [e] || exists g :: r.log == s.log + [e] + [GlobalError(g)])
  {
  }

  lemma FinishedLog(s: State, r: State, owed: multiset<Id>, m: Id, busy: set<Id>)
    requires Inv(s, owed, m, Full(s, m), busy) && Waiting(s, m) && s.mods[m].unresolved == 0
    requires Completes(s, r, m) && r == Finished(s, m)
    ensures LogOk(r.log, r.declared) && Links(r) && forall e :: e in s.log ==> e in r.log
  {
    var e := CompletionEntry(s, m);
    FinishedCompletion(s, owed, m, busy, Arguments(s, m));
    FinishedRecord(s, m);
    LogGrows(s.log, s.declared, e);
    LinksAfterFinish(s, r.(log := s.log + [e]), m, e);
    if r.log != s.log + [e] {
      var g :| r.log == s.log + [e] + [GlobalError(g)];
      LogGrows(s.log + [e], s.declared, GlobalError(g));
      LinksAfterError(r.(log := s.log + [e]), r, g);
    }
  }

  lemma LinksAfterError(s: State, r: State, g: Error)
    requires Links(s) && r == Log(s, GlobalError(g))
    ensures Links(r)
  {
    LogFacts(s.log, GlobalError(g));
  }

  lemma LinksAfterFinish(s: State, r: State, m: Id, e: Entry)
    requires Links(s) && Completes(s, r, m) && e.Completed? && e.id == m
    requires r.log == s.log + [e] && r.mods[m].exports == e.exports
    ensures Links(r)
  {
    LogFacts(s.log, e);
  }

  lemma FinishKeeps(s: State, owed: multiset<Id>, m: Id, busy: set<Id>)
    requires Inv(s, owed, m, Full(s, m), busy) && Waiting(s, m) && s.mods[m].unresolved == 0
    ensures Inv(Finished(s, m), owed + multiset(WaitersOf(s, m)), 0, 0, busy + {m})
    ensures Done(Finished(s, m), m)
  {
    FinishedCompletes(s, m);
    var r := Finished(s, m);
    ReadyIsOnNoList(s, owed, m);
    FinishedShape(s, r, m);
    FinishedCounts(s, r, owed, m);
    FinishedLog(s, r, owed, m, busy);
    FinishedSettled(s, r, m, busy);
    FinishedLayered(s, r, m);
  }

  // ---- requests ---------------------------------------------------------------------------------

  /** From s to r only the record of requests and of plugin queues changes. */
  ghost predicate OnlyRequests(s: State, r: State) {
    && r.nextId == s.nextId && r.mods == s.mods && r.waiters == s.waiters
    && r.declared == s.declared && r.cycle == s.cycle
    && s.log <= r.log && s.known <= r.known
  }

  lemma RequestsKeepShape(s: State, r: State, m: Id, i: nat)
    requires OnlyRequests(s, r) && Ids(s) && ModsOk(s, m, i) && WaitersOk(s)
    ensures Ids(r) && ModsOk(r, m, i) && WaitersOk(r)
  {
  }

  lemma RequestsKeepCounts(s: State, r: State, owed: multiset<Id>, m: Id)
    requires OnlyRequests(s, r) && Counted(s, owed) && NothingReady(s, m)
    ensures Counted(r, owed) && NothingReady(r, m)
  {
  }

  lemma RequestsKeepSettled(s: State, r: State, m: Id, i: nat)
    requires OnlyRequests(s, r) && Settled(s, m, i)
    ensures Settled(r, m, i)
  {
    forall x, k | Waiting(r, x) && x in r.declared && 0 <= k < Reached(r, x, m, i)
      ensures SettledDep(r, x, r.declared[x].dependencies[k])
    {
      assert SettledDep(s, x, s.declared[x].dependencies[k]);
    }
  }

  lemma RequestsKeepLayered(s: State, r: State)
    requires OnlyRequests(s, r) && Layered(Waits(s))
    ensures Layered(Waits(r))
  {
    FewerWaits(s, r);
  }

  lemma RequestsKeepCore(s: State, r: State, owed: multiset<Id>, m: Id, i: nat, busy: set<Id>)
    requires exists b :: Core(s, owed, m, i, b)
    requires OnlyRequests(s, r) && QueuesOk(r, busy) && LogOk(r.log, r.declared) && Links(r)
    ensures Core(r, owed, m, i, busy)
  {
    hide OnlyRequests, Ids, ModsOk, WaitersOk, Counted, NothingReady, Settled, QueuesOk, LogOk, Links, Layered, Waits;
    RequestsKeepShape(s, r, m, i);
    RequestsKeepCounts(s, r, owed, m);
    RequestsKeepSettled(s, r, m, i);
    RequestsKeepLayered(s, r);
  }

  lemma RequestLog(s: State, id: Id, e: Entry)
    requires LogOk(s.log, s.declared) && Links(s) && id !in s.known
    requires e == Requested(id)
          || (e.ResourceRequested? && e.id == id && (CompletedWith(s.log, e.pluginId, e.plugin) || FailedIn(s.log, e.pluginId)))
    ensures var r := Log(s.(known := s.known + {id}), e);
            LogOk(r.log, r.declared) && Links(r)
  {
    LogFacts(s.log, e);
    LogGrows(s.log, s.declared, e);
  }

  /** The plugin is complete: what it exports is either its final value or it has failed. */
  ghost predicate PluginReady(log: seq<Entry>, p: Id, plugin: Value) {
    CompletedWith(log, p, plugin) || FailedIn(log, p)
  }

  lemma PluginReadyGrows(s: State, e: Entry, p: Id, plugin: Value)
    requires PluginReady(s.log, p, plugin)
    ensures PluginReady(s.log + [e], p, plugin)
  {
    FailedInGrows(s.log, e);
    if CompletedWith(s.log, p, plugin) {
      CompletedWithGrows(s.log, e, p, plugin);
    }
  }

  lemma RequestKeeps(s: State, id: Id, e: Entry, owed: multiset<Id>, m: Id, i: nat, busy: set<Id>)
    requires Core(s, owed, m, i, busy) && id !in s.known
    requires e == Requested(id) || (e.ResourceRequested? && e.id == id && PluginReady(s.log, e.pluginId, e.plugin))
    ensures Core(Log(s.(known := s.known + {id}), e), owed, m, i, busy)
  {
    hide Ids, ModsOk, WaitersOk, Counted, NothingReady, Settled, LogOk, Links, Layered, Waits, CompletedWith, FailedIn;
    RequestLog(s, id, e);
    RequestsKeepCore(s, Log(s.(known := s.known + {id}), e), owed, m, i, busy);
  }

  lemma LoadModuleKeeps(s: State, id: Id, owed: multiset<Id>, m: Id, i: nat, busy: set<Id>)
    requires Core(s, owed, m, i, busy)
    ensures Core(LoadModule(s, id), owed, m, i, busy) && IsSought(LoadModule(s, id), id)
    ensures forall d :: IsSought(s, d) ==> IsSought(LoadModule(s, id), d)
  {
    if id !in s.mods && id !in s.known {
      hide Core;
      RequestKeeps(s, id, Requested(id), owed, m, i, busy);
    }
  }

  lemma LoadPluginKeeps(s: State, plugin: Value, d: Dependency, owed: multiset<Id>, m: Id, i: nat, busy: set<Id>)
    requires Core(s, owed, m, i, busy) && d.Plugin? && PluginReady(s.log, d.pluginId, plugin)
    ensures Core(LoadPluginDependency(s, plugin, d), owed, m, i, busy)
    ensures PluginReady(LoadPluginDependency(s, plugin, d).log, d.pluginId, plugin)
  {
    hide Core, PluginReady;
    if d.id !in s.mods && d.id !in s.known {
      var e := ResourceRequested(d.id, d.pluginId, d.param, plugin);
      RequestKeeps(s, d.id, e, owed, m, i, busy);
      PluginReadyGrows(s, e, d.pluginId, plugin);
    }
  }

  lemma LoadPluginSeeks(s: State, plugin: Value, d: Dependency)
    requires d.Plugin?
    ensures var r := LoadPluginDependency(s, plugin, d);
            && (d.id in r.mods || d.id in r.known)
            && r.waiters == s.waiters
            && forall x :: IsSought(s, x) ==> IsSought(r, x)
  {
  }

  lemma CompletedWithGrows(log: seq<Entry>, e: Entry, m: Id, exports: Value)
    requires CompletedWith(log, m, exports)
    ensures CompletedWith(log + [e], m, exports)
  {
    var k :| 0 <= k < |log| && log[k].Completed? && log[k].id == m && log[k].exports == exports;
    assert (log + [e])[k] == log[k];
  }

  lemma {:induction false} HandOverKeepsCore(s: State, p: Id, plugin: Value, queue: seq<Dependency>,
                                             owed: multiset<Id>, busy: set<Id>)
    requires Core(s, owed, 0, 0, busy) && PluginReady(s.log, p, plugin)
    requires forall k :: 0 <= k < |queue| ==> queue[k].Plugin? && queue[k].pluginId == p
    ensures Core(HandOver(s, plugin, queue), owed, 0, 0, busy)
    decreases |queue|
  {
    hide Core, PluginReady, LoadPluginDependency;
    if queue != [] {
      LoadPluginKeeps(s, plugin, queue[0], owed, 0, 0, busy);
      HandOverKeepsCore(LoadPluginDependency(s, plugin, queue[0]), p, plugin, queue[1..], owed, busy);
    }
  }

  /** A plugin is asked for, or was asked for before, everything on its queue. */
  lemma {:induction false} HandOverSeeks(s: State, plugin: Value, queue: seq<Dependency>)
    requires forall k :: 0 <= k < |queue| ==> queue[k].Plugin?
    ensures var r := HandOver(s, plugin, queue);
            && r.waiters == s.waiters && r.mods == s.mods
            && (forall k :: 0 <= k < |queue| ==> queue[k].id in r.mods || queue[k].id in r.known)
            && (forall x :: IsSought(s, x) ==> IsSought(r, x))
    decreases |queue|
  {
    hide IsSought;
    if queue != [] {
      var s1 := LoadPluginDependency(s, plugin, queue[0]);
      LoadPluginSeeks(s, plugin, queue[0]);
      HandOverSeeks(s1, plugin, queue[1..]);
      HandOverKnowsMore(s1, plugin, queue[1..]);
      forall k | 0 <= k < |queue|
        ensures queue[k].id in HandOver(s, plugin, queue).mods || queue[k].id in HandOver(s, plugin, queue).known
      {
        assert k > 0 ==> queue[1..][k - 1] == queue[k];
      }
    }
  }

  lemma {:induction false} HandOverKnowsMore(s: State, plugin: Value, queue: seq<Dependency>)
    requires forall k :: 0 <= k < |queue| ==> queue[k].Plugin?
    ensures s.known <= HandOver(s, plugin, queue).known && s.mods == HandOver(s, plugin, queue).mods
    decreases |queue|
  {
    if queue != [] {
      HandOverKnowsMore(LoadPluginDependency(s, plugin, queue[0]), plugin, queue[1..]);
    }
  }

  lemma PluginPartSeeks(s: State, m: Id)
    requires m in s.mods && QueuesHoldPlugins(s) && Sought(s)
    ensures Sought(PluginPart(s, m))
  {
    var queue := QueueOf(s, m);
    var s1 := s.(pluginWaiters := s.pluginWaiters - {m});
    HandOverSeeks(s1, s.mods[m].exports, queue);
    var r := PluginPart(s, m);
    forall d | d in r.waiters && r.waiters[d] != [] ensures IsSought(r, d) {
      assert IsSought(s, d);
      if d !in s.mods && d !in s.known {
        var p, k :| p in s.pluginWaiters && 0 <= k < |s.pluginWaiters[p]| && s.pluginWaiters[p][k].Target() == d;
        if p != m {
          assert s1.pluginWaiters[p] == s.pluginWaiters[p];
          assert IsSought(s1, d);
        } else {
          assert queue[k].id == d;
        }
      }
    }
  }

  lemma QueueRemoved(s: State, m: Id, busy: set<Id>)
    requires QueuesOk(s, busy + {m})
    ensures QueuesOk(s.(pluginWaiters := s.pluginWaiters - {m}), busy)
    ensures forall k :: 0 <= k < |QueueOf(s, m)| ==> QueueOf(s, m)[k].Plugin? && QueueOf(s, m)[k].pluginId == m
  {
  }

  lemma QueueRemovedLinks(s: State, m: Id)
    requires Links(s)
    ensures Links(s.(pluginWaiters := s.pluginWaiters - {m}))
  {
  }

  lemma QueueRemovedKeepsCore(s: State, m: Id, owed: multiset<Id>, busy: set<Id>)
    requires Core(s, owed, 0, 0, busy + {m})
    ensures Core(s.(pluginWaiters := s.pluginWaiters - {m}), owed, 0, 0, busy)
  {
    hide Ids, ModsOk, WaitersOk, Counted, NothingReady, Settled, QueuesOk, LogOk, Layered, Waits, Links;
    QueueRemoved(s, m, busy);
    QueueRemovedLinks(s, m);
    RequestsKeepCore(s, s.(pluginWaiters := s.pluginWaiters - {m}), owed, 0, 0, busy);
  }

  lemma PluginPartKeeps(s: State, m: Id, owed: multiset<Id>, busy: set<Id>)
    requires Inv(s, owed, 0, 0, busy + {m}) && Done(s, m)
    ensures QueuesHoldPlugins(s) && Inv(PluginPart(s, m), owed, 0, 0, busy)
  {
    hide Core, Sought, CompletedWith;
    InvGivesShape(s, owed, 0, 0, busy + {m});
    PluginPartSeeks(s, m);
    assert QueuesOk(s, busy + {m}) && Links(s) by { CoreParts(s, owed, 0, 0, busy + {m}); }
    QueueRemoved(s, m, busy);
    DoneHasExports(s, m);
    hide QueuesOk, Links;
    QueueRemovedKeepsCore(s, m, owed, busy);
    HandOverKeepsCore(s.(pluginWaiters := s.pluginWaiters - {m}), m, s.mods[m].exports, QueueOf(s, m), owed, busy);
  }

  lemma CoreParts(s: State, owed: multiset<Id>, r: Id, i: nat, busy: set<Id>)
    requires Core(s, owed, r, i, busy)
    ensures QueuesOk(s, busy) && Links(s) && LogOk(s.log, s.declared) && Ids(s) && ModsOk(s, r, i) && WaitersOk(s)
  {
  }
}

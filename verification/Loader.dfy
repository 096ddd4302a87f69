/** The module manager together with the ids it hands out: every state it gets into is the end of a run. */
module Loaders {
  import opened Options
  import opened Graphs
  import opened LoaderState
  import opened LoaderInvariant
  import opened LoaderRuns
  import opened LoaderCycles
  import opened ModuleIds
  import opened ModuleManagers

  /** The declared modules have the names their ids were handed out for. */
  ghost predicate AllNamed(declared: map<Id, Declaration>, names: seq<string>) {
    forall m :: m in declared ==> m < |names| && declared[m].name == names[m]
  }

  lemma NamesGrow(declared: map<Id, Declaration>, names: seq<string>, more: seq<string>)
    requires AllNamed(declared, names) && names <= more
    ensures AllNamed(declared, more)
  {
  }

  lemma OneMoreName(declared: map<Id, Declaration>, more: map<Id, Declaration>, names: seq<string>, m: Id, name: string)
    requires AllNamed(declared, names) && m < |names| && names[m] == name
    requires forall x :: x in more ==> (x in declared && more[x] == declared[x]) || (x == m && more[x].name == name)
    ensures AllNamed(more, names)
  {
  }

  lemma RestHasShape(s: State)
    requires AtRest(s)
    ensures Linked(s) && QueuesHoldPlugins(s)
  {
    InvGivesShape(s, multiset{}, 0, 0, {});
  }

  /** What a call of the run is and does, once its names have numbers. */
  lemma CallGoesOn(events: seq<Event>, s: State, call: Event)
    requires Run(events, s) && call.DefineCall? && s.nextId <= call.nextId && FIRST_FREE_ID <= call.id < call.nextId
    requires forall k :: 0 <= k < |call.decl.dependencies| ==> call.decl.dependencies[k].Below(call.nextId)
    ensures AtRest(s) && Enabled(s, call) && Run(events + [call], Step(s, call))
    ensures Linked(s) && QueuesHoldPlugins(s)
    ensures Step(s, call) == Define(s, call.id, call.decl, call.errorback, call.nextId)
    ensures Step(s, call).declared == if call.id in s.mods then s.declared else s.declared[call.id := call.decl]
  {
    hide AtRest, Run, Resolve;
    RunsAtRest(events, s);
    RestHasShape(s);
    StepDeclares(s, call);
    OneMoreEvent(events, s, call);
  }

  class Loader {
    const ids: ModuleIdProvider
    const manager: ModuleManager
    ghost var events: seq<Event>

    /** The manager is where the calls so far lead, and knows exactly the ids that were handed out, by name. */
    ghost predicate Valid()
      reads this, ids, manager, manager.modules.Values
    {
      && ids.Valid() && manager.Valid() && manager.nextId == ids.nextId
      && Run(events, manager.View())
      && AllNamed(manager.declared, ids.intModuleIdToStrModuleId)
    }

    constructor ()
      ensures Valid() && events == [] && fresh(ids) && fresh(manager)
    {
      ids := new ModuleIdProvider();
      manager := new ModuleManager();
      events := [];
      new;
      EmptyRun();
    }

    /**
     `defineModule`, with names. A name that is defined already is left alone, and its dependencies are
     not looked at. Otherwise the module waits, completes or fails just as the run says.
     */
    method DefineModule(strModuleId: string, dependencies: seq<string>, callback: Callback, errorback: bool)
        returns (moduleId: Id, ghost call: Event)
      requires Valid() && strModuleId !in ["exports", "module", "require"]
      modifies this, ids, manager, manager.modules.Values
      ensures Valid() && events == old(events) + [call] && AtRest(old(manager.View()))
      ensures Enabled(old(manager.View()), call) && manager.View() == Step(old(manager.View()), call)
      ensures call.DefineCall? && call.id == moduleId && call.errorback == errorback && call.nextId == ids.nextId
      ensures moduleId < ids.nextId && ids.intModuleIdToStrModuleId[moduleId] == strModuleId
      ensures call.decl.name == strModuleId && call.decl.callback == callback
      ensures moduleId !in old(manager.modules) ==>
                && |call.decl.dependencies| == |dependencies|
                && forall k :: 0 <= k < |dependencies| ==> ids.Means(strModuleId, dependencies[k], call.decl.dependencies[k])
    {
      hide *;
      Opened();
      ghost var names, declared := ids.intModuleIdToStrModuleId, manager.declared;
      var deps;
      moduleId, deps := Number(strModuleId, dependencies);
      NamesGrow(declared, names, ids.intModuleIdToStrModuleId);
      call := Perform(moduleId, strModuleId, deps, callback, errorback);
      OneMoreName(declared, manager.declared, ids.intModuleIdToStrModuleId, moduleId, strModuleId);
      Closed();
    }

    lemma Opened()
      requires Valid()
      ensures ids.Valid() && manager.Valid() && manager.nextId == ids.nextId && Run(events, manager.View())
      ensures AllNamed(manager.declared, ids.intModuleIdToStrModuleId)
    {
      hide Run;
    }

    lemma Closed()
      requires ids.Valid() && manager.Valid() && manager.nextId == ids.nextId && Run(events, manager.View())
      requires AllNamed(manager.declared, ids.intModuleIdToStrModuleId)
      ensures Valid()
    {
      hide Run;
    }

    /** The numbers of the name and, if it is new, of its dependencies. */
    method Number(strModuleId: string, dependencies: seq<string>) returns (moduleId: Id, deps: seq<Dependency>)
      requires ids.Valid() && strModuleId !in ["exports", "module", "require"]
      modifies ids
      ensures ids.Valid() && old(ids.nextId) <= ids.nextId
      ensures old(ids.intModuleIdToStrModuleId) <= ids.intModuleIdToStrModuleId
      ensures FIRST_FREE_ID <= moduleId < ids.nextId && ids.intModuleIdToStrModuleId[moduleId] == strModuleId
      ensures forall k :: 0 <= k < |deps| ==> deps[k].Below(ids.nextId)
      ensures moduleId !in manager.modules ==>
                && |deps| == |dependencies|
                && forall k :: 0 <= k < |dependencies| ==> ids.Means(strModuleId, dependencies[k], deps[k])
    {
      moduleId := ids.GetModuleId(strModuleId);
      assert ids.intModuleIdToStrModuleId[0] == ids.intModuleIdToStrModuleId[..FIRST_FREE_ID][0] == "exports";
      assert ids.intModuleIdToStrModuleId[1] == ids.intModuleIdToStrModuleId[..FIRST_FREE_ID][1] == "module";
      assert ids.intModuleIdToStrModuleId[2] == ids.intModuleIdToStrModuleId[..FIRST_FREE_ID][2] == "require";
      deps := [];
      if moduleId !in manager.modules {
        deps := ids.NormalizeDependencies(strModuleId, dependencies);
      }
    }

    /** The call itself, once all names have numbers. */
    method Perform(moduleId: Id, strModuleId: string, deps: seq<Dependency>, callback: Callback, errorback: bool)
        returns (ghost call: Event)
      requires manager.Valid() && Run(events, manager.View()) && manager.nextId <= ids.nextId
      requires FIRST_FREE_ID <= moduleId < ids.nextId && forall k :: 0 <= k < |deps| ==> deps[k].Below(ids.nextId)
      modifies `events, manager, manager.modules.Values
      ensures manager.Valid() && manager.nextId == ids.nextId
      ensures call == DefineCall(moduleId, Declaration(strModuleId, deps, callback), errorback, ids.nextId)
      ensures events == old(events) + [call] && Run(events, manager.View())
      ensures AtRest(old(manager.View())) && Enabled(old(manager.View()), call)
      ensures manager.View() == Step(old(manager.View()), call)
      ensures manager.declared == if moduleId in old(manager.modules) then old(manager.declared)
                                  else old(manager.declared)[moduleId := call.decl]
    {
      hide *;
      ghost var s := manager.View();
      manager.Seen();
      call := DefineCall(moduleId, Declaration(strModuleId, deps, callback), errorback, ids.nextId);
      CallGoesOn(events, s, call);
      events := events + [call];
      Do(moduleId, Declaration(strModuleId, deps, callback), errorback);
      manager.Seen();
    }

    method Do(moduleId: Id, decl: Declaration, errorback: bool)
      requires manager.Valid() && manager.nextId <= ids.nextId && moduleId < ids.nextId
      requires forall k :: 0 <= k < |decl.dependencies| ==> decl.dependencies[k].Below(ids.nextId)
      modifies manager, manager.modules.Values
      ensures Linked(old(manager.View())) && QueuesHoldPlugins(old(manager.View()))
      ensures manager.Valid() && manager.nextId == ids.nextId
      ensures manager.View() == Define(old(manager.View()), moduleId, decl, errorback, ids.nextId)
    {
      manager.Shaped();
      manager.HandOut(ids.nextId);
      hide Linked, QueuesHoldPlugins, Resolve;
      manager.DefineModule(moduleId, decl.name, decl.dependencies, decl.callback, errorback);
    }

    /** The report that a script could not be loaded. */
    method OnLoadError(moduleId: Id, cause: int)
      requires Valid() && moduleId < ids.nextId
      modifies this, manager, manager.modules.Values
      ensures Valid() && events == old(events) + [LoadError(moduleId, cause)] && AtRest(old(manager.View()))
      ensures Enabled(old(manager.View()), LoadError(moduleId, cause))
      ensures manager.View() == Step(old(manager.View()), LoadError(moduleId, cause))
    {
      ghost var s := manager.View();
      var e := LoadError(moduleId, cause);
      RunsAtRest(events, s);
      StepDeclares(s, e);
      OneMoreEvent(events, s, e);
      manager.OnLoadError(moduleId, cause);
      events := events + [e];
    }
  }
}

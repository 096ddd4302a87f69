/**
 The module manager as it runs: objects that are updated in place, loops over arrays, queues.
 Every method is proved equal to its function on the state in `LoaderState`.
 */
module ModuleManagers {
  import opened Options
  import opened Graphs
  import opened LoaderState
  import opened CyclePaths
  import opened LoaderTurns

  class Module {
    const id: Id
    const strId: string
    var dependencies: Option<seq<Dependency>>
    var callback: Callback
    var errorback: bool
    var exports: Value
    var error: Option<Error>
    var exportsPassedIn: bool
    var unresolvedDependenciesCount: int
    var isComplete: bool

    ghost function View(): Mod
      reads this
    {
      Mod(strId, dependencies, callback, errorback, exports, error, exportsPassedIn, unresolvedDependenciesCount, isComplete)
    }

    constructor (id: Id, strId: string, dependencies: seq<Dependency>, callback: Callback, errorback: bool)
      ensures this.id == id && this.dependencies == Some(dependencies)
      ensures View() == NewModule(Declaration(strId, dependencies, callback), errorback)
    {
      this.id, this.strId := id, strId;
      this.dependencies := Some(dependencies);
      this.callback := callback;
      this.errorback := errorback;
      exports := EmptyObject;
      error := None;
      exportsPassedIn := false;
      unresolvedDependenciesCount := |dependencies|;
      isComplete := false;
    }

    /** Runs the factory; hands back the error to report, if there is one. */
    method Complete(args: seq<Value>) returns (produced: Option<Error>)
      modifies this
      ensures Produce(id, old(callback), old(exportsPassedIn), old(exports), args) == (exports, produced)
      ensures match old(callback)
              case NoCallback => exports == old(exports) && produced == None
              case Literal(value) => exports == value && produced == None
              case Factory(run) =>
                var r := run(args);
                var own := if old(exportsPassedIn) then r.ownExports else old(exports);
                && exports == (if r.result.Returned? && (!old(exportsPassedIn) || own == EmptyObject) then r.result.value else own)
                && produced == (if r.result.Threw? then Some(Error(InFactory, id, [], r.result.cause)) else None)
      ensures View() == old(View()).(complete := true, exports := exports, dependencies := None, callback := NoCallback,
                errorback := false, error := if produced.Some? then produced else old(error))
    {
      isComplete := true;
      produced := None;
      match callback {
        case NoCallback =>
        case Literal(value) => exports := value;
        case Factory(run) =>
          var r := run(args);
          if exportsPassedIn {
            exports := r.ownExports;
          }
          match r.result {
            case Threw(cause) => produced := Some(Error(InFactory, id, [], cause));
            case ReturnedNothing =>
            case Returned(value) =>
              if !exportsPassedIn || exports == EmptyObject {
                exports := value;
              }
          }
      }
      if produced.Some? {
        error := produced;
      }
      dependencies := None;
      callback := NoCallback;
      errorback := false;
    }

    method OnDependencyError(err: Error) returns (handled: bool)
      modifies this
      ensures View() == old(View()).(complete := true, error := Some(err)) && handled == old(errorback)
    {
      isComplete := true;
      error := Some(err);
      handled := errorback;
    }
  }

  class ModuleManager {
    var nextId: nat
    var modules: map<Id, Module>
    var knownModules: set<Id>
    var inverseDependencies: map<Id, seq<Id>>
    var inversePluginDependencies: map<Id, seq<Dependency>>
    var hasDependencyCycle: bool
    ghost var declared: map<Id, Declaration>
    ghost var log: seq<Entry>

    ghost function View(): State
      reads this, modules.Values
    {
      State(nextId, map id | id in modules :: modules[id].View(), knownModules, inverseDependencies,
            inversePluginDependencies, hasDependencyCycle, declared, log)
    }

    /** Objects sit at their own ids, and every id in use has been handed out. */
    ghost predicate Placed()
      reads this, modules.Values
    {
      && (forall id :: id in modules ==> modules[id].id == id && id < nextId)
      && (forall id :: id in modules && modules[id].dependencies.Some? ==> Bounded(modules[id].dependencies.value))
    }

    ghost predicate Valid()
      reads this, modules.Values
    {
      Placed() && Linked(View()) && QueuesHoldPlugins(View())
    }

    ghost predicate Bounded(deps: seq<Dependency>)
      reads this
    {
      forall k :: 0 <= k < |deps| ==> deps[k].Below(nextId)
    }

    constructor ()
      ensures Valid() && View() == INITIAL && modules == map[]
    {
      nextId := FIRST_FREE_ID;
      modules := map[];
      knownModules := {};
      inverseDependencies := map[];
      inversePluginDependencies := map[];
      hasDependencyCycle := false;
      declared := map[];
      log := [];
    }

    // ---- path searches --------------------------------------------------------------------------

    /** Breadth-first search over the `dependencies` arrays: exact. */
    method HasDependencyPath(fromId: Id, toId: Id) returns (found: bool)
      requires Valid()
      ensures found == Joined(Deps(View()), fromId, toId)
    {
      hide *;
      ghost var s := View();
      Seen();
      Handed();
      if fromId !in modules {
        NoEdgesFromUndefined(s, fromId, toId);
        return false;
      }
      var inQueue := seq(nextId, _ => false)[fromId := true];
      var queue := [fromId];
      ghost var seen := {fromId};
      FirstMark(nextId, fromId);
      SearchStarts(s, fromId, toId);
      while queue != []
        invariant |inQueue| == nextId && Marks(inQueue, seen) && Searching(s, fromId, toId, queue, seen)
        decreases |s.mods.Keys - seen|, |queue|
      {
        var element := queue[0];
        SearchPops(s, fromId, toId, queue, seen);
        found, queue, inQueue, seen := WalkDependencies(element, toId, queue[1..], inQueue, s, fromId, seen);
        if found {
          return true;
        }
      }
      SearchEnds(s, fromId, toId, seen);
      return false;
    }

    /** Looks at the dependencies of one element, and puts those not seen yet on the queue. */
    method WalkDependencies(element: Id, toId: Id, queue: seq<Id>, inQueue: seq<bool>,
                            ghost s: State, ghost fromId: Id, ghost seen: set<Id>)
        returns (found: bool, longer: seq<Id>, marks: seq<bool>, ghost more: set<Id>)
      requires Valid() && View() == s && |inQueue| == nextId && Marks(inQueue, seen)
      requires element in s.mods && Scanning(s, fromId, toId, queue, seen, element, 0)
      ensures found ==> Joined(Deps(s), fromId, toId)
      ensures !found ==> |marks| == nextId && Marks(marks, more) && Searching(s, fromId, toId, longer, more)
      ensures |s.mods.Keys - more| < |s.mods.Keys - seen| || (more == seen && longer == queue)
    {
      ViewOfModules();
      hide *;
      found, longer, marks, more := false, queue, inQueue, seen;
      if modules[element].dependencies.Some? {
        var dependencies := modules[element].dependencies.value;
        for i := 0 to |dependencies|
          invariant |marks| == nextId && Marks(marks, more)
          invariant Scanning(s, fromId, toId, longer, more, element, i)
          invariant |s.mods.Keys - more| < |s.mods.Keys - seen| || (more == seen && longer == queue)
        {
          var dependency := dependencies[i];
          if dependency.Target() == toId {
            ScanFinds(s, fromId, toId, longer, more, element, i);
            found := true;
            return;
          }
          ScanSteps(s, fromId, toId, longer, more, element, i);
          NextMark(marks, more, dependency.Target());
          if dependency.Target() in modules && !marks[dependency.Target()] {
            marks := marks[dependency.Target() := true];
            longer := longer + [dependency.Target()];
            OneFewer(s.mods.Keys, more, dependency.Target());
            more := more + {dependency.Target()};
          }
        }
      }
      ScanEnds(s, fromId, toId, longer, more, element);
    }

    // ---- completion -------------------------------------------------------------------------------

    /** Only m has changed among the modules. */
    twostate lemma OneModuleChanged(m: Module)
      requires modules == old(modules) && m.id in modules && modules[m.id] == m
      requires forall id :: id in modules && id != m.id ==> modules[id].View() == old(modules[id].View())
      ensures View().mods == old(View()).mods[m.id := m.View()]
    {
    }

    /** The values handed to the factory of m. */
    method DependenciesValues(m: Module) returns (values: seq<Value>)
      requires Valid() && m.id in modules && modules[m.id] == m
      ensures values == Arguments(View(), m.id)
    {
      values := [];
      ghost var s := View();
      if m.dependencies.Some? {
        var dependencies := m.dependencies.value;
        for i := 0 to |dependencies|
          invariant |values| == i
          invariant forall k :: 0 <= k < i ==> values[k] == Argument(s, m.id, dependencies[k])
        {
          var dependency := dependencies[i];
          var value := Null;
          match dependency {
            case Exports => value := m.exports;
            case ThisModule => value := ModuleInfo(m.strId);
            case Require => value := RequireFor(m.strId);
            case _ =>
              if dependency.Target() in modules {
                value := modules[dependency.Target()].exports;
              }
          }
          values := values + [value];
        }
      }
    }

    /** Nothing but m, the log, the cycle flag, the requests and the lists has changed. */
    twostate predicate SameBut(m: Module)
      reads this, modules.Values
    {
      && modules == old(modules) && nextId == old(nextId) && declared == old(declared)
      && m.id in modules && modules[m.id] == m
      && forall id :: id in modules && id != m.id ==> modules[id].View() == old(modules[id].View())
    }

    twostate lemma StillPlaced(m: Module)
      requires old(Placed()) && SameBut(m)
      requires m.dependencies == old(m.dependencies) || m.dependencies.None?
      ensures Placed()
    {
      forall id | id in modules && id != m.id ensures modules[id].dependencies == old(modules[id].dependencies) {
        assert modules[id].View() == old(modules[id].View());
      }
    }

    twostate lemma CompletedView(m: Module, new values: seq<Value>, new err: Option<Error>)
      requires old(Valid()) && SameBut(m) && values == Arguments(old(View()), m.id)
      requires !old(m.isComplete)
      requires knownModules == old(knownModules) && hasDependencyCycle == old(hasDependencyCycle)
      requires inversePluginDependencies == old(inversePluginDependencies)
      requires inverseDependencies == old(inverseDependencies) - {m.id}
      requires Produce(m.id, old(m.callback), old(m.exportsPassedIn), old(m.exports), values) == (m.exports, err)
      requires m.View() == old(m.View()).(complete := true, exports := m.exports, dependencies := None,
                 callback := NoCallback, errorback := false, error := if err.Some? then err else old(m.error))
      requires log == old(log) + [Completed(m.id, values, m.exports)] + (if err.Some? then [GlobalError(err.value)] else [])
      ensures View() == Finished(old(View()), m.id) && Valid()
    {
      OneModuleChanged(m);
      StillPlaced(m);
      FinishedSmaller(old(View()), m.id);
      hide Arguments, Produce, Linked, QueuesHoldPlugins;
      var s := old(View());
      assert s.mods[m.id] == old(m.View());
      assert View().mods == Finished(s, m.id).mods;
      assert View().log == Finished(s, m.id).log;
    }

    /** The first part of a completion: the module itself, and its waiter list. */
    method CompleteModule(m: Module)
      requires Valid() && m.id in modules && modules[m.id] == m && !m.isComplete
      modifies this, m
      ensures modules == old(modules) && nextId == old(nextId)
      ensures View() == Finished(old(View()), m.id)
      ensures Valid()
    {
      hide Linked, QueuesHoldPlugins, Finished, Produce, Arguments;
      var values := DependenciesValues(m);
      var produced := m.Complete(values);
      log := log + [Completed(m.id, values, m.exports)];
      if produced.Some? {
        log := log + [GlobalError(produced.value)];
      }
      inverseDependencies := inverseDependencies - {m.id};
      CompletedView(m, values, produced);
    }

    method DecrementUnresolved(m: Module)
      requires Valid() && m.id in modules && modules[m.id] == m
      modifies m
      ensures Valid() && m.id in modules && modules[m.id] == m && modules == old(modules)
      ensures m.dependencies == old(m.dependencies)
      ensures View() == Drop(old(View()), m.id)
    {
      m.unresolvedDependenciesCount := m.unresolvedDependenciesCount - 1;
      OneModuleChanged(m);
      StillPlaced(m);
      DropShape(old(View()), m.id);
      assert View() == Drop(old(View()), m.id);
    }

    method OnModuleComplete(m: Module)
      requires Valid() && m.id in modules && modules[m.id] == m
      modifies this, modules.Values
      ensures Valid() && modules == old(modules) && nextId == old(nextId)
      ensures View() == Complete(old(View()), m.id)
      decreases Incomplete(View()), 0
    {
      ghost var s := View();
      ViewOf(m);
      CompleteUnfolds(s, m.id);
      if m.isComplete {
        return;
      }
      var inverseDeps := if m.id in inverseDependencies then inverseDependencies[m.id] else [];
      assert inverseDeps == WaitersOf(s, m.id);
      FinishedSmaller(s, m.id);
      hide *;
      CompleteModule(m);
      NotifyWaiters(inverseDeps);
      HandOverQueue(m);
    }

    /** The loop over the inverse dependencies of a module that has just completed. */
    method NotifyWaiters(inverseDeps: seq<Id>)
      requires Valid() && forall k :: 0 <= k < |inverseDeps| ==> inverseDeps[k] in View().mods
      modifies this, modules.Values
      ensures Linked(old(View())) && QueuesHoldPlugins(old(View()))
      ensures Valid() && modules == old(modules) && nextId == old(nextId)
      ensures View() == Notify(old(View()), inverseDeps)
      decreases Incomplete(View()), 4
    {
      ghost var s := View();
      Shaped();
      hide *;
      StartNotifying(s, inverseDeps);
      NotifyEach(inverseDeps, s);
      EndNotifying(s, inverseDeps, View());
    }

    method NotifyEach(inverseDeps: seq<Id>, ghost s: State)
      requires Valid() && Notifying(s, inverseDeps, View(), 0) && Incomplete(View()) <= Incomplete(s)
      modifies this, modules.Values
      ensures Valid() && modules == old(modules) && nextId == old(nextId)
      ensures Notifying(s, inverseDeps, View(), |inverseDeps|)
      decreases Incomplete(s), 3
    {
      hide *;
      for i := 0 to |inverseDeps|
        invariant Valid() && modules == old(modules) && nextId == old(nextId)
        invariant Notifying(s, inverseDeps, View(), i)
      {
        NotNewer(s, inverseDeps, View(), i);
        NotifyNext(inverseDeps, i, s);
      }
    }

    /** One turn of the loop. */
    method NotifyNext(inverseDeps: seq<Id>, i: nat, ghost s: State)
      requires Valid() && i < |inverseDeps| && Notifying(s, inverseDeps, View(), i)
      modifies this, modules.Values
      ensures Valid() && modules == old(modules) && nextId == old(nextId)
      ensures Notifying(s, inverseDeps, View(), i + 1)
      decreases Incomplete(View()), 2
    {
      hide *;
      KeepNotifying(s, inverseDeps, View(), i);
      NotifyWaiter(inverseDeps[i]);
    }

    method NotifyWaiter(inverseDependencyId: Id)
      requires Valid() && inverseDependencyId in View().mods
      requires var s1 := Drop(View(), inverseDependencyId); Linked(s1) && QueuesHoldPlugins(s1)
      requires Incomplete(Drop(View(), inverseDependencyId)) == Incomplete(View())
      modifies this, modules.Values
      ensures Valid() && modules == old(modules) && nextId == old(nextId)
      ensures var s1 := Drop(old(View()), inverseDependencyId);
              View() == if s1.mods[inverseDependencyId].unresolved == 0 then Complete(s1, inverseDependencyId) else s1
      decreases Incomplete(View()), 1
    {
      hide *;
      Located(inverseDependencyId);
      var inverseDependency := modules[inverseDependencyId];
      DecrementUnresolved(inverseDependency);
      ViewOf(inverseDependency);
      if inverseDependency.unresolvedDependenciesCount == 0 {
        OnModuleComplete(inverseDependency);
      }
    }

    // ---- resolving --------------------------------------------------------------------------------

    /** Examines the dependencies of a new module. */
    method Resolve(m: Module)
      requires Valid() && m.id in modules && modules[m.id] == m && m.dependencies.Some?
      modifies this, modules.Values
      ensures Linked(old(View())) && QueuesHoldPlugins(old(View())) && m.id in old(View()).mods
      ensures Valid() && modules == old(modules) && nextId == old(nextId)
      ensures View() == LoaderState.Resolve(old(View()), m.id, old(m.dependencies.value), 0)
    {
      ghost var s := View();
      var dependencies := m.dependencies.value;
      ViewOf(m);
      hide *;
      for i := 0 to |dependencies|
        invariant Valid() && modules == old(modules) && nextId == old(nextId)
        invariant m.id in View().mods && Linked(View()) && QueuesHoldPlugins(View())
        invariant LoaderState.Resolve(s, m.id, dependencies, 0) == LoaderState.Resolve(View(), m.id, dependencies, i)
      {
        ResolveUnfolds(View(), m.id, dependencies, i);
        var stop := ResolveOne(m, dependencies[i]);
        if stop {
          return;
        }
      }
      FinishResolving(m, dependencies);
    }

    method FinishResolving(m: Module, ghost dependencies: seq<Dependency>)
      requires Valid() && m.id in modules && modules[m.id] == m
      modifies this, modules.Values
      ensures Linked(old(View())) && QueuesHoldPlugins(old(View())) && m.id in old(View()).mods
      ensures Valid() && modules == old(modules) && nextId == old(nextId)
      ensures View() == LoaderState.Resolve(old(View()), m.id, dependencies, |dependencies|)
    {
      ViewOf(m);
      hide *;
      ResolveUnfolds(View(), m.id, dependencies, |dependencies|);
      if m.unresolvedDependenciesCount == 0 {
        OnModuleComplete(m);
      }
    }

    /** One turn of the loop of `Resolve`; says whether it is the last one. */
    method ResolveOne(m: Module, dependency: Dependency) returns (stop: bool)
      requires Valid() && m.id in modules && modules[m.id] == m
      modifies this, m
      ensures Valid() && modules == old(modules) && nextId == old(nextId)
      ensures stop <==> Poisoned(old(View()), dependency)
      ensures m.id in old(View()).mods && (!stop ==> View() == Look(old(View()), m.id, dependency))
      ensures stop ==> dependency.Target() in old(View()).mods && old(View()).mods[dependency.Target()].error.Some?
      ensures stop ==> View() == Fail(old(View()), m.id, old(View()).mods[dependency.Target()].error.value)
    {
      ViewOf(m);
      hide *;
      var poison := PoisonOf(dependency);
      stop := poison.Some?;
      if stop {
        FailModule(m, poison.value);
      } else {
        LookAt(m, dependency);
      }
    }

    /** The error of a dependency that is complete with one. */
    method PoisonOf(dependency: Dependency) returns (poison: Option<Error>)
      requires Valid()
      ensures poison.Some? <==> Poisoned(View(), dependency)
      ensures poison.Some? ==> dependency.Target() in View().mods && poison == View().mods[dependency.Target()].error
    {
      poison := None;
      if !dependency.Special() && dependency.Target() in modules && modules[dependency.Target()].isComplete {
        poison := modules[dependency.Target()].error;
      }
    }

    method FailModule(m: Module, error: Error)
      requires Valid() && m.id in modules && modules[m.id] == m
      modifies m, this`log
      ensures Valid() && m.id in old(View()).mods && View() == Fail(old(View()), m.id, error)
    {
      var handled := m.OnDependencyError(error);
      log := log + [Failed(m.id, error, handled)];
      OneModuleChanged(m);
      StillPlaced(m);
      assert View() == Fail(old(View()), m.id, error);
    }

    /** One turn of the loop of `Resolve`, for a dependency that does not stop it. */
    method LookAt(m: Module, dependency: Dependency)
      requires Valid() && m.id in modules && modules[m.id] == m
      modifies this, m
      ensures Valid() && modules == old(modules) && nextId == old(nextId)
      ensures m.id in old(View()).mods && View() == Look(old(View()), m.id, dependency)
    {
      ghost var s := View();
      ViewOf(m);
      if dependency.Special() {
        SpecialCase(s, m.id, dependency);
        hide *;
        SkipSpecialDependency(m, dependency);
      } else {
        hide *;
        LookAtModule(m, dependency);
      }
    }

    method LookAtModule(m: Module, dependency: Dependency)
      requires Valid() && m.id in modules && modules[m.id] == m && !dependency.Special()
      modifies this, m
      ensures Valid() && modules == old(modules) && nextId == old(nextId)
      ensures m.id in old(View()).mods && View() == Look(old(View()), m.id, dependency)
    {
      hide *;
      ViewOfModules();
      LookCases(View(), m.id, dependency);
      if dependency.Target() in modules && modules[dependency.Target()].isComplete {
        DecrementUnresolved(m);
      } else {
        var cyclic := HasDependencyPath(dependency.Target(), m.id);
        if cyclic {
          BreakTheCycle(m, dependency);
        } else {
          Await(m, dependency);
        }
      }
    }

    method SkipSpecialDependency(m: Module, dependency: Dependency)
      requires Valid() && m.id in modules && modules[m.id] == m
      modifies m
      ensures Valid() && m.dependencies == old(m.dependencies)
      ensures m.id in old(View()).mods && View() == SkipSpecial(old(View()), m.id, dependency)
    {
      if dependency.Exports? {
        m.exportsPassedIn := true;
      }
      m.unresolvedDependenciesCount := m.unresolvedDependenciesCount - 1;
      OneModuleChanged(m);
      StillPlaced(m);
      SkipIsOneUpdate(old(View()), m.id, dependency);
    }

    method BreakTheCycle(m: Module, dependency: Dependency)
      requires Valid() && m.id in modules && modules[m.id] == m
      modifies this`hasDependencyCycle, this`log, m
      ensures Valid() && m.dependencies == old(m.dependencies)
      ensures m.id in old(View()).mods && View() == BreakCycle(old(View()), m.id, dependency)
    {
      SeenKeys();
      hide Linked, QueuesHoldPlugins, View, Placed, Drop, ReportedCycle;
      ReportCycle(m.id, dependency.Target());
      DecrementUnresolved(m);
    }

    /** Raises the flag, and prints the cycle. */
    method ReportCycle(moduleId: Id, dependencyId: Id)
      requires Valid()
      modifies this`hasDependencyCycle, this`log
      ensures Valid() && View() == ReportedCycle(old(View()), moduleId, dependencyId)
    {
      hide *;
      ReportedUnfolds(View(), moduleId, dependencyId);
      RaiseFlag();
      Note(Warned(dependencyId, moduleId));
      var cyclePath := FindCyclePath(dependencyId, moduleId, 0);
      Note(Printed(Reversed(if cyclePath.Some? then cyclePath.value else []) + [dependencyId]));
    }

    method RaiseFlag()
      requires Valid()
      modifies this`hasDependencyCycle
      ensures Valid() && View() == old(View()).(cycle := true)
    {
      hasDependencyCycle := true;
    }

    method Note(entry: Entry)
      requires Valid()
      modifies this`log
      ensures Valid() && View() == Log(old(View()), entry)
    {
      log := log + [entry];
    }

    /** Records the inverse dependency, and starts what the wait needs. */
    method Await(m: Module, dependency: Dependency)
      requires Valid() && m.id in modules && modules[m.id] == m
      modifies this
      ensures Valid() && modules == old(modules) && nextId == old(nextId) && m.dependencies == old(m.dependencies)
      ensures View() == Fetch(AddWaiter(old(View()), m.id, dependency.Target()), dependency)
    {
      hide *;
      RecordInverse(m, dependency.Target());
      if dependency.Plugin? {
        FetchResource(dependency);
      } else {
        LoadModuleById(dependency.Target());
        FetchModule(old(View()), m.id, dependency);
      }
    }

    method RecordInverse(m: Module, dependencyId: Id)
      requires Valid() && m.id in modules && modules[m.id] == m
      modifies this`inverseDependencies
      ensures Valid() && View() == AddWaiter(old(View()), m.id, dependencyId)
    {
      var inverse := if dependencyId in inverseDependencies then inverseDependencies[dependencyId] else [];
      inverseDependencies := inverseDependencies[dependencyId := inverse + [m.id]];
      assert View() == AddWaiter(old(View()), m.id, dependencyId);
    }

    /** Asks the plugin for the resource, or queues it until the plugin is there. */
    method FetchResource(dependency: Dependency)
      requires Valid() && dependency.Plugin?
      modifies this`knownModules, this`log, this`inversePluginDependencies
      ensures Valid() && View() == Fetch(old(View()), dependency)
    {
      ViewOfModules();
      ghost var s := View();
      if dependency.pluginId in modules && modules[dependency.pluginId].isComplete {
        assert s.mods[dependency.pluginId].exports == modules[dependency.pluginId].exports;
        hide *;
        FetchCases(s, dependency);
        LoadPlugin(modules[dependency.pluginId].exports, dependency);
      } else {
        RecordInversePlugin(dependency);
        hide *;
        FetchCases(s, dependency);
        LoadModuleById(dependency.pluginId);
      }
    }

    method RecordInversePlugin(dependency: Dependency)
      requires Valid() && dependency.Plugin?
      modifies this`inversePluginDependencies
      ensures Valid() && View() == Enqueue(old(View()), dependency)
    {
      var inverse := if dependency.pluginId in inversePluginDependencies
                     then inversePluginDependencies[dependency.pluginId] else [];
      inversePluginDependencies := inversePluginDependencies[dependency.pluginId := inverse + [dependency]];
      assert View() == Enqueue(old(View()), dependency);
    }

    /** The path printed with a cycle warning. */
    method FindCyclePath(fromId: Id, toId: Id, depth: nat) returns (path: Option<seq<Id>>)
      requires Valid() && depth <= MAX_DEPTH
      ensures path == CyclePath(View().mods, fromId, toId, depth)
      decreases MAX_DEPTH - depth
    {
      if fromId == toId || depth == MAX_DEPTH {
        return Some([fromId]);
      }
      ViewOfModules();
      ghost var mods := View().mods;
      hide View, Placed, Linked, QueuesHoldPlugins;
      path := None;
      if fromId in modules && modules[fromId].dependencies.Some? {
        var dependencies := modules[fromId].dependencies.value;
        assert dependencies[0..] == dependencies;
        for i := 0 to |dependencies|
          invariant View().mods == mods && path == None
          invariant CyclePathVia(mods, fromId, dependencies, toId, depth)
                 == CyclePathVia(mods, fromId, dependencies[i..], toId, depth)
        {
          assert dependencies[i..][0] == dependencies[i] && dependencies[i..][1..] == dependencies[i + 1..];
          path := FindCyclePath(dependencies[i].Target(), toId, depth + 1);
          if path.Some? {
            return Some(path.value + [fromId]);
          }
        }
      }
    }

    // ---- calls from outside -------------------------------------------------------------------------

    /** New ids have been given to names. */
    method HandOut(n: nat)
      requires Valid() && nextId <= n
      modifies this`nextId
      ensures Valid() && nextId == n && View() == old(View()).(nextId := n)
    {
      nextId := n;
    }

    /** `defineModule`, with all ids resolved. */
    method DefineModule(moduleId: Id, strModuleId: string, dependencies: seq<Dependency>, callback: Callback, errorback: bool)
      requires Valid() && moduleId < nextId && Bounded(dependencies)
      modifies this, modules.Values
      ensures Linked(old(View())) && QueuesHoldPlugins(old(View()))
      ensures Valid() && nextId == old(nextId)
      ensures forall id :: id in old(modules) ==> id in modules && modules[id] == old(modules[id])
      ensures View() == Define(old(View()), moduleId, Declaration(strModuleId, dependencies, callback), errorback, nextId)
      ensures fresh(modules.Values - old(modules.Values))
    {
      Shaped();
      if moduleId in modules {
        assert View().(nextId := nextId) == View();
        return;
      }
      var m := Introduce(moduleId, strModuleId, dependencies, callback, errorback);
      Resolve(m);
    }

    /** A new module, put at its id and into the history. */
    method Introduce(moduleId: Id, strModuleId: string, dependencies: seq<Dependency>, callback: Callback, errorback: bool)
        returns (m: Module)
      requires Valid() && moduleId < nextId && Bounded(dependencies) && moduleId !in modules
      modifies this`modules, this`declared
      ensures fresh(m) && modules == old(modules)[moduleId := m] && m.id == moduleId
      ensures Valid() && m.dependencies == Some(dependencies)
      ensures View() == Declare(old(View()), moduleId, Declaration(strModuleId, dependencies, callback), errorback)
    {
      hide *;
      ghost var decl := Declaration(strModuleId, dependencies, callback);
      Shaped();
      SeenKeys();
      Seen();
      UpdateHasShape(View(), moduleId, NewModule(decl, errorback));
      DeclareIsUpdate(View(), moduleId, decl, errorback);
      m := new Module(moduleId, strModuleId, dependencies, callback, errorback);
      Store(m, decl, errorback);
      Record(moduleId, decl);
      Reshaped();
    }

    ghost method Record(moduleId: Id, decl: Declaration)
      modifies this`declared
      ensures declared == old(declared)[moduleId := decl] && View() == old(View()).(declared := declared)
      ensures old(Placed()) ==> Placed()
    {
      declared := declared[moduleId := decl];
    }

    lemma Reshaped()
      requires Placed() && Linked(View()) && QueuesHoldPlugins(View())
      ensures Valid()
    {
      hide Linked, QueuesHoldPlugins;
    }

    lemma SeenKeys()
      requires Valid()
      ensures View().mods.Keys == modules.Keys && Placed()
    {
    }

    /** A script could not be loaded. */
    method OnLoadError(moduleId: Id, cause: int)
      requires Valid() && moduleId < nextId
      modifies this, modules.Values
      ensures Linked(old(View())) && Valid() && nextId == old(nextId)
      ensures View() == LoadFailed(old(View()), moduleId, cause)
    {
      hide *;
      Shaped();
      LoadFailedUnfolds(View(), moduleId, cause);
      var error := CreateLoadError(moduleId, cause);
      EnsureModule(moduleId);
      NotifyOrReport(moduleId, error);
    }

    /** Local handlers first, the global one if there is none. */
    method NotifyOrReport(moduleId: Id, error: Error)
      requires Valid() && moduleId in modules
      modifies this, modules.Values
      ensures Linked(old(View())) && moduleId in old(View()).mods
      ensures Valid() && nextId == old(nextId)
      ensures var order := NotifyOrder(old(View()), [moduleId], {moduleId});
              && (forall x :: x in order ==> x in old(View()).mods)
              && var s1 := FailAll(old(View()), order, error);
              View() == if exists x :: x in order && old(View()).mods[x].errorback then s1 else Log(s1, GlobalError(error))
    {
      hide *;
      var someoneNotified := NotifyNeeding(moduleId, error);
      if !someoneNotified {
        Note(GlobalError(error));
      }
    }

    method CreateLoadError(moduleId: Id, cause: int) returns (error: Error)
      ensures error == LoadErrorOf(View(), moduleId, cause)
    {
      var neededBy := if moduleId in inverseDependencies then inverseDependencies[moduleId] else [];
      error := Error(Loading, moduleId, neededBy, cause);
    }

    /** An id that failed before it was defined gets a module, so that it has an error to show. */
    method EnsureModule(moduleId: Id)
      requires Valid() && moduleId < nextId
      modifies this`modules
      ensures Valid() && nextId == old(nextId) && moduleId in modules
      ensures fresh(modules.Values - old(modules.Values))
      ensures View() == EnsurePlaceholder(old(View()), moduleId)
    {
      if moduleId !in modules {
        AddPlaceholder(moduleId);
      }
    }

    method AddPlaceholder(moduleId: Id)
      requires Valid() && moduleId < nextId && moduleId !in modules
      modifies this`modules
      ensures moduleId in modules && fresh(modules[moduleId]) && modules == old(modules)[moduleId := modules[moduleId]]
      ensures Valid() && View() == EnsurePlaceholder(old(View()), moduleId)
    {
      hide *;
      Shaped();
      UpdateHasShape(View(), moduleId, NewModule(PLACEHOLDER, false));
      SeenKeys();
      PlaceholderIsUpdate(View(), moduleId);
      var m := new Module(moduleId, PLACEHOLDER.name, [], Factory(EMPTY_FUNCTION), false);
      NothingIsBounded();
      Store(m, PLACEHOLDER, false);
      Reshaped();
    }

    lemma NothingIsBounded()
      ensures Bounded([])
    {
    }

    /** Puts a new module at its id. */
    method Store(m: Module, ghost decl: Declaration, ghost errorback: bool)
      requires Placed() && m.id < nextId && m.id !in modules && m.View() == NewModule(decl, errorback)
      requires Bounded(decl.dependencies)
      modifies this`modules
      ensures Placed() && modules == old(modules)[m.id := m]
      ensures View() == Update(old(View()), m.id, NewModule(decl, errorback))
    {
      modules := modules[m.id := m];
      assert View().mods == old(View()).mods[m.id := m.View()];
    }

    /** Walks the chain of inverse dependencies and tells each module once. */
    method NotifyNeeding(moduleId: Id, error: Error) returns (someoneNotified: bool)
      requires Valid() && moduleId in modules
      modifies this, modules.Values
      ensures Linked(old(View())) && moduleId in old(View()).mods
      ensures Valid() && modules == old(modules) && nextId == old(nextId)
      ensures var order := NotifyOrder(old(View()), [moduleId], {moduleId});
              && (forall x :: x in order ==> x in old(View()).mods)
              && View() == FailAll(old(View()), order, error)
              && someoneNotified == exists x :: x in order && old(View()).mods[x].errorback
    {
      ghost var s0 := View();
      Shaped();
      ViewOfModules();
      OrderIsDefined(s0, [moduleId], {moduleId});
      ghost var order := NotifyOrder(s0, [moduleId], {moduleId});
      var seenModuleId := seq(nextId, _ => false)[moduleId := true];
      var queue := [moduleId];
      ghost var seen := {moduleId};
      ghost var told: seq<Id> := [];
      FirstMark(nextId, moduleId);
      NobodyTold(s0, error);
      hide *;
      StartTelling(s0, order, moduleId);
      someoneNotified := false;
      while queue != []
        invariant Valid() && modules == old(modules) && nextId == old(nextId) && |seenModuleId| == nextId
        invariant Marks(seenModuleId, seen) && Telling(s0, order, told, queue, seen)
        invariant Told(s0, told, error, View(), someoneNotified)
        decreases |s0.mods.Keys - seen|, |queue|
      {
        someoneNotified, seenModuleId, queue, told, seen :=
          NotifyFirst(queue, seenModuleId, error, someoneNotified, s0, order, told, seen);
      }
      EndTelling(s0, order, told, seen);
      EndTold(s0, told, error, View(), someoneNotified);
    }

    /** One turn of the loop: tells the first module of the queue and enqueues those that need it. */
    method NotifyFirst(queue: seq<Id>, seenModuleId: seq<bool>, error: Error, handledBefore: bool,
                       ghost s0: State, ghost order: seq<Id>, ghost told: seq<Id>, ghost seen: set<Id>)
        returns (handled: bool, marks: seq<bool>, next: seq<Id>, ghost told': seq<Id>, ghost seen': set<Id>)
      requires Valid() && queue != [] && |seenModuleId| == nextId && Marks(seenModuleId, seen)
      requires Telling(s0, order, told, queue, seen) && Told(s0, told, error, View(), handledBefore)
      modifies this, modules.Values
      ensures Valid() && modules == old(modules) && nextId == old(nextId) && |marks| == nextId && Marks(marks, seen')
      ensures Telling(s0, order, told', next, seen') && Told(s0, told', error, View(), handled)
      ensures |s0.mods.Keys - seen'| < |s0.mods.Keys - seen|
           || (|s0.mods.Keys - seen'| == |s0.mods.Keys - seen| && |next| < |queue|)
    {
      hide *;
      var queueElement := queue[0];
      TellingTurn(s0, order, told, queue, seen);
      TellNext(s0, told, error, View(), handledBefore, queueElement);
      var notified := TellModule(queueElement, error);
      handled := notified || handledBefore;
      told' := told + [queueElement];
      ToldSame(s0, told', error, View(), handled);
      var inverseDeps := WaitingFor(queueElement, s0);
      marks, next := EnqueueUnseen(inverseDeps, seenModuleId, queue[1..], seen);
      seen' := seen + Elements(Unseen(inverseDeps, seen));
    }

    method WaitingFor(id: Id, ghost s0: State) returns (inverseDeps: seq<Id>)
      requires Valid() && s0.waiters == View().waiters && s0.mods.Keys == View().mods.Keys
      ensures inverseDeps == WaitersOf(s0, id)
      ensures forall k :: 0 <= k < |inverseDeps| && inverseDeps[k] in s0.mods ==> inverseDeps[k] < nextId
    {
      inverseDeps := if id in inverseDependencies then inverseDependencies[id] else [];
    }

    method TellModule(moduleId: Id, error: Error) returns (handled: bool)
      requires Valid() && moduleId in View().mods
      modifies modules.Values, this`log
      ensures Valid() && View() == Fail(old(View()), moduleId, error) && handled == old(View()).mods[moduleId].errorback
    {
      Located(moduleId);
      ViewOf(modules[moduleId]);
      handled := modules[moduleId].errorback;
      FailModule(modules[moduleId], error);
    }

    /** Puts the ids not seen yet on the queue, and marks them. */
    static method EnqueueUnseen(inverseDeps: seq<Id>, seenModuleId: seq<bool>, queue: seq<Id>, ghost seen: set<Id>)
        returns (marks: seq<bool>, longer: seq<Id>)
      requires Marks(seenModuleId, seen) && forall k :: 0 <= k < |inverseDeps| ==> inverseDeps[k] < |seenModuleId|
      ensures |marks| == |seenModuleId| && Marks(marks, seen + Elements(Unseen(inverseDeps, seen)))
      ensures longer == queue + Unseen(inverseDeps, seen)
    {
      marks, longer := seenModuleId, queue;
      ghost var now := seen;
      assert inverseDeps[0..] == inverseDeps;
      for i := 0 to |inverseDeps|
        invariant |marks| == |seenModuleId| && Marks(marks, now)
        invariant longer + Unseen(inverseDeps[i..], now) == queue + Unseen(inverseDeps, seen)
        invariant now + Elements(Unseen(inverseDeps[i..], now)) == seen + Elements(Unseen(inverseDeps, seen))
      {
        var inverseDep := inverseDeps[i];
        UnseenTurn(inverseDeps, now, i);
        NextMark(marks, now, inverseDep);
        if !marks[inverseDep] {
          longer := longer + [inverseDep];
          marks := marks[inverseDep := true];
          now := now + {inverseDep};
        }
      }
      assert Unseen(inverseDeps[|inverseDeps|..], now) == [];
    }

    lemma ViewOf(m: Module)
      requires Valid() && m.id in modules && modules[m.id] == m
      ensures m.id in View().mods && View().mods[m.id] == m.View()
      ensures m.View().unresolved == m.unresolvedDependenciesCount && m.View().complete == m.isComplete
      ensures Linked(View()) && QueuesHoldPlugins(View())
    {
    }

    lemma Located(id: Id)
      requires Valid() && id in View().mods
      ensures id in modules && modules[id].id == id
    {
    }

    lemma Handed()
      requires Valid()
      ensures forall x :: x in modules ==> x < nextId
    {
    }

    lemma Seen()
      requires Valid()
      ensures View().declared == declared && View().nextId == nextId && View().mods.Keys == modules.Keys
    {
    }

    lemma Shaped()
      requires Valid()
      ensures Linked(View()) && QueuesHoldPlugins(View())
    {
    }

    /** The plugin work at the end of a completion. */
    method HandOverQueue(m: Module)
      requires Valid() && m.id in modules && modules[m.id] == m
      modifies this
      ensures Valid() && modules == old(modules) && nextId == old(nextId)
      ensures m.id in old(View()).mods && QueuesHoldPlugins(old(View()))
      ensures View() == PluginPart(old(View()), m.id)
    {
      hide *;
      var inversePluginDeps := TakeQueue(m);
      ghost var s1 := View();
      assert inversePluginDeps[0..] == inversePluginDeps;
      for i := 0 to |inversePluginDeps|
        invariant Valid() && modules == old(modules) && nextId == old(nextId) && m.exports == old(m.exports)
        invariant HandOver(s1, m.exports, inversePluginDeps) == HandOver(View(), m.exports, inversePluginDeps[i..])
      {
        HandOverTurn(View(), m.exports, inversePluginDeps, i);
        LoadPlugin(m.exports, inversePluginDeps[i]);
      }
      HandOverNothing(View(), m.exports, inversePluginDeps);
    }

    method TakeQueue(m: Module) returns (inversePluginDeps: seq<Dependency>)
      requires Valid() && m.id in modules && modules[m.id] == m
      modifies this`inversePluginDependencies
      ensures Valid() && m.id in old(View()).mods && QueuesHoldPlugins(old(View()))
      ensures forall k :: 0 <= k < |inversePluginDeps| ==> inversePluginDeps[k].Plugin?
      ensures PluginPart(old(View()), m.id) == HandOver(View(), m.exports, inversePluginDeps)
    {
      ghost var s := View();
      inversePluginDeps := if m.id in inversePluginDependencies then inversePluginDependencies[m.id] else [];
      inversePluginDependencies := inversePluginDependencies - {m.id};
      hide HandOver, Linked;
      assert View() == s.(pluginWaiters := s.pluginWaiters - {m.id});
      assert inversePluginDeps == QueueOf(s, m.id);
      assert s.mods[m.id].exports == m.exports;
    }

    method LoadPlugin(plugin: Value, dependency: Dependency)
      requires Valid() && dependency.Plugin?
      modifies this`knownModules, this`log
      ensures Valid()
      ensures View() == LoadPluginDependency(old(View()), plugin, dependency)
    {
      if dependency.id in modules || dependency.id in knownModules {
        return;
      }
      knownModules := knownModules + {dependency.id};
      log := log + [ResourceRequested(dependency.id, dependency.pluginId, dependency.param, plugin)];
    }

    method LoadModuleById(moduleId: Id)
      requires Valid()
      modifies this`knownModules, this`log
      ensures Valid()
      ensures View() == LoadModule(old(View()), moduleId)
    {
      if moduleId in modules || moduleId in knownModules {
        return;
      }
      knownModules := knownModules + {moduleId};
      log := log + [Requested(moduleId)];
    }

    lemma ViewOfModules()
      requires Valid()
      ensures View().mods.Keys == modules.Keys
      ensures forall x :: x in modules ==> x < nextId && View().mods[x] == modules[x].View()
      ensures forall x :: x in modules ==> View().mods[x].dependencies == modules[x].dependencies
                                           && View().mods[x].complete == modules[x].isComplete
      ensures forall x, k :: x in modules && modules[x].dependencies.Some? && 0 <= k < |modules[x].dependencies.value| ==>
                modules[x].dependencies.value[k].Target() < nextId
    {
    }
  }
}

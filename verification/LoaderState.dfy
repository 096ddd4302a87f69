/**
 The state of the AMD module manager as a value, and its operations as functions on that state.
 `ModuleManager` runs the same operations step by step on objects; the theorems about the
 protocol are lemmas about the functions here.

 Two fields are history, not state of the original: `declared` keeps what every accepted `define`
 call asked for, and `log` keeps what an observer outside the manager could see.
 */
module LoaderState {
  import opened Options
  import opened Graphs

  /** EXPORTS, MODULE and REQUIRE own the ids below this one. */
  const FIRST_FREE_ID: Id := 3

  /** How deep a cycle path is searched for. */
  const MAX_DEPTH := 50

  datatype Dependency =
    | Exports
    | ThisModule
    | Require
    | Regular(id: Id)
    | Plugin(id: Id, pluginId: Id, param: string)
  {
    predicate Special() {
      Exports? || ThisModule? || Require?
    }

    /** The `id` field of the dependency object. */
    function Target(): Id {
      match this
      case Exports => 0
      case ThisModule => 1
      case Require => 2
      case Regular(id) => id
      case Plugin(id, _, _) => id
    }

    predicate Below(n: nat) {
      Target() < n && (Plugin? ==> pluginId < n)
    }
  }

  datatype Value =
    | EmptyObject
    | Null
    | ModuleInfo(owner: string)
    | RequireFor(owner: string)
    | Data(tag: int)

  datatype Phase = Loading | InFactory

  datatype Error = Error(phase: Phase, moduleId: Id, neededBy: seq<Id>, cause: int)

  datatype FactoryResult = Returned(value: Value) | ReturnedNothing | Threw(cause: int)

  /** What one factory call did: its result, and what it left in its own exports object. */
  datatype FactoryRun = FactoryRun(result: FactoryResult, ownExports: Value)

  datatype Callback = NoCallback | Literal(value: Value) | Factory(run: seq<Value> -> FactoryRun)

  datatype Mod = Mod(
    name: string,
    dependencies: Option<seq<Dependency>>,
    callback: Callback,
    errorback: bool,
    exports: Value,
    error: Option<Error>,
    exportsPassedIn: bool,
    unresolved: int,
    complete: bool)

  datatype Declaration = Declaration(name: string, dependencies: seq<Dependency>, callback: Callback)

  datatype Entry =
    | Completed(id: Id, args: seq<Value>, exports: Value)
    | Warned(dependency: Id, dependent: Id)
    | Printed(path: seq<Id>)
    | Requested(id: Id)
    | ResourceRequested(id: Id, pluginId: Id, param: string, plugin: Value)
    | Failed(id: Id, error: Error, handled: bool)
    | GlobalError(error: Error)

  datatype State = State(
    nextId: nat,
    mods: map<Id, Mod>,
    known: set<Id>,
    waiters: map<Id, seq<Id>>,
    pluginWaiters: map<Id, seq<Dependency>>,
    cycle: bool,
    declared: map<Id, Declaration>,
    log: seq<Entry>)

  const INITIAL := State(FIRST_FREE_ID, map[], {}, map[], map[], false, map[], [])

  /** `function () { }` */
  const EMPTY_FUNCTION: seq<Value> -> FactoryRun := args => FactoryRun(ReturnedNothing, EmptyObject)

  /** What a module that never came is put down as; its name is not looked at again. */
  const PLACEHOLDER := Declaration("", [], Factory(EMPTY_FUNCTION))

  ghost predicate DependsOn(deps: seq<Dependency>, d: Id) {
    exists k :: 0 <= k < |deps| && deps[k].Target() == d
  }

  /** The edges the path searches follow: the `dependencies` arrays as they are now. */
  ghost function Deps(s: State): Rel {
    (a: Id, b: Id) => a in s.mods && s.mods[a].dependencies.Some? && DependsOn(s.mods[a].dependencies.value, b)
  }

  ghost function Incomplete(s: State): set<Id> {
    set x | x in s.mods && !s.mods[x].complete
  }

  ghost predicate Linked(s: State) {
    forall d, k :: d in s.waiters && 0 <= k < |s.waiters[d]| ==> s.waiters[d][k] in s.mods
  }

  ghost predicate SameModules(s: State, r: State) {
    r.mods.Keys == s.mods.Keys && Incomplete(r) <= Incomplete(s) && Linked(r)
  }

  function Log(s: State, e: Entry): State {
    s.(log := s.log + [e])
  }

  function Update(s: State, m: Id, mod: Mod): State {
    s.(mods := s.mods[m := mod])
  }

  function WaitersOf(s: State, d: Id): seq<Id> {
    if d in s.waiters then s.waiters[d] else []
  }

  function QueueOf(s: State, p: Id): seq<Dependency> {
    if p in s.pluginWaiters then s.pluginWaiters[p] else []
  }

  function NewModule(decl: Declaration, errorback: bool): Mod {
    Mod(decl.name, Some(decl.dependencies), decl.callback, errorback, EmptyObject, None, false, |decl.dependencies|, false)
  }

  /** `unresolvedDependenciesCount--` */
  function Drop(s: State, m: Id): State
    requires m in s.mods
  {
    Update(s, m, s.mods[m].(unresolved := s.mods[m].unresolved - 1))
  }

  /** `onDependencyError` */
  function Fail(s: State, m: Id, error: Error): State
    requires m in s.mods
  {
    Log(Update(s, m, s.mods[m].(complete := true, error := Some(error))),
        Failed(m, error, s.mods[m].errorback))
  }

  /** The values handed to the factory of m. */
  function Argument(s: State, m: Id, d: Dependency): Value
    requires m in s.mods
  {
    match d
    case Exports => s.mods[m].exports
    case ThisModule => ModuleInfo(s.mods[m].name)
    case Require => RequireFor(s.mods[m].name)
    case _ => if d.Target() in s.mods then s.mods[d.Target()].exports else Null
  }

  function Arguments(s: State, m: Id): seq<Value>
    requires m in s.mods
  {
    match s.mods[m].dependencies
    case None => []
    case Some(deps) => seq(|deps|, k requires 0 <= k < |deps| => Argument(s, m, deps[k]))
  }

  /** What a callback makes of the exports of its module, and the error it leaves. */
  function Produce(m: Id, callback: Callback, passedIn: bool, exports: Value, args: seq<Value>): (Value, Option<Error>) {
    match callback
    case NoCallback => (exports, None)
    case Literal(value) => (value, None)
    case Factory(run) =>
      var r := run(args);
      var own := if passedIn then r.ownExports else exports;
      match r.result
      case Threw(cause) => (own, Some(Error(InFactory, m, [], cause)))
      case ReturnedNothing => (own, None)
      case Returned(value) => (if !passedIn || own == EmptyObject then value else own, None)
  }

  /** `Module.complete` */
  function Finish(s: State, m: Id): State
    requires m in s.mods
  {
    var mod := s.mods[m];
    var args := Arguments(s, m);
    var (exports, error) := Produce(m, mod.callback, mod.exportsPassedIn, mod.exports, args);
    var done := mod.(complete := true, exports := exports, dependencies := None, callback := NoCallback,
                     errorback := false, error := if error.Some? then error else mod.error);
    var s1 := Log(Update(s, m, done), Completed(m, args, exports));
    if error.Some? then Log(s1, GlobalError(error.value)) else s1
  }

  function LoadModule(s: State, id: Id): State {
    if id in s.mods || id in s.known then s
    else Log(s.(known := s.known + {id}), Requested(id))
  }

  function LoadPluginDependency(s: State, plugin: Value, d: Dependency): State
    requires d.Plugin?
  {
    if d.id in s.mods || d.id in s.known then s
    else Log(s.(known := s.known + {d.id}), ResourceRequested(d.id, d.pluginId, d.param, plugin))
  }

  function HandOver(s: State, plugin: Value, queue: seq<Dependency>): State
    requires forall k :: 0 <= k < |queue| ==> queue[k].Plugin?
    decreases |queue|
  {
    if queue == [] then s
    else HandOver(LoadPluginDependency(s, plugin, queue[0]), plugin, queue[1..])
  }

  ghost predicate QueuesHoldPlugins(s: State) {
    forall p, k :: p in s.pluginWaiters && 0 <= k < |s.pluginWaiters[p]| ==> s.pluginWaiters[p][k].Plugin?
  }

  lemma HandOverKeeps(s: State, plugin: Value, queue: seq<Dependency>)
    requires forall k :: 0 <= k < |queue| ==> queue[k].Plugin?
    ensures var r := HandOver(s, plugin, queue);
            r.(known := s.known, log := s.log) == s
    decreases |queue|
  {
    if queue != [] {
      HandOverKeeps(LoadPluginDependency(s, plugin, queue[0]), plugin, queue[1..]);
    }
  }

  /** m is completed and its waiter list is cleared; its waiters are about to be notified. */
  function Finished(s: State, m: Id): State
    requires m in s.mods
  {
    var s1 := Finish(s, m);
    s1.(waiters := s1.waiters - {m})
  }

  /** The plugin work at the end of the completion of m. */
  ghost function PluginPart(s: State, m: Id): State
    requires m in s.mods && QueuesHoldPlugins(s)
  {
    HandOver(s.(pluginWaiters := s.pluginWaiters - {m}), s.mods[m].exports, QueueOf(s, m))
  }

  lemma FinishedSmaller(s: State, m: Id)
    requires m in s.mods && !s.mods[m].complete && Linked(s)
    ensures var r := Finished(s, m);
            && Incomplete(r) < Incomplete(s) && r.mods.Keys == s.mods.Keys && Linked(r)
            && r.pluginWaiters == s.pluginWaiters
            && forall k :: 0 <= k < |WaitersOf(s, m)| ==> WaitersOf(s, m)[k] in s.mods
  {
    var r := Finished(s, m);
    assert m in Incomplete(s) && m !in Incomplete(r);
  }

  lemma PluginPartShape(s: State, m: Id)
    requires m in s.mods && QueuesHoldPlugins(s) && Linked(s)
    ensures var r := PluginPart(s, m);
            r.mods == s.mods && Linked(r) && QueuesHoldPlugins(r)
  {
    HandOverKeeps(s.(pluginWaiters := s.pluginWaiters - {m}), s.mods[m].exports, QueueOf(s, m));
  }

  /** `_onModuleComplete` */
  ghost function Complete(s: State, m: Id): (r: State)
    requires m in s.mods && Linked(s) && QueuesHoldPlugins(s)
    ensures SameModules(s, r) && QueuesHoldPlugins(r)
    decreases Incomplete(s), 0
  {
    if s.mods[m].complete then s
    else
      FinishedSmaller(s, m);
      var r := Notify(Finished(s, m), WaitersOf(s, m));
      PluginPartShape(r, m);
      PluginPart(r, m)
  }

  /** The loop over the inverse dependencies of a module that has just completed. */
  ghost function Notify(s: State, ws: seq<Id>): (r: State)
    requires Linked(s) && QueuesHoldPlugins(s)
    requires forall k :: 0 <= k < |ws| ==> ws[k] in s.mods
    ensures SameModules(s, r) && QueuesHoldPlugins(r)
    decreases Incomplete(s), |ws|
  {
    if ws == [] then s
    else
      var s1 := Drop(s, ws[0]);
      assert Incomplete(s1) == Incomplete(s);
      var s2 := if s1.mods[ws[0]].unresolved == 0 then Complete(s1, ws[0]) else s1;
      Notify(s2, ws[1..])
  }

  /** Records that m waits for d. */
  function AddWaiter(s: State, m: Id, d: Id): State {
    s.(waiters := s.waiters[d := WaitersOf(s, d) + [m]])
  }

  function Enqueue(s: State, d: Dependency): State
    requires d.Plugin?
  {
    s.(pluginWaiters := s.pluginWaiters[d.pluginId := QueueOf(s, d.pluginId) + [d]])
  }

  /** Starts what a wait for dependency d needs. */
  function Fetch(s: State, d: Dependency): State {
    if d.Plugin? then
      if d.pluginId in s.mods && s.mods[d.pluginId].complete then
        LoadPluginDependency(s, s.mods[d.pluginId].exports, d)
      else
        LoadModule(Enqueue(s, d), d.pluginId)
    else
      LoadModule(s, d.Target())
  }

  function SkipSpecial(s: State, m: Id, d: Dependency): State
    requires m in s.mods
  {
    var mod := s.mods[m];
    Drop(Update(s, m, mod.(exportsPassedIn := mod.exportsPassedIn || d.Exports?)), m)
  }

  /** `_findCyclePath`; the path is built backwards, so it ends with `from`. */
  function CyclePath(mods: map<Id, Mod>, from: Id, to: Id, depth: nat): Option<seq<Id>>
    requires depth <= MAX_DEPTH
    decreases MAX_DEPTH - depth, 0
  {
    if from == to || depth == MAX_DEPTH then Some([from])
    else if from !in mods || mods[from].dependencies.None? then None
    else CyclePathVia(mods, from, mods[from].dependencies.value, to, depth)
  }

  /** The loop of `_findCyclePath` over the dependencies of `from`. */
  function CyclePathVia(mods: map<Id, Mod>, from: Id, deps: seq<Dependency>, to: Id, depth: nat): Option<seq<Id>>
    requires depth < MAX_DEPTH
    decreases MAX_DEPTH - depth - 1, |deps| + 1
  {
    if deps == [] then None
    else
      match CyclePath(mods, deps[0].Target(), to, depth + 1)
      case Some(path) => Some(path + [from])
      case None => CyclePathVia(mods, from, deps[1..], to, depth)
  }

  function Reversed(path: seq<Id>): (r: seq<Id>)
    ensures |r| == |path| && forall k :: 0 <= k < |path| ==> r[k] == path[|path| - 1 - k]
  {
    seq(|path|, k requires 0 <= k < |path| => path[|path| - 1 - k])
  }

  /** What is printed with a cycle warning: a path from the dependency to m, and the dependency again. */
  function PrintedPath(mods: map<Id, Mod>, d: Id, m: Id): seq<Id> {
    var path := CyclePath(mods, d, m, 0);
    Reversed(if path.Some? then path.value else []) + [d]
  }

  function ReportedCycle(s: State, m: Id, d: Id): State {
    Log(Log(s.(cycle := true), Warned(d, m)), Printed(PrintedPath(s.mods, d, m)))
  }

  function BreakCycle(s: State, m: Id, d: Dependency): State
    requires m in s.mods
  {
    Drop(ReportedCycle(s, m, d.Target()), m)
  }

  /** A dependency that is complete with an error stops the loop. */
  predicate Poisoned(s: State, d: Dependency) {
    !d.Special() && d.Target() in s.mods && s.mods[d.Target()].complete && s.mods[d.Target()].error.Some?
  }

  /** One turn of the loop of `_resolve`, for a dependency that does not stop it. */
  ghost function Look(s: State, m: Id, d: Dependency): State
    requires m in s.mods
  {
    if d.Special() then
      SkipSpecial(s, m, d)
    else if d.Target() in s.mods && s.mods[d.Target()].complete then
      Drop(s, m)
    else if Joined(Deps(s), d.Target(), m) then
      BreakCycle(s, m, d)
    else
      Fetch(AddWaiter(s, m, d.Target()), d)
  }

  lemma FetchSame(s: State, d: Dependency)
    ensures Fetch(s, d).(known := s.known, log := s.log, pluginWaiters := s.pluginWaiters) == s
  {
    if d.Plugin? {
      assert Enqueue(s, d) == s.(pluginWaiters := Enqueue(s, d).pluginWaiters);
      hide Enqueue;
    }
  }

  lemma FetchShape(s: State, d: Dependency)
    requires QueuesHoldPlugins(s)
    ensures QueuesHoldPlugins(Fetch(s, d))
  {
    if d.Plugin? {
      assert QueuesHoldPlugins(Enqueue(s, d));
    }
  }

  lemma LookShape(s: State, m: Id, d: Dependency)
    requires m in s.mods && Linked(s) && QueuesHoldPlugins(s)
    ensures var r := Look(s, m, d);
            && m in r.mods && Linked(r) && QueuesHoldPlugins(r) && r.declared == s.declared
  {
    if !d.Special() {
      FetchSame(AddWaiter(s, m, d.Target()), d);
      FetchShape(AddWaiter(s, m, d.Target()), d);
      hide Fetch;
      assert Linked(AddWaiter(s, m, d.Target()));
      assert Look(s, m, d).declared == s.declared;
    }
  }

  /** `_resolve` from its i-th dependency on. */
  ghost function Resolve(s: State, m: Id, deps: seq<Dependency>, i: nat): State
    requires m in s.mods && Linked(s) && QueuesHoldPlugins(s) && i <= |deps|
    decreases |deps| - i
  {
    if i == |deps| then
      if s.mods[m].unresolved == 0 then Complete(s, m) else s
    else if Poisoned(s, deps[i]) then
      Fail(s, m, s.mods[deps[i].Target()].error.value)
    else
      LookShape(s, m, deps[i]);
      Resolve(Look(s, m, deps[i]), m, deps, i + 1)
  }

  lemma {:induction false} ResolveUnfolds(s: State, m: Id, deps: seq<Dependency>, i: nat)
    requires m in s.mods && Linked(s) && QueuesHoldPlugins(s) && i <= |deps|
    ensures i == |deps| && s.mods[m].unresolved == 0 ==> Resolve(s, m, deps, i) == Complete(s, m)
    ensures i == |deps| && s.mods[m].unresolved != 0 ==> Resolve(s, m, deps, i) == s
    ensures i < |deps| && Poisoned(s, deps[i]) ==>
              && deps[i].Target() in s.mods && s.mods[deps[i].Target()].error.Some?
              && Resolve(s, m, deps, i) == Fail(s, m, s.mods[deps[i].Target()].error.value)
    ensures i < |deps| && !Poisoned(s, deps[i]) ==>
              var r := Look(s, m, deps[i]);
              m in r.mods && Linked(r) && QueuesHoldPlugins(r) && Resolve(s, m, deps, i) == Resolve(r, m, deps, i + 1)
  {
    if i < |deps| {
      LookShape(s, m, deps[i]);
    }
    hide Look, Complete, Linked, QueuesHoldPlugins;
  }

  /** `defineModule`, once the ids are resolved; nextId is what the id provider has reached. */
  ghost function Define(s: State, m: Id, decl: Declaration, errorback: bool, nextId: nat): State
    requires Linked(s) && QueuesHoldPlugins(s)
  {
    var s0 := s.(nextId := nextId);
    if m in s.mods then s0
    else Resolve(Declare(s0, m, decl, errorback), m, decl.dependencies, 0)
  }

  function Declare(s: State, m: Id, decl: Declaration, errorback: bool): State {
    Update(s, m, NewModule(decl, errorback)).(declared := s.declared[m := decl])
  }

  // ---- load errors ------------------------------------------------------------------------

  /** The ids of ws that are not in seen yet, each once. */
  function Unseen(ws: seq<Id>, seen: set<Id>): (news: seq<Id>)
    ensures forall x :: x in news <==> x in ws && x !in seen
  {
    if ws == [] then []
    else if ws[0] in seen then Unseen(ws[1..], seen)
    else [ws[0]] + Unseen(ws[1..], seen + {ws[0]})
  }

  function Elements(ids: seq<Id>): set<Id> {
    set x | x in ids
  }

  /** The order in which `_onLoadError` visits ids: breadth first over the inverse dependencies. */
  function NotifyOrder(s: State, queue: seq<Id>, seen: set<Id>): seq<Id>
    requires Linked(s) && seen <= s.mods.Keys
    decreases |s.mods.Keys - seen|, |queue|
  {
    if queue == [] then []
    else
      var news := Unseen(WaitersOf(s, queue[0]), seen);
      NewsSmaller(s, queue[0], seen);
      [queue[0]] + NotifyOrder(s, queue[1..] + news, seen + Elements(news))
  }

  lemma SmallerSet(a: set<Id>, b: set<Id>)
    requires a <= b
    ensures |a| <= |b| && (a != b ==> |a| < |b|)
  {
    assert b == a + (b - a);
  }

  /** `onDependencyError` on every id of order, in that order. */
  function FailAll(s: State, order: seq<Id>, error: Error): State
    requires forall x :: x in order ==> x in s.mods
  {
    s.(mods := map m | m in s.mods ::
                 if m in order then s.mods[m].(complete := true, error := Some(error)) else s.mods[m],
       log := s.log + seq(|order|, k requires 0 <= k < |order| => Failed(order[k], error, s.mods[order[k]].errorback)))
  }

  function EnsurePlaceholder(s: State, id: Id): State {
    if id in s.mods then s else Update(s, id, NewModule(PLACEHOLDER, false))
  }

  function LoadErrorOf(s: State, id: Id, cause: int): Error {
    Error(Loading, id, WaitersOf(s, id), cause)
  }

  /** `_onLoadError` */
  function LoadFailed(s: State, id: Id, cause: int): State
    requires Linked(s)
  {
    var error := LoadErrorOf(s, id, cause);
    var s0 := EnsurePlaceholder(s, id);
    var order := NotifyOrder(s0, [id], {id});
    OrderIsDefined(s0, [id], {id});
    var s1 := FailAll(s0, order, error);
    if exists x :: x in order && s0.mods[x].errorback then s1 else Log(s1, GlobalError(error))
  }

  lemma {:induction false} OrderIsDefined(s: State, queue: seq<Id>, seen: set<Id>)
    requires Linked(s) && seen <= s.mods.Keys && forall x :: x in queue ==> x in seen
    ensures forall x :: x in NotifyOrder(s, queue, seen) ==> x in s.mods
    decreases |s.mods.Keys - seen|, |queue|
  {
    if queue != [] {
      var news := Unseen(WaitersOf(s, queue[0]), seen);
      var seen' := seen + Elements(news);
      NewsSmaller(s, queue[0], seen);
      assert queue == [queue[0]] + queue[1..];
      OrderIsDefined(s, queue[1..] + news, seen');
    }
  }

  lemma NewsSmaller(s: State, x: Id, seen: set<Id>)
    requires Linked(s) && seen <= s.mods.Keys
    ensures var news := Unseen(WaitersOf(s, x), seen);
            && seen + Elements(news) <= s.mods.Keys
            && |s.mods.Keys - (seen + Elements(news))| <= |s.mods.Keys - seen|
            && (news != [] ==> |s.mods.Keys - (seen + Elements(news))| < |s.mods.Keys - seen|)
  {
    var news := Unseen(WaitersOf(s, x), seen);
    assert seen + Elements(news) <= s.mods.Keys;
    assert news != [] ==> news[0] in s.mods.Keys - seen && news[0] in Elements(news);
    SmallerSet(s.mods.Keys - (seen + Elements(news)), s.mods.Keys - seen);
  }
}

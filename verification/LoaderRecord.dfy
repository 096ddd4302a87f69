/** What the calls asked for is what modules hold and what the log records: callbacks, errorbacks and requests. */
module LoaderRecord {
  import opened Options
  import opened Graphs
  import opened LoaderState
  import opened LoaderInvariant
  import opened LoaderSteps
  import opened LoaderCascade
  import opened LoaderResolve
  import opened LoadErrors
  import opened LoaderRuns
  import opened LoaderGrowth

  // ---- the record ---------------------------------------------------------------------------------

  /** The error that a callback leaves when it is called with args. */
  function Thrown(callback: Callback, m: Id, args: seq<Value>): Option<Error> {
    match callback
    case Factory(run) =>
      (match run(args).result
       case Threw(cause) => Some(Error(InFactory, m, [], cause))
       case _ => None)
    case _ => None
  }

  /** The factory error that is reported right behind the k-th entry. */
  function Behind(log: seq<Entry>, k: nat): Option<Error> {
    if k + 1 < |log| && log[k + 1].GlobalError? && log[k + 1].error.phase.InFactory? then Some(log[k + 1].error) else None
  }

  /** Each completion is followed by the error its callback left, or by none. */
  ghost predicate ErrorsLogged(log: seq<Entry>, declared: map<Id, Declaration>) {
    forall k :: 0 <= k < |log| && log[k].Completed? ==>
      log[k].id in declared && Behind(log, k) == Thrown(declared[log[k].id].callback, log[k].id, log[k].args)
  }

  ghost predicate Flag(flags: map<Id, bool>, m: Id) {
    m in flags && flags[m]
  }

  /** A failure is handled by a module that came with an errorback and has not completed before. */
  ghost predicate HandledLogged(log: seq<Entry>, flags: map<Id, bool>) {
    forall f :: 0 <= f < |log| && log[f].Failed? ==>
      log[f].handled == (Flag(flags, log[f].id) && !CompletedIn(log[..f], log[f].id))
  }

  /** The id is the module, or the plugin, of the dependency. */
  predicate Fetches(d: Dependency, id: Id) {
    d == Regular(id) || (d.Plugin? && d.pluginId == id)
  }

  ghost predicate NamesScript(declared: map<Id, Declaration>, id: Id) {
    exists m, d :: m in declared && d in declared[m].dependencies && Fetches(d, id)
  }

  ghost predicate NamesResource(declared: map<Id, Declaration>, d: Dependency) {
    d.Plugin? && exists m :: m in declared && d in declared[m].dependencies
  }

  ghost predicate RequestNamed(declared: map<Id, Declaration>, e: Entry) {
    match e
    case Requested(d) => NamesScript(declared, d)
    case ResourceRequested(d, p, param, _) => NamesResource(declared, Plugin(d, p, param))
    case _ => true
  }

  /** Scripts are requested for ids that are named as such, resources from the plugins they are named with. */
  ghost predicate RequestsLogged(log: seq<Entry>, declared: map<Id, Declaration>) {
    forall k :: 0 <= k < |log| ==> RequestNamed(declared, log[k])
  }

  ghost predicate QueuesNamed(s: State) {
    forall p, d :: d in QueueOf(s, p) ==> NamesResource(s.declared, d) && d.pluginId == p
  }

  /** A resource is requested through the exports its plugin has for good. */
  ghost predicate PluginsLogged(s: State) {
    forall k :: 0 <= k < |s.log| && s.log[k].ResourceRequested? ==>
      var p := s.log[k].pluginId; p in s.mods && s.mods[p].complete && s.mods[p].exports == s.log[k].plugin
  }

  /** What a module still is to call is what it was defined with. */
  ghost predicate Equipped(s: State, flags: map<Id, bool>) {
    && flags.Keys == s.declared.Keys && s.declared.Keys <= s.mods.Keys
    && (forall m :: m in s.mods ==> s.mods[m].errorback == (Flag(flags, m) && !Done(s, m)))
    && (forall m :: Waiting(s, m) ==>
          m in s.declared && s.mods[m].callback == s.declared[m].callback
          && s.mods[m].error.None? && s.mods[m].dependencies.Some?)
  }

  /** A module that completed, and has not been reported as failed since, has the error its callback left. */
  ghost predicate ErrorsKept(s: State) {
    forall k :: 0 <= k < |s.log| && s.log[k].Completed? && !FailedIn(s.log, s.log[k].id) ==>
      var m := s.log[k].id;
      m in s.declared && m in s.mods && s.mods[m].error == Thrown(s.declared[m].callback, m, s.log[k].args)
  }

  ghost predicate InLog(s: State) {
    && (forall m :: Done(s, m) <==> CompletedIn(s.log, m))
    && (forall k :: 0 <= k < |s.log| && s.log[k].Failed? ==> s.log[k].id in s.mods)
  }

  ghost predicate Recorded(s: State, flags: map<Id, bool>) {
    && Equipped(s, flags) && InLog(s) && ErrorsKept(s) && PluginsLogged(s) && QueuesNamed(s)
    && ErrorsLogged(s.log, s.declared) && HandledLogged(s.log, flags) && RequestsLogged(s.log, s.declared)
  }

  // ---- one more entry -----------------------------------------------------------------------------

  lemma OneMoreError(log: seq<Entry>, declared: map<Id, Declaration>, e: Entry)
    requires ErrorsLogged(log, declared) && !e.Completed? && (e.GlobalError? ==> e.error.phase.Loading?)
    ensures ErrorsLogged(log + [e], declared)
  {
    var all := log + [e];
    forall k | 0 <= k < |all| && all[k].Completed?
      ensures all[k].id in declared && Behind(all, k) == Thrown(declared[all[k].id].callback, all[k].id, all[k].args)
    {
      assert all[k] == log[k];
    }
  }

  lemma OneMoreHandled(log: seq<Entry>, flags: map<Id, bool>, e: Entry)
    requires HandledLogged(log, flags)
    requires e.Failed? ==> e.handled == (Flag(flags, e.id) && !CompletedIn(log, e.id))
    ensures HandledLogged(log + [e], flags)
  {
    var all := log + [e];
    forall f | 0 <= f < |all| && all[f].Failed?
      ensures all[f].handled == (Flag(flags, all[f].id) && !CompletedIn(all[..f], all[f].id))
    {
      assert all[..f] == log[..f];
      assert log[..|log|] == log;
    }
  }

  /** An entry that completes nothing, fails nothing and requests nothing undeclared. */
  ghost predicate Plain(declared: map<Id, Declaration>, e: Entry) {
    !e.Completed? && !e.Failed? && (e.GlobalError? ==> e.error.phase.Loading?) && RequestNamed(declared, e)
  }

  lemma OneMorePlain(log: seq<Entry>, declared: map<Id, Declaration>, flags: map<Id, bool>, e: Entry)
    requires ErrorsLogged(log, declared) && HandledLogged(log, flags) && RequestsLogged(log, declared) && Plain(declared, e)
    ensures ErrorsLogged(log + [e], declared) && HandledLogged(log + [e], flags) && RequestsLogged(log + [e], declared)
  {
    hide ErrorsLogged, HandledLogged, RequestNamed;
    OneMoreError(log, declared, e);
    OneMoreHandled(log, flags, e);
  }

  /** The module facts survive a plain entry; a request needs its plugin to be there. */
  lemma NotePlain(s: State, flags: map<Id, bool>, e: Entry)
    requires Recorded(s, flags) && Plain(s.declared, e)
    requires e.ResourceRequested? ==>
               e.pluginId in s.mods && s.mods[e.pluginId].complete && s.mods[e.pluginId].exports == e.plugin
    ensures Recorded(Log(s, e), flags)
  {
    OneMorePlain(s.log, s.declared, flags, e);
    LogFacts(s.log, e);
    hide ErrorsLogged, HandledLogged, RequestsLogged, CompletedIn, FailedIn, RequestedIn, HasWarning, QueuesNamed, Thrown;
    var r := Log(s, e);
    assert QueuesNamed(r) by { SameQueuesNamed(s, r); }
    assert Equipped(r, flags) by { SameModsEquipped(s, r, flags); }
    assert forall k :: 0 <= k < |r.log| && k != |s.log| ==> r.log[k] == s.log[k];
    hide Equipped;
  }

  lemma SameQueuesNamed(s: State, r: State)
    requires QueuesNamed(s) && r.declared == s.declared && forall p, d :: d in QueueOf(r, p) ==> d in QueueOf(s, p)
    ensures QueuesNamed(r)
  {
    hide NamesResource;
  }

  lemma SameModsEquipped(s: State, r: State, flags: map<Id, bool>)
    requires Equipped(s, flags) && r.mods == s.mods && r.declared == s.declared
    ensures Equipped(r, flags)
  {
  }

  // ---- the small steps ----------------------------------------------------------------------------

  /** Counters, waiter lists, what is known and the flag do not matter. */
  ghost predicate SameRecord(s: State, r: State) {
    && r.declared == s.declared && r.log == s.log && r.pluginWaiters == s.pluginWaiters
    && r.mods.Keys == s.mods.Keys
    && forall m :: m in s.mods ==>
         r.mods[m] == s.mods[m].(unresolved := r.mods[m].unresolved, exportsPassedIn := r.mods[m].exportsPassedIn)
  }

  lemma SameRecorded(s: State, r: State, flags: map<Id, bool>)
    requires Recorded(s, flags) && SameRecord(s, r)
    ensures Recorded(r, flags)
  {
    assert QueuesNamed(r) by { SameQueuesNamed(s, r); }
    assert forall m :: Done(r, m) == Done(s, m);
    hide ErrorsLogged, HandledLogged, RequestsLogged, CompletedIn, FailedIn, QueuesNamed, Thrown;
    assert Equipped(r, flags);
    hide Equipped;
  }

  lemma DropRecorded(s: State, m: Id, flags: map<Id, bool>)
    requires Recorded(s, flags) && m in s.mods
    ensures Recorded(Drop(s, m), flags)
  {
    hide Recorded;
    SameRecorded(s, Drop(s, m), flags);
  }

  lemma NextIdRecorded(s: State, n: nat, flags: map<Id, bool>)
    requires Recorded(s, flags)
    ensures Recorded(s.(nextId := n), flags)
  {
    hide Recorded;
    SameRecorded(s, s.(nextId := n), flags);
  }

  lemma LoadModuleRecorded(s: State, id: Id, flags: map<Id, bool>)
    requires Recorded(s, flags) && NamesScript(s.declared, id)
    ensures Recorded(LoadModule(s, id), flags)
  {
    hide Recorded, NamesScript;
    if id !in s.mods && id !in s.known {
      var s1 := s.(known := s.known + {id});
      SameRecorded(s, s1, flags);
      NotePlain(s1, flags, Requested(id));
    }
  }

  lemma LoadPluginRecorded(s: State, plugin: Value, d: Dependency, flags: map<Id, bool>)
    requires Recorded(s, flags) && NamesResource(s.declared, d)
    requires d.pluginId in s.mods && s.mods[d.pluginId].complete && s.mods[d.pluginId].exports == plugin
    ensures Recorded(LoadPluginDependency(s, plugin, d), flags)
  {
    assert d == Plugin(d.id, d.pluginId, d.param);
    hide Recorded, NamesResource;
    if d.id !in s.mods && d.id !in s.known {
      var s1 := s.(known := s.known + {d.id});
      SameRecorded(s, s1, flags);
      NotePlain(s1, flags, ResourceRequested(d.id, d.pluginId, d.param, plugin));
    }
  }

  lemma EnqueueRecorded(s: State, d: Dependency, flags: map<Id, bool>)
    requires Recorded(s, flags) && NamesResource(s.declared, d)
    ensures Recorded(Enqueue(s, d), flags)
  {
    var r := Enqueue(s, d);
    assert QueuesNamed(r) by {
      hide NamesResource;
      forall p, e | e in QueueOf(r, p) ensures NamesResource(r.declared, e) && e.pluginId == p {
        assert e in QueueOf(s, p) || (e == d && p == d.pluginId);
      }
    }
    hide QueuesNamed, ErrorsLogged, HandledLogged, RequestsLogged, CompletedIn, FailedIn, Thrown;
    assert Equipped(r, flags) by { SameModsEquipped(s, r, flags); }
    hide Equipped;
  }

  lemma {:induction false} HandOverRecorded(s: State, p: Id, plugin: Value, queue: seq<Dependency>, flags: map<Id, bool>)
    requires Recorded(s, flags) && p in s.mods && s.mods[p].complete && s.mods[p].exports == plugin
    requires forall k :: 0 <= k < |queue| ==> NamesResource(s.declared, queue[k]) && queue[k].pluginId == p
    ensures (forall k :: 0 <= k < |queue| ==> queue[k].Plugin?) && Recorded(HandOver(s, plugin, queue), flags)
    decreases |queue|
  {
    assert forall k :: 0 <= k < |queue| ==> queue[k].Plugin?;
    hide Recorded, NamesResource;
    if queue != [] {
      LoadPluginRecorded(s, plugin, queue[0], flags);
      HandOverRecorded(LoadPluginDependency(s, plugin, queue[0]), p, plugin, queue[1..], flags);
    }
  }

  lemma PluginPartRecorded(s: State, m: Id, flags: map<Id, bool>)
    requires Recorded(s, flags) && m in s.mods && s.mods[m].complete && QueuesHoldPlugins(s)
    ensures Recorded(PluginPart(s, m), flags)
  {
    var s1 := s.(pluginWaiters := s.pluginWaiters - {m});
    assert forall k :: 0 <= k < |QueueOf(s, m)| ==> QueueOf(s, m)[k] in QueueOf(s, m);
    QueueDropped(s, m, flags);
    hide Recorded, NamesResource, HandOver;
    HandOverRecorded(s1, m, s.mods[m].exports, QueueOf(s, m), flags);
  }

  lemma QueueDropped(s: State, m: Id, flags: map<Id, bool>)
    requires Recorded(s, flags)
    ensures Recorded(s.(pluginWaiters := s.pluginWaiters - {m}), flags)
    ensures forall d :: d in QueueOf(s, m) ==> NamesResource(s.declared, d) && d.pluginId == m
  {
    var r := s.(pluginWaiters := s.pluginWaiters - {m});
    assert QueuesNamed(r) by {
      forall p, d | d in QueueOf(r, p) ensures d in QueueOf(s, p) {
      }
      SameQueuesNamed(s, r);
    }
    hide ErrorsLogged, HandledLogged, RequestsLogged, CompletedIn, FailedIn, Thrown, NamesResource;
    assert Equipped(r, flags) by { SameModsEquipped(s, r, flags); }
    hide Equipped;
  }

  // ---- completing -----------------------------------------------------------------------------------

  /** From s to r, m is completed with args, and the error its callback leaves is reported. */
  lemma FinishedEntries(s: State, m: Id)
    requires Waiting(s, m)
    ensures var r := Finished(s, m);
            var thrown := Thrown(s.mods[m].callback, m, Arguments(s, m));
            var done := Completed(m, Arguments(s, m), r.mods[m].exports);
            && r.log == (if thrown.Some? then s.log + [done] + [GlobalError(thrown.value)] else s.log + [done])
            && r.mods[m].error == (if thrown.Some? then thrown else s.mods[m].error) && !r.mods[m].errorback
  {
    hide Arguments;
  }

  lemma FinishedErrors(log: seq<Entry>, declared: map<Id, Declaration>, m: Id, args: seq<Value>, exports: Value)
    requires ErrorsLogged(log, declared) && m in declared
    ensures var thrown := Thrown(declared[m].callback, m, args);
            var done := Completed(m, args, exports);
            ErrorsLogged(if thrown.Some? then log + [done] + [GlobalError(thrown.value)] else log + [done], declared)
  {
    var thrown := Thrown(declared[m].callback, m, args);
    var done := Completed(m, args, exports);
    var all := if thrown.Some? then log + [done] + [GlobalError(thrown.value)] else log + [done];
    forall k | 0 <= k < |all| && all[k].Completed?
      ensures all[k].id in declared && Behind(all, k) == Thrown(declared[all[k].id].callback, all[k].id, all[k].args)
    {
      if k < |log| {
        assert all[k] == log[k];
      } else {
        assert k == |log|;
      }
    }
  }

  lemma FinishedOther(log: seq<Entry>, declared: map<Id, Declaration>, flags: map<Id, bool>, done: Entry, thrown: Option<Error>,
                      all: seq<Entry>)
    requires HandledLogged(log, flags) && RequestsLogged(log, declared) && done.Completed?
    requires all == if thrown.Some? then log + [done] + [GlobalError(thrown.value)] else log + [done]
    ensures log <= all && forall k :: |log| <= k < |all| ==> all[k].Completed? || all[k].GlobalError?
    ensures HandledLogged(all, flags) && RequestsLogged(all, declared)
    ensures forall m :: CompletedIn(all, m) <==> CompletedIn(log, m) || m == done.id
    ensures forall m :: FailedIn(all, m) <==> FailedIn(log, m)
  {
    OneMoreHandled(log, flags, done);
    LogFacts(log, done);
    hide HandledLogged, CompletedIn, FailedIn, RequestedIn, HasWarning;
    if thrown.Some? {
      OneMoreHandled(log + [done], flags, GlobalError(thrown.value));
      LogFacts(log + [done], GlobalError(thrown.value));
    }
  }

  lemma FinishedRecorded(s: State, m: Id, flags: map<Id, bool>)
    requires Recorded(s, flags) && Waiting(s, m)
    ensures Recorded(Finished(s, m), flags)
  {
    var r, args := Finished(s, m), Arguments(s, m);
    var thrown := Thrown(s.mods[m].callback, m, args);
    FinishedEntries(s, m);
    FinishedCompletes(s, m);
    FinishedErrors(s.log, s.declared, m, args, r.mods[m].exports);
    FinishedOther(s.log, s.declared, flags, Completed(m, args, r.mods[m].exports), thrown, r.log);
    hide ErrorsLogged, HandledLogged, RequestsLogged, CompletedIn, FailedIn, Thrown, Arguments, Finished;
    assert QueuesNamed(r) by { SameQueuesNamed(s, r); }
    hide QueuesNamed;
    FinishedEquipped(s, r, m, flags);
    FinishedKept(s, r, m, args, thrown);
    hide Equipped, ErrorsKept;
    FinishedInLog(s, r, m);
  }

  lemma FinishedInLog(s: State, r: State, m: Id)
    requires InLog(s) && PluginsLogged(s) && Waiting(s, m) && Completes(s, r, m) && s.log <= r.log
    requires forall k :: |s.log| <= k < |r.log| ==> r.log[k].Completed? || r.log[k].GlobalError?
    requires forall x :: CompletedIn(r.log, x) <==> CompletedIn(s.log, x) || x == m
    ensures InLog(r) && PluginsLogged(r)
  {
    hide CompletedIn;
    assert forall k :: 0 <= k < |s.log| ==> r.log[k] == s.log[k];
  }

  lemma FinishedEquipped(s: State, r: State, m: Id, flags: map<Id, bool>)
    requires Equipped(s, flags) && Waiting(s, m) && Completes(s, r, m) && !r.mods[m].errorback
    ensures Equipped(r, flags)
  {
  }

  lemma FinishedKept(s: State, r: State, m: Id, args: seq<Value>, thrown: Option<Error>)
    requires ErrorsKept(s) && InLog(s) && Waiting(s, m) && Completes(s, r, m) && m in s.declared && s.mods[m].error.None?
    requires thrown == Thrown(s.declared[m].callback, m, args) && r.mods[m].error == thrown
    requires var done := Completed(m, args, r.mods[m].exports);
             r.log == if thrown.Some? then s.log + [done] + [GlobalError(thrown.value)] else s.log + [done]
    requires forall x :: FailedIn(r.log, x) <==> FailedIn(s.log, x)
    ensures ErrorsKept(r)
  {
    hide FailedIn, Thrown;
    forall k | 0 <= k < |r.log| && r.log[k].Completed? && !FailedIn(r.log, r.log[k].id)
      ensures r.log[k].id in r.declared && r.log[k].id in r.mods
      ensures r.mods[r.log[k].id].error == Thrown(r.declared[r.log[k].id].callback, r.log[k].id, r.log[k].args)
    {
      if k < |s.log| {
        assert r.log[k] == s.log[k] && CompletedIn(s.log, s.log[k].id);
        assert r.log[k].id != m;
      }
    }
  }

  lemma {:induction false} CompleteRecorded(s: State, m: Id, flags: map<Id, bool>)
    requires Linked(s) && QueuesHoldPlugins(s) && m in s.mods && Recorded(s, flags)
    ensures Recorded(Complete(s, m), flags)
    decreases Incomplete(s), 0
  {
    if Waiting(s, m) {
      var s2 := Finished(s, m);
      FinishedSmaller(s, m);
      CompleteParts(s, m);
      DoneInNotify(s, m);
      hide *;
      FinishedRecorded(s, m, flags);
      NotifyRecorded(s2, WaitersOf(s, m), flags);
      PluginPartRecorded(Notify(s2, WaitersOf(s, m)), m, flags);
    }
  }

  lemma DoneInNotify(s: State, m: Id)
    requires Linked(s) && QueuesHoldPlugins(s) && Waiting(s, m)
    ensures Linked(Finished(s, m)) && QueuesHoldPlugins(Finished(s, m))
    ensures forall k :: 0 <= k < |WaitersOf(s, m)| ==> WaitersOf(s, m)[k] in Finished(s, m).mods
    ensures var r := Notify(Finished(s, m), WaitersOf(s, m)); m in r.mods && r.mods[m].complete && QueuesHoldPlugins(r)
  {
    FinishedSmaller(s, m);
    FinishedCompletes(s, m);
    hide Finished, Linked;
    var r := Notify(Finished(s, m), WaitersOf(s, m));
    assert m !in Incomplete(Finished(s, m));
  }

  lemma {:induction false} NotifyRecorded(s: State, ws: seq<Id>, flags: map<Id, bool>)
    requires Linked(s) && QueuesHoldPlugins(s) && Recorded(s, flags)
    requires forall k :: 0 <= k < |ws| ==> ws[k] in s.mods
    ensures Recorded(Notify(s, ws), flags)
    decreases Incomplete(s), |ws|
  {
    hide Recorded;
    if ws != [] {
      var s1 := Drop(s, ws[0]);
      DropRecorded(s, ws[0], flags);
      DropSameIncomplete(s, ws[0]);
      if s1.mods[ws[0]].unresolved == 0 {
        CompleteRecorded(s1, ws[0], flags);
        NotifyRecorded(Complete(s1, ws[0]), ws[1..], flags);
      } else {
        NotifyRecorded(s1, ws[1..], flags);
      }
    }
  }

  // ---- resolving ------------------------------------------------------------------------------------

  lemma FailRecorded(s: State, m: Id, error: Error, flags: map<Id, bool>)
    requires Recorded(s, flags) && Waiting(s, m)
    ensures Recorded(Fail(s, m, error), flags)
  {
    var r, e := Fail(s, m, error), Failed(m, error, s.mods[m].errorback);
    hide CompletedIn, FailedIn, RequestedIn, HasWarning, QueuesNamed, Equipped, Thrown, ErrorsLogged, HandledLogged;
    SameQueuesNamed(s, r);
    FailEquipped(s, m, error, flags);
    LogFacts(s.log, e);
    OneMoreError(s.log, s.declared, e);
    OneMoreHandled(s.log, flags, e);
    assert forall k :: 0 <= k < |s.log| ==> r.log[k] == s.log[k];
  }

  lemma FailEquipped(s: State, m: Id, error: Error, flags: map<Id, bool>)
    requires Equipped(s, flags) && InLog(s) && Waiting(s, m)
    ensures Equipped(Fail(s, m, error), flags) && !CompletedIn(s.log, m) && s.mods[m].errorback == Flag(flags, m)
  {
    hide CompletedIn;
  }

  lemma NamedByIts(declared: map<Id, Declaration>, m: Id, i: nat)
    requires m in declared && i < |declared[m].dependencies|
    ensures var d := declared[m].dependencies[i];
            && (d.Regular? ==> NamesScript(declared, d.Target()))
            && (d.Plugin? ==> NamesScript(declared, d.pluginId) && NamesResource(declared, d))
  {
    var d := declared[m].dependencies[i];
    assert d in declared[m].dependencies;
    assert d.Regular? ==> Fetches(d, d.Target());
    assert d.Plugin? ==> Fetches(d, d.pluginId);
  }

  lemma FetchRecorded(s: State, m: Id, i: nat, flags: map<Id, bool>)
    requires Recorded(s, flags) && m in s.declared && i < |s.declared[m].dependencies| && !s.declared[m].dependencies[i].Special()
    ensures Recorded(Fetch(s, s.declared[m].dependencies[i]), flags)
  {
    var d := s.declared[m].dependencies[i];
    NamedByIts(s.declared, m, i);
    hide Recorded, NamesScript, NamesResource;
    if d.Plugin? {
      if d.pluginId in s.mods && s.mods[d.pluginId].complete {
        LoadPluginRecorded(s, s.mods[d.pluginId].exports, d, flags);
      } else {
        EnqueueRecorded(s, d, flags);
        LoadModuleRecorded(Enqueue(s, d), d.pluginId, flags);
      }
    } else {
      LoadModuleRecorded(s, d.Target(), flags);
    }
  }

  lemma BreakRecorded(s: State, m: Id, d: Dependency, flags: map<Id, bool>)
    requires Recorded(s, flags) && m in s.mods
    ensures Recorded(BreakCycle(s, m, d), flags)
  {
    var s1 := s.(cycle := true);
    var s2 := Log(s1, Warned(d.Target(), m));
    hide Recorded, PrintedPath;
    SameRecorded(s, s1, flags);
    NotePlain(s1, flags, Warned(d.Target(), m));
    NotePlain(s2, flags, Printed(PrintedPath(s.mods, d.Target(), m)));
    DropRecorded(ReportedCycle(s, m, d.Target()), m, flags);
  }

  lemma LookRecorded(s: State, m: Id, i: nat, flags: map<Id, bool>)
    requires Recorded(s, flags) && m in s.mods && m in s.declared && i < |s.declared[m].dependencies|
    ensures Recorded(Look(s, m, s.declared[m].dependencies[i]), flags)
  {
    var d := s.declared[m].dependencies[i];
    SkipIsSame(s, m, d);
    hide Recorded, SameRecord, Fetch, BreakCycle, Deps, Drop, SkipSpecial;
    if d.Special() {
      SameRecorded(s, SkipSpecial(s, m, d), flags);
    } else if d.Target() in s.mods && s.mods[d.Target()].complete {
      DropRecorded(s, m, flags);
    } else if Joined(Deps(s), d.Target(), m) {
      BreakRecorded(s, m, d, flags);
    } else {
      SameRecorded(s, AddWaiter(s, m, d.Target()), flags);
      FetchRecorded(AddWaiter(s, m, d.Target()), m, i, flags);
    }
  }

  lemma SkipIsSame(s: State, m: Id, d: Dependency)
    requires m in s.mods
    ensures SameRecord(s, SkipSpecial(s, m, d)) && SameRecord(s, AddWaiter(s, m, d.Target()))
    ensures AddWaiter(s, m, d.Target()).declared == s.declared
  {
  }

  lemma {:induction false} ResolveRecorded(s: State, m: Id, deps: seq<Dependency>, i: nat, flags: map<Id, bool>)
    requires Linked(s) && QueuesHoldPlugins(s) && Resolving(s, m, i) && deps == s.declared[m].dependencies && Recorded(s, flags)
    ensures Recorded(Resolve(s, m, deps, i), flags)
    decreases |deps| - i, 1
  {
    hide *;
    Parts(s, m, i);
    ResolveUnfolds(s, m, deps, i);
    if i == |deps| {
      if s.mods[m].unresolved == 0 {
        CompleteRecorded(s, m, flags);
      }
    } else if Poisoned(s, deps[i]) {
      FailRecorded(s, m, s.mods[deps[i].Target()].error.value, flags);
    } else {
      ResolveRecordedOn(s, m, deps, i, flags);
    }
  }

  lemma {:induction false} ResolveRecordedOn(s: State, m: Id, deps: seq<Dependency>, i: nat, flags: map<Id, bool>)
    requires Linked(s) && QueuesHoldPlugins(s) && Resolving(s, m, i) && deps == s.declared[m].dependencies && Recorded(s, flags)
    requires i < |deps| && !Poisoned(s, deps[i])
    ensures Recorded(Resolve(s, m, deps, i), flags)
    decreases |deps| - i, 0
  {
    hide *;
    Parts(s, m, i);
    ResolveUnfolds(s, m, deps, i);
    LookRecorded(s, m, i, flags);
    LookKeeps(s, m, i);
    LookShape(s, m, deps[i]);
    ResolveRecorded(Look(s, m, deps[i]), m, deps, i + 1, flags);
  }

  // ---- calls from outside ---------------------------------------------------------------------------

  lemma MoreDeclared(s: State, r: State, flags: map<Id, bool>, more: map<Id, bool>)
    requires r.log == s.log && r.pluginWaiters == s.pluginWaiters
    requires forall m :: m in s.declared ==> m in r.declared && r.declared[m] == s.declared[m]
    requires forall m :: m in s.mods ==> Flag(more, m) == Flag(flags, m)
    requires InLog(s) && QueuesNamed(s)
    requires ErrorsLogged(s.log, s.declared) && HandledLogged(s.log, flags) && RequestsLogged(s.log, s.declared)
    ensures QueuesNamed(r)
    ensures ErrorsLogged(r.log, r.declared) && HandledLogged(r.log, more) && RequestsLogged(r.log, r.declared)
  {
    hide Thrown, CompletedIn, Flag;
    forall d | NamesResource(s.declared, d) ensures NamesResource(r.declared, d) {
      var m :| m in s.declared && d in s.declared[m].dependencies;
      assert m in r.declared && d in r.declared[m].dependencies;
    }
    forall d | NamesScript(s.declared, d) ensures NamesScript(r.declared, d) {
      var m, x :| m in s.declared && x in s.declared[m].dependencies && Fetches(x, d);
      assert m in r.declared && x in r.declared[m].dependencies;
    }
    hide NamesResource, NamesScript;
    assert RequestsLogged(r.log, r.declared);
    assert QueuesNamed(r) by {
      assert forall p :: QueueOf(r, p) == QueueOf(s, p);
    }
  }

  lemma DeclareRecorded(s: State, m: Id, decl: Declaration, errorback: bool, flags: map<Id, bool>)
    requires Recorded(s, flags) && m !in s.mods
    ensures Recorded(Declare(s, m, decl, errorback), flags[m := errorback])
  {
    var r, more := Declare(s, m, decl, errorback), flags[m := errorback];
    assert m !in s.declared;
    hide QueuesNamed, ErrorsLogged, HandledLogged, RequestsLogged, CompletedIn, FailedIn, Thrown, InLog, ErrorsKept, PluginsLogged;
    DeclareEquipped(s, m, decl, errorback, flags);
    MoreDeclared(s, r, flags, more);
    hide Equipped;
    DeclareKept(s, r, m);
  }

  lemma DeclareEquipped(s: State, m: Id, decl: Declaration, errorback: bool, flags: map<Id, bool>)
    requires Equipped(s, flags) && m !in s.mods
    ensures Equipped(Declare(s, m, decl, errorback), flags[m := errorback])
  {
  }

  lemma DeclareKept(s: State, r: State, m: Id)
    requires InLog(s) && ErrorsKept(s) && PluginsLogged(s) && m !in s.mods && m in r.mods && r.mods == s.mods[m := r.mods[m]]
    requires r.log == s.log && !r.mods[m].complete
    requires forall x :: x in s.declared ==> x in r.declared && r.declared[x] == s.declared[x]
    ensures InLog(r) && ErrorsKept(r) && PluginsLogged(r)
  {
    hide FailedIn, CompletedIn, Thrown;
    forall x ensures Done(r, x) == Done(s, x) {
    }
  }

  /** The notes of a load failure, one after the other. */
  lemma {:induction false} NotesRecorded(s: State, order: seq<Id>, error: Error, flags: map<Id, bool>, n: nat)
    requires Equipped(s, flags) && InLog(s) && n <= |order|
    requires ErrorsLogged(s.log, s.declared) && HandledLogged(s.log, flags) && RequestsLogged(s.log, s.declared)
    ensures var log := s.log + FailureNotes(s, order, error)[..n];
            && ErrorsLogged(log, s.declared) && HandledLogged(log, flags) && RequestsLogged(log, s.declared)
            && forall m :: CompletedIn(log, m) <==> CompletedIn(s.log, m)
  {
    var notes := FailureNotes(s, order, error);
    if n == 0 {
      assert s.log + notes[..0] == s.log;
    } else {
      NotesRecorded(s, order, error, flags, n - 1);
      var log, e := s.log + notes[..n - 1], notes[n - 1];
      assert s.log + notes[..n] == log + [e];
      assert e.handled == (Flag(flags, e.id) && !CompletedIn(s.log, e.id));
      hide ErrorsLogged, HandledLogged, CompletedIn, FailedIn, RequestedIn, HasWarning, Equipped, InLog;
      OneMoreError(log, s.declared, e);
      OneMoreHandled(log, flags, e);
      LogFacts(log, e);
    }
  }

  lemma ClosureLogged(s: State, r: State, id: Id, error: Error, order: seq<Id>, flags: map<Id, bool>)
    requires Recorded(s, flags) && ClosureFailed(s, r, id, error, order) && error.phase.Loading?
    ensures ErrorsLogged(r.log, r.declared) && HandledLogged(r.log, flags) && RequestsLogged(r.log, r.declared)
  {
    var notes := FailureNotes(s, order, error);
    NotesRecorded(s, order, error, flags, |order|);
    assert notes[..|order|] == notes && r.declared == s.declared;
    assert r.log == s.log + notes || r.log == s.log + notes + [GlobalError(error)];
    hide ErrorsLogged, HandledLogged, RequestsLogged, FailureNotes, Equipped, InLog, ErrorsKept, PluginsLogged, QueuesNamed;
    OneMorePlain(s.log + notes, s.declared, flags, GlobalError(error));
  }

  lemma FailsKept(s: State, r: State, id: Id, order: seq<Id>, tail: seq<Entry>)
    requires Fails(s, r, id, order, tail) && ModsOk(s, 0, 0) && InLog(s) && ErrorsKept(s) && PluginsLogged(s)
    ensures InLog(r) && ErrorsKept(r) && PluginsLogged(r)
  {
    FailsDone(s, r, id, order, tail);
    QuietFacts(s.log, tail);
    hide ModsOk, CompletedIn, Thrown, HasWarning, RequestedIn;
    forall k | 0 <= k < |r.log| ensures k < |s.log| ==> r.log[k] == s.log[k]
                                ensures k >= |s.log| ==> r.log[k].Failed? || r.log[k].GlobalError? {
      assert k >= |s.log| ==> r.log[k] == tail[k - |s.log|];
    }
    forall k | 0 <= k < |r.log| && r.log[k].Failed? ensures r.log[k].id in r.mods {
      if k >= |s.log| {
        assert FailedIn(tail, r.log[k].id) by { assert tail[k - |s.log|] == r.log[k]; }
      }
    }
    hide FailedIn;
    forall k | 0 <= k < |r.log| && r.log[k].Completed? && !FailedIn(r.log, r.log[k].id)
      ensures r.log[k].id in r.declared && r.log[k].id in r.mods
      ensures r.mods[r.log[k].id].error == Thrown(r.declared[r.log[k].id].callback, r.log[k].id, r.log[k].args)
    {
      assert !FailedIn(s.log, r.log[k].id) && r.log[k].id !in order;
    }
  }

  lemma FailsEquipped(s: State, r: State, id: Id, order: seq<Id>, tail: seq<Entry>, flags: map<Id, bool>)
    requires Fails(s, r, id, order, tail) && ModsOk(s, 0, 0) && Equipped(s, flags) && QueuesNamed(s)
    ensures Equipped(r, flags) && QueuesNamed(r)
  {
    FailsDone(s, r, id, order, tail);
    SameQueuesNamed(s, r);
    hide ModsOk, FailedIn, QuietEntries, QueuesNamed;
    assert id !in s.mods ==> id !in s.declared && id !in flags;
  }

  lemma LoadErrorIsLoading(s: State, id: Id, cause: int)
    ensures LoadErrorOf(s, id, cause).phase.Loading?
  {
  }

  lemma LoadFailedRecorded(s: State, id: Id, cause: int, flags: map<Id, bool>)
    requires ModsOk(s, 0, 0) && id < s.nextId && Linked(s) && Recorded(s, flags)
    ensures Recorded(LoadFailed(s, id, cause), flags)
  {
    var r := LoadFailed(s, id, cause);
    assert Equipped(s, flags) && InLog(s) && ErrorsKept(s) && PluginsLogged(s) && QueuesNamed(s);
    hide ModsOk, LoadFailed, Reaches, LoadErrorOf, Linked, Fails, ClosureFailed, Equipped, InLog, ErrorsKept, PluginsLogged,
      QueuesNamed, ErrorsLogged, HandledLogged, RequestsLogged;
    var order, tail := LoadFailedFails(s, id, cause);
    FailsKept(s, r, id, order, tail);
    FailsEquipped(s, r, id, order, tail, flags);
    var closure := LoadErrorClosure(s, id, cause);
    LoadErrorIsLoading(s, id, cause);
    ClosureLogged(s, r, id, LoadErrorOf(s, id, cause), closure, flags);
  }

  /** The flags after a call. */
  function FlagsAfter(s: State, e: Event, flags: map<Id, bool>): map<Id, bool> {
    if e.DefineCall? && e.id !in s.mods then flags[e.id := e.errorback] else flags
  }

  lemma StepRecorded(s: State, e: Event, r: State, flags: map<Id, bool>)
    requires Leads(s, e, r) && Recorded(s, flags)
    ensures Recorded(r, FlagsAfter(s, e, flags))
  {
    InvGivesShape(s, multiset{}, 0, 0, {});
    assert ModsOk(s, 0, 0);
    hide ModsOk, LoadFailed, Resolve, AtRest, Recorded, Linked, QueuesHoldPlugins;
    if e.LoadError? {
      LoadFailedRecorded(s, e.id, e.cause, flags);
    } else {
      NextIdRecorded(s, e.nextId, flags);
      if e.id !in s.mods {
        StepIsResolve(s, e);
        DeclareRecorded(s.(nextId := e.nextId), e.id, e.decl, e.errorback, flags);
        hide *;
        ResolveRecorded(Declared(s, e), e.id, e.decl.dependencies, 0, flags[e.id := e.errorback]);
      }
    }
  }
}

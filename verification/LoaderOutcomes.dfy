/** What callers get to see, in terms of what they called: exports, errors, errorbacks and requests. */
module LoaderOutcomes {
  import opened Options
  import opened Graphs
  import opened LoaderState
  import opened LoaderInvariant
  import opened LoaderResolve
  import opened LoadErrors
  import opened LoaderRuns
  import opened LoaderGrowth
  import opened LoaderRecord
  import opened LoaderStranding
  import opened LoaderHistory
  import opened LoaderPlugins
  import opened LoaderFlag

  // ---- the record of a history ----------------------------------------------------------------------

  ghost function FlagsUpTo(events: seq<Event>, states: seq<State>, n: nat): map<Id, bool>
    requires |states| == |events| + 1 && n <= |events|
  {
    if n == 0 then map[] else FlagsAfter(states[n - 1], events[n - 1], FlagsUpTo(events, states, n - 1))
  }

  lemma InitialRecorded()
    ensures Recorded(INITIAL, map[])
  {
  }

  lemma StartOf(events: seq<Event>, states: seq<State>)
    requires History(INITIAL, events, states)
    ensures |states| == |events| + 1 && states[0] == INITIAL && FlagsUpTo(events, states, 0) == map[]
  {
  }

  lemma FlagsUnfold(events: seq<Event>, states: seq<State>, n: nat)
    requires |states| == |events| + 1 && 0 < n <= |events|
    ensures FlagsUpTo(events, states, n) == FlagsAfter(states[n - 1], events[n - 1], FlagsUpTo(events, states, n - 1))
  {
  }

  lemma {:induction false} HistoryRecorded(events: seq<Event>, states: seq<State>, n: nat)
    requires History(INITIAL, events, states) && n <= |events|
    ensures |states| == |events| + 1 && Recorded(states[n], FlagsUpTo(events, states, n))
  {
    hide *;
    StartOf(events, states);
    if n == 0 {
      InitialRecorded();
    } else {
      CallAt(INITIAL, events, states, n - 1);
      HistoryRecorded(events, states, n - 1);
      StepRecorded(states[n - 1], events[n - 1], states[n], FlagsUpTo(events, states, n - 1));
      FlagsUnfold(events, states, n);
    }
  }

  lemma RunRecorded(events: seq<Event>, s: State) returns (flags: map<Id, bool>)
    requires Run(events, s)
    ensures Recorded(s, flags)
  {
    var states: seq<State> :| History(INITIAL, events, states) && states[|events|] == s;
    hide *;
    HistoryRecorded(events, states, |events|);
    flags := FlagsUpTo(events, states, |events|);
  }

  // ---- exports and errors -----------------------------------------------------------------------------

  /**
   What a module exports: its literal; what its factory returned; or its own exports object, as the
   factory left it, if the factory returned nothing, threw, or filled an exports object it asked for.
   */
  lemma CallbackDecidesExports(events: seq<Event>, s: State, k: nat)
    requires Run(events, s) && k < |s.log| && s.log[k].Completed?
    ensures s.log[k].id in s.declared
    ensures var exports, decl := s.log[k].exports, s.declared[s.log[k].id];
            match decl.callback
            case NoCallback => exports == EmptyObject
            case Literal(value) => exports == value
            case Factory(run) =>
              var r := run(s.log[k].args);
              var own := if Exports in decl.dependencies then r.ownExports else EmptyObject;
              exports == if r.result.Returned? && own == EmptyObject then r.result.value else own
  {
    EntryJustified(events, s, k);
    var deps := s.declared[s.log[k].id].dependencies;
    assert HasExports(deps, |deps|) <==> Exports in deps;
  }

  /**
   What a factory throws is reported to the global handler right behind the completion, and kept as the
   error of the module until a load of it is reported as failed; other callbacks leave no error.
   */
  lemma ThrownErrorsAreReported(events: seq<Event>, s: State, k: nat)
    requires Run(events, s) && k < |s.log| && s.log[k].Completed?
    ensures var m := s.log[k].id;
            && m in s.declared && m in s.mods
            && if s.declared[m].callback.Factory? && s.declared[m].callback.run(s.log[k].args).result.Threw? then
                 var error := Error(InFactory, m, [], s.declared[m].callback.run(s.log[k].args).result.cause);
                 && k + 1 < |s.log| && s.log[k + 1] == GlobalError(error)
                 && (!FailedIn(s.log, m) ==> s.mods[m].error == Some(error))
               else
                 && (k + 1 < |s.log| && s.log[k + 1].GlobalError? ==> s.log[k + 1].error.phase.Loading?)
                 && (!FailedIn(s.log, m) ==> s.mods[m].error == None)
  {
    var flags := RunRecorded(events, s);
    ExportsAreFinal(events, s, k);
    hide Run, FailedIn, Equipped, PluginsLogged, QueuesNamed, HandledLogged, RequestsLogged;
  }

  // ---- errorbacks -------------------------------------------------------------------------------------

  /** The k-th call is the first definition of m. */
  ghost predicate Introduces(events: seq<Event>, states: seq<State>, k: int, m: Id)
    requires |states| == |events| + 1 && 0 <= k < |events|
  {
    events[k].DefineCall? && events[k].id == m && m !in states[k].mods
  }

  /** m was first defined, among the first n calls, with an errorback. */
  ghost predicate Equips(events: seq<Event>, states: seq<State>, n: int, m: Id)
    requires |states| == |events| + 1 && n <= |events|
  {
    exists k :: 0 <= k < n && Introduces(events, states, k, m) && events[k].errorback
  }

  lemma IntroducesIs(events: seq<Event>, states: seq<State>, k: nat, m: Id)
    requires |states| == |events| + 1 && k < |events|
    ensures Introduces(events, states, k, m) <==> events[k].DefineCall? && events[k].id == m && m !in states[k].mods
  {
  }

  lemma IntroducedIsThere(events: seq<Event>, states: seq<State>, k: nat, n: nat, m: Id)
    requires History(INITIAL, events, states) && |states| == |events| + 1 && k < n <= |events| && Introduces(events, states, k, m)
    ensures m in states[n].mods
  {
    hide *;
    IntroducesIs(events, states, k, m);
    CallAt(INITIAL, events, states, k);
    RunTo(events, states, k + 1);
    RunsAtRest(events[..k + 1], states[k + 1]);
    StatesGrow(INITIAL, events, states, k + 1, n);
    DefinedIsThere(states[k], events[k], states[k + 1], states[n]);
  }

  lemma DefinedIsThere(s: State, e: Event, r: State, t: State)
    requires Leads(s, e, r) && AtRest(r) && Grows(r, t) && e.DefineCall? && e.id !in s.mods
    ensures e.id in t.mods
  {
    LeadsDeclared(s, e, r);
  }

  lemma {:induction false} FlagIsTheCalls(events: seq<Event>, states: seq<State>, n: nat, m: Id)
    requires History(INITIAL, events, states) && |states| == |events| + 1 && n <= |events|
    ensures Flag(FlagsUpTo(events, states, n), m) <==> Equips(events, states, n, m)
  {
    hide History;
    if n > 0 {
      FlagIsTheCalls(events, states, n - 1, m);
      if Introduces(events, states, n - 1, m) {
        forall k | 0 <= k < n - 1 ensures !Introduces(events, states, k, m) {
          if Introduces(events, states, k, m) {
            IntroducedIsThere(events, states, k, n - 1, m);
          }
        }
      }
    }
  }

  /** Until it completes normally, a module holds the errorback it was first defined with; a placeholder holds none. */
  lemma ErrorbackIsTheGiven(events: seq<Event>, states: seq<State>, m: Id)
    requires History(INITIAL, events, states) && |states| == |events| + 1 && m in states[|events|].mods
    ensures states[|events|].mods[m].errorback <==> Equips(events, states, |events|, m) && !Done(states[|events|], m)
  {
    HistoryRecorded(events, states, |events|);
    FlagIsTheCalls(events, states, |events|, m);
    hide History, Equips, FlagsUpTo, Flag, Done;
  }

  /** A module is told of a failure exactly if it was first defined with an errorback, and has not completed before. */
  lemma FailuresAreHandledByTheGiven(events: seq<Event>, states: seq<State>, f: nat)
    requires History(INITIAL, events, states) && |states| == |events| + 1
    requires f < |states[|events|].log| && states[|events|].log[f].Failed?
    ensures var log := states[|events|].log;
            log[f].handled <==> Equips(events, states, |events|, log[f].id) && !CompletedIn(log[..f], log[f].id)
  {
    var log := states[|events|].log;
    HistoryRecorded(events, states, |events|);
    FlagIsTheCalls(events, states, |events|, log[f].id);
    hide History, Equips, FlagsUpTo, Flag, CompletedIn;
  }

  /** Somebody with an errorback is reached by a load failure of id. */
  ghost predicate Told(events: seq<Event>, states: seq<State>, i: nat, id: Id)
    requires |states| == |events| + 1 && i <= |events|
  {
    exists x :: Reaches(states[i], id, x) && Equips(events, states, i, x) && !Done(states[i], x)
  }

  lemma HandlesIfTold(events: seq<Event>, states: seq<State>, i: nat, id: Id, order: seq<Id>)
    requires History(INITIAL, events, states) && |states| == |events| + 1 && i <= |events|
    requires forall x :: x in order <==> Reaches(states[i], id, x)
    ensures OneHandles(states[i], order) <==> Told(events, states, i, id)
  {
    var s := states[i];
    HistoryRecorded(events, states, i);
    assert Equipped(s, FlagsUpTo(events, states, i));
    hide History, Equips, FlagsUpTo, Flag, Done, Reaches, InLog, ErrorsKept, PluginsLogged, QueuesNamed, ErrorsLogged,
      HandledLogged, RequestsLogged;
    forall x ensures x in s.mods && s.mods[x].errorback <==> Equips(events, states, i, x) && !Done(s, x) {
      FlagIsTheCalls(events, states, i, x);
      if Flag(FlagsUpTo(events, states, i), x) {
        FlaggedIsThere(s, FlagsUpTo(events, states, i), x);
      }
    }
  }

  lemma FlaggedIsThere(s: State, flags: map<Id, bool>, x: Id)
    requires Equipped(s, flags) && Flag(flags, x)
    ensures x in s.mods
  {
  }

  /**
   A load failure reaches the global handler exactly if none of those it reaches has an errorback of its
   own; then that is the last entry, with the cause and with those that were waiting for the id.
   */
  lemma GlobalHandlerIsTheLast(events: seq<Event>, states: seq<State>, i: nat)
    requires History(INITIAL, events, states) && |states| == |events| + 1 && i < |events| && events[i].LoadError?
    ensures var s, r, id := states[i], states[i + 1], events[i].id;
            && s.log <= r.log
            && ((exists f :: |s.log| <= f < |r.log| && r.log[f].GlobalError?) <==> !Told(events, states, i, id))
            && (!Told(events, states, i, id) ==>
                  |r.log| > |s.log| && r.log[|r.log| - 1] == GlobalError(Error(Loading, id, WaitersOf(s, id), events[i].cause)))
  {
    var s, r, e := states[i], states[i + 1], events[i];
    CallAt(INITIAL, events, states, i);
    InvGivesShape(s, multiset{}, 0, 0, {});
    assert r == LoadFailed(s, e.id, e.cause) && LoadErrorOf(s, e.id, e.cause) == Error(Loading, e.id, WaitersOf(s, e.id), e.cause);
    hide *;
    var order := LoadErrorClosure(s, e.id, e.cause);
    HandlesIfTold(events, states, i, e.id, order);
    GlobalInClosure(s, r, e.id, LoadErrorOf(s, e.id, e.cause), order);
  }

  lemma GlobalInClosure(s: State, r: State, id: Id, error: Error, order: seq<Id>)
    requires ClosureFailed(s, r, id, error, order)
    ensures s.log <= r.log
    ensures (exists f :: |s.log| <= f < |r.log| && r.log[f].GlobalError?) <==> !OneHandles(s, order)
    ensures !OneHandles(s, order) ==> |r.log| > |s.log| && r.log[|r.log| - 1] == GlobalError(error)
  {
    var notes := FailureNotes(s, order, error);
    assert forall k :: 0 <= k < |notes| ==> notes[k].Failed?;
    hide OneHandles, FailureNotes;
    assert forall f :: |s.log| <= f < |s.log| + |notes| ==> r.log[f] == notes[f - |s.log|];
    if !OneHandles(s, order) {
      assert r.log[|r.log| - 1] == GlobalError(error);
    }
  }

  // ---- requests -----------------------------------------------------------------------------------------

  /** Scripts are requested for ids that somebody declares as modules or plugins. */
  lemma ScriptsAreNamed(events: seq<Event>, s: State, k: nat)
    requires Run(events, s) && k < |s.log| && s.log[k].Requested?
    ensures exists m, d :: m in s.declared && d in s.declared[m].dependencies && Fetches(d, s.log[k].id)
  {
    var flags := RunRecorded(events, s);
    hide Run, Equipped, InLog, ErrorsKept, PluginsLogged, QueuesNamed, ErrorsLogged, HandledLogged, Fetches;
    assert RequestNamed(s.declared, s.log[k]);
  }

  /** Resources are requested as somebody declares them, with their parameter, from what their plugin exports for good. */
  lemma ResourcesAreNamed(events: seq<Event>, s: State, k: nat)
    requires Run(events, s) && k < |s.log| && s.log[k].ResourceRequested?
    ensures exists m :: m in s.declared
                        && Plugin(s.log[k].id, s.log[k].pluginId, s.log[k].param) in s.declared[m].dependencies
    ensures var p := s.log[k].pluginId; p in s.mods && s.mods[p].complete && s.log[k].plugin == s.mods[p].exports
  {
    var flags := RunRecorded(events, s);
    hide Run, Equipped, InLog, ErrorsKept, QueuesNamed, ErrorsLogged, HandledLogged;
    assert RequestNamed(s.declared, s.log[k]);
  }

  /** Nobody declares the id but as a resource of the plugin. */
  ghost predicate OnlyResourceOf(declared: map<Id, Declaration>, id: Id, p: Id) {
    forall m, d :: m in declared && d in declared[m].dependencies ==>
      (d.Target() == id ==> d.Plugin? && d.pluginId == p) && (d.Plugin? ==> d.pluginId != id)
  }

  /**
   A resource that somebody waits for is asked of its plugin, through what that exports, once the plugin
   is complete, unless the plugin failed while the resource was queued for it.
   */
  lemma ResourceIsAskedOfItsPlugin(events: seq<Event>, s: State, id: Id, p: Id) returns (k: nat)
    requires Run(events, s) && id !in s.mods && WaitersOf(s, id) != [] && OnlyResourceOf(s.declared, id, p)
    requires p in s.mods && s.mods[p].complete
    ensures (FailedEarly(s, p) && IsQueued(s, id, p))
         || (k < |s.log| && s.log[k].ResourceRequested? && s.log[k].id == id
             && s.log[k].pluginId == p && s.log[k].plugin == s.mods[p].exports)
  {
    hide *;
    RunParts(events, s);
    RunQueuesDeclared(events, s);
    k := 0;
    if Queued(s, id) {
      QueuedUnderItsPlugin(s, id, p);
    } else {
      k := RequestOf(s, id);
      if s.log[k].Requested? {
        ScriptsAreNamed(events, s, k);
        NoScriptOf(s.declared, id, p);
        assert false;
      }
      ResourcesAreNamed(events, s, k);
      PluginOfResource(s.declared, id, p, s.log[k].pluginId, s.log[k].param);
    }
  }

  lemma RequestOf(s: State, id: Id) returns (k: nat)
    requires Sought(s) && Links(s) && id !in s.mods && WaitersOf(s, id) != [] && !Queued(s, id)
    ensures k < |s.log| && (s.log[k].Requested? || s.log[k].ResourceRequested?) && s.log[k].id == id
  {
    assert IsSought(s, id);
    k :| 0 <= k < |s.log| && (s.log[k].Requested? || s.log[k].ResourceRequested?) && s.log[k].id == id;
  }

  lemma NoScriptOf(declared: map<Id, Declaration>, id: Id, p: Id)
    requires OnlyResourceOf(declared, id, p)
    ensures !exists m, d :: m in declared && d in declared[m].dependencies && Fetches(d, id)
  {
    assert Regular(id).Target() == id;
  }

  lemma PluginOfResource(declared: map<Id, Declaration>, id: Id, p: Id, q: Id, param: string)
    requires OnlyResourceOf(declared, id, p)
    requires exists m :: m in declared && Plugin(id, q, param) in declared[m].dependencies
    ensures q == p
  {
  }

  lemma QueuedUnderItsPlugin(s: State, id: Id, p: Id)
    requires Queued(s, id) && QueuesDeclared(s) && QueuesOk(s, {}) && OnlyResourceOf(s.declared, id, p)
    requires p in s.mods && s.mods[p].complete
    ensures FailedEarly(s, p) && IsQueued(s, id, p)
  {
    var q, k :| q in s.pluginWaiters && 0 <= k < |s.pluginWaiters[q]| && s.pluginWaiters[q][k].Target() == id;
    var d := s.pluginWaiters[q][k];
    assert d in QueueOf(s, q);
    var m :| AsksPlugin(s.declared, m, q, d);
    assert q == p && QueueOf(s, p)[k].Target() == id;
  }

  // ---- the error that is handed on ------------------------------------------------------------------------

  /** The k-th dependency is the first that has failed, from the i-th on. */
  ghost predicate FirstFailed(s: State, deps: seq<Dependency>, i: nat, k: nat) {
    i <= k < |deps| && Poisoned(s, deps[k]) && forall j :: i <= j < k ==> !Poisoned(s, deps[j])
  }

  function ErrorOf(s: State, x: Id): Option<Error> {
    if x in s.mods then s.mods[x].error else None
  }

  ghost predicate HasErrorback(s: State, m: Id) {
    m in s.mods && s.mods[m].errorback
  }

  /** The module has the error, and was told of it last. */
  ghost predicate FailedWith(s: State, m: Id, error: Error, handled: bool) {
    && m in s.mods && s.mods[m].error == Some(error)
    && |s.log| > 0 && s.log[|s.log| - 1] == Failed(m, error, handled)
  }

  lemma LookErrors(s: State, m: Id, d: Dependency, x: Id)
    requires m in s.mods && !s.mods[m].complete
    ensures ErrorOf(Look(s, m, d), x) == ErrorOf(s, x)
    ensures HasErrorback(Look(s, m, d), m) == HasErrorback(s, m)
  {
    LookOneModule(s, m, d);
    hide Look;
  }

  lemma FirstIsPoisoned(s: State, deps: seq<Dependency>, i: nat, k: nat)
    requires FirstFailed(s, deps, i, k)
    ensures i <= k < |deps| && Poisoned(s, deps[k]) && (i < k ==> !Poisoned(s, deps[i]))
  {
    hide Poisoned;
  }

  lemma FirstFailedLater(s: State, r: State, deps: seq<Dependency>, i: nat, k: nat)
    requires FirstFailed(s, deps, i, k) && i < k && forall x :: Poisoned(r, x) == Poisoned(s, x)
    ensures FirstFailed(r, deps, i + 1, k)
  {
    hide Poisoned;
  }

  lemma FailHandsOn(s: State, m: Id, d: Dependency, error: Error, handled: bool)
    requires m in s.mods && d.Target() in s.mods && ErrorOf(s, d.Target()) == Some(error) && HasErrorback(s, m) == handled
    ensures s.mods[d.Target()].error.Some? && FailedWith(Fail(s, m, s.mods[d.Target()].error.value), m, error, handled)
  {
  }

  lemma {:induction false} ResolveHandsOn(s: State, m: Id, deps: seq<Dependency>, i: nat, k: nat, error: Error, handled: bool)
    requires Linked(s) && QueuesHoldPlugins(s) && Resolving(s, m, i) && deps == s.declared[m].dependencies
    requires FirstFailed(s, deps, i, k) && k < |deps|
    requires ErrorOf(s, deps[k].Target()) == Some(error) && HasErrorback(s, m) == handled
    ensures FailedWith(Resolve(s, m, deps, i), m, error, handled)
    decreases k - i
  {
    hide *;
    FirstIsPoisoned(s, deps, i, k);
    Parts(s, m, i);
    WaitingIsIncomplete(s, m);
    ResolveUnfolds(s, m, deps, i);
    if i == k {
      FailHandsOn(s, m, deps[i], error, handled);
    } else {
      var r := Look(s, m, deps[i]);
      forall x ensures Poisoned(r, x) == Poisoned(s, x) {
        LookPoisons(s, m, deps[i], x);
      }
      FirstFailedLater(s, r, deps, i, k);
      LookErrors(s, m, deps[i], deps[k].Target());
      LookKeeps(s, m, i);
      LookShape(s, m, deps[i]);
      ResolveHandsOn(r, m, deps, i + 1, k, error, handled);
    }
  }

  lemma FirstWhenDeclared(s: State, e: Event, k: nat)
    requires e.DefineCall? && e.id !in s.mods && FirstFailed(s, e.decl.dependencies, 0, k)
    ensures k < |e.decl.dependencies| && ErrorOf(s, e.decl.dependencies[k].Target()).Some?
    ensures FirstFailed(Declared(s, e), e.decl.dependencies, 0, k) && HasErrorback(Declared(s, e), e.id) == e.errorback
    ensures ErrorOf(Declared(s, e), e.decl.dependencies[k].Target()) == ErrorOf(s, e.decl.dependencies[k].Target())
  {
    assert Poisoned(s, e.decl.dependencies[k]);
    forall x ensures Poisoned(Declared(s, e), x) == Poisoned(s, x) {
    }
    hide Poisoned;
  }

  /** A call that finds a failed dependency fails its module with the error of the first one, and tells its errorback. */
  lemma FirstErrorIsHandedOn(s: State, e: Event, k: nat)
    requires AtRest(s) && Enabled(s, e) && e.DefineCall? && e.id !in s.mods && FirstFailed(s, e.decl.dependencies, 0, k)
    ensures k < |e.decl.dependencies| && ErrorOf(s, e.decl.dependencies[k].Target()).Some?
    ensures FailedWith(Step(s, e), e.id, ErrorOf(s, e.decl.dependencies[k].Target()).value, e.errorback)
  {
    hide *;
    StepIsResolve(s, e);
    FirstWhenDeclared(s, e, k);
    var error := ErrorOf(s, e.decl.dependencies[k].Target()).value;
    ResolveHandsOn(Declared(s, e), e.id, e.decl.dependencies, 0, k, error, e.errorback);
  }
}

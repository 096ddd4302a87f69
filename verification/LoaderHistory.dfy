/** What the log of any run shows: who ran, when, and with what. */
module LoaderHistory {
  import opened Options
  import opened Graphs
  import opened LoaderState
  import opened LoaderInvariant
  import opened LoadErrors
  import opened LoaderRuns
  import opened LoaderGrowth

  /** Declared dependencies that were not cut off to break a cycle. */
  ghost function Kept(s: State): Rel {
    (m: Id, d: Id) => m in s.declared && AsksFor(s.declared[m].dependencies, d) && Warned(d, m) !in s.log
  }

  lemma EntryJustified(events: seq<Event>, s: State, k: nat)
    requires Run(events, s) && k < |s.log|
    ensures EntryOk(s.log[..k], s.declared, s.log[k])
  {
    hide *;
    RunParts(events, s);
    LogAt(s.log, s.declared, k);
  }

  /** A factory runs at most once. */
  lemma CompletesOnce(events: seq<Event>, s: State, j: nat, k: nat)
    requires Run(events, s) && j < k < |s.log| && s.log[j].Completed? && s.log[k].Completed?
    ensures s.log[j].id != s.log[k].id
  {
    hide Run;
    EntryJustified(events, s, k);
    assert s.log[..k][j] == s.log[j];
  }

  /** A completed module was handed, for each dependency it waited for, the exports that one had completed with. */
  lemma DependenciesComeFirst(events: seq<Event>, s: State, k: nat, i: nat) returns (j: nat)
    requires Run(events, s) && k < |s.log| && s.log[k].Completed?
    requires s.log[k].id in s.declared && i < |s.declared[s.log[k].id].dependencies|
    requires var d := s.declared[s.log[k].id].dependencies[i];
             !d.Special() && Warned(d.Target(), s.log[k].id) !in s.log[..k]
    ensures i < |s.log[k].args|
    ensures j < k && s.log[j].Completed?
    ensures s.log[j].id == s.declared[s.log[k].id].dependencies[i].Target() && s.log[j].exports == s.log[k].args[i]
  {
    hide Run;
    EntryJustified(events, s, k);
    var d := s.declared[s.log[k].id].dependencies[i];
    var before := s.log[..k];
    assert ArgumentOk(before, s.log[k].id, s.declared[s.log[k].id].name, d, s.log[k].args[i]);
    j :| 0 <= j < |before| && before[j].Completed? && before[j].id == d.Target() && before[j].exports == s.log[k].args[i];
  }

  /** What a module exports is what it completed with, for good. */
  lemma ExportsAreFinal(events: seq<Event>, s: State, k: nat)
    requires Run(events, s) && k < |s.log| && s.log[k].Completed?
    ensures Done(s, s.log[k].id) && s.mods[s.log[k].id].exports == s.log[k].exports
  {
    hide Run;
    RunParts(events, s);
  }

  /** The `null` fallback is never handed out: every dependency of a completed module is a defined module. */
  lemma DependenciesAreDefined(events: seq<Event>, s: State, k: nat, i: nat)
    requires Run(events, s) && k < |s.log| && s.log[k].Completed?
    requires s.log[k].id in s.declared && i < |s.declared[s.log[k].id].dependencies|
    requires !s.declared[s.log[k].id].dependencies[i].Special()
    ensures s.declared[s.log[k].id].dependencies[i].Target() in s.declared
  {
    hide Run;
    var m := s.log[k].id;
    var d := s.declared[m].dependencies[i];
    if Warned(d.Target(), m) in s.log[..k] {
      var j :| 0 <= j < k && s.log[..k][j] == Warned(d.Target(), m);
      EntryJustified(events, s, j);
      var _ := JoinedHasFirstEdge(Declares(s.declared), d.Target(), m);
    } else {
      var j := DependenciesComeFirst(events, s, k, i);
      EntryJustified(events, s, j);
    }
  }

  /** A printed cycle is a closed chain of declared dependencies, unless it was cut behind 51 ids. */
  lemma PrintedCyclesAreReal(events: seq<Event>, s: State, k: nat)
    requires Run(events, s) && k < |s.log| && s.log[k].Printed?
    ensures var path := s.log[k].path; var n := |path| - 1;
            && n >= 1 && path[0] == path[n]
            && (forall i :: 0 <= i < n - 1 ==> Declares(s.declared)(path[i], path[i + 1]))
            && (n == MAX_DEPTH + 1 || Declares(s.declared)(path[n - 1], path[n]))
  {
    hide Run;
    EntryJustified(events, s, k);
    var path := s.log[k].path;
    forall i | 0 <= i < |path| - 2 ensures Declares(s.declared)(path[i], path[i + 1]) {
      assert Goes(Declares(s.declared), path[..|path| - 1], i);
    }
  }

  /** A failed module never completes afterwards. */
  lemma FailedStaysFailed(events: seq<Event>, s: State, j: nat, k: nat)
    requires Run(events, s) && j < k < |s.log| && s.log[j].Failed? && s.log[k].Completed?
    ensures s.log[j].id != s.log[k].id
  {
    hide Run;
    EntryJustified(events, s, k);
    assert s.log[..k][j] == s.log[j];
  }

  lemma KeptComesFirst(events: seq<Event>, s: State, k: nat, d: Id) returns (j: nat)
    requires Run(events, s) && k < |s.log| && s.log[k].Completed? && Kept(s)(s.log[k].id, d)
    ensures j < k && s.log[j].Completed? && s.log[j].id == d
  {
    var m := s.log[k].id;
    var i :| 0 <= i < |s.declared[m].dependencies| && s.declared[m].dependencies[i].Target() == d
               && !s.declared[m].dependencies[i].Special();
    j := DependenciesComeFirst(events, s, k, i);
  }

  lemma {:induction false} WalkComesFirst(events: seq<Event>, s: State, k: nat, p: seq<Id>) returns (j: nat)
    requires Run(events, s) && k < |s.log| && s.log[k].Completed?
    requires Walk(Kept(s), p) && p[0] == s.log[k].id
    ensures j <= k && s.log[j].Completed? && s.log[j].id == p[|p| - 1]
    decreases |p|
  {
    hide Run, Kept;
    if |p| == 1 {
      j := k;
    } else {
      assert Goes(Kept(s), p, 0);
      var next := KeptComesFirst(events, s, k, p[1]);
      forall x | 0 <= x < |p[1..]| - 1 ensures Kept(s)(p[1..][x], p[1..][x + 1]) {
        assert Goes(Kept(s), p, x + 1);
      }
      j := WalkComesFirst(events, s, next, p[1..]);
    }
  }

  /** When a factory runs, every module in its transitive dependencies, edges cut to break a cycle excepted, has completed. */
  lemma TransitiveDependenciesComeFirst(events: seq<Event>, s: State, k: nat, d: Id) returns (j: nat)
    requires Run(events, s) && k < |s.log| && s.log[k].Completed? && Joined(Kept(s), s.log[k].id, d)
    ensures j <= k && s.log[j].Completed? && s.log[j].id == d
  {
    hide Run, Kept;
    var p :| Walk(Kept(s), p) && |p| >= 2 && p[0] == s.log[k].id && p[|p| - 1] == d;
    j := WalkComesFirst(events, s, k, p);
  }

  /**
   Failure safety, in every run: a failed module in the transitive dependencies of one whose factory
   ran had completed before it failed, and before that factory ran.
   */
  lemma FailuresComeTooLate(events: seq<Event>, s: State, k: nat, d: Id, f: nat) returns (j: nat)
    requires Run(events, s) && k < |s.log| && s.log[k].Completed? && Joined(Kept(s), s.log[k].id, d)
    requires f < |s.log| && s.log[f].Failed? && s.log[f].id == d
    ensures j < f && j <= k && s.log[j].Completed? && s.log[j].id == d
  {
    hide Run, Joined, Kept;
    j := TransitiveDependenciesComeFirst(events, s, k, d);
    if f < j {
      FailedStaysFailed(events, s, f, j);
    }
  }

  // ---- which failures come before a factory runs -------------------------------------------------------

  /** The i-th call reports that the load of d failed, which has completed already. */
  ghost predicate LateReport(events: seq<Event>, states: seq<State>, i: int, d: Id)
    requires |states| == |events| + 1 && 0 <= i < |events|
  {
    events[i].LoadError? && events[i].id == d && Done(states[i], d)
  }

  lemma ReachedAreNotDone(s: State, id: Id, x: Id)
    requires WaitersOk(s) && Reaches(s, id, x) && x != id
    ensures !Done(s, x)
  {
    var y := JoinedHasLastEdge(NeededBy(s), id, x);
  }

  /** Of the modules that a load failure marks, only the one it reports can have completed. */
  lemma LoadErrorIsEarly(s: State, r: State, id: Id, error: Error, order: seq<Id>, f: nat)
    requires WaitersOk(s) && (forall m :: m in order <==> Reaches(s, id, m)) && ClosureFailed(s, r, id, error, order)
    requires Links(r) && (forall m :: Done(r, m) == Done(s, m)) && |s.log| <= f < |r.log| && r.log[f].Failed?
    ensures FailedEarly(r, r.log[f].id) || (r.log[f].id == id && Done(s, id))
  {
    NoteAt(s, order, error, r.log, f);
    var x := r.log[f].id;
    assert x in r.mods && r.mods[x].complete;
    hide Reaches, ClosureFailed, WaitersOk, Links;
    if x != id {
      ReachedAreNotDone(s, id, x);
    }
  }

  lemma NoteAt(s: State, order: seq<Id>, error: Error, log: seq<Entry>, f: nat)
    requires log == s.log + FailureNotes(s, order, error) + (if OneHandles(s, order) then [] else [GlobalError(error)])
    requires |s.log| <= f < |log| && log[f].Failed?
    ensures log[f].id in order
  {
    hide OneHandles;
    var notes := FailureNotes(s, order, error);
    assert log[f] == notes[f - |s.log|];
  }

  /** What a call newly reports as failed cannot complete any more, unless the call is a late report of it. */
  lemma StepFails(s: State, e: Event, r: State, f: nat)
    requires Leads(s, e, r) && |s.log| <= f < |r.log| && r.log[f].Failed?
    ensures FailedEarly(r, r.log[f].id) || (e.LoadError? && e.id == r.log[f].id && Done(s, e.id))
  {
    InvGivesShape(s, multiset{}, 0, 0, {});
    match e
    case DefineCall(m, decl, errorback, nextId) =>
      DefineSteps(s, m, decl, errorback, nextId);
    case LoadError(id, cause) =>
      assert WaitersOk(s) && ModsOk(s, 0, 0);
      hide AtRest, LoadFailed, Fails, WaitersOk, ModsOk, Reaches, ClosureFailed, FailedEarly, Done, Linked, LoadErrorOf;
      var o, tail := LoadFailedFails(s, id, cause);
      FailsDone(s, r, id, o, tail);
      var order := LoadErrorClosure(s, id, cause);
      StepKeeps(s, e);
      RestLinks(r);
      LoadErrorIsEarly(s, r, id, LoadErrorOf(s, id, cause), order, f);
  }

  /** A load failure reports its own module, and completes nobody. */
  lemma ReportFails(s: State, e: Event, r: State) returns (f: nat)
    requires Leads(s, e, r) && e.LoadError?
    ensures |s.log| <= f < |r.log| && r.log[f].Failed? && r.log[f].id == e.id
    ensures forall k :: |s.log| <= k < |r.log| ==> !r.log[k].Completed?
  {
    InvGivesShape(s, multiset{}, 0, 0, {});
    hide AtRest, LoadFailed, Fails;
    var order, tail := LoadFailedFails(s, e.id, e.cause);
    f := TailReports(s, r, e.id, order, tail);
  }

  lemma TailReports(s: State, r: State, id: Id, order: seq<Id>, tail: seq<Entry>) returns (f: nat)
    requires Fails(s, r, id, order, tail)
    ensures |s.log| <= f < |r.log| && r.log[f].Failed? && r.log[f].id == id
    ensures forall k :: |s.log| <= k < |r.log| ==> !r.log[k].Completed?
  {
    assert FailedIn(tail, id);
    var k :| 0 <= k < |tail| && tail[k].Failed? && tail[k].id == id;
    f := |s.log| + k;
    assert r.log[f] == tail[k];
    assert forall k :: |s.log| <= k < |r.log| ==> r.log[k] == tail[k - |s.log|];
  }

  /** The log of an earlier state is the beginning of the log. */
  lemma LogOfThen(events: seq<Event>, states: seq<State>, i: nat, j: nat)
    requires History(INITIAL, events, states) && i <= j <= |events|
    ensures |states| == |events| + 1 && states[i].log <= states[j].log
  {
    hide History;
    StatesGrow(INITIAL, events, states, i, j);
  }

  /** The call that logged the f-th entry. */
  lemma {:induction false} CallOf(events: seq<Event>, states: seq<State>, n: nat, f: nat) returns (i: nat)
    requires History(INITIAL, events, states) && n <= |events| && |states| == |events| + 1 && f < |states[n].log|
    ensures i < n && |states[i].log| <= f < |states[i + 1].log|
  {
    hide Leads;
    if n == 0 {
      assert false;
    } else if f < |states[n - 1].log| {
      i := CallOf(events, states, n - 1, f);
    } else {
      i := n - 1;
    }
  }

  /** A module that has completed is reported as failed by late reports only. */
  lemma DoneFailsLate(events: seq<Event>, states: seq<State>, d: Id, f: nat) returns (i: nat)
    requires History(INITIAL, events, states) && |states| == |events| + 1 && Done(states[|events|], d)
    requires var log := states[|events|].log; f < |log| && log[f].Failed? && log[f].id == d
    ensures i < |events| && LateReport(events, states, i, d) && |states[i].log| <= f < |states[i + 1].log|
  {
    hide *;
    i := CallOf(events, states, |events|, f);
    CallAt(INITIAL, events, states, i);
    LogOfThen(events, states, i + 1, |events|);
    StepFails(states[i], events[i], states[i + 1], f);
    StatesGrow(INITIAL, events, states, i + 1, |events|);
    LateOrLost(events, states, i, d);
  }

  lemma LateOrLost(events: seq<Event>, states: seq<State>, i: nat, d: Id)
    requires |states| == |events| + 1 && i < |events| && Grows(states[i + 1], states[|events|]) && Done(states[|events|], d)
    requires FailedEarly(states[i + 1], d) || (events[i].LoadError? && events[i].id == d && Done(states[i], d))
    ensures LateReport(events, states, i, d)
  {
  }

  lemma LateReportFails(events: seq<Event>, states: seq<State>, i: nat, d: Id) returns (f: nat)
    requires History(INITIAL, events, states) && |states| == |events| + 1 && i < |events| && LateReport(events, states, i, d)
    ensures |states[i].log| <= f < |states[i + 1].log| <= |states[|events|].log|
    ensures states[|events|].log[f].Failed? && states[|events|].log[f].id == d
    ensures forall k :: |states[i].log| <= k < |states[i + 1].log| ==> !states[|events|].log[k].Completed?
  {
    hide *;
    LateIsReport(events, states, i, d);
    CallAt(INITIAL, events, states, i);
    f := ReportFails(states[i], events[i], states[i + 1]);
    LogOfThen(events, states, i + 1, |events|);
    SameEntries(states[i + 1].log, states[|events|].log);
  }

  lemma LateIsReport(events: seq<Event>, states: seq<State>, i: nat, d: Id)
    requires |states| == |events| + 1 && i < |events| && LateReport(events, states, i, d)
    ensures events[i].LoadError? && events[i].id == d
  {
  }

  lemma SameEntries(log: seq<Entry>, longer: seq<Entry>)
    requires log <= longer
    ensures forall k :: 0 <= k < |log| ==> longer[k] == log[k]
  {
  }

  ghost predicate FailedBefore(log: seq<Entry>, k: nat, d: Id)
    requires k <= |log|
  {
    exists f :: 0 <= f < k && log[f].Failed? && log[f].id == d
  }

  /**
   Failure safety, exactly and in every run: when a factory runs, a module in its transitive
   dependencies, cut edges excepted, has been reported as failed if and only if a load of it was
   reported as failed after it had completed, and before the factory ran.
   */
  lemma FailuresBeforeFactories(events: seq<Event>, states: seq<State>, k: nat, d: Id)
    requires History(INITIAL, events, states) && |states| == |events| + 1
    requires var s := states[|events|]; k < |s.log| && s.log[k].Completed? && Joined(Kept(s), s.log[k].id, d)
    ensures FailedBefore(states[|events|].log, k, d)
            <==> exists i :: 0 <= i < |events| && LateReport(events, states, i, d) && |states[i + 1].log| <= k
  {
    var s := states[|events|];
    RunTo(events, states, |events|);
    hide History, Run, LateReport, Joined, Kept;
    if FailedBefore(s.log, k, d) {
      var f :| 0 <= f < k && s.log[f].Failed? && s.log[f].id == d;
      DependencyIsDone(events[..|events|], s, k, d);
      var i := DoneFailsLate(events, states, d, f);
      var _ := LateReportFails(events, states, i, d);
    }
    if i :| 0 <= i < |events| && LateReport(events, states, i, d) && |states[i + 1].log| <= k {
      var f := LateReportFails(events, states, i, d);
    }
  }

  lemma DependencyIsDone(events: seq<Event>, s: State, k: nat, d: Id)
    requires Run(events, s) && k < |s.log| && s.log[k].Completed? && Joined(Kept(s), s.log[k].id, d)
    ensures Done(s, d)
  {
    hide *;
    var j := TransitiveDependenciesComeFirst(events, s, k, d);
    ExportsAreFinal(events, s, j);
  }

  /**
   So a transitive dependency of which no load was reported as failed after it had completed is
   never reported as failed, neither before the factory runs nor after.
   */
  lemma FailuresDoNotReachFactories(events: seq<Event>, states: seq<State>, k: nat, d: Id, f: nat)
    requires History(INITIAL, events, states) && |states| == |events| + 1
    requires var s := states[|events|]; k < |s.log| && s.log[k].Completed? && Joined(Kept(s), s.log[k].id, d)
    requires forall i :: 0 <= i < |events| ==> !LateReport(events, states, i, d)
    requires f < |states[|events|].log| && states[|events|].log[f].Failed?
    ensures states[|events|].log[f].id != d
  {
    var s := states[|events|];
    RunTo(events, states, |events|);
    hide History, Run, LateReport, Joined, Kept;
    if s.log[f].id == d {
      DependencyIsDone(events[..|events|], s, k, d);
      var i := DoneFailsLate(events, states, d, f);
      assert false;
    }
  }

  // ---- plugins and requests -----------------------------------------------------------------------

  /** An id is requested at most once, from a script or from a plugin. */
  lemma RequestedOnce(events: seq<Event>, s: State, j: nat, k: nat)
    requires Run(events, s) && j < k < |s.log|
    requires s.log[j].Requested? || s.log[j].ResourceRequested?
    requires s.log[k].Requested? || s.log[k].ResourceRequested?
    ensures s.log[j].id != s.log[k].id
  {
    hide Run;
    EntryJustified(events, s, k);
    assert s.log[..k][j] == s.log[j];
  }

  /** A plugin is asked for a resource only after it has completed, and through its final exports, or after it has failed. */
  lemma PluginIsThereFirst(events: seq<Event>, s: State, k: nat) returns (j: nat)
    requires Run(events, s) && k < |s.log| && s.log[k].ResourceRequested?
    ensures j < k && (s.log[j].Completed? || s.log[j].Failed?) && s.log[j].id == s.log[k].pluginId
    ensures s.log[j].Completed? ==> s.log[j].exports == s.log[k].plugin
  {
    hide Run;
    EntryJustified(events, s, k);
    var before := s.log[..k];
    if CompletedWith(before, s.log[k].pluginId, s.log[k].plugin) {
      j :| 0 <= j < |before| && before[j].Completed? && before[j].id == s.log[k].pluginId
             && before[j].exports == s.log[k].plugin;
    } else {
      j :| 0 <= j < |before| && before[j].Failed? && before[j].id == s.log[k].pluginId;
    }
  }
}

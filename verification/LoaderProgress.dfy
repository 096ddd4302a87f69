/** Nothing is stuck for a reason inside the manager. */
module LoaderProgress {
  import opened Options
  import opened Graphs
  import opened LoaderState
  import opened LoaderInvariant
  import opened LoaderSteps
  import opened LoaderRuns

  ghost predicate NoErrors(s: State) {
    forall m :: m in s.mods ==> s.mods[m].error.None?
  }

  /** Asked for and not there yet, or failed. */
  ghost predicate Outside(s: State, d: Id) {
    || (d !in s.mods && (d in s.known || Queued(s, d)))
    || (d in s.mods && s.mods[d].complete && s.mods[d].error.Some?)
  }

  /** In every reachable state the waits-for graph has no cycle. */
  lemma WaitsAreAcyclic(events: seq<Event>, s: State)
    requires Run(events, s)
    ensures !Cyclic(Waits(s))
  {
    RunsAtRest(events, s);
    LayeredIsAcyclic(Waits(s));
  }

  lemma CountersAtRest(s: State, m: Id)
    requires Ids(s) && ModsOk(s, 0, 0) && Counted(s, multiset{}) && NothingReady(s, 0) && Waiting(s, m)
    ensures s.mods[m].unresolved == AllWaiters(s.waiters, s.nextId)[m] > 0
  {
    assert ModOk(s, m, 0, 0);
    hide AllWaiters;
    var none: multiset<Id> := multiset{};
    assert (AllWaiters(s.waiters, s.nextId) + none)[m] == AllWaiters(s.waiters, s.nextId)[m];
  }

  /** Between calls, a module that is not complete counts exactly its places on waiter lists, and has some. */
  lemma CountersAreExact(events: seq<Event>, s: State, m: Id)
    requires Run(events, s) && Waiting(s, m)
    ensures s.mods[m].unresolved == AllWaiters(s.waiters, s.nextId)[m] > 0
    ensures exists d :: Waits(s)(m, d)
  {
    hide Run, Ids, ModsOk, WaitersOk, Counted, NothingReady, Settled, QueuesOk, Sought, LogOk, Links, Layered, AllWaiters;
    RunParts(events, s);
    CountersAtRest(s, m);
    OnSomeList(s.waiters, s.nextId, m);
    var d :| d < s.nextId && d in s.waiters && m in s.waiters[d];
    assert Waits(s)(m, d);
  }

  /** A module that completed normally has no waiters and no pending plugin resources left. */
  lemma DoneLeavesNothing(events: seq<Event>, s: State, m: Id)
    requires Run(events, s) && Done(s, m)
    ensures WaitersOf(s, m) == [] && QueueOf(s, m) == []
  {
    RunsAtRest(events, s);
  }

  lemma WaitedForIsOutsideOrWaiting(s: State, m: Id, d: Id)
    requires AtRest(s) && Waits(s)(m, d)
    ensures Waiting(s, d) || Outside(s, d)
  {
    assert s.waiters[d] != [] && IsSought(s, d) && !Done(s, d);
    if d in s.mods {
      assert ModOk(s, d, 0, 0);
    }
  }

  lemma {:induction false} BlockedByRank(events: seq<Event>, s: State, m: Id, rank: Id -> nat, top: nat) returns (d: Id)
    requires Run(events, s) && Waiting(s, m) && Ranked(Waits(s), rank, top)
    ensures Joined(Waits(s), m, d) && Outside(s, d)
    decreases rank(m)
  {
    RunsAtRest(events, s);
    CountersAreExact(events, s, m);
    var x :| Waits(s)(m, x);
    WaitedForIsOutsideOrWaiting(s, m, x);
    EdgeJoins(Waits(s), m, x);
    if Outside(s, x) {
      d := x;
    } else {
      d := BlockedByRank(events, s, x, rank, top);
      EdgeThenJoin(Waits(s), m, x, d);
    }
  }

  lemma EdgeThenJoin(e: Rel, a: Id, b: Id, c: Id)
    requires e(a, b) && Joined(e, b, c)
    ensures Joined(e, a, c)
  {
    var p :| Walk(e, p) && |p| >= 2 && p[0] == b && p[|p| - 1] == c;
    var q := [a] + p;
    forall k | 0 <= k < |q| - 1 ensures e(q[k], q[k + 1]) {
      if k > 0 {
        assert Goes(e, p, k - 1);
      }
    }
    assert Walk(e, q);
  }

  /**
   Deadlock freedom, for every run: a module that is not complete transitively waits for an id
   that was asked for and is not defined yet, or for a module that failed.
   */
  lemma BlockedFromOutside(events: seq<Event>, s: State, m: Id) returns (d: Id)
    requires Run(events, s) && Waiting(s, m)
    ensures Joined(Waits(s), m, d) && Outside(s, d)
  {
    RunsAtRest(events, s);
    var rank, top :| Ranked(Waits(s), rank, top);
    d := BlockedByRank(events, s, m, rank, top);
  }

  /** The last edge of a chain of waits. */
  lemma LastWait(s: State, m: Id, d: Id) returns (x: Id)
    requires Joined(Waits(s), m, d)
    ensures Waits(s)(x, d)
  {
    var p :| Walk(Waits(s), p) && |p| >= 2 && p[0] == m && p[|p| - 1] == d;
    x := p[|p| - 2];
    assert Goes(Waits(s), p, |p| - 2);
  }

  /** Somebody waits for a module that failed before it could complete. */
  ghost predicate WaitsForFailed(s: State) {
    exists m, d :: Waits(s)(m, d) && FailedEarly(s, d)
  }

  /** Once every id that is waited for is defined, everything is complete, unless somebody waits for a failed module. */
  lemma AllDefinedAllComplete(events: seq<Event>, s: State)
    requires Run(events, s)
    requires forall d :: d in s.waiters && s.waiters[d] != [] ==> d in s.mods
    ensures (forall m :: m in s.mods ==> s.mods[m].complete) <==> !WaitsForFailed(s)
  {
    RunsAtRest(events, s);
    forall m | m in s.mods && !WaitsForFailed(s) ensures s.mods[m].complete {
      if Waiting(s, m) {
        var d := BlockedFromOutside(events, s, m);
        var x := LastWait(s, m, d);
        FailedAndAwaited(s, x, d);
        assert false;
      }
    }
  }

  lemma FailedAndAwaited(s: State, x: Id, d: Id)
    requires WaitersOk(s) && Waits(s)(x, d) && d in s.mods && s.mods[d].complete
    ensures FailedEarly(s, d) && WaitsForFailed(s)
  {
  }

  /** The same from what was requested: all requests answered, no resource queued. */
  lemma AllRequestsAnswered(events: seq<Event>, s: State)
    requires Run(events, s) && Answered(s)
    ensures (forall m :: m in s.mods ==> s.mods[m].complete) <==> !WaitsForFailed(s)
  {
    hide Run, Ids, ModsOk, WaitersOk, Counted, NothingReady, Settled, QueuesOk, LogOk, Links, Layered, WaitsForFailed;
    RunParts(events, s);
    AnsweredMeansDefined(s);
    AllDefinedAllComplete(events, s);
  }

  ghost predicate Answered(s: State) {
    s.known <= s.mods.Keys && forall p :: QueueOf(s, p) == []
  }

  lemma AnsweredMeansDefined(s: State)
    requires Sought(s) && Answered(s)
    ensures forall d :: d in s.waiters && s.waiters[d] != [] ==> d in s.mods
  {
    forall d | d in s.waiters && s.waiters[d] != [] ensures d in s.mods {
      assert IsSought(s, d);
      assert forall p :: p in s.pluginWaiters ==> s.pluginWaiters[p] == QueueOf(s, p);
    }
  }

  /** Without errors everything that is complete has completed normally. */
  lemma AllDefinedAllDone(events: seq<Event>, s: State)
    requires Run(events, s) && NoErrors(s)
    requires forall d :: d in s.waiters && s.waiters[d] != [] ==> d in s.mods
    ensures forall m :: m in s.mods ==> Done(s, m)
  {
    RunParts(events, s);
    AllDefinedAllComplete(events, s);
    NoErrorsNoneFailed(s);
    hide Run;
    forall m | m in s.mods ensures Done(s, m) {
      assert ModOk(s, m, 0, 0);
    }
  }

  lemma NoErrorsNoneFailed(s: State)
    requires ModsOk(s, 0, 0) && NoErrors(s)
    ensures forall d :: !FailedEarly(s, d)
  {
    forall d ensures !FailedEarly(s, d) {
      assert d in s.mods ==> ModOk(s, d, 0, 0);
    }
  }
}

/** Modules, resources and the plugins that provide them: who is stuck because of whom. */
module LoaderPlugins {
  import opened Options
  import opened Graphs
  import opened LoaderState
  import opened LoaderInvariant
  import opened LoaderResolve
  import opened LoadErrors
  import opened LoaderRuns
  import opened LoaderGrowth
  import opened LoaderProgress

  /** A resource of the plugin that is queued until the plugin is there. */
  ghost predicate IsQueued(s: State, resource: Id, plugin: Id) {
    exists k :: 0 <= k < |QueueOf(s, plugin)| && QueueOf(s, plugin)[k].Target() == resource
  }

  /** Waits, and resources that are queued until their plugin is there. */
  ghost function WaitsOrQueues(s: State): Rel {
    (a: Id, b: Id) => Waits(s)(a, b) || IsQueued(s, a, b)
  }

  /** Requested from a script or from a complete plugin and not there yet, or failed. */
  ghost predicate OutsideForGood(s: State, d: Id) {
    || (d !in s.mods && d in s.known)
    || (d in s.mods && s.mods[d].complete && s.mods[d].error.Some?)
  }

  ghost predicate Pending(s: State, m: Id) {
    Waiting(s, m) || (m !in s.mods && m !in s.known && Queued(s, m))
  }

  lemma QueuedOnPending(s: State, m: Id) returns (p: Id)
    requires QueuesOk(s, {}) && ModsOk(s, 0, 0) && Queued(s, m)
    ensures WaitsOrQueues(s)(m, p) && (Pending(s, p) || OutsideForGood(s, p))
  {
    var q, k :| q in s.pluginWaiters && 0 <= k < |s.pluginWaiters[q]| && s.pluginWaiters[q][k].Target() == m;
    p := q;
    assert QueueOf(s, p)[k].Target() == m;
    assert IsQueued(s, m, p);
    if p in s.mods {
      assert ModOk(s, p, 0, 0);
    }
  }

  lemma NextBlock(events: seq<Event>, s: State, m: Id) returns (x: Id)
    requires Run(events, s) && Pending(s, m)
    ensures WaitsOrQueues(s)(m, x) && (Pending(s, x) || OutsideForGood(s, x))
  {
    RunsAtRest(events, s);
    if Waiting(s, m) {
      CountersAreExact(events, s, m);
      x :| Waits(s)(m, x);
      WaitedForIsOutsideOrWaiting(s, m, x);
    } else {
      assert QueuesOk(s, {}) && ModsOk(s, 0, 0);
      hide Run, AtRest, QueuesOk, ModsOk;
      x := QueuedOnPending(s, m);
    }
  }

  /** All that can be pending. */
  ghost function Candidates(s: State): set<Id> {
    s.mods.Keys + set p, k | p in s.pluginWaiters && 0 <= k < |s.pluginWaiters[p]| :: s.pluginWaiters[p][k].Target()
  }

  /** Following what is waited for leads outside, or comes back to where it was before. */
  lemma {:induction false} Follow(events: seq<Event>, s: State, x: Id, seen: set<Id>) returns (d: Id)
    requires Run(events, s) && Pending(s, x) && x !in seen && seen <= Candidates(s)
    requires forall y :: y in seen ==> Joined(WaitsOrQueues(s), y, x)
    ensures Joined(WaitsOrQueues(s), x, d) && (OutsideForGood(s, d) || Joined(WaitsOrQueues(s), d, d))
    decreases |Candidates(s) - seen|
  {
    PendingIsCandidate(s, x);
    hide Run, WaitsOrQueues, Joined, Pending, OutsideForGood, Candidates;
    var e := WaitsOrQueues(s);
    var y := NextBlock(events, s, x);
    EdgeJoins(e, x, y);
    if OutsideForGood(s, y) || y == x {
      d := y;
    } else if y in seen {
      JoinThenEdge(e, y, x, y);
      d := y;
    } else {
      forall z | z in seen + {x} ensures Joined(e, z, y) {
        if z != x {
          JoinThenEdge(e, z, x, y);
        }
      }
      assert Candidates(s) - (seen + {x}) < Candidates(s) - seen;
      SmallerSet(Candidates(s) - (seen + {x}), Candidates(s) - seen);
      d := Follow(events, s, y, seen + {x});
      EdgeThenJoin(e, x, y, d);
    }
  }

  lemma PendingIsCandidate(s: State, x: Id)
    requires Pending(s, x)
    ensures x in Candidates(s)
  {
  }

  /** The k-th step of a walk lies on the way from its start to its end. */
  lemma StepOnTheWay(e: Rel, p: seq<Id>, k: nat)
    requires Walk(e, p) && k < |p| - 1
    ensures p[k] == p[0] || Joined(e, p[0], p[k])
    ensures p[k + 1] == p[|p| - 1] || Joined(e, p[k + 1], p[|p| - 1])
  {
    if k > 0 {
      var q := p[..k + 1];
      forall j | 0 <= j < |q| - 1 ensures Goes(e, q, j) {
        assert Goes(e, p, j);
      }
      assert Walk(e, q) && q[0] == p[0] && q[|q| - 1] == p[k];
    }
    if k + 1 < |p| - 1 {
      var q := p[k + 1..];
      forall j | 0 <= j < |q| - 1 ensures Goes(e, q, j) {
        assert Goes(e, p, k + 1 + j);
      }
      assert Walk(e, q) && q[0] == p[k + 1] && q[|q| - 1] == p[|p| - 1];
    }
  }

  /** A circle of waits and queues goes through a resource that is queued until its plugin is there. */
  lemma CirclesHaveQueues(events: seq<Event>, s: State, d: Id) returns (resource: Id, plugin: Id)
    requires Run(events, s) && Joined(WaitsOrQueues(s), d, d)
    ensures IsQueued(s, resource, plugin)
    ensures resource == d || Joined(WaitsOrQueues(s), d, resource)
    ensures plugin == d || Joined(WaitsOrQueues(s), plugin, d)
  {
    WaitsAreAcyclic(events, s);
    var p :| Walk(WaitsOrQueues(s), p) && |p| >= 2 && p[0] == d && p[|p| - 1] == d;
    hide Run;
    if forall k :: 0 <= k < |p| - 1 ==> !IsQueued(s, p[k], p[k + 1]) {
      OnlyWaits(s, p);
      assert false;
    }
    var k :| 0 <= k < |p| - 1 && IsQueued(s, p[k], p[k + 1]);
    resource, plugin := p[k], p[k + 1];
    StepOnTheWay(WaitsOrQueues(s), p, k);
  }

  lemma OnlyWaits(s: State, p: seq<Id>)
    requires |p| >= 2 && Walk(WaitsOrQueues(s), p) && forall k :: 0 <= k < |p| - 1 ==> !IsQueued(s, p[k], p[k + 1])
    ensures Joined(Waits(s), p[0], p[|p| - 1])
  {
    hide Waits, IsQueued;
    forall k | 0 <= k < |p| - 1 ensures Goes(Waits(s), p, k) {
      assert Goes(WaitsOrQueues(s), p, k);
    }
    assert Walk(Waits(s), p);
  }

  /**
   Deadlock freedom with plugins, in every run: what a module waits for leads to something requested
   outside, to a failed module, or into a circle in which a plugin needs a resource it provides.
   */
  lemma BlockedOrCircular(events: seq<Event>, s: State, m: Id) returns (d: Id, resource: Id, plugin: Id)
    requires Run(events, s) && Waiting(s, m)
    ensures Joined(WaitsOrQueues(s), m, d)
    ensures !OutsideForGood(s, d) ==>
              && IsQueued(s, resource, plugin)
              && (resource == d || Joined(WaitsOrQueues(s), d, resource))
              && (plugin == d || Joined(WaitsOrQueues(s), plugin, d))
  {
    hide Run, Joined, WaitsOrQueues, OutsideForGood;
    d := Follow(events, s, m, {});
    resource, plugin := d, d;
    if !OutsideForGood(s, d) {
      resource, plugin := CirclesHaveQueues(events, s, d);
    }
  }

  // ---- what the define calls say ---------------------------------------------------------------------

  /** Declared dependencies, and resources that somebody declares, with the plugin that provides them. */
  ghost function NeedsOrServed(declared: map<Id, Declaration>): Rel {
    (a: Id, b: Id) =>
      (a in declared && AsksFor(declared[a].dependencies, b))
      || exists m, d :: AsksPlugin(declared, m, b, d) && d.Target() == a
  }

  /** Every queued resource is a declared dependency. */
  ghost predicate QueuesDeclared(s: State) {
    forall p, d :: d in QueueOf(s, p) ==> exists m :: AsksPlugin(s.declared, m, p, d)
  }

  lemma QueuesStayDeclared(s: State, r: State, m: Id)
    requires QueuesDeclared(s) && QueuesOf(s, r, m)
    requires forall x :: x in s.declared ==> x in r.declared && r.declared[x] == s.declared[x]
    ensures QueuesDeclared(r)
  {
    hide QueueOf;
    forall p, d | d in QueueOf(r, p) ensures exists x :: AsksPlugin(r.declared, x, p, d) {
      if !AsksPlugin(r.declared, m, p, d) {
        var x :| AsksPlugin(s.declared, x, p, d);
        assert AsksPlugin(r.declared, x, p, d);
      }
    }
  }

  lemma StepQueuesDeclared(s: State, e: Event, r: State)
    requires Leads(s, e, r) && QueuesDeclared(s)
    ensures QueuesDeclared(r)
  {
    InvGivesShape(s, multiset{}, 0, 0, {});
    match e
    case DefineCall(m, decl, errorback, nextId) =>
      DefineSteps(s, m, decl, errorback, nextId);
      hide AtRest, QueuesDeclared, QueuesOf, WarnsOf, FailsOf;
      QueuesStayDeclared(s, r, m);
    case LoadError(id, cause) =>
      hide AtRest, LoadFailed, QueuesDeclared, Fails;
      var order, tail := LoadFailedFails(s, id, cause);
      FailsKeepsQueues(s, r, id, order, tail);
  }

  lemma FailsKeepsQueues(s: State, r: State, id: Id, order: seq<Id>, tail: seq<Entry>)
    requires Fails(s, r, id, order, tail) && QueuesDeclared(s)
    ensures QueuesDeclared(r)
  {
    assert forall p :: QueueOf(r, p) == QueueOf(s, p);
    hide QueueOf, AsksPlugin;
  }

  lemma {:induction false} RunQueuesDeclared(events: seq<Event>, s: State)
    requires Run(events, s)
    ensures QueuesDeclared(s)
    decreases |events|
  {
    if events == [] {
      OnlyOneEmptyRun(s);
    } else {
      hide *;
      var before := LastStep(events, s);
      RunQueuesDeclared(events[..|events| - 1], before);
      StepQueuesDeclared(before, events[|events| - 1], s);
    }
  }

  lemma BlocksAreDeclared(s: State)
    requires WaitersOk(s) && QueuesDeclared(s) && QueuesOk(s, {})
    ensures forall a, b :: WaitsOrQueues(s)(a, b) ==> NeedsOrServed(s.declared)(a, b)
  {
    forall a, b | WaitsOrQueues(s)(a, b) ensures NeedsOrServed(s.declared)(a, b) {
      if Waits(s)(a, b) {
        var k :| 0 <= k < |s.waiters[b]| && s.waiters[b][k] == a;
        assert AsksFor(s.declared[a].dependencies, b);
      } else {
        var k :| 0 <= k < |QueueOf(s, b)| && QueueOf(s, b)[k].Target() == a;
        assert QueueOf(s, b)[k] in QueueOf(s, b);
      }
    }
  }

  /** The plugin is declared to provide the resource, and needs it itself, directly or not. */
  ghost predicate NeedsOwnResource(declared: map<Id, Declaration>, plugin: Id, resource: Id) {
    && (exists m, d :: AsksPlugin(declared, m, plugin, d) && d.Target() == resource)
    && (plugin == resource || Joined(NeedsOrServed(declared), plugin, resource))
  }

  lemma JoinThenJoin(e: Rel, a: Id, b: Id, c: Id)
    requires Joined(e, a, b) && Joined(e, b, c)
    ensures Joined(e, a, c)
  {
    var p :| Walk(e, p) && |p| >= 2 && p[0] == a && p[|p| - 1] == b;
    var q :| Walk(e, q) && |q| >= 2 && q[0] == b && q[|q| - 1] == c;
    var both := p + q[1..];
    forall k | 0 <= k < |both| - 1 ensures Goes(e, both, k) {
      if k < |p| - 1 {
        assert Goes(e, p, k);
      } else {
        assert Goes(e, q, k - (|p| - 1)) && both[k] == q[k - (|p| - 1)];
      }
    }
    assert Walk(e, both);
  }

  lemma QueueOnTheCircle(s: State, d: Id, resource: Id, plugin: Id)
    requires QueuesDeclared(s) && IsQueued(s, resource, plugin)
    requires forall a, b :: WaitsOrQueues(s)(a, b) ==> NeedsOrServed(s.declared)(a, b)
    requires resource == d || Joined(WaitsOrQueues(s), d, resource)
    requires plugin == d || Joined(WaitsOrQueues(s), plugin, d)
    ensures NeedsOwnResource(s.declared, plugin, resource)
  {
    var k :| 0 <= k < |QueueOf(s, plugin)| && QueueOf(s, plugin)[k].Target() == resource;
    assert QueueOf(s, plugin)[k] in QueueOf(s, plugin);
    hide Joined, NeedsOrServed, WaitsOrQueues;
    if plugin != d && resource != d {
      JoinThenJoin(WaitsOrQueues(s), plugin, d, resource);
    }
    if plugin != resource {
      WiderJoined(WaitsOrQueues(s), NeedsOrServed(s.declared), plugin, resource);
    }
  }

  /**
   If no plugin needs a resource that it is declared to provide, a module that is not complete
   transitively waits for something that was requested outside, or has failed. Cycles of other
   dependencies block nobody: the manager breaks them.
   */
  lemma BlockedFromOutsideWithPlugins(events: seq<Event>, s: State, m: Id) returns (d: Id)
    requires Run(events, s) && Waiting(s, m)
    requires forall plugin, resource :: !NeedsOwnResource(s.declared, plugin, resource)
    ensures Joined(WaitsOrQueues(s), m, d) && OutsideForGood(s, d)
  {
    RunParts(events, s);
    RunQueuesDeclared(events, s);
    BlocksAreDeclared(s);
    hide *;
    var resource, plugin;
    d, resource, plugin := BlockedOrCircular(events, s, m);
    if !OutsideForGood(s, d) {
      QueueOnTheCircle(s, d, resource, plugin);
      assert false;
    }
  }

  lemma NothingBlocks(s: State, a: Id, d: Id)
    requires WaitersOk(s) && QueuesOk(s, {}) && ModsOk(s, 0, 0) && WaitsOrQueues(s)(a, d)
    requires s.known <= s.mods.Keys && forall m :: m in s.mods ==> s.mods[m].complete
    ensures FailedEarly(s, d)
  {
    assert !Waits(s)(a, d);
    assert IsQueued(s, a, d) && QueueOf(s, d) != [];
  }

  lemma OutsideIsFailed(s: State, a: Id, d: Id)
    requires WaitersOk(s) && QueuesOk(s, {}) && WaitsOrQueues(s)(a, d) && OutsideForGood(s, d) && s.known <= s.mods.Keys
    ensures FailedEarly(s, d)
  {
    assert Waits(s)(a, d) ==> WaitersOf(s, d) != [];
    assert IsQueued(s, a, d) ==> QueueOf(s, d) != [];
  }

  /**
   With everything that was requested defined, and nobody waiting or queued for a failed module, all is
   complete if and only if there is no circle of waits and queues.
   */
  lemma CompleteUnlessCircular(events: seq<Event>, s: State)
    requires Run(events, s) && s.known <= s.mods.Keys
    requires forall a, d :: WaitsOrQueues(s)(a, d) ==> !FailedEarly(s, d)
    ensures (forall m :: m in s.mods ==> s.mods[m].complete) <==> !Cyclic(WaitsOrQueues(s))
  {
    RunParts(events, s);
    hide Run, WaitsOrQueues, OutsideForGood, WaitersOk, QueuesOk, Ids, ModsOk, Counted, NothingReady, Settled, Sought, LogOk,
      Links, Layered, FailedEarly, Joined;
    if forall m :: m in s.mods ==> s.mods[m].complete {
      if d :| Joined(WaitsOrQueues(s), d, d) {
        var x := JoinedHasFirstEdge(WaitsOrQueues(s), d, d);
        NothingBlocks(s, d, x);
        assert false;
      }
    } else {
      var m :| m in s.mods && !s.mods[m].complete;
      assert Pending(s, m);
      var d := Follow(events, s, m, {});
      if OutsideForGood(s, d) {
        var x := JoinedHasLastEdge(WaitsOrQueues(s), m, d);
        OutsideIsFailed(s, x, d);
      }
    }
  }
}

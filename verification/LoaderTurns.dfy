/** One turn of each loop of the module manager, on the state as a value. */
module LoaderTurns {
  import opened Options
  import opened Graphs
  import opened LoaderState

  lemma SpecialCase(s: State, m: Id, d: Dependency)
    requires m in s.mods && d.Special()
    ensures Look(s, m, d) == SkipSpecial(s, m, d)
  {
  }

  lemma LookCases(s: State, m: Id, d: Dependency)
    requires m in s.mods && !d.Special()
    ensures d.Target() in s.mods && s.mods[d.Target()].complete ==> Look(s, m, d) == Drop(s, m)
    ensures !(d.Target() in s.mods && s.mods[d.Target()].complete) && Joined(Deps(s), d.Target(), m) ==>
              Look(s, m, d) == BreakCycle(s, m, d)
    ensures !(d.Target() in s.mods && s.mods[d.Target()].complete) && !Joined(Deps(s), d.Target(), m) ==>
              Look(s, m, d) == Fetch(AddWaiter(s, m, d.Target()), d)
  {
    hide Deps, Joined, Drop, BreakCycle, Fetch, AddWaiter;
  }

  lemma UnseenTurn(ws: seq<Id>, seen: set<Id>, i: nat)
    requires i < |ws|
    ensures ws[i] in seen ==> Unseen(ws[i..], seen) == Unseen(ws[i + 1..], seen)
    ensures ws[i] !in seen ==>
              && Unseen(ws[i..], seen) == [ws[i]] + Unseen(ws[i + 1..], seen + {ws[i]})
              && seen + Elements(Unseen(ws[i..], seen)) == seen + {ws[i]} + Elements(Unseen(ws[i + 1..], seen + {ws[i]}))
  {
    assert ws[i..][0] == ws[i] && ws[i..][1..] == ws[i + 1..];
  }

  lemma LoadFailedUnfolds(s: State, id: Id, cause: int)
    requires Linked(s)
    ensures var error := LoadErrorOf(s, id, cause);
            var s0 := EnsurePlaceholder(s, id);
            && Linked(s0) && id in s0.mods && {id} <= s0.mods.Keys
            && var order := NotifyOrder(s0, [id], {id});
            && (forall x :: x in order ==> x in s0.mods)
            && var s1 := FailAll(s0, order, error);
            && LoadFailed(s, id, cause) ==
                 if exists x :: x in order && s0.mods[x].errorback then s1 else Log(s1, GlobalError(error))
  {
    OrderIsDefined(EnsurePlaceholder(s, id), [id], {id});
    hide NotifyOrder, FailAll, LoadErrorOf;
  }

  /** What has been told and what the queue still brings make up the order. */
  ghost predicate Telling(s: State, order: seq<Id>, told: seq<Id>, queue: seq<Id>, seen: set<Id>) {
    && Linked(s) && seen <= s.mods.Keys
    && (forall x :: x in queue ==> x in seen)
    && order == told + NotifyOrder(s, queue, seen)
  }

  lemma StartTelling(s: State, order: seq<Id>, id: Id)
    requires Linked(s) && id in s.mods && {id} <= s.mods.Keys && order == NotifyOrder(s, [id], {id})
    ensures Telling(s, order, [], [id], {id})
  {
    assert [] + order == order;
  }

  lemma EndTelling(s: State, order: seq<Id>, told: seq<Id>, seen: set<Id>)
    requires Telling(s, order, told, [], seen)
    ensures told == order
  {
    assert told + [] == told;
  }

  lemma FailAllKeys(s: State, told: seq<Id>, error: Error)
    requires forall x :: x in told ==> x in s.mods
    ensures FailAll(s, told, error).mods.Keys == s.mods.Keys
  {
  }

  lemma TellingTurn(s: State, order: seq<Id>, told: seq<Id>, queue: seq<Id>, seen: set<Id>)
    requires Telling(s, order, told, queue, seen) && queue != []
    ensures queue[0] in s.mods
    ensures forall k :: 0 <= k < |WaitersOf(s, queue[0])| ==> WaitersOf(s, queue[0])[k] in s.mods
    ensures var news := Unseen(WaitersOf(s, queue[0]), seen);
            && Telling(s, order, told + [queue[0]], queue[1..] + news, seen + Elements(news))
            && (|s.mods.Keys - (seen + Elements(news))| < |s.mods.Keys - seen|
                || (|s.mods.Keys - (seen + Elements(news))| == |s.mods.Keys - seen| && |queue[1..] + news| < |queue|))
  {
    OrderTurn(s, queue, seen);
    hide NotifyOrder, Linked;
    var news := Unseen(WaitersOf(s, queue[0]), seen);
    var rest := NotifyOrder(s, queue[1..] + news, seen + Elements(news));
    Regroup(told, queue[0], rest);
  }

  lemma Regroup(told: seq<Id>, x: Id, rest: seq<Id>)
    ensures told + ([x] + rest) == told + [x] + rest
  {
  }

  lemma FailNone(s: State, error: Error)
    ensures FailAll(s, [], error) == s
  {
    assert FailAll(s, [], error).mods == s.mods;
  }

  /** With those of told notified, s has become v, and someone has handled it or not. */
  ghost predicate Told(s: State, told: seq<Id>, error: Error, v: State, handled: bool) {
    && (forall x :: x in told ==> x in s.mods)
    && v == FailAll(s, told, error)
    && handled == exists x :: x in told && s.mods[x].errorback
  }

  lemma NobodyTold(s: State, error: Error)
    ensures Told(s, [], error, s, false)
  {
    FailNone(s, error);
  }

  /** What still is as it was before. */
  lemma ToldSame(s: State, told: seq<Id>, error: Error, v: State, handled: bool)
    requires Told(s, told, error, v, handled)
    ensures v.mods.Keys == s.mods.Keys && v.waiters == s.waiters
  {
    FailAllKeys(s, told, error);
  }

  lemma EndTold(s: State, told: seq<Id>, error: Error, v: State, handled: bool)
    requires Told(s, told, error, v, handled)
    ensures (forall x :: x in told ==> x in s.mods) && v == FailAll(s, told, error)
    ensures handled == exists x :: x in told && s.mods[x].errorback
  {
  }

  lemma TellNext(s: State, told: seq<Id>, error: Error, v: State, handled: bool, x: Id)
    requires Told(s, told, error, v, handled) && x in s.mods
    ensures x in v.mods && Told(s, told + [x], error, Fail(v, x, error), v.mods[x].errorback || handled)
  {
    FailNext(s, told, error, x);
    hide FailAll, Fail;
  }

  lemma FailNext(s: State, told: seq<Id>, error: Error, x: Id)
    requires (forall y :: y in told ==> y in s.mods) && x in s.mods
    ensures x in FailAll(s, told, error).mods && FailAll(s, told, error).mods[x].errorback == s.mods[x].errorback
    ensures forall y :: y in told + [x] ==> y in s.mods
    ensures FailAll(s, told + [x], error) == Fail(FailAll(s, told, error), x, error)
    ensures (exists y :: y in told + [x] && s.mods[y].errorback) <==>
              s.mods[x].errorback || exists y :: y in told && s.mods[y].errorback
  {
    var a, b := FailAll(s, told + [x], error), Fail(FailAll(s, told, error), x, error);
    assert a.mods == b.mods;
    assert a.log == b.log;
  }

  lemma OrderTurn(s: State, queue: seq<Id>, seen: set<Id>)
    requires Linked(s) && seen <= s.mods.Keys && queue != [] && forall x :: x in queue ==> x in seen
    ensures var news := Unseen(WaitersOf(s, queue[0]), seen);
            && NotifyOrder(s, queue, seen) == [queue[0]] + NotifyOrder(s, queue[1..] + news, seen + Elements(news))
            && seen + Elements(news) <= s.mods.Keys && queue[0] in s.mods
            && (forall k :: 0 <= k < |WaitersOf(s, queue[0])| ==> WaitersOf(s, queue[0])[k] in s.mods)
            && (forall x :: x in queue[1..] + news ==> x in seen + Elements(news))
            && |s.mods.Keys - (seen + Elements(news))| <= |s.mods.Keys - seen|
            && (news != [] ==> |s.mods.Keys - (seen + Elements(news))| < |s.mods.Keys - seen|)
            && (news == [] ==> |queue[1..] + news| < |queue|)
  {
    OrderUnfolds(s, queue, seen);
    NewsSmaller(s, queue[0], seen);
    hide NotifyOrder, Unseen;
    assert queue == [queue[0]] + queue[1..];
  }

  lemma OrderUnfolds(s: State, queue: seq<Id>, seen: set<Id>)
    requires Linked(s) && seen <= s.mods.Keys && queue != []
    ensures var news := Unseen(WaitersOf(s, queue[0]), seen);
            && seen + Elements(news) <= s.mods.Keys
            && NotifyOrder(s, queue, seen) == [queue[0]] + NotifyOrder(s, queue[1..] + news, seen + Elements(news))
  {
    NewsSmaller(s, queue[0], seen);
    hide Unseen, Linked;
  }

  /** A new module changes nothing about lists and queues, with a declaration or without. */
  lemma UpdateHasShape(s: State, m: Id, mod: Mod)
    requires Linked(s) && QueuesHoldPlugins(s)
    ensures Linked(Update(s, m, mod)) && QueuesHoldPlugins(Update(s, m, mod))
    ensures forall d :: Linked(Update(s, m, mod).(declared := d)) && QueuesHoldPlugins(Update(s, m, mod).(declared := d))
  {
  }

  lemma PlaceholderIsUpdate(s: State, m: Id)
    requires m !in s.mods
    ensures EnsurePlaceholder(s, m) == Update(s, m, NewModule(PLACEHOLDER, false))
    ensures PLACEHOLDER == Declaration(PLACEHOLDER.name, [], Factory(EMPTY_FUNCTION))
  {
  }

  lemma DeclareIsUpdate(s: State, m: Id, decl: Declaration, errorback: bool)
    ensures Declare(s, m, decl, errorback) == Update(s, m, NewModule(decl, errorback)).(declared := s.declared[m := decl])
  {
  }

  lemma SkipIsOneUpdate(s: State, m: Id, d: Dependency)
    requires m in s.mods
    ensures SkipSpecial(s, m, d) == Update(s, m, s.mods[m].(
              unresolved := s.mods[m].unresolved - 1, exportsPassedIn := s.mods[m].exportsPassedIn || d.Exports?))
  {
  }

  lemma ReportedUnfolds(s: State, m: Id, d: Id)
    ensures 0 <= MAX_DEPTH
    ensures var warned := Log(s.(cycle := true), Warned(d, m));
            var path := CyclePath(warned.mods, d, m, 0);
            ReportedCycle(s, m, d) == Log(warned, Printed(Reversed(if path.Some? then path.value else []) + [d]))
  {
  }

  lemma FetchModule(s: State, m: Id, d: Dependency)
    requires !d.Plugin?
    ensures Fetch(AddWaiter(s, m, d.Target()), d) == LoadModule(AddWaiter(s, m, d.Target()), d.Target())
  {
  }

  lemma FetchCases(s: State, d: Dependency)
    requires d.Plugin?
    ensures d.pluginId in s.mods && s.mods[d.pluginId].complete ==>
              Fetch(s, d) == LoadPluginDependency(s, s.mods[d.pluginId].exports, d)
    ensures !(d.pluginId in s.mods && s.mods[d.pluginId].complete) ==>
              Fetch(s, d) == LoadModule(Enqueue(s, d), d.pluginId)
  {
  }

  lemma CompleteUnfolds(s: State, m: Id)
    requires m in s.mods && Linked(s) && QueuesHoldPlugins(s)
    ensures s.mods[m].complete ==> Complete(s, m) == s
    ensures !s.mods[m].complete ==>
              var s2 := Finished(s, m);
              && Linked(s2) && QueuesHoldPlugins(s2) && Incomplete(s2) < Incomplete(s)
              && (forall k :: 0 <= k < |WaitersOf(s, m)| ==> WaitersOf(s, m)[k] in s2.mods)
              && s2.mods.Keys == s.mods.Keys
              && Complete(s, m) == PluginPart(Notify(s2, WaitersOf(s, m)), m)
  {
    if !s.mods[m].complete {
      FinishedSmaller(s, m);
      hide Finished, Linked, PluginPart, Incomplete;
    }
  }

  lemma NotifyTurn(s: State, ws: seq<Id>, i: nat)
    requires Linked(s) && QueuesHoldPlugins(s) && i < |ws|
    requires forall k :: 0 <= k < |ws| ==> ws[k] in s.mods
    ensures var s1 := Drop(s, ws[i]);
            && Linked(s1) && QueuesHoldPlugins(s1) && s1.mods.Keys == s.mods.Keys && Incomplete(s1) == Incomplete(s)
            && var s2 := if s1.mods[ws[i]].unresolved == 0 then Complete(s1, ws[i]) else s1;
            && Linked(s2) && QueuesHoldPlugins(s2) && s2.mods.Keys == s.mods.Keys && Incomplete(s2) <= Incomplete(s)
            && Notify(s, ws[i..]) == Notify(s2, ws[i + 1..])
  {
    DropShape(s, ws[i]);
    assert ws[i..][0] == ws[i] && ws[i..][1..] == ws[i + 1..];
    hide Linked, QueuesHoldPlugins, Drop, Incomplete;
  }

  /** Having notified the first i of ws, s has become v. */
  ghost predicate Notifying(s: State, ws: seq<Id>, v: State, i: nat) {
    && Linked(s) && QueuesHoldPlugins(s) && Linked(v) && QueuesHoldPlugins(v)
    && (forall k :: 0 <= k < |ws| ==> ws[k] in v.mods && ws[k] in s.mods) && i <= |ws|
    && Incomplete(v) <= Incomplete(s) && v.mods.Keys == s.mods.Keys
    && Notify(s, ws) == Notify(v, ws[i..])
  }

  lemma StartNotifying(s: State, ws: seq<Id>)
    requires Linked(s) && QueuesHoldPlugins(s) && forall k :: 0 <= k < |ws| ==> ws[k] in s.mods
    ensures Notifying(s, ws, s, 0)
  {
    assert ws[0..] == ws;
  }

  lemma EndNotifying(s: State, ws: seq<Id>, v: State)
    requires Notifying(s, ws, v, |ws|)
    ensures Linked(s) && QueuesHoldPlugins(s) && (forall k :: 0 <= k < |ws| ==> ws[k] in s.mods)
    ensures v == Notify(s, ws)
  {
  }

  lemma NotNewer(s: State, ws: seq<Id>, v: State, i: nat)
    requires Notifying(s, ws, v, i)
    ensures Incomplete(v) <= Incomplete(s)
  {
  }

  lemma KeepNotifying(s: State, ws: seq<Id>, v: State, i: nat)
    requires Notifying(s, ws, v, i) && i < |ws|
    ensures ws[i] in v.mods && Linked(v) && QueuesHoldPlugins(v) && Incomplete(v) <= Incomplete(s)
    ensures var s1 := Drop(v, ws[i]);
            && Linked(s1) && QueuesHoldPlugins(s1) && s1.mods.Keys == v.mods.Keys && Incomplete(s1) == Incomplete(v)
            && Notifying(s, ws, if s1.mods[ws[i]].unresolved == 0 then Complete(s1, ws[i]) else s1, i + 1)
  {
    NotifyTurn(v, ws, i);
    hide Linked, QueuesHoldPlugins, Drop, Incomplete, Notify, Complete;
  }

  lemma HandOverTurn(s: State, plugin: Value, queue: seq<Dependency>, i: nat)
    requires i < |queue| && forall k :: 0 <= k < |queue| ==> queue[k].Plugin?
    ensures HandOver(s, plugin, queue[i..]) == HandOver(LoadPluginDependency(s, plugin, queue[i]), plugin, queue[i + 1..])
  {
    assert queue[i..][0] == queue[i] && queue[i..][1..] == queue[i + 1..];
    hide LoadPluginDependency;
  }

  lemma HandOverNothing(s: State, plugin: Value, queue: seq<Dependency>)
    ensures HandOver(s, plugin, queue[|queue|..]) == s
  {
  }

  lemma DropShape(s: State, m: Id)
    requires m in s.mods && Linked(s) && QueuesHoldPlugins(s)
    ensures Linked(Drop(s, m)) && QueuesHoldPlugins(Drop(s, m))
    ensures Drop(s, m).mods.Keys == s.mods.Keys && Incomplete(Drop(s, m)) == Incomplete(s)
  {
  }

  lemma OneFewer(all: set<Id>, seen: set<Id>, x: Id)
    requires x in all && x !in seen
    ensures |all - (seen + {x})| < |all - seen|
  {
    assert all - seen == (all - (seen + {x})) + {x};
  }

  ghost predicate Marks(marks: seq<bool>, ids: set<Id>) {
    forall x :: 0 <= x < |marks| ==> marks[x] == (x in ids)
  }

  lemma FirstMark(n: nat, x: Id)
    requires x < n
    ensures Marks(seq(n, _ => false)[x := true], {x})
  {
  }

  lemma NextMark(marks: seq<bool>, ids: set<Id>, x: Id)
    requires Marks(marks, ids)
    ensures x < |marks| ==> marks[x] == (x in ids) && Marks(marks[x := true], ids + {x})
  {
  }

  // ---- the breadth-first search -----------------------------------------------------------------

  lemma NoEdgesFromUndefined(s: State, from: Id, to: Id)
    requires from !in s.mods
    ensures !Joined(Deps(s), from, to)
  {
    if Joined(Deps(s), from, to) {
      var _ := JoinedHasFirstEdge(Deps(s), from, to);
    }
  }

  /** An edge leads to something seen, and not to the goal. */
  ghost predicate Covered(s: State, to: Id, seen: set<Id>, y: Id) {
    y != to && (y in s.mods ==> y in seen)
  }

  /** Everything seen is reached from the start; what has left the queue has all its edges covered. */
  ghost predicate Searching(s: State, from: Id, to: Id, queue: seq<Id>, seen: set<Id>) {
    && from in seen && seen <= s.mods.Keys
    && (forall x :: x in queue ==> x in seen)
    && (forall x :: x in seen ==> x == from || Joined(Deps(s), from, x))
    && (forall x, y :: x in seen && x !in queue && Deps(s)(x, y) ==> Covered(s, to, seen, y))
  }

  /** The same while the edges of element are being looked at; the first i are covered. */
  ghost predicate Scanning(s: State, from: Id, to: Id, queue: seq<Id>, seen: set<Id>, element: Id, i: nat) {
    && from in seen && element in seen && seen <= s.mods.Keys
    && (forall x :: x in queue ==> x in seen)
    && (forall x :: x in seen ==> x == from || Joined(Deps(s), from, x))
    && (forall x, y :: x in seen && x !in queue && x != element && Deps(s)(x, y) ==> Covered(s, to, seen, y))
    && (s.mods[element].dependencies.Some? ==>
          && i <= |s.mods[element].dependencies.value|
          && forall k :: 0 <= k < i ==> Covered(s, to, seen, s.mods[element].dependencies.value[k].Target()))
  }

  lemma SearchStarts(s: State, from: Id, to: Id)
    requires from in s.mods
    ensures Searching(s, from, to, [from], {from})
  {
    assert from in [from];
  }

  lemma SearchPops(s: State, from: Id, to: Id, queue: seq<Id>, seen: set<Id>)
    requires Searching(s, from, to, queue, seen) && queue != []
    ensures Scanning(s, from, to, queue[1..], seen, queue[0], 0) && queue[0] in s.mods
  {
    assert queue == [queue[0]] + queue[1..];
  }

  lemma ScanFinds(s: State, from: Id, to: Id, queue: seq<Id>, seen: set<Id>, element: Id, i: nat)
    requires Scanning(s, from, to, queue, seen, element, i) && s.mods[element].dependencies.Some?
    requires i < |s.mods[element].dependencies.value| && s.mods[element].dependencies.value[i].Target() == to
    ensures Joined(Deps(s), from, to)
  {
    assert Deps(s)(element, to);
    if element == from {
      EdgeJoins(Deps(s), from, to);
    } else {
      JoinThenEdge(Deps(s), from, element, to);
    }
  }

  lemma ScanSteps(s: State, from: Id, to: Id, queue: seq<Id>, seen: set<Id>, element: Id, i: nat)
    requires Scanning(s, from, to, queue, seen, element, i) && s.mods[element].dependencies.Some?
    requires i < |s.mods[element].dependencies.value| && s.mods[element].dependencies.value[i].Target() != to
    ensures var y := s.mods[element].dependencies.value[i].Target();
            if y in s.mods && y !in seen then Scanning(s, from, to, queue + [y], seen + {y}, element, i + 1)
            else Scanning(s, from, to, queue, seen, element, i + 1)
  {
    var y := s.mods[element].dependencies.value[i].Target();
    assert Deps(s)(element, y);
    if element == from {
      EdgeJoins(Deps(s), from, y);
    } else {
      JoinThenEdge(Deps(s), from, element, y);
    }
    hide Joined;
  }

  lemma ScanEnds(s: State, from: Id, to: Id, queue: seq<Id>, seen: set<Id>, element: Id)
    requires element in s.mods
    requires match s.mods[element].dependencies
             case Some(deps) => Scanning(s, from, to, queue, seen, element, |deps|)
             case None => Scanning(s, from, to, queue, seen, element, 0)
    ensures Searching(s, from, to, queue, seen)
  {
    hide Joined;
  }

  lemma SearchEnds(s: State, from: Id, to: Id, seen: set<Id>)
    requires Searching(s, from, to, [], seen)
    ensures !Joined(Deps(s), from, to)
  {
    if Joined(Deps(s), from, to) {
      var x := JoinedHasLastEdge(Deps(s), from, to);
      var inside := (y: Id) => y in seen || y !in s.mods;
      assert Closed(Deps(s), inside);
      if x != from {
        JoinedStaysInside(Deps(s), inside, from, x);
      }
    }
  }
}

/** What a load error does: it reaches exactly the modules that need the failed one. */
module LoadErrors {
  import opened Options
  import opened Graphs
  import opened LoaderState
  import opened LoaderInvariant
  import opened LoaderSteps

  /** From a module to those that wait for it. */
  ghost function NeededBy(s: State): Rel {
    (d: Id, m: Id) => m in WaitersOf(s, d)
  }

  /** No id occurs twice. */
  ghost predicate Distinct(ids: seq<Id>) {
    ids == [] || (ids[0] !in ids[1..] && Distinct(ids[1..]))
  }

  lemma {:induction false} DistinctConcat(a: seq<Id>, b: seq<Id>)
    requires Distinct(a) && Distinct(b) && forall x :: x in a ==> x !in b
    ensures Distinct(a + b)
  {
    if a != [] {
      assert (a + b)[1..] == a[1..] + b;
      DistinctConcat(a[1..], b);
    } else {
      assert a + b == b;
    }
  }

  lemma {:induction false} UnseenDistinct(ws: seq<Id>, seen: set<Id>)
    ensures Distinct(Unseen(ws, seen))
  {
    if ws != [] {
      if ws[0] in seen {
        UnseenDistinct(ws[1..], seen);
      } else {
        UnseenDistinct(ws[1..], seen + {ws[0]});
        var rest := Unseen(ws[1..], seen + {ws[0]});
        assert ([ws[0]] + rest)[1..] == rest;
      }
    }
  }

  ghost predicate Reaches(s: State, id: Id, m: Id) {
    m == id || Joined(NeededBy(s), id, m)
  }

  // ---- the breadth-first order ------------------------------------------------------------------

  /** Between two turns of the loop: the queue holds ids that are seen, each once. */
  ghost predicate Frontier(s: State, queue: seq<Id>, seen: set<Id>) {
    && Linked(s) && seen <= s.mods.Keys
    && Distinct(queue)
    && forall x :: x in queue ==> x in seen
  }

  lemma NextFrontier(s: State, queue: seq<Id>, seen: set<Id>)
    requires Frontier(s, queue, seen) && queue != []
    ensures var news := Unseen(WaitersOf(s, queue[0]), seen);
            Frontier(s, queue[1..] + news, seen + Elements(news))
  {
    var news := Unseen(WaitersOf(s, queue[0]), seen);
    NewsSmaller(s, queue[0], seen);
    UnseenDistinct(WaitersOf(s, queue[0]), seen);
    assert queue == [queue[0]] + queue[1..];
    DistinctConcat(queue[1..], news);
  }

  /** No id is visited twice, and none that was dealt with before. */
  lemma {:induction false} OrderIsFresh(s: State, queue: seq<Id>, seen: set<Id>)
    requires Frontier(s, queue, seen)
    ensures var order := NotifyOrder(s, queue, seen);
            Distinct(order) && forall x :: x in order ==> x in queue || x !in seen
    decreases |s.mods.Keys - seen|, |queue|
  {
    if queue != [] {
      var news := Unseen(WaitersOf(s, queue[0]), seen);
      NextFrontier(s, queue, seen);
      NewsSmaller(s, queue[0], seen);
      OrderIsFresh(s, queue[1..] + news, seen + Elements(news));
      var rest := NotifyOrder(s, queue[1..] + news, seen + Elements(news));
      assert queue == [queue[0]] + queue[1..];
      assert ([queue[0]] + rest)[1..] == rest;
    }
  }

  lemma ReachesNext(s: State, id: Id, y: Id, x: Id)
    requires Reaches(s, id, y) && x in WaitersOf(s, y)
    ensures Reaches(s, id, x)
  {
    assert NeededBy(s)(y, x);
    hide NeededBy;
    if y == id {
      EdgeJoins(NeededBy(s), id, x);
    } else {
      JoinThenEdge(NeededBy(s), id, y, x);
    }
  }

  /** Everything visited is reached from the failed id. */
  lemma {:induction false} OrderIsReached(s: State, queue: seq<Id>, seen: set<Id>, id: Id)
    requires Frontier(s, queue, seen)
    requires forall x :: x in queue ==> Reaches(s, id, x)
    ensures forall x :: x in NotifyOrder(s, queue, seen) ==> Reaches(s, id, x)
    decreases |s.mods.Keys - seen|, |queue|
  {
    if queue != [] {
      var news := Unseen(WaitersOf(s, queue[0]), seen);
      NextFrontier(s, queue, seen);
      NewsSmaller(s, queue[0], seen);
      assert queue[0] in queue;
      forall x | x in news ensures Reaches(s, id, x) {
        ReachesNext(s, id, queue[0], x);
      }
      assert queue == [queue[0]] + queue[1..];
      OrderIsReached(s, queue[1..] + news, seen + Elements(news), id);
    }
  }

  /** Whatever waits for a visited id is visited, or was dealt with before. */
  lemma {:induction false} OrderIsClosed(s: State, queue: seq<Id>, seen: set<Id>)
    requires Frontier(s, queue, seen)
    ensures var order := NotifyOrder(s, queue, seen);
            && (forall x :: x in queue ==> x in order)
            && (forall d, m :: d in order && m in WaitersOf(s, d) ==> m in order || m in seen)
    decreases |s.mods.Keys - seen|, |queue|
  {
    if queue != [] {
      var news := Unseen(WaitersOf(s, queue[0]), seen);
      NextFrontier(s, queue, seen);
      NewsSmaller(s, queue[0], seen);
      OrderIsClosed(s, queue[1..] + news, seen + Elements(news));
      var rest := NotifyOrder(s, queue[1..] + news, seen + Elements(news));
      forall x | x in queue ensures x in [queue[0]] + rest {
        assert queue == [queue[0]] + queue[1..];
        assert x != queue[0] ==> x in queue[1..] + news;
      }
      forall x | x in Elements(news) ensures x in rest {
        assert x in queue[1..] + news;
      }
    }
  }

  lemma StartFrontier(s: State, id: Id)
    requires Linked(s) && id in s.mods
    ensures Frontier(s, [id], {id})
  {
    assert [id][1..] == [];
    assert Distinct([id]);
  }

  lemma OrderHoldsReached(s: State, order: seq<Id>, id: Id)
    requires id in order && forall d, m :: d in order && m in WaitersOf(s, d) ==> m in order
    ensures forall m :: Reaches(s, id, m) ==> m in order
  {
    forall m | Joined(NeededBy(s), id, m) ensures m in order {
      JoinedStaysInside(NeededBy(s), (x: Id) => x in order, id, m);
    }
  }

  /** `_onLoadError` visits the failed id and what transitively waits for it: exactly these, each once. */
  lemma {:induction false} OrderIsClosure(s: State, id: Id)
    requires Linked(s) && id in s.mods
    ensures var order := NotifyOrder(s, [id], {id});
            Distinct(order) && forall m :: m in order <==> Reaches(s, id, m)
  {
    StartFrontier(s, id);
    hide NotifyOrder, Linked, Frontier, WaitersOf, Distinct, Joined;
    OrderIsFresh(s, [id], {id});
    OrderIsReached(s, [id], {id}, id);
    OrderIsClosed(s, [id], {id});
    var order := NotifyOrder(s, [id], {id});
    assert id in [id] && id in order;
    OrderHoldsReached(s, order, id);
  }

  function FailureNotes(s: State, order: seq<Id>, error: Error): seq<Entry> {
    seq(|order|, k requires 0 <= k < |order| =>
      Failed(order[k], error, order[k] in s.mods && s.mods[order[k]].errorback))
  }

  lemma FailAllNotes(s: State, id: Id, order: seq<Id>, error: Error)
    requires var s0 := EnsurePlaceholder(s, id); forall x :: x in order ==> x in s0.mods
    ensures FailAll(EnsurePlaceholder(s, id), order, error).log == s.log + FailureNotes(s, order, error)
  {
    var s0 := EnsurePlaceholder(s, id);
    var notes := seq(|order|, k requires 0 <= k < |order| => Failed(order[k], error, s0.mods[order[k]].errorback));
    assert forall k :: 0 <= k < |order| ==> notes[k] == FailureNotes(s, order, error)[k];
    assert notes == FailureNotes(s, order, error);
  }

  lemma FailAllMods(s: State, id: Id, order: seq<Id>, error: Error)
    requires var s0 := EnsurePlaceholder(s, id); forall x :: x in order ==> x in s0.mods
    ensures var r := FailAll(EnsurePlaceholder(s, id), order, error);
            && r.mods.Keys == s.mods.Keys + {id}
            && (forall m :: m in r.mods && m in order ==> r.mods[m].complete && r.mods[m].error == Some(error))
            && (forall m :: m in s.mods && m in order ==>
                  r.mods[m] == s.mods[m].(complete := true, error := Some(error)))
            && (forall m :: m in s.mods && m !in order ==> r.mods[m] == s.mods[m])
            && (id !in s.mods && id in order ==>
                  r.mods[id].dependencies == Some([]) && r.mods[id].exports == EmptyObject && !r.mods[id].errorback)
            && r.(mods := s.mods, log := s.log) == s
  {
  }

  ghost predicate OneHandles(s: State, order: seq<Id>) {
    exists m :: m in s.mods && m in order && s.mods[m].errorback
  }

  /** The same as `LoadFailed`, written over the state before. */
  lemma LoadFailedParts(s: State, id: Id, cause: int) returns (order: seq<Id>, s1: State)
    requires Linked(s)
    ensures order == NotifyOrder(EnsurePlaceholder(s, id), [id], {id})
    ensures forall x :: x in order ==> x in s.mods || x == id
    ensures var error := LoadErrorOf(s, id, cause);
            && s1 == FailAll(EnsurePlaceholder(s, id), order, error)
            && LoadFailed(s, id, cause) == if OneHandles(s, order) then s1 else Log(s1, GlobalError(error))
  {
    var s0 := EnsurePlaceholder(s, id);
    OrderIsDefined(s0, [id], {id});
    order := NotifyOrder(s0, [id], {id});
    s1 := FailAll(s0, order, LoadErrorOf(s, id, cause));
    HandlesWithPlaceholder(s, id, order);
    hide NotifyOrder, FailAll, LoadErrorOf, Linked, EnsurePlaceholder, OneHandles;
  }

  lemma HandlesWithPlaceholder(s: State, id: Id, order: seq<Id>)
    requires forall x :: x in order ==> x in EnsurePlaceholder(s, id).mods
    ensures OneHandles(s, order) == exists x :: x in order && EnsurePlaceholder(s, id).mods[x].errorback
    ensures forall x :: x in order ==> x in s.mods || x == id
  {
  }

  /**
   A load error marks exactly the failed id and the modules that transitively wait for it, tells
   each of them once, and reaches the global handler if and only if none of them has its own. The error
   says what could not be loaded, why, and who was waiting for it.
   */
  lemma LoadErrorClosure(s: State, id: Id, cause: int) returns (order: seq<Id>)
    requires Linked(s)
    ensures Distinct(order) && order != [] && order[0] == id && forall m :: m in order <==> Reaches(s, id, m)
    ensures ClosureFailed(s, LoadFailed(s, id, cause), id, LoadErrorOf(s, id, cause), order)
    ensures var error := LoadErrorOf(s, id, cause);
            && error.phase == Loading && error.moduleId == id && error.cause == cause
            && forall m :: m in error.neededBy <==> NeededBy(s)(id, m)
  {
    var error := LoadErrorOf(s, id, cause);
    assert forall m :: m in error.neededBy <==> NeededBy(s)(id, m);
    var s1;
    order, s1 := LoadFailedParts(s, id, cause);
    FailAllNotes(s, id, order, error);
    FailAllMods(s, id, order, error);
    assert EnsurePlaceholder(s, id).waiters == s.waiters && id in EnsurePlaceholder(s, id).mods;
    assert Linked(EnsurePlaceholder(s, id));
    hide *;
    OrderIsClosure(EnsurePlaceholder(s, id), id);
    forall m ensures m in order <==> Reaches(s, id, m) {
      SameReach(s, EnsurePlaceholder(s, id), id, m);
    }
    ClosureParts(s, s1, id, error, order);
  }

  /** From s to r, the ids of order failed with error. */
  ghost predicate ClosureFailed(s: State, r: State, id: Id, error: Error, order: seq<Id>) {
    && r.mods.Keys == s.mods.Keys + {id}
    && (forall m :: m in r.mods && m in order ==> r.mods[m].complete && r.mods[m].error == Some(error))
    && (forall m :: m in s.mods && m !in order ==> r.mods[m] == s.mods[m])
    && r.log == s.log + FailureNotes(s, order, error) + (if OneHandles(s, order) then [] else [GlobalError(error)])
    && r.(mods := s.mods, log := s.log) == s
  }

  lemma ClosureParts(s: State, s1: State, id: Id, error: Error, order: seq<Id>)
    requires s1.mods.Keys == s.mods.Keys + {id}
    requires forall m :: m in s1.mods && m in order ==> s1.mods[m].complete && s1.mods[m].error == Some(error)
    requires forall m :: m in s.mods && m !in order ==> s1.mods[m] == s.mods[m]
    requires s1.log == s.log + FailureNotes(s, order, error)
    requires s1.(mods := s.mods, log := s.log) == s
    ensures ClosureFailed(s, if OneHandles(s, order) then s1 else Log(s1, GlobalError(error)), id, error, order)
  {
    hide FailureNotes, OneHandles;
  }

  lemma SameReach(s: State, r: State, id: Id, m: Id)
    requires r.waiters == s.waiters
    ensures Reaches(r, id, m) == Reaches(s, id, m)
  {
    if Joined(NeededBy(s), id, m) {
      WiderJoined(NeededBy(s), NeededBy(r), id, m);
    }
    if Joined(NeededBy(r), id, m) {
      WiderJoined(NeededBy(r), NeededBy(s), id, m);
    }
  }

  // ---- the invariant ------------------------------------------------------------------------------

  ghost predicate QuietEntries(tail: seq<Entry>) {
    forall k :: 0 <= k < |tail| ==> tail[k].Failed? || tail[k].GlobalError?
  }

  lemma {:induction false} QuietTail(log: seq<Entry>, tail: seq<Entry>, declared: map<Id, Declaration>)
    requires LogOk(log, declared) && QuietEntries(tail)
    ensures LogOk(log + tail, declared)
    decreases |tail|
  {
    if tail == [] {
      assert log + tail == log;
    } else {
      var n := |tail| - 1;
      QuietTail(log, tail[..n], declared);
      assert log + tail == log + tail[..n] + [tail[n]];
      LogGrows(log + tail[..n], declared, tail[n]);
    }
  }

  lemma QuietFacts(log: seq<Entry>, tail: seq<Entry>)
    requires QuietEntries(tail)
    ensures forall m :: CompletedIn(log + tail, m) == CompletedIn(log, m)
    ensures forall m :: RequestedIn(log + tail, m) == RequestedIn(log, m)
    ensures forall m :: FailedIn(log + tail, m) == (FailedIn(log, m) || FailedIn(tail, m))
    ensures HasWarning(log + tail) == HasWarning(log)
  {
    var all := log + tail;
    assert forall k :: 0 <= k < |log| ==> all[k] == log[k];
    assert forall k :: 0 <= k < |tail| ==> all[|log| + k] == tail[k];
    assert forall k :: |log| <= k < |all| ==> all[k] == tail[k - |log|];
  }

  lemma NotesFacts(s: State, order: seq<Id>, error: Error, tail: seq<Entry>)
    requires tail == FailureNotes(s, order, error) || tail == FailureNotes(s, order, error) + [GlobalError(error)]
    ensures QuietEntries(tail)
    ensures forall m :: FailedIn(tail, m) <==> m in order
  {
    forall m | m in order ensures FailedIn(tail, m) {
      var k :| 0 <= k < |order| && order[k] == m;
      assert tail[k].Failed? && tail[k].id == m;
    }
  }

  /** From s to r, modules fail: those of order, and nothing else changes but the log. */
  ghost predicate Fails(s: State, r: State, id: Id, order: seq<Id>, tail: seq<Entry>) {
    && r.mods.Keys == s.mods.Keys + {id} && id in order && id < s.nextId
    && (forall m :: m in order ==> m in r.mods)
    && (forall m :: m in r.mods && m in order ==> r.mods[m].complete && r.mods[m].error.Some?)
    && (forall m :: m in s.mods && m in order ==> r.mods[m] == s.mods[m].(complete := true, error := r.mods[m].error))
    && (forall m :: m in s.mods && m !in order ==> r.mods[m] == s.mods[m])
    && (id !in s.mods ==> r.mods[id].dependencies == Some([]) && r.mods[id].exports == EmptyObject && !r.mods[id].errorback)
    && r.nextId == s.nextId && r.known == s.known && r.waiters == s.waiters && r.pluginWaiters == s.pluginWaiters
    && r.declared == s.declared && r.cycle == s.cycle
    && r.log == s.log + tail && QuietEntries(tail) && (forall m :: FailedIn(tail, m) <==> m in order)
  }

  lemma FailsDone(s: State, r: State, id: Id, order: seq<Id>, tail: seq<Entry>)
    requires Fails(s, r, id, order, tail) && ModsOk(s, 0, 0)
    ensures forall m :: Done(r, m) == Done(s, m)
    ensures forall m :: Waiting(r, m) ==> Waiting(s, m) && r.mods[m] == s.mods[m]
  {
    hide FailedIn, QuietEntries;
    forall m ensures Done(r, m) == Done(s, m) {
      if m in order && m in s.mods {
        assert ModOk(s, m, 0, 0);
      }
    }
  }

  lemma FailsShape(s: State, r: State, id: Id, order: seq<Id>, tail: seq<Entry>)
    requires Fails(s, r, id, order, tail) && Ids(s) && ModsOk(s, 0, 0) && WaitersOk(s)
    ensures Ids(r) && ModsOk(r, 0, 0) && WaitersOk(r)
  {
    FailsDone(s, r, id, order, tail);
    forall m | m in r.mods ensures ModOk(r, m, 0, 0) {
      if m in s.mods {
        assert ModOk(s, m, 0, 0);
      }
    }
  }

  lemma FailsRest(s: State, r: State, id: Id, order: seq<Id>, tail: seq<Entry>)
    requires Fails(s, r, id, order, tail) && Counted(s, multiset{}) && NothingReady(s, 0) && Settled(s, 0, 0)
    requires QueuesOk(s, {}) && Layered(Waits(s)) && ModsOk(s, 0, 0)
    ensures Counted(r, multiset{}) && NothingReady(r, 0) && Settled(r, 0, 0) && QueuesOk(r, {}) && Layered(Waits(r))
  {
    FailsDone(s, r, id, order, tail);
    forall x, k | Waiting(r, x) && x in r.declared && 0 <= k < Reached(r, x, 0, 0)
      ensures SettledDep(r, x, r.declared[x].dependencies[k])
    {
      assert SettledDep(s, x, s.declared[x].dependencies[k]);
    }
    FewerWaits(s, r);
  }

  lemma FailsSought(s: State, r: State, id: Id, order: seq<Id>, tail: seq<Entry>)
    requires Fails(s, r, id, order, tail) && Sought(s)
    ensures Sought(r)
  {
    hide FailedIn, QuietEntries;
    forall d | d in r.waiters && r.waiters[d] != [] ensures IsSought(r, d) {
      assert IsSought(s, d);
      if d !in s.mods && d !in s.known {
        assert Queued(s, d);
        assert Queued(r, d);
      }
    }
  }

  lemma FailedAreComplete(s: State, r: State, id: Id, order: seq<Id>, tail: seq<Entry>, k: nat)
    requires Fails(s, r, id, order, tail) && Links(s) && k < |r.log| && r.log[k].Failed?
    ensures r.log[k].id in r.mods && r.mods[r.log[k].id].complete
  {
    if k >= |s.log| {
      assert r.log[k] == tail[k - |s.log|];
      assert FailedIn(tail, r.log[k].id);
    } else {
      assert r.log[k] == s.log[k];
    }
  }

  lemma FailsLinks(s: State, r: State, id: Id, order: seq<Id>, tail: seq<Entry>)
    requires Fails(s, r, id, order, tail) && Links(s) && ModsOk(s, 0, 0)
    ensures Links(r)
  {
    FailsDone(s, r, id, order, tail);
    QuietFacts(s.log, tail);
    forall k | 0 <= k < |r.log| && r.log[k].Failed? ensures r.log[k].id in r.mods && r.mods[r.log[k].id].complete {
      FailedAreComplete(s, r, id, order, tail, k);
    }
    assert forall k :: |s.log| <= k < |r.log| ==> r.log[k] == tail[k - |s.log|];
    forall k | 0 <= k < |r.log| && (r.log[k].Completed? || r.log[k].Requested? || r.log[k].ResourceRequested?)
      ensures k < |s.log| && r.log[k] == s.log[k]
    {
    }
    hide ModsOk;
  }

  lemma FailsLog(s: State, r: State, id: Id, order: seq<Id>, tail: seq<Entry>)
    requires Fails(s, r, id, order, tail) && LogOk(s.log, s.declared) && Links(s) && ModsOk(s, 0, 0)
    ensures LogOk(r.log, r.declared) && Links(r)
  {
    QuietTail(s.log, tail, s.declared);
    hide LogOk, Links, ModsOk;
    FailsLinks(s, r, id, order, tail);
  }

  lemma FailsParts(s: State, s1: State, id: Id, order: seq<Id>, notes: seq<Entry>, error: Error, alone: bool)
    requires id < s.nextId && id in order
    requires s1.mods.Keys == s.mods.Keys + {id}
    requires forall x :: x in order ==> x in s.mods || x == id
    requires forall m :: m in s1.mods && m in order ==> s1.mods[m].complete && s1.mods[m].error == Some(error)
    requires forall m :: m in s.mods && m in order ==> s1.mods[m] == s.mods[m].(complete := true, error := Some(error))
    requires forall m :: m in s.mods && m !in order ==> s1.mods[m] == s.mods[m]
    requires id !in s.mods ==> s1.mods[id].dependencies == Some([]) && s1.mods[id].exports == EmptyObject && !s1.mods[id].errorback
    requires s1.(mods := s.mods, log := s.log) == s
    requires s1.log == s.log + notes
    requires var tail := if alone then notes + [GlobalError(error)] else notes;
             QuietEntries(tail) && forall m :: FailedIn(tail, m) <==> m in order
    ensures Fails(s, if alone then Log(s1, GlobalError(error)) else s1, id, order,
                  if alone then notes + [GlobalError(error)] else notes)
  {
    hide FailedIn, QuietEntries;
    assert alone ==> s.log + notes + [GlobalError(error)] == s.log + (notes + [GlobalError(error)]);
  }

  lemma LoadFailedFails(s: State, id: Id, cause: int) returns (order: seq<Id>, tail: seq<Entry>)
    requires Linked(s) && id < s.nextId
    ensures Fails(s, LoadFailed(s, id, cause), id, order, tail)
  {
    var error := LoadErrorOf(s, id, cause);
    var s1;
    order, s1 := LoadFailedParts(s, id, cause);
    assert id in EnsurePlaceholder(s, id).mods && Linked(EnsurePlaceholder(s, id));
    assert Reaches(EnsurePlaceholder(s, id), id, id);
    hide *;
    OrderIsClosure(EnsurePlaceholder(s, id), id);
    FailAllNotes(s, id, order, error);
    FailAllMods(s, id, order, error);
    var notes := FailureNotes(s, order, error);
    tail := if OneHandles(s, order) then notes else notes + [GlobalError(error)];
    NotesFacts(s, order, error, tail);
    FailsParts(s, s1, id, order, notes, error, !OneHandles(s, order));
  }

  lemma LoadFailedKeeps(s: State, id: Id, cause: int)
    requires AtRest(s) && id < s.nextId
    ensures Linked(s) && AtRest(LoadFailed(s, id, cause))
  {
    var none: multiset<Id> := multiset{};
    InvGivesShape(s, none, 0, 0, {});
    hide Ids, ModsOk, WaitersOk, Counted, NothingReady, Settled, QueuesOk, Sought, LogOk, Links, Layered, Waits,
      Fails, Linked, LoadFailed;
    var order, tail := LoadFailedFails(s, id, cause);
    var r := LoadFailed(s, id, cause);
    FailsShape(s, r, id, order, tail);
    FailsRest(s, r, id, order, tail);
    FailsSought(s, r, id, order, tail);
    FailsLog(s, r, id, order, tail);
  }
}

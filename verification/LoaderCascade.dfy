/** Completing a module, and all that follows from it, keeps the invariant. */
module LoaderCascade {
  import opened Options
  import opened Graphs
  import opened LoaderState
  import opened LoaderInvariant
  import opened LoaderSteps

  lemma {:induction false} CompleteKeeps(s: State, m: Id, owed: multiset<Id>, busy: set<Id>)
    requires Linked(s) && QueuesHoldPlugins(s)
    requires Inv(s, owed, m, Full(s, m), busy) && m in s.mods
    requires s.mods[m].complete || s.mods[m].unresolved == 0
    ensures Inv(Complete(s, m), owed, 0, 0, busy)
    decreases Incomplete(s), 0
  {
    hide Inv, Linked, QueuesHoldPlugins, Full, Finished, PluginPart, Incomplete, WaitersOf;
    if s.mods[m].complete {
      NoneResolving(s, owed, m, busy);
    } else {
      var s2 := Finished(s, m);
      FinishKeeps(s, owed, m, busy);
      InvGivesShape(s2, owed + multiset(WaitersOf(s, m)), 0, 0, busy + {m});
      FinishedSmaller(s, m);
      NotifyKeeps(s2, WaitersOf(s, m), owed, busy + {m});
      StaysDone(s2, WaitersOf(s, m), m);
      PluginPartKeeps(Notify(s2, WaitersOf(s, m)), m, owed, busy);
    }
  }

  lemma {:induction false} NotifyKeeps(s: State, ws: seq<Id>, owed: multiset<Id>, busy: set<Id>)
    requires Linked(s) && QueuesHoldPlugins(s)
    requires Inv(s, owed + multiset(ws), 0, 0, busy)
    requires forall k :: 0 <= k < |ws| ==> ws[k] in s.mods
    ensures Inv(Notify(s, ws), owed, 0, 0, busy)
    decreases Incomplete(s), |ws|
  {
    hide Inv, Linked, QueuesHoldPlugins, Full, Incomplete;
    if ws == [] {
      assert owed + multiset(ws) == owed;
    } else {
      var w := ws[0];
      var s1 := Drop(s, w);
      var owed1 := owed + multiset(ws[1..]);
      assert ws == [w] + ws[1..];
      assert owed + multiset(ws) - multiset{w} == owed1;
      DropKeeps(s, owed + multiset(ws), w, busy);
      FullSame(s, w);
      InvGivesShape(s1, owed1, w, Full(s1, w), busy);
      DropSameIncomplete(s, w);
      if s1.mods[w].unresolved == 0 {
        CompleteKeeps(s1, w, owed1, busy);
        NotifyKeeps(Complete(s1, w), ws[1..], owed, busy);
      } else {
        NoneResolving(s1, owed1, w, busy);
        NotifyKeeps(s1, ws[1..], owed, busy);
      }
    }
  }

  lemma DropSameIncomplete(s: State, w: Id)
    requires w in s.mods
    ensures Incomplete(Drop(s, w)) == Incomplete(s) && Drop(s, w).mods.Keys == s.mods.Keys
  {
  }

  lemma FullSame(s: State, w: Id)
    requires w in s.mods
    ensures Full(Drop(s, w), w) == Full(s, w)
  {
  }

  /** Once done, a module stays done with the same exports. */
  ghost predicate KeepsDone(s: State, r: State) {
    forall m :: Done(s, m) ==> Done(r, m) && r.mods[m].exports == s.mods[m].exports
  }

  lemma FinishedKeepsDone(s: State, m: Id)
    requires Waiting(s, m)
    ensures KeepsDone(s, Finished(s, m))
  {
    FinishedCompletes(s, m);
  }

  lemma {:induction false} CompleteKeepsDone(s: State, m: Id)
    requires Linked(s) && QueuesHoldPlugins(s) && m in s.mods
    ensures KeepsDone(s, Complete(s, m))
    decreases Incomplete(s), 0
  {
    if !s.mods[m].complete {
      var s2 := Finished(s, m);
      FinishedSmaller(s, m);
      FinishedKeepsDone(s, m);
      NotifyKeepsDone(s2, WaitersOf(s, m));
      hide Finished, PluginPart;
      PluginPartShape(Notify(s2, WaitersOf(s, m)), m);
    }
  }

  lemma {:induction false} NotifyKeepsDone(s: State, ws: seq<Id>)
    requires Linked(s) && QueuesHoldPlugins(s)
    requires forall k :: 0 <= k < |ws| ==> ws[k] in s.mods
    ensures KeepsDone(s, Notify(s, ws))
    decreases Incomplete(s), |ws|
  {
    if ws != [] {
      var s1 := Drop(s, ws[0]);
      DropSameIncomplete(s, ws[0]);
      if s1.mods[ws[0]].unresolved == 0 {
        CompleteKeepsDone(s1, ws[0]);
        NotifyKeepsDone(Complete(s1, ws[0]), ws[1..]);
      } else {
        NotifyKeepsDone(s1, ws[1..]);
      }
    }
  }

  lemma StaysDone(s: State, ws: seq<Id>, m: Id)
    requires Linked(s) && QueuesHoldPlugins(s) && Done(s, m)
    requires forall k :: 0 <= k < |ws| ==> ws[k] in s.mods
    ensures Done(Notify(s, ws), m)
  {
    NotifyKeepsDone(s, ws);
  }
}

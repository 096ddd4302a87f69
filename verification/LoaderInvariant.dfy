/**
 What every operation of the module manager keeps.

 Inside a running operation the facts carry parameters: `owed` counts decrements that are still
 to come (notifications in flight, dependencies of the module being resolved that are not yet
 looked at), `r` and `i` name the module being resolved and how far it is, and `busy` holds the
 modules whose completion is still under way.
 */
module LoaderInvariant {
  import opened Options
  import opened Graphs
  import opened LoaderState

  // ---- vocabulary -------------------------------------------------------------------------

  /** Completed through `Module.complete`, not through a load failure. */
  ghost predicate Done(s: State, m: Id) {
    m in s.mods && s.mods[m].complete && s.mods[m].dependencies.None?
  }

  /** Failed before it could complete: its factory never ran and never will. */
  ghost predicate FailedEarly(s: State, m: Id) {
    m in s.mods && s.mods[m].complete && s.mods[m].dependencies.Some?
  }

  ghost predicate Waiting(s: State, m: Id) {
    m in s.mods && !s.mods[m].complete
  }

  /** All waiter lists of ids below n, put together. */
  ghost function AllWaiters(waiters: map<Id, seq<Id>>, n: nat): multiset<Id> {
    if n == 0 then multiset{}
    else AllWaiters(waiters, n - 1) + if n - 1 in waiters then multiset(waiters[n - 1]) else multiset{}
  }

  /** The waits-for graph of the modules that are not complete. */
  ghost function Waits(s: State): Rel {
    (m: Id, d: Id) => Waiting(s, m) && m in WaitersOf(s, d)
  }

  ghost predicate HasExports(deps: seq<Dependency>, i: nat)
    requires i <= |deps|
  {
    exists k :: 0 <= k < i && deps[k].Exports?
  }

  ghost predicate AsksFor(deps: seq<Dependency>, d: Id) {
    exists k :: 0 <= k < |deps| && deps[k].Target() == d && !deps[k].Special()
  }

  ghost predicate Queued(s: State, d: Id) {
    exists p, k :: p in s.pluginWaiters && 0 <= k < |s.pluginWaiters[p]| && s.pluginWaiters[p][k].Target() == d
  }

  /** How many dependencies of m have been looked at. */
  ghost function Reached(s: State, m: Id, r: Id, i: nat): nat
    requires m in s.declared
  {
    if m == r && i <= |s.declared[m].dependencies| then i else |s.declared[m].dependencies|
  }

  // ---- modules, waiter lists and counters ---------------------------------------------------

  ghost predicate Ids(s: State) {
    && FIRST_FREE_ID <= s.nextId
    && s.declared.Keys <= s.mods.Keys
    && (forall m :: m in s.mods ==> m < s.nextId)
    && (forall d :: d in s.waiters ==> d < s.nextId)
    && (forall m :: m in s.declared ==> FIRST_FREE_ID <= m)
    && (forall m, k :: m in s.declared && 0 <= k < |s.declared[m].dependencies| ==>
          s.declared[m].dependencies[k].Below(s.nextId))
  }

  ghost predicate ModOk(s: State, m: Id, r: Id, i: nat)
    requires m in s.mods
  {
    var mod := s.mods[m];
    && (mod.dependencies.Some? ==>
          mod.dependencies.value == if m in s.declared then s.declared[m].dependencies else [])
    && (m !in s.declared ==> mod.complete && mod.dependencies.Some?)
    && (mod.complete && mod.dependencies.Some? ==> mod.error.Some? && mod.exports == EmptyObject)
    && (!mod.complete ==>
          && mod.dependencies.Some?
          && mod.name == s.declared[m].name && mod.callback == s.declared[m].callback
          && mod.error.None?
          && mod.exports == EmptyObject
          && mod.exportsPassedIn == HasExports(s.declared[m].dependencies, Reached(s, m, r, i)))
  }

  ghost predicate ModsOk(s: State, r: Id, i: nat) {
    forall m :: m in s.mods ==> ModOk(s, m, r, i)
  }

  ghost predicate WaitersOk(s: State) {
    && (forall d, k :: d in s.waiters && 0 <= k < |s.waiters[d]| ==>
          s.waiters[d][k] in s.declared && AsksFor(s.declared[s.waiters[d][k]].dependencies, d)
          && !Done(s, s.waiters[d][k]))
    && (forall d :: d in s.waiters && s.waiters[d] != [] ==> !Done(s, d))
  }

  ghost predicate Counted(s: State, owed: multiset<Id>) {
    forall m :: Waiting(s, m) ==> s.mods[m].unresolved == (AllWaiters(s.waiters, s.nextId) + owed)[m]
  }

  /** Nothing but r is ready and left lying. */
  ghost predicate NothingReady(s: State, r: Id) {
    forall m :: Waiting(s, m) && m != r ==> s.mods[m].unresolved != 0
  }

  ghost predicate SettledDep(s: State, m: Id, d: Dependency) {
    d.Special() || Warned(d.Target(), m) in s.log || Done(s, d.Target()) || m in WaitersOf(s, d.Target())
  }

  ghost predicate Settled(s: State, r: Id, i: nat) {
    forall m, k :: Waiting(s, m) && m in s.declared && 0 <= k < Reached(s, m, r, i) ==>
      SettledDep(s, m, s.declared[m].dependencies[k])
  }

  // ---- plugins and requests -----------------------------------------------------------------

  ghost predicate QueuesOk(s: State, busy: set<Id>) {
    && (forall p, k :: p in s.pluginWaiters && 0 <= k < |s.pluginWaiters[p]| ==>
          s.pluginWaiters[p][k].Plugin? && s.pluginWaiters[p][k].pluginId == p)
    && (forall p :: p in s.pluginWaiters && s.pluginWaiters[p] != [] && p !in busy ==>
          !Done(s, p) && (p in s.mods || p in s.known))
  }

  ghost predicate IsSought(s: State, d: Id) {
    d in s.mods || d in s.known || Queued(s, d)
  }

  /** Every id somebody waits for is defined, requested, or queued for its plugin. */
  ghost predicate Sought(s: State) {
    forall d :: d in s.waiters && s.waiters[d] != [] ==> IsSought(s, d)
  }

  // ---- the log --------------------------------------------------------------------------------

  ghost predicate CompletedIn(log: seq<Entry>, m: Id) {
    exists k :: 0 <= k < |log| && log[k].Completed? && log[k].id == m
  }

  ghost predicate CompletedWith(log: seq<Entry>, m: Id, exports: Value) {
    exists k :: 0 <= k < |log| && log[k].Completed? && log[k].id == m && log[k].exports == exports
  }

  ghost predicate FailedIn(log: seq<Entry>, m: Id) {
    exists k :: 0 <= k < |log| && log[k].Failed? && log[k].id == m
  }

  ghost predicate RequestedIn(log: seq<Entry>, d: Id) {
    exists k :: 0 <= k < |log| && (log[k].Requested? || log[k].ResourceRequested?) && log[k].id == d
  }

  /** The declared dependency graph. */
  ghost function Declares(declared: map<Id, Declaration>): Rel {
    (a: Id, b: Id) => a in declared && DependsOn(declared[a].dependencies, b)
  }

  /** What m is handed for dependency d, given what was logged before. */
  ghost predicate ArgumentOk(log: seq<Entry>, m: Id, name: string, d: Dependency, arg: Value) {
    match d
    case Exports => arg == EmptyObject
    case ThisModule => arg == ModuleInfo(name)
    case Require => arg == RequireFor(name)
    case _ =>
      || CompletedWith(log, d.Target(), arg)
      || (Warned(d.Target(), m) in log && arg == EmptyObject)
  }

  ghost predicate CompletionOk(log: seq<Entry>, decl: Declaration, m: Id, args: seq<Value>, exports: Value) {
    && !CompletedIn(log, m) && !FailedIn(log, m)
    && |args| == |decl.dependencies|
    && (forall k :: 0 <= k < |args| ==> ArgumentOk(log, m, decl.name, decl.dependencies[k], args[k]))
    && exports == Produce(m, decl.callback, HasExports(decl.dependencies, |decl.dependencies|), EmptyObject, args).0
  }

  /** A closed chain of declared dependencies, unless it was cut at the depth limit. */
  ghost predicate PrintedOk(declared: map<Id, Declaration>, path: seq<Id>) {
    var n := |path| - 1;
    && n >= 1 && path[0] == path[n] && Walk(Declares(declared), path[..n])
    && (n == MAX_DEPTH + 1 || Declares(declared)(path[n - 1], path[n]))
  }

  ghost predicate EntryOk(log: seq<Entry>, declared: map<Id, Declaration>, e: Entry) {
    match e
    case Completed(m, args, exports) => m in declared && CompletionOk(log, declared[m], m, args, exports)
    case Warned(d, m) => m in declared && AsksFor(declared[m].dependencies, d) && Joined(Declares(declared), d, m)
    case Printed(path) => PrintedOk(declared, path)
    case Requested(d) => !RequestedIn(log, d)
    case ResourceRequested(d, p, _, plugin) =>
      !RequestedIn(log, d) && (CompletedWith(log, p, plugin) || FailedIn(log, p))
    case _ => true
  }

  /** Every entry is justified by the entries before it. */
  ghost predicate LogOk(log: seq<Entry>, declared: map<Id, Declaration>) {
    log == [] ||
    (LogOk(log[..|log| - 1], declared) && EntryOk(log[..|log| - 1], declared, log[|log| - 1]))
  }

  ghost predicate HasWarning(log: seq<Entry>) {
    exists k :: 0 <= k < |log| && log[k].Warned?
  }

  /** The state agrees with the log. */
  ghost predicate Links(s: State) {
    && (forall k :: 0 <= k < |s.log| && s.log[k].Completed? ==>
          Done(s, s.log[k].id) && s.mods[s.log[k].id].exports == s.log[k].exports)
    && (forall m :: Done(s, m) ==> CompletedIn(s.log, m))
    && (forall k :: 0 <= k < |s.log| && s.log[k].Failed? ==> s.log[k].id in s.mods && s.mods[s.log[k].id].complete)
    && (forall m :: m in s.mods && s.mods[m].complete && !Done(s, m) ==> FailedIn(s.log, m))
    && (forall k :: 0 <= k < |s.log| && (s.log[k].Requested? || s.log[k].ResourceRequested?) ==> s.log[k].id in s.known)
    && (forall d :: d in s.known ==> RequestedIn(s.log, d))
    && (s.cycle <==> HasWarning(s.log))
  }

  // ---- together -------------------------------------------------------------------------------

  ghost predicate Core(s: State, owed: multiset<Id>, r: Id, i: nat, busy: set<Id>) {
    && Ids(s) && ModsOk(s, r, i) && WaitersOk(s)
    && Counted(s, owed) && NothingReady(s, r) && Settled(s, r, i)
    && QueuesOk(s, busy)
    && LogOk(s.log, s.declared) && Links(s)
    && Layered(Waits(s))
  }

  ghost predicate Inv(s: State, owed: multiset<Id>, r: Id, i: nat, busy: set<Id>) {
    Core(s, owed, r, i, busy) && Sought(s)
  }

  /** What holds between two calls from outside. */
  ghost predicate AtRest(s: State) {
    Inv(s, multiset{}, 0, 0, {})
  }

  lemma InvGivesShape(s: State, owed: multiset<Id>, r: Id, i: nat, busy: set<Id>)
    requires Inv(s, owed, r, i, busy)
    ensures Linked(s) && QueuesHoldPlugins(s)
  {
  }

  // ---- fewer waits ------------------------------------------------------------------------------

  /** Where nobody waits who did not wait before, the waits stay layered. */
  lemma FewerWaits(s: State, r: State)
    requires forall m :: Waiting(r, m) ==> Waiting(s, m)
    requires forall d :: d in r.waiters ==> d in s.waiters && r.waiters[d] == s.waiters[d]
    requires Layered(Waits(s))
    ensures Layered(Waits(r))
  {
    forall a, b | Waits(r)(a, b) ensures Waits(s)(a, b) {
      assert Waiting(r, a) && a in WaitersOf(r, b);
      assert Waiting(s, a) && a in WaitersOf(s, b);
    }
    NarrowerLayered(Waits(r), Waits(s));
  }

  // ---- the waiter multiset --------------------------------------------------------------------

  lemma {:induction false} SameWaiters(w: map<Id, seq<Id>>, w': map<Id, seq<Id>>, n: nat)
    requires forall d :: d < n ==> (if d in w then w[d] else []) == (if d in w' then w'[d] else [])
    ensures AllWaiters(w, n) == AllWaiters(w', n)
  {
    if n > 0 {
      SameWaiters(w, w', n - 1);
    }
  }

  lemma {:induction false} WaitersReplaced(w: map<Id, seq<Id>>, w': map<Id, seq<Id>>, d: Id, n: nat)
    requires d < n
    requires forall x :: x < n && x != d ==> (if x in w then w[x] else []) == (if x in w' then w'[x] else [])
    ensures AllWaiters(w', n) + multiset(if d in w then w[d] else [])
         == AllWaiters(w, n) + multiset(if d in w' then w'[d] else [])
  {
    var last := if n - 1 in w then multiset(w[n - 1]) else multiset{};
    var last' := if n - 1 in w' then multiset(w'[n - 1]) else multiset{};
    assert AllWaiters(w, n) == AllWaiters(w, n - 1) + last;
    assert AllWaiters(w', n) == AllWaiters(w', n - 1) + last';
    if d == n - 1 {
      SameWaiters(w, w', n - 1);
    } else {
      WaitersReplaced(w, w', d, n - 1);
      assert last == last';
    }
  }

  lemma {:induction false} MoreIdsSameWaiters(w: map<Id, seq<Id>>, n: nat, n': nat)
    requires n <= n' && forall d :: d in w ==> d < n
    ensures AllWaiters(w, n) == AllWaiters(w, n')
    decreases n' - n
  {
    if n < n' {
      MoreIdsSameWaiters(w, n, n' - 1);
    }
  }

  /** Being counted and being on a list are the same. */
  lemma {:induction false} OnSomeList(w: map<Id, seq<Id>>, n: nat, m: Id)
    ensures m in AllWaiters(w, n) <==> exists d :: d < n && d in w && m in w[d]
  {
    if n > 0 {
      OnSomeList(w, n - 1, m);
    }
  }

  // ---- the log grows ----------------------------------------------------------------------------

  lemma LogGrows(log: seq<Entry>, declared: map<Id, Declaration>, e: Entry)
    requires LogOk(log, declared) && EntryOk(log, declared, e)
    ensures LogOk(log + [e], declared)
  {
    assert (log + [e])[..|log|] == log;
  }

  /** Each entry is justified by what precedes it. */
  lemma {:induction false} LogAt(log: seq<Entry>, declared: map<Id, Declaration>, k: nat)
    requires LogOk(log, declared) && k < |log|
    ensures LogOk(log[..k], declared) && EntryOk(log[..k], declared, log[k])
  {
    var init := log[..|log| - 1];
    if k < |log| - 1 {
      LogAt(init, declared, k);
      assert init[..k] == log[..k];
    }
  }

  lemma MorePrinted(declared: map<Id, Declaration>, more: map<Id, Declaration>, path: seq<Id>)
    requires PrintedOk(declared, path) && forall m :: m in declared ==> m in more && more[m] == declared[m]
    ensures PrintedOk(more, path)
  {
    var p := path[..|path| - 1];
    forall k | 0 <= k < |p| - 1 ensures Goes(Declares(more), p, k) {
      assert Goes(Declares(declared), p, k);
    }
  }

  lemma {:induction false} MoreDeclarations(log: seq<Entry>, declared: map<Id, Declaration>, more: map<Id, Declaration>)
    requires LogOk(log, declared)
    requires forall m :: m in declared ==> m in more && more[m] == declared[m]
    ensures LogOk(log, more)
  {
    if log != [] {
      var last := log[|log| - 1];
      MoreDeclarations(log[..|log| - 1], declared, more);
      if last.Warned? {
        WiderJoined(Declares(declared), Declares(more), last.dependency, last.dependent);
      } else if last.Printed? {
        MorePrinted(declared, more, last.path);
      }
    }
  }
}

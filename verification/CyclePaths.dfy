/** The cycle path printed with a cycle warning. */
module CyclePaths {
  import opened Options
  import opened Graphs
  import opened LoaderState

  /** Following the dependencies backwards. */
  ghost function ReversedDeps(s: State): Rel {
    (b: Id, a: Id) => Deps(s)(a, b)
  }

  /** What a returned path is: a real chain from `from`, read backwards, to `to` or to the depth limit. */
  ghost predicate PathOk(s: State, path: seq<Id>, from: Id, to: Id, depth: nat) {
    && Walk(ReversedDeps(s), path)
    && path[|path| - 1] == from
    && |path| <= MAX_DEPTH + 1 - depth
    && (path[0] == to || |path| == MAX_DEPTH + 1 - depth)
  }

  lemma LongerPath(s: State, path: seq<Id>, next: Id, from: Id, to: Id, depth: nat)
    requires depth < MAX_DEPTH && PathOk(s, path, next, to, depth + 1) && Deps(s)(from, next)
    ensures PathOk(s, path + [from], from, to, depth)
  {
    var q := path + [from];
    forall k | 0 <= k < |q| - 1 ensures ReversedDeps(s)(q[k], q[k + 1]) {
      if k < |path| - 1 {
        assert Goes(ReversedDeps(s), path, k);
      }
    }
  }

  lemma {:induction false} PathIsReal(s: State, from: Id, to: Id, depth: nat)
    requires depth <= MAX_DEPTH && CyclePath(s.mods, from, to, depth).Some?
    ensures PathOk(s, CyclePath(s.mods, from, to, depth).value, from, to, depth)
    decreases MAX_DEPTH - depth, 0
  {
    if !(from == to || depth == MAX_DEPTH) {
      var deps := s.mods[from].dependencies.value;
      forall k | 0 <= k < |deps| ensures Deps(s)(from, deps[k].Target()) {
      }
      PathViaIsReal(s, from, deps, to, depth);
    }
  }

  lemma {:induction false} PathViaIsReal(s: State, from: Id, deps: seq<Dependency>, to: Id, depth: nat)
    requires depth < MAX_DEPTH && CyclePathVia(s.mods, from, deps, to, depth).Some?
    requires forall k :: 0 <= k < |deps| ==> Deps(s)(from, deps[k].Target())
    ensures PathOk(s, CyclePathVia(s.mods, from, deps, to, depth).value, from, to, depth)
    decreases MAX_DEPTH - depth - 1, |deps| + 1
  {
    hide Deps, PathOk;
    match CyclePath(s.mods, deps[0].Target(), to, depth + 1)
    case Some(path) =>
      PathIsReal(s, deps[0].Target(), to, depth + 1);
      LongerPath(s, path, deps[0].Target(), from, to, depth);
    case None =>
      PathViaIsReal(s, from, deps[1..], to, depth);
  }

  lemma {:induction false} PathIsFound(s: State, p: seq<Id>, to: Id, depth: nat)
    requires depth <= MAX_DEPTH && Walk(Deps(s), p) && p[|p| - 1] == to
    ensures CyclePath(s.mods, p[0], to, depth).Some?
    decreases MAX_DEPTH - depth, 0
  {
    if !(p[0] == to || depth == MAX_DEPTH) {
      assert Goes(Deps(s), p, 0);
      var deps := s.mods[p[0]].dependencies.value;
      var k :| 0 <= k < |deps| && deps[k].Target() == p[1];
      var q := p[1..];
      forall x | 0 <= x < |q| - 1 ensures Deps(s)(q[x], q[x + 1]) {
        assert Goes(Deps(s), p, x + 1);
      }
      PathIsFound(s, q, to, depth + 1);
      PathViaIsFound(s, p[0], deps, to, depth, k);
    }
  }

  lemma {:induction false} PathViaIsFound(s: State, from: Id, deps: seq<Dependency>, to: Id, depth: nat, k: nat)
    requires depth < MAX_DEPTH && k < |deps| && CyclePath(s.mods, deps[k].Target(), to, depth + 1).Some?
    ensures CyclePathVia(s.mods, from, deps, to, depth).Some?
    decreases |deps|
  {
    if k > 0 {
      PathViaIsFound(s, from, deps[1..], to, depth, k - 1);
    }
  }

  /**
   When the path search says there is a way from `from` to `to`, the printed path exists: it is a
   chain of real dependencies from `from` that ends at `to` or has been cut at 51 ids.
   */
  lemma CyclePathIsExact(s: State, from: Id, to: Id)
    requires Joined(Deps(s), from, to)
    ensures CyclePath(s.mods, from, to, 0).Some?
    ensures var path := CyclePath(s.mods, from, to, 0).value;
            && |path| >= 1 && path[|path| - 1] == from
            && (forall k :: 0 <= k < |path| - 1 ==> Deps(s)(path[k + 1], path[k]))
            && (path[0] == to || |path| == MAX_DEPTH + 1)
  {
    var p :| Walk(Deps(s), p) && |p| >= 2 && p[0] == from && p[|p| - 1] == to;
    PathIsFound(s, p, to, 0);
    PathIsReal(s, from, to, 0);
    var path := CyclePath(s.mods, from, to, 0).value;
    forall k | 0 <= k < |path| - 1 ensures Deps(s)(path[k + 1], path[k]) {
      assert Goes(ReversedDeps(s), path, k);
    }
  }
}

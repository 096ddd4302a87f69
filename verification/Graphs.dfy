/** Walks, reachability and layerings of relations on module ids. */
module Graphs {

  type Id = nat

  /** e(a, b) says that there is an edge from a to b. */
  type Rel = (Id, Id) -> bool

  /** The k-th step of p is an edge. */
  ghost predicate Goes(e: Rel, p: seq<Id>, k: int)
    requires 0 <= k < |p| - 1
  {
    e(p[k], p[k + 1])
  }

  ghost predicate Walk(e: Rel, p: seq<Id>) {
    |p| >= 1 && forall k :: 0 <= k < |p| - 1 ==> Goes(e, p, k)
  }

  /** A chain of one or more edges leads from a to b. */
  ghost predicate Joined(e: Rel, a: Id, b: Id) {
    exists p :: Walk(e, p) && |p| >= 2 && p[0] == a && p[|p| - 1] == b
  }

  ghost predicate Cyclic(e: Rel) {
    exists a :: Joined(e, a, a)
  }

  /** Every edge leads to a smaller rank, and ranks stay below top. */
  ghost predicate Ranked(e: Rel, rank: Id -> nat, top: nat) {
    && (forall a, b :: e(a, b) ==> rank(b) < rank(a))
    && (forall a :: rank(a) < top)
  }

  ghost predicate Layered(e: Rel) {
    exists rank, top :: Ranked(e, rank, top)
  }

  ghost predicate Closed(e: Rel, inside: Id -> bool) {
    forall a, b :: e(a, b) && inside(a) ==> inside(b)
  }

  lemma EdgeJoins(e: Rel, a: Id, b: Id)
    requires e(a, b)
    ensures Joined(e, a, b)
  {
    var p := [a, b];
    assert Walk(e, p) && p[0] == a && p[|p| - 1] == b;
  }

  lemma JoinThenEdge(e: Rel, a: Id, b: Id, c: Id)
    requires Joined(e, a, b) && e(b, c)
    ensures Joined(e, a, c)
  {
    var p :| Walk(e, p) && |p| >= 2 && p[0] == a && p[|p| - 1] == b;
    var q := p + [c];
    forall k | 0 <= k < |q| - 1 ensures Goes(e, q, k) {
      if k < |p| - 1 {
        assert Goes(e, p, k) && q[k] == p[k] && q[k + 1] == p[k + 1];
      } else {
        assert q[k] == b && q[k + 1] == c;
      }
    }
    assert Walk(e, q) && q[0] == a && q[|q| - 1] == c;
  }

  lemma JoinedHasFirstEdge(e: Rel, a: Id, b: Id) returns (x: Id)
    requires Joined(e, a, b)
    ensures e(a, x)
  {
    var p :| Walk(e, p) && |p| >= 2 && p[0] == a && p[|p| - 1] == b;
    assert Goes(e, p, 0);
    x := p[1];
  }

  /** The last edge of a chain, and how its start is reached. */
  lemma JoinedHasLastEdge(e: Rel, a: Id, b: Id) returns (x: Id)
    requires Joined(e, a, b)
    ensures e(x, b) && (x == a || Joined(e, a, x))
  {
    var p :| Walk(e, p) && |p| >= 2 && p[0] == a && p[|p| - 1] == b;
    var q := p[..|p| - 1];
    x := p[|p| - 2];
    assert Goes(e, p, |p| - 2);
    assert forall k :: 0 <= k < |q| - 1 ==> e(q[k], q[k + 1]) by {
      forall k | 0 <= k < |q| - 1 ensures e(q[k], q[k + 1]) {
        assert Goes(e, p, k);
      }
    }
    if |p| > 2 {
      assert Walk(e, q);
    }
  }

  lemma WiderJoined(e: Rel, wider: Rel, a: Id, b: Id)
    requires forall x, y :: e(x, y) ==> wider(x, y)
    requires Joined(e, a, b)
    ensures Joined(wider, a, b)
  {
    var p :| Walk(e, p) && |p| >= 2 && p[0] == a && p[|p| - 1] == b;
    forall k | 0 <= k < |p| - 1 ensures Goes(wider, p, k) {
      assert Goes(e, p, k);
    }
    assert Walk(wider, p);
  }

  /** A set closed under the edges that holds the start of a walk holds all of it. */
  lemma {:induction false} WalkStaysInside(e: Rel, inside: Id -> bool, p: seq<Id>, k: nat)
    requires Closed(e, inside) && Walk(e, p) && inside(p[0]) && k < |p|
    ensures inside(p[k])
  {
    if k > 0 {
      WalkStaysInside(e, inside, p, k - 1);
      assert Goes(e, p, k - 1);
    }
  }

  lemma JoinedStaysInside(e: Rel, inside: Id -> bool, a: Id, b: Id)
    requires Closed(e, inside) && inside(a) && Joined(e, a, b)
    ensures inside(b)
  {
    var p :| Walk(e, p) && |p| >= 2 && p[0] == a && p[|p| - 1] == b;
    WalkStaysInside(e, inside, p, |p| - 1);
  }

  lemma {:induction false} RankFallsAlong(e: Rel, rank: Id -> nat, top: nat, p: seq<Id>, k: nat)
    requires Ranked(e, rank, top) && Walk(e, p) && 0 < k < |p|
    ensures rank(p[k]) < rank(p[0])
  {
    if k > 1 {
      RankFallsAlong(e, rank, top, p, k - 1);
    }
    assert Goes(e, p, k - 1);
  }

  lemma LayeredIsAcyclic(e: Rel)
    requires Layered(e)
    ensures !Cyclic(e)
  {
    var rank, top :| Ranked(e, rank, top);
    forall a ensures !Joined(e, a, a) {
      if Joined(e, a, a) {
        var p :| Walk(e, p) && |p| >= 2 && p[0] == a && p[|p| - 1] == a;
        RankFallsAlong(e, rank, top, p, |p| - 1);
      }
    }
  }

  lemma NarrowerLayered(e: Rel, wider: Rel)
    requires Layered(wider)
    requires forall a, b :: e(a, b) ==> wider(a, b)
    ensures Layered(e)
  {
    var rank, top :| Ranked(wider, rank, top);
    assert Ranked(e, rank, top);
  }

  /** Edges from m to d may be added when some closed set holds d but not m. */
  lemma AddEdge(e: Rel, e2: Rel, inside: Id -> bool, m: Id, d: Id)
    requires Layered(e)
    requires forall a, b :: e2(a, b) ==> e(a, b) || (a == m && b == d)
    requires Closed(e, inside) && inside(d) && !inside(m)
    ensures Layered(e2)
  {
    var rank, top :| Ranked(e, rank, top);
    var lifted := (x: Id) => if inside(x) then rank(x) else rank(x) + top;
    forall a, b | e2(a, b) ensures lifted(b) < lifted(a) {
      if e(a, b) {
        assert rank(b) < rank(a);
      } else {
        assert rank(b) < top;
      }
    }
    assert Ranked(e2, lifted, 2 * top) by {
      forall a ensures lifted(a) < 2 * top {
        assert rank(a) < top;
      }
    }
  }

  /** On a walk that comes back to its start, every step leads back to where it was made from. */
  lemma AroundTheCycle(e: Rel, p: seq<Id>, k: nat)
    requires Walk(e, p) && |p| >= 2 && p[0] == p[|p| - 1] && k < |p| - 1
    ensures Joined(e, p[k + 1], p[k])
  {
    var q := p[k + 1..] + p[1..k + 1];
    if |p| == 2 {
      assert Goes(e, p, 0);
      EdgeJoins(e, p[0], p[1]);
    } else {
      forall j | 0 <= j < |q| - 1 ensures Goes(e, q, j) {
        if j < |p| - 2 - k {
          assert Goes(e, p, k + 1 + j);
        } else {
          assert Goes(e, p, j - (|p| - 2 - k));
        }
      }
      assert Walk(e, q) && q[0] == p[k + 1] && q[|q| - 1] == p[k];
    }
  }
}

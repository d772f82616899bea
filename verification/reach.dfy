/**
 Walks along the children sets.
 */
module Reach {
  import opened Redis
  import opened Model

  ghost predicate IsWalk(edges: set<(Id, Id)>, walk: seq<Id>)
  {
    walk != [] && forall i :: 0 < i < |walk| ==> (walk[i - 1], walk[i]) in edges
  }

  ghost predicate Reaches(edges: set<(Id, Id)>, a: Id, b: Id)
  {
    exists walk :: IsWalk(edges, walk) && walk[0] == a && walk[|walk| - 1] == b
  }

  ghost predicate ClosedUnder(edges: set<(Id, Id)>, ids: set<Id>)
  {
    forall e :: e in edges && e.0 in ids ==> e.1 in ids
  }

  lemma ReachesItself(edges: set<(Id, Id)>, a: Id)
    ensures Reaches(edges, a, a)
  {
    assert IsWalk(edges, [a]) && [a][0] == a;
  }

  lemma ReachesOn(edges: set<(Id, Id)>, a: Id, b: Id, c: Id)
    requires Reaches(edges, a, b) && (b, c) in edges
    ensures Reaches(edges, a, c)
  {
    var walk :| IsWalk(edges, walk) && walk[0] == a && walk[|walk| - 1] == b;
    var longer := walk + [c];
    assert IsWalk(edges, longer) && longer[0] == a && longer[|longer| - 1] == c;
  }

  lemma {:induction false} ClosedHoldsWalks(edges: set<(Id, Id)>, ids: set<Id>, walk: seq<Id>)
    requires ClosedUnder(edges, ids) && IsWalk(edges, walk) && walk[0] in ids
    ensures walk[|walk| - 1] in ids
    decreases |walk|
  {
    if |walk| <= 1 {
    } else {
      var rest := walk[..|walk| - 1];
      ClosedHoldsWalks(edges, ids, rest);
      assert (walk[|walk| - 2], walk[|walk| - 1]) in edges;
    }
  }

  /** The ids a deletion starting at `start` collects. */
  ghost predicate Collects(s: State, start: Id, ids: seq<Id>)
  {
    forall x :: x in ids <==> Reaches(s.childEdges, start, x)
  }

  /** A job without dependents is all that its deletion collects. */
  lemma CollectsItself(s: State, x: Id)
    requires forall e :: e in s.childEdges ==> e.0 != x
    ensures Collects(s, x, [x])
  {
    ReachesItself(s.childEdges, x);
    forall y | Reaches(s.childEdges, x, y)
      ensures y == x
    {
      var walk :| IsWalk(s.childEdges, walk) && walk[0] == x && walk[|walk| - 1] == y;
      ClosedHoldsWalks(s.childEdges, {x}, walk);
    }
  }

  lemma CollectedIsClosed(s: State, start: Id, ids: seq<Id>)
    requires Collects(s, start, ids)
    ensures ClosedUnder(s.childEdges, Members(ids))
  {
    forall e | e in s.childEdges && e.0 in Members(ids)
      ensures e.1 in Members(ids)
    {
      ReachesOn(s.childEdges, start, e.0, e.1);
    }
  }
}

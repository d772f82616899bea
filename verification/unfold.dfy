/**
 From the object graph of a flow to the jobs it becomes. processNode recurses over
 the objects and gives every occurrence a job of its own; on what the structure
 check accepts that recursion ends.
 */
module Unfolding {
  import opened Redis
  import opened FlowCheck
  import opened Flows

  /** The tree of jobs, and the first id not used. Every occurrence takes the next id. */
  function Unfold(g: Graph, r: Ref, path: seq<string>, next: Id): (Node, Id)
    requires CheckNode(g, r, path) == Accepted
    decreases Keys(g) - OnPath(path), 1, 0
  {
    ShorterPath(g, r, path);
    var (kids, after) := UnfoldEach(g, g[r].children, path + [KeyOf(g[r])], next + 1);
    (Node(next, g[r].fanOut, g[r].flow, g[r].own, kids), after)
  }

  function UnfoldEach(g: Graph, rs: seq<Ref>, path: seq<string>, next: Id): (seq<Node>, Id)
    requires CheckChildren(g, rs, path) == Accepted
    decreases Keys(g) - OnPath(path), 2, |rs|
  {
    if rs == [] then ([], next)
    else
      var (first, after) := Unfold(g, rs[0], path, next);
      var (rest, end) := UnfoldEach(g, rs[1..], path, after);
      ([first] + rest, end)
  }

  /** The tree has a node for every object, with its options, and a child for every child. */
  ghost predicate Mirrors(g: Graph, r: Ref, n: Node)
    decreases n
  {
    && r in g && n.fanOut == g[r].fanOut && n.flow == g[r].flow && n.own == g[r].own
    && |n.children| == |g[r].children|
    && forall i :: 0 <= i < |n.children| ==> Mirrors(g, g[r].children[i], n.children[i])
  }

  lemma {:induction false} UnfoldMirrors(g: Graph, r: Ref, path: seq<string>, next: Id)
    requires CheckNode(g, r, path) == Accepted
    ensures Mirrors(g, r, Unfold(g, r, path, next).0)
    decreases Keys(g) - OnPath(path), 1, 0
  {
    ShorterPath(g, r, path);
    UnfoldEachMirrors(g, g[r].children, path + [KeyOf(g[r])], next + 1);
  }

  lemma {:induction false} UnfoldEachMirrors(g: Graph, rs: seq<Ref>, path: seq<string>, next: Id)
    requires CheckChildren(g, rs, path) == Accepted
    ensures var ns := UnfoldEach(g, rs, path, next).0;
            |ns| == |rs| && forall i :: 0 <= i < |ns| ==> Mirrors(g, rs[i], ns[i])
    decreases Keys(g) - OnPath(path), 2, |rs|
  {
    if rs == [] {
    } else {
      UnfoldMirrors(g, rs[0], path, next);
      UnfoldEachMirrors(g, rs[1..], path, Unfold(g, rs[0], path, next).1);
    }
  }

  ghost predicate Within(ids: set<Id>, lo: Id, hi: Id)
  {
    forall x :: x in ids ==> lo <= x < hi
  }

  lemma {:induction false} UnfoldIsDistinct(g: Graph, r: Ref, path: seq<string>, next: Id)
    requires CheckNode(g, r, path) == Accepted
    ensures var (n, after) := Unfold(g, r, path, next);
            next < after && n.id == next && Within(IdsOf(n), next, after) && Distinct(n)
    decreases Keys(g) - OnPath(path), 1, 0
  {
    ShorterPath(g, r, path);
    EachIsDistinct(g, g[r].children, path + [KeyOf(g[r])], next + 1, Unfold(g, r, path, next).0, 0);
  }

  lemma {:induction false} EachIsDistinct(g: Graph, rs: seq<Ref>, path: seq<string>, next: Id, n: Node, k: nat)
    requires CheckChildren(g, rs, path) == Accepted
    requires k <= |n.children| && n.children[k..] == UnfoldEach(g, rs, path, next).0
    ensures var after := UnfoldEach(g, rs, path, next).1;
            next <= after && Within(IdsFrom(n, k), next, after) && DistinctFrom(n, k)
    decreases Keys(g) - OnPath(path), 2, |rs|
  {
    if rs == [] {
      assert k == |n.children|;
    } else {
      var (first, after) := Unfold(g, rs[0], path, next);
      assert n.children[k] == n.children[k..][0] == first;
      assert n.children[k + 1..] == n.children[k..][1..];
      UnfoldIsDistinct(g, rs[0], path, next);
      EachIsDistinct(g, rs[1..], path, after, n, k + 1);
    }
  }

  /** The parents that the caller lists are named once each, and come from `outside`. */
  ghost predicate CallersListsFine(g: Graph, outside: set<Id>)
  {
    forall r :: r in g ==> NoDup(g[r].own) && forall p :: p in g[r].own ==> p in outside
  }

  lemma {:induction false} MirrorsOwnFine(g: Graph, r: Ref, n: Node, outside: set<Id>)
    requires Mirrors(g, r, n) && CallersListsFine(g, outside)
    ensures OwnFine(n, outside)
    decreases n
  {
    forall i | 0 <= i < |n.children|
      ensures OwnFine(n.children[i], outside)
    {
      MirrorsOwnFine(g, g[r].children[i], n.children[i], outside);
    }
  }

  /** What the check accepts becomes a finite tree of jobs with distinct ids, one for
      every occurrence of an object; and however its registration is interleaved,
      every parent is registered before its dependents, flagged, and listed once. */
  lemma AcceptedFlowRegisters(g: Graph, root: Ref, next: Id, outside: set<Id>, t: seq<Reg>)
    requires CheckNode(g, root, []) == Accepted && CallersListsFine(g, outside)
    requires forall p :: p in outside ==> p < next
    requires NodeTrace(Unfold(g, root, [], next).0, [], false, t)
    ensures var n := Unfold(g, root, [], next).0;
            && Mirrors(g, root, n) && Distinct(n)
            && IdsIn(t) == IdsOf(n) && Once(t) && NoParentTwice(t) && ParentsFirst(t, outside)
  {
    var n := Unfold(g, root, [], next).0;
    UnfoldMirrors(g, root, [], next);
    UnfoldIsDistinct(g, root, [], next);
    MirrorsOwnFine(g, root, n, outside);
    FlowIsOrdered(n, t, outside);
  }

  /** The check is stricter than that recursion needs: two different objects with one
      key, one below the other, would give a finite tree, and are refused. */
  lemma SameKeyIsRefusedThoughFinite(key: NodeData)
    requires key.name != "" && QueueOf(key) != ""
    ensures var g := map[0 := key.(children := [1]), 1 := key.(children := [])];
            && CheckNode(g, 0, []) == Circular(KeyOf(key), [KeyOf(key)])
            && Mirrors(g, 0, Node(0, key.fanOut, key.flow, key.own, [Node(1, key.fanOut, key.flow, key.own, [])]))
  {
    var g := map[0 := key.(children := [1]), 1 := key.(children := [])];
    assert CheckNode(g, 1, [KeyOf(key)]) == Circular(KeyOf(key), [KeyOf(key)]);
    assert [] + [KeyOf(key)] == [KeyOf(key)];
    assert Mirrors(g, 1, Node(1, key.fanOut, key.flow, key.own, []));
  }
}

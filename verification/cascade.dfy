/**
 Deleting a job with everything that depends on it (maintenance.js): a search of
 the children sets that edits them while it walks, then one pipeline of deletes.
 */
module Cascade {
  import opened Redis
  import opened Model
  import opened Store
  import opened Reach

  // ---- The search ----

  method CutStep(q: QueueStore, id: Id)
    modifies q`childEdges
    ensures q.childEdges == old(q.childEdges) - set e | e in q.parentEdges && e.1 == id
  {
    var parents := SMembers(ParentsOf(q.parentEdges, id));
    var i := 0;
    while i < |parents|
      invariant 0 <= i <= |parents|
      invariant q.childEdges == old(q.childEdges) - set p | p in parents[..i] :: (p, id)
    {
      q.childEdges := q.childEdges - {(parents[i], id)};
      i := i + 1;
    }
    assert parents[..i] == parents;
    forall e | e in q.parentEdges && e.1 == id
      ensures e.0 in parents
    {
    }
  }

  /** Queue the children not seen before. */
  method Discover(kids: seq<Id>, seen: set<Id>) returns (visited: set<Id>, found: seq<Id>)
    requires NoDup(kids)
    ensures visited == seen + Members(kids)
    ensures NoDup(found) && Members(found) == Members(kids) - seen
  {
    visited, found := seen, [];
    var i := 0;
    while i < |kids|
      invariant 0 <= i <= |kids|
      invariant visited == seen + Members(kids[..i])
      invariant NoDup(found) && forall x :: x in found <==> x in kids[..i] && x !in seen
    {
      assert kids[..i + 1] == kids[..i] + [kids[i]];
      if kids[i] !in visited {
        NoDupSnoc(found, kids[i]);
        visited := visited + {kids[i]};
        found := found + [kids[i]];
      }
      i := i + 1;
    }
    assert kids[..i] == kids;
  }

  /** Where the search stands: `ids` done, `queue` to do, every child of a done id known. */
  ghost predicate Searching(edges: set<(Id, Id)>, start: Id, ids: seq<Id>, queue: seq<Id>, visited: set<Id>)
  {
    && NoDup(ids + queue) && Members(ids + queue) == visited
    && ids + queue != [] && (ids + queue)[0] == start
    && (forall x :: x in visited ==> Reaches(edges, start, x))
    && (forall e :: e in edges && e.0 in ids ==> e.1 in visited)
  }

  lemma Advance(edges: set<(Id, Id)>, start: Id, ids: seq<Id>, queue: seq<Id>, visited: set<Id>, found: seq<Id>)
    requires Searching(edges, start, ids, queue, visited) && queue != []
    requires NoDup(found) && forall c :: c in found <==> (queue[0], c) in edges && c !in visited
    ensures Searching(edges, start, ids + [queue[0]], queue[1..] + found, visited + Members(found))
  {
    var all := ids + [queue[0]] + (queue[1..] + found);
    assert all == (ids + queue) + found;
    assert queue[0] in (ids + queue);
    forall x | x in found
      ensures x !in ids + queue
    {
      assert x in ids + queue <==> x in Members(ids + queue);
    }
    NoDupConcat(ids + queue, found);
    forall x | x in found
      ensures Reaches(edges, start, x)
    {
      ReachesOn(edges, start, queue[0], x);
    }
  }

  lemma HeadIsNew(ids: seq<Id>, queue: seq<Id>)
    requires NoDup(ids + queue) && queue != []
    ensures queue[0] in ids + queue && queue[0] !in Members(ids)
    ensures Members(ids + [queue[0]]) == Members(ids) + {queue[0]}
  {
    assert (ids + queue)[|ids|] == queue[0];
    forall i | 0 <= i < |ids|
      ensures ids[i] != queue[0]
    {
      assert (ids + queue)[i] == ids[i];
    }
  }

  method Search(q: QueueStore, start: Id) returns (ids: seq<Id>)
    modifies q`childEdges
    ensures q.childEdges == old(q.childEdges) - set e | e in q.parentEdges && e.1 in Members(ids)
    ensures NoDup(ids) && ids != [] && ids[0] == start
    ensures forall x :: x in ids <==> Reaches(old(q.childEdges), start, x)
  {
    ghost var edges := q.childEdges;
    ghost var nodes := {start} + set e | e in edges :: e.1;
    ids := [];
    var queue, visited := [start], {start};
    ReachesItself(edges, start);
    while queue != []
      invariant Searching(edges, start, ids, queue, visited)
      invariant visited <= nodes
      invariant q.childEdges == edges - set e | e in q.parentEdges && e.1 in Members(ids)
      decreases nodes - Members(ids)
    {
      var current := queue[0];
      HeadIsNew(ids, queue);
      assert current in Members(ids + queue);
      CutStep(q, current);
      var kids := SMembers(Kids(q.childEdges, current));
      var found;
      ghost var before := visited;
      visited, found := Discover(kids, visited);
      FoundAreNew(edges, q.parentEdges, q.childEdges, ids, before, current, kids, found);
      Advance(edges, start, ids, queue, before, found);
      ids, queue := ids + [current], queue[1..] + found;
    }
    SearchIsExact(edges, start, ids, visited);
  }

  lemma FoundAreNew(edges: set<(Id, Id)>, parentEdges: set<(Id, Id)>, now: set<(Id, Id)>, ids: seq<Id>, visited: set<Id>,
                    current: Id, kids: seq<Id>, found: seq<Id>)
    requires Members(ids) <= visited && current in visited
    requires now == edges - set e | e in parentEdges && e.1 in Members(ids) + {current}
    requires Enumerates(kids, Kids(now, current))
    requires Members(found) == Members(kids) - visited
    ensures forall c :: c in found <==> (current, c) in edges && c !in visited
    ensures visited + Members(kids) == visited + Members(found)
  {
    forall c
      ensures c in found <==> (current, c) in edges && c !in visited
    {
      assert c in found <==> c in Members(found);
      assert c in kids <==> c in Members(kids);
      if (current, c) in edges && c !in visited {
        assert (current, c) in now;
      }
    }
  }

  lemma SearchIsExact(edges: set<(Id, Id)>, start: Id, ids: seq<Id>, visited: set<Id>)
    requires Searching(edges, start, ids, [], visited)
    ensures NoDup(ids) && ids != [] && ids[0] == start
    ensures forall x :: x in ids <==> Reaches(edges, start, x)
  {
    assert ids + [] == ids;
    forall x | Reaches(edges, start, x)
      ensures x in ids
    {
      var walk :| IsWalk(edges, walk) && walk[0] == start && walk[|walk| - 1] == x;
      ClosedHoldsWalks(edges, visited, walk);
    }
  }

  // ---- The deletes ----

  method ForgetStep(q: QueueStore, id: Id)
    modifies q`childEdges, q`parentEdges, q`count, q`named, q`blocked
    ensures q.Now() == Forget(old(q.Now()), id)
  {
    q.childEdges := NotFrom(q.childEdges, id);
    q.parentEdges := NotTo(q.parentEdges, id);
    q.count, q.named, q.blocked := q.count - {id}, q.named - {id}, q.blocked - {id};
  }

  method LeaveStep(q: QueueStore, id: Id)
    modifies q`waiting, q`delayed, q`active, q`completed, q`failed
    ensures q.Now() == Leave(old(q.Now()), id)
  {
    q.waiting := Purge(q.waiting, id);
    q.delayed, q.active := q.delayed - {id}, q.active - {id};
    q.completed, q.failed := q.completed - {id}, q.failed - {id};
  }

  method DeleteStep(q: QueueStore, id: Id)
    modifies q
    ensures q.Now() == DeleteOne(old(q.Now()), id)
  {
    ForgetStep(q, id);
    LeaveStep(q, id);
    q.dlq, q.vault := q.dlq - {id}, q.vault - {id};
    q.events := q.events + [Event(RemovedEvent, id)];
  }

  method HandleDeletion(q: QueueStore, start: Id) returns (ids: seq<Id>)
    modifies q
    ensures q.Now() == Deletion(old(q.Now()), ids)
    ensures NoDup(ids) && ids != [] && ids[0] == start
    ensures forall x :: x in ids <==> Reaches(old(q.childEdges), start, x)
  {
    ids := Search(q, start);
    assert q.Now() == Cut(old(q.Now()), Members(ids));
    var i := 0;
    while i < |ids|
      invariant 0 <= i <= |ids|
      invariant DeleteAll(q.Now(), ids[i..]) == Deletion(old(q.Now()), ids)
    {
      DeleteStep(q, ids[i]);
      i := i + 1;
    }
  }
}

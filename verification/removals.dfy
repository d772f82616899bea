/**
 Deleting jobs for good: a job with all that depends on it, and settled jobs by age.
 */
module Removals {
  import opened Redis
  import opened Model
  import opened Machine
  import opened Reach
  import opened Placement
  import opened Dag
  import opened Edges
  import opened Dependents

  // ---- What a deletion leaves ----

  function Keep(w: seq<Id>, gone: set<Id>): (r: seq<Id>)
    ensures forall x :: multiset(r)[x] == if x in gone then 0 else multiset(w)[x]
  {
    if w == [] then []
    else
      assert w == [w[0]] + w[1..];
      if w[0] in gone then Keep(w[1..], gone) else [w[0]] + Keep(w[1..], gone)
  }

  lemma {:induction false} PurgeIsKeep(w: seq<Id>, id: Id)
    ensures Purge(w, id) == Keep(w, {id})
  {
    if w == [] {
    } else {
      PurgeIsKeep(w[1..], id);
    }
  }

  lemma {:induction false} KeepTwice(w: seq<Id>, a: set<Id>, b: set<Id>)
    ensures Keep(Keep(w, a), b) == Keep(w, a + b)
  {
    if w == [] {
    } else {
      KeepTwice(w[1..], a, b);
    }
  }

  lemma {:induction false} KeepAll(w: seq<Id>)
    ensures Keep(w, {}) == w
  {
    if w == [] {
    } else {
      KeepAll(w[1..]);
    }
  }

  ghost predicate EdgesGone(s: State, t: State, gone: set<Id>)
  {
    && t.childEdges == (set e | e in s.childEdges && e.0 !in gone)
    && t.parentEdges == (set e | e in s.parentEdges && e.1 !in gone)
    && t.count == s.count - gone && t.named == s.named - gone && t.blocked == s.blocked - gone
  }

  ghost predicate JobsGone(s: State, t: State, gone: set<Id>)
  {
    && t.vault == s.vault - gone && t.dlq == s.dlq - gone
    && t.waiting == Keep(s.waiting, gone) && t.prioritized == s.prioritized
    && t.delayed == s.delayed - gone && t.active == s.active - gone
    && t.completed == s.completed - gone && t.failed == s.failed - gone
  }

  lemma EdgesGoneChain(s: State, t: State, u: State, a: set<Id>, b: set<Id>)
    requires EdgesGone(s, t, a) && EdgesGone(t, u, b)
    ensures EdgesGone(s, u, a + b)
  {
  }

  lemma JobsGoneChain(s: State, t: State, u: State, a: set<Id>, b: set<Id>)
    requires JobsGone(s, t, a) && JobsGone(t, u, b)
    ensures JobsGone(s, u, a + b)
  {
    KeepTwice(s.waiting, a, b);
    MinusMinus(s.vault, a, b);
    MinusMinus(s.dlq, a, b);
    MinusMinus(s.delayed, a, b);
    MinusMinus(s.active, a, b);
    MinusMinus(s.completed, a, b);
    MinusMinus(s.failed, a, b);
  }

  ghost predicate Gone(s: State, t: State, gone: set<Id>)
  {
    EdgesGone(s, t, gone) && JobsGone(s, t, gone)
  }

  lemma GoneChain(s: State, t: State, u: State, a: set<Id>, b: set<Id>)
    requires Gone(s, t, a) && Gone(t, u, b)
    ensures Gone(s, u, a + b)
  {
    EdgesGoneChain(s, t, u, a, b);
    JobsGoneChain(s, t, u, a, b);
  }

  lemma NothingGone(s: State)
    ensures Gone(s, s, {})
  {
    KeepAll(s.waiting);
    MinusNothing(s.vault);
    MinusNothing(s.dlq);
    MinusNothing(s.count);
    MinusNothing(s.delayed);
    MinusNothing(s.active);
    MinusNothing(s.completed);
    MinusNothing(s.failed);
  }

  lemma MinusNothing<V>(m: map<Id, V>)
    ensures m - {} == m
  {
  }

  lemma DeleteOneGone(s: State, id: Id)
    ensures Gone(s, DeleteOne(s, id), {id})
  {
    PurgeIsKeep(s.waiting, id);
  }

  lemma {:induction false} DeleteAllGone(s: State, ids: seq<Id>)
    ensures Gone(s, DeleteAll(s, ids), Members(ids))
    decreases |ids|
  {
    if ids == [] {
      NothingGone(s);
      assert Members(ids) == {};
    } else {
      assert {ids[0]} + Members(ids[1..]) == Members(ids);
      DeleteOneGone(s, ids[0]);
      DeleteAllGone(DeleteOne(s, ids[0]), ids[1..]);
      GoneChain(s, DeleteOne(s, ids[0]), DeleteAll(s, ids), {ids[0]}, Members(ids[1..]));
    }
  }

  /** No children or parent set that survives names a deleted id, and no deleted id
      keeps a set of its own, when edges are symmetric. */
  lemma NothingNamesTheDeleted(s: State, start: Id, ids: seq<Id>)
    requires Collects(s, start, ids) && s.childEdges == s.parentEdges
    ensures var t := Deletion(s, ids);
            t.childEdges == t.parentEdges == set e | e in s.childEdges && e.0 !in ids && e.1 !in ids
  {
    CollectedIsClosed(s, start, ids);
    DeleteAllGone(Cut(s, Members(ids)), ids);
  }

  lemma GoneKeepsPlaceIff(s: State, t: State, gone: set<Id>)
    requires OnePlace(s) && Gone(s, t, gone)
    ensures OnePlace(t) <==> forall id :: id in gone ==> id !in s.prioritized
  {
    forall x
      ensures Places(t, x) == if x in gone then B(x in s.prioritized) else Places(s, x)
      ensures x in t.vault <==> x in s.vault && x !in gone
    {
      GonePlaces(s, t, gone, x);
    }
    if OnePlace(t) {
      forall id | id in gone
        ensures id !in s.prioritized
      {
        PlaceAtMostOnce(t, id);
      }
    }
  }

  /** A deletion keeps every job in one place exactly when none of the jobs it
      deletes is prioritized: that is the one place it does not look. */
  lemma DeletionKeepsPlaceIff(s: State, ids: seq<Id>)
    requires OnePlace(s)
    ensures OnePlace(Deletion(s, ids)) <==> forall id :: id in ids ==> id !in s.prioritized
  {
    PlacesFrame(s, Cut(s, Members(ids)));
    DeleteAllGone(Cut(s, Members(ids)), ids);
    GoneKeepsPlaceIff(Cut(s, Members(ids)), Deletion(s, ids), Members(ids));
    assert forall id :: id in ids <==> id in Members(ids);
  }

  lemma GonePlaces(s: State, t: State, gone: set<Id>, x: Id)
    requires Gone(s, t, gone)
    ensures Places(t, x) == if x in gone then B(x in s.prioritized) else Places(s, x)
    ensures x in t.vault <==> x in s.vault && x !in gone
  {
  }

  lemma DeletionKeepsEdges(s: State, t: State, awaits: map<Id, set<Id>>, gone: set<Id>)
    requires Counters(s, awaits) && EdgesRight(s, awaits) && ClosedUnder(s.childEdges, gone)
    requires Gone(Cut(s, gone), t, gone)
    ensures Counters(t, awaits - gone) && EdgesRight(t, awaits - gone)
  {
    forall j
      ensures CounterOf(t, awaits - gone, j)
    {
      assert CounterOf(s, awaits, j);
      assert Awaiting(awaits - gone, j) == if j in gone then {} else Awaiting(awaits, j);
    }
    forall p: Id, j: Id | p in Awaiting(awaits - gone, j)
      ensures (p, j) in t.childEdges
    {
      assert p in Awaiting(awaits, j) && (p, j) in s.childEdges;
    }
    forall p: Id, c: Id | (p, c) in t.childEdges
      ensures Settled(t, p) || p in Awaiting(awaits - gone, c)
    {
      assert (p, c) in s.childEdges && p !in gone && c !in gone;
    }
  }

  lemma DeletionKeepsAwaited(w: System, t: State, gone: set<Id>, w': System)
    requires EdgesRight(w.s, w.awaits) && AwaitedRight(w) && Ranked(w) && ClosedUnder(w.s.childEdges, gone)
    requires Gone(Cut(w.s, gone), t, gone)
    requires w' == System(t, w.awaits - gone, RankAfter(w, t), w.clock + 1)
    ensures AwaitedRight(w') && Ranked(w')
  {
    RanksShrink(w, t);
    forall p: Id, j: Id | p in Awaiting(w'.awaits, j)
      ensures AwaitedBy(w', p, j)
    {
      assert AwaitedBy(w, p, j) && (p, j) in w.s.childEdges;
    }
  }

  lemma DeletionKeepsDag(w: System, t: State, gone: set<Id>, w': System)
    requires DagRight(w) && ClosedUnder(w.s.childEdges, gone) && Gone(Cut(w.s, gone), t, gone)
    requires w' == System(t, w.awaits - gone, RankAfter(w, t), w.clock + 1)
    ensures DagRight(w')
  {
    DeletionKeepsEdges(w.s, t, w.awaits, gone);
    DeletionKeepsAwaited(w, t, gone, w');
  }

  /** Deleting a job with all that depends on it keeps the places and dependencies of
      the jobs that are left: in particular no survivor waits for a deleted job. */
  lemma DeletionKeepsRest(w: System, op: Op)
    requires op.Delete? && OnePlace(w.s) && DagRight(w) && Legal(w, op)
    ensures OnePlace(Effect(w.s, op)) && DagRight(Apply(w, op))
  {
    CollectedIsClosed(w.s, op.start, op.ids);
    DeleteAllGone(Cut(w.s, Members(op.ids)), op.ids);
    DeletionKeepsPlaceIff(w.s, op.ids);
    DeletionKeepsDag(w, Deletion(w.s, op.ids), Members(op.ids), Apply(w, op));
  }

  // ---- What cleaning leaves ----

  lemma CleanPlacesAt(s: State, onCompleted: bool, gone: set<Id>, x: Id)
    requires gone <= (if onCompleted then s.completed.Keys else s.failed.Keys)
    ensures Places(CleanState(s, onCompleted, gone), x) + B(x in gone) == Places(s, x)
    ensures x in CleanState(s, onCompleted, gone).vault <==> x in s.vault && x !in gone
  {
  }

  lemma CleanPlaces(s: State, onCompleted: bool, gone: set<Id>)
    requires OnePlace(s) && gone <= (if onCompleted then s.completed.Keys else s.failed.Keys)
    ensures OnePlace(CleanState(s, onCompleted, gone))
  {
    var t := CleanState(s, onCompleted, gone);
    forall x
      ensures Places(t, x) == B(x in t.vault)
    {
      PlaceAtMostOnce(s, x);
      CleanPlacesAt(s, onCompleted, gone, x);
    }
  }

  lemma CleanUnneeded(w: System, onCompleted: bool, gone: set<Id>, w': System)
    requires OnePlace(w.s) && DagRight(w) && gone <= (if onCompleted then w.s.completed.Keys else w.s.failed.Keys)
    requires forall p: Id, c: Id :: (p, c) in w.s.childEdges ==> p !in gone
    requires w' == After(w, CleanState(w.s, onCompleted, gone))
    ensures DagRight(w')
  {
    RanksShrink(w, w'.s);
    forall j
      ensures CounterOf(w'.s, w.awaits, j)
    {
      assert CounterOf(w.s, w.awaits, j);
    }
    forall p: Id, j: Id | p in Awaiting(w.awaits, j)
      ensures AwaitedBy(w', p, j)
    {
      assert AwaitedBy(w, p, j) && (p, j) in w.s.childEdges;
      assert CounterOf(w.s, w.awaits, j);
      PlaceAtMostOnce(w.s, j);
    }
  }

  /** clean has no guard for flows: it keeps the dependencies right exactly when no
      job it deletes still has children. */
  lemma CleanKeepsDagIff(w: System, onCompleted: bool, gone: set<Id>)
    requires OnePlace(w.s) && DagRight(w) && gone <= (if onCompleted then w.s.completed.Keys else w.s.failed.Keys)
    ensures DagRight(After(w, CleanState(w.s, onCompleted, gone)))
       <==> forall p: Id, c: Id :: (p, c) in w.s.childEdges ==> p !in gone
  {
    var w' := After(w, CleanState(w.s, onCompleted, gone));
    if forall p: Id, c: Id :: (p, c) in w.s.childEdges ==> p !in gone {
      CleanUnneeded(w, onCompleted, gone, w');
    } else {
      var p: Id, c: Id :| (p, c) in w.s.childEdges && p in gone;
      CleanedParentSpoils(w, onCompleted, gone, w', p, c);
    }
  }

  lemma CleanedParentSpoils(w: System, onCompleted: bool, gone: set<Id>, w': System, p: Id, c: Id)
    requires OnePlace(w.s) && gone <= (if onCompleted then w.s.completed.Keys else w.s.failed.Keys)
    requires (p, c) in w.s.childEdges && p in gone && w' == After(w, CleanState(w.s, onCompleted, gone))
    ensures !DagRight(w')
  {
    PlaceAtMostOnce(w.s, p);
    assert !Settled(w'.s, p) && !AwaitedBy(w', p, c);
  }

  lemma CleanedAreInside(s: State, onCompleted: bool, cutoff: int, limit: int)
    ensures CleanedIds(s, onCompleted, cutoff, limit) <= (if onCompleted then s.completed.Keys else s.failed.Keys)
  {
    var z := if onCompleted then s.completed else s.failed;
    forall x | x in CleanedIds(s, onCompleted, cutoff, limit)
      ensures x in z
    {
      assert x in Old(z, cutoff);
    }
  }

  lemma CleanKeepsRest(w: System, op: Op)
    requires op.CleanUp? && OnePlace(w.s) && DagRight(w) && Legal(w, op)
    ensures OnePlace(Effect(w.s, op)) && DagRight(Apply(w, op))
  {
    var gone := CleanedIds(w.s, op.onCompleted, op.cutoff, op.limit);
    CleanedAreInside(w.s, op.onCompleted, op.cutoff, op.limit);
    CleanPlaces(w.s, op.onCompleted, gone);
    CleanUnneeded(w, op.onCompleted, gone, Apply(w, op));
  }
}

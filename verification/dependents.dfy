/**
 The five operations that do change the dependencies: registering a dependent,
 completing, dying, retrying a dead job, and draining.
 */
module Dependents {
  import opened Redis
  import opened Model
  import opened Machine
  import opened Placement
  import opened Dag
  import opened Edges

  // ---- Registering a dependent ----

  lemma NobodyNew(w: System, id: Id)
    requires OnePlace(w.s) && Counters(w.s, w.awaits) && id !in w.s.vault
    ensures Awaiting(w.awaits, id) == {} && id !in w.s.blocked && id !in w.s.count
  {
    PlaceAtMostOnce(w.s, id);
    assert CounterOf(w.s, w.awaits, id);
    assert id in w.s.count.Keys <==> id in w.s.blocked;
  }

  lemma GoodParentsCount(s: State, ps: seq<Id>)
    requires GoodParents(s, ps)
    ensures CountPending(s, ps) == |Pending(s, ps)|
  {
    CountIsExactIff(s, ps);
  }

  lemma StoredFields(s: State, id: Id, job: Job)
    ensures var t := Link(StoreRunnable(s, id, job), id, job.parents);
            && t.count == s.count && t.named == s.named && t.blocked == s.blocked
  {
  }

  lemma ParkedFields(s: State, id: Id, job: Job, pending: nat)
    ensures var t := Link(Park(s, id, job, pending), id, job.parents);
            && t.count == s.count[id := pending] && t.named == s.named + {id} && t.blocked == s.blocked + {id}
  {
  }

  lemma StoredCounters(s: State, t: State, awaits: map<Id, set<Id>>, id: Id)
    requires Counters(s, awaits) && Awaiting(awaits, id) == {}
    requires t.count == s.count && t.named == s.named && t.blocked == s.blocked
    ensures Counters(t, awaits[id := {}])
  {
    var awaits' := awaits[id := {}];
    forall j
      ensures CounterOf(t, awaits', j)
    {
      assert CounterOf(s, awaits, j);
    }
  }

  lemma ParkedCounters(s: State, t: State, awaits: map<Id, set<Id>>, id: Id, pending: set<Id>)
    requires Counters(s, awaits) && pending != {}
    requires t.count == s.count[id := |pending|] && t.named == s.named + {id} && t.blocked == s.blocked + {id}
    ensures Counters(t, awaits[id := pending])
  {
    assert t.count.Keys == s.count.Keys + {id};
    var awaits' := awaits[id := pending];
    forall j
      ensures CounterOf(t, awaits', j)
    {
      assert CounterOf(s, awaits, j);
    }
  }

  lemma DependCounters(w: System, id: Id, job: Job)
    requires OnePlace(w.s) && Counters(w.s, w.awaits) && id !in w.s.vault && GoodParents(w.s, job.parents)
    ensures Counters(AddDependent(w.s, id, job), w.awaits[id := Pending(w.s, job.parents)])
  {
    var pending := Pending(w.s, job.parents);
    NobodyNew(w, id);
    GoodParentsCount(w.s, job.parents);
    if pending == {} {
      StoredFields(w.s, id, job);
      StoredCounters(w.s, AddDependent(w.s, id, job), w.awaits, id);
    } else {
      ParkedFields(w.s, id, job, |pending|);
      ParkedCounters(w.s, AddDependent(w.s, id, job), w.awaits, id, pending);
    }
  }

  lemma DependEdges(w: System, id: Id, job: Job)
    requires OnePlace(w.s) && Counters(w.s, w.awaits) && EdgesRight(w.s, w.awaits) && id !in w.s.vault
    requires GoodParents(w.s, job.parents)
    ensures EdgesRight(AddDependent(w.s, id, job), w.awaits[id := Pending(w.s, job.parents)])
  {
    var s, t := w.s, AddDependent(w.s, id, job);
    var awaits := w.awaits[id := Pending(s, job.parents)];
    NobodyNew(w, id);
    DependFrame(s, id, job);
    forall p: Id, c: Id | (p, c) in t.childEdges
      ensures Settled(t, p) || p in Awaiting(awaits, c)
    {
      if (p, c) in EdgesTo(id, job.parents) {
        assert p in job.parents && GoodParent(s, p);
      }
    }
  }

  ghost predicate OnlyLinked(s: State, t: State, id: Id, job: Job)
  {
    && t.vault == s.vault[id := job] && t.completed == s.completed && t.failed == s.failed && t.dlq == s.dlq
    && t.childEdges == s.childEdges + EdgesTo(id, job.parents)
    && t.parentEdges == s.parentEdges + EdgesTo(id, job.parents)
  }

  lemma StoredFrame(s: State, id: Id, job: Job)
    ensures OnlyLinked(s, Link(StoreRunnable(s, id, job), id, job.parents), id, job)
  {
  }

  lemma ParkedFrame(s: State, id: Id, job: Job, pending: nat)
    ensures OnlyLinked(s, Link(Park(s, id, job, pending), id, job.parents), id, job)
  {
  }

  lemma DependFrame(s: State, id: Id, job: Job)
    requires id !in s.vault
    ensures OnlyLinked(s, AddDependent(s, id, job), id, job)
  {
    StoredFrame(s, id, job);
    ParkedFrame(s, id, job, CountPending(s, job.parents));
  }

  lemma DependAwaited(w: System, t: State, id: Id, job: Job, w': System)
    requires AwaitedRight(w) && Ranked(w) && id !in w.s.vault && GoodParents(w.s, job.parents)
    requires OnlyLinked(w.s, t, id, job)
    requires w' == System(t, w.awaits[id := Pending(w.s, job.parents)], RankAfter(w, t), w.clock + 1)
    ensures AwaitedRight(w') && Ranked(w')
  {
    RanksKept(w, t);
    forall p: Id, j: Id | p in Awaiting(w'.awaits, j)
      ensures AwaitedBy(w', p, j)
    {
      if j == id {
        assert GoodParent(w.s, p);
      } else {
        assert AwaitedBy(w, p, j);
      }
    }
  }

  lemma DependKeepsDag(w: System, id: Id, job: Job)
    requires OnePlace(w.s) && DagRight(w) && (id in w.s.vault || GoodParents(w.s, job.parents))
    ensures DagRight(Apply(w, Depend(id, job)))
  {
    if id in w.s.vault {
      CalmKeepsDag(w, w.s);
    } else {
      DependNewKeepsDag(w, id, job, AddDependent(w.s, id, job), Apply(w, Depend(id, job)));
    }
  }

  lemma DependNewKeepsDag(w: System, id: Id, job: Job, t: State, w': System)
    requires OnePlace(w.s) && DagRight(w) && GoodParents(w.s, job.parents) && id !in w.s.vault
    requires t == AddDependent(w.s, id, job)
    requires w' == System(t, w.awaits[id := Pending(w.s, job.parents)], RankAfter(w, t), w.clock + 1)
    ensures DagRight(w')
  {
    DependCounters(w, id, job);
    DependEdges(w, id, job);
    DependFrame(w.s, id, job);
    DependAwaited(w, t, id, job, w');
    CopiesKept(w.s, t);
  }

  /** A pending parent counted twice leaves the counter too high. */
  lemma MiscountSpoils(s: State, t: State, awaits: map<Id, set<Id>>, id: Id, job: Job)
    requires id !in s.vault && !PendingOnce(s, job.parents)
    requires t == AddDependent(s, id, job)
    ensures !CounterOf(t, awaits[id := Pending(s, job.parents)], id)
  {
    CountIsExactIff(s, job.parents);
    ParkedFields(s, id, job, CountPending(s, job.parents));
  }

  /** A parent that will never call unblock leaves an edge or a wait that is wrong. */
  lemma BadParentSpoils(w: System, t: State, w': System, id: Id, job: Job, p: Id)
    requires OnePlace(w.s) && id !in w.s.vault && p in job.parents && !GoodParent(w.s, p)
    requires OnlyLinked(w.s, t, id, job)
    requires w' == System(t, w.awaits[id := Pending(w.s, job.parents)], RankAfter(w, t), w.clock + 1)
    ensures !EdgesRight(t, w'.awaits) || !AwaitedRight(w')
  {
    if Done(w.s, p) {
      assert (p, id) in EdgesTo(id, job.parents);
      assert (p, id) in t.childEdges && !Settled(t, p) && p !in Awaiting(w'.awaits, id);
    } else {
      assert p in Awaiting(w'.awaits, id);
      assert !AwaitedBy(w', p, id);
    }
  }

  /** Registering a new dependent keeps the dependencies right exactly when no pending
      parent is listed twice, every pending one is stored and will call unblock, and
      every one that counts as done has settled. */
  lemma DependKeepsDagIff(w: System, id: Id, job: Job)
    requires OnePlace(w.s) && DagRight(w) && id !in w.s.vault
    ensures DagRight(Apply(w, Depend(id, job))) <==> GoodParents(w.s, job.parents)
  {
    DependNewIff(w, id, job, AddDependent(w.s, id, job), Apply(w, Depend(id, job)));
  }

  lemma DependNewIff(w: System, id: Id, job: Job, t: State, w': System)
    requires OnePlace(w.s) && DagRight(w) && id !in w.s.vault
    requires t == AddDependent(w.s, id, job)
    requires w' == System(t, w.awaits[id := Pending(w.s, job.parents)], RankAfter(w, t), w.clock + 1)
    ensures DagRight(w') <==> GoodParents(w.s, job.parents)
  {
    if GoodParents(w.s, job.parents) {
      DependNewKeepsDag(w, id, job, t, w');
    } else {
      BadParentsSpoil(w, id, job, t, w');
    }
  }

  lemma BadParentsSpoil(w: System, id: Id, job: Job, t: State, w': System)
    requires OnePlace(w.s) && DagRight(w) && !GoodParents(w.s, job.parents) && id !in w.s.vault
    requires t == AddDependent(w.s, id, job)
    requires w' == System(t, w.awaits[id := Pending(w.s, job.parents)], RankAfter(w, t), w.clock + 1)
    ensures !DagRight(w')
  {
    if !PendingOnce(w.s, job.parents) {
      MiscountSpoils(w.s, t, w.awaits, id, job);
    } else {
      var p :| p in job.parents && !GoodParent(w.s, p);
      DependFrame(w.s, id, job);
      BadParentSpoils(w, t, w', id, job, p);
    }
  }

  // ---- Completing ----

  /** What finalizeJob keeps: whatever is pinned, and every counter and edge. */
  ghost predicate KeepsPinned(s: State, t: State, id: Id)
  {
    && SameEdges(s, t)
    && (forall x :: Pinned(s, x) && x in s.vault ==> x in t.vault && t.vault[x].flow == s.vault[x].flow)
    && (forall x :: Pinned(s, x) && Settled(s, x) ==> Settled(t, x))
    && (forall x :: x in t.completed ==> x in s.completed || x == id)
    && (forall x :: x in t.vault ==> x in s.vault && t.vault[x].flow == s.vault[x].flow)
  }

  lemma CloseFields(s: State, id: Id, o: Outcome, now: int)
    ensures var t := Close(s, id, o, now);
            && SameEdges(s, t) && SameFlows(s, t) && t.vault.Keys == s.vault.Keys && t.dlq == s.dlq
            && t.completed.Keys == s.completed.Keys + (if o.completed then {id} else {})
            && t.failed.Keys == s.failed.Keys + (if o.completed then {} else {id})
  {
  }

  lemma EraseFields(s: State, onCompleted: bool, gone: set<Id>)
    ensures var t := Erase(s, onCompleted, gone);
            && SameEdges(s, t) && t.vault == s.vault - gone
            && t.completed == (if onCompleted then s.completed - gone else s.completed)
            && t.failed == (if onCompleted then s.failed else s.failed - gone)
  {
  }

  lemma FinalizePinned(s: State, id: Id, o: Outcome, now: int, keep: int, publish: bool)
    ensures KeepsPinned(s, Finalize(s, id, o, now, keep, publish), id)
  {
    var s1 := Close(s, id, o, now);
    var gone := Evicted(s1, if o.completed then s1.completed else s1.failed, keep);
    CloseFields(s, id, o, now);
    ErasePinned(s, s1, o.completed, id, gone);
    PublishedPinned(s, Erase(s1, o.completed, gone), id,
                    Published(s, publish, if o.completed then CompletedEvent else FailedEvent, id));
  }

  lemma PublishedPinned(s: State, t: State, id: Id, events: seq<Event>)
    requires KeepsPinned(s, t, id)
    ensures KeepsPinned(s, t.(events := events), id)
  {
  }

  lemma ErasePinned(s: State, s1: State, onCompleted: bool, id: Id, gone: set<Id>)
    requires SameEdges(s, s1) && SameFlows(s, s1) && s1.vault.Keys == s.vault.Keys
    requires s.completed.Keys <= s1.completed.Keys <= s.completed.Keys + {id} && s.failed.Keys <= s1.failed.Keys
    requires forall x :: x in gone ==> !Pinned(s1, x)
    ensures KeepsPinned(s, Erase(s1, onCompleted, gone), id)
  {
    var t := Erase(s1, onCompleted, gone);
    EraseFields(s1, onCompleted, gone);
    ErasedPinned(s, s1, t, id, gone);
  }

  lemma ErasedPinned(s: State, s1: State, t: State, id: Id, gone: set<Id>)
    requires SameEdges(s, s1) && SameFlows(s, s1) && s1.vault.Keys == s.vault.Keys
    requires s.completed.Keys <= s1.completed.Keys <= s.completed.Keys + {id} && s.failed.Keys <= s1.failed.Keys
    requires forall x :: x in gone ==> !Pinned(s1, x)
    requires SameEdges(s1, t) && t.vault == s1.vault - gone
    requires s1.completed.Keys - gone <= t.completed.Keys <= s1.completed.Keys
    requires s1.failed.Keys - gone <= t.failed.Keys
    ensures KeepsPinned(s, t, id)
  {
    forall x | Pinned(s, x)
      ensures x !in gone
    {
      assert Pinned(s1, x);
    }
    forall x | Pinned(s, x) && Settled(s, x)
      ensures Settled(t, x)
    {
      assert x in s1.completed.Keys || x in s1.failed.Keys;
      assert x in t.completed.Keys || x in t.failed.Keys;
    }
    forall x | x in t.completed
      ensures x in s.completed || x == id
    {
      assert x in t.completed.Keys;
    }
    forall x | x in t.vault
      ensures x in s.vault && t.vault[x].flow == s.vault[x].flow
    {
      assert x in s1.vault.Keys;
    }
  }

  lemma PinnedThenCalm(s: State, t: State, u: State, id: Id)
    requires KeepsPinned(s, t, id) && Calm(t, u) && u.vault.Keys == t.vault.Keys
    ensures KeepsPinned(s, u, id)
  {
    forall x | x in u.completed
      ensures x in s.completed || x == id
    {
      assert x in t.completed.Keys;
    }
    forall x | Pinned(s, x) && Settled(s, x)
      ensures Settled(u, x)
    {
      assert x in t.completed.Keys ==> x in u.completed.Keys;
      assert x in t.failed.Keys ==> x in u.failed.Keys;
    }
    forall x | x in u.vault
      ensures x in s.vault && u.vault[x].flow == s.vault[x].flow
    {
      assert x in t.vault.Keys;
    }
  }

  /** An active job is not settled, so all its children wait for it. */
  lemma KidsAreWaiting(s: State, awaits: map<Id, set<Id>>, id: Id, order: seq<Id>)
    requires OnePlace(s) && EdgesRight(s, awaits) && id in s.active && Enumerates(order, Kids(s.childEdges, id))
    ensures forall c :: c in order <==> id in Awaiting(awaits, c)
  {
    PlaceAtMostOnce(s, id);
    forall c
      ensures c in order <==> id in Awaiting(awaits, c)
    {
      assert c in Kids(s.childEdges, id) <==> (id, c) in s.childEdges;
    }
  }

  lemma NobodyWaits(awaits: map<Id, set<Id>>, id: Id)
    requires forall c :: id !in Awaiting(awaits, c)
    ensures Without(awaits, id) == awaits
  {
    forall j | j in awaits
      ensures awaits[j] - {id} == awaits[j]
    {
      assert id !in Awaiting(awaits, j);
    }
  }

  lemma CountersFrame(s: State, t: State, awaits: map<Id, set<Id>>)
    requires Counters(s, awaits) && SameEdges(s, t)
    ensures Counters(t, awaits)
  {
    forall j
      ensures CounterOf(t, awaits, j)
    {
      assert CounterOf(s, awaits, j);
    }
  }

  /** The edges of a completed job are gone, and nobody awaits it any more. */
  lemma CompleteEdges(s: State, m: State, t: State, awaits: map<Id, set<Id>>, id: Id, order: seq<Id>)
    requires EdgesRight(s, awaits) && KeepsPinned(s, m, id) && SameBut(m, t, EdgesFrom(id, order))
    requires Enumerates(order, Kids(s.childEdges, id))
    ensures EdgesRight(t, Without(awaits, id))
  {
    forall p: Id, c: Id | (p, c) in t.childEdges
      ensures Settled(t, p) || p in Awaiting(Without(awaits, id), c)
    {
      assert (p, c) in s.childEdges && (p, c) !in EdgesFrom(id, order);
      assert p == id ==> c in Kids(s.childEdges, id) && c in order;
      assert c in Kids(s.childEdges, p) && Pinned(s, p);
    }
    forall p: Id, j: Id | p in Awaiting(Without(awaits, id), j)
      ensures (p, j) in t.childEdges
    {
      assert p in Awaiting(awaits, j) && p != id;
    }
  }

  lemma CompleteAwaited(w: System, m: State, t: State, id: Id)
    requires OnePlace(w.s) && AwaitedRight(w) && Ranked(w) && Counters(w.s, w.awaits) && EdgesRight(w.s, w.awaits)
    requires KeepsPinned(w.s, m, id) && t.vault == m.vault && t.completed == m.completed
    ensures AwaitedRight(System(t, Without(w.awaits, id), RankAfter(w, t), w.clock + 1))
  {
    RanksKept(w, t);
    var w' := System(t, Without(w.awaits, id), RankAfter(w, t), w.clock + 1);
    forall p: Id, j: Id | p in Awaiting(w'.awaits, j)
      ensures AwaitedBy(w', p, j)
    {
      assert p in Awaiting(w.awaits, j) && p != id;
      assert AwaitedBy(w, p, j) && CounterOf(w.s, w.awaits, j);
      assert j in w.s.count.Keys && Pinned(w.s, j);
      assert j in Kids(w.s.childEdges, p) && Pinned(w.s, p);
    }
  }

  lemma DequeueKeys(s: State, now: int, lock: int, publish: bool)
    ensures Dequeue(s, now, lock, publish).vault.Keys == s.vault.Keys
    ensures Dequeue(s, now, lock, publish).dlq == s.dlq && Dequeue(s, now, lock, publish).failed == s.failed
  {
    PopCalm(s);
    if Next(s).Some? {
      PickKeys(Pop(s), Next(s).value, now, now + lock);
    }
  }

  lemma PickKeys(s: State, id: Id, stamp: int, lease: int)
    requires id in s.vault
    ensures Pick(s, id, stamp, lease).vault.Keys == s.vault.Keys
  {
  }

  lemma FinalizeCompletedDead(s: State, id: Id, o: Outcome, now: int, keep: int, publish: bool)
    requires o.completed
    ensures Finalize(s, id, o, now, keep, publish).dlq == s.dlq
    ensures Finalize(s, id, o, now, keep, publish).failed == s.failed
  {
  }

  /** What taking the next job changes of all this: nothing. */
  ghost predicate Steady(s: State, t: State)
  {
    Calm(s, t) && t.vault.Keys == s.vault.Keys && t.failed == s.failed
  }

  lemma DequeueSteady(s: State, now: int, lock: int, publish: bool)
    ensures Steady(s, Dequeue(s, now, lock, publish))
  {
    DequeueCalm(s, now, lock, publish);
    DequeueKeys(s, now, lock, publish);
  }

  lemma SteadyPinned(s: State, t: State, u: State, id: Id)
    requires KeepsPinned(s, t, id) && t.dlq == s.dlq && t.failed == s.failed && Steady(t, u)
    ensures KeepsPinned(s, u, id) && u.dlq == s.dlq && u.failed == s.failed
  {
    PinnedThenCalm(s, t, u, id);
  }

  lemma FinalizedPinned(s: State, id: Id, o: Outcome, now: int, keep: int, publish: bool)
    requires o.completed
    ensures var t := Finalize(s, id, o, now, keep, publish);
            KeepsPinned(s, t, id) && t.dlq == s.dlq && t.failed == s.failed
  {
    FinalizePinned(s, id, o, now, keep, publish);
    FinalizeCompletedDead(s, id, o, now, keep, publish);
  }

  lemma FinishedPinned(s: State, op: Op)
    requires op.Complete?
    ensures KeepsPinned(s, Finished(s, op), op.id)
    ensures Finished(s, op).dlq == s.dlq && Finished(s, op).failed == s.failed
  {
    ClosingPinned(s, Closing(s, op), op);
    ThenTakenPinned(s, Closing(s, op), Finished(s, op), op);
  }

  lemma ClosingPinned(s: State, t: State, op: Op)
    requires op.Complete? && t == Closing(s, op)
    ensures PinnedAndDead(s, t, op.id)
  {
    FinalizedPinned(s, op.id, Outcome(true, op.value, op.progress), op.now, op.keep, op.publish);
  }

  lemma ThenTakenPinned(s: State, t: State, u: State, op: Op)
    requires op.Complete? && PinnedAndDead(s, t, op.id)
    requires u == if op.fetch.Some? then Dequeue(t, op.now, op.fetch.value - op.now, op.publish) else t
    ensures PinnedAndDead(s, u, op.id)
  {
    if op.fetch.Some? {
      FetchedPinned(s, t, u, op.id, op.now, op.fetch.value - op.now, op.publish);
    }
  }

  ghost predicate PinnedAndDead(s: State, t: State, id: Id)
  {
    KeepsPinned(s, t, id) && t.dlq == s.dlq && t.failed == s.failed
  }

  lemma FetchedPinned(s: State, t: State, u: State, id: Id, now: int, lock: int, publish: bool)
    requires PinnedAndDead(s, t, id) && u == Dequeue(t, now, lock, publish)
    ensures PinnedAndDead(s, u, id)
  {
    DequeueSteady(t, now, lock, publish);
    SteadyPinned(s, t, u, id);
  }

  lemma CopiesShrink(s: State, t: State)
    requires CopiesRight(s) && t.dlq == s.dlq && t.failed == s.failed
    requires forall x :: x in t.vault ==> x in s.vault && t.vault[x].flow == s.vault[x].flow
    ensures CopiesRight(t)
  {
  }

  lemma CompleteFlagged(w: System, m: State, id: Id, order: seq<Id>)
    requires OnePlace(w.s) && DagRight(w) && id in w.s.active && Enumerates(order, Kids(w.s.childEdges, id))
    requires KeepsPinned(w.s, m, id) && CopiesRight(m)
    ensures var t := UnblockAll(m, id, order);
            DagRight(System(t, Without(w.awaits, id), RankAfter(w, t), w.clock + 1))
  {
    var t := UnblockAll(m, id, order);
    CountersFrame(w.s, m, w.awaits);
    KidsAreWaiting(w.s, w.awaits, id, order);
    UnblockKeepsCounters(m, w.awaits, id, order);
    UnblockFrame(m, id, order);
    CompleteEdges(w.s, m, t, w.awaits, id, order);
    CompleteAwaited(w, m, t, id);
    RanksShrink(w, t);
  }

  lemma RanksShrink(w: System, t: State)
    requires Ranked(w)
    ensures Ranked(After(w, t))
  {
  }

  lemma CompleteUnflagged(w: System, m: State, id: Id)
    requires OnePlace(w.s) && DagRight(w) && id in w.s.vault && !w.s.vault[id].flow
    requires KeepsPinned(w.s, m, id) && CopiesRight(m)
    ensures DagRight(System(m, Without(w.awaits, id), RankAfter(w, m), w.clock + 1))
  {
    CountersFrame(w.s, m, w.awaits);
    UnflaggedIsNotAwaited(w, id);
    NobodyWaits(w.awaits, id);
    CompleteEdgesUnflagged(w.s, m, w.awaits, id);
    CompleteAwaited(w, m, m, id);
    RanksShrink(w, m);
  }

  lemma CompleteKeepsDag(w: System, op: Op)
    requires op.Complete? && OnePlace(w.s) && DagRight(w) && Legal(w, op)
    ensures DagRight(Apply(w, op))
  {
    var m := Finished(w.s, op);
    assert KeepsPinned(w.s, m, op.id) && CopiesRight(m) by {
      FinishedPinned(w.s, op);
      CopiesShrink(w.s, m);
    }
    assert op.id in w.s.vault by {
      PlaceAtMostOnce(w.s, op.id);
    }
    if w.s.vault[op.id].flow {
      CompleteFlagged(w, m, op.id, op.order);
    } else {
      CompleteUnflagged(w, m, op.id);
    }
  }

  lemma UnflaggedIsNotAwaited(w: System, id: Id)
    requires AwaitedRight(w) && id in w.s.vault && !w.s.vault[id].flow
    ensures forall c :: id !in Awaiting(w.awaits, c)
  {
    forall c
      ensures id !in Awaiting(w.awaits, c)
    {
    }
  }

  lemma CompleteEdgesUnflagged(s: State, m: State, awaits: map<Id, set<Id>>, id: Id)
    requires EdgesRight(s, awaits) && KeepsPinned(s, m, id)
    ensures EdgesRight(m, awaits)
  {
    forall p: Id, c: Id | (p, c) in m.childEdges
      ensures Settled(m, p) || p in Awaiting(awaits, c)
    {
      assert c in Kids(s.childEdges, p) && Pinned(s, p);
    }
  }

  // ---- Dying ----

  /** Burying a parent that is dead already changes no place, edge or counter. */
  lemma BuryParentQuiet(s: State, p: Id, now: int)
    requires CopiesRight(s)
    requires p in s.vault ==> p !in s.blocked && p !in s.count && p !in s.named
    ensures Quiet(s, BuryParent(s, p, now)) && CopiesRight(BuryParent(s, p, now))
  {
    if p in s.vault {
      assert s.blocked - {p} == s.blocked && s.count - {p} == s.count && s.named - {p} == s.named;
    }
  }

  /** No listed parent has a place of its own among the parked jobs. */
  ghost predicate Unparked(s: State, ps: seq<Id>)
  {
    forall p :: p in ps && p in s.vault ==> p in s.failed && p !in s.blocked && p !in s.count && p !in s.named
  }

  lemma BuryParentUnparked(s: State, p: Id, ps: seq<Id>, now: int)
    requires Unparked(s, ps)
    ensures Unparked(BuryParent(s, p, now), ps)
  {
  }

  lemma BuryParentPlaces(s: State, p: Id, now: int)
    requires OnePlace(s) && (p in s.vault ==> p in s.failed)
    ensures OnePlace(BuryParent(s, p, now))
  {
    BuryParentKeepsPlaceIff(s, p, now);
  }

  lemma {:induction false} BuryParentsQuiet(s: State, ps: seq<Id>, now: int)
    requires CopiesRight(s) && OnePlace(s) && Unparked(s, ps)
    ensures var t := BuryParents(s, ps, now);
            Quiet(s, t) && CopiesRight(t) && OnePlace(t)
    decreases |ps|
  {
    if ps == [] {
    } else {
      var t := BuryParent(s, ps[0], now);
      BuryParentQuiet(s, ps[0], now);
      BuryParentPlaces(s, ps[0], now);
      BuryParentUnparked(s, ps[0], ps, now);
      BuryParentsQuiet(t, ps[1..], now);
      QuietChain(s, t, BuryParents(t, ps[1..], now));
    }
  }

  /** A died job joins the failed; who was pinned stays, and so does every edge. */
  lemma DeadEdges(s: State, t: State, awaits: map<Id, set<Id>>)
    requires EdgesRight(s, awaits) && KeepsEdges(s, t)
    ensures EdgesRight(t, awaits)
  {
    forall p: Id, c: Id | (p, c) in t.childEdges
      ensures Settled(t, p) || p in Awaiting(awaits, c)
    {
      assert c in Kids(s.childEdges, p) && Pinned(s, p);
    }
  }

  ghost predicate KeepsEdges(s: State, t: State)
  {
    && SameEdges(s, t)
    && (forall x :: Pinned(s, x) && x in s.vault ==> x in t.vault && t.vault[x].flow == s.vault[x].flow)
    && (forall x :: Pinned(s, x) && Settled(s, x) ==> Settled(t, x))
    && t.completed.Keys == s.completed.Keys
  }

  lemma DeadAwaited(w: System, t: State)
    requires OnePlace(w.s) && AwaitedRight(w) && Ranked(w) && Counters(w.s, w.awaits) && EdgesRight(w.s, w.awaits)
    requires KeepsEdges(w.s, t)
    ensures AwaitedRight(After(w, t))
  {
    RanksKept(w, t);
    forall p: Id, j: Id | p in Awaiting(w.awaits, j)
      ensures AwaitedBy(After(w, t), p, j)
    {
      assert AwaitedBy(w, p, j) && CounterOf(w.s, w.awaits, j);
      assert j in w.s.count.Keys && Pinned(w.s, j);
      assert j in Kids(w.s.childEdges, p) && Pinned(w.s, p);
      assert p in t.completed.Keys <==> p in w.s.completed.Keys;
    }
  }

  lemma KeepsEdgesKeepsDag(w: System, t: State)
    requires OnePlace(w.s) && DagRight(w) && KeepsEdges(w.s, t) && CopiesRight(t)
    ensures DagRight(After(w, t))
  {
    CountersFrame(w.s, t, w.awaits);
    DeadEdges(w.s, t, w.awaits);
    DeadAwaited(w, t);
    RanksShrink(w, t);
  }

  lemma FailedFinalize(s: State, id: Id, reason: string, now: int, keep: int, publish: bool)
    requires id in s.vault && CopiesRight(s)
    ensures var t := FailedCopy(s, id, reason, now, keep, publish);
            KeepsEdges(s, t) && CopiesRight(t) && SameVaultOrLess(s, t)
  {
    var o := Outcome(false, reason, "");
    FinalizePinned(s, id, o, now, keep, publish);
    var s1 := Finalize(s, id, o, now, keep, publish);
    FinalizeFailedFields(s, id, reason, now, keep, publish);
    FailedCopyRight(s, s1, id, s.vault[id].(status := Dead, failedReason := Some(reason)));
  }

  ghost predicate SameVaultOrLess(s: State, t: State)
  {
    forall x :: x in t.vault ==> x in s.vault
  }

  /** The job finalized as dead, with the copy the worker puts in the DLQ. */
  function FailedCopy(s: State, id: Id, reason: string, now: int, keep: int, publish: bool): State
    requires id in s.vault
  {
    var t := Finalize(s, id, Outcome(false, reason, ""), now, keep, publish);
    t.(dlq := t.dlq[id := s.vault[id].(status := Dead, failedReason := Some(reason))])
  }

  lemma FinalizeFailedFields(s: State, id: Id, reason: string, now: int, keep: int, publish: bool)
    ensures var t := Finalize(s, id, Outcome(false, reason, ""), now, keep, publish);
            && t.completed == s.completed
            && (forall x :: x in t.dlq ==> x in s.dlq && t.dlq[x] == s.dlq[x])
            && (forall x :: x in t.failed ==> x in s.failed || x == id)
            && (forall x :: x in t.vault && (x in s.failed || x == id) ==> x in t.failed)
            && (forall x :: x in s.vault && x !in s.failed && x != id ==> x in t.vault)
  {
    var s1 := Close(s, id, Outcome(false, reason, ""), now);
    CloseFields(s, id, Outcome(false, reason, ""), now);
    EvictedIsInside(s1, s1.failed, keep);
    ErasedFailed(s, s1, Finalize(s, id, Outcome(false, reason, ""), now, keep, publish), id, Evicted(s1, s1.failed, keep));
  }

  lemma ErasedFailed(s: State, s1: State, t: State, id: Id, gone: set<Id>)
    requires s1.vault.Keys == s.vault.Keys && s1.dlq == s.dlq && s1.failed.Keys == s.failed.Keys + {id}
    requires gone <= s1.failed.Keys
    requires t.vault == s1.vault - gone && t.failed == s1.failed - gone && t.dlq == s1.dlq - gone
    ensures forall x :: x in t.dlq ==> x in s.dlq && t.dlq[x] == s.dlq[x]
    ensures forall x :: x in t.failed ==> x in s.failed || x == id
    ensures forall x :: x in t.vault && (x in s.failed || x == id) ==> x in t.failed
    ensures forall x :: x in s.vault && x !in s.failed && x != id ==> x in t.vault
  {
    assert forall x :: x in s1.failed.Keys <==> x in s.failed.Keys || x == id;
    assert forall x :: x in s1.vault.Keys <==> x in s.vault.Keys;
  }

  lemma FailedCopyRight(s: State, s1: State, id: Id, job: Job)
    requires KeepsPinned(s, s1, id) && s1.completed == s.completed && CopiesRight(s)
    requires id in s.vault && job.flow == s.vault[id].flow
    requires forall x :: x in s1.dlq ==> x in s.dlq && s1.dlq[x] == s.dlq[x]
    requires forall x :: x in s1.failed ==> x in s.failed || x == id
    ensures var t := s1.(dlq := s1.dlq[id := job]);
            KeepsEdges(s, t) && CopiesRight(t) && SameVaultOrLess(s, t)
  {
  }

  lemma FailedCopyPlaces(s: State, id: Id, reason: string, now: int, keep: int, publish: bool)
    requires OnePlace(s) && id in s.vault && id in s.active
    ensures OnePlace(FailedCopy(s, id, reason, now, keep, publish))
  {
    var o := Outcome(false, reason, "");
    FinalizeKeepsPlace(s, id, o, now, keep, publish);
    PlacesFrame(Finalize(s, id, o, now, keep, publish), FailedCopy(s, id, reason, now, keep, publish));
  }

  lemma FailedCopyUnparked(w: System, id: Id, ps: seq<Id>, reason: string, now: int, keep: int, publish: bool)
    requires OnePlace(w.s) && Counters(w.s, w.awaits) && id in w.s.vault
    requires id in w.s.active && MayBury(w.s, id, ps)
    ensures Unparked(FailedCopy(w.s, id, reason, now, keep, publish), ps)
  {
    var s, t := w.s, FailedCopy(w.s, id, reason, now, keep, publish);
    var o := Outcome(false, reason, "");
    FinalizePinned(s, id, o, now, keep, publish);
    FinalizeFailedFields(s, id, reason, now, keep, publish);
    forall p | p in ps && p in t.vault
      ensures p in t.failed && p !in t.blocked && p !in t.count && p !in t.named
    {
      PlaceAtMostOnce(s, p);
      assert p in s.count.Keys <==> p in s.blocked;
    }
  }

  lemma KeepsEdgesThenQuiet(s: State, t: State, u: State)
    requires KeepsEdges(s, t) && Quiet(t, u)
    ensures KeepsEdges(s, u)
  {
    forall x | Pinned(s, x) && Settled(s, x)
      ensures Settled(u, x)
    {
      assert x in t.completed.Keys || x in t.failed.Keys;
    }
  }

  lemma KillKeepsAll(w: System, id: Id, reason: string, now: int, keep: int, publish: bool)
    requires OnePlace(w.s) && DagRight(w) && id in w.s.vault && id in w.s.active
    requires w.s.vault[id].flow ==> MayBury(w.s, id, w.s.vault[id].parents)
    ensures var t := Kill(w.s, id, w.s.vault[id], reason, now, keep, publish);
            OnePlace(t) && DagRight(After(w, t))
  {
    var job := w.s.vault[id];
    var m := FailedCopy(w.s, id, reason, now, keep, publish);
    FailedCopyPlaces(w.s, id, reason, now, keep, publish);
    FailedFinalize(w.s, id, reason, now, keep, publish);
    if job.flow {
      FailedCopyUnparked(w, id, job.parents, reason, now, keep, publish);
      BuryParentsQuiet(m, job.parents, now);
      KeepsEdgesThenQuiet(w.s, m, BuryParents(m, job.parents, now));
      KeepsEdgesKeepsDag(w, BuryParents(m, job.parents, now));
    } else {
      KeepsEdgesKeepsDag(w, m);
    }
  }

  /** What burying the stored ones of `ps` changes of the places. */
  ghost predicate Buried(s: State, t: State, ps: seq<Id>)
  {
    && t.vault.Keys == s.vault.Keys && t.waiting == s.waiting && t.prioritized == s.prioritized
    && t.active == s.active && t.delayed == s.delayed && t.completed == s.completed
    && t.failed.Keys == s.failed.Keys + (Members(ps) * s.vault.Keys)
    && t.blocked == s.blocked - (Members(ps) * s.vault.Keys)
  }

  lemma BuryParentBuries(s: State, p: Id, now: int)
    ensures Buried(s, BuryParent(s, p, now), [p])
  {
    assert Members([p]) == {p};
    if p in s.vault {
      assert BuryParent(s, p, now).vault.Keys == s.vault.Keys;
    }
  }

  lemma BuriedOn(s: State, t: State, u: State, ps: seq<Id>)
    requires ps != [] && Buried(s, t, [ps[0]]) && Buried(t, u, ps[1..])
    ensures Buried(s, u, ps)
  {
    assert Members(ps) == Members([ps[0]]) + Members(ps[1..]) by {
      assert ps == [ps[0]] + ps[1..];
    }
  }

  lemma {:induction false} BuryParentsBury(s: State, ps: seq<Id>, now: int)
    ensures Buried(s, BuryParents(s, ps, now), ps)
    decreases |ps|
  {
    if ps == [] {
      assert Members(ps) == {};
    } else {
      BuryParentBuries(s, ps[0], now);
      BuryParentsBury(BuryParent(s, ps[0], now), ps[1..], now);
      BuriedOn(s, BuryParent(s, ps[0], now), BuryParents(s, ps, now), ps);
    }
  }

  /** Burying one that is stored and not dead leaves it in two places, or parked no
      longer although it still waits. */
  lemma BuryingSpoils(m: State, t: State, awaits: map<Id, set<Id>>, ps: seq<Id>, p: Id)
    requires OnePlace(m) && Counters(m, awaits) && Buried(m, t, ps)
    requires p in ps && p in m.vault && p !in m.failed
    ensures !OnePlace(t) || !Counters(t, awaits)
  {
    assert p in Members(ps) * m.vault.Keys;
    assert p in t.failed.Keys && p in t.vault.Keys && p !in t.blocked;
    PlaceAtMostOnce(m, p);
    if p in m.blocked {
      assert CounterOf(m, awaits, p) && !CounterOf(t, awaits, p);
    } else {
      assert Places(t, p) == 2;
    }
  }

  lemma KillingSpoils(w: System, id: Id, reason: string, now: int, keep: int, publish: bool, p: Id)
    requires OnePlace(w.s) && DagRight(w) && id in w.s.vault && id in w.s.active && w.s.vault[id].flow
    requires p in w.s.vault[id].parents && p in w.s.vault && p !in w.s.failed && p != id
    ensures var t := Kill(w.s, id, w.s.vault[id], reason, now, keep, publish);
            !OnePlace(t) || !Counters(t, w.awaits)
  {
    var m := FailedCopy(w.s, id, reason, now, keep, publish);
    FailedCopyPlaces(w.s, id, reason, now, keep, publish);
    FailedFinalize(w.s, id, reason, now, keep, publish);
    FinalizeFailedFields(w.s, id, reason, now, keep, publish);
    CountersFrame(w.s, m, w.awaits);
    BuryParentsBury(m, w.s.vault[id].parents, now);
    BuryingSpoils(m, BuryParents(m, w.s.vault[id].parents, now), w.awaits, w.s.vault[id].parents, p);
  }

  /** A job dies for good without harm exactly when it carries no flow flag, or every
      parent it lists is gone, dead already, or itself: the cascade goes the wrong way. */
  lemma KillKeepsAllIff(w: System, id: Id, reason: string, now: int, keep: int, publish: bool)
    requires OnePlace(w.s) && DagRight(w) && id in w.s.vault && id in w.s.active
    ensures var t := Kill(w.s, id, w.s.vault[id], reason, now, keep, publish);
            OnePlace(t) && DagRight(After(w, t)) <==> (w.s.vault[id].flow ==> MayBury(w.s, id, w.s.vault[id].parents))
  {
    if w.s.vault[id].flow ==> MayBury(w.s, id, w.s.vault[id].parents) {
      KillKeepsAll(w, id, reason, now, keep, publish);
    } else {
      var p :| p in w.s.vault[id].parents && p in w.s.vault && p !in w.s.failed && p != id;
      KillingSpoils(w, id, reason, now, keep, publish, p);
    }
  }

  // ---- Retrying a dead job, draining ----

  /** A retried job is stored and runnable again; whoever has an edge from it waits for it. */
  lemma RetryEdges(s: State, t: State, awaits: map<Id, set<Id>>, id: Id)
    requires EdgesRight(s, awaits) && SameEdges(s, t)
    requires t.completed == s.completed && t.failed == s.failed - {id}
    requires forall c: Id :: (id, c) in s.childEdges ==> id in Awaiting(awaits, c)
    ensures EdgesRight(t, awaits)
  {
  }

  lemma RetryAwaited(w: System, t: State, id: Id, job: Job)
    requires AwaitedRight(w) && Ranked(w) && id in w.s.dlq && CopiesRight(w.s)
    requires id in w.s.vault ==> id in w.s.failed
    requires t.vault == w.s.vault[id := job] && t.completed == w.s.completed && job.flow == w.s.dlq[id].flow
    ensures AwaitedRight(After(w, t)) && Ranked(After(w, t))
  {
    RanksKept(w, t);
    forall p: Id, j: Id | p in Awaiting(w.awaits, j)
      ensures AwaitedBy(After(w, t), p, j)
    {
      assert AwaitedBy(w, p, j);
    }
  }

  lemma RetryFrame(s: State, id: Id, job: Job)
    ensures var t := RetryJob(s, id, job);
            && SameEdges(s, t) && t.vault == s.vault[id := job] && t.completed == s.completed
            && t.failed == s.failed - {id} && t.dlq == s.dlq - {id}
  {
  }

  lemma RetryCopies(s: State, t: State, id: Id, job: Job)
    requires CopiesRight(s) && t.vault == s.vault[id := job] && t.failed == s.failed - {id} && t.dlq == s.dlq - {id}
    ensures CopiesRight(t)
  {
  }

  lemma RetryKeepsDag(w: System, id: Id)
    requires OnePlace(w.s) && DagRight(w) && id in w.s.dlq && Legal(w, RetryDead(id))
    ensures DagRight(After(w, RetryJob(w.s, id, Revived(w.s, id))))
  {
    var t := RetryJob(w.s, id, Revived(w.s, id));
    RetryFrame(w.s, id, Revived(w.s, id));
    CountersFrame(w.s, t, w.awaits);
    RetryEdges(w.s, t, w.awaits, id);
    RetryAwaited(w, t, id, Revived(w.s, id));
    RetryCopies(w.s, t, id, Revived(w.s, id));
  }

  /** A retry keeps the dependencies right exactly when every job registered as a
      dependent of the dead one waits for it. */
  lemma RetryKeepsDagIff(w: System, id: Id)
    requires OnePlace(w.s) && DagRight(w) && id in w.s.dlq && (id in w.s.vault ==> id in w.s.failed)
    ensures DagRight(After(w, RetryJob(w.s, id, Revived(w.s, id))))
       <==> forall c: Id :: (id, c) in w.s.childEdges ==> id in Awaiting(w.awaits, c)
  {
    if forall c: Id :: (id, c) in w.s.childEdges ==> id in Awaiting(w.awaits, c) {
      RetryKeepsDag(w, id);
    } else {
      RetryFrame(w.s, id, Revived(w.s, id));
      PlaceAtMostOnce(w.s, id);
    }
  }

  lemma DrainFrame(s: State)
    ensures var t := Drain(s);
            && SameEdges(s, t) && t.vault == s.vault - Drained(s) && t.completed == s.completed && t.failed == s.failed
            && t.dlq == s.dlq
  {
  }

  lemma DrainEdges(s: State, t: State, awaits: map<Id, set<Id>>)
    requires EdgesRight(s, awaits) && SameEdges(s, t) && t.completed == s.completed && t.failed == s.failed
    ensures EdgesRight(t, awaits)
  {
  }

  /** A parked job is not drained, and by assumption neither is one it waits for. */
  lemma DrainAwaited(w: System)
    requires OnePlace(w.s) && Counters(w.s, w.awaits) && EdgesRight(w.s, w.awaits) && AwaitedRight(w) && Ranked(w)
    requires Legal(w, DrainAll)
    ensures AwaitedRight(After(w, Drain(w.s)))
  {
    var t := Drain(w.s);
    DrainFrame(w.s);
    RanksKept(w, t);
    forall p: Id, j: Id | p in Awaiting(w.awaits, j)
      ensures AwaitedBy(After(w, t), p, j)
    {
      assert AwaitedBy(w, p, j) && CounterOf(w.s, w.awaits, j) && j in Kids(w.s.childEdges, p);
      PlaceAtMostOnce(w.s, j);
      assert j in w.s.waiting <==> multiset(w.s.waiting)[j] > 0;
    }
  }

  lemma DrainCopies(s: State, t: State)
    requires CopiesRight(s) && t.vault == s.vault - Drained(s) && t.dlq == s.dlq && t.failed == s.failed
    ensures CopiesRight(t)
  {
  }

  lemma DrainKeepsDag(w: System)
    requires OnePlace(w.s) && DagRight(w) && Legal(w, DrainAll)
    ensures DagRight(After(w, Drain(w.s)))
  {
    DrainFrame(w.s);
    CountersFrame(w.s, Drain(w.s), w.awaits);
    DrainEdges(w.s, Drain(w.s), w.awaits);
    DrainAwaited(w);
    DrainCopies(w.s, Drain(w.s));
    RanksShrink(w, Drain(w.s));
  }

  lemma DrainedIsNotSettled(s: State, p: Id)
    requires OnePlace(s) && p in Drained(s)
    ensures !Settled(s, p)
  {
    PlaceAtMostOnce(s, p);
    assert p in s.waiting <==> multiset(s.waiting)[p] > 0;
  }

  /** Draining keeps the dependencies right exactly when it takes no job with children:
      whoever is drained has not settled, so its children wait for it. */
  lemma DrainKeepsDagIff(w: System)
    requires OnePlace(w.s) && DagRight(w)
    ensures DagRight(After(w, Drain(w.s))) <==> forall p: Id :: p in Drained(w.s) ==> Kids(w.s.childEdges, p) == {}
  {
    if forall p: Id :: p in Drained(w.s) ==> Kids(w.s.childEdges, p) == {} {
      DrainKeepsDag(w);
    } else {
      var p: Id :| p in Drained(w.s) && Kids(w.s.childEdges, p) != {};
      var j :| j in Kids(w.s.childEdges, p);
      DrainedIsNotSettled(w.s, p);
      DrainFrame(w.s);
      assert (p, j) in w.s.childEdges && p in Awaiting(w.awaits, j);
      assert !AwaitedBy(After(w, Drain(w.s)), p, j);
    }
  }
}

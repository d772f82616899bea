/**
 What the stored records say, place by place, after every legal run.
 */
module Records {
  import opened Redis
  import opened Model
  import opened Machine
  import opened Placement
  import opened Dag
  import opened Edges
  import opened Dependents
  import opened Removals
  import opened Attempts
  import opened Runs

  /** Not picked up, or failed and to be tried again. */
  predicate ReadyStatus(job: Job)
  {
    job.status == Waiting || job.status == Retrying
  }

  /** A copy that may lack the time the stored job finished. */
  predicate SameButFinish(a: Job, b: Job)
  {
    a.(finishedOn := None) == b.(finishedOn := None)
  }

  /** The record of a stored job fits its place: only jobs without priority wait in the
      list, only jobs with one are prioritized; the status names the place; a completed
      job finished at its score; a dead one has its record in the DLQ. */
  predicate Fits(s: State, x: Id)
    requires x in s.vault
  {
    var job := s.vault[x];
    && (x in s.waiting ==> job.priority == 0)
    && (x in s.prioritized ==> job.priority > 0)
    && (x in s.waiting || x in s.prioritized || x in s.delayed || x in s.blocked ==> ReadyStatus(job))
    && (x in s.active ==> job.status == Active)
    && (x in s.completed ==> job.status == Completed && job.finishedOn == Some(s.completed[x]))
    && (x in s.failed ==> job.status == Dead && x in s.dlq && SameButFinish(s.dlq[x], job))
  }

  ghost predicate RecordsRight(s: State)
  {
    forall x :: x in s.vault ==> Fits(s, x)
  }

  // ---- One job moves ----

  /** If x is stored afterwards, it was before, with the same record, and is nowhere new. */
  predicate Stays(s: State, t: State, x: Id)
  {
    x in t.vault ==>
      && x in s.vault && t.vault[x] == s.vault[x]
      && (x in t.waiting ==> x in s.waiting) && (x in t.prioritized ==> x in s.prioritized)
      && (x in t.active ==> x in s.active) && (x in t.delayed ==> x in s.delayed)
      && (x in t.blocked ==> x in s.blocked)
      && (x in t.completed ==> x in s.completed && t.completed[x] == s.completed[x])
      && (x in t.failed ==> x in s.failed && (x in s.dlq ==> x in t.dlq && t.dlq[x] == s.dlq[x]))
  }

  ghost predicate OthersStay(s: State, t: State, id: Id)
  {
    forall x :: x != id ==> Stays(s, t, x)
  }

  ghost predicate AllStay(s: State, t: State)
  {
    forall x :: Stays(s, t, x)
  }

  lemma StaysFits(s: State, t: State, x: Id)
    requires RecordsRight(s) && Stays(s, t, x) && x in t.vault
    ensures Fits(t, x)
  {
    assert Fits(s, x);
  }

  lemma OneMoved(s: State, t: State, id: Id)
    requires RecordsRight(s) && OthersStay(s, t, id) && (id in t.vault ==> Fits(t, id))
    ensures RecordsRight(t)
  {
    forall x | x in t.vault
      ensures Fits(t, x)
    {
      if x != id {
        StaysFits(s, t, x);
      }
    }
  }

  lemma NoneMoved(s: State, t: State)
    requires RecordsRight(s) && AllStay(s, t)
    ensures RecordsRight(t)
  {
    forall x | x in t.vault
      ensures Fits(t, x)
    {
      StaysFits(s, t, x);
    }
  }

  lemma StayThen(s: State, t: State, u: State, id: Id)
    requires AllStay(s, t) && OthersStay(t, u, id)
    ensures OthersStay(s, u, id)
  {
    forall x | x != id
      ensures Stays(s, u, x)
    {
      assert Stays(s, t, x) && Stays(t, u, x);
    }
  }

  lemma MoveThenStay(s: State, t: State, u: State, id: Id)
    requires OthersStay(s, t, id) && AllStay(t, u)
    ensures OthersStay(s, u, id)
  {
    forall x | x != id
      ensures Stays(s, u, x)
    {
      assert Stays(s, t, x) && Stays(t, u, x);
    }
  }

  /** A job in one place is in no other. */
  lemma FitsWhere(t: State, x: Id)
    requires OnePlace(t) && x in t.vault
    ensures x in t.active && t.vault[x].status == Active ==> Fits(t, x)
    ensures (x in t.delayed || x in t.blocked) && ReadyStatus(t.vault[x]) ==> Fits(t, x)
    ensures x in t.waiting && t.vault[x].priority == 0 && ReadyStatus(t.vault[x]) ==> Fits(t, x)
    ensures x in t.prioritized && t.vault[x].priority > 0 && ReadyStatus(t.vault[x]) ==> Fits(t, x)
    ensures x in t.completed && t.vault[x].status == Completed && t.vault[x].finishedOn == Some(t.completed[x]) ==> Fits(t, x)
    ensures x in t.failed && t.vault[x].status == Dead && x in t.dlq && SameButFinish(t.dlq[x], t.vault[x]) ==> Fits(t, x)
  {
    PlaceAtMostOnce(t, x);
    assert x in t.waiting <==> multiset(t.waiting)[x] > 0;
  }

  predicate WhereQueued(t: State, x: Id)
    requires x in t.vault
  {
    if t.vault[x].priority > 0 then x in t.prioritized else x in t.waiting
  }

  /** Ready, and queued where its priority says. */
  lemma QueuedRecords(s: State, t: State, id: Id)
    requires RecordsRight(s) && OnePlace(t) && OthersStay(s, t, id)
    requires id in t.vault && WhereQueued(t, id) && ReadyStatus(t.vault[id])
    ensures RecordsRight(t)
  {
    FitsWhere(t, id);
    OneMoved(s, t, id);
  }

  /** Anywhere else, with the status of the place. */
  lemma PlacedRecords(s: State, t: State, id: Id)
    requires RecordsRight(s) && OnePlace(t) && OthersStay(s, t, id) && id in t.vault
    requires (id in t.active && t.vault[id].status == Active)
          || ((id in t.delayed || id in t.blocked) && ReadyStatus(t.vault[id]))
          || (id in t.completed && t.vault[id].status == Completed && t.vault[id].finishedOn == Some(t.completed[id]))
          || (id in t.failed && t.vault[id].status == Dead && id in t.dlq && SameButFinish(t.dlq[id], t.vault[id]))
    ensures RecordsRight(t)
  {
    FitsWhere(t, id);
    OneMoved(s, t, id);
  }

  // ---- Adding ----

  lemma StoreStays(s: State, t: State, id: Id, job: Job)
    requires t == StoreRunnable(s, id, job)
    ensures OthersStay(s, t, id) && id in t.vault && t.vault[id] == job && WhereQueued(t, id)
  {
  }

  lemma StoreRecords(s: State, id: Id, job: Job)
    requires RecordsRight(s) && ReadyStatus(job) && OnePlace(StoreRunnable(s, id, job))
    ensures RecordsRight(StoreRunnable(s, id, job))
  {
    StoreStays(s, StoreRunnable(s, id, job), id, job);
    QueuedRecords(s, StoreRunnable(s, id, job), id);
  }

  lemma AddRecords(s: State, id: Id, job: Job)
    requires RecordsRight(s) && OnePlace(s) && Fresh(job)
    ensures RecordsRight(AddJob(s, id, job))
  {
    AddPlaces(s, id, job);
    if id !in s.vault {
      StoreRecords(s, id, job);
    }
  }

  lemma DelayStays(s: State, t: State, id: Id, job: Job, at: int)
    requires t.vault == s.vault[id := job] && t.delayed == s.delayed[id := at]
    requires t.waiting == s.waiting && t.prioritized == s.prioritized && t.active == s.active && t.blocked == s.blocked
    requires t.completed == s.completed && t.failed == s.failed && t.dlq == s.dlq
    ensures OthersStay(s, t, id) && id in t.delayed && t.vault[id] == job
  {
  }

  lemma AddDelayedRecords(s: State, id: Id, job: Job, at: int)
    requires RecordsRight(s) && OnePlace(s) && Fresh(job)
    ensures RecordsRight(AddDelayed(s, id, job, at))
  {
    AddDelayedPlaces(s, id, job, at);
    if id !in s.vault {
      DelayStays(s, AddDelayed(s, id, job, at), id, job, at);
      PlacedRecords(s, AddDelayed(s, id, job, at), id);
    }
  }

  lemma LinkStays(s: State, id: Id, ps: seq<Id>)
    ensures AllStay(s, Link(s, id, ps))
  {
  }

  lemma ParkStays(s: State, t: State, id: Id, job: Job, pending: nat)
    requires t == Link(Park(s, id, job, pending), id, job.parents)
    ensures OthersStay(s, t, id) && id in t.blocked && id in t.vault && t.vault[id] == job
  {
  }

  lemma DependRecords(s: State, id: Id, job: Job)
    requires RecordsRight(s) && OnePlace(s) && Fresh(job)
    ensures RecordsRight(AddDependent(s, id, job))
  {
    AddDependentPlaces(s, id, job);
    if id !in s.vault {
      if CountPending(s, job.parents) == 0 {
        AddRecords(s, id, job);
        LinkStays(StoreRunnable(s, id, job), id, job.parents);
        NoneMoved(StoreRunnable(s, id, job), AddDependent(s, id, job));
      } else {
        ParkStays(s, AddDependent(s, id, job), id, job, CountPending(s, job.parents));
        PlacedRecords(s, AddDependent(s, id, job), id);
      }
    }
  }

  lemma TokensStay(s: State, t: State)
    requires t.vault == s.vault && t.waiting == s.waiting && t.prioritized == s.prioritized && t.active == s.active
    requires t.delayed == s.delayed && t.blocked == s.blocked && t.completed == s.completed && t.failed == s.failed
    requires t.dlq == s.dlq
    ensures AllStay(s, t)
  {
  }

  lemma AddBulkLaterRecords(s: State, t: State, item: BulkItem)
    requires RecordsRight(s) && OnePlace(s) && Fresh(item.job) && item.id !in s.vault && item.later
    requires t == AddBulkOne(s, item)
    ensures RecordsRight(t)
  {
    AddBulkOnePlaces(s, item);
    DelayStays(s, t, item.id, item.job, item.job.timestamp);
    PlacedRecords(s, t, item.id);
  }

  lemma AddBulkNowRecords(s: State, t: State, item: BulkItem)
    requires RecordsRight(s) && OnePlace(s) && Fresh(item.job) && item.id !in s.vault && !item.later
    requires t == AddBulkOne(s, item)
    ensures RecordsRight(t)
  {
    var u := StoreRunnable(s, item.id, item.job);
    AddBulkOnePlaces(s, item);
    StoreStays(s, u, item.id, item.job);
    TokensStay(u, t);
    MoveThenStay(s, u, t, item.id);
    QueuedRecords(s, t, item.id);
  }

  lemma AddBulkOneRecords(s: State, item: BulkItem)
    requires RecordsRight(s) && OnePlace(s) && Fresh(item.job)
    ensures RecordsRight(AddBulkOne(s, item))
  {
    if item.id !in s.vault {
      if item.later {
        AddBulkLaterRecords(s, AddBulkOne(s, item), item);
      } else {
        AddBulkNowRecords(s, AddBulkOne(s, item), item);
      }
    }
  }

  lemma {:induction false} AddBulkRecords(s: State, items: seq<BulkItem>)
    requires RecordsRight(s) && OnePlace(s) && forall i :: 0 <= i < |items| ==> Fresh(items[i].job)
    ensures RecordsRight(AddBulk(s, items))
    decreases |items|
  {
    if items == [] {
    } else {
      AddBulkOneRecords(s, items[0]);
      AddBulkOnePlaces(s, items[0]);
      AddBulkRecords(AddBulkOne(s, items[0]), items[1..]);
    }
  }

  // ---- Picking up ----

  lemma PopStays(s: State)
    ensures AllStay(s, Pop(s))
  {
  }

  lemma PickStays(s: State, id: Id, stamp: int, lease: int, events: seq<Event>)
    requires id in s.vault
    ensures var t := Pick(s, id, stamp, lease).(events := events);
            OthersStay(s, t, id) && id in t.vault && t.vault[id].status == Active && id in t.active
  {
  }

  lemma DequeueRecords(s: State, now: int, lock: int, publish: bool)
    requires RecordsRight(s) && OnePlace(s)
    ensures RecordsRight(Dequeue(s, now, lock, publish))
  {
    DequeuePlaces(s, now, lock, publish);
    PopStays(s);
    if Next(s).Some? {
      var id := Next(s).value;
      PickStays(Pop(s), id, now, now + lock, Published(s, publish, ActiveEvent, id));
      StayThen(s, Pop(s), Dequeue(s, now, lock, publish), id);
      PlacedRecords(s, Dequeue(s, now, lock, publish), id);
    } else {
      NoneMoved(s, Pop(s));
    }
  }

  lemma PickedRecords(s: State, m: State, t: State, id: Id, lease: int)
    requires RecordsRight(s) && AllStay(s, m) && id in m.vault && t == Pick(m, id, lease, lease) && OnePlace(t)
    ensures RecordsRight(t)
  {
    PickStays(m, id, lease, lease, t.events);
    StayThen(s, m, t, id);
    PlacedRecords(s, t, id);
  }

  lemma {:induction false} FirstPhaseRecords(b: Batch, n: nat, lease: int)
    requires RecordsRight(b.s) && OnePlace(b.s)
    ensures RecordsRight(BatchPrioritized(b, n, lease).s)
    decreases |b.s.prioritized|
  {
    if |b.taken| >= n || b.s.prioritized == map[] {
    } else {
      var id := Least(b.s.prioritized);
      PickMinPlaces(b.s, lease);
      PickedRecords(b.s, DropMin(b.s), PickMin(b.s, lease), id, lease);
      FirstPhaseRecords(PopMin(b, lease), n, lease);
    }
  }

  lemma DropStays(s: State, id: Id)
    ensures AllStay(s, s.(waiting := DropFirst(s.waiting, id)))
  {
    forall x
      ensures x in DropFirst(s.waiting, id) ==> x in s.waiting
    {
      assert x in DropFirst(s.waiting, id) <==> multiset(DropFirst(s.waiting, id))[x] > 0;
      assert x in s.waiting <==> multiset(s.waiting)[x] > 0;
    }
  }

  lemma PickWaitingRecords(s: State, id: Id, lease: int)
    requires RecordsRight(s) && OnePlace(s) && id in s.vault && id in s.waiting
    ensures RecordsRight(PickWaiting(s, id, lease))
  {
    var m := s.(waiting := DropFirst(s.waiting, id));
    PickWaitingPlaces(s, id, lease);
    DropStays(s, id);
    assert PickWaiting(s, id, lease) == Pick(m, id, lease, lease);
    PickedRecords(s, m, PickWaiting(s, id, lease), id, lease);
  }

  lemma {:induction false} SecondPhaseRecords(b: Batch, ids: seq<Id>, lease: int)
    requires RecordsRight(b.s) && OnePlace(b.s) && NoDup(ids) && forall x :: x in ids ==> x in b.s.waiting
    ensures RecordsRight(BatchWaiting(b, ids, lease).s)
    decreases |ids|
  {
    if ids == [] {
    } else {
      var id := ids[0];
      WaitingIsStored(b.s, id);
      PickWaitingRecords(b.s, id, lease);
      PickWaitingPlaces(b.s, id, lease);
      forall x | x in ids[1..]
        ensures x in DropFirst(b.s.waiting, id)
      {
        DropKeepsOthers(b.s.waiting, id, x);
      }
      SecondPhaseRecords(TakeWaiting(b, id, lease), ids[1..], lease);
    }
  }

  lemma StillWantedWaits(b: Batch, n: nat)
    requires OnePlace(b.s)
    ensures NoDup(StillWanted(b, n)) && forall x :: x in StillWanted(b, n) ==> x in b.s.waiting
  {
    if |b.taken| < n {
      WaitingHasNoDup(b.s, n - |b.taken|);
    }
  }

  lemma RestRecords(b: Batch, n: nat, lease: int)
    requires RecordsRight(b.s) && OnePlace(b.s)
    ensures RecordsRight(BatchWaiting(b, StillWanted(b, n), lease).s)
  {
    StillWantedWaits(b, n);
    SecondPhaseRecords(b, StillWanted(b, n), lease);
  }

  lemma BatchRecords(s: State, n: nat, lease: int)
    requires RecordsRight(s) && OnePlace(s)
    ensures RecordsRight(BatchDequeue(s, n, lease).s)
  {
    BatchPrioritizedPlaces(Batch(s, []), n, lease);
    FirstPhaseRecords(Batch(s, []), n, lease);
    RestRecords(BatchPrioritized(Batch(s, []), n, lease), n, lease);
  }

  // ---- Settling ----

  lemma CloseStays(s: State, t: State, id: Id, o: Outcome, now: int)
    requires t == Close(s, id, o, now)
    ensures OthersStay(s, t, id)
    ensures id in s.vault ==> id in t.vault && t.vault[id] == Closed(s.vault[id], o, now)
    ensures if o.completed then id in t.completed && t.completed[id] == now else id in t.failed
  {
  }

  lemma EraseStays(s: State, onCompleted: bool, gone: set<Id>, events: seq<Event>)
    ensures AllStay(s, Erase(s, onCompleted, gone).(events := events))
  {
  }

  lemma CompletedRecords(s: State, id: Id, o: Outcome, now: int, keep: int, publish: bool)
    requires RecordsRight(s) && OnePlace(s) && id in s.active && id in s.vault && o.completed
    ensures RecordsRight(Finalize(s, id, o, now, keep, publish))
  {
    var c := Close(s, id, o, now);
    FinalizeKeepsPlace(s, id, o, now, 0, false);
    CloseStays(s, c, id, o, now);
    ClosedPlaces(s, c, id, o, now);
    PlacedRecords(s, c, id);
    EraseStays(c, o.completed, EvictedNow(s, id, o, now, keep), Published(s, publish, CompletedEvent, id));
    NoneMoved(c, Finalize(s, id, o, now, keep, publish));
  }

  lemma ClosedPlaces(s: State, c: State, id: Id, o: Outcome, now: int)
    requires OnePlace(s) && id in s.active && id in s.vault && c == Close(s, id, o, now)
    ensures OnePlace(c)
  {
    CloseMoves(s, id, o, now);
    MovedKeepsPlaceIff(s, c, id, AlreadySettled(s, id, o), {});
  }

  lemma ThenTakenRecords(s: State, t: State, op: Op)
    requires op.Complete? && RecordsRight(t) && OnePlace(t)
    requires s == if op.fetch.Some? then Dequeue(t, op.now, op.fetch.value - op.now, op.publish) else t
    ensures RecordsRight(s)
  {
    if op.fetch.Some? {
      DequeueRecords(t, op.now, op.fetch.value - op.now, op.publish);
    }
  }

  lemma ReleaseStays(s: State, t: State, c: Id)
    requires c in s.vault && t.vault == s.vault
    requires t.prioritized == Release(s, c).prioritized && t.waiting == Release(s, c).waiting
    requires t.active == s.active && t.completed == s.completed && t.failed == s.failed && t.dlq == s.dlq
    requires forall x :: x != c ==> (x in t.delayed ==> x in s.delayed) && (x in t.blocked ==> x in s.blocked)
    ensures OthersStay(s, t, c) && WhereQueued(t, c)
  {
  }

  lemma UncountStays(s: State, p: Id, c: Id)
    ensures AllStay(s, Uncount(s, p, c))
  {
  }

  lemma UnparkRecords(s: State, c: Id)
    requires RecordsRight(s) && OnePlace(s) && c in s.blocked
    ensures RecordsRight(Unpark(s, c))
  {
    PlaceAtMostOnce(s, c);
    UnparkPlaces(s, c);
    assert Fits(s, c);
    ReleaseStays(s, Unpark(s, c), c);
    QueuedRecords(s, Unpark(s, c), c);
  }

  lemma UnblockOneRecords(s: State, p: Id, c: Id)
    requires RecordsRight(s) && OnePlace(s)
    ensures RecordsRight(UnblockOne(s, p, c))
  {
    var u := Uncount(s, p, c);
    UncountStays(s, p, c);
    NoneMoved(s, u);
    if Spent(s, c) && c in s.blocked {
      PlacesFrame(s, u);
      UnparkRecords(u, c);
    }
  }

  lemma {:induction false} UnblockRecords(s: State, p: Id, order: seq<Id>)
    requires RecordsRight(s) && OnePlace(s)
    ensures RecordsRight(UnblockAll(s, p, order))
    decreases |order|
  {
    if order == [] {
    } else {
      UnblockOneRecords(s, p, order[0]);
      UnblockOnePlaces(s, p, order[0]);
      UnblockRecords(UnblockOne(s, p, order[0]), p, order[1..]);
    }
  }

  lemma ClosingRecords(s: State, t: State, op: Op)
    requires op.Complete? && RecordsRight(s) && OnePlace(s) && op.id in s.active && t == Closing(s, op)
    ensures RecordsRight(t)
  {
    PlaceAtMostOnce(s, op.id);
    CompletedRecords(s, op.id, Outcome(true, op.value, op.progress), op.now, op.keep, op.publish);
  }

  lemma FinishedRecords(s: State, m: State, op: Op)
    requires op.Complete? && RecordsRight(s) && OnePlace(s) && op.id in s.active && m == Finished(s, op)
    ensures RecordsRight(m) && OnePlace(m)
  {
    ClosingRecords(s, Closing(s, op), op);
    ClosingPlaces(s, op);
    ThenTakenRecords(m, Closing(s, op), op);
    FinishedPlaces(s, op);
  }

  lemma SettleRecords(s: State, op: Op)
    requires op.Complete? && RecordsRight(s) && OnePlace(s) && op.id in s.active
    ensures RecordsRight(Settle(s, op))
  {
    FinishedRecords(s, Finished(s, op), op);
    UnblockRecords(Finished(s, op), op.id, op.order);
  }

  // ---- Dying ----

  lemma CopyOfDead(s: State, c: State, m: State, id: Id, reason: string, now: int, gone: set<Id>, events: seq<Event>)
    requires id in s.vault && c == Close(s, id, Outcome(false, reason, ""), now)
    requires m == Erase(c, false, gone).(events := events)
                    .(dlq := Erase(c, false, gone).dlq[id := s.vault[id].(status := Dead, failedReason := Some(reason))])
    ensures OthersStay(s, m, id)
    ensures id in m.vault ==>
              id in m.failed && id in m.dlq && m.vault[id].status == Dead && SameButFinish(m.dlq[id], m.vault[id])
  {
  }

  lemma FailedCopyRecords(s: State, id: Id, reason: string, now: int, keep: int, publish: bool)
    requires RecordsRight(s) && OnePlace(s) && id in s.active && id in s.vault
    ensures RecordsRight(FailedCopy(s, id, reason, now, keep, publish))
  {
    var o := Outcome(false, reason, "");
    var m := FailedCopy(s, id, reason, now, keep, publish);
    FailedCopyPlaces(s, id, reason, now, keep, publish);
    CopyOfDead(s, Close(s, id, o, now), m, id, reason, now, EvictedNow(s, id, o, now, keep), Published(s, publish, FailedEvent, id));
    if id in m.vault {
      PlacedRecords(s, m, id);
    } else {
      OneMoved(s, m, id);
    }
  }

  lemma BuryParentRecords(s: State, p: Id, now: int)
    requires RecordsRight(s) && OnePlace(s) && (p in s.vault ==> p in s.failed)
    ensures RecordsRight(BuryParent(s, p, now))
  {
    BuryParentKeepsPlaceIff(s, p, now);
    if p in s.vault {
      BuryStays(s, BuryParent(s, p, now), p, now);
      PlacedRecords(s, BuryParent(s, p, now), p);
    }
  }

  lemma BuryStays(s: State, t: State, p: Id, now: int)
    requires p in s.vault && t == BuryParent(s, p, now)
    ensures OthersStay(s, t, p) && p in t.vault && p in t.failed && p in t.dlq
    ensures t.vault[p].status == Dead && SameButFinish(t.dlq[p], t.vault[p])
  {
  }

  lemma {:induction false} BuryParentsRecords(s: State, ps: seq<Id>, now: int)
    requires RecordsRight(s) && OnePlace(s) && CopiesRight(s) && Unparked(s, ps)
    ensures RecordsRight(BuryParents(s, ps, now))
    decreases |ps|
  {
    if ps == [] {
    } else {
      var t := BuryParent(s, ps[0], now);
      BuryParentRecords(s, ps[0], now);
      BuryParentQuiet(s, ps[0], now);
      BuryParentPlaces(s, ps[0], now);
      BuryParentUnparked(s, ps[0], ps, now);
      BuryParentsRecords(t, ps[1..], now);
    }
  }

  lemma KillRecords(w: System, id: Id, reason: string, now: int, keep: int, publish: bool)
    requires RecordsRight(w.s) && OnePlace(w.s) && DagRight(w) && id in w.s.active && id in w.s.vault
    requires w.s.vault[id].flow ==> MayBury(w.s, id, w.s.vault[id].parents)
    ensures RecordsRight(Kill(w.s, id, w.s.vault[id], reason, now, keep, publish))
  {
    var job, m := w.s.vault[id], FailedCopy(w.s, id, reason, now, keep, publish);
    FailedCopyRecords(w.s, id, reason, now, keep, publish);
    if job.flow {
      FailedCopyPlaces(w.s, id, reason, now, keep, publish);
      FailedFinalize(w.s, id, reason, now, keep, publish);
      FailedCopyUnparked(w, id, job.parents, reason, now, keep, publish);
      BuryParentsRecords(m, job.parents, now);
    }
  }

  lemma PostponeStays(s: State, t: State, id: Id, job: Job, at: int)
    requires t == Postpone(s, id, job, at)
    ensures OthersStay(s, t, id) && id in t.vault && id in t.delayed && t.vault[id].status == Retrying
  {
  }

  lemma PostponeRecords(s: State, id: Id, job: Job, at: int)
    requires RecordsRight(s) && OnePlace(s) && id in s.active
    ensures RecordsRight(Postpone(s, id, job, at))
  {
    PostponePlaces(s, id, job, at);
    PostponeStays(s, Postpone(s, id, job, at), id, job, at);
    PlacedRecords(s, Postpone(s, id, job, at), id);
  }

  lemma FailRecords(w: System, op: Op)
    requires RecordsRight(w.s) && OnePlace(w.s) && DagRight(w) && op.Fail? && Legal(w, op)
    ensures RecordsRight(Effect(w.s, op))
  {
    if Postpones(w.s, op.id, op.fatal) {
      PostponeRecords(w.s, op.id, w.s.vault[op.id], op.at);
    } else {
      KillRecords(w, op.id, op.reason, op.now, op.keep, op.publish);
    }
  }

  // ---- Sweeps and upkeep ----

  lemma PromoteOneRecords(s: State, id: Id)
    requires RecordsRight(s) && OnePlace(s) && id in s.delayed
    ensures RecordsRight(PromoteOne(s, id))
  {
    PlaceAtMostOnce(s, id);
    PromoteOnePlaces(s, id);
    assert Fits(s, id);
    ReleaseStays(s, PromoteOne(s, id), id);
    QueuedRecords(s, PromoteOne(s, id), id);
  }

  lemma {:induction false} PromoteAllRecords(s: State, ids: seq<Id>)
    requires RecordsRight(s) && OnePlace(s) && NoDup(ids) && forall x :: x in ids ==> x in s.delayed
    ensures RecordsRight(PromoteAll(s, ids))
    decreases |ids|
  {
    if ids == [] {
    } else {
      PromoteOneRecords(s, ids[0]);
      PromoteOnePlaces(s, ids[0]);
      PromoteAllRecords(PromoteOne(s, ids[0]), ids[1..]);
    }
  }

  lemma PromotedRecords(s: State, now: int)
    requires RecordsRight(s) && OnePlace(s)
    ensures RecordsRight(Promote(s, now))
  {
    ByScoreSorted(Between(s.delayed, 0, now));
    PromoteAllRecords(s, ByScore(Between(s.delayed, 0, now)));
  }

  lemma RequeueStays(s: State, t: State, id: Id)
    requires id in s.vault && t == Requeue(s, id)
    ensures OthersStay(s, t, id) && id in t.vault && t.vault[id].status == Waiting && WhereQueued(t, id)
  {
  }

  lemma DeadLetterStays(s: State, t: State, id: Id, now: int)
    requires id in s.vault && t == DeadLetter(s, id, now)
    ensures OthersStay(s, t, id) && id in t.vault && id in t.failed && id in t.dlq
    ensures t.vault[id].status == Dead && SameButFinish(t.dlq[id], t.vault[id])
  {
  }

  lemma RecoverOneRecords(s: State, id: Id, now: int)
    requires RecordsRight(s) && OnePlace(s) && id in s.active
    ensures RecordsRight(RecoverOne(s, id, now))
  {
    PlaceAtMostOnce(s, id);
    RecoverOnePlaces(s, id, now);
    if s.vault[id].attempts >= s.vault[id].maxretries {
      DeadLetterStays(s, DeadLetter(s, id, now), id, now);
      PlacedRecords(s, DeadLetter(s, id, now), id);
    } else {
      RequeueStays(s, Requeue(s, id), id);
      QueuedRecords(s, Requeue(s, id), id);
    }
  }

  lemma OthersStillActive(s: State, ids: seq<Id>, now: int)
    requires NoDup(ids) && ids != [] && forall x :: x in ids ==> x in s.active
    ensures NoDup(ids[1..]) && forall x :: x in ids[1..] ==> x in RecoverOne(s, ids[0], now).active
  {
    RecoverOneHolds(s, ids[0], now);
  }

  lemma {:induction false} RecoverAllRecords(s: State, ids: seq<Id>, now: int)
    requires RecordsRight(s) && OnePlace(s) && NoDup(ids) && forall x :: x in ids ==> x in s.active
    ensures RecordsRight(RecoverAll(s, ids, now))
    decreases |ids|
  {
    if ids == [] {
    } else {
      RecoverOneRecords(s, ids[0], now);
      RecoverOnePlaces(s, ids[0], now);
      OthersStillActive(s, ids, now);
      RecoverAllRecords(RecoverOne(s, ids[0], now), ids[1..], now);
    }
  }

  lemma SweptRecords(s: State, now: int)
    requires RecordsRight(s) && OnePlace(s)
    ensures RecordsRight(Recover(s, now))
  {
    var ids := ByScore(Between(s.active, 0, now));
    ByScoreSorted(Between(s.active, 0, now));
    RecoverAllRecords(s, ids, now);
    TokensStay(RecoverAll(s, ids, now), Recover(s, now));
    NoneMoved(RecoverAll(s, ids, now), Recover(s, now));
  }

  lemma BuryActiveStays(s: State, t: State, id: Id, now: int)
    requires id in s.vault && t == BuryActive(s, id, now)
    ensures OthersStay(s, t, id) && id in t.vault && id in t.failed && id in t.dlq
    ensures t.vault[id].status == Dead && SameButFinish(t.dlq[id], t.vault[id])
  {
  }

  lemma ZombieRecords(s: State, id: Id, now: int, timeout: int)
    requires RecordsRight(s) && OnePlace(s)
    ensures RecordsRight(BuryZombie(s, id, now, timeout))
  {
    PlaceAtMostOnce(s, id);
    if id in s.active && s.active[id] <= now && now - ActiveSince(s.vault[id]) > timeout {
      ZombiePlaces(s, id, now, timeout);
      BuryActiveStays(s, BuryActive(s, id, now), id, now);
      PlacedRecords(s, BuryActive(s, id, now), id);
    }
  }

  lemma RenewStays(s: State, t: State, id: Id, now: int, lease: int)
    requires id in s.vault && t == Renew(s, id, now, lease)
    ensures OthersStay(s, t, id) && id in t.vault && id in t.active && t.vault[id].status == s.vault[id].status
  {
  }

  lemma RenewRecords(s: State, id: Id, now: int, lease: int)
    requires RecordsRight(s) && OnePlace(s) && id in s.active && id in s.vault
    ensures RecordsRight(Renew(s, id, now, lease))
  {
    RenewPlaces(s, id, now, lease);
    assert Fits(s, id);
    RenewStays(s, Renew(s, id, now, lease), id, now, lease);
    PlacedRecords(s, Renew(s, id, now, lease), id);
  }

  lemma RetryStays(s: State, t: State, id: Id, job: Job)
    requires t == RetryJob(s, id, job)
    ensures OthersStay(s, t, id) && id in t.vault && t.vault[id] == job && WhereQueued(t, id)
  {
    forall x
      ensures x in Purge(s.waiting, id) ==> x in s.waiting
    {
      assert x in Purge(s.waiting, id) <==> multiset(Purge(s.waiting, id))[x] > 0;
      assert x in s.waiting <==> multiset(s.waiting)[x] > 0;
    }
  }

  lemma RetryRecords(s: State, id: Id)
    requires RecordsRight(s) && OnePlace(s) && id in s.dlq && (id in s.vault ==> id in s.failed)
    ensures RecordsRight(RetryJob(s, id, Revived(s, id)))
  {
    RetryKeepsPlaceIff(s, id, Revived(s, id));
    RetryStays(s, RetryJob(s, id, Revived(s, id)), id, Revived(s, id));
    QueuedRecords(s, RetryJob(s, id, Revived(s, id)), id);
  }

  // ---- Removing ----

  lemma DrainStays(s: State)
    ensures AllStay(s, Drain(s))
  {
  }

  lemma GoneStays(s: State, t: State, gone: set<Id>)
    requires Gone(s, t, gone)
    ensures AllStay(s, t)
  {
    forall x
      ensures x in Keep(s.waiting, gone) ==> x in s.waiting
    {
      assert x in Keep(s.waiting, gone) <==> multiset(Keep(s.waiting, gone))[x] > 0;
      assert x in s.waiting <==> multiset(s.waiting)[x] > 0;
    }
  }

  lemma CutStays(s: State, ids: set<Id>)
    ensures AllStay(s, Cut(s, ids))
  {
  }

  lemma DeletionRecords(s: State, ids: seq<Id>)
    requires RecordsRight(s)
    ensures RecordsRight(Deletion(s, ids))
  {
    CutStays(s, Members(ids));
    NoneMoved(s, Cut(s, Members(ids)));
    DeleteAllGone(Cut(s, Members(ids)), ids);
    GoneStays(Cut(s, Members(ids)), Deletion(s, ids), Members(ids));
    NoneMoved(Cut(s, Members(ids)), Deletion(s, ids));
  }

  lemma CleanStays(s: State, onCompleted: bool, gone: set<Id>)
    ensures AllStay(s, CleanState(s, onCompleted, gone))
  {
  }

  lemma RemovalRecords(s: State, op: Op)
    requires RecordsRight(s) && (op.DrainAll? || op.Delete? || op.CleanUp?)
    ensures RecordsRight(Effect(s, op))
  {
    if op.DrainAll? {
      DrainStays(s);
      NoneMoved(s, Drain(s));
    } else if op.Delete? {
      DeletionRecords(s, op.ids);
    } else {
      CleanUpRecords(s, op);
    }
  }

  lemma CleanUpRecords(s: State, op: Op)
    requires RecordsRight(s) && op.CleanUp?
    ensures RecordsRight(Effect(s, op))
  {
    CleanStays(s, op.onCompleted, CleanedIds(s, op.onCompleted, op.cutoff, op.limit));
    NoneMoved(s, Effect(s, op));
  }

  // ---- Every operation, every run ----

  lemma AddingRecords(w: System, op: Op)
    requires RecordsRight(w.s) && OnePlace(w.s) && Adds(op) && Legal(w, op)
    ensures RecordsRight(Effect(w.s, op))
  {
    if op.Add? {
      AddRecords(w.s, op.id, op.job);
    } else if op.AddLater? {
      AddDelayedRecords(w.s, op.id, op.job, op.at);
    } else if op.Depend? {
      DependRecords(w.s, op.id, op.job);
    } else {
      AddBulkRecords(w.s, op.items);
    }
  }

  lemma TimedRecords(s: State, op: Op)
    requires RecordsRight(s) && OnePlace(s)
    requires op.Take? || op.TakeMany? || op.PromoteDue? || op.RecoverExpired? || op.SweepZombie?
    ensures RecordsRight(Effect(s, op))
  {
    if op.Take? {
      DequeueRecords(s, op.now, op.lock, op.publish);
    } else if op.TakeMany? {
      BatchRecords(s, op.n, op.lease);
    } else if op.PromoteDue? {
      PromotedRecords(s, op.now);
    } else if op.RecoverExpired? {
      SweptRecords(s, op.now);
    } else {
      ZombieRecords(s, op.id, op.now, op.timeout);
    }
  }

  lemma UpkeepRecords(w: System, op: Op)
    requires RecordsRight(w.s) && Right(w) && Legal(w, op)
    requires op.RenewLease? || op.RetryDead? || op.CheckUnblocked? || op.PushTokens?
    ensures RecordsRight(Effect(w.s, op))
  {
    if op.RenewLease? {
      PlaceAtMostOnce(w.s, op.id);
      RenewRecords(w.s, op.id, op.now, op.lease);
    } else if op.RetryDead? {
      if op.id in w.s.dlq {
        RetryRecords(w.s, op.id);
      }
    } else if op.CheckUnblocked? {
      PromoteIfUnblockedIsIdle(w.s, w.awaits, op.id, StoredPriority(w.s, op.id), StoredTimestamp(w.s, op.id));
    } else {
      TokensStay(w.s, Effect(w.s, op));
      NoneMoved(w.s, Effect(w.s, op));
    }
  }

  /** Every operation keeps every stored record fitting its place. */
  lemma StepKeepsRecords(w: System, op: Op)
    requires Right(w) && RecordsRight(w.s) && Legal(w, op)
    ensures RecordsRight(Effect(w.s, op))
  {
    if Adds(op) {
      AddingRecords(w, op);
    } else if op.Complete? {
      SettleRecords(w.s, op);
    } else if op.Fail? {
      FailRecords(w, op);
    } else if op.DrainAll? || op.Delete? || op.CleanUp? {
      RemovalRecords(w.s, op);
    } else if op.RenewLease? || op.RetryDead? || op.CheckUnblocked? || op.PushTokens? {
      UpkeepRecords(w, op);
    } else {
      TimedRecords(w.s, op);
    }
  }

  lemma {:induction false} RunKeepsRecords(w: System, ops: seq<Op>)
    requires Right(w) && RecordsRight(w.s) && AllLegal(w, ops)
    ensures Right(Run(w, ops)) && RecordsRight(Run(w, ops).s)
    decreases |ops|
  {
    if ops == [] {
    } else {
      StepKeepsRight(w, ops[0]);
      StepKeepsRecords(w, ops[0]);
      RunKeepsRecords(Apply(w, ops[0]), ops[1..]);
    }
  }

  /** After any legal run every stored record fits its place. */
  lemma EveryRunHasFittingRecords(ops: seq<Op>)
    requires AllLegal(START, ops)
    ensures RecordsRight(Run(START, ops).s)
  {
    StartIsRight();
    RunKeepsRecords(START, ops);
  }

  // ---- What the producer fixed ----

  lemma RetryKeepsPayload(s: State, id: Id)
    requires RecordsRight(s) && id in s.dlq && id in s.vault && id in s.failed
    ensures SamePayload(s.vault[id], Revived(s, id))
  {
    assert Fits(s, id);
  }

  /** Priority, timestamp, maxretries, parents and flow flag of a job never change while
      it is stored, not even through the DLQ and back. */
  lemma PayloadNeverChanges(w: System, op: Op, x: Id)
    requires Right(w) && RecordsRight(w.s) && Legal(w, op)
    requires x in w.s.vault && x in Effect(w.s, op).vault
    ensures SamePayload(w.s.vault[x], Effect(w.s, op).vault[x])
  {
    if op.RetryDead? {
      RetryLeavesPayload(w.s, op, x);
    } else {
      StepAdvances(w, op);
      ClimbsKeepPayload(w.s, Effect(w.s, op), x);
    }
  }

  lemma RetryLeavesPayload(s: State, op: Op, x: Id)
    requires RecordsRight(s) && Started(s) && op.RetryDead? && (op.id in s.vault ==> op.id in s.failed) && x in s.vault
    ensures x in Effect(s, op).vault && SamePayload(s.vault[x], Effect(s, op).vault[x])
  {
    if op.id in s.dlq {
      RetryStarts(s, op.id);
      if x == op.id {
        RetryKeepsPayload(s, x);
      }
    }
  }

  lemma ClimbsKeepPayload(s: State, t: State, x: Id)
    requires AllClimb(s, t) && x in s.vault && x in t.vault
    ensures SamePayload(s.vault[x], t.vault[x])
  {
    assert Climbs(s.vault[x], t.vault[x]);
  }
}

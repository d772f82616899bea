/**
 Where a job sits. The queue has seven places; a stored job should be in exactly
 one of them, once, and only stored jobs should be in any.
 */
module Placement {
  import opened Redis
  import opened Model

  function B(b: bool): nat { if b then 1 else 0 }

  /** How many times an id occurs in the seven places together. */
  ghost function Places(s: State, id: Id): nat
  {
    multiset(s.waiting)[id] + B(id in s.prioritized) + B(id in s.active) + B(id in s.delayed)
    + B(id in s.blocked) + B(id in s.completed) + B(id in s.failed)
  }

  ghost predicate OnePlace(s: State)
  {
    forall id :: Places(s, id) == B(id in s.vault)
  }

  lemma PlaceAtMostOnce(s: State, id: Id)
    requires OnePlace(s)
    ensures Places(s, id) == B(id in s.vault)
  {
  }

  lemma EnqueuePlaces(s: State, id: Id, priority: nat, timestamp: int, x: Id)
    requires id !in s.prioritized
    ensures Places(Enqueue(s, id, priority, timestamp), x) == Places(s, x) + B(x == id)
  {
  }

  /** A new id takes one place, and so does its vault entry. */
  lemma StorePlaces(s: State, id: Id, job: Job)
    requires OnePlace(s) && Places(s, id) == 0
    ensures OnePlace(StoreRunnable(s, id, job))
  {
    forall x
      ensures Places(StoreRunnable(s, id, job), x) == B(x in s.vault[id := job])
    {
      PlaceAtMostOnce(s, x);
      EnqueuePlaces(s, id, job.priority, job.timestamp, x);
    }
  }

  lemma AddPlaces(s: State, id: Id, job: Job)
    requires OnePlace(s)
    ensures OnePlace(AddJob(s, id, job))
  {
    PlaceAtMostOnce(s, id);
    if id !in s.vault {
      StorePlaces(s, id, job);
    }
  }

  lemma ParkPlaces(s: State, id: Id, job: Job, pending: nat)
    requires OnePlace(s) && Places(s, id) == 0
    ensures OnePlace(Park(s, id, job, pending))
  {
    forall x
      ensures Places(Park(s, id, job, pending), x) == B(x in s.vault[id := job])
    {
      PlaceAtMostOnce(s, x);
    }
  }

  /** Only the seven places and the vault matter to OnePlace. */
  lemma PlacesFrame(s: State, t: State)
    requires OnePlace(s)
    requires t.vault.Keys == s.vault.Keys && t.waiting == s.waiting && t.prioritized.Keys == s.prioritized.Keys
    requires t.active.Keys == s.active.Keys && t.delayed.Keys == s.delayed.Keys && t.blocked == s.blocked
    requires t.completed.Keys == s.completed.Keys && t.failed.Keys == s.failed.Keys
    ensures OnePlace(t)
  {
    forall x
      ensures Places(t, x) == B(x in t.vault)
    {
      PlaceAtMostOnce(s, x);
      assert x in t.vault.Keys <==> x in s.vault.Keys;
      assert x in t.prioritized.Keys <==> x in s.prioritized.Keys;
      assert x in t.active.Keys <==> x in s.active.Keys;
      assert x in t.delayed.Keys <==> x in s.delayed.Keys;
      assert x in t.completed.Keys <==> x in s.completed.Keys;
      assert x in t.failed.Keys <==> x in s.failed.Keys;
    }
  }

  lemma LinkPlaces(s: State, id: Id, ps: seq<Id>)
    requires OnePlace(s)
    ensures OnePlace(Link(s, id, ps))
  {
    PlacesFrame(s, Link(s, id, ps));
  }

  lemma AddDependentPlaces(s: State, id: Id, job: Job)
    requires OnePlace(s)
    ensures OnePlace(AddDependent(s, id, job))
  {
    var pending := CountPending(s, job.parents);
    if id !in s.vault {
      assert Places(s, id) == 0 by {
        PlaceAtMostOnce(s, id);
      }
      if pending == 0 {
        StorePlaces(s, id, job);
        LinkPlaces(StoreRunnable(s, id, job), id, job.parents);
      } else {
        ParkPlaces(s, id, job, pending);
        LinkPlaces(Park(s, id, job, pending), id, job.parents);
      }
    }
  }

  lemma DelayPlaces(s: State, id: Id, job: Job, at: int)
    requires OnePlace(s) && Places(s, id) == 0
    ensures OnePlace(s.(vault := s.vault[id := job], delayed := s.delayed[id := at]))
  {
    var t := s.(vault := s.vault[id := job], delayed := s.delayed[id := at]);
    forall x
      ensures Places(t, x) == B(x in t.vault)
    {
      PlaceAtMostOnce(s, x);
    }
  }

  lemma AddDelayedPlaces(s: State, id: Id, job: Job, at: int)
    requires OnePlace(s)
    ensures OnePlace(AddDelayed(s, id, job, at))
  {
    PlaceAtMostOnce(s, id);
    if id !in s.vault {
      DelayPlaces(s, id, job, at);
      PlacesFrame(s.(vault := s.vault[id := job], delayed := s.delayed[id := at]), AddDelayed(s, id, job, at));
    }
  }

  lemma AddBulkOnePlaces(s: State, i: BulkItem)
    requires OnePlace(s)
    ensures OnePlace(AddBulkOne(s, i))
  {
    PlaceAtMostOnce(s, i.id);
    if i.id !in s.vault {
      if i.later {
        DelayPlaces(s, i.id, i.job, i.job.timestamp);
      } else {
        StorePlaces(s, i.id, i.job);
        PlacesFrame(StoreRunnable(s, i.id, i.job), AddBulkOne(s, i));
      }
    }
  }

  lemma {:induction false} AddBulkPlaces(s: State, items: seq<BulkItem>)
    requires OnePlace(s)
    ensures OnePlace(AddBulk(s, items))
    decreases |items|
  {
    if items == [] {
    } else {
      AddBulkOnePlaces(s, items[0]);
      AddBulkPlaces(AddBulkOne(s, items[0]), items[1..]);
    }
  }

  lemma PopPlaces(s: State, x: Id)
    ensures Places(Pop(s), x) + B(Popped(s) == Some(x)) == Places(s, x)
  {
    if s.prioritized == map[] && s.waiting != [] {
      assert s.waiting == [s.waiting[0]] + s.waiting[1..];
    }
  }

  /** Every queued id has a stored job, so dequeue never loses one. */
  lemma PoppedIsStored(s: State)
    requires OnePlace(s)
    ensures Next(s) == Popped(s)
  {
    if Popped(s).Some? {
      PlaceAtMostOnce(s, Popped(s).value);
    }
  }

  /** t is s with one queued id taken out: picking that id puts it in active. */
  ghost predicate TookOut(s: State, t: State, id: Id)
  {
    t.vault == s.vault && forall x :: Places(t, x) + B(x == id) == Places(s, x)
  }

  lemma PickPlaces(s: State, t: State, id: Id, stamp: int, lease: int)
    requires OnePlace(s) && id in t.vault && TookOut(s, t, id)
    ensures OnePlace(Pick(t, id, stamp, lease))
  {
    forall x
      ensures Places(Pick(t, id, stamp, lease), x) == B(x in t.vault)
    {
      PlaceAtMostOnce(s, x);
      PlaceAtMostOnce(s, id);
      assert Places(t, x) + B(x == id) == Places(s, x);
      assert Places(t, id) + B(true) == Places(s, id);
    }
  }

  lemma PopTakesOut(s: State)
    requires Popped(s).Some?
    ensures TookOut(s, Pop(s), Popped(s).value)
  {
    forall x {
      PopPlaces(s, x);
    }
  }

  lemma EventsPlaces(s: State, events: seq<Event>)
    requires OnePlace(s)
    ensures OnePlace(s.(events := events))
  {
    PlacesFrame(s, s.(events := events));
  }

  lemma DequeuePlaces(s: State, now: int, lock: int, publish: bool)
    requires OnePlace(s)
    ensures OnePlace(Dequeue(s, now, lock, publish))
  {
    PoppedIsStored(s);
    if Popped(s) == None {
      assert Dequeue(s, now, lock, publish) == s;
    } else {
      DequeueSomePlaces(s, Popped(s).value, now, lock, publish);
    }
  }

  lemma DequeueSomePlaces(s: State, id: Id, now: int, lock: int, publish: bool)
    requires OnePlace(s) && Next(s) == Some(id)
    ensures OnePlace(Dequeue(s, now, lock, publish))
  {
    var t := Pop(s);
    PopTakesOut(s);
    PickPlaces(s, t, id, now, now + lock);
    EventsPlaces(Pick(t, id, now, now + lock), Published(s, publish, ActiveEvent, id));
  }

  lemma DropMinTakesOut(s: State)
    requires s.prioritized != map[]
    ensures TookOut(s, DropMin(s), Least(s.prioritized))
  {
  }

  lemma PickMinPlaces(s: State, lease: int)
    requires OnePlace(s) && s.prioritized != map[]
    ensures Least(s.prioritized) in s.vault && OnePlace(PickMin(s, lease))
    ensures |PickMin(s, lease).prioritized| < |s.prioritized|
  {
    PlaceAtMostOnce(s, Least(s.prioritized));
    LessOne(s.prioritized, Least(s.prioritized));
    DropMinTakesOut(s);
    PickPlaces(s, DropMin(s), Least(s.prioritized), lease, lease);
  }

  lemma {:induction false} BatchPrioritizedPlaces(b: Batch, n: nat, lease: int)
    requires OnePlace(b.s)
    ensures OnePlace(BatchPrioritized(b, n, lease).s)
    decreases |b.s.prioritized|
  {
    if |b.taken| >= n || b.s.prioritized == map[] {
    } else {
      PickMinPlaces(b.s, lease);
      BatchPrioritizedPlaces(PopMin(b, lease), n, lease);
    }
  }

  lemma PickWaitingPlaces(s: State, id: Id, lease: int)
    requires OnePlace(s) && id in s.waiting && id in s.vault
    ensures OnePlace(PickWaiting(s, id, lease))
  {
    var t := s.(waiting := DropFirst(s.waiting, id));
    DropTakesOut(s, id);
    PickPlaces(s, t, id, lease, lease);
    PlacesFrame(Pick(t, id, lease, lease), PickWaiting(s, id, lease));
  }

  lemma DropTakesOut(s: State, id: Id)
    requires id in s.waiting
    ensures TookOut(s, s.(waiting := DropFirst(s.waiting, id)), id)
  {
    assert multiset(s.waiting)[id] > 0;
  }

  lemma DropKeepsOthers(w: seq<Id>, id: Id, x: Id)
    requires x in w && x != id
    ensures x in DropFirst(w, id)
  {
    assert multiset(w)[x] > 0;
    assert multiset(DropFirst(w, id))[x] > 0;
  }

  lemma WaitingIsStored(s: State, id: Id)
    requires OnePlace(s) && id in s.waiting
    ensures id in s.vault
  {
    assert multiset(s.waiting)[id] > 0;
    PlaceAtMostOnce(s, id);
  }

  lemma {:induction false} BatchWaitingPlaces(b: Batch, ids: seq<Id>, lease: int)
    requires OnePlace(b.s) && NoDup(ids) && forall x :: x in ids ==> x in b.s.waiting
    ensures OnePlace(BatchWaiting(b, ids, lease).s)
    decreases |ids|
  {
    if ids == [] {
    } else {
      var id := ids[0];
      WaitingIsStored(b.s, id);
      PickWaitingPlaces(b.s, id, lease);
      forall x | x in ids[1..]
        ensures x in DropFirst(b.s.waiting, id)
      {
        DropKeepsOthers(b.s.waiting, id, x);
      }
      BatchWaitingPlaces(TakeWaiting(b, id, lease), ids[1..], lease);
    }
  }

  lemma WaitingHasNoDup(s: State, n: nat)
    requires OnePlace(s)
    ensures NoDup(Head(s.waiting, n))
  {
    var w := s.waiting;
    forall i, j | 0 <= i < j < |w|
      ensures w[i] != w[j]
    {
      if w[i] == w[j] {
        assert w == w[..i] + [w[i]] + w[i + 1..j] + [w[j]] + w[j + 1..];
        PlaceAtMostOnce(s, w[i]);
      }
    }
  }

  lemma BatchDequeuePlaces(s: State, n: nat, lease: int)
    requires OnePlace(s)
    ensures OnePlace(BatchDequeue(s, n, lease).s)
  {
    BatchPrioritizedPlaces(Batch(s, []), n, lease);
    var b := BatchPrioritized(Batch(s, []), n, lease);
    if |b.taken| < n {
      WaitingHasNoDup(b.s, n - |b.taken|);
    }
    BatchWaitingPlaces(b, StillWanted(b, n), lease);
  }

  // ---- finalizeJob ----

  lemma ClosePlaces(s: State, id: Id, o: Outcome, now: int, x: Id)
    ensures var into := if o.completed then s.completed else s.failed;
            Places(Close(s, id, o, now), x) + B(x == id && id in s.active) + B(x == id && id in into)
            == Places(s, x) + B(x == id)
  {
  }

  lemma ErasePlaces(s: State, onCompleted: bool, gone: set<Id>, x: Id)
    requires gone <= (if onCompleted then s.completed.Keys else s.failed.Keys)
    ensures Places(Erase(s, onCompleted, gone), x) + B(x in gone) == Places(s, x)
  {
  }

  lemma EvictedIsInside(s: State, z: ZSet, keep: int)
    ensures Evicted(s, z, keep) <= z.Keys
  {
    forall x | x in Evicted(s, z, keep)
      ensures x in z
    {
      assert x in ByScore(z);
    }
  }

  /** t is s with id moved out of active into a set it may already be in, and the
      ids in `gone` deleted from both that set and the vault. */
  ghost predicate Moved(s: State, t: State, id: Id, already: bool, gone: set<Id>)
  {
    forall x ::
      && Places(t, x) + B(x in gone) + B(x == id && id in s.active) + B(x == id && already) == Places(s, x) + B(x == id)
      && (x in t.vault <==> x in s.vault && x !in gone)
  }

  lemma MovedAt(s: State, t: State, id: Id, already: bool, gone: set<Id>, x: Id)
    requires Moved(s, t, id, already, gone)
    ensures Places(t, x) + B(x in gone) + B(x == id && id in s.active) + B(x == id && already) == Places(s, x) + B(x == id)
    ensures x in t.vault <==> x in s.vault && x !in gone
  {
  }

  lemma MovedKeepsPlaceIff(s: State, t: State, id: Id, already: bool, gone: set<Id>)
    requires OnePlace(s) && Moved(s, t, id, already, gone) && B(id in s.active) + B(already) <= Places(s, id)
    ensures OnePlace(t) <==> if id in s.vault then id in s.active || already else id in gone
  {
    PlaceAtMostOnce(s, id);
    MovedAt(s, t, id, already, gone, id);
    if OnePlace(t) {
      PlaceAtMostOnce(t, id);
    } else {
      var x :| Places(t, x) != B(x in t.vault);
      PlaceAtMostOnce(s, x);
      MovedAt(s, t, id, already, gone, x);
    }
  }

  predicate AlreadySettled(s: State, id: Id, o: Outcome)
  {
    id in if o.completed then s.completed else s.failed
  }

  function EvictedNow(s: State, id: Id, o: Outcome, now: int, keep: int): set<Id>
  {
    var s1 := Close(s, id, o, now);
    Evicted(s1, if o.completed then s1.completed else s1.failed, keep)
  }

  ghost predicate Lost(s: State, t: State, gone: set<Id>)
  {
    forall x :: Places(t, x) + B(x in gone) == Places(s, x) && (x in t.vault <==> x in s.vault && x !in gone)
  }

  lemma LostAt(s: State, t: State, gone: set<Id>, x: Id)
    requires Lost(s, t, gone)
    ensures Places(t, x) + B(x in gone) == Places(s, x) && (x in t.vault <==> x in s.vault && x !in gone)
  {
  }

  lemma CloseMoves(s: State, id: Id, o: Outcome, now: int)
    ensures Moved(s, Close(s, id, o, now), id, AlreadySettled(s, id, o), {})
    ensures B(id in s.active) + B(AlreadySettled(s, id, o)) <= Places(s, id)
  {
    forall x
      ensures Places(Close(s, id, o, now), x) + B(x == id && id in s.active) + B(x == id && AlreadySettled(s, id, o))
           == Places(s, x) + B(x == id)
      ensures x in Close(s, id, o, now).vault <==> x in s.vault
    {
      ClosePlaces(s, id, o, now, x);
    }
  }

  lemma TrimLoses(s: State, onCompleted: bool, keep: int, events: seq<Event>)
    ensures Lost(s, Trim(s, onCompleted, keep).(events := events),
                 Evicted(s, if onCompleted then s.completed else s.failed, keep))
  {
    var z := if onCompleted then s.completed else s.failed;
    EvictedIsInside(s, z, keep);
    ErasedIsLost(s, onCompleted, Evicted(s, z, keep), events);
  }

  lemma ErasedIsLost(s: State, onCompleted: bool, gone: set<Id>, events: seq<Event>)
    requires gone <= (if onCompleted then s.completed.Keys else s.failed.Keys)
    ensures Lost(s, Erase(s, onCompleted, gone).(events := events), gone)
  {
    forall x
      ensures Places(Erase(s, onCompleted, gone).(events := events), x) + B(x in gone) == Places(s, x)
    {
      ErasePlaces(s, onCompleted, gone, x);
    }
  }

  lemma MovedThenLost(s: State, t: State, u: State, id: Id, already: bool, gone: set<Id>)
    requires Moved(s, t, id, already, {}) && Lost(t, u, gone)
    ensures Moved(s, u, id, already, gone)
  {
    forall x
      ensures Places(u, x) + B(x in gone) + B(x == id && id in s.active) + B(x == id && already) == Places(s, x) + B(x == id)
      ensures x in u.vault <==> x in s.vault && x !in gone
    {
      MovedAt(s, t, id, already, {}, x);
      LostAt(t, u, gone, x);
    }
  }

  lemma FinalizeMoves(s: State, id: Id, o: Outcome, now: int, keep: int, publish: bool)
    ensures Moved(s, Finalize(s, id, o, now, keep, publish), id, AlreadySettled(s, id, o), EvictedNow(s, id, o, now, keep))
    ensures B(id in s.active) + B(AlreadySettled(s, id, o)) <= Places(s, id)
  {
    var s1 := Close(s, id, o, now);
    CloseMoves(s, id, o, now);
    TrimLoses(s1, o.completed, keep, Published(s, publish, if o.completed then CompletedEvent else FailedEvent, id));
    MovedThenLost(s, s1, Finalize(s, id, o, now, keep, publish), id, AlreadySettled(s, id, o), EvictedNow(s, id, o, now, keep));
  }

  /** The id is where finalizeJob expects it: leased, or already settled that way. */
  predicate MaySettle(s: State, id: Id, o: Outcome)
  {
    id in s.active || AlreadySettled(s, id, o)
  }

  lemma FinalizeKeepsPlace(s: State, id: Id, o: Outcome, now: int, keep: int, publish: bool)
    requires OnePlace(s) && id in s.vault && MaySettle(s, id, o)
    ensures OnePlace(Finalize(s, id, o, now, keep, publish))
  {
    FinalizeKeepsPlaceIff(s, id, o, now, keep, publish);
  }

  /** finalizeJob checks no lease. It keeps every job in one place exactly when the
      job still was active or had already been put where it is put now, or, for an
      id without a stored job, when retention removes that id at once. */
  lemma FinalizeKeepsPlaceIff(s: State, id: Id, o: Outcome, now: int, keep: int, publish: bool)
    requires OnePlace(s)
    ensures OnePlace(Finalize(s, id, o, now, keep, publish))
       <==> if id in s.vault then MaySettle(s, id, o) else id in EvictedNow(s, id, o, now, keep)
  {
    FinalizeMoves(s, id, o, now, keep, publish);
    MovedKeepsPlaceIff(s, Finalize(s, id, o, now, keep, publish), id, AlreadySettled(s, id, o), EvictedNow(s, id, o, now, keep));
  }

  // ---- unblock ----

  lemma UnparkPlaces(s: State, c: Id)
    requires OnePlace(s) && c in s.blocked
    ensures OnePlace(Unpark(s, c))
  {
    forall x
      ensures Places(Unpark(s, c), x) == B(x in s.vault)
    {
      PlaceAtMostOnce(s, x);
      PlaceAtMostOnce(s, c);
      EnqueuePlaces(s, c, StoredPriority(s, c), StoredTimestamp(s, c), x);
    }
  }

  lemma UnblockOnePlaces(s: State, p: Id, c: Id)
    requires OnePlace(s)
    ensures OnePlace(UnblockOne(s, p, c))
  {
    PlacesFrame(s, Uncount(s, p, c));
    if Spent(s, c) && c in s.blocked {
      UnparkPlaces(Uncount(s, p, c), c);
    }
  }

  lemma {:induction false} UnblockAllPlaces(s: State, p: Id, order: seq<Id>)
    requires OnePlace(s)
    ensures OnePlace(UnblockAll(s, p, order))
    decreases |order|
  {
    if order == [] {
    } else {
      UnblockOnePlaces(s, p, order[0]);
      UnblockAllPlaces(UnblockOne(s, p, order[0]), p, order[1..]);
    }
  }

  // ---- promote, recoverStalled ----

  lemma PromoteOnePlaces(s: State, id: Id)
    requires OnePlace(s) && id in s.delayed
    ensures OnePlace(PromoteOne(s, id))
  {
    forall x
      ensures Places(PromoteOne(s, id), x) == B(x in s.vault)
    {
      PlaceAtMostOnce(s, x);
      PlaceAtMostOnce(s, id);
      EnqueuePlaces(s, id, StoredPriority(s, id), StoredTimestamp(s, id), x);
    }
  }

  lemma {:induction false} PromoteAllPlaces(s: State, ids: seq<Id>)
    requires OnePlace(s) && NoDup(ids) && forall x :: x in ids ==> x in s.delayed
    ensures OnePlace(PromoteAll(s, ids))
    decreases |ids|
  {
    if ids == [] {
    } else {
      PromoteOnePlaces(s, ids[0]);
      PromoteAllPlaces(PromoteOne(s, ids[0]), ids[1..]);
    }
  }

  lemma PromotePlaces(s: State, now: int)
    requires OnePlace(s)
    ensures OnePlace(Promote(s, now))
  {
    var due := Between(s.delayed, 0, now);
    ByScoreSorted(due);
    PromoteAllPlaces(s, ByScore(due));
  }

  lemma DeadLetterPlaces(s: State, id: Id, now: int)
    requires OnePlace(s) && id in s.active && id in s.vault
    ensures OnePlace(DeadLetter(s, id, now))
  {
    forall x
      ensures Places(DeadLetter(s, id, now), x) == B(x in s.vault)
    {
      PlaceAtMostOnce(s, x);
      PlaceAtMostOnce(s, id);
    }
  }

  lemma RequeuePlaces(s: State, id: Id)
    requires OnePlace(s) && id in s.active && id in s.vault
    ensures OnePlace(Requeue(s, id))
  {
    forall x
      ensures Places(Requeue(s, id), x) == B(x in s.vault)
    {
      PlaceAtMostOnce(s, x);
      PlaceAtMostOnce(s, id);
      EnqueuePlaces(s, id, StoredPriority(s, id), StoredTimestamp(s, id), x);
    }
  }

  lemma RecoverOnePlaces(s: State, id: Id, now: int)
    requires OnePlace(s) && id in s.active
    ensures OnePlace(RecoverOne(s, id, now))
  {
    PlaceAtMostOnce(s, id);
    if s.vault[id].attempts >= s.vault[id].maxretries {
      DeadLetterPlaces(s, id, now);
    } else {
      RequeuePlaces(s, id);
    }
  }

  lemma {:induction false} RecoverAllPlaces(s: State, ids: seq<Id>, now: int)
    requires OnePlace(s) && NoDup(ids) && forall x :: x in ids ==> x in s.active
    ensures OnePlace(RecoverAll(s, ids, now))
    decreases |ids|
  {
    if ids == [] {
    } else {
      RecoverOnePlaces(s, ids[0], now);
      RecoverAllPlaces(RecoverOne(s, ids[0], now), ids[1..], now);
    }
  }

  lemma RecoverPlaces(s: State, now: int)
    requires OnePlace(s)
    ensures OnePlace(Recover(s, now))
  {
    var expired := Between(s.active, 0, now);
    ByScoreSorted(expired);
    RecoverAllPlaces(s, ByScore(expired), now);
    var t := RecoverAll(s, ByScore(expired), now);
    PlacesFrame(t, Heal(t));
  }

  // ---- retry, drain, and the worker's own writes ----

  lemma RetryPlaces(s: State, id: Id, job: Job, x: Id)
    ensures Places(RetryJob(s, id, job), x)
              + (if x != id then 0
                 else B(id in s.failed) + if job.priority > 0 then B(id in s.prioritized) else multiset(s.waiting)[id])
         == Places(s, x) + B(x == id)
  {
  }

  /** retry trusts the DLQ. It keeps every job in one place exactly when the id
      is not stored any more, is in failed, or is queued where retry would queue it. */
  lemma RetryKeepsPlaceIff(s: State, id: Id, job: Job)
    requires OnePlace(s)
    ensures OnePlace(RetryJob(s, id, job))
       <==> id !in s.vault || id in s.failed || id in (if job.priority > 0 then s.prioritized.Keys else set x | x in s.waiting)
  {
    var t := RetryJob(s, id, job);
    PlaceAtMostOnce(s, id);
    RetryPlaces(s, id, job, id);
    assert id in s.waiting <==> multiset(s.waiting)[id] > 0;
    if OnePlace(t) {
      PlaceAtMostOnce(t, id);
    } else {
      var x :| Places(t, x) != B(x in t.vault);
      PlaceAtMostOnce(s, x);
      RetryPlaces(s, id, job, x);
    }
  }

  lemma DrainPlaces(s: State)
    requires OnePlace(s)
    ensures OnePlace(Drain(s))
  {
    forall x
      ensures Places(Drain(s), x) == B(x in Drain(s).vault)
    {
      PlaceAtMostOnce(s, x);
      assert x in s.waiting <==> multiset(s.waiting)[x] > 0;
    }
  }

  /** handleFailure postpones without looking where the job is. It keeps every job in
      one place exactly when the job is gone, active, or delayed already. */
  lemma PostponeKeepsPlaceIff(s: State, id: Id, job: Job, at: int)
    requires OnePlace(s)
    ensures OnePlace(Postpone(s, id, job, at)) <==> id !in s.vault || id in s.active || id in s.delayed
  {
    var t := Postpone(s, id, job, at);
    PlaceAtMostOnce(s, id);
    PostponedAt(s, id, job, at, id);
    if OnePlace(t) {
      PlaceAtMostOnce(t, id);
    } else {
      var x :| Places(t, x) != B(x in t.vault);
      PlaceAtMostOnce(s, x);
      PostponedAt(s, id, job, at, x);
    }
  }

  lemma PostponedAt(s: State, id: Id, job: Job, at: int, x: Id)
    ensures Places(Postpone(s, id, job, at), x) + B(x == id && id in s.active) + B(x == id && id in s.delayed)
         == Places(s, x) + B(x == id)
  {
  }

  /** Renewal writes back without looking where the job is. It keeps every job in one
      place exactly when the job is gone, or still active. */
  lemma RenewKeepsPlaceIff(s: State, id: Id, job: Job, now: int, lease: int)
    requires OnePlace(s)
    ensures OnePlace(RenewCopy(s, id, job, now, lease)) <==> id !in s.vault || id in s.active
  {
    var t := RenewCopy(s, id, job, now, lease);
    PlaceAtMostOnce(s, id);
    RenewedAt(s, id, job, now, lease, id);
    if OnePlace(t) {
      PlaceAtMostOnce(t, id);
    } else {
      var x :| Places(t, x) != B(x in t.vault);
      PlaceAtMostOnce(s, x);
      RenewedAt(s, id, job, now, lease, x);
    }
  }

  lemma RenewedAt(s: State, id: Id, job: Job, now: int, lease: int, x: Id)
    ensures Places(RenewCopy(s, id, job, now, lease), x) + B(x == id && id in s.active) == Places(s, x) + B(x == id)
  {
  }

  lemma PostponePlaces(s: State, id: Id, job: Job, at: int)
    requires OnePlace(s) && id in s.active
    ensures OnePlace(Postpone(s, id, job, at))
  {
    PostponeKeepsPlaceIff(s, id, job, at);
  }

  lemma ZombiePlaces(s: State, id: Id, now: int, timeout: int)
    requires OnePlace(s)
    ensures OnePlace(BuryZombie(s, id, now, timeout))
  {
    if id in s.active && s.active[id] <= now {
      PlaceAtMostOnce(s, id);
      var t := BuryZombie(s, id, now, timeout);
      forall x
        ensures Places(t, x) == B(x in t.vault)
      {
        PlaceAtMostOnce(s, x);
      }
    }
  }

  /** The dead branch walks the jobs the dead job had waited for. Burying one
      keeps the places right exactly when it is not stored, or is parked or failed:
      a dependency that completed ends up both completed and failed. */
  lemma BuryParentKeepsPlaceIff(s: State, p: Id, now: int)
    requires OnePlace(s)
    ensures OnePlace(BuryParent(s, p, now)) <==> p !in s.vault || p in s.failed || p in s.blocked
  {
    var t := BuryParent(s, p, now);
    PlaceAtMostOnce(s, p);
    if OnePlace(t) {
      PlaceAtMostOnce(t, p);
    } else {
      var x :| Places(t, x) != B(x in t.vault);
      PlaceAtMostOnce(s, x);
    }
  }
}

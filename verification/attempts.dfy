/**
 The attempt counter. One operation can raise it by one, at the pickup that finds
 processedOn null, and nothing but retrying a dead job resets it.
 */
module Attempts {
  import opened Redis
  import opened Model
  import opened Machine
  import opened Placement
  import opened Dag
  import opened Edges
  import opened Dependents
  import opened Removals

  predicate FirstPickup(a: Job, b: Job)
  {
    a.processedOn == None && b.processedOn.Some? && b.attempts == a.attempts + 1
  }

  /** Neither counted nor marked as picked up, and what the producer fixed as it was. */
  predicate Keeps(a: Job, b: Job)
  {
    SamePayload(a, b) && b.attempts == a.attempts && (b.processedOn.Some? <==> a.processedOn.Some?)
  }

  /** Picked up for the first time, or kept. */
  predicate Climbs(a: Job, b: Job)
  {
    Keeps(a, b) || (SamePayload(a, b) && FirstPickup(a, b))
  }

  /** Every stored job climbs, and whoever is picked up for the first time ends up active. */
  ghost predicate AllClimb(s: State, t: State)
  {
    forall x :: x in s.vault && x in t.vault ==>
      Climbs(s.vault[x], t.vault[x]) && (FirstPickup(s.vault[x], t.vault[x]) ==> x in t.active)
  }

  /** Nobody is counted or marked as picked up. */
  ghost predicate AllKeep(s: State, t: State)
  {
    forall x :: x in s.vault && x in t.vault ==> Keeps(s.vault[x], t.vault[x])
  }

  ghost predicate ActiveKept(s: State, t: State)
  {
    forall x :: x in s.active ==> x in t.active
  }

  /** Whoever is active or dead was picked up, and so was every job with a copy in the DLQ. */
  ghost predicate Started(s: State)
  {
    && (forall x :: x in s.vault && (x in s.active || x in s.failed) ==> s.vault[x].processedOn.Some?)
    && (forall x :: x in s.dlq ==> s.dlq[x].processedOn.Some?)
  }

  ghost predicate Advances(s: State, t: State)
  {
    AllClimb(s, t) && (Started(s) ==> Started(t))
  }

  ghost predicate Steady(s: State, t: State)
  {
    AllKeep(s, t) && (Started(s) ==> Started(t))
  }

  ghost predicate KeepsStored(s: State, t: State)
  {
    forall x :: x in s.vault ==> x in t.vault
  }

  lemma SteadyOn(s: State, t: State, u: State)
    requires Steady(s, t) && Steady(t, u) && (KeepsStored(s, t) || KeepsStored(u, t))
    ensures Steady(s, u)
  {
  }

  lemma SteadyAdvances(s: State, t: State)
    requires Steady(s, t)
    ensures Advances(s, t)
  {
  }

  /** A step that picks up nobody, and then one that may. */
  lemma ThenAdvances(s: State, t: State, u: State)
    requires Steady(s, t) && Advances(t, u) && (KeepsStored(s, t) || KeepsStored(u, t))
    ensures Advances(s, u)
  {
  }

  /** A step that may pick up somebody, and then one that keeps them active. */
  lemma AdvancesThen(s: State, t: State, u: State)
    requires Advances(s, t) && Advances(t, u) && ActiveKept(t, u) && (KeepsStored(s, t) || KeepsStored(u, t))
    ensures Advances(s, u)
  {
    forall x | x in s.vault && x in u.vault
      ensures Climbs(s.vault[x], u.vault[x]) && (FirstPickup(s.vault[x], u.vault[x]) ==> x in u.active)
    {
      assert x in t.vault;
    }
  }

  /** The vault has the same ids before and after, and somebody may have been picked up. */
  ghost predicate Picks(s: State, t: State)
  {
    Advances(s, t) && ActiveKept(s, t) && KeepsStored(s, t) && KeepsStored(t, s)
  }

  lemma PickOn(s: State, t: State, u: State)
    requires Picks(s, t) && Picks(t, u)
    ensures Picks(s, u)
  {
    AdvancesThen(s, t, u);
  }

  /** The vault has the same ids before and after, and nobody was picked up. */
  ghost predicate Holds(s: State, t: State)
  {
    Steady(s, t) && KeepsStored(s, t) && KeepsStored(t, s)
  }

  lemma HoldOn(s: State, t: State, u: State)
    requires Holds(s, t) && Holds(t, u)
    ensures Holds(s, u)
  {
    SteadyOn(s, t, u);
  }

  // ---- Picking up ----

  lemma PickPicks(s: State, t: State, id: Id, stamp: int, lease: int)
    requires t.vault == s.vault && t.active == s.active && t.failed == s.failed && t.dlq == s.dlq && id in t.vault
    ensures Picks(s, Pick(t, id, stamp, lease))
  {
  }

  lemma TakePicks(s: State, now: int, lock: int, publish: bool)
    ensures Picks(s, Dequeue(s, now, lock, publish))
  {
    if Next(s).Some? {
      PickPicks(s, Pop(s), Next(s).value, now, now + lock);
    }
  }

  lemma PopMinPicks(b: Batch, lease: int)
    requires b.s.prioritized != map[]
    ensures Picks(b.s, PopMin(b, lease).s)
  {
    if Least(b.s.prioritized) in b.s.vault {
      PickPicks(b.s, DropMin(b.s), Least(b.s.prioritized), lease, lease);
    }
  }

  lemma {:induction false} FirstPhasePicks(b: Batch, n: nat, lease: int)
    ensures Picks(b.s, BatchPrioritized(b, n, lease).s)
    decreases |b.s.prioritized|
  {
    if |b.taken| >= n || b.s.prioritized == map[] {
    } else {
      LessOne(b.s.prioritized, Least(b.s.prioritized));
      PopMinPicks(b, lease);
      FirstPhasePicks(PopMin(b, lease), n, lease);
      PickOn(b.s, PopMin(b, lease).s, BatchPrioritized(b, n, lease).s);
    }
  }

  lemma TakeWaitingPicks(b: Batch, id: Id, lease: int)
    ensures Picks(b.s, TakeWaiting(b, id, lease).s)
  {
    if id in b.s.vault {
      PickPicks(b.s, b.s, id, lease, lease);
    }
  }

  lemma {:induction false} SecondPhasePicks(b: Batch, ids: seq<Id>, lease: int)
    ensures Picks(b.s, BatchWaiting(b, ids, lease).s)
    decreases |ids|
  {
    if ids == [] {
    } else {
      TakeWaitingPicks(b, ids[0], lease);
      SecondPhasePicks(TakeWaiting(b, ids[0], lease), ids[1..], lease);
      PickOn(b.s, TakeWaiting(b, ids[0], lease).s, BatchWaiting(b, ids, lease).s);
    }
  }

  lemma TakeManyPicks(s: State, n: nat, lease: int)
    ensures Picks(s, BatchDequeue(s, n, lease).s)
  {
    var b := BatchPrioritized(Batch(s, []), n, lease);
    FirstPhasePicks(Batch(s, []), n, lease);
    SecondPhasePicks(b, StillWanted(b, n), lease);
    PickOn(s, b.s, BatchDequeue(s, n, lease).s);
  }

  // ---- Settling ----

  lemma CloseHolds(s: State, id: Id, o: Outcome, now: int)
    requires id in s.active
    ensures Holds(s, Close(s, id, o, now))
  {
  }

  lemma EraseSteady(s: State, onCompleted: bool, gone: set<Id>)
    ensures Steady(s, Erase(s, onCompleted, gone)) && KeepsStored(Erase(s, onCompleted, gone), s)
  {
  }

  lemma PublishedHolds(s: State, events: seq<Event>)
    ensures Holds(s, s.(events := events))
  {
  }

  lemma FinalizeSteady(s: State, id: Id, o: Outcome, now: int, keep: int, publish: bool)
    requires id in s.active
    ensures var t := Finalize(s, id, o, now, keep, publish); Steady(s, t) && KeepsStored(t, s)
  {
    var s1 := Close(s, id, o, now);
    CloseHolds(s, id, o, now);
    EraseSteady(s1, o.completed, Evicted(s1, if o.completed then s1.completed else s1.failed, keep));
    SteadyOn(s, s1, Trim(s1, o.completed, keep));
    PublishedHolds(Trim(s1, o.completed, keep), Published(s, publish, if o.completed then CompletedEvent else FailedEvent, id));
    SteadyOn(s, Trim(s1, o.completed, keep), Finalize(s, id, o, now, keep, publish));
  }

  lemma ThenTakenAdvances(s: State, t: State, u: State, op: Op)
    requires op.Complete? && Steady(s, t) && KeepsStored(t, s)
    requires u == if op.fetch.Some? then Dequeue(t, op.now, op.fetch.value - op.now, op.publish) else t
    ensures Advances(s, u) && KeepsStored(u, s)
  {
    if op.fetch.Some? {
      TakenAdvances(s, t, u, op.now, op.fetch.value - op.now, op.publish);
    } else {
      SteadyAdvances(s, t);
    }
  }

  lemma TakenAdvances(s: State, t: State, u: State, now: int, lock: int, publish: bool)
    requires Steady(s, t) && KeepsStored(t, s) && u == Dequeue(t, now, lock, publish)
    ensures Advances(s, u) && KeepsStored(u, s)
  {
    TakePicks(t, now, lock, publish);
    ThenAdvances(s, t, u);
  }

  lemma ClosingSteady(s: State, t: State, op: Op)
    requires op.Complete? && op.id in s.active && t == Closing(s, op)
    ensures Steady(s, t) && KeepsStored(t, s)
  {
    FinalizeSteady(s, op.id, Outcome(true, op.value, op.progress), op.now, op.keep, op.publish);
  }

  lemma UnblockedHolds(s: State, t: State, p: Id, order: seq<Id>)
    requires t == UnblockAll(s, p, order)
    ensures Holds(s, t) && ActiveKept(s, t)
  {
    UnblockFrame(s, p, order);
  }

  lemma SettleAdvances(s: State, op: Op)
    requires op.Complete? && op.id in s.active
    ensures Advances(s, Settle(s, op)) && KeepsStored(Settle(s, op), s)
  {
    var m := Finished(s, op);
    var u := UnblockAll(m, op.id, op.order);
    ClosingSteady(s, Closing(s, op), op);
    ThenTakenAdvances(s, Closing(s, op), m, op);
    UnblockedHolds(m, u, op.id, op.order);
    SteadyAdvances(m, u);
    AdvancesThen(s, m, u);
  }

  lemma BuryParentHolds(s: State, p: Id, now: int)
    requires p in s.vault ==> p in s.failed
    ensures Holds(s, BuryParent(s, p, now))
  {
  }

  lemma {:induction false} BuryParentsHold(s: State, ps: seq<Id>, now: int)
    requires forall p :: p in ps && p in s.vault ==> p in s.failed
    ensures Holds(s, BuryParents(s, ps, now))
    decreases |ps|
  {
    if ps == [] {
    } else {
      BuryParentHolds(s, ps[0], now);
      BuryParentsHold(BuryParent(s, ps[0], now), ps[1..], now);
      HoldOn(s, BuryParent(s, ps[0], now), BuryParents(s, ps, now));
    }
  }

  lemma CopyHolds(s: State, t: State, id: Id, job: Job)
    requires job.processedOn.Some? && t == s.(dlq := s.dlq[id := job])
    ensures Holds(s, t)
  {
  }

  lemma FailedCopySteady(s: State, id: Id, reason: string, now: int, keep: int, publish: bool)
    requires id in s.active && id in s.vault && Started(s)
    ensures var m := FailedCopy(s, id, reason, now, keep, publish); Steady(s, m) && KeepsStored(m, s)
  {
    var t := Finalize(s, id, Outcome(false, reason, ""), now, keep, publish);
    var m := FailedCopy(s, id, reason, now, keep, publish);
    FinalizeSteady(s, id, Outcome(false, reason, ""), now, keep, publish);
    CopyHolds(t, m, id, s.vault[id].(status := Dead, failedReason := Some(reason)));
    SteadyOn(s, t, m);
  }

  lemma KillSteady(w: System, id: Id, reason: string, now: int, keep: int, publish: bool)
    requires OnePlace(w.s) && DagRight(w) && Started(w.s) && id in w.s.active && id in w.s.vault
    requires w.s.vault[id].flow ==> MayBury(w.s, id, w.s.vault[id].parents)
    ensures var t := Kill(w.s, id, w.s.vault[id], reason, now, keep, publish); Steady(w.s, t) && KeepsStored(t, w.s)
  {
    var job, m := w.s.vault[id], FailedCopy(w.s, id, reason, now, keep, publish);
    FailedCopySteady(w.s, id, reason, now, keep, publish);
    if job.flow {
      FailedCopyUnparked(w, id, job.parents, reason, now, keep, publish);
      BuryParentsHold(m, job.parents, now);
      SteadyOn(w.s, m, BuryParents(m, job.parents, now));
    }
  }

  lemma PostponeHolds(s: State, id: Id, at: int)
    requires id in s.vault
    ensures Holds(s, Postpone(s, id, s.vault[id], at))
  {
  }

  lemma FailSteady(w: System, op: Op)
    requires OnePlace(w.s) && DagRight(w) && Started(w.s) && op.Fail? && Legal(w, op)
    ensures Steady(w.s, Effect(w.s, op)) && KeepsStored(Effect(w.s, op), w.s)
  {
    if Postpones(w.s, op.id, op.fatal) {
      PostponeHolds(w.s, op.id, op.at);
    } else {
      KillSteady(w, op.id, op.reason, op.now, op.keep, op.publish);
    }
  }

  // ---- Sweeps and upkeep ----

  lemma {:induction false} PromoteHolds(s: State, ids: seq<Id>)
    ensures var t := PromoteAll(s, ids);
            t.vault == s.vault && t.active == s.active && t.failed == s.failed && t.dlq == s.dlq
    decreases |ids|
  {
    if ids == [] {
    } else {
      PromoteHolds(PromoteOne(s, ids[0]), ids[1..]);
    }
  }

  lemma DeadLetterHolds(s: State, id: Id, now: int)
    requires id in s.vault && id in s.active
    ensures Holds(s, DeadLetter(s, id, now))
  {
  }

  lemma RequeueHolds(s: State, id: Id)
    requires id in s.vault
    ensures Holds(s, Requeue(s, id))
  {
  }

  lemma RecoverOneHolds(s: State, id: Id, now: int)
    requires id in s.active
    ensures Holds(s, RecoverOne(s, id, now))
    ensures RecoverOne(s, id, now).active == s.active - {id}
  {
    if id in s.vault {
      DeadLetterHolds(s, id, now);
      RequeueHolds(s, id);
    }
  }

  lemma {:induction false} RecoverHolds(s: State, ids: seq<Id>, now: int)
    requires NoDup(ids) && forall x :: x in ids ==> x in s.active
    ensures Holds(s, RecoverAll(s, ids, now))
    decreases |ids|
  {
    if ids == [] {
    } else {
      RecoverOneHolds(s, ids[0], now);
      RecoverHolds(RecoverOne(s, ids[0], now), ids[1..], now);
      HoldOn(s, RecoverOne(s, ids[0], now), RecoverAll(s, ids, now));
    }
  }

  lemma SweepHolds(s: State, now: int)
    ensures Holds(s, Recover(s, now))
  {
    var ids := ByScore(Between(s.active, 0, now));
    ByScoreSorted(Between(s.active, 0, now));
    RecoverHolds(s, ids, now);
    HealHolds(RecoverAll(s, ids, now));
    HoldOn(s, RecoverAll(s, ids, now), Heal(RecoverAll(s, ids, now)));
  }

  lemma HealHolds(s: State)
    ensures Holds(s, Heal(s))
  {
  }

  lemma BuryActiveHolds(s: State, id: Id, now: int)
    requires id in s.vault && id in s.active
    ensures Holds(s, BuryActive(s, id, now))
  {
  }

  lemma ZombieHolds(s: State, id: Id, now: int, timeout: int)
    ensures Holds(s, BuryZombie(s, id, now, timeout))
  {
    if id in s.vault && id in s.active {
      BuryActiveHolds(s, id, now);
    }
  }

  lemma RenewHolds(s: State, id: Id, now: int, lease: int)
    requires id in s.vault && id in s.active && Started(s)
    ensures Holds(s, Renew(s, id, now, lease))
  {
  }

  lemma DrainSteady(s: State)
    ensures Steady(s, Drain(s)) && KeepsStored(Drain(s), s)
  {
  }

  lemma GoneSteady(s: State, t: State, gone: set<Id>)
    requires JobsGone(s, t, gone)
    ensures Steady(s, t) && KeepsStored(t, s)
  {
  }

  lemma DeletionSteady(s: State, ids: seq<Id>)
    ensures Steady(s, Deletion(s, ids)) && KeepsStored(Deletion(s, ids), s)
  {
    DeleteAllGone(Cut(s, Members(ids)), ids);
    GoneSteady(s, Deletion(s, ids), Members(ids));
  }

  lemma CleanSteady(s: State, onCompleted: bool, gone: set<Id>)
    ensures Steady(s, CleanState(s, onCompleted, gone)) && KeepsStored(CleanState(s, onCompleted, gone), s)
  {
  }

  lemma DeleteSteady(s: State, op: Op)
    requires op.Delete?
    ensures Steady(s, Effect(s, op)) && KeepsStored(Effect(s, op), s)
  {
    DeletionSteady(s, op.ids);
  }

  lemma CleanUpSteady(s: State, op: Op)
    requires op.CleanUp?
    ensures Steady(s, Effect(s, op)) && KeepsStored(Effect(s, op), s)
  {
    CleanSteady(s, op.onCompleted, CleanedIds(s, op.onCompleted, op.cutoff, op.limit));
  }

  lemma RemovalSteady(s: State, op: Op)
    requires op.DrainAll? || op.Delete? || op.CleanUp?
    ensures Steady(s, Effect(s, op)) && KeepsStored(Effect(s, op), s)
  {
    if op.DrainAll? {
      DrainSteady(s);
    } else if op.Delete? {
      DeleteSteady(s, op);
    } else {
      CleanUpSteady(s, op);
    }
  }

  lemma PromotedHolds(s: State, now: int)
    ensures Holds(s, Promote(s, now))
  {
    PromoteHolds(s, ByScore(Between(s.delayed, 0, now)));
  }

  lemma DequeueAdvances(s: State, op: Op)
    requires op.Take? || op.TakeMany?
    ensures Picks(s, Effect(s, op))
  {
    if op.Take? {
      TakePicks(s, op.now, op.lock, op.publish);
    } else {
      TakeManyPicks(s, op.n, op.lease);
    }
  }

  lemma TimedHolds(s: State, op: Op)
    requires op.PromoteDue? || op.RecoverExpired? || op.SweepZombie?
    ensures Holds(s, Effect(s, op))
  {
    if op.PromoteDue? {
      PromotedHolds(s, op.now);
    } else if op.RecoverExpired? {
      SweepHolds(s, op.now);
    } else {
      ZombieHolds(s, op.id, op.now, op.timeout);
    }
  }

  lemma UpkeepHolds(w: System, op: Op)
    requires OnePlace(w.s) && DagRight(w) && Started(w.s) && Legal(w, op)
    requires op.RenewLease? || op.CheckUnblocked? || op.PushTokens?
    ensures Holds(w.s, Effect(w.s, op))
  {
    if op.RenewLease? {
      PlaceAtMostOnce(w.s, op.id);
      RenewHolds(w.s, op.id, op.now, op.lease);
    } else if op.CheckUnblocked? {
      PromoteIfUnblockedIsIdle(w.s, w.awaits, op.id, StoredPriority(w.s, op.id), StoredTimestamp(w.s, op.id));
    }
  }

  // ---- Adding ----

  /** Stored jobs untouched, new ones never picked up. */
  ghost predicate AddsFresh(s: State, t: State)
  {
    && (forall x :: x in s.vault ==> x in t.vault && t.vault[x] == s.vault[x])
    && (forall x :: x in t.vault && x !in s.vault ==> t.vault[x].attempts == 0 && t.vault[x].processedOn == None)
    && t.active == s.active && t.failed == s.failed && t.dlq == s.dlq
  }

  lemma AddFreshOn(s: State, t: State, u: State)
    requires AddsFresh(s, t) && AddsFresh(t, u)
    ensures AddsFresh(s, u)
  {
  }

  lemma NewFresh(s: State, t: State, id: Id, job: Job)
    requires Fresh(job) && id !in s.vault
    requires t.vault == s.vault[id := job] && t.active == s.active && t.failed == s.failed && t.dlq == s.dlq
    ensures AddsFresh(s, t)
  {
  }

  lemma AddJobFresh(s: State, id: Id, job: Job)
    requires Fresh(job)
    ensures AddsFresh(s, AddJob(s, id, job))
  {
    if id !in s.vault {
      NewFresh(s, StoreRunnable(s, id, job), id, job);
    }
  }

  lemma AddDelayedFresh(s: State, id: Id, job: Job, at: int)
    requires Fresh(job)
    ensures AddsFresh(s, AddDelayed(s, id, job, at))
  {
    if id !in s.vault {
      NewFresh(s, AddDelayed(s, id, job, at), id, job);
    }
  }

  lemma DependFresh(s: State, id: Id, job: Job)
    requires Fresh(job)
    ensures AddsFresh(s, AddDependent(s, id, job))
  {
    StoredFresh(s, id, job);
    ParkedFresh(s, id, job, CountPending(s, job.parents));
  }

  lemma StoredFresh(s: State, id: Id, job: Job)
    requires Fresh(job)
    ensures id !in s.vault ==> AddsFresh(s, Link(StoreRunnable(s, id, job), id, job.parents))
  {
  }

  lemma ParkedFresh(s: State, id: Id, job: Job, pending: nat)
    requires Fresh(job)
    ensures id !in s.vault ==> AddsFresh(s, Link(Park(s, id, job, pending), id, job.parents))
  {
  }

  lemma AddBulkOneFresh(s: State, item: BulkItem)
    requires Fresh(item.job)
    ensures AddsFresh(s, AddBulkOne(s, item))
  {
    if item.id !in s.vault {
      NewFresh(s, AddBulkOne(s, item), item.id, item.job);
    }
  }

  lemma {:induction false} AddBulkFresh(s: State, items: seq<BulkItem>)
    requires forall i :: 0 <= i < |items| ==> Fresh(items[i].job)
    ensures AddsFresh(s, AddBulk(s, items))
    decreases |items|
  {
    if items == [] {
    } else {
      AddBulkOneFresh(s, items[0]);
      AddBulkFresh(AddBulkOne(s, items[0]), items[1..]);
      AddFreshOn(s, AddBulkOne(s, items[0]), AddBulk(s, items));
    }
  }

  predicate Adds(op: Op)
  {
    op.Add? || op.AddLater? || op.Depend? || op.AddMany?
  }

  lemma AddingFresh(w: System, op: Op)
    requires Adds(op) && Legal(w, op)
    ensures AddsFresh(w.s, Effect(w.s, op))
  {
    if op.Add? {
      AddJobFresh(w.s, op.id, op.job);
    } else if op.AddLater? {
      AddDelayedFresh(w.s, op.id, op.job, op.at);
    } else if op.Depend? {
      DependFresh(w.s, op.id, op.job);
    } else {
      AddBulkFresh(w.s, op.items);
    }
  }

  /** A new job is nowhere yet, so not among the active or the dead. */
  lemma FreshSteady(s: State, t: State)
    requires OnePlace(s) && AddsFresh(s, t)
    ensures Steady(s, t)
  {
    if Started(s) {
      forall x | x in t.vault && (x in t.active || x in t.failed)
        ensures t.vault[x].processedOn.Some?
      {
        PlaceAtMostOnce(s, x);
      }
    }
  }

  // ---- One operation ----

  /** A pickup happens in a dequeue, or in the one that finalizeJob does on request. */
  predicate MayPickUp(op: Op)
  {
    op.Take? || op.TakeMany? || (op.Complete? && op.fetch.Some?)
  }

  /** Every operation that hands out nothing, but a retry. */
  lemma StepSteady(w: System, op: Op)
    requires OnePlace(w.s) && DagRight(w) && Started(w.s) && Legal(w, op) && !op.RetryDead?
    requires !op.Take? && !op.TakeMany? && !op.Complete?
    ensures Steady(w.s, Effect(w.s, op))
    ensures KeepsStored(Effect(w.s, op), w.s) || AddsFresh(w.s, Effect(w.s, op))
  {
    if Adds(op) {
      AddingFresh(w, op);
      FreshSteady(w.s, Effect(w.s, op));
    } else if op.Fail? {
      FailSteady(w, op);
    } else if op.RenewLease? || op.CheckUnblocked? || op.PushTokens? {
      UpkeepHolds(w, op);
    } else if op.DrainAll? || op.Delete? || op.CleanUp? {
      RemovalSteady(w.s, op);
    } else {
      TimedHolds(w.s, op);
    }
  }

  lemma PlainlyCompletedSteady(s: State, op: Op)
    requires op.Complete? && op.fetch == None && op.id in s.active
    ensures Steady(s, Settle(s, op))
  {
    var m := Finished(s, op);
    var u := UnblockAll(m, op.id, op.order);
    ClosingSteady(s, m, op);
    UnblockedHolds(m, u, op.id, op.order);
    SteadyOn(s, m, u);
  }

  /** Every operation but a retry. */
  lemma StepAdvances(w: System, op: Op)
    requires OnePlace(w.s) && DagRight(w) && Started(w.s) && Legal(w, op) && !op.RetryDead?
    ensures Advances(w.s, Effect(w.s, op))
    ensures KeepsStored(Effect(w.s, op), w.s) || AddsFresh(w.s, Effect(w.s, op))
    ensures !MayPickUp(op) ==> AllKeep(w.s, Effect(w.s, op))
  {
    if op.Complete? {
      SettleAdvances(w.s, op);
      if op.fetch == None {
        PlainlyCompletedSteady(w.s, op);
      }
    } else if op.Take? || op.TakeMany? {
      DequeueAdvances(w.s, op);
    } else {
      StepSteady(w, op);
      SteadyAdvances(w.s, Effect(w.s, op));
    }
  }

  lemma RetryStarts(s: State, id: Id)
    requires Started(s) && id in s.dlq
    ensures var t := RetryJob(s, id, Revived(s, id));
            && Started(t) && t.vault == s.vault[id := Revived(s, id)]
            && t.vault[id].attempts == 0 && t.vault[id].processedOn.Some?
  {
  }

  predicate CountedOnce(job: Job)
  {
    job.attempts <= 1 && (job.processedOn == None ==> job.attempts == 0)
  }

  ghost predicate AttemptsRight(s: State)
  {
    Started(s) && forall x :: x in s.vault ==> CountedOnce(s.vault[x])
  }

  lemma AdvancesCountOnce(s: State, t: State)
    requires AttemptsRight(s) && Advances(s, t) && (KeepsStored(t, s) || AddsFresh(s, t))
    ensures AttemptsRight(t)
  {
    forall x | x in t.vault
      ensures CountedOnce(t.vault[x])
    {
      if x in s.vault {
        assert Climbs(s.vault[x], t.vault[x]) && CountedOnce(s.vault[x]);
      }
    }
  }

  /** Every operation keeps the attempts of every stored job right. */
  lemma StepKeepsAttempts(w: System, op: Op)
    requires OnePlace(w.s) && DagRight(w) && AttemptsRight(w.s) && Legal(w, op)
    ensures AttemptsRight(Effect(w.s, op))
  {
    if op.RetryDead? {
      if op.id in w.s.dlq {
        RetryStarts(w.s, op.id);
      }
    } else {
      StepAdvances(w, op);
      AdvancesCountOnce(w.s, Effect(w.s, op));
    }
  }

  /** Only the pickup that finds processedOn null raises the attempts of a stored job
      or sets its processedOn: a dequeue, which leaves the job active. Only retrying a
      dead job resets its attempts. */
  lemma AttemptsRiseAtFirstPickup(w: System, op: Op, x: Id)
    requires OnePlace(w.s) && DagRight(w) && AttemptsRight(w.s) && Legal(w, op) && op != RetryDead(x)
    requires x in w.s.vault && x in Effect(w.s, op).vault
    ensures Climbs(w.s.vault[x], Effect(w.s, op).vault[x])
    ensures FirstPickup(w.s.vault[x], Effect(w.s, op).vault[x]) ==>
              MayPickUp(op) && x !in w.s.active && x in Effect(w.s, op).active
  {
    if op.RetryDead? {
      if op.id in w.s.dlq {
        RetryStarts(w.s, op.id);
      }
    } else {
      StepAdvances(w, op);
    }
  }
}

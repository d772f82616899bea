/**
 In every run the prioritized ZSET holds the scores of the stored jobs, so
 workers are served in priority order whatever happened before.
 */
module Scores {
  import opened Redis
  import opened Model
  import opened Machine
  import opened Placement
  import opened Dag
  import opened Removals
  import opened Runs
  import opened Dispatch

  /** A stored job keeps its priority and timestamp as long as it is stored. */
  ghost predicate SamePriorities(s: State, t: State)
  {
    forall x :: x in s.vault && x in t.vault ==>
      t.vault[x].priority == s.vault[x].priority && t.vault[x].timestamp == s.vault[x].timestamp
  }

  /** What is prioritized in t was so in s, with the same score. */
  ghost predicate FewerPrioritized(s: State, t: State)
  {
    forall x :: x in t.prioritized ==> x in s.prioritized && t.prioritized[x] == s.prioritized[x]
  }

  ghost predicate PrioritizedStored(t: State)
  {
    forall x :: x in t.prioritized ==> x in t.vault
  }

  lemma KeptScores(s: State, t: State)
    requires ScoresRight(s) && SamePriorities(s, t) && FewerPrioritized(s, t) && PrioritizedStored(t)
    ensures ScoresRight(t)
  {
    forall x | x in t.prioritized
      ensures ScoreOf(t, x)
    {
      assert ScoreOf(s, x);
    }
  }

  lemma StoreScores(s: State, id: Id, job: Job)
    requires ScoresRight(s) && id !in s.prioritized
    ensures ScoresRight(StoreRunnable(s, id, job))
  {
    forall x | x in StoreRunnable(s, id, job).prioritized
      ensures ScoreOf(StoreRunnable(s, id, job), x)
    {
      assert x != id ==> ScoreOf(s, x);
    }
  }

  lemma StillScored(s: State, t: State, id: Id, job: Job)
    requires ScoresRight(s) && id !in s.vault && t.prioritized == s.prioritized && t.vault == s.vault[id := job]
    ensures ScoresRight(t)
  {
    forall x | x in t.prioritized
      ensures ScoreOf(t, x)
    {
      assert ScoreOf(s, x);
    }
  }

  lemma NotPrioritized(s: State, id: Id)
    requires ScoresRight(s) && id !in s.vault
    ensures id !in s.prioritized
  {
    assert id in s.prioritized ==> ScoreOf(s, id);
  }

  lemma SameScores(s: State, t: State)
    requires ScoresRight(s) && t.prioritized == s.prioritized && t.vault == s.vault
    ensures ScoresRight(t)
  {
    forall x | x in t.prioritized
      ensures ScoreOf(t, x)
    {
      assert ScoreOf(s, x);
    }
  }

  lemma AddScores(s: State, id: Id, job: Job)
    requires ScoresRight(s) && id !in s.vault
    ensures ScoresRight(AddJob(s, id, job)) && ScoresRight(AddDependent(s, id, job))
  {
    NotPrioritized(s, id);
    StoreScores(s, id, job);
    var t := StoreRunnable(s, id, job);
    SameScores(t, Link(t, id, job.parents));
    var u := Park(s, id, job, CountPending(s, job.parents));
    StillScored(s, u, id, job);
    SameScores(u, Link(u, id, job.parents));
  }

  lemma {:induction false} AddBulkScores(s: State, items: seq<BulkItem>)
    requires ScoresRight(s)
    ensures ScoresRight(AddBulk(s, items))
    decreases |items|
  {
    if items == [] {
    } else {
      AddBulkOneScores(s, items[0]);
      AddBulkScores(AddBulkOne(s, items[0]), items[1..]);
    }
  }

  lemma AddBulkOneScores(s: State, i: BulkItem)
    requires ScoresRight(s)
    ensures ScoresRight(AddBulkOne(s, i))
  {
    if i.id !in s.vault {
      NotPrioritized(s, i.id);
      if i.later {
        StillScored(s, AddBulkOne(s, i), i.id, i.job);
      } else {
        StoreScores(s, i.id, i.job);
        SameScores(StoreRunnable(s, i.id, i.job), AddBulkOne(s, i));
      }
    }
  }

  lemma PickScores(s: State, id: Id, stamp: int, lease: int)
    requires ScoresRight(s) && id in s.vault
    ensures ScoresRight(Pick(s, id, stamp, lease))
  {
    var t := Pick(s, id, stamp, lease);
    forall x | x in t.prioritized
      ensures ScoreOf(t, x)
    {
      assert ScoreOf(s, x);
    }
  }

  lemma DropScores(s: State, t: State)
    requires ScoresRight(s) && t.vault == s.vault && FewerPrioritized(s, t)
    ensures ScoresRight(t)
  {
    forall x | x in t.prioritized
      ensures ScoreOf(t, x)
    {
      assert ScoreOf(s, x);
    }
  }

  lemma DequeueScores(s: State, now: int, lock: int, publish: bool)
    requires ScoresRight(s)
    ensures ScoresRight(Dequeue(s, now, lock, publish))
  {
    DropScores(s, Pop(s));
    if Next(s).Some? {
      PickScores(Pop(s), Next(s).value, now, now + lock);
      SameScores(Pick(Pop(s), Next(s).value, now, now + lock), Dequeue(s, now, lock, publish));
    }
  }

  lemma {:induction false} BatchPrioritizedScores(b: Batch, n: nat, lease: int)
    requires ScoresRight(b.s)
    ensures ScoresRight(BatchPrioritized(b, n, lease).s)
    decreases |b.s.prioritized|
  {
    if |b.taken| >= n || b.s.prioritized == map[] {
    } else {
      LessOne(b.s.prioritized, Least(b.s.prioritized));
      PopMinScores(b, lease);
      BatchPrioritizedScores(PopMin(b, lease), n, lease);
    }
  }

  lemma PopMinScores(b: Batch, lease: int)
    requires ScoresRight(b.s) && b.s.prioritized != map[]
    ensures ScoresRight(PopMin(b, lease).s)
  {
    DropScores(b.s, DropMin(b.s));
    if Least(b.s.prioritized) in b.s.vault {
      PickScores(DropMin(b.s), Least(b.s.prioritized), lease, lease);
    }
  }

  lemma {:induction false} BatchWaitingScores(b: Batch, ids: seq<Id>, lease: int)
    requires ScoresRight(b.s)
    ensures ScoresRight(BatchWaiting(b, ids, lease).s)
    decreases |ids|
  {
    if ids == [] {
    } else {
      if ids[0] in b.s.vault {
        PickScores(b.s, ids[0], lease, lease);
        SameScores(Pick(b.s, ids[0], lease, lease), PickWaiting(b.s, ids[0], lease));
      }
      BatchWaitingScores(TakeWaiting(b, ids[0], lease), ids[1..], lease);
    }
  }

  lemma BatchDequeueScores(s: State, n: nat, lease: int)
    requires ScoresRight(s)
    ensures ScoresRight(BatchDequeue(s, n, lease).s)
  {
    var b := BatchPrioritized(Batch(s, []), n, lease);
    BatchPrioritizedScores(Batch(s, []), n, lease);
    BatchWaitingScores(b, StillWanted(b, n), lease);
  }

  lemma ReleaseScores(s: State, t: State, c: Id)
    requires ScoresRight(s) && t.vault == s.vault && t.prioritized == Release(s, c).prioritized
    ensures ScoresRight(t)
  {
    forall x | x in t.prioritized
      ensures ScoreOf(t, x)
    {
      assert x in s.prioritized ==> ScoreOf(s, x);
    }
  }

  lemma UnblockOneScores(s: State, p: Id, c: Id)
    requires ScoresRight(s)
    ensures ScoresRight(UnblockOne(s, p, c))
  {
    var u := Uncount(s, p, c);
    SameScores(s, u);
    if Spent(s, c) && c in s.blocked {
      ReleaseScores(u, Unpark(u, c), c);
    }
  }

  lemma {:induction false} UnblockScores(s: State, p: Id, order: seq<Id>)
    requires ScoresRight(s)
    ensures ScoresRight(UnblockAll(s, p, order))
    decreases |order|
  {
    if order == [] {
    } else {
      UnblockOneScores(s, p, order[0]);
      UnblockScores(UnblockOne(s, p, order[0]), p, order[1..]);
    }
  }

  lemma {:induction false} PromoteScores(s: State, ids: seq<Id>)
    requires ScoresRight(s)
    ensures ScoresRight(PromoteAll(s, ids))
    decreases |ids|
  {
    if ids == [] {
    } else {
      ReleaseScores(s, PromoteOne(s, ids[0]), ids[0]);
      PromoteScores(PromoteOne(s, ids[0]), ids[1..]);
    }
  }

  lemma RequeueScores(s: State, id: Id)
    requires ScoresRight(s) && id in s.vault
    ensures ScoresRight(Requeue(s, id))
  {
    forall x | x in Requeue(s, id).prioritized
      ensures ScoreOf(Requeue(s, id), x)
    {
      assert x in s.prioritized ==> ScoreOf(s, x);
    }
  }

  lemma ChangedScores(s: State, t: State, id: Id, job: Job)
    requires ScoresRight(s) && t.prioritized == s.prioritized && id in s.vault && t.vault == s.vault[id := job]
    requires job.priority == s.vault[id].priority && job.timestamp == s.vault[id].timestamp
    ensures ScoresRight(t)
  {
    forall x | x in t.prioritized
      ensures ScoreOf(t, x)
    {
      assert ScoreOf(s, x);
    }
  }

  lemma RecoverOneScores(s: State, id: Id, now: int)
    requires ScoresRight(s)
    ensures ScoresRight(RecoverOne(s, id, now))
  {
    if id !in s.vault {
      SameScores(s, RecoverOne(s, id, now));
    } else if s.vault[id].attempts >= s.vault[id].maxretries {
      ChangedScores(s, DeadLetter(s, id, now), id, Stalled(s.vault[id]));
    } else {
      RequeueScores(s, id);
    }
  }

  lemma {:induction false} RecoverScores(s: State, ids: seq<Id>, now: int)
    requires ScoresRight(s)
    ensures ScoresRight(RecoverAll(s, ids, now))
    decreases |ids|
  {
    if ids == [] {
    } else {
      RecoverOneScores(s, ids[0], now);
      RecoverScores(RecoverOne(s, ids[0], now), ids[1..], now);
    }
  }

  lemma PlacedIsStored(t: State)
    requires OnePlace(t)
    ensures PrioritizedStored(t)
  {
    forall x | x in t.prioritized
      ensures x in t.vault
    {
      PlaceAtMostOnce(t, x);
    }
  }

  lemma FinalizeKeepsPriorities(s: State, id: Id, o: Outcome, now: int, keep: int, publish: bool)
    ensures SamePriorities(s, Finalize(s, id, o, now, keep, publish))
  {
    var s1 := Close(s, id, o, now);
    ClosePriorities(s, id, o, now);
    ErasePriorities(s, s1, o.completed, Evicted(s1, if o.completed then s1.completed else s1.failed, keep));
  }

  lemma ClosePriorities(s: State, id: Id, o: Outcome, now: int)
    ensures SamePriorities(s, Close(s, id, o, now)) && Close(s, id, o, now).vault.Keys == s.vault.Keys
  {
  }

  lemma ErasePriorities(s: State, t: State, onCompleted: bool, gone: set<Id>)
    requires SamePriorities(s, t) && t.vault.Keys == s.vault.Keys
    ensures SamePriorities(s, Erase(t, onCompleted, gone))
  {
  }

  lemma FinalizeScores(s: State, id: Id, o: Outcome, now: int, keep: int, publish: bool)
    requires ScoresRight(s) && OnePlace(Finalize(s, id, o, now, keep, publish))
    ensures ScoresRight(Finalize(s, id, o, now, keep, publish))
  {
    var t := Finalize(s, id, o, now, keep, publish);
    PlacedIsStored(t);
    FinalizeKeepsPriorities(s, id, o, now, keep, publish);
    KeptScores(s, t);
  }

  lemma {:induction false} BuryParentsScores(s: State, ps: seq<Id>, now: int)
    requires ScoresRight(s)
    ensures ScoresRight(BuryParents(s, ps, now))
    decreases |ps|
  {
    if ps == [] {
    } else {
      if ps[0] in s.vault {
        ChangedScores(s, BuryParent(s, ps[0], now), ps[0], BuryParent(s, ps[0], now).vault[ps[0]]);
      }
      BuryParentsScores(BuryParent(s, ps[0], now), ps[1..], now);
    }
  }

  lemma KillScores(s: State, id: Id, reason: string, now: int, keep: int, publish: bool)
    requires ScoresRight(s) && OnePlace(s) && id in s.active && id in s.vault
    ensures ScoresRight(Kill(s, id, s.vault[id], reason, now, keep, publish))
  {
    var o := Outcome(false, reason, "");
    FinalizeKeepsPlace(s, id, o, now, keep, publish);
    FinalizeScores(s, id, o, now, keep, publish);
    var s1 := Finalize(s, id, o, now, keep, publish);
    var s2 := s1.(dlq := s1.dlq[id := s.vault[id].(status := Dead, failedReason := Some(reason))]);
    SameScores(s1, s2);
    BuryParentsScores(s2, s.vault[id].parents, now);
  }

  lemma ThenTakenScores(s: State, t: State, op: Op)
    requires op.Complete? && ScoresRight(t)
    requires s == if op.fetch.Some? then Dequeue(t, op.now, op.fetch.value - op.now, op.publish) else t
    ensures ScoresRight(s)
  {
    if op.fetch.Some? {
      DequeueScores(t, op.now, op.fetch.value - op.now, op.publish);
    }
  }

  lemma ClosingScores(s: State, op: Op)
    requires op.Complete? && ScoresRight(s) && OnePlace(s) && op.id in s.active
    ensures ScoresRight(Closing(s, op))
  {
    ClosingPlaces(s, op);
    FinalizeScores(s, op.id, Outcome(true, op.value, op.progress), op.now, op.keep, op.publish);
  }

  lemma FinishedScores(s: State, op: Op)
    requires op.Complete? && ScoresRight(s) && OnePlace(s) && op.id in s.active
    ensures ScoresRight(Finished(s, op))
  {
    ClosingScores(s, op);
    ThenTakenScores(Finished(s, op), Closing(s, op), op);
  }

  lemma SettleScores(s: State, op: Op)
    requires op.Complete? && ScoresRight(s) && OnePlace(s) && op.id in s.active
    ensures ScoresRight(Settle(s, op))
  {
    FinishedScores(s, op);
    UnblockScores(Finished(s, op), op.id, op.order);
  }

  lemma RetryScores(s: State, id: Id)
    requires ScoresRight(s) && OnePlace(s) && id in s.dlq && (id in s.vault ==> id in s.failed)
    ensures ScoresRight(RetryJob(s, id, Revived(s, id)))
  {
    PlaceAtMostOnce(s, id);
    var t := RetryJob(s, id, Revived(s, id));
    forall x | x in t.prioritized
      ensures ScoreOf(t, x)
    {
      assert x in s.prioritized ==> x != id && ScoreOf(s, x);
    }
  }

  lemma FailScores(w: System, op: Op)
    requires op.Fail? && ScoresRight(w.s) && OnePlace(w.s) && Legal(w, op)
    ensures ScoresRight(Effect(w.s, op))
  {
    var job := w.s.vault[op.id];
    if Postpones(w.s, op.id, op.fatal) {
      ChangedScores(w.s, Effect(w.s, op), op.id, job.(status := Retrying));
    } else {
      KillScores(w.s, op.id, op.reason, op.now, op.keep, op.publish);
    }
  }

  lemma ZombieScores(s: State, id: Id, now: int, timeout: int)
    requires ScoresRight(s)
    ensures ScoresRight(BuryZombie(s, id, now, timeout))
  {
    SameScores(s, s.(active := s.active - {id}));
    if id in s.vault {
      ChangedScores(s, BuryActive(s, id, now), id, BuryActive(s, id, now).vault[id]);
    }
  }

  lemma AddingScores(w: System, op: Op)
    requires ScoresRight(w.s) && (op.Add? || op.AddLater? || op.Depend? || op.AddMany? || op.PushTokens?)
    ensures ScoresRight(Effect(w.s, op))
  {
    var s := w.s;
    match op {
      case Add(id, job) => if id !in s.vault { AddScores(s, id, job); }
      case AddLater(id, job, at) => if id !in s.vault { StillScored(s, AddDelayed(s, id, job, at), id, job); }
      case Depend(id, job) => if id !in s.vault { AddScores(s, id, job); }
      case AddMany(items) => AddBulkScores(s, items);
      case PushTokens(n) => SameScores(s, Effect(s, op));
    }
  }

  lemma GoneScores(s: State, t: State, gone: set<Id>)
    requires ScoresRight(s) && t.vault == s.vault - gone && FewerPrioritized(s, t) && PrioritizedStored(t)
    ensures ScoresRight(t)
  {
    KeptScores(s, t);
  }

  lemma DeletionScores(s: State, ids: seq<Id>)
    requires ScoresRight(s) && PrioritizedStored(Deletion(s, ids))
    ensures ScoresRight(Deletion(s, ids))
  {
    DeleteAllGone(Cut(s, Members(ids)), ids);
    GoneScores(s, Deletion(s, ids), Members(ids));
  }

  lemma DeleteScores(s: State, op: Op)
    requires ScoresRight(s) && op.Delete? && OnePlace(Effect(s, op))
    ensures ScoresRight(Effect(s, op))
  {
    PlacedIsStored(Effect(s, op));
    DeletionScores(s, op.ids);
  }

  lemma CleanUpScores(s: State, op: Op)
    requires ScoresRight(s) && op.CleanUp? && OnePlace(Effect(s, op))
    ensures ScoresRight(Effect(s, op))
  {
    PlacedIsStored(Effect(s, op));
    GoneScores(s, Effect(s, op), CleanedIds(s, op.onCompleted, op.cutoff, op.limit));
  }

  lemma DrainScores(s: State)
    ensures ScoresRight(Drain(s))
  {
  }

  lemma RemovalScores(s: State, op: Op)
    requires ScoresRight(s) && (op.DrainAll? || op.Delete? || op.CleanUp?) && OnePlace(Effect(s, op))
    ensures ScoresRight(Effect(s, op))
  {
    if op.DrainAll? {
      DrainScores(s);
    } else if op.Delete? {
      DeleteScores(s, op);
    } else {
      CleanUpScores(s, op);
    }
  }

  lemma RenewScores(s: State, id: Id, now: int, lease: int)
    requires ScoresRight(s) && id in s.vault
    ensures ScoresRight(Renew(s, id, now, lease))
  {
    ChangedScores(s, Renew(s, id, now, lease), id, s.vault[id].(processedOn := Some(now)));
  }

  lemma SweptScores(s: State, now: int)
    requires ScoresRight(s)
    ensures ScoresRight(Recover(s, now))
  {
    var ids := ByScore(Between(s.active, 0, now));
    RecoverScores(s, ids, now);
    SameScores(RecoverAll(s, ids, now), Recover(s, now));
  }

  lemma TimedScores(s: State, op: Op)
    requires ScoresRight(s)
    requires op.Take? || op.TakeMany? || op.PromoteDue? || op.RecoverExpired? || op.SweepZombie?
    ensures ScoresRight(Effect(s, op))
  {
    if op.Take? {
      DequeueScores(s, op.now, op.lock, op.publish);
    } else if op.TakeMany? {
      BatchDequeueScores(s, op.n, op.lease);
    } else if op.PromoteDue? {
      PromoteScores(s, ByScore(Between(s.delayed, 0, op.now)));
    } else if op.RecoverExpired? {
      SweptScores(s, op.now);
    } else {
      ZombieScores(s, op.id, op.now, op.timeout);
    }
  }

  lemma UpkeepScores(w: System, op: Op)
    requires ScoresRight(w.s) && Right(w) && Legal(w, op) && (op.RenewLease? || op.RetryDead? || op.CheckUnblocked?)
    ensures ScoresRight(Effect(w.s, op))
  {
    if op.RenewLease? {
      PlaceAtMostOnce(w.s, op.id);
      RenewScores(w.s, op.id, op.now, op.lease);
    } else if op.RetryDead? {
      if op.id in w.s.dlq {
        RetryScores(w.s, op.id);
      }
    } else {
      PromoteIfUnblockedIsIdle(w.s, w.awaits, op.id, StoredPriority(w.s, op.id), StoredTimestamp(w.s, op.id));
    }
  }

  lemma StepKeepsScores(w: System, op: Op)
    requires ScoresRight(w.s) && Right(w) && Legal(w, op)
    ensures ScoresRight(Effect(w.s, op))
  {
    if op.Complete? {
      SettleScores(w.s, op);
    } else if op.Fail? {
      FailScores(w, op);
    } else if op.RenewLease? || op.RetryDead? || op.CheckUnblocked? {
      UpkeepScores(w, op);
    } else if op.DrainAll? || op.Delete? || op.CleanUp? {
      StepKeepsRest(w, op);
      RemovalScores(w.s, op);
    } else if op.Take? || op.TakeMany? || op.PromoteDue? || op.RecoverExpired? || op.SweepZombie? {
      TimedScores(w.s, op);
    } else {
      AddingScores(w, op);
    }
  }

  lemma {:induction false} RunKeepsScores(w: System, ops: seq<Op>)
    requires Right(w) && ScoresRight(w.s) && AllLegal(w, ops)
    ensures ScoresRight(Run(w, ops).s)
    decreases |ops|
  {
    if ops == [] {
    } else {
      StepKeepsScores(w, ops[0]);
      StepKeepsRight(w, ops[0]);
      RunKeepsScores(Apply(w, ops[0]), ops[1..]);
    }
  }

  /** Whatever legal run led here, repeated dequeue serves the prioritized jobs in
      order of priority and then time, as long as the stored timestamps are less than
      1e11 ms apart, and then the waiting list in its order. */
  lemma EveryRunServesInOrder(ops: seq<Op>, clocks: seq<Clock>, i: nat, j: nat)
    requires AllLegal(START, ops) && CloseTogether(Run(START, ops).s)
    requires i < j < |TakeEach(Batch(Run(START, ops).s, []), clocks).taken|
    ensures InServiceOrder(Run(START, ops).s, TakeEach(Batch(Run(START, ops).s, []), clocks).taken, i, j)
  {
    ReachableIsScored(ops);
    ServedInPriorityOrder(Run(START, ops).s, clocks, i, j);
  }

  lemma ReachableIsScored(ops: seq<Op>)
    requires AllLegal(START, ops)
    ensures ScoresRight(Run(START, ops).s) && AllStored(Run(START, ops).s)
  {
    StartIsRight();
    RunKeepsScores(START, ops);
    EveryRunIsRight(ops);
    PlacedAreStored(Run(START, ops).s);
  }
}

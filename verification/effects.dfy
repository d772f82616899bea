/**
 What single steps do, field by field and from any state: to the job they are about,
 and that they leave every other job alone.
 */
module Effects {
  import opened Redis
  import opened Model
  import opened Machine
  import opened Placement
  import opened Dag
  import opened Sweep

  // ---- Adding ----

  /** A new job is stored as given, queued where its priority says, and paid for; a
      known id changes nothing. */
  lemma AddExact(s: State, id: Id, job: Job, x: Id)
    ensures var t := AddJob(s, id, job);
            && RestSame(s, t) && t.active == s.active && t.failed == s.failed && t.dlq == s.dlq
            && t.tokens == s.tokens + (if id in s.vault then 0 else 1) && s.waiting <= t.waiting
            && if x == id && id !in s.vault then x in t.vault && t.vault[x] == job && QueuedAt(s, t, x, job)
               else SameAt(s, t, x)
  {
    if id !in s.vault {
      StoreExact(s, StoreRunnable(s, id, job), id, job, x);
    }
  }

  lemma StoreExact(s: State, t: State, id: Id, job: Job, x: Id)
    requires id !in s.vault && t == StoreRunnable(s, id, job)
    ensures RestSame(s, t) && t.active == s.active && t.failed == s.failed && t.dlq == s.dlq && t.tokens == s.tokens + 1
    ensures s.waiting <= t.waiting
    ensures if x == id then x in t.vault && t.vault[x] == job && QueuedAt(s, t, x, job) else SameAt(s, t, x)
  {
  }

  /** A new delayed job is stored as given, and is due at its time. */
  lemma AddDelayedExact(s: State, id: Id, job: Job, at: nat, x: Id, now: int)
    ensures var t := AddDelayed(s, id, job, at);
            && (id in s.vault || x != id ==> SameAt(s, t, x))
            && t.tokens == s.tokens && t.delayedTokens == s.delayedTokens + (if id in s.vault then 0 else 1)
            && (id !in s.vault ==>
                  && id in t.vault && t.vault[id] == job && id in t.delayed && t.delayed[id] == at
                  && if now < at then StillDelayedAt(t, Promote(t, now), id) else PromotedAt(t, Promote(t, now), id))
  {
    if id !in s.vault {
      PromoteExact(AddDelayed(s, id, job, at), now, id);
    }
  }

  /** A new dependent is stored as given and linked to all its parents. With a pending
      one it is parked, counted, and not queued; with none it is queued where its
      priority says, and not parked. */
  lemma DependExact(s: State, id: Id, job: Job, x: Id)
    requires id !in s.vault
    ensures var t := AddDependent(s, id, job);
            && id in t.vault && t.vault[id] == job && (x != id ==> SameAt(s, t, x))
            && (forall p: Id, c: Id :: (p, c) in t.childEdges <==> (p, c) in s.childEdges || (c == id && p in job.parents))
            && t.parentEdges - s.parentEdges <= t.childEdges && s.waiting <= t.waiting
            && if exists p :: p in job.parents && p !in s.completed && p !in s.dlq
               then t.blocked == s.blocked + {id} && CountOf(t, id) == CountPending(s, job.parents)
                    && QueuedSameAt(s, t, id) && t.tokens == s.tokens
               else t.blocked == s.blocked && t.count == s.count && QueuedAt(s, t, id, job) && t.tokens == s.tokens + 1
  {
    PendingLeft(s, job.parents);
    if CountPending(s, job.parents) == 0 {
      LinkedRunnable(s, AddDependent(s, id, job), id, job, x);
    } else {
      LinkedParked(s, AddDependent(s, id, job), id, job, x);
    }
  }

  lemma {:induction false} PendingLeft(s: State, ps: seq<Id>)
    ensures CountPending(s, ps) > 0 <==> exists p :: p in ps && p !in s.completed && p !in s.dlq
    decreases |ps|
  {
    if ps == [] {
    } else {
      PendingLeft(s, ps[1..]);
      assert ps == [ps[0]] + ps[1..];
    }
  }

  lemma LinkedRunnable(s: State, t: State, id: Id, job: Job, x: Id)
    requires id !in s.vault && t == Link(StoreRunnable(s, id, job), id, job.parents)
    ensures id in t.vault && t.vault[id] == job && (x != id ==> SameAt(s, t, x)) && QueuedAt(s, t, id, job)
    ensures t.childEdges == s.childEdges + EdgesTo(id, job.parents) && t.parentEdges == s.parentEdges + EdgesTo(id, job.parents)
    ensures t.blocked == s.blocked && t.count == s.count && t.tokens == s.tokens + 1 && s.waiting <= t.waiting
  {
  }

  lemma LinkedParked(s: State, t: State, id: Id, job: Job, x: Id)
    requires id !in s.vault && t == Link(Park(s, id, job, CountPending(s, job.parents)), id, job.parents)
    ensures id in t.vault && t.vault[id] == job && (x != id ==> SameAt(s, t, x)) && QueuedSameAt(s, t, id)
    ensures t.childEdges == s.childEdges + EdgesTo(id, job.parents) && t.parentEdges == s.parentEdges + EdgesTo(id, job.parents)
    ensures t.blocked == s.blocked + {id} && CountOf(t, id) == CountPending(s, job.parents) && t.tokens == s.tokens
    ensures t.waiting == s.waiting
  {
  }

  // ---- finalizeJob ----

  /** The outcome as it is stored: every other field is as it was. */
  predicate Settles(a: Job, b: Job, o: Outcome, now: int)
  {
    && b.status == (if o.completed then Completed else Dead) && b.finishedOn == Some(now)
    && b.returnvalue == (if !o.completed then a.returnvalue else if o.value == "" then None else Some(o.value))
    && b.failedReason == (if o.completed then a.failedReason else Some(o.value))
    && b.progress == (if o.progress == "" then a.progress else Some(o.progress))
    && SamePayload(a, b) && b.attempts == a.attempts && b.processedOn == a.processedOn
  }

  /** finalizeJob stores the outcome of its job and changes no other record. Whoever the
      retention loop takes is gone from the vault and its set, and a dead one from the
      DLQ as well; nobody else is. */
  lemma FinalizeExact(s: State, id: Id, o: Outcome, now: int, keep: int, publish: bool, x: Id)
    ensures var t := Finalize(s, id, o, now, keep, publish);
            && x !in EvictedNow(s, id, o, now, keep) ==>
                 && (x in t.vault <==> x in s.vault) && (x in t.dlq <==> x in s.dlq) && (x in s.dlq ==> t.dlq[x] == s.dlq[x])
                 && (x in s.vault ==> if x == id then Settles(s.vault[x], t.vault[x], o, now) else t.vault[x] == s.vault[x])
    ensures var t := Finalize(s, id, o, now, keep, publish);
            x in EvictedNow(s, id, o, now, keep) ==>
              && x !in t.vault
              && if o.completed then x !in t.completed && (x in s.failed ==> x in t.failed) && (x in s.dlq ==> x in t.dlq)
                 else x !in t.failed && x !in t.dlq && (x in s.completed ==> x in t.completed)
    ensures var t := Finalize(s, id, o, now, keep, publish);
            && t.active == s.active - {id} && t.waiting == s.waiting && t.prioritized == s.prioritized && t.delayed == s.delayed
            && t.tokens == s.tokens && t.delayedTokens == s.delayedTokens && t.blocked == s.blocked && t.count == s.count
            && t.childEdges == s.childEdges && t.parentEdges == s.parentEdges
  {
    CloseExact(s, Close(s, id, o, now), id, o, now, x);
    var t := Finalize(s, id, o, now, keep, publish);
    EraseExact(Close(s, id, o, now), t, o.completed, EvictedNow(s, id, o, now, keep), t.events, x);
  }

  lemma CloseExact(s: State, t: State, id: Id, o: Outcome, now: int, x: Id)
    requires t == Close(s, id, o, now)
    ensures (x in t.vault <==> x in s.vault) && t.dlq == s.dlq
    ensures x in s.vault ==> if x == id then Settles(s.vault[x], t.vault[x], o, now) else t.vault[x] == s.vault[x]
    ensures t.active == s.active - {id} && t.waiting == s.waiting && t.prioritized == s.prioritized && t.delayed == s.delayed
    ensures t.tokens == s.tokens && t.delayedTokens == s.delayedTokens && t.blocked == s.blocked && t.count == s.count
    ensures t.childEdges == s.childEdges && t.parentEdges == s.parentEdges
    ensures (x in s.failed ==> x in t.failed) && (x in s.completed ==> x in t.completed)
  {
  }

  lemma EraseExact(s: State, t: State, onCompleted: bool, gone: set<Id>, events: seq<Event>, x: Id)
    requires t == Erase(s, onCompleted, gone).(events := events)
    ensures x !in gone ==> (x in t.vault <==> x in s.vault) && (x in s.vault ==> t.vault[x] == s.vault[x])
    ensures x !in gone ==> (x in t.dlq <==> x in s.dlq) && (x in s.dlq ==> t.dlq[x] == s.dlq[x])
    ensures x in gone ==> x !in t.vault
    ensures x in gone ==>
              if onCompleted then x !in t.completed && (x in s.failed ==> x in t.failed) && (x in s.dlq ==> x in t.dlq)
              else x !in t.failed && x !in t.dlq && (x in s.completed ==> x in t.completed)
    ensures t.active == s.active && t.waiting == s.waiting && t.prioritized == s.prioritized && t.delayed == s.delayed
    ensures t.tokens == s.tokens && t.delayedTokens == s.delayedTokens && t.blocked == s.blocked && t.count == s.count
    ensures t.childEdges == s.childEdges && t.parentEdges == s.parentEdges
  {
  }

  // ---- Leases ----

  /** Handed out at a time, with a lease: active, stamped, and not to be reaped before
      the lease ends, but by every sweep from then on. */
  ghost predicate Leased(t: State, id: Id, stamp: int, lease: nat)
  {
    && id in t.vault && t.vault[id].status == Active && t.vault[id].processedOn == Some(stamp)
    && forall later :: if later < lease then SameAt(t, Recover(t, later), id) else SweptAt(t, Recover(t, later), id, later)
  }

  lemma LeaseHolds(t: State, id: Id, stamp: int, lease: nat)
    requires id in t.vault && t.vault[id].status == Active && t.vault[id].processedOn == Some(stamp)
    requires id in t.active && t.active[id] == lease
    ensures Leased(t, id, stamp, lease)
  {
    forall later
      ensures if later < lease then SameAt(t, Recover(t, later), id) else SweptAt(t, Recover(t, later), id, later)
    {
      SweepExact(t, later, id);
    }
  }

  lemma PickedFields(s: State, t: State, id: Id, now: int, lease: int, events: seq<Event>)
    requires id in s.vault && t == Pick(s, id, now, lease).(events := events)
    ensures id in t.vault && t.vault[id].status == Active && t.vault[id].processedOn == Some(now)
    ensures id in t.active && t.active[id] == lease
  {
  }

  lemma TakenFields(s: State, t: State, id: Id, now: int, lock: int, publish: bool)
    requires Next(s) == Some(id) && t == Dequeue(s, now, lock, publish)
    ensures id in t.vault && t.vault[id].status == Active && t.vault[id].processedOn == Some(now)
    ensures id in t.active && t.active[id] == now + lock
  {
    PickedFields(Pop(s), t, id, now, now + lock, Published(s, publish, ActiveEvent, id));
  }

  /** A dequeue gives the job it hands out a lease of the lock duration from now. */
  lemma DequeueLeases(s: State, now: int, lock: int, publish: bool)
    requires Next(s).Some? && now + lock >= 0
    ensures Leased(Dequeue(s, now, lock, publish), Next(s).value, now, now + lock)
  {
    TakenFields(s, Dequeue(s, now, lock, publish), Next(s).value, now, lock, publish);
    LeaseHolds(Dequeue(s, now, lock, publish), Next(s).value, now, now + lock);
  }

  lemma FetchedFields(c: State, t: State, id: Id, op: Op)
    requires op.Complete? && op.fetch.Some? && Next(c) == Some(id)
    requires t == Dequeue(c, op.now, op.fetch.value - op.now, op.publish)
    ensures id in t.vault && t.vault[id].status == Active && t.vault[id].processedOn == Some(op.now)
    ensures id in t.active && t.active[id] == op.fetch.value
  {
    TakenFields(c, t, id, op.now, op.fetch.value - op.now, op.publish);
  }

  /** finalizeJob gives the job it fetches the lease it was told, an absolute time. */
  lemma FetchLeases(s: State, op: Op)
    requires op.Complete? && op.fetch.Some? && op.fetch.value >= 0 && Next(Closing(s, op)).Some?
    ensures Leased(Finished(s, op), Next(Closing(s, op)).value, op.now, op.fetch.value)
  {
    FetchedFields(Closing(s, op), Finished(s, op), Next(Closing(s, op)).value, op);
    LeaseHolds(Finished(s, op), Next(Closing(s, op)).value, op.now, op.fetch.value);
  }

  /** Picked up by the batch, with its lease. */
  predicate BatchPicked(t: State, id: Id, lease: int)
  {
    && id in t.vault && t.vault[id].status == Active && t.vault[id].processedOn == Some(lease)
    && id in t.active && t.active[id] == lease
  }

  ghost predicate AllPicked(b: Batch, lease: int)
  {
    forall id :: id in b.taken ==> BatchPicked(b.s, id, lease)
  }

  lemma PickKeepsPicked(s: State, t: State, id: Id, lease: int, x: Id)
    requires id in s.vault && t.vault == Pick(s, id, lease, lease).vault && t.active == Pick(s, id, lease, lease).active
    ensures BatchPicked(t, id, lease) && (BatchPicked(s, x, lease) ==> BatchPicked(t, x, lease))
  {
  }

  lemma PopMinPicks(b: Batch, lease: int)
    requires AllPicked(b, lease) && b.s.prioritized != map[]
    ensures AllPicked(PopMin(b, lease), lease)
  {
    var c, m := PopMin(b, lease), Least(b.s.prioritized);
    forall x | x in c.taken
      ensures BatchPicked(c.s, x, lease)
    {
      if m in b.s.vault {
        PickKeepsPicked(DropMin(b.s), c.s, m, lease, x);
      } else {
        assert BatchPicked(b.s, x, lease);
      }
    }
  }

  lemma TakeWaitingPicks(b: Batch, id: Id, lease: int)
    requires AllPicked(b, lease)
    ensures AllPicked(TakeWaiting(b, id, lease), lease)
  {
    var c := TakeWaiting(b, id, lease);
    forall x | x in c.taken
      ensures BatchPicked(c.s, x, lease)
    {
      if id in b.s.vault {
        PickKeepsPicked(b.s, c.s, id, lease, x);
      }
    }
  }

  lemma {:induction false} FirstPhasePicks(b: Batch, n: nat, lease: int)
    requires AllPicked(b, lease)
    ensures AllPicked(BatchPrioritized(b, n, lease), lease)
    decreases |b.s.prioritized|
  {
    if |b.taken| >= n || b.s.prioritized == map[] {
    } else {
      LessOne(b.s.prioritized, Least(b.s.prioritized));
      PopMinPicks(b, lease);
      FirstPhasePicks(PopMin(b, lease), n, lease);
    }
  }

  lemma {:induction false} SecondPhasePicks(b: Batch, ids: seq<Id>, lease: int)
    requires AllPicked(b, lease)
    ensures AllPicked(BatchWaiting(b, ids, lease), lease)
    decreases |ids|
  {
    if ids == [] {
    } else {
      TakeWaitingPicks(b, ids[0], lease);
      SecondPhasePicks(TakeWaiting(b, ids[0], lease), ids[1..], lease);
    }
  }

  /** A batch gives every job it hands out the lease it was told, and stamps it with that. */
  lemma BatchLeases(s: State, n: nat, lease: nat, id: Id)
    requires id in BatchDequeue(s, n, lease).taken
    ensures Leased(BatchDequeue(s, n, lease).s, id, lease, lease)
  {
    var b := BatchPrioritized(Batch(s, []), n, lease);
    FirstPhasePicks(Batch(s, []), n, lease);
    SecondPhasePicks(b, StillWanted(b, n), lease);
    assert BatchPicked(BatchDequeue(s, n, lease).s, id, lease);
    LeaseHolds(BatchDequeue(s, n, lease).s, id, lease, lease);
  }

  /** A renewal writes the worker's copy, restarts the clock of the watchdog, and touches no
      other job. */
  lemma RenewExact(s: State, id: Id, job: Job, now: int, lease: int, later: int, timeout: int, x: Id)
    requires now != 0
    ensures var t := RenewCopy(s, id, job, now, lease);
            && (x != id ==> SameAt(s, t, x)) && RestSame(s, t) && QueuedSameAt(s, t, id) && DeadSameAt(s, t, id)
            && id in t.vault && t.vault[id] == job.(processedOn := Some(now)) && id in t.active && t.active[id] == lease
            && (IsZombie(t, id, later, timeout) <==> lease <= later && later - now > timeout)
            && (id in s.vault && s.vault[id] == job ==> t == Renew(s, id, now, lease))
  {
  }

  // ---- Releasing ----

  /** The record a release reads: without a stored job, no priority. */
  function ReleasedJob(s: State, c: Id): Job
  {
    if c in s.vault then s.vault[c] else Job(0, 0, Waiting, 0, 0, None, [], false, None, None, None, None)
  }

  /** No longer parked, and queued where the stored priority says. */
  ghost predicate ReleasedAt(s: State, t: State, c: Id)
  {
    c !in t.blocked && QueuedAt(s, t, c, ReleasedJob(s, c))
  }

  ghost predicate ParkedSameAt(s: State, t: State, c: Id)
  {
    (c in t.blocked <==> c in s.blocked) && QueuedSameAt(s, t, c)
  }

  lemma UnparkExact(s: State, c: Id, x: Id)
    ensures var t := Unpark(s, c);
            && t.tokens == s.tokens + 1 && t.vault == s.vault && s.waiting <= t.waiting
            && if x == c then ReleasedAt(s, t, x) else ParkedSameAt(s, t, x)
  {
  }

  lemma UncountExact(s: State, p: Id, c: Id, x: Id)
    ensures var t := Uncount(s, p, c); ParkedSameAt(s, t, x) && t.tokens == s.tokens && t.vault == s.vault && t.waiting == s.waiting
  {
  }

  lemma UnblockOneExact(s: State, p: Id, c: Id, x: Id)
    ensures var t := UnblockOne(s, p, c);
            && t.vault == s.vault && s.waiting <= t.waiting
            && (if x == c && Spent(s, c) && c in s.blocked then ReleasedAt(s, t, x) else ParkedSameAt(s, t, x))
  {
    UncountExact(s, p, c, x);
    if Spent(s, c) && c in s.blocked {
      UnparkExact(Uncount(s, p, c), c, x);
    }
  }

  lemma ThenParkedSame(s: State, t: State, u: State, x: Id)
    requires t.vault == s.vault
    ensures ReleasedAt(s, t, x) && ParkedSameAt(t, u, x) ==> ReleasedAt(s, u, x)
    ensures ParkedSameAt(s, t, x) && ReleasedAt(t, u, x) ==> ReleasedAt(s, u, x)
    ensures ParkedSameAt(s, t, x) && ParkedSameAt(t, u, x) ==> ParkedSameAt(s, u, x)
  {
  }

  /** unblock releases exactly the parked children whose counter this parent spends,
      each into the queue where its stored priority says, at the end of the list. */
  lemma {:induction false} UnblockExact(s: State, p: Id, order: seq<Id>, x: Id)
    requires NoDup(order)
    ensures var t := UnblockAll(s, p, order);
            && t.vault == s.vault && s.waiting <= t.waiting
            && if x in order && Spent(s, x) && x in s.blocked then ReleasedAt(s, t, x) else ParkedSameAt(s, t, x)
    decreases |order|
  {
    if order == [] {
    } else {
      var t := UnblockOne(s, p, order[0]);
      UnblockOneExact(s, p, order[0], x);
      UnblockExact(t, p, order[1..], x);
      if x != order[0] {
        UnblockOneSteps(s, p, order[0], x);
        SpentSame(s, t, x);
      }
      ThenParkedSame(s, t, UnblockAll(t, p, order[1..]), x);
    }
  }

  lemma SpentSame(s: State, t: State, x: Id)
    requires Untouched(s, t, x)
    ensures Spent(t, x) <==> Spent(s, x)
  {
  }

  /** promoteIfUnblocked acts exactly on a counter that exists and is spent. */
  lemma PromoteIfUnblockedExact(s: State, id: Id, priority: nat, timestamp: int, x: Id)
    ensures var t := PromoteIfUnblocked(s, id, priority, timestamp);
            var job := ReleasedJob(s, id).(priority := priority, timestamp := timestamp);
            && t.vault == s.vault && (x != id ==> ParkedSameAt(s, t, x) && CountOf(t, x) == CountOf(s, x))
            && if id in s.count && s.count[id] <= 0
               then id !in t.blocked && id !in t.count && id !in t.named && QueuedAt(s, t, id, job) && t.tokens == s.tokens + 1
               else ParkedSameAt(s, t, id) && t.count == s.count && t.tokens == s.tokens
  {
  }

  // ---- Draining and postponing ----

  /** After a drain nothing is queued or delayed, no token of either kind is left, and
      only the jobs that were queued or delayed are gone. */
  lemma DrainExact(s: State, x: Id)
    ensures var t := Drain(s);
            && Queued(t) == [] && t.delayed == map[] && t.tokens == 0 && t.delayedTokens == 0
            && (x in t.vault <==> x in s.vault && x !in s.waiting && x !in s.prioritized && x !in s.delayed)
            && (x in t.vault ==> t.vault[x] == s.vault[x])
            && t.active == s.active && t.completed == s.completed && t.failed == s.failed && t.blocked == s.blocked
            && t.dlq == s.dlq && t.count == s.count && t.childEdges == s.childEdges && t.parentEdges == s.parentEdges
  {
  }

  /** A postponed job keeps the worker's record, as retrying, and pays a delayed token. */
  lemma PostponeExact(s: State, id: Id, job: Job, at: int, x: Id)
    ensures var t := Postpone(s, id, job, at);
            && (x != id ==> SameAt(s, t, x)) && t.tokens == s.tokens && t.delayedTokens == s.delayedTokens + 1
            && id in t.vault && t.vault[id] == job.(status := Retrying)
            && id !in t.active && id in t.delayed && t.delayed[id] == at
  {
  }

  // ---- Retrying, and failing for good ----

  /** A retried job is out of the DLQ and the failed set, stored as given, and queued once:
      it counts once in the list however often it was there before. */
  lemma RetryExact(s: State, id: Id, job: Job, x: Id)
    ensures var t := RetryJob(s, id, job);
            && (x != id ==> SameAt(s, t, x)) && RestSame(s, t) && t.active == s.active && t.tokens == s.tokens + 1
            && id !in t.dlq && id !in t.failed && id in t.vault && t.vault[id] == job
            && (t.waiting == [] || job.priority > 0 || t.waiting[|t.waiting| - 1] == id)
            && if job.priority > 0 then id in t.prioritized && t.prioritized[id] == Score(job.priority, job.timestamp) && t.waiting == s.waiting
               else multiset(t.waiting)[id] == 1 && t.prioritized == s.prioritized
  {
  }

  /** Dead because a job it listed as a child died, and no longer parked. */
  predicate BuriedAsParent(s: State, t: State, x: Id, now: int)
    requires x in s.vault
  {
    && x in t.vault && t.vault[x] == s.vault[x].(status := Dead, failedReason := Some("child failed"))
    && x in t.dlq && t.dlq[x] == t.vault[x] && x in t.failed && t.failed[x] == now
    && x !in t.blocked && x !in t.count && x !in t.named
  }

  ghost predicate NotBuried(s: State, t: State, x: Id)
  {
    && (x in t.vault <==> x in s.vault) && (x in s.vault ==> t.vault[x] == s.vault[x]) && DeadSameAt(s, t, x)
    && (x in t.blocked <==> x in s.blocked) && (x in t.count <==> x in s.count) && (x in t.named <==> x in s.named)
  }

  lemma BuryStoredExact(s: State, t: State, p: Id, now: int, x: Id)
    requires p in s.vault && t == BuryParent(s, p, now)
    ensures if x == p then BuriedAsParent(s, t, x, now) else NotBuried(s, t, x)
  {
  }

  lemma BuryParentExact(s: State, p: Id, now: int, x: Id)
    ensures var t := BuryParent(s, p, now);
            if x == p && x in s.vault then BuriedAsParent(s, t, x, now) else NotBuried(s, t, x)
  {
    if p in s.vault {
      BuryStoredExact(s, BuryParent(s, p, now), p, now, x);
    }
  }

  lemma NotBuriedOn(s: State, t: State, u: State, x: Id, now: int)
    requires NotBuried(s, t, x)
    ensures NotBuried(t, u, x) ==> NotBuried(s, u, x)
    ensures x in s.vault && BuriedAsParent(t, u, x, now) ==> BuriedAsParent(s, u, x, now)
  {
  }

  lemma BuriedOn(s: State, t: State, u: State, x: Id, now: int)
    requires x in s.vault && BuriedAsParent(s, t, x, now) && (NotBuried(t, u, x) || BuriedAsParent(t, u, x, now))
    ensures BuriedAsParent(s, u, x, now)
  {
  }

  /** Exactly the listed jobs that are stored are buried. */
  lemma {:induction false} BuryParentsExact(s: State, ps: seq<Id>, now: int, x: Id)
    ensures var t := BuryParents(s, ps, now);
            if x in ps && x in s.vault then BuriedAsParent(s, t, x, now) else NotBuried(s, t, x)
    decreases |ps|
  {
    if ps == [] {
    } else {
      var t := BuryParent(s, ps[0], now);
      var u := BuryParents(t, ps[1..], now);
      BuryParentExact(s, ps[0], now, x);
      BuryParentsExact(t, ps[1..], now, x);
      if x == ps[0] && x in s.vault {
        BuriedOn(s, t, u, x, now);
      } else {
        NotBuriedOn(s, t, u, x, now);
      }
    }
  }

  /** A job that fails for good: finalizeJob as dead, then the worker's copy goes to the DLQ,
      and, if it carries a flow flag, exactly the parents it lists that are stored die too. */
  lemma KillExact(s: State, id: Id, job: Job, reason: string, now: int, keep: int, publish: bool, x: Id)
    ensures var m := Finalize(s, id, Outcome(false, reason, ""), now, keep, publish);
            var c := m.(dlq := m.dlq[id := job.(status := Dead, failedReason := Some(reason))]);
            var t := Kill(s, id, job, reason, now, keep, publish);
            if job.flow && x in job.parents && x in m.vault then BuriedAsParent(m, t, x, now) else NotBuried(c, t, x)
  {
    var m := Finalize(s, id, Outcome(false, reason, ""), now, keep, publish);
    var c := m.(dlq := m.dlq[id := job.(status := Dead, failedReason := Some(reason))]);
    if job.flow {
      BuryParentsExact(c, job.parents, now, x);
    }
  }
}

/**
 The events the scripts publish: each one tells of a move that was made, and no move
 that is to be told goes untold.
 */
module Events {
  import opened Redis
  import opened Model
  import opened Machine
  import opened Placement
  import opened Sweep
  import opened Dag
  import opened Runs

  function Announced(kind: EventKind, ids: seq<Id>): seq<Event>
    decreases |ids|
  {
    if ids == [] then [] else [Event(kind, ids[0])] + Announced(kind, ids[1..])
  }

  lemma {:induction false} AnnouncedMembers(kind: EventKind, ids: seq<Id>, e: Event)
    ensures e in Announced(kind, ids) <==> e.kind == kind && e.id in ids
    decreases |ids|
  {
    if ids == [] {
    } else {
      AnnouncedMembers(kind, ids[1..], e);
      assert ids == [ids[0]] + ids[1..];
      if e.kind == kind && e.id == ids[0] {
        assert e == Event(kind, ids[0]);
      }
    }
  }

  lemma AnnouncedCons(kind: EventKind, ids: seq<Id>)
    requires ids != []
    ensures Announced(kind, ids) == [Event(kind, ids[0])] + Announced(kind, ids[1..])
  {
  }

  // ---- The scripts that loop ----

  lemma PromoteOneTells(s: State, id: Id)
    ensures PromoteOne(s, id).events == s.events + [Event(WaitingEvent, id)]
  {
  }

  lemma {:induction false} PromoteAllTells(s: State, ids: seq<Id>)
    ensures PromoteAll(s, ids).events == s.events + Announced(WaitingEvent, ids)
    decreases |ids|
  {
    if ids == [] {
    } else {
      PromoteOneTells(s, ids[0]);
      PromoteAllTells(PromoteOne(s, ids[0]), ids[1..]);
      AnnouncedCons(WaitingEvent, ids);
    }
  }

  /** A due job is announced, in the order of the times. */
  lemma PromoteTells(s: State, now: int) returns (due: seq<Id>)
    ensures Promote(s, now).events == s.events + Announced(WaitingEvent, due)
    ensures Ordered(s.delayed, due) && forall x :: x in due <==> Due(s, x, now)
  {
    due := ByScore(Between(s.delayed, 0, now));
    PromoteAllTells(s, due);
    BetweenInOrder(s.delayed, now);
  }

  /** What the lease sweep publishes of an expired job. */
  predicate SweepTells(vault: map<Id, Job>, e: Event)
  {
    && e.id in vault
    && e.kind == if vault[e.id].attempts >= vault[e.id].maxretries then FailedEvent else StalledEvent
  }

  lemma RecoverOneTells(s: State, id: Id, now: int) returns (news: seq<Event>)
    ensures RecoverOne(s, id, now).events == s.events + news
    ensures forall e :: e in news <==> e.id == id && SweepTells(s.vault, e)
  {
    if id !in s.vault {
      news := [];
    } else if s.vault[id].attempts >= s.vault[id].maxretries {
      news := [Event(FailedEvent, id)];
    } else {
      news := [Event(StalledEvent, id)];
    }
  }

  lemma {:induction false} RecoverAllTells(s: State, ids: seq<Id>, now: int) returns (news: seq<Event>)
    requires NoDup(ids)
    ensures RecoverAll(s, ids, now).events == s.events + news
    ensures forall e :: e in news <==> e.id in ids && SweepTells(s.vault, e)
    decreases |ids|
  {
    if ids == [] {
      news := [];
    } else {
      var t := RecoverOne(s, ids[0], now);
      var first := RecoverOneTells(s, ids[0], now);
      var rest := RecoverAllTells(t, ids[1..], now);
      news := first + rest;
      RecoverOneQueues(s, ids[0], now);
      RestTells(s, t, ids, rest);
    }
  }

  lemma RestTells(s: State, t: State, ids: seq<Id>, rest: seq<Event>)
    requires ids != [] && NoDup(ids) && OthersStored(s, t, ids[0])
    requires forall e :: e in rest <==> e.id in ids[1..] && SweepTells(t.vault, e)
    ensures forall e :: e in rest <==> e.id in ids[1..] && SweepTells(s.vault, e)
  {
    forall x | x in ids[1..]
      ensures x != ids[0]
    {
    }
  }

  /** Every expired lease of a stored job is announced: as failed when its attempts are
      used up, as stalled otherwise. */
  lemma RecoverTells(s: State, now: int) returns (news: seq<Event>)
    ensures Recover(s, now).events == s.events + news
    ensures forall e :: e in news <==> Expired(s, e.id, now) && SweepTells(s.vault, e)
  {
    var ids := ByScore(Between(s.active, 0, now));
    ByScoreSorted(Between(s.active, 0, now));
    news := RecoverAllTells(s, ids, now);
    HealTells(RecoverAll(s, ids, now));
    ExpiredIds(s, now);
  }

  lemma HealTells(s: State)
    ensures Heal(s).events == s.events
  {
  }

  lemma ExpiredIds(s: State, now: int)
    ensures forall x :: x in ByScore(Between(s.active, 0, now)) <==> Expired(s, x, now)
  {
  }

  lemma UnparkTells(s: State, c: Id)
    ensures Unpark(s, c).events == s.events + [Event(WaitingEvent, c)] && Unpark(s, c).blocked == s.blocked - {c}
  {
  }

  lemma UnblockOneTells(s: State, p: Id, c: Id)
    ensures var t := UnblockOne(s, p, c);
            && t.blocked <= s.blocked && s.blocked - t.blocked <= {c}
            && t.events == s.events + if c in s.blocked && c !in t.blocked then [Event(WaitingEvent, c)] else []
  {
    if Spent(s, c) && c in s.blocked {
      UnparkTells(Uncount(s, p, c), c);
    }
  }

  /** What is published is who left `blocked`. */
  ghost predicate Frees(s: State, t: State, freed: seq<Id>)
  {
    && t.blocked <= s.blocked && t.events == s.events + Announced(WaitingEvent, freed)
    && forall x :: x in freed <==> x in s.blocked && x !in t.blocked
  }

  lemma FreesFirst(s: State, t: State, u: State, c: Id, rest: seq<Id>) returns (freed: seq<Id>)
    requires t.blocked <= s.blocked && s.blocked - t.blocked <= {c} && Frees(t, u, rest)
    requires t.events == s.events + if c in s.blocked && c !in t.blocked then [Event(WaitingEvent, c)] else []
    ensures Frees(s, u, freed)
  {
    freed := rest;
    if c in s.blocked && c !in t.blocked {
      freed := [c] + rest;
      assert freed[1..] == rest;
    }
    forall x
      ensures x in freed <==> x in s.blocked && x !in u.blocked
    {
      assert x in s.blocked && x !in t.blocked ==> x in s.blocked - t.blocked;
    }
  }

  /** unblock announces exactly the jobs it releases. */
  lemma {:induction false} UnblockTells(s: State, p: Id, order: seq<Id>) returns (freed: seq<Id>)
    ensures Frees(s, UnblockAll(s, p, order), freed)
    decreases |order|
  {
    if order == [] {
      freed := [];
    } else {
      var t := UnblockOne(s, p, order[0]);
      UnblockOneTells(s, p, order[0]);
      var rest := UnblockTells(t, p, order[1..]);
      freed := FreesFirst(s, t, UnblockAll(t, p, order[1..]), order[0], rest);
    }
  }

  lemma DeleteOneTells(s: State, id: Id)
    ensures DeleteOne(s, id).events == s.events + [Event(RemovedEvent, id)]
  {
  }

  lemma {:induction false} DeleteAllTells(s: State, ids: seq<Id>)
    ensures DeleteAll(s, ids).events == s.events + Announced(RemovedEvent, ids)
    decreases |ids|
  {
    if ids == [] {
    } else {
      DeleteOneTells(s, ids[0]);
      DeleteAllTells(DeleteOne(s, ids[0]), ids[1..]);
      AnnouncedCons(RemovedEvent, ids);
    }
  }

  // ---- What a step publishes ----

  /** The move an event tells of. */
  predicate Told(s: State, t: State, op: Op, e: Event)
  {
    match e.kind
    case WaitingEvent =>
      || (op.Complete? && e.id in s.blocked && e.id !in t.blocked)
      || (op.PromoteDue? && e.id in s.delayed && e.id !in t.delayed)
    case ActiveEvent => (op.Take? || op.Complete?) && op.publish && e.id in t.active && e.id !in s.active
    case DelayedEvent => op.AddLater? && op.id == e.id && e.id !in s.vault && e.id in t.delayed
    case CompletedEvent => op.Complete? && op.publish && e.id == op.id
    case FailedEvent =>
      || (op.Fail? && op.publish && e.id == op.id && e.id !in t.delayed)
      || (op.RecoverExpired? && e.id in s.active && e.id in t.failed)
    case StalledEvent => op.RecoverExpired? && e.id in s.active && e.id !in t.active && e.id in t.vault && e.id !in t.failed
    case RemovedEvent => op.Delete? && e.id in op.ids
  }

  /** The events grew by some that are true of e. */
  ghost predicate Publishes(s: State, t: State, e: Event, told: bool)
  {
    s.events <= t.events && (e in t.events[|s.events|..] <==> told)
  }

  lemma PublishesNews(s: State, t: State, news: seq<Event>, e: Event)
    requires t.events == s.events + news
    ensures Publishes(s, t, e, e in news)
  {
    assert t.events[|s.events|..] == news;
  }

  lemma {:induction false} AddBulkTells(s: State, items: seq<BulkItem>)
    ensures AddBulk(s, items).events == s.events
    decreases |items|
  {
    if items == [] {
    } else {
      AddBulkTells(AddBulkOne(s, items[0]), items[1..]);
    }
  }

  lemma PickTells(s: State, id: Id, stamp: int, lease: int)
    requires id in s.vault
    ensures Pick(s, id, stamp, lease).events == s.events
  {
  }

  lemma PopMinTells(b: Batch, lease: int)
    requires b.s.prioritized != map[]
    ensures PopMin(b, lease).s.events == b.s.events
  {
    DropMinTells(b.s);
    if Least(b.s.prioritized) in b.s.vault {
      PickTells(DropMin(b.s), Least(b.s.prioritized), lease, lease);
    }
  }

  lemma DropMinTells(s: State)
    requires s.prioritized != map[]
    ensures DropMin(s).events == s.events && DropMin(s).vault == s.vault
  {
  }

  lemma TakeWaitingTells(b: Batch, id: Id, lease: int)
    ensures TakeWaiting(b, id, lease).s.events == b.s.events
  {
  }

  lemma {:induction false} FirstPhaseTells(b: Batch, n: nat, lease: int)
    ensures BatchPrioritized(b, n, lease).s.events == b.s.events
    decreases |b.s.prioritized|
  {
    if |b.taken| >= n || b.s.prioritized == map[] {
    } else {
      LessOne(b.s.prioritized, Least(b.s.prioritized));
      PopMinTells(b, lease);
      FirstPhaseTells(PopMin(b, lease), n, lease);
    }
  }

  lemma {:induction false} SecondPhaseTells(b: Batch, ids: seq<Id>, lease: int)
    ensures BatchWaiting(b, ids, lease).s.events == b.s.events
    decreases |ids|
  {
    if ids == [] {
    } else {
      TakeWaitingTells(b, ids[0], lease);
      SecondPhaseTells(TakeWaiting(b, ids[0], lease), ids[1..], lease);
    }
  }

  lemma BatchTells(s: State, n: nat, lease: int)
    ensures BatchDequeue(s, n, lease).s.events == s.events
  {
    var b := BatchPrioritized(Batch(s, []), n, lease);
    FirstPhaseTells(Batch(s, []), n, lease);
    SecondPhaseTells(b, StillWanted(b, n), lease);
  }

  predicate Silent(op: Op)
  {
    || op.Add? || op.Depend? || op.AddMany? || op.PushTokens? || op.TakeMany? || op.RenewLease? || op.SweepZombie?
    || op.RetryDead? || op.CheckUnblocked? || op.DrainAll? || op.CleanUp?
  }

  lemma DependTells(s: State, id: Id, job: Job)
    ensures AddDependent(s, id, job).events == s.events
  {
    StoreTells(s, id, job);
    LinkTells(StoreRunnable(s, id, job), id, job.parents);
    LinkTells(Park(s, id, job, CountPending(s, job.parents)), id, job.parents);
  }

  lemma StoreTells(s: State, id: Id, job: Job)
    ensures StoreRunnable(s, id, job).events == s.events
  {
  }

  lemma LinkTells(s: State, id: Id, ps: seq<Id>)
    ensures Link(s, id, ps).events == s.events
  {
  }

  lemma RetryTells(s: State, id: Id)
    ensures Effect(s, RetryDead(id)).events == s.events
  {
  }

  lemma QuietOpTells(s: State, op: Op)
    requires op.Add? || op.PushTokens? || op.RenewLease? || op.DrainAll? || op.CleanUp?
    ensures Effect(s, op).events == s.events
  {
  }

  lemma SilentTells(w: System, op: Op)
    requires Right(w) && Silent(op)
    ensures Effect(w.s, op).events == w.s.events
  {
    if op.AddMany? {
      AddBulkTells(w.s, op.items);
    } else if op.TakeMany? {
      BatchTells(w.s, op.n, op.lease);
    } else if op.CheckUnblocked? {
      PromoteIfUnblockedIsIdle(w.s, w.awaits, op.id, StoredPriority(w.s, op.id), StoredTimestamp(w.s, op.id));
    } else if op.SweepZombie? {
      ZombieTells(w.s, op.id, op.now, op.timeout);
    } else if op.Depend? {
      DependTells(w.s, op.id, op.job);
    } else if op.RetryDead? {
      RetryTells(w.s, op.id);
    } else {
      QuietOpTells(w.s, op);
    }
  }

  lemma ZombieTells(s: State, id: Id, now: int, timeout: int)
    ensures BuryZombie(s, id, now, timeout).events == s.events
  {
    if IsZombie(s, id, now, timeout) {
      BuryActiveTells(s, id, now);
    }
  }

  lemma BuryActiveTells(s: State, id: Id, now: int)
    requires id in s.vault
    ensures BuryActive(s, id, now).events == s.events
  {
  }

  /** What a dequeue publishes, and how the active set grows. */
  ghost predicate Takes(s: State, t: State, publish: bool, taken: Option<Id>)
  {
    && t.events == s.events + (if publish && taken.Some? then [Event(ActiveEvent, taken.value)] else [])
    && t.active.Keys == s.active.Keys + (if taken.Some? then {taken.value} else {})
    && t.blocked == s.blocked
    && (taken.Some? ==> taken.value !in s.active)
  }

  lemma QueuedIsNotActive(s: State, id: Id)
    requires OnePlace(s) && Next(s) == Some(id)
    ensures id !in s.active
  {
    PlaceAtMostOnce(s, id);
    assert id in s.waiting <==> multiset(s.waiting)[id] > 0;
  }

  lemma PickTakes(s: State, t: State, id: Id, stamp: int, lease: int, publish: bool)
    requires id in s.vault && id !in s.active
    requires t == Pick(s, id, stamp, lease).(events := Published(s, publish, ActiveEvent, id))
    ensures Takes(s, t, publish, Some(id))
  {
  }

  lemma DequeueTakes(s: State, now: int, lock: int, publish: bool)
    requires OnePlace(s)
    ensures Takes(s, Dequeue(s, now, lock, publish), publish, Next(s))
  {
    if Next(s).Some? {
      QueuedIsNotActive(s, Next(s).value);
      PickTakes(Pop(s), Dequeue(s, now, lock, publish), Next(s).value, now, now + lock, publish);
    }
  }

  lemma TakeTells(s: State, t: State, op: Op, taken: Option<Id>, e: Event)
    requires op.Take? && Takes(s, t, op.publish, taken)
    ensures Publishes(s, t, e, Told(s, t, op, e))
  {
    PublishesNews(s, t, if op.publish && taken.Some? then [Event(ActiveEvent, taken.value)] else [], e);
  }

  lemma EffectOfTake(s: State, op: Op)
    requires op.Take?
    ensures Effect(s, op) == Dequeue(s, op.now, op.lock, op.publish)
  {
  }

  // ---- Completing ----

  lemma ClosingTells(s: State, op: Op)
    requires op.Complete?
    ensures var c := Closing(s, op);
            && c.events == s.events + (if op.publish then [Event(CompletedEvent, op.id)] else [])
            && c.active.Keys == s.active.Keys - {op.id} && c.blocked == s.blocked
  {
    FinalizeTells(s, op.id, Outcome(true, op.value, op.progress), op.now, op.keep, op.publish);
  }

  lemma FinalizeTells(s: State, id: Id, o: Outcome, now: int, keep: int, publish: bool)
    ensures var c := Finalize(s, id, o, now, keep, publish);
            && c.events == s.events + (if publish then [Event(if o.completed then CompletedEvent else FailedEvent, id)] else [])
            && c.active.Keys == s.active.Keys - {id} && c.blocked == s.blocked && c.delayed == s.delayed
  {
  }

  /** The next job, if the script fetches one. */
  function Fetched(s: State, op: Op): Option<Id>
    requires op.Complete?
  {
    if op.fetch.Some? then Next(Closing(s, op)) else None
  }

  lemma FetchTells(s: State, c: State, m: State, op: Op, taken: Option<Id>)
    requires op.Complete? && OnePlace(c)
    requires m == if op.fetch.Some? then Dequeue(c, op.now, op.fetch.value - op.now, op.publish) else c
    requires taken == if op.fetch.Some? then Next(c) else None
    ensures Takes(c, m, op.publish, taken)
  {
    if op.fetch.Some? {
      DequeueTakes(c, op.now, op.fetch.value - op.now, op.publish);
    }
  }

  function CompletionNews(op: Op, taken: Option<Id>, freed: seq<Id>): seq<Event>
    requires op.Complete?
  {
    (if op.publish then [Event(CompletedEvent, op.id)] else [])
    + (if op.publish && taken.Some? then [Event(ActiveEvent, taken.value)] else [])
    + Announced(WaitingEvent, freed)
  }

  lemma CompletionMembers(op: Op, taken: Option<Id>, freed: seq<Id>, e: Event)
    requires op.Complete?
    ensures e in CompletionNews(op, taken, freed)
       <==> || (op.publish && e == Event(CompletedEvent, op.id))
            || (op.publish && taken.Some? && e == Event(ActiveEvent, taken.value))
            || (e.kind == WaitingEvent && e.id in freed)
  {
    AnnouncedMembers(WaitingEvent, freed, e);
  }

  lemma CompletionTold(s: State, t: State, op: Op, taken: Option<Id>, freed: seq<Id>, e: Event)
    requires op.Complete? && t.events == s.events + CompletionNews(op, taken, freed)
    requires forall x :: x in freed <==> x in s.blocked && x !in t.blocked
    requires t.active.Keys == s.active.Keys - {op.id} + (if taken.Some? then {taken.value} else {})
    requires taken.Some? ==> taken.value !in s.active
    ensures Publishes(s, t, e, Told(s, t, op, e))
  {
    CompletionMembers(op, taken, freed, e);
    PublishesNews(s, t, CompletionNews(op, taken, freed), e);
  }

  lemma FetchedWasQueued(s: State, op: Op)
    requires op.Complete? && OnePlace(s) && Fetched(s, op).Some?
    ensures Fetched(s, op).value !in s.active
  {
    var c := Closing(s, op);
    ClosingQueues(s, c, op);
    NextIsQueued(c);
    PlaceAtMostOnce(s, Next(c).value);
    assert Next(c).value in s.waiting <==> multiset(s.waiting)[Next(c).value] > 0;
  }

  lemma ClosingQueues(s: State, c: State, op: Op)
    requires op.Complete? && c == Closing(s, op)
    ensures c.waiting == s.waiting && c.prioritized == s.prioritized
  {
  }

  lemma NextIsQueued(s: State)
    requires Next(s).Some?
    ensures Next(s).value in s.waiting || Next(s).value in s.prioritized
  {
  }

  lemma CompleteTells(w: System, op: Op, e: Event)
    requires Right(w) && op.Complete? && Legal(w, op)
    ensures Publishes(w.s, Settle(w.s, op), e, Told(w.s, Settle(w.s, op), op, e))
  {
    var m, t := Finished(w.s, op), Settle(w.s, op);
    ClosingTells(w.s, op);
    ClosingPlaces(w.s, op);
    FetchTells(w.s, Closing(w.s, op), m, op, Fetched(w.s, op));
    if Fetched(w.s, op).Some? {
      FetchedWasQueued(w.s, op);
    }
    var freed := SettleTells(w.s, m, t, op);
    CompletionAdds(w.s, Closing(w.s, op), m, t, op, Fetched(w.s, op), freed);
    CompletionTold(w.s, t, op, Fetched(w.s, op), freed, e);
  }

  lemma SettleTells(s: State, m: State, t: State, op: Op) returns (freed: seq<Id>)
    requires op.Complete? && t == if op.id in s.vault && s.vault[op.id].flow then UnblockAll(m, op.id, op.order) else m
    ensures Frees(m, t, freed) && t.active == m.active
  {
    if op.id in s.vault && s.vault[op.id].flow {
      freed := UnblockTells(m, op.id, op.order);
      UnblockFrame(m, op.id, op.order);
    } else {
      freed := [];
    }
  }

  lemma CompletionAdds(s: State, c: State, m: State, t: State, op: Op, taken: Option<Id>, freed: seq<Id>)
    requires op.Complete? && c.events == s.events + (if op.publish then [Event(CompletedEvent, op.id)] else [])
    requires c.active.Keys == s.active.Keys - {op.id} && c.blocked == s.blocked
    requires Takes(c, m, op.publish, taken) && Frees(m, t, freed) && t.active == m.active
    ensures t.events == s.events + CompletionNews(op, taken, freed)
    ensures forall x :: x in freed <==> x in s.blocked && x !in t.blocked
    ensures t.active.Keys == s.active.Keys - {op.id} + (if taken.Some? then {taken.value} else {})
  {
  }

  // ---- Failing, and the rest ----

  lemma BuryParentTells(s: State, p: Id, now: int)
    ensures BuryParent(s, p, now).events == s.events && BuryParent(s, p, now).delayed == s.delayed
  {
  }

  lemma {:induction false} BuryParentsTell(s: State, ps: seq<Id>, now: int)
    ensures BuryParents(s, ps, now).events == s.events && BuryParents(s, ps, now).delayed == s.delayed
    decreases |ps|
  {
    if ps == [] {
    } else {
      BuryParentTells(s, ps[0], now);
      BuryParentsTell(BuryParent(s, ps[0], now), ps[1..], now);
    }
  }

  lemma KillTells(s: State, id: Id, job: Job, reason: string, now: int, keep: int, publish: bool)
    ensures var t := Kill(s, id, job, reason, now, keep, publish);
            t.events == s.events + (if publish then [Event(FailedEvent, id)] else []) && t.delayed == s.delayed
  {
    FinalizeTells(s, id, Outcome(false, reason, ""), now, keep, publish);
    var s1 := Finalize(s, id, Outcome(false, reason, ""), now, keep, publish);
    BuryParentsTell(s1.(dlq := s1.dlq[id := job.(status := Dead, failedReason := Some(reason))]), job.parents, now);
  }

  lemma PostponeTells(s: State, id: Id, job: Job, at: int)
    ensures var t := Postpone(s, id, job, at); t.events == s.events && id in t.delayed
  {
  }

  lemma EffectOfFail(s: State, op: Op)
    requires op.Fail? && op.id in s.vault
    ensures Effect(s, op) == if Postpones(s, op.id, op.fatal) then Postpone(s, op.id, s.vault[op.id], op.at)
                             else Kill(s, op.id, s.vault[op.id], op.reason, op.now, op.keep, op.publish)
  {
  }

  lemma FailTold(s: State, t: State, op: Op, killed: bool, e: Event)
    requires op.Fail? && t.events == s.events + (if killed && op.publish then [Event(FailedEvent, op.id)] else [])
    requires op.id in t.delayed <==> !killed
    ensures Publishes(s, t, e, Told(s, t, op, e))
  {
    PublishesNews(s, t, if killed && op.publish then [Event(FailedEvent, op.id)] else [], e);
  }

  lemma FailTells(s: State, t: State, op: Op, e: Event)
    requires op.Fail? && op.id in s.vault && op.id !in s.delayed
    requires t == if Postpones(s, op.id, op.fatal) then Postpone(s, op.id, s.vault[op.id], op.at)
                  else Kill(s, op.id, s.vault[op.id], op.reason, op.now, op.keep, op.publish)
    ensures Publishes(s, t, e, Told(s, t, op, e))
  {
    if Postpones(s, op.id, op.fatal) {
      PostponeTells(s, op.id, s.vault[op.id], op.at);
    } else {
      KillTells(s, op.id, s.vault[op.id], op.reason, op.now, op.keep, op.publish);
    }
    FailTold(s, t, op, !Postpones(s, op.id, op.fatal), e);
  }

  lemma AddDelayedTells(s: State, id: Id, job: Job, at: int)
    ensures var t := AddDelayed(s, id, job, at);
            && t.events == s.events + (if id in s.vault then [] else [Event(DelayedEvent, id)])
            && (id !in s.vault ==> id in t.delayed)
  {
  }

  lemma ToldOfDelay(s: State, t: State, op: Op, e: Event)
    requires op.AddLater? && (op.id !in s.vault ==> op.id in t.delayed)
    ensures Told(s, t, op, e) <==> op.id !in s.vault && e == Event(DelayedEvent, op.id)
  {
  }

  lemma AddLaterTells(s: State, t: State, op: Op, e: Event)
    requires op.AddLater? && t == AddDelayed(s, op.id, op.job, op.at)
    ensures Publishes(s, t, e, Told(s, t, op, e))
  {
    AddDelayedTells(s, op.id, op.job, op.at);
    ToldOfDelay(s, t, op, e);
    NewsTold(s, t, op, if op.id in s.vault then [] else [Event(DelayedEvent, op.id)], e);
  }

  lemma PromoteDueTells(s: State, t: State, op: Op, e: Event)
    requires op.PromoteDue? && t == Promote(s, op.now)
    ensures Publishes(s, t, e, Told(s, t, op, e))
  {
    var due := PromoteTells(s, op.now);
    PublishesNews(s, t, Announced(WaitingEvent, due), e);
    AnnouncedMembers(WaitingEvent, due, e);
    PromoteExact(s, op.now, e.id);
  }

  lemma SweptTold(s: State, t: State, now: int, e: Event)
    requires OnePlace(s) && if Expired(s, e.id, now) then SweptAt(s, t, e.id, now) else SameAt(s, t, e.id)
    ensures Expired(s, e.id, now) && SweepTells(s.vault, e) <==>
            || (e.kind == FailedEvent && e.id in s.active && e.id in t.failed)
            || (e.kind == StalledEvent && e.id in s.active && e.id !in t.active && e.id in t.vault && e.id !in t.failed)
  {
    PlaceAtMostOnce(s, e.id);
  }

  lemma RecoverTold(s: State, t: State, now: int, e: Event)
    requires OnePlace(s) && t == Recover(s, now)
    ensures Expired(s, e.id, now) && SweepTells(s.vault, e) <==>
            || (e.kind == FailedEvent && e.id in s.active && e.id in t.failed)
            || (e.kind == StalledEvent && e.id in s.active && e.id !in t.active && e.id in t.vault && e.id !in t.failed)
  {
    SweepExact(s, now, e.id);
    SweptTold(s, t, now, e);
  }

  lemma NewsTold(s: State, t: State, op: Op, news: seq<Event>, e: Event)
    requires t.events == s.events + news && (e in news <==> Told(s, t, op, e))
    ensures Publishes(s, t, e, Told(s, t, op, e))
  {
    PublishesNews(s, t, news, e);
  }

  lemma ToldOfSweep(s: State, t: State, op: Op, e: Event)
    requires op.RecoverExpired?
    ensures Told(s, t, op, e) <==>
            || (e.kind == FailedEvent && e.id in s.active && e.id in t.failed)
            || (e.kind == StalledEvent && e.id in s.active && e.id !in t.active && e.id in t.vault && e.id !in t.failed)
  {
  }

  lemma RecoverExpiredTells(s: State, t: State, op: Op, now: int, e: Event)
    requires op.RecoverExpired? && OnePlace(s) && t == Recover(s, now)
    ensures Publishes(s, t, e, Told(s, t, op, e))
  {
    RecoverTold(s, t, now, e);
    var news := RecoverTells(s, now);
    ToldOfSweep(s, t, op, e);
    NewsTold(s, t, op, news, e);
  }

  lemma ToldOfDeletion(s: State, t: State, op: Op, e: Event)
    requires op.Delete?
    ensures Told(s, t, op, e) <==> e.kind == RemovedEvent && e.id in op.ids
  {
  }

  lemma DeleteTells(s: State, t: State, op: Op, c: State, e: Event)
    requires op.Delete? && c.events == s.events && t == DeleteAll(c, op.ids)
    ensures Publishes(s, t, e, Told(s, t, op, e))
  {
    DeleteAllTells(c, op.ids);
    AnnouncedMembers(RemovedEvent, op.ids, e);
    ToldOfDeletion(s, t, op, e);
    NewsTold(s, t, op, Announced(RemovedEvent, op.ids), e);
  }

  lemma TimedTells(s: State, op: Op, e: Event)
    requires OnePlace(s) && (op.AddLater? || op.PromoteDue? || op.RecoverExpired? || op.Delete?)
    ensures Publishes(s, Effect(s, op), e, Told(s, Effect(s, op), op, e))
  {
    if op.AddLater? {
      AddLaterTells(s, Effect(s, op), op, e);
    } else if op.PromoteDue? {
      PromoteDueTells(s, Effect(s, op), op, e);
    } else if op.RecoverExpired? {
      RecoverExpiredTells(s, Effect(s, op), op, op.now, e);
    } else {
      DeleteTells(s, Effect(s, op), op, Cut(s, Members(op.ids)), e);
    }
  }

  lemma WorkTells(w: System, op: Op, e: Event)
    requires Right(w) && Legal(w, op) && (op.Take? || op.Complete? || op.Fail?)
    ensures Publishes(w.s, Effect(w.s, op), e, Told(w.s, Effect(w.s, op), op, e))
  {
    if op.Take? {
      EffectOfTake(w.s, op);
      DequeueTakes(w.s, op.now, op.lock, op.publish);
      TakeTells(w.s, Effect(w.s, op), op, Next(w.s), e);
    } else if op.Complete? {
      CompleteTells(w, op, e);
    } else {
      PlaceAtMostOnce(w.s, op.id);
      EffectOfFail(w.s, op);
      FailTells(w.s, Effect(w.s, op), op, e);
    }
  }

  lemma NothingTold(s: State, t: State, op: Op, e: Event)
    requires Silent(op) && t.events == s.events
    ensures Publishes(s, t, e, Told(s, t, op, e))
  {
    assert t.events == s.events + [];
    PublishesNews(s, t, [], e);
  }

  /** Events are only ever appended, and a step appends an event exactly if it makes the
      move the event tells of. */
  lemma StepTells(w: System, op: Op, e: Event)
    requires Right(w) && Legal(w, op)
    ensures var t := Effect(w.s, op);
            w.s.events <= t.events && (e in t.events[|w.s.events|..] <==> Told(w.s, t, op, e))
  {
    if Silent(op) {
      SilentTells(w, op);
      NothingTold(w.s, Effect(w.s, op), op, e);
    } else if op.Take? || op.Complete? || op.Fail? {
      WorkTells(w, op, e);
    } else {
      TimedTells(w.s, op, e);
    }
  }
}

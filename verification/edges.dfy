/**
 The dependency edges and what every operation keeps of them.
 */
module Edges {
  import opened Redis
  import opened Model
  import opened Machine
  import opened Placement
  import opened Dag

  /** Children sets and parent sets mirror each other; every awaited parent still
      has its edge; and an edge nobody waits for starts at a settled job. */
  ghost predicate EdgesRight(s: State, awaits: map<Id, set<Id>>)
  {
    && s.childEdges == s.parentEdges
    && (forall p: Id, j: Id :: p in Awaiting(awaits, j) ==> (p, j) in s.childEdges)
    && (forall p: Id, c: Id :: (p, c) in s.childEdges ==> Settled(s, p) || p in Awaiting(awaits, c))
  }

  /** Whoever is awaited is stored, will call unblock, has not completed, and was
      stored before the job that awaits it. */
  ghost predicate AwaitedRight(w: System)
  {
    forall p: Id, j: Id :: p in Awaiting(w.awaits, j) ==> AwaitedBy(w, p, j)
  }

  ghost predicate AwaitedBy(w: System, p: Id, j: Id)
  {
    && p in w.s.vault && w.s.vault[p].flow && p !in w.s.completed
    && j in w.s.vault && p in w.rank && j in w.rank && w.rank[p] < w.rank[j]
  }

  ghost predicate Ranked(w: System)
  {
    forall id :: id in w.s.vault ==> id in w.rank && w.rank[id] < w.clock
  }

  /** The DLQ copy of a dead job carries the same flow flag as the vault copy. */
  ghost predicate CopiesRight(s: State)
  {
    forall id :: id in s.dlq && id in s.failed && id in s.vault ==> s.dlq[id].flow == s.vault[id].flow
  }

  ghost predicate DagRight(w: System)
  {
    && Counters(w.s, w.awaits) && EdgesRight(w.s, w.awaits) && AwaitedRight(w) && Ranked(w) && CopiesRight(w.s)
  }

  // ---- Operations that leave the dependencies alone ----

  ghost predicate SameFlows(s: State, t: State)
  {
    forall id :: id in s.vault ==> id in t.vault && t.vault[id].flow == s.vault[id].flow
  }

  ghost predicate SameEdges(s: State, t: State)
  {
    && t.count == s.count && t.named == s.named && t.blocked == s.blocked
    && t.childEdges == s.childEdges && t.parentEdges == s.parentEdges
  }

  ghost predicate Quiet(s: State, t: State)
  {
    SameEdges(s, t) && SameFlows(s, t) && t.completed.Keys == s.completed.Keys && s.failed.Keys <= t.failed.Keys
  }

  lemma QuietChain(s: State, t: State, u: State)
    requires Quiet(s, t) && Quiet(t, u)
    ensures Quiet(s, u)
  {
  }

  function After(w: System, t: State): System
  {
    System(t, w.awaits, RankAfter(w, t), w.clock + 1)
  }

  lemma RanksKept(w: System, t: State)
    requires Ranked(w)
    ensures Ranked(After(w, t))
    ensures forall id :: id in w.s.vault ==> id in RankAfter(w, t) && RankAfter(w, t)[id] == w.rank[id]
  {
  }

  lemma QuietAwaited(w: System, t: State)
    requires AwaitedRight(w) && Ranked(w) && SameFlows(w.s, t) && t.completed.Keys == w.s.completed.Keys
    ensures AwaitedRight(After(w, t))
  {
    RanksKept(w, t);
    forall p: Id, j: Id | p in Awaiting(w.awaits, j)
      ensures AwaitedBy(After(w, t), p, j)
    {
      assert AwaitedBy(w, p, j);
      assert p in t.completed.Keys <==> p in w.s.completed.Keys;
    }
  }

  lemma QuietEdges(s: State, t: State, awaits: map<Id, set<Id>>)
    requires Counters(s, awaits) && EdgesRight(s, awaits) && Quiet(s, t)
    ensures Counters(t, awaits) && EdgesRight(t, awaits)
  {
    forall j
      ensures CounterOf(t, awaits, j)
    {
      assert CounterOf(s, awaits, j);
    }
    forall p: Id, c: Id | (p, c) in t.childEdges
      ensures Settled(t, p) || p in Awaiting(awaits, c)
    {
      assert p in s.completed.Keys <==> p in t.completed.Keys;
      assert p in s.failed.Keys ==> p in t.failed.Keys;
    }
  }

  /** Dead jobs untouched: their copies stay right because their ids stay stored. */
  ghost predicate SameDead(s: State, t: State)
  {
    t.dlq == s.dlq && t.failed.Keys == s.failed.Keys
  }

  lemma CopiesKept(s: State, t: State)
    requires OnePlace(s) && CopiesRight(s) && SameFlows(s, t) && SameDead(s, t)
    ensures CopiesRight(t)
  {
    forall id | id in t.dlq && id in t.failed && id in t.vault
      ensures t.dlq[id].flow == t.vault[id].flow
    {
      assert id in s.failed.Keys;
      PlaceAtMostOnce(s, id);
    }
  }

  lemma QuietKeepsDag(w: System, t: State)
    requires DagRight(w) && Quiet(w.s, t) && CopiesRight(t)
    ensures DagRight(After(w, t))
  {
    QuietEdges(w.s, t, w.awaits);
    QuietAwaited(w, t);
    RanksKept(w, t);
  }

  ghost predicate Calm(s: State, t: State)
  {
    Quiet(s, t) && SameDead(s, t)
  }

  lemma CalmKeepsDag(w: System, t: State)
    requires DagRight(w) && OnePlace(w.s) && Calm(w.s, t)
    ensures DagRight(After(w, t))
  {
    CopiesKept(w.s, t);
    QuietKeepsDag(w, t);
  }

  lemma StoreCalm(s: State, id: Id, job: Job)
    requires id !in s.vault
    ensures Calm(s, StoreRunnable(s, id, job))
  {
  }

  lemma AddCalm(s: State, id: Id, job: Job)
    ensures Calm(s, AddJob(s, id, job))
  {
    if id !in s.vault {
      StoreCalm(s, id, job);
    }
  }

  lemma DelayCalm(s: State, id: Id, job: Job, at: int, delayedTokens: nat, events: seq<Event>)
    requires id !in s.vault
    ensures Calm(s, s.(vault := s.vault[id := job], delayed := s.delayed[id := at], delayedTokens := delayedTokens,
                       events := events))
  {
  }

  lemma AddDelayedCalm(s: State, id: Id, job: Job, at: int)
    ensures Calm(s, AddDelayed(s, id, job, at))
  {
    if id !in s.vault {
      DelayCalm(s, id, job, at, s.delayedTokens + 1, Published(s, true, DelayedEvent, id));
    }
  }

  lemma CalmChain(s: State, t: State, u: State)
    requires Calm(s, t) && Calm(t, u)
    ensures Calm(s, u)
  {
  }

  lemma AddBulkOneCalm(s: State, i: BulkItem)
    ensures Calm(s, AddBulkOne(s, i))
  {
    if i.id !in s.vault {
      if i.later {
        DelayCalm(s, i.id, i.job, i.job.timestamp, s.delayedTokens, s.events);
      } else {
        assert Calm(s, Enqueue(s, i.id, i.job.priority, i.job.timestamp).(vault := s.vault[i.id := i.job]));
      }
    }
  }

  lemma {:induction false} AddBulkCalm(s: State, items: seq<BulkItem>)
    ensures Calm(s, AddBulk(s, items))
    decreases |items|
  {
    if items == [] {
    } else {
      var t := AddBulkOne(s, items[0]);
      AddBulkOneCalm(s, items[0]);
      AddBulkCalm(t, items[1..]);
      CalmChain(s, t, AddBulk(t, items[1..]));
    }
  }

  lemma PickCalm(s: State, id: Id, stamp: int, lease: int)
    requires id in s.vault
    ensures Calm(s, Pick(s, id, stamp, lease))
  {
  }

  lemma PopCalm(s: State)
    ensures Calm(s, Pop(s)) && Pop(s).vault == s.vault
  {
  }

  lemma DequeueCalm(s: State, now: int, lock: int, publish: bool)
    ensures Calm(s, Dequeue(s, now, lock, publish))
  {
    PopCalm(s);
    if Next(s).Some? {
      var id := Next(s).value;
      var u := Pick(Pop(s), id, now, now + lock);
      PickCalm(Pop(s), id, now, now + lock);
      CalmChain(s, Pop(s), u);
      EventsCalm(u, Published(s, publish, ActiveEvent, id));
      CalmChain(s, u, u.(events := Published(s, publish, ActiveEvent, id)));
    }
  }

  lemma EventsCalm(s: State, events: seq<Event>)
    ensures Calm(s, s.(events := events))
  {
  }

  lemma PopMinCalm(b: Batch, lease: int)
    requires b.s.prioritized != map[]
    ensures Calm(b.s, PopMin(b, lease).s)
  {
    var t := DropMin(b.s);
    assert Calm(b.s, t);
    if Least(b.s.prioritized) in b.s.vault {
      PickCalm(t, Least(b.s.prioritized), lease, lease);
    }
  }

  lemma {:induction false} BatchPrioritizedCalm(b: Batch, n: nat, lease: int)
    ensures Calm(b.s, BatchPrioritized(b, n, lease).s)
    decreases |b.s.prioritized|
  {
    if |b.taken| >= n || b.s.prioritized == map[] {
    } else {
      LessOne(b.s.prioritized, Least(b.s.prioritized));
      PopMinCalm(b, lease);
      BatchPrioritizedCalm(PopMin(b, lease), n, lease);
      CalmChain(b.s, PopMin(b, lease).s, BatchPrioritized(PopMin(b, lease), n, lease).s);
    }
  }

  lemma TakeWaitingCalm(b: Batch, id: Id, lease: int)
    ensures Calm(b.s, TakeWaiting(b, id, lease).s)
  {
    if id in b.s.vault {
      PickCalm(b.s, id, lease, lease);
    }
  }

  lemma {:induction false} BatchWaitingCalm(b: Batch, ids: seq<Id>, lease: int)
    ensures Calm(b.s, BatchWaiting(b, ids, lease).s)
    decreases |ids|
  {
    if ids == [] {
    } else {
      TakeWaitingCalm(b, ids[0], lease);
      BatchWaitingCalm(TakeWaiting(b, ids[0], lease), ids[1..], lease);
      CalmChain(b.s, TakeWaiting(b, ids[0], lease).s, BatchWaiting(TakeWaiting(b, ids[0], lease), ids[1..], lease).s);
    }
  }

  lemma BatchDequeueCalm(s: State, n: nat, lease: int)
    ensures Calm(s, BatchDequeue(s, n, lease).s)
  {
    var b := BatchPrioritized(Batch(s, []), n, lease);
    BatchPrioritizedCalm(Batch(s, []), n, lease);
    BatchWaitingCalm(b, StillWanted(b, n), lease);
    CalmChain(s, b.s, BatchDequeue(s, n, lease).s);
  }

  lemma RenewCalm(s: State, id: Id, now: int, lease: int)
    requires id in s.vault
    ensures Calm(s, Renew(s, id, now, lease))
  {
  }

  lemma PostponeCalm(s: State, id: Id, at: int)
    requires id in s.vault
    ensures Calm(s, Postpone(s, id, s.vault[id], at))
  {
  }

  lemma PromoteOneCalm(s: State, id: Id)
    ensures Calm(s, PromoteOne(s, id))
  {
  }

  lemma {:induction false} PromoteAllCalm(s: State, ids: seq<Id>)
    ensures Calm(s, PromoteAll(s, ids))
    decreases |ids|
  {
    if ids == [] {
    } else {
      PromoteOneCalm(s, ids[0]);
      PromoteAllCalm(PromoteOne(s, ids[0]), ids[1..]);
      CalmChain(s, PromoteOne(s, ids[0]), PromoteAll(PromoteOne(s, ids[0]), ids[1..]));
    }
  }

  // ---- recoverStalled, zombie sweep ----

  lemma DeadLetterQuiet(s: State, id: Id, now: int)
    requires CopiesRight(s) && id in s.vault
    ensures Quiet(s, DeadLetter(s, id, now)) && CopiesRight(DeadLetter(s, id, now))
  {
  }

  lemma RequeueQuiet(s: State, id: Id)
    requires CopiesRight(s) && id in s.vault
    ensures Quiet(s, Requeue(s, id)) && CopiesRight(Requeue(s, id))
  {
  }

  lemma LeaveQuiet(s: State, id: Id)
    requires CopiesRight(s)
    ensures Quiet(s, s.(active := s.active - {id})) && CopiesRight(s.(active := s.active - {id}))
  {
  }

  lemma RecoverOneQuiet(s: State, id: Id, now: int)
    requires CopiesRight(s)
    ensures Quiet(s, RecoverOne(s, id, now)) && CopiesRight(RecoverOne(s, id, now))
  {
    if id !in s.vault {
      LeaveQuiet(s, id);
    } else if s.vault[id].attempts >= s.vault[id].maxretries {
      DeadLetterQuiet(s, id, now);
    } else {
      RequeueQuiet(s, id);
    }
  }

  lemma {:induction false} RecoverAllQuiet(s: State, ids: seq<Id>, now: int)
    requires CopiesRight(s)
    ensures Quiet(s, RecoverAll(s, ids, now)) && CopiesRight(RecoverAll(s, ids, now))
    decreases |ids|
  {
    if ids == [] {
    } else {
      var t := RecoverOne(s, ids[0], now);
      RecoverOneQuiet(s, ids[0], now);
      RecoverAllQuiet(t, ids[1..], now);
      QuietChain(s, t, RecoverAll(t, ids[1..], now));
    }
  }

  lemma RecoverQuiet(s: State, now: int)
    requires CopiesRight(s)
    ensures Quiet(s, Recover(s, now)) && CopiesRight(Recover(s, now))
  {
    var ids := ByScore(Between(s.active, 0, now));
    var t := RecoverAll(s, ids, now);
    RecoverAllQuiet(s, ids, now);
    assert Quiet(t, Heal(t));
    QuietChain(s, t, Heal(t));
  }

  lemma BuryActiveQuiet(s: State, id: Id, now: int)
    requires CopiesRight(s) && id in s.vault
    ensures Quiet(s, BuryActive(s, id, now)) && CopiesRight(BuryActive(s, id, now))
  {
  }

  lemma ZombieQuiet(s: State, id: Id, now: int, timeout: int)
    requires CopiesRight(s)
    ensures Quiet(s, BuryZombie(s, id, now, timeout)) && CopiesRight(BuryZombie(s, id, now, timeout))
  {
    LeaveQuiet(s, id);
    if id in s.vault {
      BuryActiveQuiet(s, id, now);
    }
  }
}

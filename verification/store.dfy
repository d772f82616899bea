/**
 The Redis structures of one queue as mutable fields, and every Lua script as a
 method that updates them step by step, proved to have exactly the effect that
 the function of the same name in module Model describes.
 */
module Store {
  import opened Redis
  import opened Model

  /** SMEMBERS: the members of a set in an order nobody promises. */
  method SMembers(members: set<Id>) returns (order: seq<Id>)
    ensures Enumerates(order, members)
  {
    order := [];
    var rest := members;
    while rest != {}
      invariant rest <= members
      invariant NoDup(order)
      invariant forall c :: c in order <==> c in members - rest
      decreases rest
    {
      var c :| c in rest;
      assert c !in order;
      rest := rest - {c};
      ghost var longer := order + [c];
      forall i, j | 0 <= i < j < |longer|
        ensures longer[i] != longer[j]
      {
        assert longer[i] == order[i];
      }
      order := order + [c];
    }
  }

  class QueueStore {
    var vault: map<Id, Job>
    var waiting: seq<Id>
    var prioritized: ZSet
    var active: ZSet
    var delayed: ZSet
    var completed: ZSet
    var failed: ZSet
    var blocked: set<Id>
    var dlq: map<Id, Job>
    var tokens: nat
    var delayedTokens: nat
    var childEdges: set<(Id, Id)>
    var parentEdges: set<(Id, Id)>
    var count: map<Id, int>
    var named: set<Id>
    var events: seq<Event>

    constructor ()
      ensures Now() == EMPTY
    {
      vault, waiting, prioritized, active := map[], [], map[], map[];
      delayed, completed, failed, blocked := map[], map[], map[], {};
      dlq, tokens, delayedTokens := map[], 0, 0;
      childEdges, parentEdges, count, named, events := {}, {}, map[], {}, [];
    }

    ghost function Now(): State
      reads this
    {
      State(vault, waiting, prioritized, active, delayed, completed, failed, blocked, dlq,
            tokens, delayedTokens, childEdges, parentEdges, count, named, events)
    }

    // ---- Commands several scripts share ----

    /** ZADD to prioritized, or RPUSH to waiting. */
    method EnqueueStep(id: Id, priority: nat, timestamp: int)
      modifies `prioritized, `waiting
      ensures Now() == Enqueue(old(Now()), id, priority, timestamp)
    {
      if priority > 0 {
        prioritized := prioritized[id := Score(priority, timestamp)];
      } else {
        waiting := waiting + [id];
      }
    }

    /** Read the priority back from the vault, enqueue, push a token. */
    method ReleaseStep(id: Id)
      modifies `prioritized, `waiting, `tokens
      ensures Now() == Release(old(Now()), id)
    {
      if id in vault && vault[id].priority > 0 {
        prioritized := prioritized[id := Score(vault[id].priority, vault[id].timestamp)];
      } else {
        waiting := waiting + [id];
      }
      tokens := tokens + 1;
    }

    /** Mark a stored job as picked up, and give it a lease. */
    method PickStep(id: Id, stamp: int, lease: int)
      requires id in vault
      modifies `vault, `active
      ensures Now() == Pick(old(Now()), id, stamp, lease)
    {
      var job := vault[id];
      if job.processedOn == None {
        job := job.(attempts := job.attempts + 1);
      }
      job := job.(status := Active, processedOn := Some(stamp));
      vault := vault[id := job];
      active := active[id := lease];
    }

    // ---- addJob, addDelayed, signal ----

    method AddJobScript(id: Id, job: Job) returns (code: nat)
      modifies this
      ensures code == if id in old(vault) then 0 else 1
      ensures Now() == AddJob(old(Now()), id, job)
    {
      if id in vault {
        return 0;
      }
      StoreStep(id, job);
      return 1;
    }

    method StoreStep(id: Id, job: Job)
      modifies `vault, `prioritized, `waiting, `tokens
      ensures Now() == StoreRunnable(old(Now()), id, job)
    {
      vault := vault[id := job];
      EnqueueStep(id, job.priority, job.timestamp);
      tokens := tokens + 1;
    }

    /** addJob in parent mode. */
    method AddDependentScript(id: Id, job: Job) returns (code: nat)
      modifies this
      ensures Now() == AddDependent(old(Now()), id, job)
      ensures code == 0 || code == 1 || code == 2
      ensures code == 0 <==> id in old(vault)
      ensures code == 0 ==> Now() == old(Now())
      ensures code == 1 ==> blocked == old(blocked) + {id} && id in count && count[id] == CountPending(old(Now()), job.parents) > 0
      ensures code == 1 ==> waiting == old(waiting) && prioritized == old(prioritized) && tokens == old(tokens)
      ensures code == 2 ==> blocked == old(blocked) && count == old(count) && tokens == old(tokens) + 1
      ensures code == 2 ==> if job.priority > 0 then prioritized == old(prioritized)[id := Score(job.priority, job.timestamp)]
                            else waiting == old(waiting) + [id]
    {
      if id in vault {
        return 0;
      }
      var pending := CountPendingStep(job.parents);
      if pending == 0 {
        StoreStep(id, job);
        code := 2;
      } else {
        ParkStep(id, job, pending);
        code := 1;
      }
      LinkStep(id, job.parents);
    }

    method ParkStep(id: Id, job: Job, pending: nat)
      modifies `vault, `blocked, `count, `named
      ensures Now() == Park(old(Now()), id, job, pending)
    {
      vault := vault[id := job];
      blocked := blocked + {id};
      count := count[id := pending];
      named := named + {id};
    }

    method LinkStep(id: Id, ps: seq<Id>)
      modifies `childEdges, `parentEdges
      ensures Now() == Link(old(Now()), id, ps)
    {
      var i := 0;
      while i < |ps|
        invariant 0 <= i <= |ps|
        invariant childEdges == old(childEdges) + EdgesTo(id, ps[..i])
        invariant parentEdges == old(parentEdges) + EdgesTo(id, ps[..i])
      {
        assert ps[..i + 1] == ps[..i] + [ps[i]];
        assert EdgesTo(id, ps[..i + 1]) == EdgesTo(id, ps[..i]) + {(ps[i], id)};
        childEdges := childEdges + {(ps[i], id)};
        parentEdges := parentEdges + {(ps[i], id)};
        i := i + 1;
      }
      assert ps[..i] == ps;
    }

    method CountPendingStep(ps: seq<Id>) returns (pending: nat)
      ensures pending == CountPending(Now(), ps)
    {
      pending := 0;
      var i := 0;
      while i < |ps|
        invariant 0 <= i <= |ps|
        invariant pending + CountPending(Now(), ps[i..]) == CountPending(Now(), ps)
      {
        if !(ps[i] in completed || ps[i] in dlq) {
          pending := pending + 1;
        }
        i := i + 1;
      }
    }

    method AddDelayedScript(id: Id, job: Job, at: int) returns (code: nat)
      modifies this
      ensures code == if id in old(vault) then 0 else 1
      ensures Now() == AddDelayed(old(Now()), id, job, at)
    {
      if id in vault {
        return 0;
      }
      vault := vault[id := job];
      delayed := delayed[id := at];
      delayedTokens := delayedTokens + 1;
      events := events + [Event(DelayedEvent, id)];
      return 1;
    }

    method SignalScript(id: Id, at: int)
      modifies this
      ensures Now() == Signal(old(Now()), id, at)
    {
      delayed := delayed[id := at];
      delayedTokens := delayedTokens + 1;
    }

    /** addBulk.lua: the flags say which items were created. */
    method AddBulkScript(items: seq<BulkItem>) returns (created: seq<bool>)
      modifies this
      ensures created == BulkCreated(old(Now()), items)
      ensures Now() == AddBulk(old(Now()), items)
    {
      created := [];
      var i := 0;
      while i < |items|
        invariant 0 <= i <= |items|
        invariant AddBulk(Now(), items[i..]) == AddBulk(old(Now()), items)
        invariant created + BulkCreated(Now(), items[i..]) == BulkCreated(old(Now()), items)
      {
        var isNew := AddBulkStep(items[i]);
        created := created + [isNew];
        i := i + 1;
      }
    }

    method AddBulkStep(item: BulkItem) returns (isNew: bool)
      modifies `vault, `delayed, `prioritized, `waiting
      ensures isNew == (item.id !in old(vault))
      ensures Now() == AddBulkOne(old(Now()), item)
    {
      isNew := item.id !in vault;
      if isNew {
        vault := vault[item.id := item.job];
        if item.later {
          delayed := delayed[item.id := item.job.timestamp];
        } else {
          EnqueueStep(item.id, item.job.priority, item.job.timestamp);
        }
      }
    }

    method DequeueScript(now: int, lock: int, publish: bool) returns (taken: Option<Id>)
      modifies this
      ensures taken == Next(old(Now()))
      ensures Now() == Dequeue(old(Now()), now, lock, publish)
    {
      taken := PopStep();
      if taken.Some? && taken.value in vault {
        PickStep(taken.value, now, now + lock);
        if publish {
          events := events + [Event(ActiveEvent, taken.value)];
        }
      } else {
        taken := None;
      }
    }

    method PopStep() returns (id: Option<Id>)
      modifies `prioritized, `waiting
      ensures id == Popped(old(Now()))
      ensures Now() == Pop(old(Now()))
    {
      if prioritized != map[] {
        var m := Least(prioritized);
        prioritized := prioritized - {m};
        id := Some(m);
      } else if waiting != [] {
        id := Some(waiting[0]);
        waiting := waiting[1..];
      } else {
        id := None;
      }
    }

    method BatchDequeueScript(n: nat, lease: int) returns (taken: seq<Id>)
      modifies this
      ensures Batch(Now(), taken) == BatchDequeue(old(Now()), n, lease)
    {
      taken := PrioritizedPhase(n, lease);
      if |taken| < n {
        taken := WaitingPhase(Head(waiting, n - |taken|), lease, taken);
      }
    }

    method PrioritizedPhase(n: nat, lease: int) returns (taken: seq<Id>)
      modifies this
      ensures Batch(Now(), taken) == BatchPrioritized(Batch(old(Now()), []), n, lease)
    {
      taken := [];
      while |taken| < n && prioritized != map[]
        invariant BatchPrioritized(Batch(Now(), taken), n, lease) == BatchPrioritized(Batch(old(Now()), []), n, lease)
        decreases |prioritized|
      {
        taken := PopMinStep(lease, taken);
      }
    }

    /** ZPOPMIN, and the pickup when the popped id has a stored job. */
    method PopMinStep(lease: int, before: seq<Id>) returns (taken: seq<Id>)
      requires prioritized != map[]
      modifies `prioritized, `vault, `active
      ensures |prioritized| < old(|prioritized|)
      ensures Batch(Now(), taken) == PopMin(Batch(old(Now()), before), lease)
    {
      var id := Least(prioritized);
      LessOne(prioritized, id);
      prioritized := prioritized - {id};
      taken := before;
      if id in vault {
        PickStep(id, lease, lease);
        taken := taken + [id];
      }
    }

    method WaitingPhase(ids: seq<Id>, lease: int, before: seq<Id>) returns (taken: seq<Id>)
      modifies this
      ensures Batch(Now(), taken) == BatchWaiting(Batch(old(Now()), before), ids, lease)
    {
      taken := before;
      var i := 0;
      while i < |ids|
        invariant 0 <= i <= |ids|
        invariant BatchWaiting(Batch(Now(), taken), ids[i..], lease)
               == BatchWaiting(Batch(old(Now()), before), ids, lease)
      {
        if ids[i] in vault {
          PickWaitingStep(ids[i], lease);
          taken := taken + [ids[i]];
        }
        i := i + 1;
      }
    }

    method PickWaitingStep(id: Id, lease: int)
      requires id in vault
      modifies `vault, `active, `waiting
      ensures Now() == PickWaiting(old(Now()), id, lease)
    {
      PickStep(id, lease, lease);
      waiting := DropFirst(waiting, id);
    }

    // ---- finalizeJob ----

    /** With `fetch`, the script goes on to take the next job itself. */
    method FinalizeScript(id: Id, o: Outcome, now: int, keep: int, publish: bool, fetch: bool, lease: int)
      returns (next: Option<Id>)
      modifies this
      ensures !fetch ==> next == None && Now() == Finalize(old(Now()), id, o, now, keep, publish)
      ensures fetch ==>
                var s := Finalize(old(Now()), id, o, now, keep, publish);
                next == Next(s) && Now() == Dequeue(s, now, lease - now, publish)
    {
      CloseStep(id, o, now);
      TrimStep(o.completed, keep);
      if publish {
        events := events + [Event(if o.completed then CompletedEvent else FailedEvent, id)];
      }
      next := None;
      if fetch {
        next := FetchNextStep(now, lease, publish);
      }
    }

    method CloseStep(id: Id, o: Outcome, now: int)
      modifies `vault, `active, `completed, `failed
      ensures Now() == Close(old(Now()), id, o, now)
    {
      if id in vault {
        var job := vault[id].(status := if o.completed then Completed else Dead, finishedOn := Some(now));
        if o.completed {
          job := job.(returnvalue := if o.value != "" then Some(o.value) else None);
        } else {
          job := job.(failedReason := Some(o.value));
        }
        if o.progress != "" {
          job := job.(progress := Some(o.progress));
        }
        vault := vault[id := job];
      }
      active := active - {id};
      if o.completed {
        completed := completed[id := now];
      } else {
        failed := failed[id := now];
      }
    }

    method TrimStep(onCompleted: bool, keep: int)
      modifies this
      ensures Now() == Trim(old(Now()), onCompleted, keep)
    {
      var ids := Beyond(if onCompleted then completed else failed, keep);
      EvictStep(ids, onCompleted);
    }

    /** The retention loops over the completed and the failed ZSET. */
    method EvictStep(ids: seq<Id>, onCompleted: bool)
      modifies `vault, `completed, `failed, `dlq
      ensures Now() == Erase(old(Now()), onCompleted, Unpinned(old(Now()), ids))
    {
      ghost var s := Now();
      var i := 0;
      assert ErasedSoFar(s, onCompleted, Unpinned(s, ids[..i]));
      while i < |ids|
        invariant 0 <= i <= |ids|
        invariant ErasedSoFar(s, onCompleted, Unpinned(s, ids[..i]))
      {
        UnpinnedSnoc(s, ids, i);
        ConsiderStep(s, ids[i], onCompleted, Unpinned(s, ids[..i]));
        i := i + 1;
      }
      assert ids[..i] == ids;
    }

    ghost predicate ErasedSoFar(s: State, onCompleted: bool, gone: set<Id>)
      reads this
    {
      && vault == s.vault - gone
      && completed == (if onCompleted then s.completed - gone else s.completed)
      && failed == (if onCompleted then s.failed else s.failed - gone)
      && dlq == (if onCompleted then s.dlq else s.dlq - gone)
      && count == s.count && childEdges == s.childEdges
    }

    method ConsiderStep(ghost s: State, id: Id, onCompleted: bool, ghost gone: set<Id>)
      requires ErasedSoFar(s, onCompleted, gone)
      modifies `vault, `completed, `failed, `dlq
      ensures ErasedSoFar(s, onCompleted, if Pinned(s, id) then gone else gone + {id})
    {
      var hasCount := id in count;
      var hasChildren := Kids(childEdges, id) != {};
      if !hasCount && !hasChildren {
        EraseStep(id, onCompleted);
        MinusMinus(s.vault, gone, {id});
        MinusMinus(s.completed, gone, {id});
        MinusMinus(s.failed, gone, {id});
        MinusMinus(s.dlq, gone, {id});
      }
    }

    method EraseStep(id: Id, onCompleted: bool)
      modifies `vault, `completed, `failed, `dlq
      ensures vault == old(vault) - {id}
      ensures completed == if onCompleted then old(completed) - {id} else old(completed)
      ensures failed == if onCompleted then old(failed) else old(failed) - {id}
      ensures dlq == if onCompleted then old(dlq) else old(dlq) - {id}
    {
      vault := vault - {id};
      if onCompleted {
        completed := completed - {id};
      } else {
        failed := failed - {id};
        dlq := dlq - {id};
      }
    }

    /** The dequeue written out a second time at the end of finalizeJob. */
    method FetchNextStep(now: int, lease: int, publish: bool) returns (next: Option<Id>)
      modifies this
      ensures next == Next(old(Now()))
      ensures Now() == Dequeue(old(Now()), now, lease - now, publish)
    {
      next := None;
      if prioritized != map[] {
        next := Some(Least(prioritized));
        prioritized := prioritized - {next.value};
      } else if waiting != [] {
        next := Some(waiting[0]);
        waiting := waiting[1..];
      }
      assert next == Popped(old(Now())) && Now() == Pop(old(Now()));
      if next.Some? && next.value in vault {
        PickStep(next.value, now, lease);
        if publish {
          events := events + [Event(ActiveEvent, next.value)];
        }
      } else {
        next := None;
      }
    }

    // ---- unblock, promoteIfUnblocked ----

    method UnblockScript(p: Id) returns (n: nat, ghost order: seq<Id>)
      modifies this
      ensures Enumerates(order, Kids(old(childEdges), p)) && n == |order|
      ensures Now() == UnblockAll(old(Now()), p, order)
    {
      var kids := SMembers(Kids(childEdges, p));
      order := kids;
      n := |kids|;
      var i := 0;
      while i < |kids|
        invariant 0 <= i <= |kids|
        invariant UnblockAll(Now(), p, kids[i..]) == UnblockAll(old(Now()), p, kids)
      {
        UnblockStep(p, kids[i]);
        i := i + 1;
      }
    }

    method UnblockStep(p: Id, c: Id)
      modifies this
      ensures Now() == UnblockOne(old(Now()), p, c)
    {
      var spent := UncountStep(p, c);
      if spent && c in blocked {
        ReleaseStep(c);
        events := events + [Event(WaitingEvent, c)];
        blocked := blocked - {c};
      }
    }

    /** SREM both ways, DECR, and delete the counter and the name once it is spent. */
    method UncountStep(p: Id, c: Id) returns (spent: bool)
      modifies `childEdges, `parentEdges, `count, `named
      ensures spent == Spent(old(Now()), c)
      ensures Now() == Uncount(old(Now()), p, c)
    {
      childEdges := childEdges - {(p, c)};
      parentEdges := parentEdges - {(p, c)};
      spent := DecrementStep(c);
    }

    method DecrementStep(c: Id) returns (spent: bool)
      modifies `count, `named
      ensures spent == Spent(old(Now()), c)
      ensures count == if spent then old(count) - {c} else old(count)[c := CountOf(old(Now()), c) - 1]
      ensures named == if spent then old(named) - {c} else old(named)
    {
      var left := (if c in count then count[c] else 0) - 1;
      spent := left <= 0 && c in named;
      if spent {
        count := count - {c};
        named := named - {c};
      } else {
        count := count[c := left];
      }
    }

    method PromoteIfUnblockedScript(id: Id, priority: nat, timestamp: int) returns (promoted: bool)
      modifies this
      ensures promoted == CountSpent(old(Now()), id)
      ensures Now() == PromoteIfUnblocked(old(Now()), id, priority, timestamp)
    {
      promoted := false;
      if id in count && count[id] <= 0 {
        EnqueueStep(id, priority, timestamp);
        count := count - {id};
        named := named - {id};
        blocked := blocked - {id};
        tokens := tokens + 1;
        events := events + [Event(WaitingEvent, id)];
        promoted := true;
      }
    }

    // ---- promote, recoverStalled, retry, drain ----

    method PromoteScript(now: int) returns (ids: seq<Id>)
      modifies this
      ensures ids == ByScore(Between(old(delayed), 0, now))
      ensures Now() == Promote(old(Now()), now)
    {
      ids := ByScore(Between(delayed, 0, now));
      var i := 0;
      while i < |ids|
        invariant 0 <= i <= |ids|
        invariant PromoteAll(Now(), ids[i..]) == PromoteAll(old(Now()), ids)
      {
        PromoteStep(ids[i]);
        i := i + 1;
      }
    }

    method PromoteStep(id: Id)
      modifies this
      ensures Now() == PromoteOne(old(Now()), id)
    {
      ReleaseStep(id);
      delayed := delayed - {id};
      events := events + [Event(WaitingEvent, id)];
    }

    method RecoverScript(now: int) returns (moved: nat)
      modifies this
      ensures moved == |Between(old(active), 0, now)|
      ensures Now() == Recover(old(Now()), now)
    {
      var ids := ByScore(Between(active, 0, now));
      moved := 0;
      while moved < |ids|
        invariant 0 <= moved <= |ids|
        invariant RecoverAll(Now(), ids[moved..], now) == RecoverAll(old(Now()), ids, now)
      {
        RecoverStep(ids[moved], now);
        moved := moved + 1;
      }
      HealStep();
    }

    method RecoverStep(id: Id, now: int)
      modifies this
      ensures Now() == RecoverOne(old(Now()), id, now)
    {
      if id !in vault {
        active := active - {id};
      } else if vault[id].attempts >= vault[id].maxretries {
        DeadLetterStep(id, now);
      } else {
        ReleaseStep(id);
        vault := vault[id := vault[id].(status := Waiting)];
        events := events + [Event(StalledEvent, id)];
        active := active - {id};
      }
    }

    method DeadLetterStep(id: Id, now: int)
      requires id in vault
      modifies `vault, `dlq, `failed, `active, `events
      ensures Now() == DeadLetter(old(Now()), id, now)
    {
      var job := vault[id].(status := Dead, failedReason := Some("job stalled"));
      vault := vault[id := job];
      dlq := dlq[id := job];
      failed := failed[id := now];
      events := events + [Event(FailedEvent, id)];
      active := active - {id};
    }

    /** One token at a time until there are as many as queued ids. */
    method HealStep()
      modifies `tokens
      ensures Now() == Heal(old(Now()))
    {
      var total := |waiting| + |prioritized|;
      if tokens < total {
        var missing := total - tokens;
        for k := 0 to missing
          invariant tokens == total - missing + k
        {
          tokens := tokens + 1;
        }
      }
    }

    method RetryScript(id: Id, job: Job)
      modifies this
      ensures Now() == RetryJob(old(Now()), id, job)
    {
      dlq := dlq - {id};
      failed := failed - {id};
      if job.priority == 0 {
        waiting := Purge(waiting, id);
      }
      StoreStep(id, job);
    }

    method DrainScript()
      modifies this
      ensures Now() == Drain(old(Now()))
    {
      DrainedInThree(Now());
      DrainListStep();
      vault := DrainZset(prioritized, vault);
      prioritized := map[];
      vault := DrainZset(delayed, vault);
      delayed := map[];
      tokens := 0;
      delayedTokens := 0;
    }

    /** LRANGE, HDEL and LTRIM in batches of at most 500 ids. */
    method DrainListStep()
      modifies `vault, `waiting
      ensures waiting == []
      ensures vault == old(vault) - (set x | x in old(waiting))
    {
      var done := 0;
      while waiting != []
        invariant 0 <= done <= |old(waiting)|
        invariant waiting == old(waiting)[done..]
        invariant vault == old(vault) - (set x | x in old(waiting)[..done])
        decreases |waiting|
      {
        var batch := if |waiting| <= 500 then waiting else waiting[..500];
        vault := vault - (set x | x in batch);
        waiting := waiting[|batch|..];
        assert old(waiting)[..done + |batch|] == old(waiting)[..done] + batch;
        done := done + |batch|;
      }
      assert old(waiting)[..done] == old(waiting);
    }
  }

  /** ZRANGE, HDEL and ZREM in batches of at most 500 ids. */
  method DrainZset(z: ZSet, hash: map<Id, Job>) returns (left: map<Id, Job>)
    ensures left == hash - z.Keys
  {
    left := hash;
    var rest := z;
    ghost var gone: set<Id> := {};
    while rest != map[]
      invariant rest == z - gone && gone <= z.Keys
      invariant left == hash - gone
      decreases |rest|
    {
      var batch := Members(Head(ByScore(rest), 500));
      BatchShrinks(rest, 500);
      left := left - batch;
      rest := rest - batch;
      MinusMinus(hash, gone, batch);
      MinusMinus(z, gone, batch);
      gone := gone + batch;
    }
    MinusAll(z, gone);
  }

  lemma MinusAll(z: ZSet, gone: set<Id>)
    requires z - gone == map[] && gone <= z.Keys
    ensures gone == z.Keys
  {
    forall x | x in z
      ensures x in gone
    {
      assert x in z - gone || x in gone;
    }
  }

  lemma DrainedInThree(s: State)
    ensures s.vault - (set x | x in s.waiting) - s.prioritized.Keys - s.delayed.Keys == s.vault - Drained(s)
  {
  }

  lemma BatchShrinks(z: ZSet, n: nat)
    requires z != map[] && n > 0
    ensures Members(Head(ByScore(z), n)) <= z.Keys
    ensures |z - Members(Head(ByScore(z), n))| < |z|
  {
    var batch := Members(Head(ByScore(z), n));
    assert ByScore(z)[0] in batch;
    assert (z - batch).Keys == z.Keys - batch;
    assert |z| == |z.Keys| && |z - batch| == |(z - batch).Keys|;
    Smaller(z.Keys - batch, z.Keys);
  }

  lemma UnpinnedSnoc(s: State, ids: seq<Id>, i: nat)
    requires i < |ids|
    ensures Unpinned(s, ids[..i + 1]) == Unpinned(s, ids[..i]) + if Pinned(s, ids[i]) then {} else {ids[i]}
  {
    assert ids[..i + 1] == ids[..i] + [ids[i]];
  }

  lemma Smaller(a: set<Id>, b: set<Id>)
    requires a < b
    ensures |a| < |b|
  {
    assert b == a + (b - a);
    assert |b| == |a| + |b - a|;
  }
}

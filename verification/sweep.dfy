/**
 The lease sweep of recoverStalled, id by id.
 */
module Sweep {
  import opened Redis
  import opened Model

  /** Nothing about x differs. */
  ghost predicate SameAt(s: State, t: State, x: Id)
  {
    && (x in t.vault <==> x in s.vault) && (x in s.vault ==> t.vault[x] == s.vault[x])
    && (x in t.active <==> x in s.active) && (x in s.active ==> t.active[x] == s.active[x])
    && DeadSameAt(s, t, x) && QueuedSameAt(s, t, x)
  }

  ghost predicate DeadSameAt(s: State, t: State, x: Id)
  {
    && (x in t.failed <==> x in s.failed) && (x in s.failed ==> t.failed[x] == s.failed[x])
    && (x in t.dlq <==> x in s.dlq) && (x in s.dlq ==> t.dlq[x] == s.dlq[x])
  }

  ghost predicate QueuedSameAt(s: State, t: State, x: Id)
  {
    && (x in t.prioritized <==> x in s.prioritized) && (x in s.prioritized ==> t.prioritized[x] == s.prioritized[x])
    && multiset(t.waiting)[x] == multiset(s.waiting)[x]
  }

  /** What becomes of an id whose lease has expired. A ghost only leaves; a stored
      job out of retries is dead-lettered; any other is queued where its priority
      says, with its attempts as they were. */
  ghost predicate SweptAt(s: State, t: State, x: Id, now: int)
  {
    && x !in t.active
    && (x in t.vault <==> x in s.vault)
    && if x !in s.vault then DeadSameAt(s, t, x) && QueuedSameAt(s, t, x)
       else if s.vault[x].attempts >= s.vault[x].maxretries then
         && t.vault[x] == s.vault[x].(status := Dead, failedReason := Some("job stalled"))
         && x in t.dlq && t.dlq[x] == t.vault[x] && x in t.failed && t.failed[x] == now
         && QueuedSameAt(s, t, x)
       else
         && t.vault[x] == s.vault[x].(status := Waiting)
         && DeadSameAt(s, t, x)
         && RequeuedAt(s, t, x)
  }

  ghost predicate RequeuedAt(s: State, t: State, x: Id)
    requires x in s.vault
  {
    QueuedAt(s, t, x, s.vault[x])
  }

  /** One more place in the queue: among the prioritized at the score of the record when
      it has a priority, in the waiting list otherwise. */
  ghost predicate QueuedAt(s: State, t: State, x: Id, job: Job)
  {
    if job.priority > 0
    then x in t.prioritized && t.prioritized[x] == Score(job.priority, job.timestamp)
         && multiset(t.waiting)[x] == multiset(s.waiting)[x]
    else multiset(t.waiting)[x] == multiset(s.waiting)[x] + 1
         && (x in t.prioritized <==> x in s.prioritized)
         && (x in s.prioritized ==> t.prioritized[x] == s.prioritized[x])
  }

  lemma RequeueAt(s: State, id: Id, now: int, x: Id)
    requires id in s.vault && s.vault[id].attempts < s.vault[id].maxretries
    ensures if x == id then SweptAt(s, Requeue(s, id), x, now) else SameAt(s, Requeue(s, id), x)
  {
  }

  lemma DeadLetterAt(s: State, id: Id, now: int, x: Id)
    requires id in s.vault && s.vault[id].attempts >= s.vault[id].maxretries
    ensures if x == id then SweptAt(s, DeadLetter(s, id, now), x, now) else SameAt(s, DeadLetter(s, id, now), x)
  {
  }

  lemma RecoverOneAt(s: State, id: Id, now: int, x: Id)
    ensures if x == id then SweptAt(s, RecoverOne(s, id, now), x, now) else SameAt(s, RecoverOne(s, id, now), x)
  {
    if id in s.vault {
      if s.vault[id].attempts >= s.vault[id].maxretries {
        DeadLetterAt(s, id, now, x);
      } else {
        RequeueAt(s, id, now, x);
      }
    }
  }

  lemma SameThen(s: State, t: State, u: State, x: Id, now: int)
    requires SameAt(s, t, x)
    ensures SameAt(t, u, x) ==> SameAt(s, u, x)
    ensures SweptAt(t, u, x, now) ==> SweptAt(s, u, x, now)
  {
  }

  lemma SweptThen(s: State, t: State, u: State, x: Id, now: int)
    requires SweptAt(s, t, x, now) && SameAt(t, u, x)
    ensures SweptAt(s, u, x, now)
  {
  }

  lemma {:induction false} RecoverAllAt(s: State, ids: seq<Id>, now: int, x: Id)
    requires NoDup(ids)
    ensures if x in ids then SweptAt(s, RecoverAll(s, ids, now), x, now) else SameAt(s, RecoverAll(s, ids, now), x)
    decreases |ids|
  {
    if ids == [] {
    } else {
      var t := RecoverOne(s, ids[0], now);
      var u := RecoverAll(t, ids[1..], now);
      RecoverOneAt(s, ids[0], now, x);
      RecoverAllAt(t, ids[1..], now, x);
      if x == ids[0] {
        SweptThen(s, t, u, x, now);
      } else {
        SameThen(s, t, u, x, now);
      }
    }
  }

  predicate Expired(s: State, x: Id, now: int)
  {
    x in s.active && 0 <= s.active[x] <= now
  }

  lemma HealKeeps(s: State, x: Id)
    ensures SameAt(s, Heal(s), x)
  {
  }

  lemma HealedAt(s: State, t: State, expired: bool, x: Id, now: int)
    requires if expired then SweptAt(s, t, x, now) else SameAt(s, t, x)
    ensures if expired then SweptAt(s, Heal(t), x, now) else SameAt(s, Heal(t), x)
  {
    HealKeeps(t, x);
    if expired {
      SweptThen(s, t, Heal(t), x, now);
    } else {
      SameThen(s, t, Heal(t), x, now);
    }
  }

  /** The wanted ones among the ids, in their order. */
  function Those(ids: seq<Id>, wanted: set<Id>): seq<Id>
    decreases |ids|
  {
    if ids == [] then [] else (if ids[0] in wanted then [ids[0]] else []) + Those(ids[1..], wanted)
  }

  lemma {:induction false} ThoseMembers(ids: seq<Id>, wanted: set<Id>)
    ensures forall x :: x in Those(ids, wanted) <==> x in ids && x in wanted
    decreases |ids|
  {
    if ids == [] {
    } else {
      assert ids == [ids[0]] + ids[1..];
      ThoseMembers(ids[1..], wanted);
    }
  }

  lemma ThoseCons(ids: seq<Id>, wanted: set<Id>)
    requires ids != []
    ensures Those(ids, wanted) == Those([ids[0]], wanted) + Those(ids[1..], wanted)
  {
    ThoseSingle(ids[0], wanted);
  }

  lemma {:induction false} ThoseSame(ids: seq<Id>, a: set<Id>, b: set<Id>)
    requires forall x :: x in ids ==> (x in a <==> x in b)
    ensures Those(ids, a) == Those(ids, b)
    decreases |ids|
  {
    if ids == [] {
    } else {
      ThoseSame(ids[1..], a, b);
    }
  }

  lemma {:induction false} ThoseInOrder(z: ZSet, ids: seq<Id>, wanted: set<Id>)
    requires Ordered(z, ids)
    ensures Ordered(z, Those(ids, wanted))
    decreases |ids|
  {
    if ids == [] {
    } else {
      var tail := ids[1..];
      var rest := Those(tail, wanted);
      forall i, j | 0 <= i < j < |tail|
        ensures Before(z, tail[i], tail[j])
      {
        assert tail[i] == ids[i + 1] && tail[j] == ids[j + 1];
      }
      ThoseMembers(tail, wanted);
      forall x | x in rest
        ensures x in z && Before(z, ids[0], x)
      {
        var j :| 0 <= j < |tail| && tail[j] == x;
        assert ids[j + 1] == x;
      }
      ThoseInOrder(z, tail, wanted);
      OrderedFirst(z, ids[0], rest);
    }
  }

  lemma OrderedFirst(z: ZSet, x: Id, r: seq<Id>)
    requires Ordered(z, r) && x in z && forall y :: y in r ==> y in z && Before(z, x, y)
    ensures Ordered(z, [x] + r)
  {
    var all := [x] + r;
    forall i, j | 0 <= i < j < |all|
      ensures all[i] in z && all[j] in z && Before(z, all[i], all[j])
    {
      assert all[j] == r[j - 1] && r[j - 1] in r;
      if i > 0 {
        assert all[i] == r[i - 1];
      }
    }
  }

  /** With retries left and no priority: goes back to the waiting list. */
  function Spared(vault: map<Id, Job>): set<Id>
  {
    set x | x in vault && vault[x].attempts < vault[x].maxretries && vault[x].priority == 0
  }

  /** Everything the sweep leaves alone altogether. */
  ghost predicate RestSame(s: State, t: State)
  {
    && t.delayed == s.delayed && t.delayedTokens == s.delayedTokens && t.completed == s.completed
    && t.blocked == s.blocked && t.count == s.count && t.named == s.named
    && t.childEdges == s.childEdges && t.parentEdges == s.parentEdges
  }

  lemma RestOn(s: State, t: State, u: State)
    requires RestSame(s, t) && RestSame(t, u)
    ensures RestSame(s, u)
  {
  }

  ghost predicate OthersStored(s: State, t: State, id: Id)
  {
    forall x :: x != id ==> (x in t.vault <==> x in s.vault) && (x in s.vault ==> t.vault[x] == s.vault[x])
  }

  lemma RequeueQueues(s: State, id: Id)
    requires id in s.vault
    ensures var t := Requeue(s, id);
            && RestSame(s, t) && OthersStored(s, t, id)
            && t.waiting == s.waiting + if s.vault[id].priority == 0 then [id] else []
  {
  }

  lemma DeadLetterQueues(s: State, id: Id, now: int)
    requires id in s.vault
    ensures var t := DeadLetter(s, id, now); RestSame(s, t) && OthersStored(s, t, id) && t.waiting == s.waiting
  {
  }

  lemma ThoseSingle(id: Id, wanted: set<Id>)
    ensures Those([id], wanted) == if id in wanted then [id] else []
  {
    assert [id][1..] == [];
  }

  lemma RecoverOneQueues(s: State, id: Id, now: int)
    ensures var t := RecoverOne(s, id, now);
            RestSame(s, t) && OthersStored(s, t, id) && t.waiting == s.waiting + Those([id], Spared(s.vault))
  {
    ThoseSingle(id, Spared(s.vault));
    if id in s.vault {
      if s.vault[id].attempts >= s.vault[id].maxretries {
        DeadLetterQueues(s, id, now);
      } else {
        RequeueQueues(s, id);
      }
    }
  }

  lemma SparedRest(s: State, t: State, ids: seq<Id>)
    requires ids != [] && NoDup(ids) && OthersStored(s, t, ids[0])
    ensures Those([ids[0]], Spared(s.vault)) + Those(ids[1..], Spared(t.vault)) == Those(ids, Spared(s.vault))
  {
    forall x | x in ids[1..]
      ensures x != ids[0] && (x in Spared(s.vault) <==> x in Spared(t.vault))
    {
    }
    ThoseSame(ids[1..], Spared(s.vault), Spared(t.vault));
    ThoseSingle(ids[0], Spared(s.vault));
  }

  lemma {:induction false} RecoverRest(s: State, ids: seq<Id>, now: int)
    ensures RestSame(s, RecoverAll(s, ids, now))
    decreases |ids|
  {
    if ids == [] {
    } else {
      RecoverOneQueues(s, ids[0], now);
      RecoverRest(RecoverOne(s, ids[0], now), ids[1..], now);
      RestOn(s, RecoverOne(s, ids[0], now), RecoverAll(s, ids, now));
    }
  }

  lemma {:induction false} RecoverQueues(s: State, ids: seq<Id>, now: int)
    requires NoDup(ids)
    ensures RecoverAll(s, ids, now).waiting == s.waiting + Those(ids, Spared(s.vault))
    decreases |ids|
  {
    if ids == [] {
    } else {
      var t := RecoverOne(s, ids[0], now);
      RecoverOneQueues(s, ids[0], now);
      RecoverQueues(t, ids[1..], now);
      SparedRest(s, t, ids);
    }
  }

  /** The sweep deals with every expired id exactly so, and leaves everything about any
      other id, the delayed and settled jobs and the dependencies as they were; the
      requeued ids join the list in the order of their leases, and there are at least
      as many tokens as queued jobs. */
  lemma SweepExact(s: State, now: int, x: Id)
    ensures var t := Recover(s, now);
            && (if Expired(s, x, now) then SweptAt(s, t, x, now) else SameAt(s, t, x))
            && RestSame(s, t)
            && t.waiting == s.waiting + Those(ByScore(Between(s.active, 0, now)), Spared(s.vault))
            && t.tokens >= |t.waiting| + |t.prioritized|
  {
    var ids := ByScore(Between(s.active, 0, now));
    ByScoreSorted(Between(s.active, 0, now));
    assert x in ids <==> Expired(s, x, now);
    RecoverAllAt(s, ids, now, x);
    RecoverRest(s, ids, now);
    RecoverQueues(s, ids, now);
    HealedAt(s, RecoverAll(s, ids, now), Expired(s, x, now), x, now);
    HealedRest(s, RecoverAll(s, ids, now));
  }

  lemma HealedRest(s: State, t: State)
    requires RestSame(s, t)
    ensures RestSame(s, Heal(t)) && Heal(t).waiting == t.waiting
    ensures Heal(t).tokens >= |Heal(t).waiting| + |Heal(t).prioritized|
  {
  }

  lemma BetweenInOrder(z: ZSet, hi: int)
    ensures Ordered(z, ByScore(Between(z, 0, hi)))
  {
    var ids := ByScore(Between(z, 0, hi));
    ByScoreSorted(Between(z, 0, hi));
    forall i, j | 0 <= i < j < |ids|
      ensures ids[i] in z && ids[j] in z && Before(z, ids[i], ids[j])
    {
      assert Before(Between(z, 0, hi), ids[i], ids[j]);
    }
  }

  lemma RecoverList(s: State, now: int)
    ensures Recover(s, now).waiting == s.waiting + Those(ByScore(Between(s.active, 0, now)), Spared(s.vault))
  {
    ByScoreSorted(Between(s.active, 0, now));
    RecoverQueues(s, ByScore(Between(s.active, 0, now)), now);
  }

  lemma ExpiredSpared(s: State, now: int, ids: seq<Id>)
    requires ids == ByScore(Between(s.active, 0, now))
    ensures forall x :: x in Those(ids, Spared(s.vault)) <==>
              Expired(s, x, now) && x in s.vault && s.vault[x].attempts < s.vault[x].maxretries && s.vault[x].priority == 0
  {
    ThoseMembers(ids, Spared(s.vault));
    assert forall x :: x in ids <==> Expired(s, x, now);
  }

  /** The expired jobs with retries left and no priority join the list at its end, in
      the order of their leases. */
  lemma RecoverJoinsInOrder(s: State, now: int) returns (joined: seq<Id>)
    ensures Recover(s, now).waiting == s.waiting + joined && Ordered(s.active, joined)
    ensures forall x :: x in joined <==>
              Expired(s, x, now) && x in s.vault && s.vault[x].attempts < s.vault[x].maxretries && s.vault[x].priority == 0
  {
    var ids := ByScore(Between(s.active, 0, now));
    joined := Those(ids, Spared(s.vault));
    RecoverList(s, now);
    ExpiredSpared(s, now, ids);
    BetweenInOrder(s.active, now);
    ThoseInOrder(s.active, ids, Spared(s.vault));
  }

  /** After the sweep no lease between 0 and now is left. */
  lemma LeasesAreLive(s: State, now: int)
    ensures forall x :: x in Recover(s, now).active ==> Recover(s, now).active[x] > now || Recover(s, now).active[x] < 0
  {
    forall x | x in Recover(s, now).active
      ensures Recover(s, now).active[x] > now || Recover(s, now).active[x] < 0
    {
      SweepExact(s, now, x);
    }
  }

  /** A renewed lease survives every sweep before it ends, and none from then on. */
  lemma RenewedLeaseHolds(s: State, id: Id, now: int, lease: nat, later: int)
    requires id in s.vault
    ensures var t := Renew(s, id, now, lease);
            if later < lease then SameAt(t, Recover(t, later), id) else SweptAt(t, Recover(t, later), id, later)
  {
    SweepExact(Renew(s, id, now, lease), later, id);
  }

  // ---- The zombie watchdog ----

  predicate IsZombie(s: State, x: Id, now: int, timeout: int)
  {
    x in s.active && s.active[x] <= now && x in s.vault && now - LastSeen(s.vault[x]) > timeout
  }

  /** When the job was picked up or its lease renewed; without that, or with a stamp of
      0, when it was added. */
  function LastSeen(job: Job): int
  {
    match job.processedOn
    case None => job.timestamp
    case Some(stamp) => if stamp == 0 then job.timestamp else stamp
  }

  predicate IsGhost(s: State, x: Id, now: int)
  {
    x in s.active && s.active[x] <= now && x !in s.vault
  }

  ghost predicate BuriedAt(s: State, t: State, x: Id, now: int)
    requires x in s.vault
  {
    && x !in t.active && QueuedSameAt(s, t, x)
    && x in t.vault && t.vault[x] == s.vault[x].(status := Dead, failedReason := Some("zombie timeout"))
    && x in t.dlq && t.dlq[x] == t.vault[x] && x in t.failed && t.failed[x] == now
  }

  ghost predicate WatchedAt(s: State, t: State, x: Id, now: int, timeout: int)
  {
    if IsZombie(s, x, now, timeout) then BuriedAt(s, t, x, now)
    else if IsGhost(s, x, now) then x !in t.active && x !in t.vault && DeadSameAt(s, t, x) && QueuedSameAt(s, t, x)
    else SameAt(s, t, x)
  }

  lemma BuryZombieAt(s: State, id: Id, now: int, timeout: int, x: Id)
    ensures if x == id then WatchedAt(s, BuryZombie(s, id, now, timeout), x, now, timeout)
            else SameAt(s, BuryZombie(s, id, now, timeout), x)
  {
    if IsZombie(s, id, now, timeout) {
      BuryActiveAt(s, id, now, x);
    } else if IsGhost(s, id, now) {
      DropGhostAt(s, id, x);
    } else {
      SameAsItself(s, x);
    }
  }

  lemma DropGhostAt(s: State, id: Id, x: Id)
    requires id !in s.vault
    ensures var t := s.(active := s.active - {id});
            if x == id then x !in t.active && DeadSameAt(s, t, x) && QueuedSameAt(s, t, x) else SameAt(s, t, x)
  {
  }

  lemma SameAsItself(s: State, x: Id)
    ensures SameAt(s, s, x)
  {
  }

  lemma BuryZombieRest(s: State, id: Id, now: int, timeout: int)
    ensures RestSame(s, BuryZombie(s, id, now, timeout)) && BuryZombie(s, id, now, timeout).tokens == s.tokens
  {
    if IsZombie(s, id, now, timeout) {
      BuryActiveAt(s, id, now, id);
    }
  }

  lemma BuryActiveAt(s: State, id: Id, now: int, x: Id)
    requires id in s.vault
    ensures if x == id then BuriedAt(s, BuryActive(s, id, now), x, now) else SameAt(s, BuryActive(s, id, now), x)
    ensures RestSame(s, BuryActive(s, id, now)) && BuryActive(s, id, now).tokens == s.tokens
  {
  }

  lemma WatchedThen(s: State, t: State, u: State, x: Id, now: int, timeout: int)
    requires WatchedAt(s, t, x, now, timeout) && SameAt(t, u, x)
    ensures WatchedAt(s, u, x, now, timeout)
  {
  }

  lemma ThenWatched(s: State, t: State, u: State, x: Id, now: int, timeout: int)
    requires SameAt(s, t, x)
    ensures SameAt(t, u, x) ==> SameAt(s, u, x)
    ensures WatchedAt(t, u, x, now, timeout) ==> WatchedAt(s, u, x, now, timeout)
  {
  }

  lemma {:induction false} BuryZombiesAt(s: State, ids: seq<Id>, now: int, timeout: int, x: Id)
    requires NoDup(ids)
    ensures var t := BuryZombies(s, ids, now, timeout);
            && (if x in ids then WatchedAt(s, t, x, now, timeout) else SameAt(s, t, x))
            && RestSame(s, t) && t.tokens == s.tokens
    decreases |ids|
  {
    if ids == [] {
    } else {
      var t := BuryZombie(s, ids[0], now, timeout);
      var u := BuryZombies(t, ids[1..], now, timeout);
      BuryZombieAt(s, ids[0], now, timeout, x);
      BuryZombieRest(s, ids[0], now, timeout);
      BuryZombiesAt(t, ids[1..], now, timeout, x);
      RestOn(s, t, u);
      if x == ids[0] {
        WatchedThen(s, t, u, x, now, timeout);
      } else {
        ThenWatched(s, t, u, x, now, timeout);
      }
    }
  }

  /** The watchdog buries exactly the stored jobs whose lease has ended and that have
      been active for longer than the timeout, drops exactly the ended leases without
      a stored job, and changes nothing else. */
  lemma WatchdogExact(s: State, now: int, timeout: int, x: Id)
    ensures var t := BuryZombies(s, ByScore(s.active), now, timeout);
            WatchedAt(s, t, x, now, timeout) && RestSame(s, t) && t.tokens == s.tokens
  {
    ByScoreSorted(s.active);
    BuryZombiesAt(s, ByScore(s.active), now, timeout, x);
    assert x in ByScore(s.active) <==> x in s.active;
  }

  // ---- Delayed jobs ----

  predicate Due(s: State, x: Id, now: int)
  {
    x in s.delayed && 0 <= s.delayed[x] <= now
  }

  /** Off the delayed set, and queued where the stored priority says. */
  ghost predicate PromotedAt(s: State, t: State, x: Id)
  {
    && x !in t.delayed
    && if x in s.vault then RequeuedAt(s, t, x)
       else multiset(t.waiting)[x] == multiset(s.waiting)[x] + 1 && (x in t.prioritized <==> x in s.prioritized)
  }

  ghost predicate StillDelayedAt(s: State, t: State, x: Id)
  {
    (x in t.delayed <==> x in s.delayed) && (x in s.delayed ==> t.delayed[x] == s.delayed[x]) && QueuedSameAt(s, t, x)
  }

  lemma PromoteOneAt(s: State, id: Id, x: Id)
    ensures if x == id then PromotedAt(s, PromoteOne(s, id), x) else StillDelayedAt(s, PromoteOne(s, id), x)
    ensures PromoteOne(s, id).vault == s.vault
  {
  }

  lemma {:induction false} PromoteAllAt(s: State, ids: seq<Id>, x: Id)
    requires NoDup(ids)
    ensures var t := PromoteAll(s, ids);
            t.vault == s.vault && if x in ids then PromotedAt(s, t, x) else StillDelayedAt(s, t, x)
    decreases |ids|
  {
    if ids == [] {
    } else {
      var t := PromoteOne(s, ids[0]);
      PromoteOneAt(s, ids[0], x);
      PromoteAllAt(t, ids[1..], x);
      PromotedThen(s, t, PromoteAll(t, ids[1..]), x);
    }
  }

  lemma PromotedThen(s: State, t: State, u: State, x: Id)
    requires t.vault == s.vault
    ensures PromotedAt(s, t, x) && StillDelayedAt(t, u, x) ==> PromotedAt(s, u, x)
    ensures StillDelayedAt(s, t, x) && PromotedAt(t, u, x) ==> PromotedAt(s, u, x)
    ensures StillDelayedAt(s, t, x) && StillDelayedAt(t, u, x) ==> StillDelayedAt(s, u, x)
  {
  }

  /** promote queues exactly the due ids, each where its priority says. */
  lemma PromoteExact(s: State, now: int, x: Id)
    ensures var t := Promote(s, now);
            t.vault == s.vault && if Due(s, x, now) then PromotedAt(s, t, x) else StillDelayedAt(s, t, x)
  {
    var ids := ByScore(Between(s.delayed, 0, now));
    ByScoreSorted(Between(s.delayed, 0, now));
    assert x in ids <==> Due(s, x, now);
    PromoteAllAt(s, ids, x);
  }

  /** The wanted ids are those without priority. */
  ghost predicate ByPriority(vault: map<Id, Job>, ids: seq<Id>, wanted: set<Id>)
  {
    forall x :: x in ids ==> (x in wanted <==> x !in vault || vault[x].priority == 0)
  }

  lemma PromoteOneQueues(s: State, t: State, ids: seq<Id>, wanted: set<Id>)
    requires ids != [] && ByPriority(s.vault, ids, wanted) && t == PromoteOne(s, ids[0])
    ensures t.waiting == s.waiting + Those([ids[0]], wanted)
    ensures ByPriority(t.vault, ids[1..], wanted)
  {
    ThoseSingle(ids[0], wanted);
  }

  lemma {:induction false} PromoteQueues(s: State, ids: seq<Id>, wanted: set<Id>)
    requires ByPriority(s.vault, ids, wanted)
    ensures PromoteAll(s, ids).waiting == s.waiting + Those(ids, wanted)
    decreases |ids|
  {
    if ids == [] {
    } else {
      var t := PromoteOne(s, ids[0]);
      PromoteOneQueues(s, t, ids, wanted);
      PromoteQueues(t, ids[1..], wanted);
      ThoseCons(ids, wanted);
    }
  }

  function Unprioritized(s: State): set<Id>
  {
    set x | x in s.delayed && (x in s.vault ==> s.vault[x].priority == 0)
  }

  lemma DueUnprioritized(s: State, now: int, ids: seq<Id>)
    requires ids == ByScore(Between(s.delayed, 0, now))
    ensures ByPriority(s.vault, ids, Unprioritized(s))
    ensures forall x :: x in Those(ids, Unprioritized(s)) <==> Due(s, x, now) && StoredPriority(s, x) == 0
  {
    ThoseMembers(ids, Unprioritized(s));
    assert forall x :: x in ids <==> Due(s, x, now);
  }

  /** The due jobs without priority join the list at its end, in the order of their times. */
  lemma PromoteJoinsInOrder(s: State, now: int) returns (joined: seq<Id>)
    ensures Promote(s, now).waiting == s.waiting + joined && Ordered(s.delayed, joined)
    ensures forall x :: x in joined <==> Due(s, x, now) && StoredPriority(s, x) == 0
  {
    var ids := ByScore(Between(s.delayed, 0, now));
    joined := Those(ids, Unprioritized(s));
    DueUnprioritized(s, now, ids);
    PromoteQueues(s, ids, Unprioritized(s));
    BetweenInOrder(s.delayed, now);
    ThoseInOrder(s.delayed, ids, Unprioritized(s));
  }

  /** A postponed job comes back with the first promote at its time or later, and with none before. */
  lemma PostponedComesBack(s: State, id: Id, job: Job, at: nat, now: int)
    ensures var t := Postpone(s, id, job, at);
            if now < at then StillDelayedAt(t, Promote(t, now), id) else PromotedAt(t, Promote(t, now), id)
  {
    PromoteExact(Postpone(s, id, job, at), now, id);
  }
}

/**
 What goes wrong without the assumptions that Legal makes: for each of them, a
 queue in which the step the code allows does harm.
 */
module Pitfalls {
  import opened Redis
  import opened Model
  import opened Machine
  import opened Reach
  import opened Placement
  import opened Dependents
  import opened Removals
  import opened Bulk

  const PLAIN := Job(0, 0, Waiting, 0, 3, None, [], true, None, None, None, None)

  // ---- A late completion ----

  /** Job 1 is stored, not dead, and waits alone. */
  ghost predicate WaitsAlone(s: State, job: Job)
  {
    && s.vault == map[1 := job] && s.waiting == [1] && s.prioritized == map[] && s.active == map[]
    && s.delayed == map[] && s.completed == map[] && s.failed == map[] && s.blocked == {} && s.count == map[]
  }

  lemma AddedAndTaken(s: State, t: State)
    requires s == AddJob(EMPTY, 1, PLAIN) && t == Dequeue(s, 0, 10, false)
    ensures WaitsAlone(s, PLAIN)
    ensures t == s.(vault := map[1 := PickedUp(PLAIN, 0)], waiting := [], active := map[1 := 10])
  {
  }

  lemma RecoveredOnce(t: State, u: State)
    requires t.vault == map[1 := PickedUp(PLAIN, 0)] && t.active == map[1 := 10] && t.waiting == []
    requires t.prioritized == map[] && t.delayed == map[] && t.completed == map[] && t.failed == map[] && t.blocked == {}
    requires t.count == map[] && u == Recover(t, 20)
    ensures WaitsAlone(u, PickedUp(PLAIN, 0).(status := Waiting))
  {
    ByScoreOfOne(Between(t.active, 0, 20), 1);
    RequeuedAlone(t, Requeue(t, 1));
    RecoverSingle(t, 20);
  }

  lemma RequeuedAlone(t: State, r: State)
    requires t.vault == map[1 := PickedUp(PLAIN, 0)] && t.active == map[1 := 10] && t.waiting == []
    requires t.prioritized == map[] && t.delayed == map[] && t.completed == map[] && t.failed == map[] && t.blocked == {}
    requires t.count == map[] && r == Requeue(t, 1)
    ensures WaitsAlone(r, PickedUp(PLAIN, 0).(status := Waiting)) && WaitsAlone(Heal(r), PickedUp(PLAIN, 0).(status := Waiting))
  {
    assert t.active - {1} == map[];
  }

  lemma RecoverSingle(t: State, now: int)
    requires 1 in t.vault && t.vault[1].attempts < t.vault[1].maxretries
    ensures RecoverAll(t, [1], now) == Requeue(t, 1)
  {
    assert [1][1..] == [];
  }

  lemma FinalizedWhileWaiting(u: State, v: State, job: Job)
    requires WaitsAlone(u, job) && v == Finalize(u, 1, Outcome(true, "", ""), 25, 0, false)
    ensures OnePlace(u) && 1 in v.completed && Next(v) == Some(1)
  {
    assert multiset(u.waiting) == multiset{1};
  }

  /** Job 1 is added and taken, its lease ends and is reaped, and the worker that took it
      completes it all the same: the job is completed and next to be run again. */
  lemma LateCompletionRunsTwice()
    ensures var s := Recover(Dequeue(AddJob(EMPTY, 1, PLAIN), 0, 10, false), 20);
            var t := Finalize(s, 1, Outcome(true, "", ""), 25, 0, false);
            OnePlace(s) && 1 in t.completed && Next(t) == Some(1)
  {
    var s := AddJob(EMPTY, 1, PLAIN);
    var t := Dequeue(s, 0, 10, false);
    var u := Recover(t, 20);
    AddedAndTaken(s, t);
    RecoveredOnce(t, u);
    FinalizedWhileWaiting(u, Finalize(u, 1, Outcome(true, "", ""), 25, 0, false), PickedUp(PLAIN, 0).(status := Waiting));
  }

  // ---- Releases that come too early ----

  /** Job 1 dead, job 2 waiting, nobody depends on anybody. */
  ghost predicate OneDead(s: State)
  {
    && s.vault.Keys == {1, 2} && s.vault[2] == PLAIN && s.waiting == [2] && s.prioritized == map[] && s.active == map[]
    && s.dlq.Keys == {1} && s.dlq[1].flow && s.dlq[1].priority == 0 && s.completed == map[]
    && s.count == map[] && s.childEdges == {} && s.named == {} && s.blocked == {}
  }

  lemma FirstDies(s: State, t: State, u: State)
    requires s == AddJob(AddJob(EMPTY, 1, PLAIN), 2, PLAIN) && t == Dequeue(s, 0, 10, false)
    requires 1 in t.vault && u == Kill(t, 1, t.vault[1], "no", 5, 0, false)
    ensures OneDead(u)
  {
    assert t.vault == map[1 := PickedUp(PLAIN, 0), 2 := PLAIN] && t.waiting == [2] && t.active == map[1 := 10];
    KilledPlain(t, u);
  }

  lemma KilledPlain(t: State, u: State)
    requires t.vault == map[1 := PickedUp(PLAIN, 0), 2 := PLAIN] && t.waiting == [2] && t.active == map[1 := 10]
    requires t.prioritized == map[] && t.completed == map[] && t.dlq == map[] && t.count == map[] && t.childEdges == {}
    requires t.named == {} && t.blocked == {} && u == Kill(t, 1, t.vault[1], "no", 5, 0, false)
    ensures OneDead(u)
  {
    var m := FailedCopy(t, 1, "no", 5, 0, false);
    assert u == BuryParents(m, [], 5) == m;
    var c := Close(t, 1, Outcome(false, "no", ""), 5);
    assert c.active == map[] && c.vault.Keys == {1, 2};
    assert Evicted(c, c.failed, 0) == {};
    assert m.vault == c.vault - {} == c.vault;
  }

  /** Job 3 parked on 1 and 2, counted once. */
  ghost predicate ThirdParked(s: State)
  {
    && s.vault.Keys == {1, 2, 3} && s.vault[2] == PLAIN && s.vault[3].priority == 0 && s.prioritized == map[]
    && s.completed == map[] && s.blocked == {3} && s.named == {3} && s.count == map[3 := 1]
    && s.childEdges == {(1, 3), (2, 3)}
  }

  lemma ThirdRegistered(s: State, t: State)
    requires OneDead(s) && t == AddDependent(s, 3, PLAIN.(parents := [1, 2]))
    ensures ThirdParked(t) && t.waiting == [2] && t.active == map[] && t.dlq == s.dlq
  {
    assert [1, 2][1..] == [2] && [2][1..] == [];
    assert CountPending(s, [2]) == 1 && CountPending(s, [1, 2]) == 1;
    assert EdgesTo(3, [1, 2]) == {(1, 3), (2, 3)};
  }

  lemma FirstRetried(s: State, t: State)
    requires ThirdParked(s) && s.waiting == [2] && s.active == map[]
    requires s.dlq.Keys == {1} && s.dlq[1].flow && s.dlq[1].priority == 0
    requires t == RetryJob(s, 1, Revived(s, 1))
    ensures ThirdParked(t) && t.waiting == [2, 1] && t.active == map[] && t.vault[1].flow
  {
    assert [2][1..] == [];
    assert Purge([2], 1) == [2];
  }

  lemma BothTaken(s: State, t: State, u: State)
    requires ThirdParked(s) && s.waiting == [2, 1] && s.active == map[] && s.vault[1].flow
    requires t == Dequeue(s, 6, 10, false) && u == Dequeue(t, 7, 10, false)
    ensures u.vault.Keys == {1, 2, 3} && u.vault[1].flow && u.vault[3].priority == 0 && u.prioritized == map[]
    ensures u.active.Keys == {1, 2} && u.waiting == [] && u.completed == map[] && u.blocked == {3} && u.named == {3}
    ensures u.count == map[3 := 1] && u.childEdges == {(1, 3), (2, 3)}
  {
    assert t.waiting == [1] && t.active.Keys == {2} && t.vault.Keys == {1, 2, 3};
  }

  lemma FirstFinished(s: State, t: State, op: Op)
    requires s.vault.Keys == {1, 2, 3} && s.vault[3].priority == 0 && s.prioritized == map[]
    requires s.active.Keys == {1, 2} && s.waiting == [] && s.completed == map[] && s.blocked == {3} && s.named == {3}
    requires s.count == map[3 := 1] && s.childEdges == {(1, 3), (2, 3)}
    requires op == Complete(1, "", "", 8, 0, false, None, [3]) && t == Finished(s, op)
    ensures t.vault.Keys == {1, 2, 3} && t.vault[3].priority == 0 && t.prioritized == map[] && 2 in t.active
    ensures t.waiting == [] && 2 !in t.completed && t.blocked == {3} && t.named == {3} && t.count == map[3 := 1]
    ensures t.childEdges == {(1, 3), (2, 3)}
  {
    var c := Close(s, 1, Outcome(true, "", ""), 8);
    assert Evicted(c, c.completed, 0) == {};
    assert c.vault - {} == c.vault && c.completed - {} == c.completed;
  }

  lemma ThirdReleased(s: State)
    requires 3 in s.vault && s.vault[3].priority == 0 && s.waiting == [] && s.blocked == {3} && s.named == {3}
    requires s.count == map[3 := 1] && s.childEdges == {(1, 3), (2, 3)}
    ensures var t := UnblockAll(s, 1, [3]);
            t.waiting == [3] && t.active == s.active && t.completed == s.completed && (2, 3) in t.childEdges
  {
    var u := UnblockOne(s, 1, 3);
    assert [3][1..] == [];
    assert UnblockAll(s, 1, [3]) == UnblockAll(u, 1, []) == u;
  }

  /** Job 1 dies, and then job 3 is registered on 1 and 2 and counts only 2. Job 1 is
      retried, taken and completed, and that releases 3 although 2 is still running. */
  lemma RetriedParentReleasesEarly()
    ensures var taken := Dequeue(AddJob(AddJob(EMPTY, 1, PLAIN), 2, PLAIN), 0, 10, false);
            1 in taken.vault && var dead := Kill(taken, 1, taken.vault[1], "no", 5, 0, false);
            var parked := AddDependent(dead, 3, PLAIN.(parents := [1, 2]));
            1 in parked.dlq && var retried := RetryJob(parked, 1, Revived(parked, 1));
            var running := Dequeue(Dequeue(retried, 6, 10, false), 7, 10, false);
            var op := Complete(1, "", "", 8, 0, false, None, [3]);
            && Enumerates(op.order, Kids(running.childEdges, 1)) && 1 in running.active && 2 in running.active
            && 3 in running.blocked && Settle(running, op).waiting == [3] && 2 in Settle(running, op).active
  {
    var added := AddJob(AddJob(EMPTY, 1, PLAIN), 2, PLAIN);
    var taken := Dequeue(added, 0, 10, false);
    assert 1 in taken.vault;
    var dead := Kill(taken, 1, taken.vault[1], "no", 5, 0, false);
    FirstDies(added, taken, dead);
    var parked := AddDependent(dead, 3, PLAIN.(parents := [1, 2]));
    ThirdRegistered(dead, parked);
    var retried := RetryJob(parked, 1, Revived(parked, 1));
    FirstRetried(parked, retried);
    var running := Dequeue(Dequeue(retried, 6, 10, false), 7, 10, false);
    BothTaken(retried, Dequeue(retried, 6, 10, false), running);
    CompletedEarly(running, Complete(1, "", "", 8, 0, false, None, [3]));
  }

  lemma CompletedEarly(s: State, op: Op)
    requires s.vault.Keys == {1, 2, 3} && s.vault[1].flow && s.vault[3].priority == 0 && s.prioritized == map[]
    requires s.active.Keys == {1, 2} && s.waiting == [] && s.completed == map[] && s.blocked == {3} && s.named == {3}
    requires s.count == map[3 := 1] && s.childEdges == {(1, 3), (2, 3)}
    requires op == Complete(1, "", "", 8, 0, false, None, [3])
    ensures Enumerates(op.order, Kids(s.childEdges, 1))
    ensures Settle(s, op).waiting == [3] && 2 in Settle(s, op).active
  {
    FirstFinished(s, Finished(s, op), op);
    ThirdReleased(Finished(s, op));
  }

  /** Job 3 was registered after its parent 1 was finalized and before the unblock
      of 1 ran: the parent is not counted, but its unblock decrements all the same. */
  lemma RegisteredInBetweenReleasesEarly()
    ensures var s := EMPTY.(vault := map[1 := PLAIN, 2 := PLAIN], waiting := [2], completed := map[1 := 0]);
            var registered := AddDependent(s, 3, PLAIN.(parents := [1, 2]));
            var released := UnblockOne(registered, 1, 3);
            3 in registered.blocked && CountOf(registered, 3) == 1
            && 3 in released.waiting && 2 !in released.completed && (2, 3) in released.childEdges
  {
    var s := EMPTY.(vault := map[1 := PLAIN, 2 := PLAIN], waiting := [2], completed := map[1 := 0]);
    var job := PLAIN.(parents := [1, 2]);
    assert job.parents[1..] == [2] && [2][1..] == [];
    assert CountPending(s, [2]) == 1;
    assert CountPending(s, job.parents) == 1;
    assert (1, 3) in EdgesTo(3, job.parents) && (2, 3) in EdgesTo(3, job.parents);
  }

  lemma OldestGoes(u: State)
    requires u.completed == map[1 := 0, 2 := 5] && u.count == map[] && u.childEdges == {}
    ensures Evicted(u, u.completed, 1) == {1}
  {
    OldestOfTwo(u.completed);
    assert Beyond(u.completed, 1) == [1];
    assert Kids(u.childEdges, 1) == {};
  }

  lemma OlderIsEvicted(s: State)
    requires s.vault.Keys == {1, 2} && s.completed == map[1 := 0] && s.count == map[] && s.childEdges == {} && s.dlq == map[]
    ensures var t := Finalize(s, 2, Outcome(true, "", ""), 5, 1, false);
            1 !in t.vault && 3 !in t.vault && 1 !in t.completed && t.dlq == map[]
  {
    OldestGoes(Close(s, 2, Outcome(true, "", ""), 5));
  }

  lemma UnknownParentCounts(t: State)
    requires 1 !in t.completed && 1 !in t.dlq && 3 !in t.vault
    ensures var u := AddDependent(t, 3, PLAIN.(parents := [1]));
            3 in u.blocked && CountOf(u, 3) == 1
  {
    assert CountPending(t, [1]) == 1 + CountPending(t, []);
  }

  /** A parent that completed and was evicted before its dependent was registered
      counts as pending, and nobody is left to release the dependent. */
  lemma EvictedParentStrands()
    ensures var s := EMPTY.(vault := map[1 := PLAIN, 2 := PLAIN], active := map[2 := 9], completed := map[1 := 0]);
            var t := Finalize(s, 2, Outcome(true, "", ""), 5, 1, false);
            var u := AddDependent(t, 3, PLAIN.(parents := [1]));
            3 in u.blocked && CountOf(u, 3) == 1 && 1 !in t.vault
  {
    var s := EMPTY.(vault := map[1 := PLAIN, 2 := PLAIN], active := map[2 := 9], completed := map[1 := 0]);
    OlderIsEvicted(s);
    UnknownParentCounts(Finalize(s, 2, Outcome(true, "", ""), 5, 1, false));
  }

  lemma OldestOfTwo(z: ZSet)
    requires z == map[1 := 0, 2 := 5]
    ensures |z| == 2 && ByScore(z)[..1] == [1]
  {
    LessOne(z, 1);
    LessOne(z - {1}, 2);
    assert z - {1} - {2} == map[];
    assert IsLeast(z, Least(z)) && !Before(z, 2, 1);
  }

  /** Draining a queue takes the job that a parked one waits for, but not the parked one. */
  lemma DrainStrands()
    ensures var s := AddDependent(AddJob(EMPTY, 1, PLAIN), 2, PLAIN.(parents := [1]));
            Drain(s).blocked == {2} && CountOf(Drain(s), 2) == 1 && 1 !in Drain(s).vault
  {
    var s := AddJob(EMPTY, 1, PLAIN);
    assert [1][1..] == [];
    assert CountPending(s, [1]) == 1;
    assert 1 in s.waiting;
  }

  /** A parent listed twice is counted twice and released once. */
  lemma ParentListedTwiceStrands()
    ensures var s := AddDependent(AddJob(EMPTY, 1, PLAIN), 2, PLAIN.(parents := [1, 1]));
            CountOf(s, 2) == 2 && Kids(s.childEdges, 1) == {2}
            && 2 in UnblockOne(s, 1, 2).blocked && Kids(UnblockOne(s, 1, 2).childEdges, 1) == {}
  {
    var s := AddJob(EMPTY, 1, PLAIN);
    assert [1, 1][1..] == [1] && [1][1..] == [];
    assert CountPending(s, [1]) == 1;
    assert EdgesTo(2, [1, 1]) == {(1, 2)};
  }

  /** A job that dies buries the parents it waited for, completed ones included. */
  lemma DeadJobBuriesItsCompletedParent()
    ensures var s := EMPTY.(vault := map[1 := PLAIN, 2 := PLAIN.(parents := [1])],
                            active := map[2 := 9], completed := map[1 := 0]);
            var t := Kill(s, 2, s.vault[2], "no", 5, 0, false);
            OnePlace(s) && 1 in t.completed && 1 in t.failed && 1 in t.dlq
  {
    assert [1][1..] == [];
  }

  /** A batch that lists one id both immediately and delayed stores the immediate job
      and pushes no wake-up token for it. */
  lemma RepeatedIdLosesItsToken()
    ensures var items := [BulkItem(1, PLAIN, false), BulkItem(1, PLAIN, true)];
            var t := AddBulkCall(EMPTY, items);
            t.waiting == [1] && t.tokens == 0 && AddEach(EMPTY, items).tokens == 1
  {
    var now, later := BulkItem(1, PLAIN, false), BulkItem(1, PLAIN, true);
    var items := [now, later];
    assert items[1..] == [later] && [later][1..] == [];
    var s1 := AddBulkOne(EMPTY, now);
    assert BulkCreated(s1, [later]) == [false];
    assert BulkCreated(EMPTY, items) == [true, false];
    assert [true, false][1..] == [false];
    assert AddBulk(s1, [later]) == AddBulkOne(s1, later) == s1;
    assert later in items && 1 in LaterIds(items);
    assert Tally([later], [false], LaterIds(items), false) == 0;
    assert AddEach(AddSingle(EMPTY, now), [later]) == AddSingle(EMPTY, now);
  }

  // ---- Deletions that leave a mess ----

  const URGENT := Job(1, EPOCH_BASE, Waiting, 0, 3, None, [], true, None, None, None, None)

  /** A prioritized job that is deleted stays listed, without a job behind it. */
  lemma DeletedJobStaysPrioritized()
    ensures var s := AddJob(EMPTY, 1, URGENT);
            var t := Deletion(s, [1]);
            OnePlace(s) && Collects(s, 1, [1]) && 1 in t.prioritized && 1 !in t.vault && !OnePlace(t)
  {
    var s := AddJob(EMPTY, 1, URGENT);
    CollectsItself(s, 1);
    DeleteAllGone(Cut(s, Members([1])), [1]);
    assert OnePlace(s) by {
      AddPlaces(EMPTY, 1, URGENT);
    }
    DeletionKeepsPlaceIff(s, [1]);
    assert 1 in [1];
  }

  /** Job 1 dead and awaited by the parked job 2. */
  ghost predicate DeadAndAwaited(s: State)
  {
    && s.vault.Keys == {1, 2} && s.failed == map[1 := 5] && s.blocked == {2} && s.count == map[2 := 1]
    && s.childEdges == {(1, 2)}
  }

  lemma AwaitedDies(s: State, t: State, u: State)
    requires s == AddDependent(AddJob(EMPTY, 1, PLAIN), 2, PLAIN.(parents := [1])) && t == Dequeue(s, 0, 10, false)
    requires 1 in t.vault && u == Kill(t, 1, t.vault[1], "no", 5, 0, false)
    ensures DeadAndAwaited(u)
  {
    assert [1][1..] == [];
    assert CountPending(AddJob(EMPTY, 1, PLAIN), [1]) == 1;
    assert EdgesTo(2, [1]) == {(1, 2)};
    assert s.waiting == [1] && s.vault.Keys == {1, 2} && s.blocked == {2} && s.count == map[2 := 1] && s.childEdges == {(1, 2)};
    KilledAwaited(t, u);
  }

  lemma KilledAwaited(t: State, u: State)
    requires t.vault.Keys == {1, 2} && t.vault[1] == PickedUp(PLAIN, 0) && t.failed == map[] && t.blocked == {2}
    requires t.count == map[2 := 1] && t.childEdges == {(1, 2)} && u == Kill(t, 1, t.vault[1], "no", 5, 0, false)
    ensures DeadAndAwaited(u)
  {
    var m := FailedCopy(t, 1, "no", 5, 0, false);
    assert u == BuryParents(m, [], 5) == m;
    var c := Close(t, 1, Outcome(false, "no", ""), 5);
    assert Evicted(c, c.failed, 0) == {};
    assert c.vault - {} == c.vault && c.failed - {} == c.failed;
  }

  lemma CleanedAwaited(s: State)
    requires DeadAndAwaited(s)
    ensures CleanedIds(s, false, 5, 10) == {1}
  {
    OnlyOneOld(s.failed);
    assert Members([1]) == {1};
  }

  lemma OnlyOneOld(z: ZSet)
    requires z == map[1 := 5]
    ensures Cleaned(z, 5, 10) == [1]
  {
    ByScoreOfOne(Between(z, 0, 5), 1);
  }

  /** Job 2 waits for job 1, which dies and is cleaned away: nobody is left to retry,
      and 2 stays parked. */
  lemma CleanStrands()
    ensures var s := Dequeue(AddDependent(AddJob(EMPTY, 1, PLAIN), 2, PLAIN.(parents := [1])), 0, 10, false);
            1 in s.vault && var t := Kill(s, 1, s.vault[1], "no", 5, 0, false);
            var u := CleanState(t, false, CleanedIds(t, false, 5, 10));
            u.blocked == {2} && CountOf(u, 2) == 1 && 1 !in u.vault && 1 !in u.failed && (1, 2) in u.childEdges
  {
    var r := AddDependent(AddJob(EMPTY, 1, PLAIN), 2, PLAIN.(parents := [1]));
    var s := Dequeue(r, 0, 10, false);
    assert [1][1..] == [];
    assert r.waiting == [1] && r.prioritized == map[] && 1 in r.vault;
    var t := Kill(s, 1, s.vault[1], "no", 5, 0, false);
    AwaitedDies(r, s, t);
    CleanedAwaited(t);
  }
}

/**
 Why flows do not deadlock, and how every one of them can be run to its end.
 */
module Progress {
  import opened Redis
  import opened Model
  import opened Machine
  import opened Placement
  import opened Dag
  import opened Edges
  import opened Runs
  import opened Dispatch

  /** Each job on the chain awaits the next. */
  ghost predicate Chain(w: System, chain: seq<Id>)
  {
    chain != [] && forall i :: 0 <= i < |chain| - 1 ==> chain[i + 1] in Awaiting(w.awaits, chain[i])
  }

  /** Waiting, prioritized, active or delayed: a worker or the scheduler will get to it. */
  predicate Runnable(s: State, id: Id)
  {
    id in s.waiting || id in s.prioritized || id in s.active || id in s.delayed
  }

  /** A parked job waits, perhaps through others, for a job that can still run or
      that is dead. */
  lemma {:induction false} NoDeadlock(w: System, j: Id) returns (chain: seq<Id>)
    requires Right(w) && j in w.s.blocked
    ensures Chain(w, chain) && chain[0] == j
    ensures Runnable(w.s, chain[|chain| - 1]) || chain[|chain| - 1] in w.s.failed
    decreases if j in w.rank then w.rank[j] else 0
  {
    assert CounterOf(w.s, w.awaits, j);
    var p :| p in Awaiting(w.awaits, j);
    assert AwaitedBy(w, p, j);
    if p in w.s.blocked {
      var rest := NoDeadlock(w, p);
      chain := [j] + rest;
    } else {
      chain := [j, p];
      StoredSomewhere(w.s, p);
    }
  }

  /** Along a chain every job was stored before the one that awaits it. */
  lemma {:induction false} RankFalls(w: System, chain: seq<Id>, i: nat, j: nat)
    requires Right(w) && Chain(w, chain) && i < j < |chain|
    ensures chain[i] in w.rank && chain[j] in w.rank && w.rank[chain[j]] < w.rank[chain[i]]
    decreases j
  {
    assert chain[j - 1 + 1] in Awaiting(w.awaits, chain[j - 1]);
    assert AwaitedBy(w, chain[j], chain[j - 1]);
    if i == j - 1 {
    } else {
      RankFalls(w, chain, i, j - 1);
    }
  }

  /** No job occurs twice on a chain, so jobs never wait in a circle. */
  lemma NobodyWaitsInACircle(w: System, chain: seq<Id>)
    requires Right(w) && Chain(w, chain)
    ensures NoDup(chain)
  {
    forall i, j | 0 <= i < j < |chain|
      ensures chain[i] != chain[j]
    {
      RankFalls(w, chain, i, j);
    }
  }

  lemma StoredSomewhere(s: State, p: Id)
    requires OnePlace(s) && p in s.vault && p !in s.blocked && p !in s.completed
    ensures Runnable(s, p) || p in s.failed
  {
    PlaceAtMostOnce(s, p);
    assert p in s.waiting <==> multiset(s.waiting)[p] > 0;
  }

  // ---- A run that finishes everything ----

  function Work(s: State): nat
  {
    4 * |s.blocked| + 3 * |s.delayed| + 2 * (|s.waiting| + |s.prioritized|) + |s.active|
  }

  /** The end of a chain that holds others up: dead, or delayed to a time before 0,
      which promote never reaches. */
  predicate NeverMoves(s: State, id: Id)
  {
    id in s.failed || (id in s.delayed && s.delayed[id] < 0)
  }

  /** Parked on a chain that ends in a job that never moves. */
  ghost predicate HeldUp(w: System, j: Id)
  {
    j in w.s.blocked && exists chain :: Chain(w, chain) && chain[0] == j && NeverMoves(w.s, chain[|chain| - 1])
  }

  /** Nothing is left that could still be done for the job. */
  ghost predicate AtEnd(w: System, id: Id)
  {
    id in w.s.completed || NeverMoves(w.s, id) || HeldUp(w, id)
  }

  ghost predicate AllAtEnd(w: System)
  {
    forall id :: id in w.s.vault ==> AtEnd(w, id)
  }

  lemma ReleaseWork(s: State, c: Id)
    ensures Work(Release(s, c)) <= Work(s) + 2
  {
    MapPut(s.prioritized, c, Score(StoredPriority(s, c), StoredTimestamp(s, c)));
  }

  lemma UnblockOneWork(s: State, p: Id, c: Id)
    ensures Work(UnblockOne(s, p, c)) <= Work(s)
  {
    var s1 := Uncount(s, p, c);
    assert Work(s1) == Work(s);
    if Spent(s, c) && c in s.blocked {
      ReleaseWork(s1, c);
      assert |s.blocked - {c}| == |s.blocked| - 1;
    }
  }

  lemma {:induction false} UnblockWork(s: State, p: Id, order: seq<Id>)
    ensures Work(UnblockAll(s, p, order)) <= Work(s)
    decreases |order|
  {
    if order == [] {
    } else {
      UnblockOneWork(s, p, order[0]);
      UnblockWork(UnblockOne(s, p, order[0]), p, order[1..]);
    }
  }

  lemma EnumerationExists(kids: set<Id>) returns (order: seq<Id>)
    ensures Enumerates(order, kids)
    decreases kids
  {
    if kids == {} {
      order := [];
    } else {
      var c :| c in kids;
      var rest := EnumerationExists(kids - {c});
      order := [c] + rest;
    }
  }

  /** Nobody died, was delayed, or began to wait. */
  ghost predicate Narrows(w: System, w': System)
  {
    && w'.s.failed == w.s.failed && DelaysFewer(w.s, w'.s)
    && forall j :: Awaiting(w'.awaits, j) <= Awaiting(w.awaits, j)
  }

  ghost predicate DelaysFewer(s: State, t: State)
  {
    forall id :: id in t.delayed ==> id in s.delayed && t.delayed[id] == s.delayed[id]
  }

  lemma NarrowOn(w: System, w1: System, w2: System)
    requires Narrows(w, w1) && Narrows(w1, w2)
    ensures Narrows(w, w2)
  {
    forall j
      ensures Awaiting(w2.awaits, j) <= Awaiting(w.awaits, j)
    {
      assert Awaiting(w2.awaits, j) <= Awaiting(w1.awaits, j) <= Awaiting(w.awaits, j);
    }
  }

  ghost predicate LessToDo(s: State, t: State)
  {
    Work(t) < Work(s) && t.failed == s.failed && DelaysFewer(s, t)
  }

  ghost predicate NoMoreToDo(s: State, t: State)
  {
    Work(t) <= Work(s) && t.failed == s.failed && DelaysFewer(s, t)
  }

  lemma LessThenNoMore(s: State, t: State, u: State)
    requires LessToDo(s, t) && NoMoreToDo(t, u)
    ensures LessToDo(s, u)
  {
  }

  /** A dequeue that hands something out, a promote that finds something due, or the
      completion of a running job, each with any parameters. */
  ghost predicate Productive(w: System, op: Op)
  {
    Legal(w, op) &&
    match op
    case Take(_, _, _) => Next(w.s).Some?
    case TakeMany(n, lease) => BatchDequeue(w.s, n, lease).taken != []
    case Complete(_, _, _, _, _, _, _, _) => true
    case PromoteDue(now) => Between(w.s.delayed, 0, now) != map[]
    case _ => false
  }

  /** A step that is legal and leaves less to do. */
  ghost predicate Advances(w: System, op: Op)
  {
    Legal(w, op) && LessToDo(w.s, Effect(w.s, op)) && (op.Complete? || op.Take? || op.TakeMany? || op.PromoteDue?)
  }

  lemma AdvancesNarrows(w: System, op: Op)
    requires Advances(w, op)
    ensures Narrows(w, Apply(w, op))
  {
    var awaits := AwaitsAfter(w, op);
    forall j
      ensures Awaiting(awaits, j) <= Awaiting(w.awaits, j)
    {
    }
  }

  lemma FinalizeWork(s: State, id: Id, o: Outcome, now: int, keep: int, publish: bool)
    requires id in s.active && o.completed
    ensures LessToDo(s, Finalize(s, id, o, now, keep, publish))
  {
    LessOne(s.active, id);
  }

  lemma PopWork(s: State)
    ensures Work(Pop(s)) <= Work(s) && (Popped(s).Some? ==> Work(Pop(s)) == Work(s) - 2)
  {
    if s.prioritized != map[] {
      LessOne(s.prioritized, Least(s.prioritized));
    }
  }

  lemma PickWork(s: State, id: Id, stamp: int, lease: int)
    requires id in s.vault
    ensures Work(Pick(s, id, stamp, lease)) <= Work(s) + 1
  {
    MapPut(s.active, id, lease);
  }

  lemma DequeueWork(s: State, now: int, lock: int, publish: bool)
    ensures NoMoreToDo(s, Dequeue(s, now, lock, publish))
    ensures Next(s).Some? ==> Work(Dequeue(s, now, lock, publish)) < Work(s)
  {
    PopWork(s);
    if Next(s).Some? {
      PickWork(Pop(s), Next(s).value, now, now + lock);
    }
  }

  lemma ThenTakenWork(s: State, t: State, u: State, op: Op)
    requires op.Complete? && LessToDo(s, t)
    requires u == if op.fetch.Some? then Dequeue(t, op.now, op.fetch.value - op.now, op.publish) else t
    ensures LessToDo(s, u)
  {
    if op.fetch.Some? {
      DequeueWork(t, op.now, op.fetch.value - op.now, op.publish);
      LessThenNoMore(s, t, u);
    }
  }

  lemma UnblockedWork(s: State, t: State, p: Id, order: seq<Id>)
    requires t == UnblockAll(s, p, order)
    ensures NoMoreToDo(s, t)
  {
    UnblockWork(s, p, order);
    UnblockFrame(s, p, order);
  }

  lemma ClosingWork(s: State, t: State, op: Op)
    requires op.Complete? && op.id in s.active && t == Closing(s, op)
    ensures LessToDo(s, t)
  {
    FinalizeWork(s, op.id, Outcome(true, op.value, op.progress), op.now, op.keep, op.publish);
  }

  lemma SettleWork(s: State, op: Op)
    requires op.Complete? && op.id in s.active
    ensures LessToDo(s, Settle(s, op))
  {
    var m := Finished(s, op);
    var u := UnblockAll(m, op.id, op.order);
    ClosingWork(s, Closing(s, op), op);
    ThenTakenWork(s, Closing(s, op), m, op);
    UnblockedWork(m, u, op.id, op.order);
    LessThenNoMore(s, m, u);
  }

  lemma CompleteProgress(w: System, id: Id) returns (op: Op)
    requires Right(w) && id in w.s.active
    ensures Productive(w, op)
  {
    var order := EnumerationExists(Kids(w.s.childEdges, id));
    op := Complete(id, "", "", 0, 0, false, None, order);
  }

  lemma TakeProgress(w: System) returns (op: Op)
    requires Right(w) && Popped(w.s).Some?
    ensures Productive(w, op)
  {
    op := Take(0, 0, false);
    PoppedIsStored(w.s);
  }

  lemma {:induction false} TakeEachWork(b: Batch, clocks: seq<Clock>)
    requires AllStored(b.s)
    ensures var c := TakeEach(b, clocks);
            NoMoreToDo(b.s, c.s) && Work(c.s) + |c.taken| <= Work(b.s) + |b.taken|
    decreases |clocks|
  {
    if clocks == [] {
    } else {
      var s := Dequeue(b.s, clocks[0].now, clocks[0].lock, false);
      DequeueWork(b.s, clocks[0].now, clocks[0].lock, false);
      DequeueTakesFirst(b.s, clocks[0].now, clocks[0].lock);
      TakeEachWork(Batch(s, b.taken + Handed(b.s)), clocks[1..]);
      NoMoreOn(b.s, s, TakeEach(b, clocks).s);
    }
  }

  lemma NoMoreOn(s: State, t: State, u: State)
    requires NoMoreToDo(s, t) && NoMoreToDo(t, u)
    ensures NoMoreToDo(s, u)
  {
  }

  lemma AlikeWork(s: State, t: State)
    requires Alike(s, t)
    ensures Work(s) == Work(t) && s.failed == t.failed && s.delayed == t.delayed
  {
    assert |s.active| == |s.active.Keys| && |t.active| == |t.active.Keys|;
  }

  lemma TakeManyWork(s: State, n: nat, lease: int)
    requires AllStored(s) && BatchDequeue(s, n, lease).taken != []
    ensures LessToDo(s, BatchDequeue(s, n, lease).s)
  {
    var clocks := seq(n, i => Clock(0, 0));
    BatchIsRepeatedDequeue(s, lease, clocks);
    TakeEachWork(Batch(s, []), clocks);
    AlikeWork(BatchDequeue(s, n, lease).s, TakeEach(Batch(s, []), clocks).s);
  }

  lemma PromoteOneWork(s: State, id: Id)
    requires id in s.delayed
    ensures Work(PromoteOne(s, id)) < Work(s)
  {
    ReleaseWork(s, id);
    LessOne(s.delayed, id);
  }

  lemma {:induction false} PromoteWork(s: State, ids: seq<Id>)
    requires NoDup(ids) && forall x :: x in ids ==> x in s.delayed
    ensures var t := PromoteAll(s, ids);
            t.failed == s.failed && DelaysFewer(s, t) && Work(t) <= Work(s) && (ids != [] ==> Work(t) < Work(s))
    decreases |ids|
  {
    if ids == [] {
    } else {
      PromoteOneWork(s, ids[0]);
      PromoteWork(PromoteOne(s, ids[0]), ids[1..]);
    }
  }

  lemma DueWork(s: State, now: int)
    requires Between(s.delayed, 0, now) != map[]
    ensures LessToDo(s, Promote(s, now))
  {
    var due := Between(s.delayed, 0, now);
    ByScoreSorted(due);
    PromoteWork(s, ByScore(due));
  }

  lemma PromoteProgress(w: System, id: Id) returns (op: Op)
    requires Right(w) && id in w.s.delayed && w.s.delayed[id] >= 0
    ensures Productive(w, op)
  {
    op := PromoteDue(w.s.delayed[id]);
    assert id in Between(w.s.delayed, 0, op.now);
  }

  lemma EffectOfPromote(s: State, op: Op)
    requires op.PromoteDue?
    ensures Effect(s, op) == Promote(s, op.now)
  {
  }

  lemma PromoteLeavesLess(s: State, op: Op)
    requires op.PromoteDue? && Between(s.delayed, 0, op.now) != map[]
    ensures LessToDo(s, Effect(s, op))
  {
    EffectOfPromote(s, op);
    DueWork(s, op.now);
  }

  lemma TakeLeavesLess(w: System, op: Op)
    requires Right(w) && (op.Take? || op.TakeMany?) && Productive(w, op)
    ensures LessToDo(w.s, Effect(w.s, op))
  {
    PlacedAreStored(w.s);
    if op.Take? {
      DequeueWork(w.s, op.now, op.lock, op.publish);
    } else {
      TakeManyWork(w.s, op.n, op.lease);
    }
  }

  lemma CompleteLeavesLess(s: State, op: Op)
    requires op.Complete? && op.id in s.active
    ensures LessToDo(s, Effect(s, op))
  {
    SettleWork(s, op);
  }

  lemma ProductiveAdvances(w: System, op: Op)
    requires Right(w) && Productive(w, op)
    ensures Advances(w, op)
  {
    if op.PromoteDue? {
      PromoteLeavesLess(w.s, op);
    } else if op.Complete? {
      CompleteLeavesLess(w.s, op);
    } else {
      TakeLeavesLess(w, op);
    }
  }

  /** Nobody can work, and nothing delayed will ever be due. */
  ghost predicate Idle(s: State)
  {
    s.active == map[] && Popped(s) == None && forall id :: id in s.delayed ==> s.delayed[id] < 0
  }

  lemma IdleMeansAtEnd(w: System)
    requires Right(w) && Idle(w.s)
    ensures AllAtEnd(w)
  {
    forall id | id in w.s.vault
      ensures AtEnd(w, id)
    {
      PlaceAtMostOnce(w.s, id);
      if id in w.s.blocked {
        var chain := NoDeadlock(w, id);
        assert NeverMoves(w.s, chain[|chain| - 1]);
      }
    }
  }

  /** While somebody can still work, or something delayed can come due, one step
      towards the end is possible. */
  lemma SomeProgress(w: System) returns (op: Op)
    requires Right(w) && !Idle(w.s)
    ensures Productive(w, op)
  {
    if w.s.active != map[] {
      var id :| id in w.s.active;
      op := CompleteProgress(w, id);
    } else if Popped(w.s).Some? {
      op := TakeProgress(w);
    } else {
      var id :| id in w.s.delayed && w.s.delayed[id] >= 0;
      op := PromoteProgress(w, id);
    }
  }

  ghost predicate AllProductive(w: System, ops: seq<Op>)
    decreases |ops|
  {
    ops == [] || (Productive(w, ops[0]) && AllProductive(Apply(w, ops[0]), ops[1..]))
  }

  lemma {:induction false} ProductiveRun(w: System, ops: seq<Op>)
    requires Right(w) && AllProductive(w, ops)
    ensures AllLegal(w, ops) && Right(Run(w, ops)) && Narrows(w, Run(w, ops))
    ensures |ops| + Work(Run(w, ops).s) <= Work(w.s)
    decreases |ops|
  {
    if ops == [] {
    } else {
      ProductiveAdvances(w, ops[0]);
      StepKeepsRight(w, ops[0]);
      AdvancesNarrows(w, ops[0]);
      ProductiveRun(Apply(w, ops[0]), ops[1..]);
      NarrowOn(w, Apply(w, ops[0]), Run(w, ops));
    }
  }

  /** Whatever the schedule: productive steps, in any order and with any parameters,
      come to an end after at most Work(w.s) of them. They kill nobody, and once none
      is left, every stored job is at its end: completed, dead before, delayed to a
      time that never comes, or parked on a chain that ends in such a job. */
  lemma EveryScheduleFinishes(w: System, ops: seq<Op>)
    requires Right(w) && AllProductive(w, ops)
    ensures |ops| <= Work(w.s) && AllLegal(w, ops) && Narrows(w, Run(w, ops))
    ensures (forall op :: !Productive(Run(w, ops), op)) ==> AllAtEnd(Run(w, ops))
  {
    ProductiveRun(w, ops);
    if Idle(Run(w, ops).s) {
      IdleMeansAtEnd(Run(w, ops));
    } else {
      var op := SomeProgress(Run(w, ops));
      assert Productive(Run(w, ops), op);
    }
  }

  /** And such a run exists from every state a legal run can reach. */
  lemma {:induction false} EveryFlowCanFinish(w: System) returns (ops: seq<Op>)
    requires Right(w)
    ensures AllProductive(w, ops) && AllLegal(w, ops)
    ensures Right(Run(w, ops)) && AllAtEnd(Run(w, ops)) && Narrows(w, Run(w, ops))
    decreases Work(w.s)
  {
    if Idle(w.s) {
      IdleMeansAtEnd(w);
      ops := [];
    } else {
      var op := SomeProgress(w);
      ProductiveAdvances(w, op);
      StepKeepsRight(w, op);
      AdvancesNarrows(w, op);
      var rest := EveryFlowCanFinish(Apply(w, op));
      ops := [op] + rest;
      NarrowOn(w, Apply(w, op), Run(Apply(w, op), rest));
    }
  }

  /** Nobody waits for a job that never moves. */
  ghost predicate Hopeful(w: System)
  {
    forall p: Id, j: Id :: p in Awaiting(w.awaits, j) ==> !NeverMoves(w.s, p)
  }

  lemma ChainEndsWell(w: System, chain: seq<Id>)
    requires Right(w) && Hopeful(w) && Chain(w, chain) && chain[0] in w.s.blocked
    ensures !NeverMoves(w.s, chain[|chain| - 1])
  {
    var n := |chain| - 1;
    if n == 0 {
      PlaceAtMostOnce(w.s, chain[0]);
    } else {
      assert chain[n - 1 + 1] in Awaiting(w.awaits, chain[n - 1]);
    }
  }

  lemma NoneHeldUp(w: System, j: Id)
    requires Right(w) && Hopeful(w)
    ensures !HeldUp(w, j)
  {
    forall chain | Chain(w, chain) && chain[0] == j && j in w.s.blocked
      ensures !NeverMoves(w.s, chain[|chain| - 1])
    {
      ChainEndsWell(w, chain);
    }
  }

  lemma NarrowKeepsHope(w: System, w': System)
    requires Hopeful(w) && Narrows(w, w')
    ensures Hopeful(w')
  {
    forall p: Id, j: Id | p in Awaiting(w'.awaits, j)
      ensures !NeverMoves(w'.s, p)
    {
      assert Awaiting(w'.awaits, j) <= Awaiting(w.awaits, j);
      assert !NeverMoves(w.s, p);
    }
  }

  /** As long as nobody waits for a job that is dead or never due, everything else can
      be completed, whatever else has died in the queue. */
  lemma AllButTheDeadComplete(w: System) returns (ops: seq<Op>)
    requires Right(w) && Hopeful(w)
    ensures AllLegal(w, ops)
    ensures forall id :: id in Run(w, ops).s.vault ==> id in Run(w, ops).s.completed || NeverMoves(w.s, id)
  {
    ops := EveryFlowCanFinish(w);
    var w' := Run(w, ops);
    NarrowKeepsHope(w, w');
    forall id | id in w'.s.vault
      ensures id in w'.s.completed || NeverMoves(w.s, id)
    {
      assert AtEnd(w', id);
      NoneHeldUp(w', id);
    }
  }
}

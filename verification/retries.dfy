/**
 When retries run out. A failure compares the attempts with maxretries, but attempts
 are counted at the first pickup only, and a retry from the DLQ resets them for good.
 */
module Retries {
  import opened Redis
  import opened Model
  import opened Machine
  import opened Placement
  import opened Attempts
  import opened Sweep
  import opened Runs

  /** History: which of the stored jobs were retried from the DLQ since they were added. */
  function RevivedAfter(s: State, op: Op, revived: set<Id>): set<Id>
  {
    revived * s.vault.Keys + if op.RetryDead? && op.id in s.dlq then {op.id} else {}
  }

  function RevivedOver(w: System, ops: seq<Op>, revived: set<Id>): set<Id>
    decreases |ops|
  {
    if ops == [] then revived else RevivedOver(Apply(w, ops[0]), ops[1..], RevivedAfter(w.s, ops[0], revived))
  }

  /** A job picked up and never retried from the DLQ has one attempt, any other none. */
  predicate CountedExactly(job: Job, retried: bool)
  {
    && job.attempts == (if job.processedOn.Some? && !retried then 1 else 0)
    && (retried ==> job.processedOn.Some?)
  }

  ghost predicate Exact(s: State, revived: set<Id>)
  {
    forall x :: x in s.vault ==> CountedExactly(s.vault[x], x in revived)
  }

  lemma StepKeepsExact(w: System, op: Op, revived: set<Id>)
    requires Right(w) && Legal(w, op) && Exact(w.s, revived)
    ensures Exact(Effect(w.s, op), RevivedAfter(w.s, op, revived))
  {
    if op.RetryDead? {
      RetryKeepsExact(w.s, op.id, revived);
    } else {
      StepAdvances(w, op);
      AdvanceKeepsExact(w.s, Effect(w.s, op), revived, revived * w.s.vault.Keys);
      assert RevivedAfter(w.s, op, revived) == revived * w.s.vault.Keys;
    }
  }

  lemma RetryKeepsExact(s: State, id: Id, revived: set<Id>)
    requires Started(s) && Exact(s, revived)
    ensures Exact(Effect(s, RetryDead(id)), RevivedAfter(s, RetryDead(id), revived))
  {
    if id in s.dlq {
      RetryStarts(s, id);
    }
  }

  lemma AdvanceKeepsExact(s: State, t: State, revived: set<Id>, still: set<Id>)
    requires Exact(s, revived) && Advances(s, t) && (KeepsStored(t, s) || AddsFresh(s, t))
    requires still == revived * s.vault.Keys
    ensures Exact(t, still)
  {
    forall x | x in t.vault
      ensures CountedExactly(t.vault[x], x in still)
    {
      if x in s.vault {
        assert Climbs(s.vault[x], t.vault[x]) && CountedExactly(s.vault[x], x in revived);
      }
    }
  }

  lemma {:induction false} RunKeepsExact(w: System, ops: seq<Op>, revived: set<Id>)
    requires Right(w) && AllLegal(w, ops) && Exact(w.s, revived)
    ensures Right(Run(w, ops)) && Exact(Run(w, ops).s, RevivedOver(w, ops, revived))
    decreases |ops|
  {
    if ops == [] {
    } else {
      StepKeepsRight(w, ops[0]);
      StepKeepsExact(w, ops[0], revived);
      RunKeepsExact(Apply(w, ops[0]), ops[1..], RevivedAfter(w.s, ops[0], revived));
    }
  }

  /** What is left of a limit on retries: none with maxretries 0, one attempt with
      maxretries 1 for a job never retried from the DLQ, and no limit otherwise. */
  predicate Limited(job: Job, retried: bool)
  {
    job.maxretries == 0 || (job.maxretries == 1 && !retried)
  }

  lemma UsedUpIffLimited(s: State, revived: set<Id>, id: Id, now: int)
    requires OnePlace(s) && Started(s) && Exact(s, revived) && id in s.active
    ensures id in s.vault
    ensures !Postpones(s, id, false) <==> Limited(s.vault[id], id in revived)
    ensures Expired(s, id, now) ==> (id in Recover(s, now).failed <==> Limited(s.vault[id], id in revived))
  {
    PlaceAtMostOnce(s, id);
    assert CountedExactly(s.vault[id], id in revived);
    if Expired(s, id, now) {
      SweepExact(s, now, id);
      DeadLettersIff(s, Recover(s, now), id, now);
    }
  }

  lemma DeadLettersIff(s: State, t: State, id: Id, now: int)
    requires SweptAt(s, t, id, now) && id in s.vault && id !in s.failed
    ensures id in t.failed <==> s.vault[id].attempts >= s.vault[id].maxretries
  {
  }

  /** After any legal run, an ordinary failure of a running job, or the sweep that finds
      its lease ended, kills it exactly when maxretries is 0, or is 1 and the job was never
      retried from the DLQ. In every other case it is tried again, however often it
      has failed. */
  lemma RetriesRunOutIff(ops: seq<Op>, id: Id, now: int)
    requires AllLegal(START, ops) && id in Run(START, ops).s.active
    ensures var s := Run(START, ops).s;
            var retried := id in RevivedOver(START, ops, {});
            && id in s.vault
            && (!Postpones(s, id, false) <==> Limited(s.vault[id], retried))
            && (Expired(s, id, now) ==> (id in Recover(s, now).failed <==> Limited(s.vault[id], retried)))
  {
    StartIsRight();
    RunKeepsExact(START, ops, {});
    UsedUpIffLimited(Run(START, ops).s, RevivedOver(START, ops, {}), id, now);
  }

  // ---- A job that fails for ever ----

  /** How often the run hands out the job. */
  function HandedOut(w: System, ops: seq<Op>, id: Id): nat
    decreases |ops|
  {
    if ops == [] then 0
    else (if ops[0].Take? && Next(w.s) == Some(id) then 1 else 0) + HandedOut(Apply(w, ops[0]), ops[1..], id)
  }

  /** The job waits alone. */
  ghost predicate Alone(w: System, id: Id)
  {
    && Right(w) && id in w.s.vault && w.s.vault[id].maxretries >= 2 && w.s.vault[id].priority == 0
    && w.s.waiting == [id] && w.s.prioritized == map[] && w.s.active == map[] && w.s.delayed == map[]
  }

  const TAKE := Take(0, 0, false)

  function FailNow(id: Id): Op
  {
    Fail(id, false, "", 0, 0, 0, false)
  }

  lemma TakeAlone(w: System, id: Id)
    requires Alone(w, id)
    ensures var s := Effect(w.s, TAKE);
            && Next(w.s) == Some(id) && id in s.vault
            && s.vault[id] == PickedUp(w.s.vault[id], 0) && s.active == map[id := 0]
            && s.waiting == [] && s.prioritized == map[] && s.delayed == map[]
  {
  }

  lemma FailAlone(s: State, id: Id)
    requires id in s.vault && s.vault[id].attempts < s.vault[id].maxretries && s.active == map[id := 0] && s.delayed == map[]
    ensures var t := Effect(s, FailNow(id));
            && id in t.vault && t.vault[id] == s.vault[id].(status := Retrying) && t.delayed == map[id := 0]
            && t.active == map[] && t.waiting == s.waiting && t.prioritized == s.prioritized
  {
  }

  lemma DueAlone(z: ZSet, id: Id)
    requires z == map[id := 0]
    ensures ByScore(Between(z, 0, 0)) == [id]
  {
    assert Between(z, 0, 0) == z;
    ByScoreOfOne(z, id);
  }

  lemma PromoteSingle(s: State, id: Id)
    ensures PromoteAll(s, [id]) == PromoteOne(s, id)
  {
    assert [id][1..] == [];
  }

  lemma PromoteOneAlone(s: State, id: Id)
    requires s.delayed == map[id := 0] && id in s.vault && s.vault[id].priority == 0
    requires s.waiting == [] && s.prioritized == map[] && s.active == map[]
    ensures var t := PromoteOne(s, id);
            && t.vault == s.vault && t.delayed == map[] && t.waiting == [id] && t.prioritized == map[] && t.active == map[]
  {
    assert s.delayed - {id} == map[];
  }

  lemma PromoteAlone(s: State, id: Id)
    requires s.delayed == map[id := 0]
    ensures Effect(s, PromoteDue(0)) == PromoteOne(s, id)
  {
    DueAlone(s.delayed, id);
    PromoteSingle(s, id);
  }

  // ---- Runs end to end ----

  lemma RunSingle(w: System, op: Op, id: Id)
    ensures Run(w, [op]) == Apply(w, op)
    ensures AllLegal(w, [op]) <==> Legal(w, op)
    ensures HandedOut(w, [op], id) == if op.Take? && Next(w.s) == Some(id) then 1 else 0
  {
    assert [op][1..] == [];
  }

  lemma {:induction false} RunConcat(w: System, a: seq<Op>, b: seq<Op>, id: Id)
    ensures Run(w, a + b) == Run(Run(w, a), b)
    ensures AllLegal(w, a + b) <==> AllLegal(w, a) && AllLegal(Run(w, a), b)
    ensures HandedOut(w, a + b, id) == HandedOut(w, a, id) + HandedOut(Run(w, a), b, id)
    decreases |a|
  {
    if a == [] {
      assert a + b == b;
    } else {
      assert (a + b)[1..] == a[1..] + b;
      RunConcat(Apply(w, a[0]), a[1..], b, id);
    }
  }

  /** The run is legal, hands the job out n times, and ends in w'. */
  ghost predicate Leads(w: System, ops: seq<Op>, id: Id, n: nat, w': System)
  {
    AllLegal(w, ops) && HandedOut(w, ops, id) == n && Run(w, ops) == w'
  }

  lemma LeadsOn(w: System, a: seq<Op>, m: nat, w': System, b: seq<Op>, n: nat, w'': System, id: Id)
    requires Leads(w, a, id, m, w') && Leads(w', b, id, n, w'')
    ensures Leads(w, a + b, id, m + n, w'')
  {
    RunConcat(w, a, b, id);
  }

  lemma LeadsSingle(w: System, op: Op, id: Id)
    requires Legal(w, op)
    ensures Leads(w, [op], id, if op.Take? && Next(w.s) == Some(id) then 1 else 0, Apply(w, op))
  {
    RunSingle(w, op, id);
  }

  // ---- Rounds ----

  /** Handed out, and now running. */
  ghost predicate RunsAlone(w: System, id: Id)
  {
    && Right(w) && id in w.s.vault && w.s.vault[id].maxretries >= 2 && w.s.vault[id].priority == 0
    && w.s.waiting == [] && w.s.prioritized == map[] && w.s.active == map[id := 0] && w.s.delayed == map[]
  }

  /** Failed, and now delayed. */
  ghost predicate DelayedAlone(w: System, id: Id)
  {
    && Right(w) && id in w.s.vault && w.s.vault[id].maxretries >= 2 && w.s.vault[id].priority == 0
    && w.s.waiting == [] && w.s.prioritized == map[] && w.s.active == map[] && w.s.delayed == map[id := 0]
  }

  lemma TakeRound(w: System, id: Id)
    requires Alone(w, id)
    ensures Legal(w, TAKE) && RunsAlone(Apply(w, TAKE), id) && Next(w.s) == Some(id)
  {
    TakeAlone(w, id);
    StepKeepsRight(w, TAKE);
  }

  lemma FailRound(w: System, id: Id)
    requires RunsAlone(w, id)
    ensures Legal(w, FailNow(id)) && DelayedAlone(Apply(w, FailNow(id)), id)
  {
    assert CountedOnce(w.s.vault[id]);
    FailAlone(w.s, id);
    StepKeepsRight(w, FailNow(id));
  }

  lemma PromoteRound(w: System, id: Id)
    requires DelayedAlone(w, id)
    ensures Legal(w, PromoteDue(0)) && Alone(Apply(w, PromoteDue(0)), id)
  {
    PromoteAlone(w.s, id);
    PromoteOneAlone(w.s, id);
    StepKeepsRight(w, PromoteDue(0));
  }

  /** One round: handed out once, failed, promoted, and waiting alone again. */
  lemma OneRound(w: System, id: Id) returns (round: seq<Op>, w3: System)
    requires Alone(w, id)
    ensures Alone(w3, id) && Leads(w, round, id, 1, w3)
  {
    var w1 := Apply(w, TAKE);
    TakeRound(w, id);
    LeadsSingle(w, TAKE, id);
    round, w3 := AfterTaking(w, [TAKE], w1, id);
  }

  lemma AfterTaking(w: System, ops: seq<Op>, w1: System, id: Id) returns (round: seq<Op>, w3: System)
    requires RunsAlone(w1, id) && Leads(w, ops, id, 1, w1)
    ensures Alone(w3, id) && Leads(w, round, id, 1, w3)
  {
    var w2 := Apply(w1, FailNow(id));
    FailRound(w1, id);
    LeadsSingle(w1, FailNow(id), id);
    LeadsOn(w, ops, 1, w1, [FailNow(id)], 0, w2, id);
    round, w3 := AfterFailing(w, ops + [FailNow(id)], w2, id);
  }

  lemma AfterFailing(w: System, ops: seq<Op>, w2: System, id: Id) returns (round: seq<Op>, w3: System)
    requires DelayedAlone(w2, id) && Leads(w, ops, id, 1, w2)
    ensures Alone(w3, id) && Leads(w, round, id, 1, w3)
  {
    w3 := Apply(w2, PromoteDue(0));
    PromoteRound(w2, id);
    LeadsSingle(w2, PromoteDue(0), id);
    LeadsOn(w, ops, 1, w2, [PromoteDue(0)], 0, w3, id);
    round := ops + [PromoteDue(0)];
  }

  lemma {:induction false} ManyRounds(w: System, id: Id, n: nat) returns (ops: seq<Op>, w': System)
    requires Alone(w, id)
    ensures Leads(w, ops, id, n, w')
    decreases n
  {
    if n == 0 {
      ops, w' := [], w;
    } else {
      var round, w3 := OneRound(w, id);
      var rest;
      rest, w' := ManyRounds(w3, id, n - 1);
      LeadsOn(w, round, 1, w3, rest, n - 1, w', id);
      ops := round + rest;
    }
  }

  lemma AddedAlone(job: Job)
    requires Fresh(job) && job.priority == 0 && job.maxretries >= 2
    ensures Legal(START, Add(1, job)) && Alone(Apply(START, Add(1, job)), 1)
  {
    StartIsRight();
    StepKeepsRight(START, Add(1, job));
  }

  /** For every n there is a legal run from the empty queue that hands the same job
      out n times, whatever its maxretries from 2 on. */
  lemma RetriedForEver(job: Job, n: nat) returns (ops: seq<Op>)
    requires Fresh(job) && job.priority == 0 && job.maxretries >= 2
    ensures AllLegal(START, ops) && HandedOut(START, ops, 1) == n
    ensures ops != [] && ops[0] == Add(1, job)
  {
    var w := Apply(START, Add(1, job));
    AddedAlone(job);
    LeadsSingle(START, Add(1, job), 1);
    var rounds, w' := ManyRounds(w, 1, n);
    LeadsOn(START, [Add(1, job)], 0, w, rounds, n, w', 1);
    ops := [Add(1, job)] + rounds;
  }
}

/**
 A flow registered into a live queue: its registrations and anything else the
 producers, workers and maintenance loops do, in any order.
 */
module FlowRuns {
  import opened Redis
  import opened Model
  import opened Machine
  import opened Dag
  import opened Edges
  import opened Dependents
  import opened Attempts
  import opened Runs
  import opened Progress
  import opened Flows

  // ---- A job's flow flag never changes while it is stored ----

  ghost predicate SameFlags(s: State, t: State)
  {
    forall id :: id in s.vault && id in t.vault ==> t.vault[id].flow == s.vault[id].flow
  }

  lemma RetryFlags(s: State, id: Id)
    requires CopiesRight(s) && id in s.dlq && (id in s.vault ==> id in s.failed)
    ensures SameFlags(s, RetryJob(s, id, Revived(s, id)))
  {
  }

  lemma FlagsNeverChange(w: System, op: Op)
    requires Right(w) && Legal(w, op)
    ensures SameFlags(w.s, Effect(w.s, op))
  {
    if op.RetryDead? {
      if op.id in w.s.dlq {
        RetryFlags(w.s, op.id);
      }
    } else {
      StepAdvances(w, op);
      AdvancesKeepFlags(w.s, Effect(w.s, op));
    }
  }

  lemma AdvancesKeepFlags(s: State, t: State)
    requires AllClimb(s, t)
    ensures SameFlags(s, t)
  {
    forall id | id in s.vault && id in t.vault
      ensures t.vault[id].flow == s.vault[id].flow
    {
      assert Climbs(s.vault[id], t.vault[id]);
    }
  }

  // ---- The flow among everything else ----

  /** One step of the run: a registration of the flow, or anything else. */
  datatype Happening = Registering(op: Op, reg: Reg) | Elsewhere(op: Op)

  function OpsOf(hs: seq<Happening>): seq<Op>
    decreases |hs|
  {
    if hs == [] then [] else [hs[0].op] + OpsOf(hs[1..])
  }

  function RegsOf(hs: seq<Happening>): seq<Reg>
    decreases |hs|
  {
    if hs == [] then []
    else if hs[0].Registering? then [hs[0].reg] + RegsOf(hs[1..])
    else RegsOf(hs[1..])
  }

  /** Queue.add: parked on its parents when it lists any, queued or delayed otherwise. */
  predicate Performs(op: Op, reg: Reg)
  {
    if reg.parents == [] then (op.Add? || op.AddLater?) && Carries(op.id, op.job, reg)
    else op.Depend? && Carries(op.id, op.job, reg)
  }

  predicate Carries(id: Id, job: Job, reg: Reg)
  {
    id == reg.id && Fresh(job) && job.parents == reg.parents && job.flow == reg.flagged
  }

  /** Still stored, and settled if it counts as done. */
  predicate Lasts(s: State, p: Id)
  {
    p in s.vault && (Done(s, p) ==> Settled(s, p))
  }

  function NowKnown(h: Happening, known: set<Id>): set<Id>
  {
    known + if h.Registering? then {h.reg.id} else {}
  }

  /** A registration still to come lists p. */
  predicate StillListed(hs: seq<Happening>, p: Id)
  {
    exists r :: r in RegsOf(hs) && p in r.parents
  }

  /** What the flow needs of everybody else: their steps are legal, its ids are new,
      parents from outside are good ones, and no job it registered is removed before
      the last of its own jobs that waits for it is registered. */
  ghost predicate Undisturbed(w: System, hs: seq<Happening>, outside: set<Id>, known: set<Id>)
    decreases |hs|
  {
    hs == [] || (
      && (forall p :: p in known && StillListed(hs, p) ==> Lasts(w.s, p))
      && (hs[0].Elsewhere? ==> Legal(w, hs[0].op))
      && (hs[0].Registering? ==>
            && Performs(hs[0].op, hs[0].reg) && hs[0].reg.id !in w.s.vault
            && forall p :: p in hs[0].reg.parents && p in outside ==> GoodParent(w.s, p))
      && Undisturbed(Apply(w, hs[0].op), hs[1..], outside, NowKnown(hs[0], known)))
  }

  ghost predicate AllFlagged(s: State, hs: seq<Happening>, ids: set<Id>)
  {
    forall p :: p in ids && StillListed(hs, p) && p in s.vault ==> s.vault[p].flow
  }

  lemma RegistrationIsLegal(w: System, op: Op, reg: Reg, outside: set<Id>, flagged: set<Id>)
    requires Performs(op, reg) && NoDup(reg.parents)
    requires forall p :: p in flagged && p in reg.parents ==> Lasts(w.s, p) && w.s.vault[p].flow
    requires forall p :: p in reg.parents ==> p in outside + flagged
    requires forall p :: p in reg.parents && p in outside ==> GoodParent(w.s, p)
    ensures Legal(w, op)
  {
    forall p | p in reg.parents
      ensures GoodParent(w.s, p)
    {
      if p !in outside {
        assert p in flagged && Lasts(w.s, p);
      }
    }
  }

  lemma RegistrationStores(w: System, op: Op, reg: Reg)
    requires Performs(op, reg) && reg.id !in w.s.vault
    ensures reg.id in Effect(w.s, op).vault && Effect(w.s, op).vault[reg.id].flow == reg.flagged
  {
    if reg.parents != [] {
      DependFrame(w.s, op.id, op.job);
    }
  }

  function NowFlagged(h: Happening, flagged: set<Id>): set<Id>
  {
    flagged + if h.Registering? then Flagged([h.reg]) else {}
  }

  /** What a step needs of the flow so far. */
  ghost predicate UnderWay(w: System, hs: seq<Happening>, flagged: set<Id>, known: set<Id>)
  {
    Right(w) && flagged <= known && AllFlagged(w.s, hs, flagged)
  }

  lemma StillListedTail(hs: seq<Happening>, p: Id)
    requires hs != []
    ensures StillListed(hs[1..], p) ==> StillListed(hs, p)
    ensures hs[0].Registering? && p in hs[0].reg.parents ==> StillListed(hs, p)
  {
    if StillListed(hs[1..], p) {
      var r :| r in RegsOf(hs[1..]) && p in r.parents;
      assert r in RegsOf(hs);
    }
    if hs[0].Registering? {
      assert hs[0].reg in RegsOf(hs);
    }
  }

  lemma StepUnderWay(w: System, w': System, hs: seq<Happening>, flagged: set<Id>, known: set<Id>)
    requires hs != [] && UnderWay(w, hs, flagged, known) && Legal(w, hs[0].op) && w' == Apply(w, hs[0].op)
    requires forall p :: p in known && StillListed(hs, p) ==> Lasts(w.s, p)
    requires hs[0].Registering? ==> Performs(hs[0].op, hs[0].reg) && hs[0].reg.id !in w.s.vault
    ensures UnderWay(w', hs[1..], NowFlagged(hs[0], flagged), NowKnown(hs[0], known))
  {
    StepKeepsRight(w, hs[0].op);
    StepFlags(w, hs, flagged);
    MoreUnderWay(w', hs, flagged, known);
  }

  lemma MoreUnderWay(w': System, hs: seq<Happening>, flagged: set<Id>, known: set<Id>)
    requires hs != [] && Right(w') && flagged <= known && AllFlagged(w'.s, hs[1..], NowFlagged(hs[0], flagged))
    ensures UnderWay(w', hs[1..], NowFlagged(hs[0], flagged), NowKnown(hs[0], known))
  {
  }

  lemma StepFlags(w: System, hs: seq<Happening>, flagged: set<Id>)
    requires hs != [] && Right(w) && Legal(w, hs[0].op) && AllFlagged(w.s, hs, flagged)
    requires forall p :: p in flagged && StillListed(hs, p) ==> p in w.s.vault
    requires hs[0].Registering? ==> Performs(hs[0].op, hs[0].reg) && hs[0].reg.id !in w.s.vault
    ensures AllFlagged(Effect(w.s, hs[0].op), hs[1..], NowFlagged(hs[0], flagged))
  {
    FlagsNeverChange(w, hs[0].op);
    if hs[0].Registering? {
      RegistrationStores(w, hs[0].op, hs[0].reg);
    }
    StepFlagged(w, Effect(w.s, hs[0].op), hs, flagged);
  }

  lemma StepFlagged(w: System, t: State, hs: seq<Happening>, flagged: set<Id>)
    requires hs != [] && AllFlagged(w.s, hs, flagged) && SameFlags(w.s, t)
    requires forall p :: p in flagged && StillListed(hs, p) ==> p in w.s.vault
    requires hs[0].Registering? ==> hs[0].reg.id in t.vault && t.vault[hs[0].reg.id].flow == hs[0].reg.flagged
    ensures AllFlagged(t, hs[1..], NowFlagged(hs[0], flagged))
  {
    forall p | p in NowFlagged(hs[0], flagged) && StillListed(hs[1..], p) && p in t.vault
      ensures t.vault[p].flow
    {
      StillListedTail(hs, p);
    }
  }

  lemma FirstReg(hs: seq<Happening>, outside: set<Id>, flagged: set<Id>)
    requires hs != [] && ParentsFirst(RegsOf(hs), outside + flagged) && NoParentTwice(RegsOf(hs))
    ensures hs[0].Registering? ==> NoDup(hs[0].reg.parents) && forall p :: p in hs[0].reg.parents ==> p in outside + flagged
    ensures ParentsFirst(RegsOf(hs[1..]), outside + NowFlagged(hs[0], flagged)) && NoParentTwice(RegsOf(hs[1..]))
  {
    var h := hs[0];
    if h.Registering? {
      var rest := RegsOf(hs[1..]);
      assert RegsOf(hs) == [h.reg] + rest;
      assert RegsOf(hs)[..1] == [h.reg] && RegsOf(hs)[1..] == rest;
      assert h.reg in RegsOf(hs);
      assert outside + NowFlagged(h, flagged) == outside + flagged + Flagged([h.reg]);
    } else {
      assert NowFlagged(h, flagged) == flagged;
    }
  }

  lemma HappeningIsLegal(w: System, hs: seq<Happening>, outside: set<Id>, flagged: set<Id>, known: set<Id>)
    requires hs != [] && UnderWay(w, hs, flagged, known) && Undisturbed(w, hs, outside, known)
    requires ParentsFirst(RegsOf(hs), outside + flagged) && NoParentTwice(RegsOf(hs))
    ensures Legal(w, hs[0].op)
  {
    FirstReg(hs, outside, flagged);
    if hs[0].Registering? {
      forall p | p in flagged && p in hs[0].reg.parents
        ensures Lasts(w.s, p) && w.s.vault[p].flow
      {
        StillListedTail(hs, p);
      }
      RegistrationIsLegal(w, hs[0].op, hs[0].reg, outside, flagged);
    }
  }

  /** Every step of such a run is legal, so everything proved of legal runs holds of it. */
  lemma {:induction false} FlowRunIsLegal(w: System, hs: seq<Happening>, outside: set<Id>, flagged: set<Id>, known: set<Id>)
    requires UnderWay(w, hs, flagged, known) && Undisturbed(w, hs, outside, known)
    requires ParentsFirst(RegsOf(hs), outside + flagged) && NoParentTwice(RegsOf(hs))
    ensures AllLegal(w, OpsOf(hs))
    decreases |hs|
  {
    if hs == [] {
    } else {
      FirstReg(hs, outside, flagged);
      HappeningIsLegal(w, hs, outside, flagged, known);
      StepUnderWay(w, Apply(w, hs[0].op), hs, flagged, known);
      FlowRunIsLegal(Apply(w, hs[0].op), hs[1..], outside, NowFlagged(hs[0], flagged), NowKnown(hs[0], known));
    }
  }

  /** No flow deadlocks: register any flow, in any interleaving of its own parts and
      with anything else. Once it is registered there is a legal way to go on that
      kills nobody and brings every stored job to its end. */
  lemma FlowsFinish(w: System, root: Node, hs: seq<Happening>, outside: set<Id>) returns (ops: seq<Op>)
    requires Right(w)
    requires Distinct(root) && OwnFine(root, outside) && IdsOf(root) !! outside
    requires NodeTrace(root, [], false, RegsOf(hs)) && Undisturbed(w, hs, outside, {})
    ensures var w' := Run(w, OpsOf(hs));
            && AllLegal(w, OpsOf(hs)) && Right(w')
            && AllLegal(w', ops) && AllAtEnd(Run(w', ops)) && Narrows(w', Run(w', ops))
  {
    FlowIsOrdered(root, RegsOf(hs), outside);
    assert outside + {} == outside;
    FlowRunIsLegal(w, hs, outside, {}, {});
    RunKeepsRight(w, OpsOf(hs));
    ops := EveryFlowCanFinish(Run(w, OpsOf(hs)));
  }
}

/**
 A job is handed out only after its parents: whatever it was registered to wait for
 has completed or died by the time it is no longer parked.
 */
module Handouts {
  import opened Redis
  import opened Model
  import opened Machine
  import opened Dag
  import opened Edges
  import opened Removals
  import opened Runs
  import opened Flows
  import opened FlowRuns

  /** In some state of the run p counts as done: completed, or in the DLQ. */
  ghost predicate EverDone(w: System, ops: seq<Op>, p: Id)
    decreases |ops|
  {
    Done(w.s, p) || (ops != [] && EverDone(Apply(w, ops[0]), ops[1..], p))
  }

  ghost predicate StaysStored(w: System, ops: seq<Op>, x: Id)
    decreases |ops|
  {
    x in w.s.vault && (ops == [] || StaysStored(Apply(w, ops[0]), ops[1..], x))
  }

  // ---- A parent that is no longer awaited has just completed ----

  lemma CloseCompletes(s: State, c: State, id: Id, o: Outcome, now: int, x: Id)
    requires c == Close(s, id, o, now) && o.completed && (id, x) in s.childEdges
    ensures id in c.completed && Pinned(c, id)
  {
    assert x in Kids(c.childEdges, id);
  }

  lemma EraseKeepsPinned(c: State, t: State, keep: int, events: seq<Event>, id: Id)
    requires id in c.completed && Pinned(c, id) && t == Trim(c, true, keep).(events := events)
    ensures id in t.completed
  {
  }

  /** A job with children is in completed once it has completed, whatever the limit. */
  lemma ClosingCompletes(s: State, op: Op, x: Id)
    requires op.Complete? && (op.id, x) in s.childEdges
    ensures op.id in Closing(s, op).completed
  {
    var o := Outcome(true, op.value, op.progress);
    CloseCompletes(s, Close(s, op.id, o, op.now), op.id, o, op.now, x);
    EraseKeepsPinned(Close(s, op.id, o, op.now), Closing(s, op), op.keep, Closing(s, op).events, op.id);
  }

  lemma DequeueKeepsCompleted(s: State, now: int, lock: int, publish: bool)
    ensures Dequeue(s, now, lock, publish).completed == s.completed
  {
    if Next(s).Some? {
      PickKeepsCompleted(Pop(s), Next(s).value, now, now + lock);
    }
  }

  lemma PickKeepsCompleted(s: State, id: Id, stamp: int, lease: int)
    requires id in s.vault
    ensures Pick(s, id, stamp, lease).completed == s.completed
  {
  }

  lemma CompletionIsDone(s: State, op: Op, x: Id)
    requires op.Complete? && (op.id, x) in s.childEdges
    ensures Done(Settle(s, op), op.id)
  {
    ClosingCompletes(s, op, x);
    if op.fetch.Some? {
      DequeueKeepsCompleted(Closing(s, op), op.now, op.fetch.value - op.now, op.publish);
    }
    UnblockFrame(Finished(s, op), op.id, op.order);
  }

  lemma AwaitsAreKept(w: System, op: Op, x: Id, p: Id)
    requires p in Awaiting(w.awaits, x) && x in w.s.vault
    ensures p in Awaiting(AwaitsAfter(w, op), x) || (op.Complete? && op.id == p) || (op.Delete? && x in op.ids)
  {
  }

  lemma DeletedIsGone(s: State, ids: seq<Id>, x: Id)
    requires x in ids
    ensures x !in Deletion(s, ids).vault
  {
    DeleteAllGone(Cut(s, Members(ids)), ids);
  }

  /** A stored job goes on awaiting a parent until that parent has completed. */
  lemma AwaitsUntilDone(w: System, op: Op, x: Id, p: Id)
    requires EdgesRight(w.s, w.awaits) && p in Awaiting(w.awaits, x)
    requires x in w.s.vault && x in Effect(w.s, op).vault
    ensures p in Awaiting(Apply(w, op).awaits, x) || Done(Effect(w.s, op), p)
  {
    AwaitsAreKept(w, op, x, p);
    if op.Complete? && op.id == p {
      CompletionIsDone(w.s, op, x);
    } else if op.Delete? && x in op.ids {
      DeletedIsGone(w.s, op.ids, x);
    }
  }

  /** Whoever is not parked at the end of a run has seen every parent it awaited, or
      that was done already, completed or dead. */
  lemma {:induction false} NotParkedUntilDone(w: System, ops: seq<Op>, x: Id, p: Id)
    requires Right(w) && AllLegal(w, ops) && StaysStored(w, ops, x)
    requires p in Awaiting(w.awaits, x) || Done(w.s, p)
    ensures x in Run(w, ops).s.blocked || EverDone(w, ops, p)
    decreases |ops|
  {
    if ops == [] {
      BlockedIffAwaiting(w, x);
    } else if p in Awaiting(w.awaits, x) {
      StepKeepsRight(w, ops[0]);
      AwaitsUntilDone(w, ops[0], x, p);
      NotParkedUntilDone(Apply(w, ops[0]), ops[1..], x, p);
    }
  }

  /** A job registered with parents is out of `blocked`, and so in the hands of a worker,
      only after each of them has completed or died. */
  lemma HandedOutAfterItsParents(w: System, op: Op, ops: seq<Op>, p: Id)
    requires Right(w) && op.Depend? && op.id !in w.s.vault && p in op.job.parents
    requires AllLegal(w, [op] + ops) && StaysStored(Apply(w, op), ops, op.id)
    ensures op.id in Run(w, [op] + ops).s.blocked || EverDone(w, [op] + ops, p)
  {
    assert ([op] + ops)[1..] == ops;
    if !Done(w.s, p) {
      StepKeepsRight(w, op);
      NotParkedUntilDone(Apply(w, op), ops, op.id, p);
    }
  }

  // ---- Flows ----

  lemma RunUpTo(w: System, ops: seq<Op>, i: nat)
    requires 0 < i < |ops|
    ensures Run(w, ops[..i]) == Run(Apply(w, ops[0]), ops[1..][..i - 1])
  {
    assert ops[..i][1..] == ops[1..][..i - 1];
  }

  lemma {:induction false} LegalUpTo(w: System, ops: seq<Op>, i: nat)
    requires Right(w) && AllLegal(w, ops) && i < |ops|
    ensures Right(Run(w, ops[..i])) && Legal(Run(w, ops[..i]), ops[i])
    decreases i
  {
    if i == 0 {
      assert ops[..0] == [];
    } else {
      StepKeepsRight(w, ops[0]);
      LegalUpTo(Apply(w, ops[0]), ops[1..], i - 1);
      RunUpTo(w, ops, i);
    }
  }

  lemma {:induction false} OpsOfAt(hs: seq<Happening>, i: nat)
    requires i < |hs|
    ensures |OpsOf(hs)| == |hs| && OpsOf(hs)[i] == hs[i].op
    ensures hs[i].Registering? ==> hs[i].reg in RegsOf(hs)
    decreases |hs|
  {
    if i > 0 {
      OpsOfAt(hs[1..], i - 1);
    } else if |hs| > 1 {
      OpsOfAt(hs[1..], 0);
    }
  }

  /** The system just before the i-th step. */
  function Before(w: System, hs: seq<Happening>, i: nat): System
    requires i < |hs|
  {
    OpsOfAt(hs, i);
    Run(w, OpsOf(hs)[..i])
  }

  lemma BeforeStep(w: System, hs: seq<Happening>, i: nat)
    requires 0 < i < |hs|
    ensures Before(w, hs, i) == Before(Apply(w, hs[0].op), hs[1..], i - 1)
  {
    OpsOfAt(hs, i);
    OpsOfAt(hs[1..], i - 1);
    RunUpTo(w, OpsOf(hs), i);
  }

  lemma BeforeFirst(w: System, hs: seq<Happening>)
    requires hs != []
    ensures Before(w, hs, 0) == w
  {
    OpsOfAt(hs, 0);
    assert OpsOf(hs)[..0] == [];
  }

  predicate Anew(w: System, h: Happening)
  {
    h.Registering? ==> Performs(h.op, h.reg) && h.reg.id !in w.s.vault
  }

  lemma FirstUndisturbed(w: System, w': System, hs: seq<Happening>, outside: set<Id>, known: set<Id>)
    requires hs != [] && Undisturbed(w, hs, outside, known) && w' == Apply(w, hs[0].op)
    ensures Undisturbed(w', hs[1..], outside, NowKnown(hs[0], known)) && Anew(w, hs[0])
  {
  }

  ghost predicate AllAnew(w: System, hs: seq<Happening>)
    decreases |hs|
  {
    hs == [] || (Anew(w, hs[0]) && AllAnew(Apply(w, hs[0].op), hs[1..]))
  }

  lemma {:induction false} RegisteredAnew(w: System, hs: seq<Happening>, outside: set<Id>, known: set<Id>)
    requires Undisturbed(w, hs, outside, known)
    ensures AllAnew(w, hs)
    decreases |hs|
  {
    if hs == [] {
    } else {
      FirstUndisturbed(w, Apply(w, hs[0].op), hs, outside, known);
      RegisteredAnew(Apply(w, hs[0].op), hs[1..], outside, NowKnown(hs[0], known));
    }
  }

  lemma {:induction false} AnewAt(w: System, hs: seq<Happening>, i: nat)
    requires i < |hs| && AllAnew(w, hs)
    ensures Anew(Before(w, hs, i), hs[i])
    decreases i
  {
    if i == 0 {
      BeforeFirst(w, hs);
    } else {
      BeforeStep(w, hs, i);
      AnewAt(Apply(w, hs[0].op), hs[1..], i - 1);
    }
  }

  /** Whatever else happens while a flow is registered and after: the job of a node is out
      of `blocked` only after every parent its caller listed, for a fan-in node every child,
      and for a child of a fan-out node that node, has completed or died. */
  lemma FlowIsHandedOutInOrder(w: System, root: Node, hs: seq<Happening>, outside: set<Id>, i: nat, ops: seq<Op>, p: Id)
    requires Right(w) && Distinct(root) && OwnFine(root, outside) && IdsOf(root) !! outside
    requires NodeTrace(root, [], false, RegsOf(hs)) && Undisturbed(w, hs, outside, {})
    requires i < |hs| && hs[i].Registering? && WaitsFor(root, hs[i].reg.id, p)
    requires AllLegal(Apply(Before(w, hs, i), hs[i].op), ops)
    requires StaysStored(Apply(Before(w, hs, i), hs[i].op), ops, hs[i].reg.id)
    ensures var all := [hs[i].op] + ops;
            hs[i].reg.id in Run(Before(w, hs, i), all).s.blocked || EverDone(Before(w, hs, i), all, p)
  {
    FlowIsOrdered(root, RegsOf(hs), outside);
    assert outside + {} == outside;
    FlowRunIsLegal(w, hs, outside, {}, {});
    OpsOfAt(hs, i);
    LegalUpTo(w, OpsOf(hs), i);
    RegisteredAnew(w, hs, outside, {});
    AnewAt(w, hs, i);
    FlowListsItsParents(root, RegsOf(hs), hs[i].reg, p);
    assert ([hs[i].op] + ops)[1..] == ops;
    HandedOutAfterItsParents(Before(w, hs, i), hs[i].op, ops, p);
  }
}

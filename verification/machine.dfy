/**
 The queue as a state machine: one operation for each step the producers, workers,
 schedulers and maintenance loops can take, in any order.
 */
module Machine {
  import opened Redis
  import opened Model
  import opened Reach

  datatype Op =
    | Add(id: Id, job: Job)
    | AddLater(id: Id, job: Job, at: int)
    | Depend(id: Id, job: Job)
    | AddMany(items: seq<BulkItem>)
    | PushTokens(n: nat)
    | Take(now: int, lock: int, publish: bool)
    | TakeMany(n: nat, lease: int)
    | RenewLease(id: Id, now: int, lease: int)
    | Complete(id: Id, value: string, progress: string, now: int, keep: int, publish: bool, fetch: Option<int>, order: seq<Id>)
    | Fail(id: Id, fatal: bool, reason: string, now: int, at: int, keep: int, publish: bool)
    | PromoteDue(now: int)
    | RecoverExpired(now: int)
    | SweepZombie(id: Id, now: int, timeout: int)
    | RetryDead(id: Id)
    | CheckUnblocked(id: Id)
    | DrainAll
    | Delete(start: Id, ids: seq<Id>)
    | CleanUp(onCompleted: bool, cutoff: int, limit: int)

  function Closing(s: State, op: Op): State
    requires op.Complete?
  {
    Finalize(s, op.id, Outcome(true, op.value, op.progress), op.now, op.keep, op.publish)
  }

  /** finalizeJob, with the next job taken in the same script when `fetch` gives a lease. */
  function Finished(s: State, op: Op): State
    requires op.Complete?
  {
    if op.fetch.Some? then Dequeue(Closing(s, op), op.now, op.fetch.value - op.now, op.publish) else Closing(s, op)
  }

  /** Completing ends with unblock when the job carries a flow flag. */
  function Settle(s: State, op: Op): State
    requires op.Complete?
  {
    if op.id in s.vault && s.vault[op.id].flow then UnblockAll(Finished(s, op), op.id, op.order) else Finished(s, op)
  }

  /** handleFailure postpones while retries are left, and kills otherwise. */
  predicate Postpones(s: State, id: Id, fatal: bool)
  {
    id in s.vault && !fatal && s.vault[id].attempts < s.vault[id].maxretries
  }

  function Revived(s: State, id: Id): Job
    requires id in s.dlq
  {
    s.dlq[id].(status := Waiting, attempts := 0)
  }

  function Effect(s: State, op: Op): State
  {
    match op
    case Add(id, job) => AddJob(s, id, job)
    case AddLater(id, job, at) => AddDelayed(s, id, job, at)
    case Depend(id, job) => AddDependent(s, id, job)
    case AddMany(items) => AddBulk(s, items)
    case PushTokens(n) => s.(tokens := s.tokens + n)
    case Take(now, lock, publish) => Dequeue(s, now, lock, publish)
    case TakeMany(n, lease) => BatchDequeue(s, n, lease).s
    case RenewLease(id, now, lease) => if id in s.vault then Renew(s, id, now, lease) else s
    case Complete(_, _, _, _, _, _, _, _) => Settle(s, op)
    case Fail(id, fatal, reason, now, at, keep, publish) =>
      if id !in s.vault then s
      else if Postpones(s, id, fatal) then Postpone(s, id, s.vault[id], at)
      else Kill(s, id, s.vault[id], reason, now, keep, publish)
    case PromoteDue(now) => Promote(s, now)
    case RecoverExpired(now) => Recover(s, now)
    case SweepZombie(id, now, timeout) => BuryZombie(s, id, now, timeout)
    case RetryDead(id) => if id in s.dlq then RetryJob(s, id, Revived(s, id)) else s
    case CheckUnblocked(id) => PromoteIfUnblocked(s, id, StoredPriority(s, id), StoredTimestamp(s, id))
    case DrainAll => Drain(s)
    case Delete(_, ids) => Deletion(s, ids)
    case CleanUp(onCompleted, cutoff, limit) => CleanState(s, onCompleted, CleanedIds(s, onCompleted, cutoff, limit))
  }

  /** The queue together with two history variables. `awaits` says which of its
      parents a job registered as a dependent is still waiting for: those neither
      completed nor dead when it was registered and not completed since. `rank`
      says when a job was stored. Nothing the queue does depends on either. */
  datatype System = System(s: State, awaits: map<Id, set<Id>>, rank: map<Id, nat>, clock: nat)

  const START := System(EMPTY, map[], map[], 0)

  function Pending(s: State, ps: seq<Id>): set<Id>
  {
    set p | p in ps && !Done(s, p)
  }

  function Awaiting(awaits: map<Id, set<Id>>, j: Id): set<Id>
  {
    if j in awaits then awaits[j] else {}
  }

  function Without(awaits: map<Id, set<Id>>, p: Id): map<Id, set<Id>>
  {
    map j | j in awaits :: awaits[j] - {p}
  }

  function AwaitsAfter(w: System, op: Op): map<Id, set<Id>>
  {
    match op
    case Depend(id, job) => if id in w.s.vault then w.awaits else w.awaits[id := Pending(w.s, job.parents)]
    case Complete(id, _, _, _, _, _, _, _) => Without(w.awaits, id)
    case Delete(_, ids) => w.awaits - Members(ids)
    case _ => w.awaits
  }

  function RankAfter(w: System, t: State): map<Id, nat>
  {
    w.rank + map id | id in t.vault && id !in w.s.vault :: w.clock
  }

  function Apply(w: System, op: Op): System
  {
    var t := Effect(w.s, op);
    System(t, AwaitsAfter(w, op), RankAfter(w, t), w.clock + 1)
  }

  /** What the code relies on but does not check, operation by operation. */
  ghost predicate Legal(w: System, op: Op)
  {
    var s := w.s;
    match op
    case Add(_, job) => Fresh(job)
    case AddLater(_, job, _) => Fresh(job)
    // no pending parent is named twice; a pending parent is stored and will call
    // unblock; a parent that counts as done has settled
    case Depend(id, job) => Fresh(job) && (id in s.vault || GoodParents(s, job.parents))
    case AddMany(items) => forall i :: 0 <= i < |items| ==> Fresh(items[i].job)
    // only the worker that holds the lease renews, completes or fails a job
    case RenewLease(id, _, _) => id in s.active
    case Complete(id, _, _, _, _, _, _, order) => id in s.active && Enumerates(order, Kids(s.childEdges, id))
    case Fail(id, fatal, _, _, _, _, _) =>
      id in s.active && id in s.vault &&
      (!Postpones(s, id, fatal) && s.vault[id].flow ==> MayBury(s, id, s.vault[id].parents))
    // a dead job is retried only while it is dead, and not once a dependent was
    // registered without waiting for it
    case RetryDead(id) =>
      (id in s.vault ==> id in s.failed) &&
      forall c: Id :: (id, c) in s.childEdges ==> id in Awaiting(w.awaits, c)
    // drain takes no job that has children
    case DrainAll => forall p: Id :: p in Drained(s) ==> Kids(s.childEdges, p) == {}
    // a deletion takes all that depends on its start, and no prioritized job
    case Delete(start, ids) => Collects(s, start, ids) && forall id :: id in ids ==> id !in s.prioritized
    // clean takes no job that still has children
    case CleanUp(onCompleted, cutoff, limit) =>
      forall p: Id, c: Id :: (p, c) in s.childEdges ==> p !in CleanedIds(s, onCompleted, cutoff, limit)
    case _ => true
  }

  ghost predicate GoodParents(s: State, ps: seq<Id>)
  {
    PendingOnce(s, ps) && forall p :: p in ps ==> GoodParent(s, p)
  }

  /** No parent that is still pending is listed twice. */
  predicate PendingOnce(s: State, ps: seq<Id>)
  {
    forall i, j :: 0 <= i < j < |ps| && ps[i] == ps[j] ==> Done(s, ps[i])
  }

  predicate GoodParent(s: State, p: Id)
  {
    if Done(s, p) then Settled(s, p) else p in s.vault && s.vault[p].flow
  }

  /** Each listed parent is gone, or dead already, or the dying job itself. */
  ghost predicate MayBury(s: State, id: Id, ps: seq<Id>)
  {
    forall p :: p in ps ==> p !in s.vault || p in s.failed || p == id
  }

  function Run(w: System, ops: seq<Op>): System
    decreases |ops|
  {
    if ops == [] then w else Run(Apply(w, ops[0]), ops[1..])
  }

  ghost predicate AllLegal(w: System, ops: seq<Op>)
    decreases |ops|
  {
    ops == [] || (Legal(w, ops[0]) && AllLegal(Apply(w, ops[0]), ops[1..]))
  }
}

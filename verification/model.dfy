/**
 One queue as Redis holds it, and the effect of each Lua script as a function
 from one state to the next.
 */
module Model {
  import opened Redis

  const PRIORITY_SCALE := 100_000_000_000
  const EPOCH_BASE := 1_700_000_000_000

  datatype Status = Waiting | Active | Retrying | Delayed | Completed | Dead

  /** The fields of a stored job the scripts read or write. `flow` is true when
      the job carries any of the flow flags that make completion call unblock. */
  datatype Job = Job(
    priority: nat,
    timestamp: int,
    status: Status,
    attempts: nat,
    maxretries: nat,
    processedOn: Option<int>,
    parents: seq<Id>,
    flow: bool,
    returnvalue: Option<string>,
    failedReason: Option<string>,
    progress: Option<string>,
    finishedOn: Option<int>)

  /** Two records with the same fields among those the producer fixes. */
  predicate SamePayload(a: Job, b: Job)
  {
    && a.priority == b.priority && a.timestamp == b.timestamp && a.maxretries == b.maxretries
    && a.parents == b.parents && a.flow == b.flow
  }

  datatype EventKind = WaitingEvent | ActiveEvent | DelayedEvent | CompletedEvent | FailedEvent | StalledEvent | RemovedEvent
  datatype Event = Event(kind: EventKind, id: Id)

  /** Everything Redis keeps for one queue. The edge sets of all jobs are kept as
      two relations of (parent, child) pairs: `childEdges` for the children sets,
      `parentEdges` for the parent sets. Tokens all read alike, so the signal
      lists are lengths. */
  datatype State = State(
    vault: map<Id, Job>,
    waiting: seq<Id>,
    prioritized: ZSet,
    active: ZSet,
    delayed: ZSet,
    completed: ZSet,
    failed: ZSet,
    blocked: set<Id>,
    dlq: map<Id, Job>,
    tokens: nat,
    delayedTokens: nat,
    childEdges: set<(Id, Id)>,
    parentEdges: set<(Id, Id)>,
    count: map<Id, int>,
    named: set<Id>,
    events: seq<Event>)

  const EMPTY := State(map[], [], map[], map[], map[], map[], map[], {}, map[], 0, 0, {}, {}, map[], {}, [])

  function Score(priority: int, timestamp: int): int
  {
    priority * PRIORITY_SCALE + (timestamp - EPOCH_BASE)
  }

  /** A job handed to add: never picked up yet. */
  predicate Fresh(job: Job)
  {
    job.attempts == 0 && job.processedOn == None && job.status == Waiting
  }

  function Kids(edges: set<(Id, Id)>, p: Id): set<Id>
  {
    set e | e in edges && e.0 == p :: e.1
  }

  function ParentsOf(edges: set<(Id, Id)>, c: Id): set<Id>
  {
    set e | e in edges && e.1 == c :: e.0
  }

  /** The jobs a worker can still take, in the order it takes them. */
  function Queued(s: State): seq<Id>
  {
    ByScore(s.prioritized) + s.waiting
  }

  // ---- Steps shared by several scripts ----

  function Enqueue(s: State, id: Id, priority: nat, timestamp: int): State
  {
    s.(prioritized := if priority > 0 then s.prioritized[id := Score(priority, timestamp)] else s.prioritized,
       waiting := if priority > 0 then s.waiting else s.waiting + [id])
  }

  function StoredPriority(s: State, id: Id): nat
  {
    if id in s.vault then s.vault[id].priority else 0
  }

  function StoredTimestamp(s: State, id: Id): int
  {
    if id in s.vault then s.vault[id].timestamp else 0
  }

  /** Enqueue with the priority read back from the vault, plus the token. */
  function Release(s: State, id: Id): State
  {
    Enqueue(s, id, StoredPriority(s, id), StoredTimestamp(s, id)).(tokens := s.tokens + 1)
  }

  function Published(s: State, publish: bool, kind: EventKind, id: Id): seq<Event>
  {
    if publish then s.events + [Event(kind, id)] else s.events
  }

  // ---- addJob, addDelayed, signal ----

  function StoreRunnable(s: State, id: Id, job: Job): State
  {
    Enqueue(s, id, job.priority, job.timestamp).(vault := s.vault[id := job], tokens := s.tokens + 1)
  }

  /** The scripts that add return 0 for a known id and leave everything alone. */
  function AddJob(s: State, id: Id, job: Job): State
  {
    if id in s.vault then s else StoreRunnable(s, id, job)
  }

  predicate Done(s: State, p: Id)
  {
    p in s.completed || p in s.dlq
  }

  predicate Settled(s: State, p: Id)
  {
    p in s.completed || p in s.failed
  }

  function EdgesTo(id: Id, ps: seq<Id>): set<(Id, Id)>
  {
    set p | p in ps :: (p, id)
  }

  function Link(s: State, id: Id, ps: seq<Id>): State
  {
    s.(childEdges := s.childEdges + EdgesTo(id, ps), parentEdges := s.parentEdges + EdgesTo(id, ps))
  }

  function CountPending(s: State, ps: seq<Id>): nat
  {
    if ps == [] then 0
    else (if Done(s, ps[0]) then 0 else 1) + CountPending(s, ps[1..])
  }

  function Park(s: State, id: Id, job: Job, pending: nat): State
  {
    s.(vault := s.vault[id := job], blocked := s.blocked + {id}, count := s.count[id := pending],
       named := s.named + {id})
  }

  function AddDependent(s: State, id: Id, job: Job): State
  {
    if id in s.vault then s
    else if CountPending(s, job.parents) == 0 then Link(StoreRunnable(s, id, job), id, job.parents)
    else Link(Park(s, id, job, CountPending(s, job.parents)), id, job.parents)
  }

  function AddDelayed(s: State, id: Id, job: Job, at: int): State
  {
    if id in s.vault then s
    else s.(vault := s.vault[id := job], delayed := s.delayed[id := at], delayedTokens := s.delayedTokens + 1,
            events := Published(s, true, DelayedEvent, id))
  }

  function Signal(s: State, id: Id, at: int): State
  {
    s.(delayed := s.delayed[id := at], delayedTokens := s.delayedTokens + 1)
  }

  // ---- addBulk ----

  /** One item of a batch; a delayed item carries its time in the job's timestamp. */
  datatype BulkItem = BulkItem(id: Id, job: Job, later: bool)

  function AddBulkOne(s: State, item: BulkItem): State
  {
    if item.id in s.vault then s
    else if item.later then
      s.(vault := s.vault[item.id := item.job], delayed := s.delayed[item.id := item.job.timestamp])
    else
      Enqueue(s, item.id, item.job.priority, item.job.timestamp).(vault := s.vault[item.id := item.job])
  }

  /** The script pushes no token: its caller does, once it knows what was created. */
  function AddBulk(s: State, items: seq<BulkItem>): State
    decreases |items|
  {
    if items == [] then s else AddBulk(AddBulkOne(s, items[0]), items[1..])
  }

  /** The flags the script returns: whether each item was created. */
  function BulkCreated(s: State, items: seq<BulkItem>): (r: seq<bool>)
    ensures |r| == |items|
    decreases |items|
  {
    if items == [] then []
    else [items[0].id !in s.vault] + BulkCreated(AddBulkOne(s, items[0]), items[1..])
  }

  // ---- dequeue, batchdequeue ----

  function Popped(s: State): Option<Id>
  {
    if s.prioritized != map[] then Some(Least(s.prioritized))
    else if s.waiting != [] then Some(s.waiting[0])
    else None
  }

  function Pop(s: State): State
  {
    s.(prioritized := if s.prioritized != map[] then s.prioritized - {Least(s.prioritized)} else s.prioritized,
       waiting := if s.prioritized == map[] && s.waiting != [] then s.waiting[1..] else s.waiting)
  }

  /** The stored job once picked up: an attempt is counted only the first time. */
  function PickedUp(job: Job, stamp: int): Job
  {
    job.(attempts := if job.processedOn == None then job.attempts + 1 else job.attempts,
         status := Active, processedOn := Some(stamp))
  }

  function Pick(s: State, id: Id, stamp: int, lease: int): State
    requires id in s.vault
  {
    s.(vault := s.vault[id := PickedUp(s.vault[id], stamp)], active := s.active[id := lease])
  }

  /** What dequeue hands out: nothing when the popped id has no stored job. */
  function Next(s: State): Option<Id>
  {
    if Popped(s).Some? && Popped(s).value in s.vault then Popped(s) else None
  }

  function Dequeue(s: State, now: int, lock: int, publish: bool): State
  {
    match Next(s)
    case None => Pop(s)
    case Some(id) =>
      Pick(Pop(s), id, now, now + lock).(events := Published(s, publish, ActiveEvent, id))
  }

  function DropMin(s: State): State
    requires s.prioritized != map[]
  {
    s.(prioritized := s.prioritized - {Least(s.prioritized)})
  }

  function PickMin(s: State, lease: int): State
    requires s.prioritized != map[] && Least(s.prioritized) in s.vault
  {
    Pick(DropMin(s), Least(s.prioritized), lease, lease)
  }

  /** A batch under way: the state so far, and the ids handed out. */
  datatype Batch = Batch(s: State, taken: seq<Id>)

  function PopMin(b: Batch, lease: int): Batch
    requires b.s.prioritized != map[]
  {
    if Least(b.s.prioritized) in b.s.vault
    then Batch(PickMin(b.s, lease), b.taken + [Least(b.s.prioritized)])
    else Batch(DropMin(b.s), b.taken)
  }

  /** First phase of batchdequeue: pop prioritized ids until n jobs are found. */
  function BatchPrioritized(b: Batch, n: nat, lease: int): Batch
    decreases |b.s.prioritized|
  {
    if |b.taken| >= n || b.s.prioritized == map[] then b
    else
      LessOne(b.s.prioritized, Least(b.s.prioritized));
      BatchPrioritized(PopMin(b, lease), n, lease)
  }

  function PickWaiting(s: State, id: Id, lease: int): State
    requires id in s.vault
  {
    Pick(s, id, lease, lease).(waiting := DropFirst(s.waiting, id))
  }

  function TakeWaiting(b: Batch, id: Id, lease: int): Batch
  {
    if id in b.s.vault then Batch(PickWaiting(b.s, id, lease), b.taken + [id]) else b
  }

  /** Second phase, over the ids LRANGE returned: an id without a stored job stays in the list. */
  function BatchWaiting(b: Batch, ids: seq<Id>, lease: int): Batch
    decreases |ids|
  {
    if ids == [] then b else BatchWaiting(TakeWaiting(b, ids[0], lease), ids[1..], lease)
  }

  function Head(w: seq<Id>, n: nat): seq<Id>
  {
    if n <= |w| then w[..n] else w
  }

  /** What LRANGE is asked for once the prioritized ids are used up. */
  function StillWanted(b: Batch, n: nat): seq<Id>
  {
    if |b.taken| < n then Head(b.s.waiting, n - |b.taken|) else []
  }

  function BatchDequeue(s: State, n: nat, lease: int): Batch
  {
    var b := BatchPrioritized(Batch(s, []), n, lease);
    BatchWaiting(b, StillWanted(b, n), lease)
  }

  // ---- finalizeJob ----

  datatype Outcome = Outcome(completed: bool, value: string, progress: string)

  function Closed(job: Job, o: Outcome, now: int): Job
  {
    var j := job.(status := if o.completed then Completed else Dead, finishedOn := Some(now));
    var j1 := if o.completed then j.(returnvalue := if o.value != "" then Some(o.value) else None)
              else j.(failedReason := Some(o.value));
    if o.progress != "" then j1.(progress := Some(o.progress)) else j1
  }

  /** Still part of a flow: has a counter key or a children set. */
  predicate Pinned(s: State, id: Id)
  {
    id in s.count || Kids(s.childEdges, id) != {}
  }

  /** The members ranked below the `keep` newest; a keep of 0 keeps all. */
  function Beyond(z: ZSet, keep: int): seq<Id>
  {
    if keep > 0 && |z| > keep then ByScore(z)[..|z| - keep] else []
  }

  function Unpinned(s: State, ids: seq<Id>): set<Id>
  {
    set id | id in ids && !Pinned(s, id)
  }

  function Evicted(s: State, z: ZSet, keep: int): set<Id>
  {
    Unpinned(s, Beyond(z, keep))
  }

  function Close(s: State, id: Id, o: Outcome, now: int): State
  {
    s.(vault := if id in s.vault then s.vault[id := Closed(s.vault[id], o, now)] else s.vault,
       active := s.active - {id},
       completed := if o.completed then s.completed[id := now] else s.completed,
       failed := if o.completed then s.failed else s.failed[id := now])
  }

  function Erase(s: State, onCompleted: bool, gone: set<Id>): State
  {
    s.(vault := s.vault - gone,
       completed := if onCompleted then s.completed - gone else s.completed,
       failed := if onCompleted then s.failed else s.failed - gone,
       dlq := if onCompleted then s.dlq else s.dlq - gone)
  }

  function Trim(s: State, onCompleted: bool, keep: int): State
  {
    Erase(s, onCompleted, Evicted(s, if onCompleted then s.completed else s.failed, keep))
  }

  /** `keep` is removeOnComplete or removeOnFail, whichever the outcome selects. */
  function Finalize(s: State, id: Id, o: Outcome, now: int, keep: int, publish: bool): State
  {
    Trim(Close(s, id, o, now), o.completed, keep)
      .(events := Published(s, publish, if o.completed then CompletedEvent else FailedEvent, id))
  }

  // ---- unblock, promoteIfUnblocked ----

  function CountOf(s: State, c: Id): int
  {
    if c in s.count then s.count[c] else 0
  }

  predicate Spent(s: State, c: Id)
  {
    CountOf(s, c) <= 1 && c in s.named
  }

  /** Cut the edge and decrement the counter; a spent counter is deleted. */
  function Uncount(s: State, p: Id, c: Id): State
  {
    s.(childEdges := s.childEdges - {(p, c)}, parentEdges := s.parentEdges - {(p, c)},
       count := if Spent(s, c) then s.count - {c} else s.count[c := CountOf(s, c) - 1],
       named := if Spent(s, c) then s.named - {c} else s.named)
  }

  function Unpark(s: State, c: Id): State
  {
    Release(s, c).(blocked := s.blocked - {c}, events := Published(s, true, WaitingEvent, c))
  }

  /** The body of the loop in unblock for one member of the children set. */
  function UnblockOne(s: State, p: Id, c: Id): State
  {
    if Spent(s, c) && c in s.blocked then Unpark(Uncount(s, p, c), c) else Uncount(s, p, c)
  }

  function UnblockAll(s: State, p: Id, order: seq<Id>): State
    decreases |order|
  {
    if order == [] then s else UnblockAll(UnblockOne(s, p, order[0]), p, order[1..])
  }

  /** SMEMBERS returns the children in some order. */
  ghost predicate Enumerates(order: seq<Id>, kids: set<Id>)
  {
    NoDup(order) && forall c :: c in order <==> c in kids
  }

  predicate CountSpent(s: State, id: Id)
  {
    id in s.count && s.count[id] <= 0
  }

  function PromoteIfUnblocked(s: State, id: Id, priority: nat, timestamp: int): State
  {
    if CountSpent(s, id) then
      Enqueue(s, id, priority, timestamp)
        .(count := s.count - {id}, named := s.named - {id}, blocked := s.blocked - {id}, tokens := s.tokens + 1,
          events := Published(s, true, WaitingEvent, id))
    else s
  }

  // ---- promote, recoverStalled, retry, drain ----

  function PromoteOne(s: State, id: Id): State
  {
    Release(s, id).(delayed := s.delayed - {id}, events := Published(s, true, WaitingEvent, id))
  }

  function PromoteAll(s: State, ids: seq<Id>): State
    decreases |ids|
  {
    if ids == [] then s else PromoteAll(PromoteOne(s, ids[0]), ids[1..])
  }

  function Promote(s: State, now: int): State
  {
    PromoteAll(s, ByScore(Between(s.delayed, 0, now)))
  }

  function Stalled(job: Job): Job
  {
    job.(status := Dead, failedReason := Some("job stalled"))
  }

  function DeadLetter(s: State, id: Id, now: int): State
    requires id in s.vault
  {
    var job := Stalled(s.vault[id]);
    s.(vault := s.vault[id := job], dlq := s.dlq[id := job], failed := s.failed[id := now],
       active := s.active - {id}, events := Published(s, true, FailedEvent, id))
  }

  function Requeue(s: State, id: Id): State
    requires id in s.vault
  {
    Release(s, id).(vault := s.vault[id := s.vault[id].(status := Waiting)],
                    active := s.active - {id}, events := Published(s, true, StalledEvent, id))
  }

  function RecoverOne(s: State, id: Id, now: int): State
  {
    if id !in s.vault then s.(active := s.active - {id})
    else if s.vault[id].attempts >= s.vault[id].maxretries then DeadLetter(s, id, now)
    else Requeue(s, id)
  }

  function RecoverAll(s: State, ids: seq<Id>, now: int): State
    decreases |ids|
  {
    if ids == [] then s else RecoverAll(RecoverOne(s, ids[0], now), ids[1..], now)
  }

  function Heal(s: State): State
  {
    var total := |s.waiting| + |s.prioritized|;
    s.(tokens := if s.tokens < total then total else s.tokens)
  }

  function Recover(s: State, now: int): State
  {
    Heal(RecoverAll(s, ByScore(Between(s.active, 0, now)), now))
  }

  function RetryJob(s: State, id: Id, job: Job): State
  {
    StoreRunnable(s.(dlq := s.dlq - {id}, failed := s.failed - {id},
                     waiting := if job.priority == 0 then Purge(s.waiting, id) else s.waiting),
                  id, job)
  }

  function Drained(s: State): set<Id>
  {
    (set id | id in s.waiting) + s.prioritized.Keys + s.delayed.Keys
  }

  function Drain(s: State): State
  {
    s.(vault := s.vault - Drained(s), waiting := [], prioritized := map[], delayed := map[],
       tokens := 0, delayedTokens := 0)
  }

  // ---- The worker's own writes (worker.js) ----

  /** The dead branch of _postFinalize for one entry of the dead job's parent list. */
  function BuryParent(s: State, p: Id, now: int): State
  {
    if p !in s.vault then s
    else
      var job := s.vault[p].(status := Dead, failedReason := Some("child failed"));
      s.(vault := s.vault[p := job], dlq := s.dlq[p := job], failed := s.failed[p := now],
         blocked := s.blocked - {p}, count := s.count - {p}, named := s.named - {p})
  }

  function BuryParents(s: State, ps: seq<Id>, now: int): State
    decreases |ps|
  {
    if ps == [] then s else BuryParents(BuryParent(s, ps[0], now), ps[1..], now)
  }

  /** finalizejob for a job that failed for good; `job` is the worker's copy. */
  function Kill(s: State, id: Id, job: Job, reason: string, now: int, keep: int, publish: bool): State
  {
    var s1 := Finalize(s, id, Outcome(false, reason, ""), now, keep, publish);
    var s2 := s1.(dlq := s1.dlq[id := job.(status := Dead, failedReason := Some(reason))]);
    if job.flow then BuryParents(s2, job.parents, now) else s2
  }

  /** The retry branch of handleFailure: back to delayed. */
  function Postpone(s: State, id: Id, job: Job, at: int): State
  {
    s.(vault := s.vault[id := job.(status := Retrying)], active := s.active - {id},
       delayed := s.delayed[id := at], delayedTokens := s.delayedTokens + 1)
  }

  /** Lease renewal. */
  function Renew(s: State, id: Id, now: int, lease: int): State
    requires id in s.vault
  {
    s.(vault := s.vault[id := s.vault[id].(processedOn := Some(now))], active := s.active[id := lease])
  }

  /** Renewal by a worker whose copy of the job may have gone stale. */
  function RenewCopy(s: State, id: Id, job: Job, now: int, lease: int): State
  {
    s.(vault := s.vault[id := job.(processedOn := Some(now))], active := s.active[id := lease])
  }

  function BuryActive(s: State, id: Id, now: int): State
    requires id in s.vault
  {
    var job := s.vault[id].(status := Dead, failedReason := Some("zombie timeout"));
    s.(vault := s.vault[id := job], dlq := s.dlq[id := job], active := s.active - {id}, failed := s.failed[id := now])
  }

  /** The zombie sweep of maintenance.js for one id of the active ZSET. */
  function BuryZombie(s: State, id: Id, now: int, timeout: int): State
  {
    if id !in s.active || s.active[id] > now then s
    else if id !in s.vault then s.(active := s.active - {id})
    else if now - ActiveSince(s.vault[id]) > timeout then BuryActive(s, id, now)
    else s
  }

  /** The whole sweep: the ids of the active ZSET one after the other. */
  function BuryZombies(s: State, ids: seq<Id>, now: int, timeout: int): State
    decreases |ids|
  {
    if ids == [] then s else BuryZombies(BuryZombie(s, ids[0], now, timeout), ids[1..], now, timeout)
  }

  function ActiveSince(job: Job): int
  {
    if job.processedOn.Some? && job.processedOn.value != 0 then job.processedOn.value else job.timestamp
  }

  // ---- Cascade deletion (maintenance.js), clean (queue.js) ----

  /** The walk takes every id it visits out of the children sets of its parents. */
  function Cut(s: State, ids: set<Id>): State
  {
    s.(childEdges := s.childEdges - (set e | e in s.parentEdges && e.1 in ids))
  }

  function NotFrom(edges: set<(Id, Id)>, id: Id): set<(Id, Id)>
  {
    set e | e in edges && e.0 != id
  }

  function NotTo(edges: set<(Id, Id)>, id: Id): set<(Id, Id)>
  {
    set e | e in edges && e.1 != id
  }

  function Forget(s: State, id: Id): State
  {
    s.(childEdges := NotFrom(s.childEdges, id), parentEdges := NotTo(s.parentEdges, id),
       count := s.count - {id}, named := s.named - {id}, blocked := s.blocked - {id})
  }

  function Leave(s: State, id: Id): State
  {
    s.(waiting := Purge(s.waiting, id), delayed := s.delayed - {id}, active := s.active - {id},
       completed := s.completed - {id}, failed := s.failed - {id})
  }

  /** What the pipeline deletes of one id. The prioritized set is not touched. */
  function DeleteOne(s: State, id: Id): State
  {
    var t := Leave(Forget(s, id), id);
    t.(dlq := t.dlq - {id}, vault := t.vault - {id}, events := t.events + [Event(RemovedEvent, id)])
  }

  function DeleteAll(s: State, ids: seq<Id>): State
    decreases |ids|
  {
    if ids == [] then s else DeleteAll(DeleteOne(s, ids[0]), ids[1..])
  }

  function Deletion(s: State, ids: seq<Id>): State
  {
    DeleteAll(Cut(s, Members(ids)), ids)
  }

  /** ZRANGEBYSCORE 0 cutoff: the ids old enough, oldest first. */
  function Old(z: ZSet, cutoff: int): seq<Id>
  {
    ByScore(Between(z, 0, cutoff))
  }

  /** The oldest `limit` of them. */
  function Cleaned(z: ZSet, cutoff: int, limit: int): seq<Id>
  {
    Head(Old(z, cutoff), if limit < 0 then 0 else limit)
  }

  function CleanedIds(s: State, onCompleted: bool, cutoff: int, limit: int): set<Id>
  {
    Members(Cleaned(if onCompleted then s.completed else s.failed, cutoff, limit))
  }

  /** The ZSET cleaned is completed or failed. */
  function CleanState(s: State, onCompleted: bool, gone: set<Id>): State
  {
    s.(vault := s.vault - gone,
       completed := if onCompleted then s.completed - gone else s.completed,
       failed := if onCompleted then s.failed else s.failed - gone)
  }
}

/**
 The order in which jobs are handed out, one by one and in batches.
 */
module Dispatch {
  import opened Redis
  import opened Model
  import opened Placement

  /** Every queued id has a stored job. */
  ghost predicate AllStored(s: State)
  {
    (forall x :: x in s.prioritized ==> x in s.vault) && (forall x :: x in s.waiting ==> x in s.vault)
  }

  /** With every job in one place, whatever is queued is stored. */
  lemma PlacedAreStored(s: State)
    requires OnePlace(s)
    ensures AllStored(s)
  {
    forall x | x in s.prioritized
      ensures x in s.vault
    {
      PlaceAtMostOnce(s, x);
    }
    forall x | x in s.waiting
      ensures x in s.vault
    {
      WaitingIsStored(s, x);
    }
  }

  lemma ByScoreCons(z: ZSet)
    requires z != map[]
    ensures ByScore(z) == [Least(z)] + ByScore(z - {Least(z)})
  {
  }

  lemma PopsLeast(s: State)
    requires s.prioritized != map[]
    ensures Queued(s) == [Least(s.prioritized)] + Queued(Pop(s))
  {
    ByScoreCons(s.prioritized);
    Regroup([Least(s.prioritized)], ByScore(s.prioritized - {Least(s.prioritized)}), s.waiting);
  }

  lemma Regroup(a: seq<Id>, b: seq<Id>, c: seq<Id>)
    ensures a + b + c == a + (b + c)
  {
  }

  lemma PopsHead(s: State)
    requires s.prioritized == map[]
    ensures Queued(s) == s.waiting
    ensures Queued(Pop(s)) == if s.waiting == [] then [] else s.waiting[1..]
  {
  }

  function Tail(q: seq<Id>): seq<Id>
  {
    if q == [] then [] else q[1..]
  }

  lemma PoppedIsFirst(s: State)
    ensures Popped(s) == (if Queued(s) == [] then None else Some(Queued(s)[0]))
    ensures Queued(Pop(s)) == Tail(Queued(s))
  {
    if s.prioritized != map[] {
      PopsLeast(s);
      assert Queued(s)[1..] == Queued(Pop(s));
    } else {
      PopsHead(s);
    }
  }

  // ---- Repeated dequeue ----

  datatype Clock = Clock(now: int, lock: int)

  function Handed(s: State): seq<Id>
  {
    match Next(s)
    case None => []
    case Some(id) => [id]
  }

  /** One dequeue after another, each with its own reading of the clock. */
  function TakeEach(b: Batch, clocks: seq<Clock>): Batch
    decreases |clocks|
  {
    if clocks == [] then b
    else
      TakeEach(Batch(Dequeue(b.s, clocks[0].now, clocks[0].lock, false), b.taken + Handed(b.s)), clocks[1..])
  }

  lemma PopKeepsStored(s: State)
    requires AllStored(s)
    ensures AllStored(Pop(s))
    ensures forall x :: x in Queued(s) ==> x in s.vault
  {
  }

  lemma DequeueTakesFirst(s: State, now: int, lock: int)
    requires AllStored(s)
    ensures AllStored(Dequeue(s, now, lock, false))
    ensures Handed(s) == Head(Queued(s), 1)
    ensures Queued(Dequeue(s, now, lock, false)) == Tail(Queued(s))
  {
    PoppedIsFirst(s);
    PopKeepsStored(s);
    if Queued(s) != [] {
      var id := Queued(s)[0];
      assert id in s.vault && Next(s) == Some(id);
      PickQueued(Pop(s), id, now, now + lock);
    }
  }

  lemma PickQueued(s: State, id: Id, stamp: int, lease: int)
    requires id in s.vault
    ensures Queued(Pick(s, id, stamp, lease)) == Queued(s)
    ensures AllStored(s) ==> AllStored(Pick(s, id, stamp, lease))
  {
  }

  /** What is left of a queue once its first n are taken. */
  function Rest(q: seq<Id>, n: nat): seq<Id>
  {
    if n <= |q| then q[n..] else []
  }

  lemma RestOfTail(q: seq<Id>, n: nat)
    requires n > 0
    ensures Rest(Tail(q), n - 1) == Rest(q, n)
  {
  }

  lemma HeadChain(taken: seq<Id>, q: seq<Id>, n: nat)
    requires n > 0
    ensures taken + Head(q, 1) + Head(Tail(q), n - 1) == taken + Head(q, n)
  {
  }

  /** n dequeues hand out the first n queued jobs, in order: the prioritized ones
      by score, then the waiting list from the front. The others stay queued. */
  lemma {:induction false} TakeEachIsHead(s: State, taken: seq<Id>, clocks: seq<Clock>)
    requires AllStored(s)
    ensures TakeEach(Batch(s, taken), clocks).taken == taken + Head(Queued(s), |clocks|)
    ensures Queued(TakeEach(Batch(s, taken), clocks).s) == Rest(Queued(s), |clocks|)
    decreases |clocks|
  {
    if clocks == [] {
    } else {
      DequeueTakesFirst(s, clocks[0].now, clocks[0].lock);
      TakeEachIsHead(Dequeue(s, clocks[0].now, clocks[0].lock, false), taken + Handed(s), clocks[1..]);
      HeadChain(taken, Queued(s), |clocks|);
      RestOfTail(Queued(s), |clocks|);
    }
  }

  // ---- Priority order ----

  /** Timestamps less than 1e11 ms apart: the score orders by priority first, then by time. */
  lemma ScoreOrder(p1: nat, t1: int, p2: nat, t2: int)
    requires -PRIORITY_SCALE < t1 - t2 < PRIORITY_SCALE
    ensures Score(p1, t1) < Score(p2, t2) <==> p1 < p2 || (p1 == p2 && t1 < t2)
    ensures Score(p1, t1) == Score(p2, t2) <==> p1 == p2 && t1 == t2
  {
  }

  /** For priorities up to 90000 and times within 150 years of November 2023 the score is an
      integer that a double holds exactly. */
  lemma ScoreIsExact(priority: nat, timestamp: int)
    requires priority <= 90_000 && -5_000_000_000_000 <= timestamp - 1_700_000_000_000 <= 5_000_000_000_000
    ensures -0x20_0000_0000_0000 <= Score(priority, timestamp) <= 0x20_0000_0000_0000
  {
  }

  /** The prioritized scores are those of the stored jobs. */
  ghost predicate ScoresRight(s: State)
  {
    forall x :: x in s.prioritized ==> ScoreOf(s, x)
  }

  ghost predicate ScoreOf(s: State, x: Id)
    requires x in s.prioritized
  {
    x in s.vault && s.vault[x].priority > 0 && s.prioritized[x] == Score(s.vault[x].priority, s.vault[x].timestamp)
  }

  /** The prioritized jobs have timestamps less than the scale apart. */
  ghost predicate CloseTogether(s: State)
  {
    forall x, y :: x in s.prioritized && y in s.prioritized && x in s.vault && y in s.vault ==>
      -PRIORITY_SCALE < s.vault[x].timestamp - s.vault[y].timestamp < PRIORITY_SCALE
  }

  /** a is served no later than b: smaller priority number, then older, then smaller id. */
  predicate ServedBefore(s: State, a: Id, b: Id)
    requires a in s.vault && b in s.vault
  {
    var (ja, jb) := (s.vault[a], s.vault[b]);
    ja.priority < jb.priority
    || (ja.priority == jb.priority && (ja.timestamp < jb.timestamp || (ja.timestamp == jb.timestamp && a < b)))
  }

  lemma ListedInOrder(s: State, i: nat, j: nat)
    requires ScoresRight(s) && CloseTogether(s) && i < j < |s.prioritized|
    ensures var p := ByScore(s.prioritized);
            p[i] in s.vault && p[j] in s.vault && ServedBefore(s, p[i], p[j])
  {
    var p := ByScore(s.prioritized);
    ByScoreSorted(s.prioritized);
    assert Before(s.prioritized, p[i], p[j]);
    assert ScoreOf(s, p[i]) && ScoreOf(s, p[j]);
    var (ja, jb) := (s.vault[p[i]], s.vault[p[j]]);
    ScoreOrder(ja.priority, ja.timestamp, jb.priority, jb.timestamp);
  }

  lemma ServedAt(s: State, served: seq<Id>, n: nat, i: nat)
    requires served == Head(Queued(s), n) && i < |served|
    ensures if i < |s.prioritized| then served[i] == ByScore(s.prioritized)[i]
            else i - |s.prioritized| < |s.waiting| && served[i] == s.waiting[i - |s.prioritized|]
  {
    assert served[i] == Queued(s)[i];
  }

  /** Both prioritized, and the better one first; or the later one from the list, at
      its place behind all that are prioritized. */
  predicate InServiceOrder(s: State, served: seq<Id>, i: nat, j: nat)
    requires i < j < |served|
  {
    if j < |s.prioritized|
    then served[i] in s.vault && served[j] in s.vault && ServedBefore(s, served[i], served[j])
    else j - |s.prioritized| < |s.waiting| && served[j] == s.waiting[j - |s.prioritized|]
  }

  /** Draining the queue by repeated dequeue serves the prioritized jobs in
      lexicographic order of priority and timestamp, and all of them before the
      first job of the waiting list. */
  lemma ServedInPriorityOrder(s: State, clocks: seq<Clock>, i: nat, j: nat)
    requires AllStored(s) && ScoresRight(s) && CloseTogether(s)
    requires i < j < |TakeEach(Batch(s, []), clocks).taken|
    ensures InServiceOrder(s, TakeEach(Batch(s, []), clocks).taken, i, j)
  {
    var served := TakeEach(Batch(s, []), clocks).taken;
    assert served == Head(Queued(s), |clocks|) by {
      TakeEachIsHead(s, [], clocks);
    }
    ServedAt(s, served, |clocks|, i);
    ServedAt(s, served, |clocks|, j);
    if j < |s.prioritized| {
      ListedInOrder(s, i, j);
    }
  }

  // ---- Batches ----

  /** Two jobs that differ at most in the processedOn stamp. */
  predicate AlikeJobs(a: Job, b: Job)
  {
    (a.processedOn.Some? <==> b.processedOn.Some?) && a.(processedOn := None) == b.(processedOn := None)
  }

  /** Two states that differ at most in stamps, leases and published events. */
  ghost predicate Alike(s: State, t: State)
  {
    && s.vault.Keys == t.vault.Keys && (forall x :: x in s.vault ==> AlikeJobs(s.vault[x], t.vault[x]))
    && s.active.Keys == t.active.Keys
    && s.waiting == t.waiting && s.prioritized == t.prioritized
    && s.(vault := map[], active := map[], events := []) == t.(vault := map[], active := map[], events := [])
  }

  lemma AlikePick(s: State, t: State, id: Id, stamp1: int, lease1: int, stamp2: int, lease2: int)
    requires Alike(s, t) && id in s.vault
    ensures id in t.vault && Alike(Pick(s, id, stamp1, lease1), Pick(t, id, stamp2, lease2))
  {
    assert id in t.vault.Keys;
    assert AlikeJobs(s.vault[id], t.vault[id]);
    assert AlikeJobs(PickedUp(s.vault[id], stamp1), PickedUp(t.vault[id], stamp2));
  }

  lemma AlikeQueues(s: State, t: State)
    requires Alike(s, t)
    ensures Queued(s) == Queued(t) && Popped(s) == Popped(t) && Next(s) == Next(t)
    ensures AllStored(s) <==> AllStored(t)
  {
    assert forall x :: x in s.vault.Keys <==> x in t.vault.Keys;
  }

  lemma AlikePop(s: State, t: State)
    requires Alike(s, t)
    ensures Alike(Pop(s), Pop(t))
  {
  }

  lemma AlikeEvents(s: State, t: State, events: seq<Event>)
    requires Alike(s, t)
    ensures Alike(s, t.(events := events))
  {
  }

  /** What is left of a batch that has b.taken so far, to make n in all. */
  function BatchFrom(b: Batch, n: nat, lease: int): Batch
  {
    var b1 := BatchPrioritized(b, n, lease);
    BatchWaiting(b1, StillWanted(b1, n), lease)
  }

  /** One step of a batch takes the first queued job, whichever phase it is in. */
  function BatchStep(s: State, lease: int): State
  {
    match Next(s)
    case None => Pop(s)
    case Some(id) => Pick(Pop(s), id, lease, lease)
  }

  lemma FirstPhaseStep(b: Batch, n: nat, lease: int)
    requires AllStored(b.s) && |b.taken| < n && b.s.prioritized != map[]
    ensures BatchFrom(b, n, lease) == BatchFrom(Batch(BatchStep(b.s, lease), b.taken + Handed(b.s)), n, lease)
  {
    assert PopMin(b, lease) == Batch(BatchStep(b.s, lease), b.taken + Handed(b.s)) by {
      assert DropMin(b.s) == Pop(b.s);
    }
  }

  lemma SecondPhaseStep(b: Batch, n: nat, lease: int)
    requires AllStored(b.s) && |b.taken| < n && b.s.prioritized == map[] && b.s.waiting != []
    ensures BatchFrom(b, n, lease) == BatchFrom(Batch(BatchStep(b.s, lease), b.taken + Handed(b.s)), n, lease)
  {
    var id := b.s.waiting[0];
    var m := n - |b.taken|;
    var c := Batch(BatchStep(b.s, lease), b.taken + Handed(b.s));
    assert TakeWaiting(b, id, lease) == c by {
      assert PickWaiting(b.s, id, lease) == Pick(Pop(b.s), id, lease, lease);
    }
    assert Head(b.s.waiting, m)[0] == id;
    assert Head(b.s.waiting, m)[1..] == Head(c.s.waiting, m - 1);
  }

  lemma AlikePicked(s: State, t: State, id: Id, stamp1: int, lease1: int, stamp2: int, lease2: int, events: seq<Event>)
    requires Alike(s, t) && id in s.vault && id in t.vault
    ensures Alike(Pick(s, id, stamp1, lease1), Pick(t, id, stamp2, lease2).(events := events))
  {
    AlikePick(s, t, id, stamp1, lease1, stamp2, lease2);
    AlikeEvents(Pick(s, id, stamp1, lease1), Pick(t, id, stamp2, lease2), events);
  }

  lemma AlikeStep(s: State, t: State, lease: int, clock: Clock)
    requires Alike(s, t)
    ensures Alike(BatchStep(s, lease), Dequeue(t, clock.now, clock.lock, false))
    ensures Handed(s) == Handed(t)
  {
    AlikeQueues(s, t);
    AlikePop(s, t);
    if Next(s).Some? {
      AlikePicked(Pop(s), Pop(t), Next(s).value, lease, lease, clock.now, clock.now + clock.lock, t.events);
    }
  }

  lemma StepKeepsStored(s: State, lease: int)
    requires AllStored(s)
    ensures AllStored(BatchStep(s, lease))
  {
    PopKeepsStored(s);
    if Next(s).Some? {
      PickQueued(Pop(s), Next(s).value, lease, lease);
    }
  }

  lemma HandsOne(s: State)
    requires AllStored(s) && Queued(s) != []
    ensures |Handed(s)| == 1
  {
    DequeueTakesFirst(s, 0, 0);
  }

  lemma EmptyStep(s: State, clock: Clock)
    requires Queued(s) == []
    ensures Alike(s, Dequeue(s, clock.now, clock.lock, false)) && Handed(s) == []
    ensures Queued(Dequeue(s, clock.now, clock.lock, false)) == []
  {
    PoppedIsFirst(s);
    assert s.prioritized == map[] && s.waiting == [];
  }

  lemma AlikeTrans(s: State, t: State, u: State)
    requires Alike(s, t) && Alike(t, u)
    ensures Alike(s, u)
  {
    forall x | x in s.vault
      ensures AlikeJobs(s.vault[x], u.vault[x])
    {
      assert x in t.vault.Keys;
      assert AlikeJobs(s.vault[x], t.vault[x]) && AlikeJobs(t.vault[x], u.vault[x]);
    }
  }

  lemma {:induction false} NothingLeft(s: State, t: State, taken: seq<Id>, clocks: seq<Clock>)
    requires Alike(s, t) && Queued(t) == []
    ensures var c := TakeEach(Batch(t, taken), clocks);
            Alike(s, c.s) && c.taken == taken
    decreases |clocks|
  {
    if clocks == [] {
    } else {
      var u := Dequeue(t, clocks[0].now, clocks[0].lock, false);
      EmptyStep(t, clocks[0]);
      AlikeTrans(s, t, u);
      assert taken + Handed(t) == taken;
      NothingLeft(s, u, taken, clocks[1..]);
    }
  }

  lemma BatchEnds(b: Batch, n: nat, lease: int)
    requires |b.taken| >= n || Queued(b.s) == []
    ensures BatchFrom(b, n, lease) == b
  {
    if |b.taken| < n {
      assert b.s.prioritized == map[] by {
        if b.s.prioritized != map[] {
          ByScoreCons(b.s.prioritized);
        }
      }
    }
  }

  lemma BatchOneStep(b: Batch, n: nat, lease: int)
    requires AllStored(b.s) && |b.taken| < n && Queued(b.s) != []
    ensures BatchFrom(b, n, lease) == BatchFrom(Batch(BatchStep(b.s, lease), b.taken + Handed(b.s)), n, lease)
  {
    if b.s.prioritized != map[] {
      FirstPhaseStep(b, n, lease);
    } else {
      SecondPhaseStep(b, n, lease);
    }
  }

  /** A batch, from any point, does what single dequeues do, stamps apart. */
  lemma {:induction false} BatchFromIsTakeEach(b: Batch, t: State, n: nat, lease: int, clocks: seq<Clock>)
    requires AllStored(b.s) && Alike(b.s, t) && |b.taken| + |clocks| == n
    ensures var c := TakeEach(Batch(t, b.taken), clocks);
            Alike(BatchFrom(b, n, lease).s, c.s) && BatchFrom(b, n, lease).taken == c.taken
    decreases |clocks|
  {
    AlikeQueues(b.s, t);
    if clocks == [] {
      BatchEnds(b, n, lease);
    } else if Queued(b.s) == [] {
      BatchEnds(b, n, lease);
      NothingLeft(b.s, t, b.taken, clocks);
    } else {
      var c := Batch(BatchStep(b.s, lease), b.taken + Handed(b.s));
      BatchOneStep(b, n, lease);
      AlikeStep(b.s, t, lease, clocks[0]);
      StepKeepsStored(b.s, lease);
      HandsOne(b.s);
      BatchFromIsTakeEach(c, Dequeue(t, clocks[0].now, clocks[0].lock, false), n, lease, clocks[1..]);
    }
  }

  /** batchdequeue(n) refines n dequeues at any n clock readings: the same ids, in
      the same order, min(n, queued) of them, and the same state but for the stamps. */
  lemma BatchIsRepeatedDequeue(s: State, lease: int, clocks: seq<Clock>)
    requires AllStored(s)
    ensures var b := BatchDequeue(s, |clocks|, lease);
            var c := TakeEach(Batch(s, []), clocks);
            && Alike(b.s, c.s)
            && b.taken == c.taken == Head(Queued(s), |clocks|)
  {
    assert Alike(s, s);
    BatchFromIsTakeEach(Batch(s, []), s, |clocks|, lease, clocks);
    TakeEachIsHead(s, [], clocks);
  }
}

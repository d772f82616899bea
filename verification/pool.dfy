/**
 The bounded executor of a worker (worker.js): tasks run at once while there is
 room and queue up otherwise, and each one that ends starts the next.
 */
module Pool {
  type Task = nat

  /** `started` and `submitted` are history: the tasks in the order they came. */
  datatype PoolState = PoolState(running: nat, queue: seq<Task>, started: seq<Task>, submitted: seq<Task>, finished: nat)

  const IDLE := PoolState(0, [], [], [], 0)

  function Submitted(p: PoolState, concurrency: nat, task: Task): PoolState
  {
    if p.running < concurrency
    then p.(running := p.running + 1, started := p.started + [task], submitted := p.submitted + [task])
    else p.(queue := p.queue + [task], submitted := p.submitted + [task])
  }

  function Finished(p: PoolState): PoolState
    requires p.running > 0
  {
    if p.queue != []
    then p.(queue := p.queue[1..], started := p.started + [p.queue[0]], finished := p.finished + 1)
    else p.(running := p.running - 1, finished := p.finished + 1)
  }

  class Executor {
    const concurrency: nat
    var running: nat
    var queue: seq<Task>
    ghost var started: seq<Task>
    ghost var submitted: seq<Task>
    ghost var finished: nat

    ghost function Now(): PoolState
      reads this
    {
      PoolState(running, queue, started, submitted, finished)
    }

    constructor (concurrency: nat)
      ensures this.concurrency == concurrency && Now() == IDLE
    {
      this.concurrency := concurrency;
      running, queue := 0, [];
      started, submitted, finished := [], [], 0;
    }

    method Start(task: Task)
      modifies `running, `started
      ensures running == old(running) + 1 && started == old(started) + [task]
    {
      running := running + 1;
      started := started + [task];
    }

    method RunInPool(task: Task)
      modifies this
      ensures Now() == Submitted(old(Now()), concurrency, task)
    {
      submitted := submitted + [task];
      if running < concurrency {
        Start(task);
      } else {
        queue := queue + [task];
      }
    }

    /** The finally block of a task that has ended. */
    method TaskEnded()
      requires running > 0
      modifies this
      ensures Now() == Finished(old(Now()))
    {
      running, finished := running - 1, finished + 1;
      if |queue| > 0 {
        var next := queue[0];
        queue := queue[1..];
        Start(next);
      }
    }
  }

  // ---- Over any interleaving of submissions and ends ----

  datatype Happening = Submit(task: Task) | End

  function After(p: PoolState, concurrency: nat, h: Happening): PoolState
  {
    match h
    case Submit(task) => Submitted(p, concurrency, task)
    case End => if p.running > 0 then Finished(p) else p
  }

  function RunAll(p: PoolState, concurrency: nat, hs: seq<Happening>): PoolState
    decreases |hs|
  {
    if hs == [] then p else RunAll(After(p, concurrency, hs[0]), concurrency, hs[1..])
  }

  /** Never too many at once, never room left while a task queues, every task started
      exactly once and in the order of submission. */
  ghost predicate PoolRight(p: PoolState, concurrency: nat)
  {
    && p.running <= concurrency
    && (p.queue != [] ==> p.running == concurrency)
    && p.started + p.queue == p.submitted
    && p.running + p.finished == |p.started|
  }

  lemma HappeningKeepsRight(p: PoolState, concurrency: nat, h: Happening)
    requires PoolRight(p, concurrency)
    ensures PoolRight(After(p, concurrency, h), concurrency)
  {
    match h {
      case Submit(task) =>
        assert p.started + (p.queue + [task]) == p.started + p.queue + [task];
      case End =>
        if p.queue != [] {
          assert p.started + [p.queue[0]] + p.queue[1..] == p.started + p.queue;
        }
    }
  }

  lemma {:induction false} PoolIsAlwaysRight(p: PoolState, concurrency: nat, hs: seq<Happening>)
    requires PoolRight(p, concurrency)
    ensures PoolRight(RunAll(p, concurrency, hs), concurrency)
    decreases |hs|
  {
    if hs == [] {
    } else {
      HappeningKeepsRight(p, concurrency, hs[0]);
      PoolIsAlwaysRight(After(p, concurrency, hs[0]), concurrency, hs[1..]);
    }
  }

  /** With room for at least one task, ends alone start and finish everything submitted. */
  lemma {:induction false} EverythingFinishes(p: PoolState, concurrency: nat, n: nat)
    requires PoolRight(p, concurrency) && concurrency > 0 && n == p.running + |p.queue|
    ensures var end := RunAll(p, concurrency, seq(n, i => End));
            end.running == 0 && end.queue == [] && end.started == p.submitted && end.finished == |p.submitted|
    decreases n
  {
    if n == 0 {
    } else {
      HappeningKeepsRight(p, concurrency, End);
      var ends := seq(n, i => End);
      assert ends[0] == End && ends[1..] == seq(n - 1, i => End);
      EverythingFinishes(Finished(p), concurrency, n - 1);
      assert Finished(p).submitted == p.submitted;
    }
  }
}

/**
 The wake-up protocol: fetchers that block on the token list, drain while their pool
 has room, delete the surplus tokens and look once more, against everybody else.
 */
module Wakeup {
  import opened Redis
  import opened Model
  import opened Machine
  import opened Placement
  import opened Edges
  import opened Runs
  import opened Dispatch
  import opened Bulk
  import opened Tokens

  /** Where a fetcher is: at the top of its loop, in BLPOP, about to look for a job in
      its burst, about to delete the surplus tokens, or about to look after that. */
  datatype Pc = Top | Blocked | Bursting | Clearing | Recatching

  /** A fetcher, with the tasks its pool runs and how many it may run at once. */
  datatype Fetcher = Fetcher(pc: Pc, running: nat, limit: nat)

  /** `owed` are the tokens addBulk calls have yet to push for jobs already stored. */
  datatype World = World(w: System, owed: nat, fetchers: seq<Fetcher>)

  /** A look is a single or a batch dequeue, and what it finds is one task. Cut is the
      return of a burst that finds its pool full; Quit is its return because the worker
      is paused, stopping, or limited to one look per token. Finish is a task that
      ends by taking its successor in the same script, End one that does not. */
  datatype Move =
    | Enter(f: nat)
    | TimeOut(f: nat)
    | Wake(f: nat)
    | Look(f: nat, op: Op)
    | Clear(f: nat)
    | LookAgain(f: nat, op: Op)
    | Cut(f: nat)
    | Quit(f: nat)
    | Finish(f: nat, op: Op)
    | End(f: nat)
    | Pay(n: nat)
    | Elsewhere(op: Op)

  function WithTokens(w: System, tokens: nat): System
  {
    After(w, w.s.(tokens := tokens))
  }

  /** Whether a dequeue, single or batch, comes back with something. */
  function Finds(s: State, op: Op): bool
  {
    match op
    case Take(_, _, _) => Next(s).Some?
    case TakeMany(n, lease) => BatchDequeue(s, n, lease).taken != []
    case _ => false
  }

  predicate IsDequeue(op: Op)
  {
    op.Take? || (op.TakeMany? && op.n > 0)
  }

  function Owes(s: State, op: Op): nat
  {
    match op
    case AddMany(items) => Tally(items, BulkCreated(s, items), LaterIds(items), false)
    case _ => 0
  }

  predicate HasRoom(x: Fetcher)
  {
    x.running < x.limit
  }

  /** In a burst, and bound to look again unless its pool is full. */
  predicate Looking(x: Fetcher)
  {
    x.pc == Bursting || x.pc == Clearing || x.pc == Recatching
  }

  /** Whether the fetcher is where the move takes place. */
  ghost predicate Ready(v: World, m: Move, x: Fetcher)
  {
    match m
    case Enter(_) => x.pc == Top && HasRoom(x)
    case TimeOut(_) => x.pc == Blocked
    case Wake(_) => x.pc == Blocked && v.w.s.tokens > 0
    case Look(_, op) => x.pc == Bursting && HasRoom(x) && IsDequeue(op)
    case Clear(_) => x.pc == Clearing
    case LookAgain(_, op) => x.pc == Recatching && HasRoom(x) && IsDequeue(op)
    case Cut(_) => (x.pc == Bursting || x.pc == Recatching) && !HasRoom(x)
    case Quit(_) => x.pc == Bursting || x.pc == Recatching
    case Finish(_, op) => x.running > 0 && op.Complete? && op.fetch.Some? && Legal(v.w, op)
    case End(_) => x.running > 0
    case _ => false
  }

  ghost predicate Possible(v: World, m: Move)
  {
    match m
    case Pay(n) => n <= v.owed
    case Elsewhere(op) =>
      && Legal(v.w, op)
      && (op.AddMany? ==> Agree(op.items, BulkCreated(v.w.s, op.items), LaterIds(op.items)))
    case _ => m.f < |v.fetchers| && Ready(v, m, v.fetchers[m.f])
  }

  function SystemAfter(w: System, m: Move): System
  {
    match m
    case Wake(_) => WithTokens(w, if w.s.tokens > 0 then w.s.tokens - 1 else 0)
    case Look(_, op) => Apply(w, op)
    case Clear(_) => WithTokens(w, 0)
    case LookAgain(_, op) => Apply(w, op)
    case Finish(_, op) => Apply(w, op)
    case Pay(n) => WithTokens(w, w.s.tokens + n)
    case Elsewhere(op) => Apply(w, op)
    case _ => w
  }

  function OwedAfter(v: World, m: Move): nat
  {
    match m
    case Pay(n) => if n <= v.owed then v.owed - n else 0
    case Elsewhere(op) => v.owed + Owes(v.w.s, op)
    case _ => v.owed
  }

  function Ended(x: Fetcher): Fetcher
  {
    x.(running := if x.running > 0 then x.running - 1 else 0)
  }

  function FetcherAfter(s: State, m: Move, x: Fetcher): Fetcher
  {
    match m
    case Enter(_) => x.(pc := Blocked)
    case TimeOut(_) => x.(pc := Top)
    case Wake(_) => x.(pc := Bursting)
    case Look(_, op) => if Finds(s, op) then x.(running := x.running + 1) else x.(pc := Clearing)
    case Clear(_) => x.(pc := Recatching)
    case LookAgain(_, op) => if Finds(s, op) then x.(running := x.running + 1, pc := Bursting) else x.(pc := Top)
    case Cut(_) => x.(pc := Top)
    case Quit(_) => x.(pc := Top)
    case Finish(_, op) => if op.Complete? && Next(Closing(s, op)).Some? then x else Ended(x)
    case End(_) => Ended(x)
    case _ => x
  }

  function FetchersAfter(v: World, m: Move): seq<Fetcher>
  {
    if m.Pay? || m.Elsewhere? || m.f >= |v.fetchers| then v.fetchers
    else v.fetchers[m.f := FetcherAfter(v.w.s, m, v.fetchers[m.f])]
  }

  function Move1(v: World, m: Move): World
  {
    World(SystemAfter(v.w, m), OwedAfter(v, m), FetchersAfter(v, m))
  }

  function Play(v: World, moves: seq<Move>): World
    decreases |moves|
  {
    if moves == [] then v else Play(Move1(v, moves[0]), moves[1..])
  }

  ghost predicate AllPossible(v: World, moves: seq<Move>)
    decreases |moves|
  {
    moves == [] || (Possible(v, moves[0]) && AllPossible(Move1(v, moves[0]), moves[1..]))
  }

  // ---- The queue itself stays right ----

  lemma TokensDoNotMatter(w: System, tokens: nat)
    requires Right(w)
    ensures Right(WithTokens(w, tokens))
  {
    var t := w.s.(tokens := tokens);
    PlacesFrame(w.s, t);
    CalmKeepsDag(w, t);
  }

  /** A dequeue that finds nothing has seen an empty queue, and leaves it empty. */
  lemma EmptyHandedMeansEmpty(w: System, op: Op)
    requires Right(w) && IsDequeue(op) && !Finds(w.s, op)
    ensures Backlog(Effect(w.s, op)) == 0
  {
    PlacedAreStored(w.s);
    PoppedIsFirst(w.s);
    EffectPaid(w, op);
    match op {
      case Take(now, lock, publish) =>
        PoppedIsStored(w.s);
        TakeEmpty(w.s, now, lock, publish);
      case TakeMany(n, lease) =>
        var clocks := seq(n, i => Clock(0, 0));
        BatchIsRepeatedDequeue(w.s, lease, clocks);
        TakeManyEmpty(w.s, n, lease);
    }
  }

  lemma TakeEmpty(s: State, now: int, lock: int, publish: bool)
    requires Popped(s) == None
    ensures Backlog(Dequeue(s, now, lock, publish)) == 0
  {
  }

  lemma TakeManyEmpty(s: State, n: nat, lease: int)
    requires n > 0 && BatchDequeue(s, n, lease).taken == [] == Head(Queued(s), n)
    ensures Backlog(BatchDequeue(s, n, lease).s) == 0
  {
    assert Queued(s) == [];
    assert s.prioritized == map[] by {
      if s.prioritized != map[] {
        ByScoreCons(s.prioritized);
      }
    }
    assert s.waiting == [];
  }

  lemma TokensMoved(w: System, t: System, tokens: nat)
    requires Right(w) && t == WithTokens(w, tokens)
    ensures Right(t)
  {
    TokensDoNotMatter(w, tokens);
  }

  lemma OpMoved(w: System, t: System, op: Op)
    requires Right(w) && t == Apply(w, op) && (IsDequeue(op) || Legal(w, op))
    ensures Right(t)
  {
    OpKeepsRight(w, op);
  }

  lemma MoveKeepsRight(v: World, m: Move)
    requires Right(v.w) && Possible(v, m)
    ensures Right(SystemAfter(v.w, m))
  {
    var t := SystemAfter(v.w, m);
    if m.Wake? {
      TokensMoved(v.w, t, v.w.s.tokens - 1);
    } else if m.Clear? {
      TokensMoved(v.w, t, 0);
    } else if m.Pay? {
      TokensMoved(v.w, t, v.w.s.tokens + m.n);
    } else if m.Look? || m.LookAgain? || m.Finish? || m.Elsewhere? {
      OpMoved(v.w, t, m.op);
    }
  }

  lemma OpKeepsRight(w: System, op: Op)
    requires Right(w) && (IsDequeue(op) || Legal(w, op))
    ensures Right(Apply(w, op))
  {
    assert Legal(w, op);
    StepKeepsRight(w, op);
  }

  lemma TakenOne(s: State, now: int, lock: int, publish: bool)
    requires Next(s).Some?
    ensures Backlog(Dequeue(s, now, lock, publish)) == Backlog(s) - 1
    ensures Dequeue(s, now, lock, publish).tokens == s.tokens
  {
    if s.prioritized != map[] {
      LessOne(s.prioritized, Least(s.prioritized));
    }
    PickPaid(Pop(s), Next(s).value, now, now + lock);
  }

  lemma TakenMany(s: State, n: nat, lease: int)
    requires AllStored(s) && n > 0 && BatchDequeue(s, n, lease).taken != []
    ensures Backlog(BatchDequeue(s, n, lease).s) < Backlog(s)
  {
    var clocks := seq(n, i => Clock(0, 0));
    var t := TakeEach(Batch(s, []), clocks).s;
    BatchIsRepeatedDequeue(s, lease, clocks);
    TakeEachIsHead(s, [], clocks);
    BacklogIsQueued(s);
    BacklogIsQueued(t);
    assert Head(Queued(s), n) != [];
  }

  /** A dequeue that finds something leaves the queue shorter. */
  lemma FindingShortens(w: System, op: Op)
    requires Right(w) && IsDequeue(op) && Finds(w.s, op)
    ensures Backlog(Effect(w.s, op)) < Backlog(w.s) && Effect(w.s, op).tokens >= w.s.tokens
  {
    PlacedAreStored(w.s);
    EffectPaid(w, op);
    if op.Take? {
      TakenOne(w.s, op.now, op.lock, op.publish);
    } else {
      TakenMany(w.s, op.n, op.lease);
    }
  }

  // ---- Every queued job is covered ----

  /** How many tasks a fetcher that is looking will still take. */
  function RoomOf(x: Fetcher): nat
  {
    if Looking(x) && HasRoom(x) then x.limit - x.running else 0
  }

  function Room(fs: seq<Fetcher>): nat
  {
    if fs == [] then 0 else RoomOf(fs[0]) + Room(fs[1..])
  }

  lemma {:induction false} RoomUpdate(fs: seq<Fetcher>, i: nat, x: Fetcher)
    requires i < |fs|
    ensures Room(fs[i := x]) + RoomOf(fs[i]) == Room(fs) + RoomOf(x)
    decreases |fs|
  {
    if i == 0 {
      assert fs[i := x][1..] == fs[1..];
    } else {
      assert fs[i := x][1..] == fs[1..][i - 1 := x];
      RoomUpdate(fs[1..], i - 1, x);
    }
  }

  /** No pool runs too much, and whoever blocks has room for the job its token stands for. */
  ghost predicate Sound(v: World)
  {
    forall f :: 0 <= f < |v.fetchers| ==> SoundFetcher(v.fetchers[f])
  }

  predicate SoundFetcher(x: Fetcher)
  {
    x.running <= x.limit && (x.pc == Blocked ==> HasRoom(x))
  }

  lemma MoveKeepsSound(v: World, m: Move)
    requires Sound(v) && Possible(v, m)
    ensures Sound(Move1(v, m))
  {
    if !m.Pay? && !m.Elsewhere? {
      assert SoundFetcher(v.fetchers[m.f]);
      assert SoundFetcher(FetcherAfter(v.w.s, m, v.fetchers[m.f]));
    }
  }

  /** Every queued job has a token, or one on its way, or room in the pool of a fetcher
      that is looking. */
  predicate Covered(v: World)
  {
    Backlog(v.w.s) <= v.w.s.tokens + v.owed + Room(v.fetchers)
  }

  /** Deleting the tokens, and quitting a burst, are safe when what then remains
      covers the queue. Every other move is. */
  predicate Safe(v: World, m: Move)
  {
    match m
    case Clear(_) => Backlog(v.w.s) <= v.owed + Room(v.fetchers)
    case Quit(f) => f < |v.fetchers| ==> Backlog(v.w.s) + RoomOf(v.fetchers[f]) <= v.w.s.tokens + v.owed + Room(v.fetchers)
    case _ => true
  }

  lemma QuietMoveCovers(v: World, m: Move)
    requires Sound(v) && Covered(v) && Possible(v, m)
    requires m.Enter? || m.TimeOut? || m.Wake? || m.Clear? || m.Cut? || m.Quit? || m.End?
    ensures Covered(Move1(v, m)) <==> Safe(v, m)
  {
    var x := v.fetchers[m.f];
    assert SoundFetcher(x);
    RoomUpdate(v.fetchers, m.f, FetcherAfter(v.w.s, m, x));
  }

  lemma LookCovers(v: World, m: Move)
    requires Right(v.w) && Covered(v) && Possible(v, m) && (m.Look? || m.LookAgain?)
    ensures Covered(Move1(v, m))
  {
    RoomUpdate(v.fetchers, m.f, FetcherAfter(v.w.s, m, v.fetchers[m.f]));
    if Finds(v.w.s, m.op) {
      FindingShortens(v.w, m.op);
    } else {
      EmptyHandedMeansEmpty(v.w, m.op);
    }
  }

  lemma FinishCovers(v: World, m: Move)
    requires Right(v.w) && Covered(v) && Possible(v, m) && m.Finish?
    ensures Covered(Move1(v, m))
  {
    RoomUpdate(v.fetchers, m.f, FetcherAfter(v.w.s, m, v.fetchers[m.f]));
    EffectPaid(v.w, m.op);
  }

  lemma AgreedBatchOwes(s: State, items: seq<BulkItem>)
    requires Agree(items, BulkCreated(s, items), LaterIds(items))
    ensures AddBulk(s, items).tokens == s.tokens
    ensures Backlog(AddBulk(s, items)) <= Backlog(s) + Owes(s, AddMany(items))
  {
    AddManyOwes(s, items);
    TallyIff(items, BulkCreated(s, items), LaterIds(items));
  }

  /** What an operation of somebody else may add to the backlog, given the tokens it
      adds and those it comes to owe. */
  lemma ElsewhereOwes(w: System, op: Op, t: State)
    requires Right(w) && t == Effect(w.s, op)
    requires op.AddMany? ==> Agree(op.items, BulkCreated(w.s, op.items), LaterIds(op.items))
    ensures Backlog(t) == 0 || (t.tokens >= w.s.tokens && Backlog(t) + w.s.tokens <= Backlog(w.s) + t.tokens + Owes(w.s, op))
  {
    if op.AddMany? {
      AgreedBatchOwes(w.s, op.items);
    } else if op.DrainAll? {
      DrainHasNone(w.s);
    } else {
      EffectPaid(w, op);
    }
  }

  lemma ElsewhereCovers(v: World, m: Move)
    requires Right(v.w) && Covered(v) && Possible(v, m) && m.Elsewhere?
    ensures Covered(Move1(v, m))
  {
    ElsewhereOwes(v.w, m.op, SystemAfter(v.w, m).s);
  }

  /** Every queued job stays covered through every move, but for deleting the tokens
      and quitting a burst: those leave it covered exactly when they are safe. */
  lemma MoveKeepsCoveredIff(v: World, m: Move)
    requires Right(v.w) && Sound(v) && Covered(v) && Possible(v, m)
    ensures Covered(Move1(v, m)) <==> Safe(v, m)
  {
    if m.Look? || m.LookAgain? {
      LookCovers(v, m);
    } else if m.Finish? {
      FinishCovers(v, m);
    } else if m.Elsewhere? {
      ElsewhereCovers(v, m);
    } else if m.Pay? {
    } else {
      QuietMoveCovers(v, m);
    }
  }

  /** Covered at the start and after every move. */
  ghost predicate AlwaysCovered(v: World, moves: seq<Move>)
    decreases |moves|
  {
    Covered(v) && (moves == [] || AlwaysCovered(Move1(v, moves[0]), moves[1..]))
  }

  ghost predicate AllSafe(v: World, moves: seq<Move>)
    decreases |moves|
  {
    moves == [] || (Safe(v, moves[0]) && AllSafe(Move1(v, moves[0]), moves[1..]))
  }

  /** Over any interleaving of any number of fetchers, pools and everybody else, every
      queued job is covered throughout exactly when every deletion of the tokens and
      every quitting of a burst is safe. */
  lemma {:induction false} CoveredIffSafe(v: World, moves: seq<Move>)
    requires Right(v.w) && Sound(v) && Covered(v) && AllPossible(v, moves)
    ensures AlwaysCovered(v, moves) <==> AllSafe(v, moves)
    decreases |moves|
  {
    if moves == [] {
    } else {
      MoveKeepsCoveredIff(v, moves[0]);
      if Safe(v, moves[0]) {
        MoveKeepsRight(v, moves[0]);
        MoveKeepsSound(v, moves[0]);
        CoveredIffSafe(Move1(v, moves[0]), moves[1..]);
      } else {
        NotCoveredHere(Move1(v, moves[0]), moves[1..]);
      }
    }
  }

  lemma NotCoveredHere(v: World, moves: seq<Move>)
    requires !Covered(v)
    ensures !AlwaysCovered(v, moves)
  {
  }

  predicate NobodyLooks(v: World)
  {
    forall f :: 0 <= f < |v.fetchers| ==> !Looking(v.fetchers[f])
  }

  lemma {:induction false} NoRoomUnlessLooking(fs: seq<Fetcher>)
    requires forall f :: 0 <= f < |fs| ==> !Looking(fs[f])
    ensures Room(fs) == 0
  {
    if fs == [] {
    } else {
      NoRoomUnlessLooking(fs[1..]);
    }
  }

  /** So when no burst is under way, there are at least as many tokens, counting those
      on their way, as queued jobs. */
  lemma QuietMeansTokens(v: World)
    requires Covered(v) && NobodyLooks(v)
    ensures |Queued(v.w.s)| <= v.w.s.tokens + v.owed
  {
    NoRoomUnlessLooking(v.fetchers);
    BacklogIsQueued(v.w.s);
  }

  // ---- What an unsafe deletion leads to ----

  /** Work is queued, and nobody will come for it: no token, none on its way, no burst. */
  predicate Lost(v: World)
  {
    Backlog(v.w.s) > 0 && v.w.s.tokens == 0 && v.owed == 0 && NobodyLooks(v)
  }

  function WeightOf(x: Fetcher): nat
  {
    2 * RoomOf(x) + if x.pc == Clearing then 2 else if Looking(x) then 1 else 0
  }

  function Weight(fs: seq<Fetcher>): nat
  {
    if fs == [] then 0 else WeightOf(fs[0]) + Weight(fs[1..])
  }

  lemma {:induction false} WeightUpdate(fs: seq<Fetcher>, i: nat, x: Fetcher)
    requires i < |fs|
    ensures Weight(fs[i := x]) + WeightOf(fs[i]) == Weight(fs) + WeightOf(x)
    decreases |fs|
  {
    if i == 0 {
      assert fs[i := x][1..] == fs[1..];
    } else {
      assert fs[i := x][1..] == fs[1..][i - 1 := x];
      WeightUpdate(fs[1..], i - 1, x);
    }
  }

  /** More work than the looking fetchers have room for, and no token at all. */
  ghost predicate Short(v: World)
  {
    Right(v.w) && Sound(v) && v.w.s.tokens == 0 && v.owed == 0 && Backlog(v.w.s) > Room(v.fetchers)
  }

  const TAKE := Take(0, 0, false)

  /** What a looking fetcher does next when there is work. */
  function NextMove(f: nat, x: Fetcher): Move
  {
    if x.pc == Clearing then Clear(f)
    else if !HasRoom(x) then Cut(f)
    else if x.pc == Bursting then Look(f, TAKE)
    else LookAgain(f, TAKE)
  }

  lemma WorkIsFound(w: System)
    requires Right(w) && Backlog(w.s) > 0
    ensures Next(w.s).Some? && Finds(w.s, TAKE)
    ensures Backlog(Effect(w.s, TAKE)) == Backlog(w.s) - 1 && Effect(w.s, TAKE).tokens == w.s.tokens
  {
    PlacedAreStored(w.s);
    PoppedIsStored(w.s);
    TakenOne(w.s, 0, 0, false);
  }

  /** What the moves of a looking fetcher do to room and weight. */
  lemma PauseWeighsLess(v: World, m: Move)
    requires (m.Clear? || m.Cut?) && Possible(v, m)
    ensures var fs := FetchersAfter(v, m); Room(fs) == Room(v.fetchers) && Weight(fs) < Weight(v.fetchers)
  {
    var x := v.fetchers[m.f];
    RoomUpdate(v.fetchers, m.f, FetcherAfter(v.w.s, m, x));
    WeightUpdate(v.fetchers, m.f, FetcherAfter(v.w.s, m, x));
  }

  lemma LookWeighsLess(v: World, m: Move)
    requires (m.Look? || m.LookAgain?) && Possible(v, m) && Finds(v.w.s, m.op)
    ensures var fs := FetchersAfter(v, m); Room(fs) == Room(v.fetchers) - 1 && Weight(fs) < Weight(v.fetchers)
  {
    var x := v.fetchers[m.f];
    RoomUpdate(v.fetchers, m.f, FetcherAfter(v.w.s, m, x));
    WeightUpdate(v.fetchers, m.f, FetcherAfter(v.w.s, m, x));
  }

  lemma PauseStaysShort(v: World, m: Move)
    requires Short(v) && (m.Clear? || m.Cut?) && Possible(v, m)
    ensures Short(Move1(v, m)) && Weight(Move1(v, m).fetchers) < Weight(v.fetchers)
  {
    PauseWeighsLess(v, m);
    MoveKeepsRight(v, m);
    MoveKeepsSound(v, m);
  }

  lemma TakeIsShort(w: System, op: Op, t: State)
    requires Right(w) && Backlog(w.s) > 0 && op == TAKE && t == Effect(w.s, op)
    ensures Finds(w.s, op) && Backlog(t) == Backlog(w.s) - 1 && t.tokens == w.s.tokens
  {
    WorkIsFound(w);
  }

  lemma LookStaysShort(v: World, m: Move)
    requires Short(v) && (m.Look? || m.LookAgain?) && m.op == TAKE && Possible(v, m)
    ensures Short(Move1(v, m)) && Weight(Move1(v, m).fetchers) < Weight(v.fetchers)
  {
    TakeIsShort(v.w, m.op, SystemAfter(v.w, m).s);
    LookWeighsLess(v, m);
    MoveKeepsRight(v, m);
    MoveKeepsSound(v, m);
  }

  lemma StaysShort(v: World, f: nat, m: Move)
    requires Short(v) && f < |v.fetchers| && Looking(v.fetchers[f]) && m == NextMove(f, v.fetchers[f])
    ensures Possible(v, m) && Short(Move1(v, m)) && Weight(Move1(v, m).fetchers) < Weight(v.fetchers)
  {
    assert Possible(v, m);
    if m.Clear? || m.Cut? {
      PauseStaysShort(v, m);
    } else {
      LookStaysShort(v, m);
    }
  }

  /** From there the looking fetchers alone, each taking single jobs until its pool is
      full, can end with work queued that nobody will come for. */
  lemma {:induction false} ShortCanLose(v: World) returns (moves: seq<Move>)
    requires Short(v)
    ensures AllPossible(v, moves) && Lost(Play(v, moves))
    decreases Weight(v.fetchers)
  {
    if NobodyLooks(v) {
      moves := [];
    } else {
      var f :| 0 <= f < |v.fetchers| && Looking(v.fetchers[f]);
      var m := NextMove(f, v.fetchers[f]);
      StaysShort(v, f, m);
      var rest := ShortCanLose(Move1(v, m));
      moves := [m] + rest;
    }
  }

  /** An unsafe deletion of the tokens, with none on its way, can lose the wake-up. */
  lemma UnsafeClearCanLose(v: World, f: nat) returns (moves: seq<Move>)
    requires Right(v.w) && Sound(v) && Possible(v, Clear(f)) && !Safe(v, Clear(f)) && v.owed == 0
    ensures AllPossible(Move1(v, Clear(f)), moves) && Lost(Play(Move1(v, Clear(f)), moves))
  {
    MoveKeepsRight(v, Clear(f));
    MoveKeepsSound(v, Clear(f));
    RoomUpdate(v.fetchers, f, FetcherAfter(v.w.s, Clear(f), v.fetchers[f]));
    moves := ShortCanLose(Move1(v, Clear(f)));
  }

  // ---- Bursts that are not cut ----

  /** While a job is queued there is a token, or one on its way, or a burst under way. */
  predicate Awake(v: World)
  {
    Backlog(v.w.s) > 0 ==> v.w.s.tokens > 0 || v.owed > 0 || !NobodyLooks(v)
  }

  predicate CutsShort(m: Move)
  {
    m.Cut? || m.Quit?
  }

  lemma StillLooking(v: World, m: Move)
    requires Possible(v, m) && !m.Pay? && !m.Elsewhere? && Looking(Move1(v, m).fetchers[m.f])
    ensures !NobodyLooks(Move1(v, m))
  {
  }

  lemma OthersStillLook(v: World, m: Move)
    requires Possible(v, m) && (m.Enter? || m.TimeOut? || m.Finish? || m.End?) && !NobodyLooks(v)
    ensures !NobodyLooks(Move1(v, m))
  {
    var f :| 0 <= f < |v.fetchers| && Looking(v.fetchers[f]);
    assert Looking(Move1(v, m).fetchers[f]);
  }

  lemma PaidKeepsAwake(v: World, v': World)
    requires Awake(v) && Paid(v.w.s, v'.w.s) && v'.owed >= v.owed && (!NobodyLooks(v) ==> !NobodyLooks(v'))
    ensures Awake(v')
  {
  }

  lemma ElsewhereKeepsAwake(v: World, m: Move)
    requires Right(v.w) && Awake(v) && Possible(v, m) && m.Elsewhere?
    ensures Awake(Move1(v, m))
  {
    ElsewhereOwes(v.w, m.op, SystemAfter(v.w, m).s);
  }

  lemma LookKeepsAwake(v: World, m: Move)
    requires Right(v.w) && Possible(v, m) && (m.Look? || m.LookAgain?)
    ensures Awake(Move1(v, m))
  {
    if Finds(v.w.s, m.op) {
      StillLooking(v, m);
    } else {
      EmptyHandedMeansEmpty(v.w, m.op);
    }
  }

  /** The queue stays attended through every move that does not cut a burst short. */
  lemma MoveKeepsAwake(v: World, m: Move)
    requires Right(v.w) && Awake(v) && Possible(v, m) && !CutsShort(m)
    ensures Awake(Move1(v, m))
  {
    if m.Look? || m.LookAgain? {
      LookKeepsAwake(v, m);
    } else if m.Wake? || m.Clear? {
      StillLooking(v, m);
    } else if m.Elsewhere? {
      ElsewhereKeepsAwake(v, m);
    } else if m.Finish? {
      EffectPaid(v.w, m.op);
      if !NobodyLooks(v) {
        OthersStillLook(v, m);
      }
      PaidKeepsAwake(v, Move1(v, m));
    } else if m.Enter? || m.TimeOut? || m.End? {
      if !NobodyLooks(v) {
        OthersStillLook(v, m);
      }
    }
  }

  /** No wake-up is lost as long as no burst is cut short, with any number of fetchers
      interleaved in any way with any legal operations of everybody else. */
  lemma {:induction false} NoLostWakeup(v: World, moves: seq<Move>)
    requires Right(v.w) && Awake(v) && AllPossible(v, moves)
    requires forall i :: 0 <= i < |moves| ==> !CutsShort(moves[i])
    ensures Right(Play(v, moves).w) && Awake(Play(v, moves)) && !Lost(Play(v, moves))
    decreases |moves|
  {
    if moves == [] {
    } else {
      MoveKeepsRight(v, moves[0]);
      MoveKeepsAwake(v, moves[0]);
      NoLostWakeup(Move1(v, moves[0]), moves[1..]);
    }
  }

  lemma {:induction false} CoveredAtTheEnd(v: World, moves: seq<Move>)
    requires AlwaysCovered(v, moves)
    ensures Covered(Play(v, moves))
    decreases |moves|
  {
    if moves == [] {
    } else {
      CoveredAtTheEnd(Move1(v, moves[0]), moves[1..]);
    }
  }

  /** From an empty queue: if no burst was cut short, or all was safe, then whenever
      nobody looks and no token is left or owed, nothing is queued. */
  lemma AsleepMeansEmpty(fetchers: seq<Fetcher>, moves: seq<Move>)
    requires Sound(World(START, 0, fetchers)) && AllPossible(World(START, 0, fetchers), moves)
    requires AllSafe(World(START, 0, fetchers), moves) || forall i :: 0 <= i < |moves| ==> !CutsShort(moves[i])
    ensures var v := Play(World(START, 0, fetchers), moves);
            NobodyLooks(v) && v.w.s.tokens == 0 && v.owed == 0 ==> Queued(v.w.s) == []
  {
    var v0 := World(START, 0, fetchers);
    var v := Play(v0, moves);
    StartIsRight();
    BacklogIsQueued(v.w.s);
    if AllSafe(v0, moves) {
      CoveredIffSafe(v0, moves);
      CoveredAtTheEnd(v0, moves);
      NoLossWhenCovered(v);
    } else {
      NoLostWakeup(v0, moves);
    }
  }

  lemma NoLossWhenCovered(v: World)
    requires Covered(v)
    ensures !Lost(v)
  {
    if NobodyLooks(v) {
      NoRoomUnlessLooking(v.fetchers);
    }
  }
}

/**
 A run of the code's own steps in which a full pool costs a stored job its wake-up.
 */
module FullPool {
  import opened Redis
  import opened Model
  import opened Machine
  import opened Wakeup

  const PLAIN := Job(0, 0, Waiting, 0, 3, None, [], false, None, None, None, None)

  /** What matters of the world: one fetcher whose pool takes one task, the stored ids,
      all plain, and where they are. */
  datatype Stage = Stage(ids: set<Id>, waiting: seq<Id>, active: set<Id>, tokens: nat, pc: Pc, running: nat)

  ghost predicate At(v: World, g: Stage)
  {
    && v.owed == 0 && v.fetchers == [Fetcher(g.pc, g.running, 1)]
    && v.w.s.waiting == g.waiting && v.w.s.prioritized == map[] && v.w.s.tokens == g.tokens
    && v.w.s.vault.Keys == g.ids && v.w.s.active.Keys == g.active
    && forall x :: x in v.w.s.vault ==> !v.w.s.vault[x].flow
  }

  /** The moves are possible one after the other and lead to v. */
  ghost predicate Reached(start: World, moves: seq<Move>, v: World)
  {
    AllPossible(start, moves) && Play(start, moves) == v
  }

  lemma {:induction false} PlayConcat(v: World, a: seq<Move>, b: seq<Move>)
    ensures Play(v, a + b) == Play(Play(v, a), b)
    ensures AllPossible(v, a + b) <==> AllPossible(v, a) && AllPossible(Play(v, a), b)
    decreases |a|
  {
    if a == [] {
      assert a + b == b;
    } else {
      assert (a + b)[1..] == a[1..] + b;
      PlayConcat(Move1(v, a[0]), a[1..], b);
    }
  }

  lemma PlaySingle(v: World, m: Move)
    ensures Play(v, [m]) == Move1(v, m) && (AllPossible(v, [m]) <==> Possible(v, m))
  {
    assert [m][1..] == [];
  }

  lemma ReachedNext(start: World, moves: seq<Move>, v: World, m: Move)
    requires Reached(start, moves, v) && Possible(v, m)
    ensures Reached(start, moves + [m], Move1(v, m))
  {
    PlayConcat(start, moves, [m]);
    PlaySingle(v, m);
  }

  // ---- The moves ----

  lemma AddAt(v: World, g: Stage, id: Id, m: Move)
    requires At(v, g) && id !in g.ids && m == Elsewhere(Add(id, PLAIN))
    ensures Possible(v, m)
    ensures At(Move1(v, m), g.(ids := g.ids + {id}, waiting := g.waiting + [id], tokens := g.tokens + 1))
  {
  }

  /** Handing out the head of the list. */
  lemma TakeHead(s: State, t: State)
    requires s.prioritized == map[] && s.waiting != [] && s.waiting[0] in s.vault && t == Dequeue(s, 0, 0, false)
    requires forall x :: x in s.vault ==> !s.vault[x].flow
    ensures t.waiting == s.waiting[1..] && t.prioritized == map[] && t.tokens == s.tokens
    ensures t.vault.Keys == s.vault.Keys && t.active.Keys == s.active.Keys + {s.waiting[0]}
    ensures forall x :: x in t.vault ==> !t.vault[x].flow
  {
  }

  lemma OtherTakesAt(v: World, g: Stage, m: Move)
    requires At(v, g) && g.waiting != [] && g.waiting[0] in g.ids && m == Elsewhere(TAKE)
    ensures Possible(v, m)
    ensures At(Move1(v, m), g.(waiting := g.waiting[1..], active := g.active + {g.waiting[0]}))
  {
    TakeHead(v.w.s, Effect(v.w.s, m.op));
  }

  lemma FetcherMovesAt(v: World, g: Stage, m: Move)
    requires At(v, g) && ((m == Enter(0) && g.pc == Top && g.running == 0) || (m == Cut(0) && g.pc == Bursting && g.running == 1))
    ensures Possible(v, m) && At(Move1(v, m), g.(pc := if m.Enter? then Blocked else Top))
  {
  }

  lemma WakeAt(v: World, g: Stage)
    requires At(v, g) && g.pc == Blocked && g.tokens > 0
    ensures Possible(v, Wake(0)) && At(Move1(v, Wake(0)), g.(pc := Bursting, tokens := g.tokens - 1))
  {
  }

  lemma ClearAt(v: World, g: Stage)
    requires At(v, g) && g.pc == Clearing
    ensures Possible(v, Clear(0)) && At(Move1(v, Clear(0)), g.(pc := Recatching, tokens := 0))
  {
  }

  lemma LookInVainAt(v: World, g: Stage, m: Move)
    requires At(v, g) && g.pc == Bursting && g.running == 0 && g.waiting == [] && m == Look(0, TAKE)
    ensures Possible(v, m) && At(Move1(v, m), g.(pc := Clearing))
  {
    TakeNothing(v.w.s, Effect(v.w.s, m.op));
  }

  lemma TakeNothing(s: State, t: State)
    requires s.prioritized == map[] && s.waiting == [] && t == Dequeue(s, 0, 0, false)
    ensures Next(s) == None && t == s
  {
  }

  lemma LookAgainAt(v: World, g: Stage, m: Move)
    requires At(v, g) && g.pc == Recatching && g.running == 0 && g.waiting != [] && g.waiting[0] in g.ids
    requires m == LookAgain(0, TAKE)
    ensures Possible(v, m)
    ensures At(Move1(v, m), g.(waiting := g.waiting[1..], active := g.active + {g.waiting[0]}, pc := Bursting, running := 1))
  {
    TakeHead(v.w.s, Effect(v.w.s, m.op));
  }

  lemma KilledPlain(s: State, id: Id, t: State)
    requires id in s.vault && !s.vault[id].flow && t == Kill(s, id, s.vault[id], "no", 5, 0, false)
    requires forall x :: x in s.vault ==> !s.vault[x].flow
    ensures t.waiting == s.waiting && t.prioritized == s.prioritized && t.tokens == s.tokens
    ensures t.vault.Keys == s.vault.Keys && t.active == s.active - {id} && forall x :: x in t.vault ==> !t.vault[x].flow
  {
    var c := Close(s, id, Outcome(false, "no", ""), 5);
    assert Evicted(c, c.failed, 0) == {};
    assert c.vault - {} == c.vault;
  }

  function FailNow(id: Id): Op
  {
    Fail(id, true, "no", 5, 0, 0, false)
  }

  lemma FailAt(v: World, g: Stage, id: Id, m: Move)
    requires At(v, g) && id in g.active && id in g.ids && m == Elsewhere(FailNow(id))
    ensures Possible(v, m) && At(Move1(v, m), g.(active := g.active - {id}))
  {
    KilledPlain(v.w.s, id, Effect(v.w.s, m.op));
  }

  lemma EndAt(v: World, g: Stage)
    requires At(v, g) && g.running == 1
    ensures Possible(v, End(0)) && At(Move1(v, End(0)), g.(running := 0))
  {
  }

  // ---- The run ----

  const WORLD := World(START, 0, [Fetcher(Top, 0, 1)])

  /** Job 1 is added, and taken by somebody else's burst; its token is left over. The
      fetcher wakes for it, and looks in vain. */
  lemma LookedInVain() returns (moves: seq<Move>, v: World)
    ensures Reached(WORLD, moves, v) && At(v, Stage({1}, [], {1}, 0, Clearing, 0))
  {
    var g := Stage({}, [], {}, 0, Top, 0);
    assert At(WORLD, g);
    moves, v := TakenElsewhere(g);
    FetcherMovesAt(v, Stage({1}, [], {1}, 1, Top, 0), Enter(0));
    ReachedNext(WORLD, moves, v, Enter(0));
    moves, v := moves + [Enter(0)], Move1(v, Enter(0));
    WakeAt(v, Stage({1}, [], {1}, 1, Blocked, 0));
    ReachedNext(WORLD, moves, v, Wake(0));
    moves, v := moves + [Wake(0)], Move1(v, Wake(0));
    LookInVainAt(v, Stage({1}, [], {1}, 0, Bursting, 0), Look(0, TAKE));
    ReachedNext(WORLD, moves, v, Look(0, TAKE));
    moves, v := moves + [Look(0, TAKE)], Move1(v, Look(0, TAKE));
  }

  lemma TakenElsewhere(g: Stage) returns (moves: seq<Move>, v: World)
    requires At(WORLD, g) && g == Stage({}, [], {}, 0, Top, 0)
    ensures Reached(WORLD, moves, v) && At(v, Stage({1}, [], {1}, 1, Top, 0))
  {
    moves, v := [], WORLD;
    AddAt(v, g, 1, Elsewhere(Add(1, PLAIN)));
    ReachedNext(WORLD, moves, v, Elsewhere(Add(1, PLAIN)));
    moves, v := moves + [Elsewhere(Add(1, PLAIN))], Move1(v, Elsewhere(Add(1, PLAIN)));
    assert [1][1..] == [] && [] + [1] == [1] && {} + {1} == {1};
    OtherTakesAt(v, Stage({1}, [1], {}, 1, Top, 0), Elsewhere(TAKE));
    ReachedNext(WORLD, moves, v, Elsewhere(TAKE));
    moves, v := moves + [Elsewhere(TAKE)], Move1(v, Elsewhere(TAKE));
  }

  /** Jobs 3 and 4 are added; the fetcher deletes both tokens, takes 3, and is full. */
  lemma FullAfterClearing(before: seq<Move>, u: World) returns (moves: seq<Move>, v: World)
    requires Reached(WORLD, before, u) && At(u, Stage({1}, [], {1}, 0, Clearing, 0))
    ensures Reached(WORLD, moves, v) && At(v, Stage({1, 3, 4}, [4], {1, 3}, 0, Bursting, 1))
  {
    moves, v := TwoAdded(before, u);
    ClearAt(v, Stage({1, 3, 4}, [3, 4], {1}, 2, Clearing, 0));
    ReachedNext(WORLD, moves, v, Clear(0));
    moves, v := moves + [Clear(0)], Move1(v, Clear(0));
    assert [3, 4][1..] == [4] && {1} + {3} == {1, 3};
    LookAgainAt(v, Stage({1, 3, 4}, [3, 4], {1}, 0, Recatching, 0), LookAgain(0, TAKE));
    ReachedNext(WORLD, moves, v, LookAgain(0, TAKE));
    moves, v := moves + [LookAgain(0, TAKE)], Move1(v, LookAgain(0, TAKE));
  }

  lemma TwoAdded(before: seq<Move>, u: World) returns (moves: seq<Move>, v: World)
    requires Reached(WORLD, before, u) && At(u, Stage({1}, [], {1}, 0, Clearing, 0))
    ensures Reached(WORLD, moves, v) && At(v, Stage({1, 3, 4}, [3, 4], {1}, 2, Clearing, 0))
  {
    assert {1} + {3} == {1, 3} && [] + [3] == [3];
    assert {1, 3} + {4} == {1, 3, 4} && [3] + [4] == [3, 4];
    moves, v := OneAdded(before, u, Stage({1}, [], {1}, 0, Clearing, 0), 3);
    moves, v := OneAdded(moves, v, Stage({1, 3}, [3], {1}, 1, Clearing, 0), 4);
  }

  lemma OneAdded(before: seq<Move>, u: World, g: Stage, id: Id) returns (moves: seq<Move>, v: World)
    requires Reached(WORLD, before, u) && At(u, g) && id !in g.ids
    ensures Reached(WORLD, moves, v)
    ensures At(v, g.(ids := g.ids + {id}, waiting := g.waiting + [id], tokens := g.tokens + 1))
  {
    var m := Elsewhere(Add(id, PLAIN));
    AddAt(u, g, id, m);
    ReachedNext(WORLD, before, u, m);
    moves, v := before + [m], Move1(u, m);
  }

  /** The burst is cut, job 3 dies, and the fetcher blocks again. */
  lemma BlockedAgain(before: seq<Move>, u: World) returns (moves: seq<Move>, v: World)
    requires Reached(WORLD, before, u) && At(u, Stage({1, 3, 4}, [4], {1, 3}, 0, Bursting, 1))
    ensures Reached(WORLD, moves, v) && At(v, Stage({1, 3, 4}, [4], {1}, 0, Blocked, 0))
  {
    moves, v := CutAndFailed(before, u);
    EndAt(v, Stage({1, 3, 4}, [4], {1}, 0, Top, 1));
    ReachedNext(WORLD, moves, v, End(0));
    moves, v := moves + [End(0)], Move1(v, End(0));
    FetcherMovesAt(v, Stage({1, 3, 4}, [4], {1}, 0, Top, 0), Enter(0));
    ReachedNext(WORLD, moves, v, Enter(0));
    moves, v := moves + [Enter(0)], Move1(v, Enter(0));
  }

  lemma CutAndFailed(before: seq<Move>, u: World) returns (moves: seq<Move>, v: World)
    requires Reached(WORLD, before, u) && At(u, Stage({1, 3, 4}, [4], {1, 3}, 0, Bursting, 1))
    ensures Reached(WORLD, moves, v) && At(v, Stage({1, 3, 4}, [4], {1}, 0, Top, 1))
  {
    assert {1, 3} - {3} == {1};
    FetcherMovesAt(u, Stage({1, 3, 4}, [4], {1, 3}, 0, Bursting, 1), Cut(0));
    ReachedNext(WORLD, before, u, Cut(0));
    moves, v := before + [Cut(0)], Move1(u, Cut(0));
    FailAt(v, Stage({1, 3, 4}, [4], {1, 3}, 0, Top, 1), 3, Elsewhere(FailNow(3)));
    ReachedNext(WORLD, moves, v, Elsewhere(FailNow(3)));
    moves, v := moves + [Elsewhere(FailNow(3))], Move1(v, Elsewhere(FailNow(3)));
  }

  /** With room for one task, which is the default, a run of legal steps ends with the
      fetcher blocked, no token, and job 4 stored and queued. */
  lemma FullPoolLosesTheWakeup() returns (moves: seq<Move>)
    ensures AllPossible(WORLD, moves)
    ensures var v := Play(WORLD, moves);
            Lost(v) && v.fetchers == [Fetcher(Blocked, 0, 1)] && v.w.s.waiting == [4] && 4 in v.w.s.vault
  {
    var v;
    moves, v := LookedInVain();
    moves, v := FullAfterClearing(moves, v);
    moves, v := BlockedAgain(moves, v);
    assert 4 in v.w.s.vault.Keys;
  }
}

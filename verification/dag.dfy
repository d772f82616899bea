/**
 The dependency counters: how many parents a parked job still waits for.
 */
module Dag {
  import opened Redis
  import opened Model
  import opened Machine

  /** A job is parked while it awaits a parent, and its counter says how many. */
  ghost predicate Counters(s: State, awaits: map<Id, set<Id>>)
  {
    && s.count.Keys == s.blocked
    && s.named == s.blocked
    && forall j :: CounterOf(s, awaits, j)
  }

  ghost predicate CounterOf(s: State, awaits: map<Id, set<Id>>, j: Id)
  {
    && (j in s.blocked <==> Awaiting(awaits, j) != {})
    && (j in s.count ==> s.count[j] == |Awaiting(awaits, j)|)
  }

  // ---- Registration ----

  lemma PendingCons(s: State, ps: seq<Id>)
    requires ps != []
    ensures Pending(s, ps) == Pending(s, ps[1..]) + if Done(s, ps[0]) then {} else {ps[0]}
  {
    assert ps == [ps[0]] + ps[1..];
  }

  lemma PendingOnceCons(s: State, ps: seq<Id>)
    requires ps != []
    ensures PendingOnce(s, ps) <==> PendingOnce(s, ps[1..]) && (Done(s, ps[0]) || ps[0] !in ps[1..])
  {
    var rest := ps[1..];
    if PendingOnce(s, ps) {
      forall i, j | 0 <= i < j < |rest| && rest[i] == rest[j]
        ensures Done(s, rest[i])
      {
        assert ps[i + 1] == ps[j + 1];
      }
    } else {
      var i, j :| 0 <= i < j < |ps| && ps[i] == ps[j] && !Done(s, ps[i]);
      if i > 0 {
        assert rest[i - 1] == rest[j - 1];
      } else {
        assert rest[j - 1] == ps[0];
      }
    }
  }

  /** addJob counts list entries but stores a set: the two agree exactly when no
      pending parent is listed twice. */
  lemma {:induction false} CountIsExactIff(s: State, ps: seq<Id>)
    ensures CountPending(s, ps) >= |Pending(s, ps)|
    ensures CountPending(s, ps) == |Pending(s, ps)| <==> PendingOnce(s, ps)
    decreases |ps|
  {
    if ps == [] {
    } else {
      CountIsExactIff(s, ps[1..]);
      PendingCons(s, ps);
      PendingOnceCons(s, ps);
      assert ps[0] in ps[1..] && !Done(s, ps[0]) <==> ps[0] in Pending(s, ps[1..]);
    }
  }

  // ---- unblock ----

  /** What one run of the loop body leaves of a child's counter. */
  ghost predicate Stepped(s: State, t: State, c: Id)
  {
    var left := CountOf(s, c) - 1;
    if left > 0 || c !in s.named
    then c in t.count && t.count[c] == left && (c in t.named <==> c in s.named) && (c in t.blocked <==> c in s.blocked)
    else c !in t.count && c !in t.named && c !in t.blocked
  }

  ghost predicate Untouched(s: State, t: State, c: Id)
  {
    && (c in t.count <==> c in s.count) && CountOf(t, c) == CountOf(s, c)
    && (c in t.named <==> c in s.named) && (c in t.blocked <==> c in s.blocked)
  }

  lemma UnblockOneFields(s: State, p: Id, c: Id)
    ensures var t := UnblockOne(s, p, c);
            && t.count == (if Spent(s, c) then s.count - {c} else s.count[c := CountOf(s, c) - 1])
            && t.named == (if Spent(s, c) then s.named - {c} else s.named)
            && t.blocked == (if Spent(s, c) then s.blocked - {c} else s.blocked)
  {
    if Spent(s, c) && c !in s.blocked {
      assert s.blocked - {c} == s.blocked;
    }
  }

  lemma UnparkFrame(s: State, c: Id)
    ensures SameBut(s, Unpark(s, c), {})
  {
  }

  lemma UncountFrame(s: State, p: Id, c: Id)
    ensures SameBut(s, Uncount(s, p, c), {(p, c)})
  {
  }

  lemma UnblockOneFrame(s: State, p: Id, c: Id)
    ensures SameBut(s, UnblockOne(s, p, c), {(p, c)})
  {
    var t := Uncount(s, p, c);
    UncountFrame(s, p, c);
    UnparkFrame(t, c);
  }

  lemma UnblockOneSteps(s: State, p: Id, c: Id, x: Id)
    ensures if x == c then Stepped(s, UnblockOne(s, p, c), x) else Untouched(s, UnblockOne(s, p, c), x)
  {
    UnblockOneFields(s, p, c);
  }

  lemma UntouchedThen(s: State, t: State, u: State, x: Id)
    requires Untouched(s, t, x)
    ensures Stepped(t, u, x) ==> Stepped(s, u, x)
    ensures Untouched(t, u, x) ==> Untouched(s, u, x)
  {
  }

  lemma ThenUntouched(s: State, t: State, u: State, x: Id)
    requires Stepped(s, t, x) && Untouched(t, u, x)
    ensures Stepped(s, u, x)
  {
  }

  /** unblock runs the body once for every child, and touches no other counter. */
  lemma {:induction false} UnblockSteps(s: State, p: Id, order: seq<Id>, x: Id)
    requires NoDup(order)
    ensures if x in order then Stepped(s, UnblockAll(s, p, order), x) else Untouched(s, UnblockAll(s, p, order), x)
    decreases |order|
  {
    if order == [] {
    } else {
      var t := UnblockOne(s, p, order[0]);
      UnblockOneSteps(s, p, order[0], x);
      UnblockSteps(t, p, order[1..], x);
      if x == order[0] {
        ThenUntouched(s, t, UnblockAll(t, p, order[1..]), x);
      } else {
        UntouchedThen(s, t, UnblockAll(t, p, order[1..]), x);
      }
    }
  }

  /** Apart from counters and places in the queue, only edges go. */
  ghost predicate SameBut(s: State, t: State, edges: set<(Id, Id)>)
  {
    && t.vault == s.vault && t.completed == s.completed && t.failed == s.failed && t.dlq == s.dlq
    && t.active == s.active && t.delayed == s.delayed
    && t.childEdges == s.childEdges - edges && t.parentEdges == s.parentEdges - edges
  }

  lemma SameButChain(s: State, t: State, u: State, a: set<(Id, Id)>, b: set<(Id, Id)>)
    requires SameBut(s, t, a) && SameBut(t, u, b)
    ensures SameBut(s, u, a + b)
  {
  }

  lemma {:induction false} UnblockFrame(s: State, p: Id, order: seq<Id>)
    ensures SameBut(s, UnblockAll(s, p, order), EdgesFrom(p, order))
    decreases |order|
  {
    if order == [] {
    } else {
      var t := UnblockOne(s, p, order[0]);
      UnblockOneFrame(s, p, order[0]);
      UnblockFrame(t, p, order[1..]);
      SameButChain(s, t, UnblockAll(t, p, order[1..]), {(p, order[0])}, EdgesFrom(p, order[1..]));
      EdgesFromCons(p, order);
    }
  }

  function EdgesFrom(p: Id, cs: seq<Id>): set<(Id, Id)>
  {
    set c | c in cs :: (p, c)
  }

  lemma EdgesFromCons(p: Id, cs: seq<Id>)
    requires cs != []
    ensures EdgesFrom(p, cs) == {(p, cs[0])} + EdgesFrom(p, cs[1..])
  {
    assert cs == [cs[0]] + cs[1..];
  }

  lemma CounterAfterUnblock(s: State, t: State, awaits: map<Id, set<Id>>, p: Id, c: Id)
    requires Counters(s, awaits) && Stepped(s, t, c) && p in Awaiting(awaits, c)
    ensures CounterOf(t, Without(awaits, p), c)
    ensures (c in t.count <==> c in t.blocked) && (c in t.named <==> c in t.blocked)
  {
    assert CounterOf(s, awaits, c);
    assert c in s.count.Keys;
    var before := Awaiting(awaits, c);
    assert Awaiting(Without(awaits, p), c) == before - {p};
    assert |before - {p}| == |before| - 1;
  }

  lemma CounterUntouched(s: State, t: State, awaits: map<Id, set<Id>>, p: Id, c: Id)
    requires Counters(s, awaits) && Untouched(s, t, c) && p !in Awaiting(awaits, c)
    ensures CounterOf(t, Without(awaits, p), c)
    ensures (c in t.count <==> c in t.blocked) && (c in t.named <==> c in t.blocked)
  {
    assert CounterOf(s, awaits, c);
    assert c in s.count.Keys <==> c in s.blocked;
    assert Awaiting(Without(awaits, p), c) == Awaiting(awaits, c);
  }

  /** A child that does not await p gets a counter that is one too low, or one
      it should not have. */
  lemma CounterSpoiled(s: State, t: State, awaits: map<Id, set<Id>>, p: Id, c: Id)
    requires Counters(s, awaits) && Stepped(s, t, c) && p !in Awaiting(awaits, c)
    ensures !(CounterOf(t, Without(awaits, p), c) && (c in t.count ==> c in t.blocked))
  {
    assert CounterOf(s, awaits, c);
    assert c in s.count.Keys <==> c in s.blocked;
    assert Awaiting(Without(awaits, p), c) == Awaiting(awaits, c);
  }

  lemma CounterMissed(s: State, t: State, awaits: map<Id, set<Id>>, p: Id, c: Id)
    requires Counters(s, awaits) && Untouched(s, t, c) && p in Awaiting(awaits, c)
    ensures !(CounterOf(t, Without(awaits, p), c) && (c in t.blocked ==> c in t.count))
  {
    assert CounterOf(s, awaits, c);
    assert c in s.count.Keys;
    var before := Awaiting(awaits, c);
    assert Awaiting(Without(awaits, p), c) == before - {p};
    assert |before - {p}| == |before| - 1;
  }

  /** Completing p with unblock keeps every counter right exactly when the
      children set of p holds the jobs that await p, and no other. */
  lemma UnblockKeepsCountersIff(s: State, awaits: map<Id, set<Id>>, p: Id, order: seq<Id>)
    requires Counters(s, awaits) && NoDup(order)
    ensures Counters(UnblockAll(s, p, order), Without(awaits, p))
       <==> forall c :: c in order <==> p in Awaiting(awaits, c)
  {
    var t := UnblockAll(s, p, order);
    if forall c :: c in order <==> p in Awaiting(awaits, c) {
      UnblockKeepsCounters(s, awaits, p, order);
    } else {
      var c :| !(c in order <==> p in Awaiting(awaits, c));
      UnblockSteps(s, p, order, c);
      if c in order {
        CounterSpoiled(s, t, awaits, p, c);
      } else {
        CounterMissed(s, t, awaits, p, c);
      }
      assert Counters(t, Without(awaits, p)) ==> CounterOf(t, Without(awaits, p), c) && (c in t.count.Keys <==> c in t.blocked);
    }
  }

  lemma UnblockKeepsCounters(s: State, awaits: map<Id, set<Id>>, p: Id, order: seq<Id>)
    requires Counters(s, awaits) && NoDup(order)
    requires forall c :: c in order <==> p in Awaiting(awaits, c)
    ensures Counters(UnblockAll(s, p, order), Without(awaits, p))
  {
    var t := UnblockAll(s, p, order);
    forall c
      ensures CounterOf(t, Without(awaits, p), c)
      ensures (c in t.count.Keys <==> c in t.blocked) && (c in t.named <==> c in t.blocked)
    {
      UnblockSteps(s, p, order, c);
      if c in order {
        CounterAfterUnblock(s, t, awaits, p, c);
      } else {
        CounterUntouched(s, t, awaits, p, c);
      }
    }
  }

  /** A counter is never spent while its job is parked: the second release path,
      promoteIfUnblocked, has nothing left to do. */
  lemma PromoteIfUnblockedIsIdle(s: State, awaits: map<Id, set<Id>>, id: Id, priority: nat, timestamp: int)
    requires Counters(s, awaits)
    ensures PromoteIfUnblocked(s, id, priority, timestamp) == s
  {
    if id in s.count {
      assert id in s.count.Keys;
      assert CounterOf(s, awaits, id);
    }
  }
}

/**
 Queued ids without a stored job, and when they cost a fetcher its wake-up.
 */
module Ghosts {
  import opened Redis
  import opened Model
  import opened Reach
  import opened Dispatch
  import opened Dependents
  import opened Removals

  /** What a dequeue hands out, and what it leaves queued, whether or not all are stored. */
  lemma DequeueDrops(s: State, now: int, lock: int)
    ensures Next(s) == if Queued(s) != [] && Queued(s)[0] in s.vault then Some(Queued(s)[0]) else None
    ensures Queued(Dequeue(s, now, lock, false)) == Tail(Queued(s))
    ensures Dequeue(s, now, lock, false).vault.Keys == s.vault.Keys
  {
    PoppedIsFirst(s);
    DequeueKeys(s, now, lock, false);
    if Next(s).Some? {
      PickQueued(Pop(s), Next(s).value, now, now + lock);
    }
  }

  /** A burst of one fetcher that nobody disturbs, with room for so many tasks and its
      clock readings: it dequeues while it finds jobs and has room; on an empty dequeue
      it deletes the tokens and looks once more, and gives up when that is empty too. */
  function Burst(s: State, room: nat, clocks: nat -> Clock, i: nat): State
    decreases |Queued(s)|, 1
  {
    if room == 0 then s
    else
      var t := Dequeue(s, clocks(i).now, clocks(i).lock, false);
      DequeueDrops(s, clocks(i).now, clocks(i).lock);
      if Next(s).Some? then Burst(t, room - 1, clocks, i + 1) else Recatch(t.(tokens := 0), room, clocks, i + 1)
  }

  /** The rest of the burst once the tokens are deleted. */
  function Recatch(s: State, room: nat, clocks: nat -> Clock, i: nat): State
    decreases |Queued(s)|, 0
  {
    if room == 0 then s
    else
      var t := Dequeue(s, clocks(i).now, clocks(i).lock, false);
      DequeueDrops(s, clocks(i).now, clocks(i).lock);
      if Next(s).Some? then Burst(t, room - 1, clocks, i + 1) else t
  }

  // ---- What a burst leaves, on lists ----

  function LeftOver(q: seq<Id>, stored: set<Id>, room: nat): seq<Id>
    decreases |q|, 1
  {
    if room == 0 || q == [] then q
    else if q[0] in stored then LeftOver(q[1..], stored, room - 1)
    else LeftOverAgain(q[1..], stored, room)
  }

  /** After an empty dequeue the next id decides. */
  function LeftOverAgain(r: seq<Id>, stored: set<Id>, room: nat): seq<Id>
    decreases |r|, 0
  {
    if room == 0 then r
    else if r != [] && r[0] in stored then LeftOver(r[1..], stored, room - 1)
    else Tail(r)
  }

  predicate TwoGhostsInFront(q: seq<Id>, stored: set<Id>)
  {
    exists i :: 0 <= i < |q| - 2 && q[i] !in stored && q[i + 1] !in stored
  }

  function StoredIn(q: seq<Id>, stored: set<Id>): nat
  {
    if q == [] then 0 else (if q[0] in stored then 1 else 0) + StoredIn(q[1..], stored)
  }

  /** Before the last id there are as many stored jobs as there is room for, or two
      neighbours without a job have something behind them. */
  predicate Leaves(q: seq<Id>, stored: set<Id>, room: nat)
  {
    q != [] && (StoredIn(q[..|q| - 1], stored) >= room || TwoGhostsInFront(q, stored))
  }

  lemma GhostsCons(q: seq<Id>, stored: set<Id>)
    requires q != []
    ensures TwoGhostsInFront(q, stored)
       <==> (|q| > 2 && q[0] !in stored && q[1] !in stored) || TwoGhostsInFront(q[1..], stored)
  {
    if TwoGhostsInFront(q, stored) {
      var i :| 0 <= i < |q| - 2 && q[i] !in stored && q[i + 1] !in stored;
      if i > 0 {
        assert q[1..][i - 1] !in stored && q[1..][i - 1 + 1] !in stored;
      }
    }
    if TwoGhostsInFront(q[1..], stored) {
      var i :| 0 <= i < |q[1..]| - 2 && q[1..][i] !in stored && q[1..][i + 1] !in stored;
      assert q[i + 1] !in stored && q[i + 1 + 1] !in stored;
    }
  }

  /** One id further. */
  lemma LeavesCons(q: seq<Id>, stored: set<Id>, room: nat)
    requires q != [] && room > 0
    ensures q[0] in stored ==> (Leaves(q, stored, room) <==> Leaves(q[1..], stored, room - 1))
    ensures q[0] !in stored ==>
              (Leaves(q, stored, room) <==> Leaves(q[1..], stored, room) || (|q| > 2 && q[1] !in stored))
  {
    GhostsCons(q, stored);
    if |q| > 1 {
      assert q[..|q| - 1][1..] == q[1..][..|q[1..]| - 1];
    }
  }

  lemma {:induction false} LeftOverIff(q: seq<Id>, stored: set<Id>, room: nat)
    ensures LeftOver(q, stored, room) != [] <==> Leaves(q, stored, room)
    decreases |q|
  {
    if room == 0 || q == [] {
    } else {
      LeavesCons(q, stored, room);
      if q[0] in stored {
        LeftOverIff(q[1..], stored, room - 1);
      } else if |q| > 1 {
        LeavesCons(q[1..], stored, room);
        if q[1] in stored {
          LeftOverIff(q[1..][1..], stored, room - 1);
        }
      }
    }
  }

  // ---- What a burst leaves of the queue ----

  lemma {:induction false} BurstLeaves(s: State, room: nat, clocks: nat -> Clock, i: nat, stored: set<Id>)
    requires stored == s.vault.Keys
    ensures Queued(Burst(s, room, clocks, i)) == LeftOver(Queued(s), stored, room)
    decreases |Queued(s)|, 1
  {
    if room == 0 {
    } else {
      var t := Dequeue(s, clocks(i).now, clocks(i).lock, false);
      DequeueDrops(s, clocks(i).now, clocks(i).lock);
      if Next(s).Some? {
        BurstLeaves(t, room - 1, clocks, i + 1, stored);
      } else {
        RecatchLeaves(t.(tokens := 0), room, clocks, i + 1, stored);
      }
    }
  }

  lemma {:induction false} RecatchLeaves(s: State, room: nat, clocks: nat -> Clock, i: nat, stored: set<Id>)
    requires stored == s.vault.Keys
    ensures Queued(Recatch(s, room, clocks, i)) == LeftOverAgain(Queued(s), stored, room)
    decreases |Queued(s)|, 0
  {
    if room == 0 {
    } else {
      var t := Dequeue(s, clocks(i).now, clocks(i).lock, false);
      DequeueDrops(s, clocks(i).now, clocks(i).lock);
      if Next(s).Some? {
        BurstLeaves(t, room - 1, clocks, i + 1, stored);
      }
    }
  }

  lemma PickTokens(s: State, id: Id, stamp: int, lease: int)
    requires id in s.vault
    ensures Pick(s, id, stamp, lease).tokens == s.tokens
  {
  }

  lemma DequeueTokens(s: State, now: int, lock: int)
    ensures Dequeue(s, now, lock, false).tokens == s.tokens
  {
    if Next(s).Some? {
      PickTokens(Pop(s), Next(s).value, now, now + lock);
    }
  }

  /** The pool fills up before any dequeue comes back empty. */
  predicate FillsAtOnce(q: seq<Id>, stored: set<Id>, room: nat)
  {
    |q| >= room && forall k :: 0 <= k < room ==> q[k] in stored
  }

  lemma FillsCons(q: seq<Id>, stored: set<Id>, room: nat)
    requires room > 0
    ensures FillsAtOnce(q, stored, room) <==> q != [] && q[0] in stored && FillsAtOnce(Tail(q), stored, room - 1)
  {
    if q != [] && q[0] in stored && FillsAtOnce(Tail(q), stored, room - 1) {
      forall k | 0 <= k < room
        ensures q[k] in stored
      {
        if k > 0 {
          assert q[k] == Tail(q)[k - 1];
        }
      }
    }
  }

  /** The tokens are deleted unless the pool fills up first. */
  lemma {:induction false} BurstTokens(s: State, room: nat, clocks: nat -> Clock, i: nat, stored: set<Id>)
    requires stored == s.vault.Keys
    ensures Burst(s, room, clocks, i).tokens == if FillsAtOnce(Queued(s), stored, room) then s.tokens else 0
    decreases |Queued(s)|, 1
  {
    if room == 0 {
    } else {
      var t := Dequeue(s, clocks(i).now, clocks(i).lock, false);
      DequeueDrops(s, clocks(i).now, clocks(i).lock);
      FillsCons(Queued(s), stored, room);
      if Next(s).Some? {
        DequeueTokens(s, clocks(i).now, clocks(i).lock);
        BurstTokens(t, room - 1, clocks, i + 1, stored);
      } else {
        RecatchTokens(t.(tokens := 0), room, clocks, i + 1, stored);
      }
    }
  }

  lemma {:induction false} RecatchTokens(s: State, room: nat, clocks: nat -> Clock, i: nat, stored: set<Id>)
    requires stored == s.vault.Keys && s.tokens == 0
    ensures Recatch(s, room, clocks, i).tokens == 0
    decreases |Queued(s)|, 0
  {
    if room == 0 {
    } else {
      var t := Dequeue(s, clocks(i).now, clocks(i).lock, false);
      DequeueDrops(s, clocks(i).now, clocks(i).lock);
      DequeueTokens(s, clocks(i).now, clocks(i).lock);
      if Next(s).Some? {
        BurstTokens(t, room - 1, clocks, i + 1, stored);
      }
    }
  }

  /** An undisturbed burst of single dequeues ends with work queued and no token exactly
      when the queue holds more than it can take, by its room or for two neighbours
      without a job, and either no token was there or it came back empty once. */
  lemma WakeupLostIff(s: State, room: nat, clocks: nat -> Clock)
    ensures var t := Burst(s, room, clocks, 0);
            var stored := s.vault.Keys;
            t.tokens == 0 && Queued(t) != []
            <==> Leaves(Queued(s), stored, room) && (s.tokens == 0 || !FillsAtOnce(Queued(s), stored, room))
  {
    BurstLeaves(s, room, clocks, 0, s.vault.Keys);
    LeftOverIff(Queued(s), s.vault.Keys, room);
    BurstTokens(s, room, clocks, 0, s.vault.Keys);
  }

  lemma {:induction false} StoredInAll(q: seq<Id>, stored: set<Id>)
    requires forall x :: x in q ==> x in stored
    ensures StoredIn(q, stored) == |q|
  {
    if q == [] {
    } else {
      StoredInAll(q[1..], stored);
    }
  }

  lemma LeavesWhenAllStored(q: seq<Id>, stored: set<Id>, room: nat)
    requires forall x :: x in q ==> x in stored
    ensures Leaves(q, stored, room) <==> |q| > room
    ensures LeftOverAgain(q, stored, room) == LeftOver(q, stored, room)
  {
    if q != [] {
      StoredInAll(q[..|q| - 1], stored);
    }
  }

  /** Even with a job behind every queued id: once the tokens are deleted, the rest of
      the burst leaves work queued, and no token, exactly when more is queued than the
      pool has room for. */
  lemma ClearLosesIff(s: State, room: nat, clocks: nat -> Clock)
    requires AllStored(s)
    ensures var t := Recatch(s.(tokens := 0), room, clocks, 0);
            t.tokens == 0 && (Queued(t) != [] <==> |Queued(s)| > room)
  {
    var u := s.(tokens := 0);
    RecatchLeaves(u, room, clocks, 0, u.vault.Keys);
    RecatchTokens(u, room, clocks, 0, u.vault.Keys);
    assert Queued(u) == Queued(s);
    LeavesWhenAllStored(Queued(u), u.vault.Keys, room);
    LeftOverIff(Queued(u), u.vault.Keys, room);
  }

  // ---- How the code gets there ----

  const URGENT := Job(1, EPOCH_BASE, Waiting, 0, 3, None, [], false, None, None, None, None)
  const PLAIN := Job(0, EPOCH_BASE, Waiting, 0, 3, None, [], false, None, None, None, None)

  function TwoUrgentOnePlain(): State
  {
    AddJob(AddJob(AddJob(EMPTY, 1, URGENT), 2, URGENT), 3, PLAIN)
  }

  lemma ThreeAdded()
    ensures var s := TwoUrgentOnePlain();
            s.vault.Keys == {1, 2, 3} && s.prioritized.Keys == {1, 2} && s.waiting == [3] && s.childEdges == {}
  {
  }

  lemma DeleteUrgent(s: State, x: Id)
    requires s.childEdges == {} && s.waiting == [3] && x != 3
    ensures var t := Deletion(s, [x]);
            && Collects(s, x, [x]) && t.vault.Keys == s.vault.Keys - {x} && t.prioritized == s.prioritized
            && t.waiting == [3] && t.childEdges == {}
  {
    CollectsItself(s, x);
    DeleteAllGone(Cut(s, Members([x])), [x]);
    assert Members([x]) == {x};
    assert [3][1..] == [];
    assert Keep([3], {x}) == [3];
  }

  /** Two prioritized jobs are deleted, and stay listed, since deletion does not look
      there. The fetcher that comes next, whatever room it has, blocks with the third job queued, and no token. */
  lemma DeletionLosesTheWakeup(room: nat, clocks: nat -> Clock)
    requires room > 0
    ensures var s := TwoUrgentOnePlain();
            var t := Deletion(Deletion(s, [1]), [2]);
            var u := Burst(t, room, clocks, 0);
            && Collects(s, 1, [1]) && Collects(Deletion(s, [1]), 2, [2])
            && u.tokens == 0 && Queued(u) != [] && t.vault.Keys == {3}
  {
    var s := TwoUrgentOnePlain();
    var t := Deletion(Deletion(s, [1]), [2]);
    ThreeAdded();
    DeleteUrgent(s, 1);
    DeleteUrgent(Deletion(s, [1]), 2);
    GhostsListedFirst(t);
    WakeupLostIff(t, room, clocks);
  }

  lemma GhostsListedFirst(t: State)
    requires t.vault.Keys == {3} && t.prioritized.Keys == {1, 2} && t.waiting == [3]
    ensures TwoGhostsInFront(Queued(t), t.vault.Keys)
    ensures forall room :: room > 0 ==> !FillsAtOnce(Queued(t), t.vault.Keys, room)
  {
    assert |t.prioritized| == |t.prioritized.Keys| == 2;
    assert Queued(t)[0] == ByScore(t.prioritized)[0] && Queued(t)[0 + 1] == ByScore(t.prioritized)[1];
    assert Queued(t)[0] in t.prioritized.Keys && Queued(t)[0 + 1] in t.prioritized.Keys;
  }
}

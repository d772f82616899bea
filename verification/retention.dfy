/**
 Retention: which settled jobs finalizeJob deletes.
 */
module Retention {
  import opened Redis
  import opened Model

  /** The members that come after x. */
  function Newer(z: ZSet, x: Id): set<Id>
    requires x in z
  {
    set y | y in z && Before(z, x, y)
  }

  lemma {:induction false} MembersSize(r: seq<Id>)
    requires NoDup(r)
    ensures |Members(r)| == |r|
  {
    if r == [] {
    } else {
      MembersSize(r[1..]);
      assert r == [r[0]] + r[1..];
      assert Members(r) == {r[0]} + Members(r[1..]);
      assert r[0] !in Members(r[1..]);
    }
  }

  lemma LaterIsAfter(z: ZSet, r: seq<Id>, i: nat, y: Id)
    requires Ordered(z, r) && i < |r|
    requires y in r
    ensures y in r[i + 1..] <==> Before(z, r[i], y)
  {
    var k :| 0 <= k < |r| && r[k] == y;
    if k > i {
      assert r[i + 1..][k - i - 1] == y;
    } else {
      var tail := r[i + 1..];
      forall m | 0 <= m < |tail|
        ensures tail[m] != y
      {
        assert tail[m] == r[i + 1 + m];
        assert Before(z, r[k], r[i + 1 + m]);
      }
    }
  }

  lemma TailNoDup(r: seq<Id>, i: nat)
    requires NoDup(r) && i <= |r|
    ensures NoDup(r[i..])
  {
  }

  /** Rank and number of newer members say the same. */
  lemma RankOf(z: ZSet, i: nat)
    requires i < |z|
    ensures ByScore(z)[i] in z && |Newer(z, ByScore(z)[i])| == |z| - 1 - i
  {
    ByScoreSorted(z);
    RankIn(z, ByScore(z), i);
  }

  lemma RankIn(z: ZSet, r: seq<Id>, i: nat)
    requires Ordered(z, r) && NoDup(r) && i < |r| && forall x :: x in r <==> x in z
    ensures |Newer(z, r[i])| == |r| - 1 - i
  {
    NewerAre(z, r, i);
    TailNoDup(r, i + 1);
    MembersSize(r[i + 1..]);
  }

  lemma NewerAre(z: ZSet, r: seq<Id>, i: nat)
    requires Ordered(z, r) && i < |r| && forall x :: x in r <==> x in z
    ensures Newer(z, r[i]) == Members(r[i + 1..])
  {
    forall y
      ensures y in Newer(z, r[i]) <==> y in r[i + 1..]
    {
      if y in r {
        LaterIsAfter(z, r, i, y);
      } else {
        assert y !in r[i + 1..];
      }
    }
  }

  /** The retention loop looks at exactly the members that `keep` others are newer than. */
  lemma BeyondIff(z: ZSet, keep: int, x: Id)
    requires keep > 0 && x in z
    ensures x in Beyond(z, keep) <==> |Newer(z, x)| >= keep
  {
    var r := ByScore(z);
    assert x in r;
    var i :| 0 <= i < |r| && r[i] == x;
    RankOf(z, i);
    ByScoreSorted(z);
    if |z| > keep {
      InPrefixIff(r, |z| - keep, i);
    }
  }

  lemma InPrefixIff(r: seq<Id>, n: nat, i: nat)
    requires NoDup(r) && n <= |r| && i < |r|
    ensures r[i] in r[..n] <==> i < n
  {
    if i < n {
      assert r[..n][i] == r[i];
    }
  }

  lemma ErasedAre(s: State, onCompleted: bool, keep: int, x: Id)
    ensures var z := if onCompleted then s.completed else s.failed;
            var t := Trim(s, onCompleted, keep);
            x in (if onCompleted then t.completed else t.failed) <==> x in z && (x !in Beyond(z, keep) || Pinned(s, x))
  {
  }

  /** Retained are exactly the `keep` newest, and the older ones a flow still needs. */
  lemma RetainedExactly(s: State, id: Id, o: Outcome, now: int, keep: int, publish: bool, x: Id)
    requires keep > 0
    ensures var z := if o.completed then s.completed[id := now] else s.failed[id := now];
            var t := Finalize(s, id, o, now, keep, publish);
            x in (if o.completed then t.completed else t.failed)
            <==> x in z && (|Newer(z, x)| < keep || Pinned(s, x))
  {
    var s1 := Close(s, id, o, now);
    var z := if o.completed then s1.completed else s1.failed;
    assert Pinned(s1, x) <==> Pinned(s, x);
    ErasedAre(s1, o.completed, keep, x);
    if x in z {
      BeyondIff(z, keep, x);
    }
  }

  /** Without a positive limit everything is retained. */
  lemma NoLimitRetainsAll(s: State, id: Id, o: Outcome, now: int, keep: int, publish: bool)
    requires keep <= 0
    ensures Finalize(s, id, o, now, keep, publish).vault.Keys == s.vault.Keys
    ensures o.completed ==> Finalize(s, id, o, now, keep, publish).completed == s.completed[id := now]
    ensures !o.completed ==> Finalize(s, id, o, now, keep, publish).failed == s.failed[id := now]
  {
  }

  /** With symmetric edges, a job that some dependent still lists as a parent is not
      deleted, and neither is a dependent whose counter exists. */
  lemma ListedParentsAreKept(s: State, id: Id, o: Outcome, now: int, keep: int, publish: bool, p: Id, c: Id)
    requires s.childEdges == s.parentEdges
    requires p in ParentsOf(s.parentEdges, c) && p in s.vault
    ensures p in Finalize(s, id, o, now, keep, publish).vault
    ensures o.completed && (p in s.completed || p == id) ==> p in Finalize(s, id, o, now, keep, publish).completed
    ensures !o.completed && (p in s.failed || p == id) ==> p in Finalize(s, id, o, now, keep, publish).failed
  {
    assert (p, c) in s.parentEdges;
    assert c in Kids(s.childEdges, p);
    assert Pinned(Close(s, id, o, now), p);
  }
}

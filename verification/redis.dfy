/**
 The Redis structures the queue is built on, as values.

 A LIST is a `seq`, a HASH a `map`, a SET a `set` and a ZSET a map from member
 to score. Redis orders a ZSET by score and breaks ties by comparing members;
 only the fact that members are totally ordered matters, so ids are naturals.
 */
module Redis {

  type Id = nat
  type ZSet = map<Id, int>

  datatype Option<+T> = None | Some(value: T)

  /** a comes before b in the order of ZRANGE. */
  predicate Before(z: ZSet, a: Id, b: Id)
    requires a in z && b in z
  {
    z[a] < z[b] || (z[a] == z[b] && a < b)
  }

  predicate IsLeast(z: ZSet, m: Id)
  {
    m in z && forall x :: x in z && x != m ==> Before(z, m, x)
  }

  lemma LeastExists(z: ZSet)
    requires z != map[]
    ensures exists m :: IsLeast(z, m)
    decreases |z|
  {
    var k :| k in z;
    var rest := z - {k};
    assert z.Keys == rest.Keys + {k};
    if rest == map[] {
      assert IsLeast(z, k);
    } else {
      assert |z| == |z.Keys| && |rest| == |rest.Keys|;
      LeastExists(rest);
      var m :| IsLeast(rest, m);
      assert IsLeast(z, if Before(z, k, m) then k else m);
    }
  }

  /** The member ZPOPMIN takes, and the one at rank 0 for ZRANGE. */
  function Least(z: ZSet): (m: Id)
    requires z != map[]
    ensures IsLeast(z, m)
  {
    LeastExists(z);
    var m :| IsLeast(z, m);
    m
  }

  lemma LessOne(z: ZSet, m: Id)
    requires m in z
    ensures |z - {m}| == |z| - 1
  {
    assert (z - {m}).Keys == z.Keys - {m};
    assert |z| == |z.Keys| && |z - {m}| == |(z - {m}).Keys|;
  }

  lemma MapPut<V>(m: map<Id, V>, id: Id, v: V)
    ensures |m[id := v]| <= |m| + 1
    ensures id in m ==> |m[id := v]| == |m|
  {
    assert m[id := v].Keys == m.Keys + {id};
    assert |m| == |m.Keys| && |m[id := v]| == |m[id := v].Keys|;
    if id in m {
      assert m.Keys + {id} == m.Keys;
    }
  }

  /** ZRANGE 0 -1: the members in order. */
  function ByScore(z: ZSet): (r: seq<Id>)
    ensures |r| == |z|
    ensures forall x :: x in r <==> x in z
    decreases |z|
  {
    if z == map[] then []
    else
      var m := Least(z);
      LessOne(z, m);
      [m] + ByScore(z - {m})
  }

  function Members(ids: seq<Id>): set<Id>
  {
    set x | x in ids
  }

  ghost predicate NoDup<T>(s: seq<T>)
  {
    forall i, j :: 0 <= i < j < |s| ==> s[i] != s[j]
  }

  lemma NoDupSnoc<T>(a: seq<T>, x: T)
    requires NoDup(a) && x !in a
    ensures NoDup(a + [x])
  {
  }

  lemma NoDupConcat<T>(a: seq<T>, b: seq<T>)
    requires NoDup(a) && NoDup(b) && forall x :: x in b ==> x !in a
    ensures NoDup(a + b)
  {
    var all := a + b;
    forall i, j | 0 <= i < j < |all|
      ensures all[i] != all[j]
    {
      if i < |a| <= j {
        assert all[i] in a && all[j] == b[j - |a|] && b[j - |a|] in b;
      }
    }
  }

  ghost predicate Ordered(z: ZSet, r: seq<Id>)
  {
    && (forall i :: 0 <= i < |r| ==> r[i] in z)
    && forall i, j :: 0 <= i < j < |r| ==> Before(z, r[i], r[j])
  }

  /** ZRANGE lists the members in strictly increasing order, so each one once. */
  lemma {:induction false} ByScoreSorted(z: ZSet)
    ensures Ordered(z, ByScore(z))
    ensures NoDup(ByScore(z))
    decreases |z|
  {
    if z == map[] {
    } else {
      var m := Least(z);
      var rest := z - {m};
      LessOne(z, m);
      ByScoreSorted(rest);
      OrderedCons(z, m, ByScore(rest));
    }
  }

  lemma ByScoreOfOne(z: ZSet, id: Id)
    requires z.Keys == {id}
    ensures ByScore(z) == [id]
  {
    assert Least(z) in z.Keys;
    LessOne(z, id);
    assert z - {id} == map[];
  }

  lemma OrderedCons(z: ZSet, m: Id, r: seq<Id>)
    requires IsLeast(z, m)
    requires Ordered(z - {m}, r)
    ensures Ordered(z, [m] + r)
    ensures NoDup([m] + r)
  {
    var rest := z - {m};
    var all := [m] + r;
    forall i, j | 0 <= i < j < |all|
      ensures all[i] in z && all[j] in z && Before(z, all[i], all[j])
    {
      assert all[j] == r[j - 1] && r[j - 1] in rest;
      if i > 0 {
        assert all[i] == r[i - 1] && Before(rest, r[i - 1], r[j - 1]);
      }
    }
  }

  /** The members with a score in lo..hi, as ZRANGEBYSCORE lo hi selects them. */
  function Between(z: ZSet, lo: int, hi: int): ZSet
  {
    map x | x in z && lo <= z[x] <= hi :: z[x]
  }

  /** LREM 0: every occurrence goes. */
  function Purge(w: seq<Id>, id: Id): (r: seq<Id>)
    ensures multiset(r) == multiset(w)[id := 0]
  {
    if w == [] then []
    else
      assert w == [w[0]] + w[1..];
      if w[0] == id then Purge(w[1..], id) else [w[0]] + Purge(w[1..], id)
  }

  /** LREM 1: the first occurrence goes. */
  function DropFirst(w: seq<Id>, id: Id): (r: seq<Id>)
    ensures multiset(r) == multiset(w) - multiset{id}
  {
    if w == [] then []
    else
      assert w == [w[0]] + w[1..];
      if w[0] == id then w[1..] else [w[0]] + DropFirst(w[1..], id)
  }

  /** HDEL or ZREM in two goes. */
  lemma MinusMinus<V>(m: map<Id, V>, a: set<Id>, b: set<Id>)
    ensures m - a - b == m - (a + b)
  {
  }

  lemma {:induction false} PurgeShrinks(w: seq<Id>, id: Id)
    ensures |Purge(w, id)| <= |w|
  {
    if w == [] {
    } else {
      PurgeShrinks(w[1..], id);
    }
  }

  lemma {:induction false} DropFirstShrinks(w: seq<Id>, id: Id)
    ensures |DropFirst(w, id)| <= |w|
  {
    if w == [] {
    } else {
      DropFirstShrinks(w[1..], id);
    }
  }
}

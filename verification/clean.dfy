/**
 Deleting old settled jobs (clean of queue.js), in batches.
 */
module Clean {
  import opened Redis
  import opened Model
  import opened Store
  import opened Dispatch

  // ---- Batches ----

  lemma {:induction false} RestByScore(z: ZSet, r: seq<Id>, k: nat)
    requires r == ByScore(z) && k <= |r|
    ensures ByScore(z - Members(r[..k])) == r[k..]
    decreases k
  {
    if k == 0 {
      WithNone(z, r);
    } else {
      var m := Least(z);
      var rest := ByScore(z - {m});
      ByScoreCons(z);
      WithFirst(z, m, r, rest, k);
      RestByScore(z - {m}, rest, k - 1);
    }
  }

  lemma WithNone(z: ZSet, r: seq<Id>)
    ensures z - Members(r[..0]) == z && r[0..] == r
  {
    assert Members(r[..0]) == {};
  }

  lemma WithFirst(z: ZSet, m: Id, r: seq<Id>, rest: seq<Id>, k: nat)
    requires r == [m] + rest && 0 < k <= |r|
    ensures z - Members(r[..k]) == z - {m} - Members(rest[..k - 1])
    ensures r[k..] == rest[k - 1..]
  {
    assert r[..k] == [m] + rest[..k - 1];
    MembersConcat([m], rest[..k - 1]);
    assert Members([m]) == {m};
    MinusMinus(z, {m}, Members(rest[..k - 1]));
  }

  lemma RestIsOld(z: ZSet, cutoff: int, k: nat)
    requires k <= |Old(z, cutoff)|
    ensures Old(z - Members(Old(z, cutoff)[..k]), cutoff) == Old(z, cutoff)[k..]
  {
    var gone := Members(Old(z, cutoff)[..k]);
    assert Between(z - gone, 0, cutoff) == Between(z, 0, cutoff) - gone;
    RestByScore(Between(z, 0, cutoff), Old(z, cutoff), k);
  }

  lemma MembersConcat(a: seq<Id>, b: seq<Id>)
    ensures Members(a + b) == Members(a) + Members(b)
  {
  }

  /** The first k of the old ids are gone. */
  ghost predicate CleanedSoFar(z: ZSet, hash: map<Id, Job>, all: seq<Id>, left: ZSet, kept: map<Id, Job>, k: nat)
  {
    k <= |all| && left == z - Members(all[..k]) && kept == hash - Members(all[..k])
  }

  lemma NothingCleaned(z: ZSet, hash: map<Id, Job>, all: seq<Id>)
    ensures CleanedSoFar(z, hash, all, z, hash, 0)
  {
    assert Members(all[..0]) == {};
    assert z - {} == z && hash - {} == hash;
  }

  lemma BatchCleaned(z: ZSet, hash: map<Id, Job>, all: seq<Id>, left: ZSet, kept: map<Id, Job>, k: nat, n: nat)
    requires CleanedSoFar(z, hash, all, left, kept, k)
    ensures var batch := Head(all[k..], n);
            CleanedSoFar(z, hash, all, left - Members(batch), kept - Members(batch), k + |batch|)
  {
    var batch := Head(all[k..], n);
    assert all[..k + |batch|] == all[..k] + batch;
    MembersConcat(all[..k], batch);
    MinusMinus(z, Members(all[..k]), Members(batch));
    MinusMinus(hash, Members(all[..k]), Members(batch));
  }

  method NextBatch(left: ZSet, cutoff: int, n: nat, ghost z: ZSet, ghost k: nat) returns (batch: seq<Id>)
    requires k <= |Old(z, cutoff)| && left == z - Members(Old(z, cutoff)[..k])
    ensures batch == Head(Old(z, cutoff)[k..], n)
  {
    batch := Head(Old(left, cutoff), n);
    RestIsOld(z, cutoff, k);
  }

  /** The loop stops early when a batch comes back short of 500. */
  method CleanLoop(z: ZSet, hash: map<Id, Job>, cutoff: int, limit: int)
    returns (left: ZSet, kept: map<Id, Job>, cleaned: nat)
    ensures var gone := Cleaned(z, cutoff, limit);
            left == z - Members(gone) && kept == hash - Members(gone) && cleaned == |gone|
  {
    left, kept, cleaned := z, hash, 0;
    ghost var all := Old(z, cutoff);
    NothingCleaned(z, hash, all);
    while cleaned < limit
      invariant CleanedSoFar(z, hash, all, left, kept, cleaned) && (cleaned <= limit || cleaned == 0)
      decreases limit - cleaned
    {
      var n := if limit - cleaned < 500 then limit - cleaned else 500;
      var batch := NextBatch(left, cutoff, n, z, cleaned);
      BatchCleaned(z, hash, all, left, kept, cleaned, n);
      ShortBatchIsLast(all, cleaned, limit, n);
      if |batch| == 0 {
        break;
      }
      left := left - Members(batch);
      kept := kept - Members(batch);
      cleaned := cleaned + |batch|;
      if |batch| < 500 {
        break;
      }
    }
    NothingMoreToClean(all, cleaned, limit);
  }

  lemma ShortBatchIsLast(all: seq<Id>, k: nat, limit: int, n: nat)
    requires k <= |all| && k < limit && n == if limit - k < 500 then limit - k else 500
    ensures var b := |Head(all[k..], n)|;
            k + b <= limit && (b == 0 ==> k == |all|) && (b < 500 ==> k + b == limit || k + b == |all|)
  {
  }

  lemma NothingMoreToClean(all: seq<Id>, k: nat, limit: int)
    requires k <= |all| && (k <= limit || k == 0) && (k >= limit || k == |all|)
    ensures all[..k] == Head(all, if limit < 0 then 0 else limit)
  {
    assert all[..|all|] == all;
  }

  method CleanQueue(q: QueueStore, now: int, grace: int, limit: int, onCompleted: bool) returns (cleaned: nat)
    modifies q`vault, q`completed, q`failed
    ensures var gone := Cleaned(if onCompleted then old(q.completed) else old(q.failed), now - grace, limit);
            cleaned == |gone| && q.Now() == CleanState(old(q.Now()), onCompleted, Members(gone))
  {
    var left, kept;
    left, kept, cleaned := CleanLoop(if onCompleted then q.completed else q.failed, q.vault, now - grace, limit);
    CleanStep(q, onCompleted, left, kept, Members(Cleaned(if onCompleted then q.completed else q.failed, now - grace, limit)));
  }

  method CleanStep(q: QueueStore, onCompleted: bool, left: ZSet, kept: map<Id, Job>, ghost gone: set<Id>)
    requires left == (if onCompleted then q.completed else q.failed) - gone && kept == q.vault - gone
    modifies q`vault, q`completed, q`failed
    ensures q.Now() == CleanState(old(q.Now()), onCompleted, gone)
  {
    q.vault := kept;
    if onCompleted {
      q.completed := left;
    } else {
      q.failed := left;
    }
  }

  // ---- What is cleaned, and what that does to the queue ----

  /** As many go as are old enough, or `limit` if there are more, and each once. */
  lemma AsManyGo(z: ZSet, cutoff: int, limit: nat)
    ensures var eligible := set x | x in z && 0 <= z[x] <= cutoff;
            |Cleaned(z, cutoff, limit)| == if limit < |eligible| then limit else |eligible|
    ensures NoDup(Cleaned(z, cutoff, limit))
  {
    var eligible := Between(z, 0, cutoff);
    assert eligible.Keys == set x | x in z && 0 <= z[x] <= cutoff;
    assert |eligible| == |eligible.Keys|;
    ByScoreSorted(eligible);
  }

  /** At most `limit` ids go, all of them settled by the cutoff, and none that is
      left and old enough settled before one that went. */
  lemma OldestGo(z: ZSet, cutoff: int, limit: int, x: Id, y: Id)
    requires x in Cleaned(z, cutoff, limit)
    ensures |Cleaned(z, cutoff, limit)| <= limit && x in z && 0 <= z[x] <= cutoff
    ensures y in z && 0 <= z[y] <= cutoff && y !in Cleaned(z, cutoff, limit) ==> Before(z, x, y)
  {
    var eligible := Between(z, 0, cutoff);
    var all, gone := Old(z, cutoff), Cleaned(z, cutoff, limit);
    ByScoreSorted(eligible);
    var i :| 0 <= i < |gone| && gone[i] == x;
    assert all[i] == x;
    if y in eligible && y !in gone {
      assert y in all;
      var j :| 0 <= j < |all| && all[j] == y;
      FirstOnes(all, |gone|, j);
    }
  }

  lemma FirstOnes(all: seq<Id>, n: nat, j: nat)
    requires n <= |all| && j < |all|
    ensures j < n ==> all[j] in all[..n]
  {
    if j < n {
      assert all[..n][j] == all[j];
    }
  }
}

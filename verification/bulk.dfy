/**
 Queue.addBulk against adding the same jobs one by one.
 */
module Bulk {
  import opened Redis
  import opened Model
  import opened Store

  /** Queue.add for a job without parents: addDelayed when it has a delay, addJob otherwise. */
  function AddSingle(s: State, item: BulkItem): State
  {
    if item.later then AddDelayed(s, item.id, item.job, item.job.timestamp) else AddJob(s, item.id, item.job)
  }

  function AddEach(s: State, items: seq<BulkItem>): State
    decreases |items|
  {
    if items == [] then s else AddEach(AddSingle(s, items[0]), items[1..])
  }

  function EachCreated(s: State, items: seq<BulkItem>): (r: seq<bool>)
    ensures |r| == |items|
    decreases |items|
  {
    if items == [] then [] else [items[0].id !in s.vault] + EachCreated(AddSingle(s, items[0]), items[1..])
  }

  /** The ids signalById holds: every id some item of the batch delays. */
  function LaterIds(items: seq<BulkItem>): set<Id>
  {
    set i | i in items && i.later :: i.id
  }

  /** How many created items are counted as delayed, or not, given who counts as delayed. */
  function Tally(items: seq<BulkItem>, created: seq<bool>, laterIds: set<Id>, later: bool): nat
    requires |created| == |items|
    decreases |items|
  {
    if items == [] then 0
    else (if created[0] && (items[0].id in laterIds <==> later) then 1 else 0)
         + Tally(items[1..], created[1..], laterIds, later)
  }

  /** addBulk of queue.js: the script, then one token for every created item that
      the signal map does not know as delayed, and a delayed token for the others. */
  function AddBulkCall(s: State, items: seq<BulkItem>): State
  {
    var created := BulkCreated(s, items);
    var t := AddBulk(s, items);
    t.(tokens := t.tokens + Tally(items, created, LaterIds(items), false),
       delayedTokens := t.delayedTokens + Tally(items, created, LaterIds(items), true))
  }

  method AddBulkLoop(items: seq<BulkItem>, created: seq<bool>) returns (waitingTokens: nat, delayedTokens: nat)
    requires |created| == |items|
    ensures waitingTokens == Tally(items, created, LaterIds(items), false)
    ensures delayedTokens == Tally(items, created, LaterIds(items), true)
  {
    var signalIds := LaterIds(items);
    waitingTokens, delayedTokens := 0, 0;
    var i := 0;
    while i < |items|
      invariant 0 <= i <= |items|
      invariant waitingTokens + Tally(items[i..], created[i..], signalIds, false) == Tally(items, created, signalIds, false)
      invariant delayedTokens + Tally(items[i..], created[i..], signalIds, true) == Tally(items, created, signalIds, true)
    {
      if created[i] {
        if items[i].id in signalIds {
          delayedTokens := delayedTokens + 1;
        } else {
          waitingTokens := waitingTokens + 1;
        }
      }
      i := i + 1;
    }
  }

  /** addBulk as a whole: the script stores the jobs, the caller pushes the tokens. */
  method AddBulkOnQueue(q: QueueStore, items: seq<BulkItem>) returns (created: seq<bool>)
    modifies q
    ensures created == BulkCreated(old(q.Now()), items)
    ensures q.Now() == AddBulkCall(old(q.Now()), items)
  {
    created := q.AddBulkScript(items);
    var waitingTokens, delayedTokens := AddBulkLoop(items, created);
    q.tokens := q.tokens + waitingTokens;
    q.delayedTokens := q.delayedTokens + delayedTokens;
  }

  /** Equal but for tokens and published events. */
  ghost predicate SameJobs(s: State, t: State)
  {
    s.(tokens := 0, delayedTokens := 0, events := []) == t.(tokens := 0, delayedTokens := 0, events := [])
  }

  lemma SingleStep(s: State, t: State, item: BulkItem)
    requires SameJobs(s, t)
    ensures SameJobs(AddBulkOne(s, item), AddSingle(t, item))
  {
  }

  /** Both ways store the same jobs in the same places, and agree on what is a duplicate. */
  lemma {:induction false} SameJobsStored(s: State, t: State, items: seq<BulkItem>)
    requires SameJobs(s, t)
    ensures SameJobs(AddBulk(s, items), AddEach(t, items))
    ensures BulkCreated(s, items) == EachCreated(t, items)
    decreases |items|
  {
    if items == [] {
    } else {
      SingleStep(s, t, items[0]);
      assert items[0].id in s.vault <==> items[0].id in t.vault;
      SameJobsStored(AddBulkOne(s, items[0]), AddSingle(t, items[0]), items[1..]);
    }
  }

  /** Created items split by their own delay, which is what adding them singly does. */
  function OwnTally(items: seq<BulkItem>, created: seq<bool>, later: bool): nat
    requires |created| == |items|
    decreases |items|
  {
    if items == [] then 0
    else (if created[0] && (items[0].later <==> later) then 1 else 0) + OwnTally(items[1..], created[1..], later)
  }

  lemma SingleTokens(s: State, item: BulkItem)
    ensures var t := AddSingle(s, item);
            var isNew := item.id !in s.vault;
            && t.tokens == s.tokens + (if isNew && !item.later then 1 else 0)
            && t.delayedTokens == s.delayedTokens + (if isNew && item.later then 1 else 0)
  {
  }

  lemma {:induction false} EachTokens(s: State, items: seq<BulkItem>)
    ensures AddEach(s, items).tokens == s.tokens + OwnTally(items, EachCreated(s, items), false)
    ensures AddEach(s, items).delayedTokens == s.delayedTokens + OwnTally(items, EachCreated(s, items), true)
    decreases |items|
  {
    if items == [] {
    } else {
      SingleTokens(s, items[0]);
      EachTokens(AddSingle(s, items[0]), items[1..]);
    }
  }

  lemma {:induction false} BulkTokens(s: State, items: seq<BulkItem>)
    ensures AddBulk(s, items).tokens == s.tokens && AddBulk(s, items).delayedTokens == s.delayedTokens
    decreases |items|
  {
    if items == [] {
    } else {
      BulkTokens(AddBulkOne(s, items[0]), items[1..]);
    }
  }

  /** No item that is created now shares its id with one the batch delays. */
  ghost predicate Agree(items: seq<BulkItem>, created: seq<bool>, laterIds: set<Id>)
    requires |created| == |items|
  {
    forall i :: 0 <= i < |items| && created[i] && !items[i].later ==> items[i].id !in laterIds
  }

  lemma AgreeCons(items: seq<BulkItem>, created: seq<bool>, laterIds: set<Id>)
    requires |created| == |items| && items != []
    ensures Agree(items, created, laterIds)
       <==> (created[0] && !items[0].later ==> items[0].id !in laterIds) && Agree(items[1..], created[1..], laterIds)
  {
    if Agree(items, created, laterIds) {
      forall i | 0 <= i < |items[1..]| && created[1..][i] && !items[1..][i].later
        ensures items[1..][i].id !in laterIds
      {
        assert items[1..][i] == items[i + 1];
      }
    } else {
      var i :| 0 <= i < |items| && created[i] && !items[i].later && items[i].id in laterIds;
      if i > 0 {
        assert items[1..][i - 1] == items[i] && created[1..][i - 1];
      }
    }
  }

  lemma {:induction false} TallyIff(items: seq<BulkItem>, created: seq<bool>, laterIds: set<Id>)
    requires |created| == |items| && forall i :: 0 <= i < |items| && items[i].later ==> items[i].id in laterIds
    ensures Tally(items, created, laterIds, false) <= OwnTally(items, created, false)
    ensures Tally(items, created, laterIds, false) + Tally(items, created, laterIds, true)
         == OwnTally(items, created, false) + OwnTally(items, created, true)
    ensures Tally(items, created, laterIds, false) == OwnTally(items, created, false) <==> Agree(items, created, laterIds)
    decreases |items|
  {
    if items == [] {
    } else {
      forall i | 0 <= i < |items[1..]| && items[1..][i].later
        ensures items[1..][i].id in laterIds
      {
        assert items[1..][i] == items[i + 1];
      }
      TallyIff(items[1..], created[1..], laterIds);
      AgreeCons(items, created, laterIds);
    }
  }

  /** addBulk equals the fold of single adds: always in what is stored and where,
      and in the tokens exactly when no created immediate item shares its id with a
      delayed one. Otherwise it pushes too few wake-up tokens. */
  lemma BulkIsFoldOfAdds(s: State, items: seq<BulkItem>)
    ensures SameJobs(AddBulkCall(s, items), AddEach(s, items))
    ensures BulkCreated(s, items) == EachCreated(s, items)
    ensures AddBulkCall(s, items).tokens <= AddEach(s, items).tokens
    ensures AddBulkCall(s, items).tokens == AddEach(s, items).tokens
            && AddBulkCall(s, items).delayedTokens == AddEach(s, items).delayedTokens
       <==> Agree(items, BulkCreated(s, items), LaterIds(items))
  {
    SameJobsStored(s, s, items);
    EachTokens(s, items);
    BulkTokens(s, items);
    TallyIff(items, BulkCreated(s, items), LaterIds(items));
  }
}

/**
 Listing jobs in pages (getJobs of queue.js).
 */
module Pages {
  import opened Redis
  import opened Model
  import opened Placement

  datatype Kind = WaitingJobs | ActiveJobs | DelayedJobs | CompletedJobs | FailedJobs | BlockedJobs | DeadJobs | Unknown

  /** The order in which HSCAN walks the two hashes; Redis promises none. */
  datatype Scan = Scan(blocked: seq<Id>, dead: seq<Id>)

  /** All ids of one kind, in listing order. */
  function IdsOf(s: State, scan: Scan, kind: Kind): seq<Id>
  {
    match kind
    case WaitingJobs => ByScore(s.prioritized) + s.waiting
    case ActiveJobs => ByScore(s.active)
    case DelayedJobs => ByScore(s.delayed)
    case CompletedJobs => ByScore(s.completed)
    case FailedJobs => ByScore(s.failed)
    case BlockedJobs => scan.blocked
    case DeadJobs => scan.dead
    case Unknown => []
  }

  function Listing(s: State, scan: Scan, kinds: seq<Kind>): seq<Id>
    decreases |kinds|
  {
    if kinds == [] then [] else IdsOf(s, scan, kinds[0]) + Listing(s, scan, kinds[1..])
  }

  // ---- Slices ----

  function Clamp(i: int, n: nat): nat
  {
    if i < 0 then 0 else if i > n then n else i
  }

  function Stop(hi: Option<int>, n: nat): nat
  {
    if hi.Some? then Clamp(hi.value + 1, n) else n
  }

  /** Positions lo..hi, both included; without a hi, up to the end. */
  function Slice<T>(all: seq<T>, lo: int, hi: Option<int>): seq<T>
  {
    if Clamp(lo, |all|) <= Stop(hi, |all|) then all[Clamp(lo, |all|)..Stop(hi, |all|)] else []
  }

  function Back(hi: Option<int>, n: int): Option<int>
  {
    if hi.Some? then Some(hi.value - n) else None
  }

  lemma SliceConcat<T>(a: seq<T>, b: seq<T>, lo: int, hi: Option<int>)
    ensures Slice(a + b, lo, hi) == Slice(a, lo, hi) + Slice(b, lo - |a|, Back(hi, |a|))
  {
    var x, y := Clamp(lo, |a + b|), Stop(hi, |a + b|);
    assert Clamp(lo, |a|) == Clamp(x, |a|) && Stop(hi, |a|) == Clamp(y, |a|);
    assert Clamp(lo - |a|, |b|) == Clamp(x - |a|, |b|) && Stop(Back(hi, |a|), |b|) == Clamp(y - |a|, |b|);
    if x <= y {
      CutConcat(a, b, x, y);
    }
  }

  lemma CutConcat<T>(a: seq<T>, b: seq<T>, x: nat, y: nat)
    requires x <= y <= |a + b|
    ensures (a + b)[x..y] == a[Clamp(x, |a|)..Clamp(y, |a|)] + b[Clamp(x - |a|, |b|)..Clamp(y - |a|, |b|)]
  {
  }

  lemma SliceOutside<T>(all: seq<T>, lo: int, hi: Option<int>)
    ensures lo >= |all| || (hi.Some? && hi.value < 0) ==> Slice(all, lo, hi) == []
  {
  }

  lemma SliceFromZero<T>(all: seq<T>, lo: int, hi: Option<int>)
    ensures Slice(all, if lo < 0 then 0 else lo, hi) == Slice(all, lo, hi)
  {
  }

  /** An end of -1 means no end; a start before 0 means 0. */
  function Page<T>(all: seq<T>, start: int, end: int): seq<T>
  {
    Slice(all, start, if end == -1 then None else Some(end))
  }

  // ---- getJobs ----

  /** ZRANGE and LRANGE with a start that is not negative and an end of at least -1. */
  function Range(all: seq<Id>, start: nat, end: int): seq<Id>
  {
    Page(all, start, end)
  }

  method Selected(all: seq<Id>, index: nat, start: int, end: Option<int>) returns (ids: seq<Id>)
    ensures ids == Slice(all, start - index, Back(end, index))
  {
    ids := [];
    SliceOutside(all, start - index, Back(end, index));
    if (end == None || index <= end.value) && index + |all| > start {
      var localStart := if start - index < 0 then 0 else start - index;
      var localEnd := if end == None then -1 else end.value - index;
      ids := Range(all, localStart, localEnd);
      SliceFromZero(all, start - index, Back(end, index));
    }
  }

  /** localEnd for an end that lies at or after the kind's first position. */
  function LocalEnd(index: nat, end: Option<int>): int
  {
    if end == None then -1 else end.value - index
  }

  method SelectedPrioritized(prioritized: seq<Id>, localStart: nat, localEnd: int) returns (ids: seq<Id>)
    requires localEnd >= -1
    ensures ids == Page(prioritized, localStart, localEnd)
  {
    ids := [];
    var n := |prioritized|;
    SliceOutside(prioritized, localStart, if localEnd == -1 then None else Some(localEnd));
    if localStart < n {
      ids := Range(prioritized, localStart, if localEnd == -1 then -1 else if n - 1 < localEnd then n - 1 else localEnd);
    }
  }

  method SelectedList(n: nat, waiting: seq<Id>, localStart: nat, localEnd: int) returns (ids: seq<Id>)
    requires localEnd >= -1
    ensures ids == Slice(waiting, localStart - n, if localEnd == -1 then None else Some(localEnd - n))
  {
    ids := [];
    if localEnd == -1 || localEnd >= n {
      var from := if localStart - n < 0 then 0 else localStart - n;
      ids := Range(waiting, from, if localEnd == -1 then -1 else localEnd - n);
      SliceFromZero(waiting, localStart - n, if localEnd == -1 then None else Some(localEnd - n));
    } else {
      SliceOutside(waiting, localStart - n, Some(localEnd - n));
    }
  }

  lemma TwoRanges(prioritized: seq<Id>, waiting: seq<Id>, lo: int, localStart: nat, hi: Option<int>)
    requires localStart == if lo < 0 then 0 else lo
    ensures Slice(prioritized, localStart, hi) + Slice(waiting, localStart - |prioritized|, Back(hi, |prioritized|))
         == Slice(prioritized + waiting, lo, hi)
  {
    SliceConcat(prioritized, waiting, localStart, hi);
    SliceFromZero(prioritized + waiting, lo, hi);
  }

  lemma NoneSelected(all: seq<Id>, index: nat, start: int, end: Option<int>)
    requires !((end == None || index <= end.value) && index + |all| > start)
    ensures Slice(all, start - index, Back(end, index)) == []
  {
    SliceOutside(all, start - index, Back(end, index));
  }

  method SelectedTwice(prioritized: seq<Id>, waiting: seq<Id>, lo: int, localEnd: int) returns (ids: seq<Id>)
    requires localEnd >= -1
    ensures ids == Slice(prioritized + waiting, lo, if localEnd == -1 then None else Some(localEnd))
  {
    var localStart := if lo < 0 then 0 else lo;
    var first := SelectedPrioritized(prioritized, localStart, localEnd);
    var second := SelectedList(|prioritized|, waiting, localStart, localEnd);
    ids := first + second;
    TwoRanges(prioritized, waiting, lo, localStart, if localEnd == -1 then None else Some(localEnd));
  }

  /** The waiting kind is two ranges: prioritized ids, then the list. */
  method SelectedWaiting(prioritized: seq<Id>, waiting: seq<Id>, index: nat, start: int, end: Option<int>)
    returns (ids: seq<Id>)
    ensures ids == Slice(prioritized + waiting, start - index, Back(end, index))
  {
    if (end == None || index <= end.value) && index + |prioritized| + |waiting| > start {
      ids := SelectedTwice(prioritized, waiting, start - index, LocalEnd(index, end));
    } else {
      ids := [];
      NoneSelected(prioritized + waiting, index, start, end);
    }
  }

  /** Array.from(new Set(ids)): the first occurrence of each stays. */
  function Dedup(ids: seq<Id>): (r: seq<Id>)
    ensures NoDup(r) && forall x :: x in r <==> x in ids
    ensures NoDup(ids) ==> r == ids
  {
    if ids == [] then []
    else
      var last := ids[|ids| - 1];
      var rest := ids[..|ids| - 1];
      assert ids == rest + [last];
      assert forall i :: 0 <= i < |rest| ==> ids[i] == rest[i];
      if last in rest then Dedup(rest)
      else
        NoDupSnoc(Dedup(rest), last);
        Dedup(rest) + [last]
  }

  method SelectedOfKind(s: State, scan: Scan, kind: Kind, index: nat, start: int, end: Option<int>)
    returns (ids: seq<Id>, count: nat)
    ensures ids == Slice(IdsOf(s, scan, kind), start - index, Back(end, index))
    ensures count == |IdsOf(s, scan, kind)|
  {
    if kind == WaitingJobs {
      ids := SelectedWaiting(ByScore(s.prioritized), s.waiting, index, start, end);
      count := |s.prioritized| + |s.waiting|;
    } else {
      ids := Selected(IdsOf(s, scan, kind), index, start, end);
      count := |IdsOf(s, scan, kind)|;
    }
  }

  lemma ListingFrom(s: State, scan: Scan, kinds: seq<Kind>, i: nat)
    requires i < |kinds|
    ensures Listing(s, scan, kinds[i..]) == IdsOf(s, scan, kinds[i]) + Listing(s, scan, kinds[i + 1..])
  {
    assert kinds[i..][1..] == kinds[i + 1..];
  }

  /** `ids` is what the kinds walked so far give of the whole; `rest` is still to walk. */
  ghost predicate SoFar(whole: seq<Id>, rest: seq<Id>, start: int, end: Option<int>, index: nat, ids: seq<Id>)
  {
    ids + Slice(rest, start - index, Back(end, index)) == Slice(whole, start, end)
  }

  lemma SoFarNext(whole: seq<Id>, both: seq<Id>, all: seq<Id>, rest: seq<Id>, start: int, end: Option<int>, index: nat,
                  ids: seq<Id>, some: seq<Id>)
    requires SoFar(whole, both, start, end, index, ids) && both == all + rest
    requires some == Slice(all, start - index, Back(end, index))
    ensures SoFar(whole, rest, start, end, index + |all|, ids + some)
  {
    SliceConcat(all, rest, start - index, Back(end, index));
    assert Back(Back(end, index), |all|) == Back(end, index + |all|);
  }

  lemma SoFarDone(whole: seq<Id>, rest: seq<Id>, start: int, end: Option<int>, index: nat, ids: seq<Id>)
    requires SoFar(whole, rest, start, end, index, ids)
    requires rest == [] || (end.Some? && index > end.value)
    ensures ids == Slice(whole, start, end)
  {
    SliceOutside(rest, start - index, Back(end, index));
    assert Slice(rest, start - index, Back(end, index)) == [];
  }

  function Reverse(ids: seq<Id>): seq<Id>
  {
    seq(|ids|, i requires 0 <= i < |ids| => ids[|ids| - 1 - i])
  }

  method SelectIds(s: State, scan: Scan, kinds: seq<Kind>, start: int, end: Option<int>) returns (ids: seq<Id>)
    ensures ids == Slice(Listing(s, scan, kinds), start, end)
  {
    ids := [];
    var index: nat := 0;
    var i := 0;
    ghost var whole := Listing(s, scan, kinds);
    ghost var rest := whole;
    while i < |kinds| && !(end.Some? && index > end.value)
      invariant 0 <= i <= |kinds|
      invariant rest == Listing(s, scan, kinds[i..])
      invariant SoFar(whole, rest, start, end, index, ids)
    {
      var some, count := SelectedOfKind(s, scan, kinds[i], index, start, end);
      ghost var all, later := IdsOf(s, scan, kinds[i]), Listing(s, scan, kinds[i + 1..]);
      ListingFrom(s, scan, kinds, i);
      SoFarNext(whole, rest, all, later, start, end, index, ids, some);
      rest := later;
      ids := ids + some;
      index := index + count;
      i := i + 1;
    }
    SoFarDone(whole, rest, start, end, index, ids);
  }

  method GetJobIds(s: State, scan: Scan, kinds: seq<Kind>, start: int, end: int, asc: bool) returns (ids: seq<Id>)
    ensures var page := Dedup(Page(Listing(s, scan, kinds), start, end));
            ids == if asc then page else Reverse(page)
  {
    ids := SelectIds(s, scan, kinds, start, if end == -1 then None else Some(end));
    ids := Dedup(ids);
    if !asc {
      ids := Reverse(ids);
    }
  }

  // ---- What the pages add up to ----

  lemma NoDupSlice<T>(all: seq<T>, lo: int, hi: Option<int>)
    requires NoDup(all)
    ensures NoDup(Slice(all, lo, hi))
  {
  }

  lemma PagesMeet<T>(all: seq<T>, start: nat, middle: nat, end: int)
    requires start < middle && (end == -1 || middle <= end)
    ensures Page(all, start, middle - 1) + Page(all, middle, end) == Page(all, start, end)
  {
  }

  /** The first n pages of the given size. */
  function FirstPages<T>(all: seq<T>, size: nat, n: nat): seq<T>
    requires size > 0
  {
    if n == 0 then [] else FirstPages(all, size, n - 1) + Page(all, (n - 1) * size, n * size - 1)
  }

  lemma {:induction false} PagesTile<T>(all: seq<T>, size: nat, n: nat)
    requires size > 0
    ensures FirstPages(all, size, n) == all[..Clamp(n * size, |all|)]
  {
    if n == 0 {
    } else {
      PagesTile(all, size, n - 1);
      assert (n - 1) * size + size == n * size;
      assert 0 <= (n - 1) * size;
      PageTo(all, (n - 1) * size, n * size);
    }
  }

  lemma PageTo<T>(all: seq<T>, a: nat, b: nat)
    requires a < b
    ensures all[..Clamp(a, |all|)] + Page(all, a, b - 1) == all[..Clamp(b, |all|)]
  {
  }

  ghost predicate Scans(s: State, scan: Scan)
  {
    Enumerates(scan.blocked, s.blocked) && Enumerates(scan.dead, s.dlq.Keys)
  }

  /** In how many of the seven places of a kind an id sits. */
  ghost function PlacesOf(s: State, kind: Kind, x: Id): nat
  {
    match kind
    case WaitingJobs => multiset(s.waiting)[x] + B(x in s.prioritized)
    case ActiveJobs => B(x in s.active)
    case DelayedJobs => B(x in s.delayed)
    case CompletedJobs => B(x in s.completed)
    case FailedJobs => B(x in s.failed)
    case BlockedJobs => B(x in s.blocked)
    case _ => 0
  }

  lemma {:induction false} Counted<T>(all: seq<T>, x: T)
    requires NoDup(all)
    ensures multiset(all)[x] == if x in all then 1 else 0
    decreases |all|
  {
    if all == [] {
    } else {
      assert all == [all[0]] + all[1..];
      assert NoDup(all[1..]);
      assert all[0] !in all[1..];
      Counted(all[1..], x);
    }
  }

  lemma KindCounts(s: State, scan: Scan, kind: Kind, x: Id)
    requires Scans(s, scan) && kind != DeadJobs
    ensures multiset(IdsOf(s, scan, kind))[x] == PlacesOf(s, kind, x)
  {
    match kind {
      case WaitingJobs => ByScoreSorted(s.prioritized); Counted(ByScore(s.prioritized), x);
      case ActiveJobs => ByScoreSorted(s.active); Counted(ByScore(s.active), x);
      case DelayedJobs => ByScoreSorted(s.delayed); Counted(ByScore(s.delayed), x);
      case CompletedJobs => ByScoreSorted(s.completed); Counted(ByScore(s.completed), x);
      case FailedJobs => ByScoreSorted(s.failed); Counted(ByScore(s.failed), x);
      case BlockedJobs => Counted(scan.blocked, x);
      case Unknown =>
    }
  }

  const ALL_KINDS := [WaitingJobs, ActiveJobs, DelayedJobs, CompletedJobs, FailedJobs, BlockedJobs]

  ghost function PlacesIn(s: State, kinds: seq<Kind>, x: Id): nat
    decreases |kinds|
  {
    if kinds == [] then 0 else PlacesOf(s, kinds[0], x) + PlacesIn(s, kinds[1..], x)
  }

  lemma {:induction false} ListingCounts(s: State, scan: Scan, kinds: seq<Kind>, x: Id)
    requires Scans(s, scan) && DeadJobs !in kinds
    ensures multiset(Listing(s, scan, kinds))[x] == PlacesIn(s, kinds, x)
    decreases |kinds|
  {
    if kinds == [] {
    } else {
      KindCounts(s, scan, kinds[0], x);
      ListingCounts(s, scan, kinds[1..], x);
    }
  }

  /** Over the default kinds the listing names every stored job exactly once, and
      nothing else: each job sits in one place. */
  lemma ListingIsComplete(s: State, scan: Scan, x: Id)
    requires OnePlace(s) && Scans(s, scan)
    ensures multiset(Listing(s, scan, ALL_KINDS))[x] == if x in s.vault then 1 else 0
  {
    PlaceAtMostOnce(s, x);
    ListingCounts(s, scan, ALL_KINDS, x);
    SixPlaces(s, x);
  }

  lemma SixPlaces(s: State, x: Id)
    ensures PlacesIn(s, ALL_KINDS, x) == Places(s, x)
  {
    PlacesCons(s, BlockedJobs, [], x);
    PlacesCons(s, FailedJobs, [BlockedJobs], x);
    PlacesCons(s, CompletedJobs, [FailedJobs, BlockedJobs], x);
    PlacesCons(s, DelayedJobs, [CompletedJobs, FailedJobs, BlockedJobs], x);
    PlacesCons(s, ActiveJobs, [DelayedJobs, CompletedJobs, FailedJobs, BlockedJobs], x);
    PlacesCons(s, WaitingJobs, [ActiveJobs, DelayedJobs, CompletedJobs, FailedJobs, BlockedJobs], x);
  }

  lemma PlacesCons(s: State, kind: Kind, rest: seq<Kind>, x: Id)
    ensures PlacesIn(s, [kind] + rest, x) == PlacesOf(s, kind, x) + PlacesIn(s, rest, x)
  {
  }

  lemma TwoOfThem(all: seq<Id>, i: nat, j: nat)
    requires i < j < |all| && all[i] == all[j]
    ensures multiset(all)[all[i]] >= 2
  {
    assert all == all[..j] + [all[j]] + all[j + 1..];
    assert all[i] in all[..j];
  }

  lemma CountsMakeNoDup(all: seq<Id>)
    requires forall x :: multiset(all)[x] <= 1
    ensures NoDup(all)
  {
    forall i, j | 0 <= i < j < |all|
      ensures all[i] != all[j]
    {
      if all[i] == all[j] {
        TwoOfThem(all, i, j);
        assert false;
      }
    }
  }

  lemma ListingHasNoDup(s: State, scan: Scan)
    requires OnePlace(s) && Scans(s, scan)
    ensures NoDup(Listing(s, scan, ALL_KINDS))
  {
    var all := Listing(s, scan, ALL_KINDS);
    forall x
      ensures multiset(all)[x] <= 1
    {
      ListingIsComplete(s, scan, x);
    }
    CountsMakeNoDup(all);
  }

  /** Within its kind a listing follows the queue: the ids a worker takes next come first,
      leases, due times and finish times rise. */
  lemma KindsAreInOrder(s: State, scan: Scan)
    ensures IdsOf(s, scan, WaitingJobs) == Queued(s) && Ordered(s.prioritized, Queued(s)[..|s.prioritized|])
    ensures Queued(s)[|s.prioritized|..] == s.waiting
    ensures Ordered(s.active, IdsOf(s, scan, ActiveJobs)) && Ordered(s.delayed, IdsOf(s, scan, DelayedJobs))
    ensures Ordered(s.completed, IdsOf(s, scan, CompletedJobs)) && Ordered(s.failed, IdsOf(s, scan, FailedJobs))
  {
    ByScoreSorted(s.prioritized);
    ByScoreSorted(s.active);
    ByScoreSorted(s.delayed);
    ByScoreSorted(s.completed);
    ByScoreSorted(s.failed);
    assert Queued(s)[..|s.prioritized|] == ByScore(s.prioritized);
  }

  /** Without `asc` a page reads from its last id to its first. */
  lemma ReverseExact(ids: seq<Id>, i: nat)
    requires i < |ids|
    ensures |Reverse(ids)| == |ids| && Reverse(ids)[i] == ids[|ids| - 1 - i]
    ensures Reverse(Reverse(ids)) == ids
  {
    var r := Reverse(ids);
    forall k | 0 <= k < |ids|
      ensures Reverse(r)[k] == ids[k]
    {
      assert r[|ids| - 1 - k] == ids[k];
    }
  }

  /** So on a right queue the deduplication never drops anything, and the pages that
      getJobs returns one after the other add up to the whole listing. */
  lemma PagesCoverTheQueue(s: State, scan: Scan, size: nat, n: nat)
    requires OnePlace(s) && Scans(s, scan) && size > 0 && n * size >= |Listing(s, scan, ALL_KINDS)|
    ensures FirstPages(Listing(s, scan, ALL_KINDS), size, n) == Listing(s, scan, ALL_KINDS)
    ensures forall start, end :: var page := Page(Listing(s, scan, ALL_KINDS), start, end); Dedup(page) == page
  {
    var all := Listing(s, scan, ALL_KINDS);
    ListingHasNoDup(s, scan);
    PagesTile(all, size, n);
    forall start, end
      ensures var page := Page(all, start, end); Dedup(page) == page
    {
      NoDupSlice(all, start, if end == -1 then None else Some(end));
    }
  }
}

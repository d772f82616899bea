/**
 The sliding-window limiter of rateLimit.lua. A member is drawn afresh for each
 call, and clocks do not run backwards.
 */
module Limiting {
  import opened Redis

  datatype Limits = Limits(duration: nat, max: nat)

  /** The limiter key: its members, and when Redis lets it expire. */
  datatype Window = Window(z: ZSet, expires: Option<int>)

  datatype Answer = Answer(allowed: bool, wait: int)

  const NOBODY := Window(map[], None)

  function Trimmed(z: ZSet, lim: Limits, now: int): ZSet
  {
    map m | m in z && !(0 <= z[m] <= now - lim.duration) :: z[m]
  }

  /** An expired key reads as empty. */
  function Seen(w: Window, now: int): ZSet
  {
    if w.expires.Some? && w.expires.value <= now then map[] else w.z
  }

  function WaitTime(z: ZSet, lim: Limits, now: int): int
  {
    if z == map[] then lim.duration
    else if z[Least(z)] + lim.duration - now < 0 then 0
    else z[Least(z)] + lim.duration - now
  }

  function Replied(w: Window, lim: Limits, now: int): Answer
  {
    var z := Trimmed(Seen(w, now), lim, now);
    if |z| < lim.max then Answer(true, 0) else Answer(false, WaitTime(z, lim, now))
  }

  function Acquired(w: Window, lim: Limits, now: int, member: Id): Window
  {
    var z := Trimmed(Seen(w, now), lim, now);
    if |z| < lim.max then Window(z[member := now], Some(now + lim.duration))
    else Window(z, if z == map[] || Seen(w, now) == map[] then None else w.expires)
  }

  class Limiter {
    const lim: Limits
    var z: ZSet
    var expires: Option<int>

    function Now(): Window
      reads this
    {
      Window(z, expires)
    }

    constructor (lim: Limits)
      ensures this.lim == lim && Now() == NOBODY
    {
      this.lim := lim;
      z, expires := map[], None;
    }

    method Acquire(now: int, member: Id) returns (answer: Answer)
      modifies this
      ensures answer == Replied(old(Now()), lim, now)
      ensures Now() == Acquired(old(Now()), lim, now, member)
    {
      if expires.Some? && expires.value <= now {
        z, expires := map[], None;
      }
      z := Trimmed(z, lim, now);
      if z == map[] {
        expires := None;
      }
      if |z| < lim.max {
        z := z[member := now];
        expires := Some(now + lim.duration);
        return Answer(true, 0);
      }
      var wait := lim.duration as int;
      if z != map[] {
        wait := z[Least(z)] + lim.duration - now;
      }
      if wait < 0 {
        wait := 0;
      }
      return Answer(false, wait);
    }
  }

  // ---- Runs ----

  datatype Call = Call(now: nat, member: Id)

  function RunCalls(w: Window, lim: Limits, calls: seq<Call>): Window
    decreases |calls|
  {
    if calls == [] then w else RunCalls(Acquired(w, lim, calls[0].now, calls[0].member), lim, calls[1..])
  }

  function LogAfter(w: Window, lim: Limits, log: map<Id, nat>, c: Call): map<Id, nat>
  {
    if Replied(w, lim, c.now).allowed then log[c.member := c.now] else log
  }

  /** When each admitted call was admitted. */
  function Admissions(w: Window, lim: Limits, calls: seq<Call>, log: map<Id, nat>): map<Id, nat>
    decreases |calls|
  {
    if calls == [] then log
    else
      var c := calls[0];
      Admissions(Acquired(w, lim, c.now, c.member), lim, calls[1..], LogAfter(w, lim, log, c))
  }

  ghost predicate InOrder(calls: seq<Call>, last: nat)
  {
    forall i :: 0 <= i < |calls| ==> last <= calls[i].now && forall j :: i <= j < |calls| ==> calls[i].now <= calls[j].now
  }

  ghost predicate FreshMembers(calls: seq<Call>, log: map<Id, nat>)
  {
    forall i :: 0 <= i < |calls| ==>
      calls[i].member !in log && forall j :: i < j < |calls| ==> calls[i].member != calls[j].member
  }

  /** The admissions in the window (t - duration, t]. */
  function InWindow(log: map<Id, nat>, lim: Limits, t: int): set<Id>
  {
    set m | m in log && t - lim.duration < log[m] <= t
  }

  /** What every run keeps: the key holds admissions, among them all those still
      in the window, no more than `max`, and it outlives each of them. */
  ghost predicate LimiterRight(w: Window, lim: Limits, log: map<Id, nat>, last: nat)
  {
    && |w.z| <= lim.max
    && (forall m :: m in w.z ==> m in log && w.z[m] == log[m])
    && (forall m :: m in log ==> log[m] <= last && (log[m] > last - lim.duration ==> m in w.z))
    && (w.expires == None ==> w.z == map[])
    && (w.expires.Some? ==> forall m :: m in w.z ==> w.z[m] + lim.duration <= w.expires.value)
    && Bounded(log, lim)
  }

  ghost predicate Bounded(log: map<Id, nat>, lim: Limits)
  {
    forall t :: |InWindow(log, lim, t)| <= lim.max
  }

  lemma SubsetSize<T>(a: set<T>, b: set<T>)
    requires a <= b
    ensures |a| <= |b|
    decreases a
  {
    if a == {} {
    } else {
      var x :| x in a;
      SubsetSize(a - {x}, b - {x});
    }
  }

  lemma TrimmedSize(z: ZSet, lim: Limits, now: int)
    ensures |Trimmed(z, lim, now)| <= |z|
  {
    SubsetSize(Trimmed(z, lim, now).Keys, z.Keys);
  }

  /** Expiry never changes an answer: what it removes is trimmed anyway. */
  lemma ExpiryIsInvisible(w: Window, lim: Limits, log: map<Id, nat>, last: nat, now: nat)
    requires LimiterRight(w, lim, log, last)
    ensures Trimmed(Seen(w, now), lim, now) == Trimmed(w.z, lim, now)
    ensures Replied(w, lim, now) == Replied(Window(w.z, None), lim, now)
  {
    if w.expires.Some? && w.expires.value <= now {
      forall m | m in w.z
        ensures 0 <= w.z[m] <= now - lim.duration
      {
      }
    }
  }

  lemma AdmittedKeepsWindows(z: ZSet, lim: Limits, log: map<Id, nat>, now: nat, member: Id, t: int)
    requires |z| < lim.max && member !in log
    requires forall m :: m in log && log[m] > now - lim.duration ==> m in z
    requires forall m :: m in log ==> log[m] <= now
    requires |InWindow(log, lim, t)| <= lim.max
    ensures |InWindow(log[member := now], lim, t)| <= lim.max
  {
    var before, after := InWindow(log, lim, t), InWindow(log[member := now], lim, t);
    if t < now {
      assert after == before;
    } else {
      SubsetSize(before, z.Keys);
      SubsetSize(after, before + {member});
    }
  }

  lemma AdmittedKeepsBounded(z: ZSet, lim: Limits, log: map<Id, nat>, now: nat, member: Id)
    requires |z| < lim.max && member !in log && Bounded(log, lim)
    requires forall m :: m in log && log[m] > now - lim.duration ==> m in z
    requires forall m :: m in log ==> log[m] <= now
    ensures Bounded(log[member := now], lim)
    ensures |z[member := now]| <= lim.max
  {
    assert z[member := now].Keys == z.Keys + {member};
    var log' := log[member := now];
    forall t
      ensures |InWindow(log', lim, t)| <= lim.max
    {
      AdmittedKeepsWindows(z, lim, log, now, member, t);
    }
  }

  lemma CallKeepsRight(w: Window, lim: Limits, log: map<Id, nat>, last: nat, c: Call)
    requires LimiterRight(w, lim, log, last) && last <= c.now && c.member !in log
    ensures LimiterRight(Acquired(w, lim, c.now, c.member), lim, LogAfter(w, lim, log, c), c.now)
  {
    var z := Trimmed(w.z, lim, c.now);
    ExpiryIsInvisible(w, lim, log, last, c.now);
    TrimmedSize(w.z, lim, c.now);
    if |z| < lim.max {
      AdmittedKeepsBounded(z, lim, log, c.now, c.member);
    }
  }

  function Latest(calls: seq<Call>, last: nat): nat
    decreases |calls|
  {
    if calls == [] then last else Latest(calls[1..], calls[0].now)
  }

  lemma {:induction false} RunKeepsLimiterRight(w: Window, lim: Limits, log: map<Id, nat>, last: nat, calls: seq<Call>)
    requires LimiterRight(w, lim, log, last) && InOrder(calls, last) && FreshMembers(calls, log)
    ensures LimiterRight(RunCalls(w, lim, calls), lim, Admissions(w, lim, calls, log), Latest(calls, last))
    decreases |calls|
  {
    if calls == [] {
    } else {
      var c := calls[0];
      var log' := LogAfter(w, lim, log, c);
      CallKeepsRight(w, lim, log, last, c);
      assert FreshMembers(calls[1..], log') by {
        forall i | 0 <= i < |calls[1..]|
          ensures calls[1..][i].member !in log'
          ensures forall j :: i < j < |calls[1..]| ==> calls[1..][i].member != calls[1..][j].member
        {
          assert calls[1..][i] == calls[i + 1];
        }
      }
      RunKeepsLimiterRight(Acquired(w, lim, c.now, c.member), lim, log', c.now, calls[1..]);
    }
  }

  /** Over any run, every window of the limiter's duration holds at most `max` admissions. */
  lemma RateIsBounded(lim: Limits, calls: seq<Call>, t: int)
    requires InOrder(calls, 0) && FreshMembers(calls, map[])
    ensures |InWindow(Admissions(NOBODY, lim, calls, map[]), lim, t)| <= lim.max
  {
    assert LimiterRight(NOBODY, lim, map[], 0) by {
      forall t
        ensures |InWindow(map[], lim, t)| <= lim.max
      {
        assert InWindow(map[], lim, t) == {};
      }
    }
    RunKeepsLimiterRight(NOBODY, lim, map[], 0, calls);
  }

  // ---- The wait a denied caller is told ----

  ghost predicate Denied(w: Window, lim: Limits, now: nat)
  {
    !Replied(w, lim, now).allowed
  }

  lemma WaitIsPositive(w: Window, lim: Limits, log: map<Id, nat>, last: nat, now: nat)
    requires LimiterRight(w, lim, log, last) && last <= now && Denied(w, lim, now) && lim.max > 0
    ensures var z := Trimmed(w.z, lim, now);
            && |z| == lim.max && z != map[]
            && Replied(w, lim, now).wait == z[Least(z)] + lim.duration - now
            && 0 < Replied(w, lim, now).wait <= lim.duration
  {
    ExpiryIsInvisible(w, lim, log, last, now);
    TrimmedSize(w.z, lim, now);
  }

  /** The key as a denied call at `now` leaves it: full, with room from `until` on. */
  ghost predicate FullUntil(w: Window, lim: Limits, until: int)
  {
    |w.z| == lim.max && w.z != map[] && until == w.z[Least(w.z)] + lim.duration
  }

  lemma DeniedLeavesFull(w: Window, lim: Limits, log: map<Id, nat>, last: nat, c: Call)
    requires LimiterRight(w, lim, log, last) && last <= c.now && Denied(w, lim, c.now) && lim.max > 0
    ensures var w' := Acquired(w, lim, c.now, c.member);
            FullUntil(w', lim, c.now + Replied(w, lim, c.now).wait) && LimiterRight(w', lim, log, c.now)
  {
    WaitIsPositive(w, lim, log, last, c.now);
    ExpiryIsInvisible(w, lim, log, last, c.now);
  }

  lemma FullAdmitsIff(w: Window, lim: Limits, log: map<Id, nat>, last: nat, until: int, c: Call)
    requires LimiterRight(w, lim, log, last) && last <= c.now && FullUntil(w, lim, until)
    ensures Replied(w, lim, c.now).allowed <==> c.now >= until
    ensures c.now < until ==>
              FullUntil(Acquired(w, lim, c.now, c.member), lim, until)
              && LimiterRight(Acquired(w, lim, c.now, c.member), lim, log, c.now)
  {
    ExpiryIsInvisible(w, lim, log, last, c.now);
    var m := Least(w.z);
    var z := Trimmed(w.z, lim, c.now);
    if c.now >= until {
      assert m !in z;
      SubsetSize(z.Keys, w.z.Keys - {m});
      assert |z| == |z.Keys| && |w.z| == |w.z.Keys|;
    } else {
      forall x | x in w.z
        ensures x in z
      {
        assert x == m || Before(w.z, m, x);
      }
      assert z == w.z;
    }
  }

  ghost predicate AllDenied(w: Window, lim: Limits, calls: seq<Call>)
    decreases |calls|
  {
    calls == [] || (Denied(w, lim, calls[0].now) && AllDenied(Acquired(w, lim, calls[0].now, calls[0].member), lim, calls[1..]))
  }

  lemma {:induction false} FullDeniesUntil(w: Window, lim: Limits, log: map<Id, nat>, last: nat, until: int,
                                           calls: seq<Call>, c: Call)
    requires LimiterRight(w, lim, log, last) && FullUntil(w, lim, until)
    requires InOrder(calls + [c], last)
    requires forall i :: 0 <= i < |calls| ==> calls[i].now < until
    ensures AllDenied(w, lim, calls)
    ensures Replied(RunCalls(w, lim, calls), lim, c.now).allowed <==> c.now >= until
    decreases |calls|
  {
    if calls == [] {
      assert (calls + [c])[0] == c;
      FullAdmitsIff(w, lim, log, last, until, c);
    } else {
      assert (calls + [c])[0] == calls[0];
      assert (calls + [c])[1..] == calls[1..] + [c];
      FullAdmitsIff(w, lim, log, last, until, calls[0]);
      FullDeniesUntil(Acquired(w, lim, calls[0].now, calls[0].member), lim, log, calls[0].now, until, calls[1..], c);
    }
  }

  /** The wait a denied caller is told is tight: it lies in 1..duration, every call
      made by anyone before it is over is denied, and the first one after is admitted. */
  lemma WaitIsTight(w: Window, lim: Limits, log: map<Id, nat>, last: nat, denied: Call, between: seq<Call>, c: Call)
    requires LimiterRight(w, lim, log, last) && last <= denied.now && Denied(w, lim, denied.now) && lim.max > 0
    requires InOrder(between + [c], denied.now)
    requires forall i :: 0 <= i < |between| ==> between[i].now < denied.now + Replied(w, lim, denied.now).wait
    ensures var wait := Replied(w, lim, denied.now).wait;
            var w' := Acquired(w, lim, denied.now, denied.member);
            && 0 < wait <= lim.duration
            && AllDenied(w', lim, between)
            && (Replied(RunCalls(w', lim, between), lim, c.now).allowed <==> c.now >= denied.now + wait)
  {
    WaitIsPositive(w, lim, log, last, denied.now);
    DeniedLeavesFull(w, lim, log, last, denied);
    FullDeniesUntil(Acquired(w, lim, denied.now, denied.member), lim, log, denied.now,
                    denied.now + Replied(w, lim, denied.now).wait, between, c);
  }

  /** A maximum of zero admits nobody, and always names the whole duration. */
  lemma ZeroMaxAdmitsNobody(w: Window, lim: Limits, log: map<Id, nat>, last: nat, now: nat)
    requires LimiterRight(w, lim, log, last) && lim.max == 0
    ensures Replied(w, lim, now) == Answer(false, lim.duration)
  {
    ExpiryIsInvisible(w, lim, log, last, now);
    TrimmedSize(w.z, lim, now);
  }
}

/** The sliding-window limiter: pruned lists per key that must agree with the
    whole history of accepted calls they stand for. */
module RateLimiter {

  datatype Limits = Limits(window: int, limit: int, capacity: int)

  type Entries = map<string, seq<int>>

  // --------------------------------------------------------- specification

  /** retainAfter: drops the prefix of times that are not after the cutoff. */
  function RetainAfter(times: seq<int>, cutoff: int): seq<int>
  {
    if times != [] && times[0] <= cutoff then RetainAfter(times[1..], cutoff) else times
  }

  predicate Ordered(times: seq<int>)
  {
    forall a, b | 0 <= a < b < |times| :: times[a] <= times[b]
  }

  /** On an ordered list what is retained are exactly the times after the cutoff. */
  lemma {:induction false} RetainAfterKeeps(times: seq<int>, cutoff: int, t: int)
    requires Ordered(times)
    ensures t in RetainAfter(times, cutoff) <==> t in times && t > cutoff
    ensures multiset(RetainAfter(times, cutoff))[t] == if t > cutoff then multiset(times)[t] else 0
  {
    if times != [] {
      assert times == [times[0]] + times[1..];
      if times[0] <= cutoff {
        RetainAfterKeeps(times[1..], cutoff, t);
      } else {
        assert forall a | 0 <= a < |times| :: times[a] >= times[0];
        assert t in times <==> t in multiset(times);
      }
    }
  }

  function Get(e: Entries, key: string): seq<int>
  {
    if key in e then e[key] else []
  }

  function Pruned(e: Entries, cutoff: int): Entries
  {
    map k | k in e && RetainAfter(e[k], cutoff) != [] :: RetainAfter(e[k], cutoff)
  }

  /** The map while pruning has still to visit some keys. */
  function PrunedExcept(e: Entries, rest: set<string>, cutoff: int): Entries
  {
    map k | k in e && (k in rest || RetainAfter(e[k], cutoff) != []) :: if k in rest then e[k] else RetainAfter(e[k], cutoff)
  }

  lemma PrunedStep(e: Entries, rest: set<string>, cutoff: int, k: string)
    requires k in rest && k in e
    ensures k in PrunedExcept(e, rest, cutoff) && PrunedExcept(e, rest, cutoff)[k] == e[k]
    ensures PrunedExcept(e, rest - {k}, cutoff)
         == if RetainAfter(e[k], cutoff) == [] then PrunedExcept(e, rest, cutoff) - {k}
            else PrunedExcept(e, rest, cutoff)[k := RetainAfter(e[k], cutoff)]
  {
    hide RetainAfter;
  }

  lemma PrunedEnds(e: Entries, cutoff: int)
    ensures PrunedExcept(e, e.Keys, cutoff) == e && PrunedExcept(e, {}, cutoff) == Pruned(e, cutoff)
  {
    hide RetainAfter;
  }

  function Allowed(l: Limits, e: Entries, key: string, now: int): (Entries, bool)
  {
    var p := Pruned(e, now - l.window);
    if key !in p && |p| >= l.capacity then (p, false)
    else if |Get(p, key)| >= l.limit then (p, false)
    else (p[key := Get(p, key) + [now]], true)
  }

  // -------------------------------------------------------- implementation

  method Retain(times: seq<int>, cutoff: int) returns (r: seq<int>)
    ensures r == RetainAfter(times, cutoff)
  {
    var index := 0;
    while index < |times| && times[index] <= cutoff
      invariant index <= |times|
      invariant RetainAfter(times[index..], cutoff) == RetainAfter(times, cutoff)
    {
      assert times[index..][1..] == times[index + 1..];
      index := index + 1;
    }
    r := times[index..];
  }

  class Limiter {
    const limits: Limits
    var entries: Entries

    constructor (limits: Limits)
      ensures this.limits == limits && entries == map[]
    {
      this.limits := limits;
      entries := map[];
    }

    /** Prunes every list in place, dropping the keys whose list empties. */
    method PruneAll(cutoff: int)
      modifies this
      ensures entries == Pruned(old(entries), cutoff)
    {
      hide RetainAfter, PrunedExcept, Pruned;
      var before := entries;
      var rest := entries.Keys;
      PrunedEnds(before, cutoff);
      while |rest| > 0
        invariant rest <= before.Keys
        invariant entries == PrunedExcept(before, rest, cutoff)
        decreases |rest|
      {
        SomeKey(rest);
        var k :| k in rest;
        PrunedStep(before, rest, cutoff, k);
        var kept := Retain(entries[k], cutoff);
        entries := if kept == [] then entries - {k} else entries[k := kept];
        rest := rest - {k};
      }
    }

    method Allow(key: string, now: int) returns (ok: bool)
      modifies this
      ensures (entries, ok) == Allowed(limits, old(entries), key, now)
    {
      PruneAll(now - limits.window);
      var found := key in entries;
      if !found && |entries| >= limits.capacity {
        return false;
      }
      var times := if found then entries[key] else [];
      if |times| >= limits.limit {
        return false;
      }
      entries := entries[key := times + [now]];
      ok := true;
    }
  }

  lemma SomeKey(s: set<string>)
    ensures |s| > 0 ==> exists k :: k in s
  {
    if forall k :: k !in s {
      assert forall k | k in s :: k in {};
      assert s <= {};
    }
  }

  // ------------------------------------------------------------------ runs

  datatype Call = Call(key: string, at: int, accepted: bool)

  /** The limiter's lists with the log of every call so far. */
  datatype State = State(entries: Entries, log: seq<Call>, last: int)

  function Step(l: Limits, s: State, key: string, now: int): State
  {
    var (e, ok) := Allowed(l, s.entries, key, now);
    State(e, s.log + [Call(key, now, ok)], now)
  }

  /** Calls with a nondecreasing clock. */
  predicate Clocked(from: int, calls: seq<(string, int)>)
    decreases |calls|
  {
    calls == [] || (from <= calls[0].1 && Clocked(calls[0].1, calls[1..]))
  }

  function Run(l: Limits, s: State, calls: seq<(string, int)>): State
    decreases |calls|
  {
    if calls == [] then s else Run(l, Step(l, s, calls[0].0, calls[0].1), calls[1..])
  }

  function Start(now: int): State
  {
    State(map[], [], now)
  }

  /** The times at which a key was let through. */
  function Accepted(log: seq<Call>, key: string): seq<int>
  {
    if log == [] then []
    else
      var c := log[|log| - 1];
      Accepted(log[..|log| - 1], key) + if c.accepted && c.key == key then [c.at] else []
  }

  /** How many times fall into the interval (from, to]. */
  function CountWithin(times: seq<int>, from: int, to: int): nat
  {
    if times == [] then 0
    else CountWithin(times[..|times| - 1], from, to) + if from < times[|times| - 1] <= to then 1 else 0
  }

  // -------------------------------------------------------------- invariant

  /** The stored list of a key is its accepted history after the cutoff. */
  predicate AgreesOn(l: Limits, s: State, k: string)
  {
    Get(s.entries, k) == RetainAfter(Accepted(s.log, k), s.last - l.window)
  }

  function AtMost(n: int): nat
  {
    if n > 0 then n else 0
  }

  predicate WithinLimit(l: Limits, times: seq<int>, to: int)
  {
    CountWithin(times, to - l.window, to) <= AtMost(l.limit)
  }

  ghost predicate Inv(l: Limits, s: State)
  {
    && (forall k :: AgreesOn(l, s, k))
    && (forall k, to :: WithinLimit(l, Accepted(s.log, k), to))
    && |s.entries| <= AtMost(l.capacity)
    && forall k | k in s.entries :: s.entries[k] != []
  }

  lemma {:induction false} RetainTwice(times: seq<int>, c: int, d: int)
    requires c <= d
    ensures RetainAfter(RetainAfter(times, c), d) == RetainAfter(times, d)
  {
    if times != [] && times[0] <= c { RetainTwice(times[1..], c, d); }
  }

  lemma {:induction false} RetainAppend(times: seq<int>, t: int, c: int)
    requires t > c
    ensures RetainAfter(times + [t], c) == RetainAfter(times, c) + [t]
  {
    if times != [] && times[0] <= c {
      assert (times + [t])[1..] == times[1..] + [t];
      RetainAppend(times[1..], t, c);
    }
  }

  lemma CountAppend(times: seq<int>, t: int, from: int, to: int)
    ensures CountWithin(times + [t], from, to) == CountWithin(times, from, to) + if from < t <= to then 1 else 0
  {
    assert (times + [t])[..|times|] == times;
  }

  /** Pruning never drops a time that a later window can still see. */
  lemma {:induction false} CountAtMostRetained(times: seq<int>, c: int, from: int, to: int)
    requires c <= from
    ensures CountWithin(times, from, to) <= |RetainAfter(times, c)|
    decreases |times|
  {
    if times != [] {
      var init, t := times[..|times| - 1], times[|times| - 1];
      assert times == init + [t];
      CountAtMostRetained(init, c, from, to);
      if t > c { RetainAppend(init, t, c); } else { DroppedLast(init, t, c); }
    }
  }

  lemma {:induction false} DroppedLast(times: seq<int>, t: int, c: int)
    requires t <= c
    ensures |RetainAfter(times, c)| <= |RetainAfter(times + [t], c)|
  {
    if times != [] && times[0] <= c {
      assert (times + [t])[1..] == times[1..] + [t];
      DroppedLast(times[1..], t, c);
    }
  }

  lemma PrunedGet(e: Entries, cutoff: int, k: string)
    ensures Get(Pruned(e, cutoff), k) == RetainAfter(Get(e, k), cutoff)
    ensures k in Pruned(e, cutoff) <==> RetainAfter(Get(e, k), cutoff) != []
  {
    assert RetainAfter([], cutoff) == [];
    hide RetainAfter;
  }

  lemma PrunedSmaller(e: Entries, cutoff: int)
    ensures |Pruned(e, cutoff)| <= |e|
    ensures forall k | k in Pruned(e, cutoff) :: Pruned(e, cutoff)[k] != []
  {
    hide RetainAfter;
    var p := Pruned(e, cutoff);
    assert p.Keys <= e.Keys;
    assert e.Keys == p.Keys + (e.Keys - p.Keys);
    assert |e.Keys| == |p.Keys| + |e.Keys - p.Keys|;
  }

  lemma AcceptedStep(log: seq<Call>, c: Call, k: string)
    ensures Accepted(log + [c], k) == Accepted(log, k) + if c.accepted && c.key == k then [c.at] else []
  {
    assert (log + [c])[..|log|] == log;
  }

  /** What the pruned map holds for a key, in terms of the history. */
  lemma PrunedHistory(l: Limits, s: State, now: int, k: string)
    requires s.last <= now && AgreesOn(l, s, k)
    ensures Get(Pruned(s.entries, now - l.window), k) == RetainAfter(Accepted(s.log, k), now - l.window)
    ensures k in Pruned(s.entries, now - l.window) <==> RetainAfter(Accepted(s.log, k), now - l.window) != []
  {
    hide RetainAfter, Pruned, Accepted;
    PrunedGet(s.entries, now - l.window, k);
    RetainTwice(Accepted(s.log, k), s.last - l.window, now - l.window);
  }

  lemma StepAgrees(l: Limits, s: State, key: string, now: int, k: string)
    requires l.window > 0 && s.last <= now && AgreesOn(l, s, k)
    ensures AgreesOn(l, Step(l, s, key, now), k)
  {
    hide RetainAfter, Pruned, Accepted;
    var t := Step(l, s, key, now);
    PrunedHistory(l, s, now, k);
    AcceptedStep(s.log, t.log[|s.log|], k);
    RetainAppend(Accepted(s.log, k), now, now - l.window);
    var times := Accepted(s.log, k);
    assert times + [] == times;
  }

  lemma StepWithinLimit(l: Limits, s: State, key: string, now: int, k: string, to: int)
    requires l.window > 0 && s.last <= now && AgreesOn(l, s, key) && WithinLimit(l, Accepted(s.log, k), to)
    ensures WithinLimit(l, Accepted(Step(l, s, key, now).log, k), to)
  {
    hide RetainAfter, Pruned, Accepted, CountWithin;
    var t := Step(l, s, key, now);
    AcceptedStep(s.log, t.log[|s.log|], k);
    var times := Accepted(s.log, k);
    if t.log[|s.log|].accepted && k == key {
      CountAppend(times, now, to - l.window, to);
      PrunedHistory(l, s, now, key);
      if to >= now { CountAtMostRetained(times, now - l.window, to - l.window, to); }
    } else {
      assert times + [] == times;
    }
  }

  lemma AddedSize(p: Entries, key: string, times: seq<int>)
    ensures |p[key := times]| == if key in p then |p| else |p| + 1
  {
    assert p[key := times].Keys == p.Keys + {key};
    assert |p[key := times]| == |p.Keys + {key}|;
  }

  lemma StepKeeps(l: Limits, s: State, key: string, now: int)
    requires l.window > 0 && s.last <= now && Inv(l, s)
    ensures Inv(l, Step(l, s, key, now))
  {
    hide RetainAfter, Pruned, Accepted, AgreesOn, WithinLimit;
    var t := Step(l, s, key, now);
    forall k ensures AgreesOn(l, t, k) { StepAgrees(l, s, key, now, k); }
    forall k, to ensures WithinLimit(l, Accepted(t.log, k), to) { StepWithinLimit(l, s, key, now, k, to); }
    var p := Pruned(s.entries, now - l.window);
    PrunedSmaller(s.entries, now - l.window);
    AddedSize(p, key, Get(p, key) + [now]);
  }

  lemma {:induction false} RunKeeps(l: Limits, s: State, calls: seq<(string, int)>)
    requires l.window > 0 && Inv(l, s) && Clocked(s.last, calls)
    ensures Inv(l, Run(l, s, calls))
    decreases |calls|
  {
    hide Inv, Allowed;
    if calls != [] {
      StepKeeps(l, s, calls[0].0, calls[0].1);
      RunKeeps(l, Step(l, s, calls[0].0, calls[0].1), calls[1..]);
    }
  }

  lemma StartInv(l: Limits, now: int)
    ensures Inv(l, Start(now))
  {
    forall k ensures AgreesOn(l, Start(now), k) {}
  }

  // --------------------------------------------------------------- theorems

  /** After any run each stored list is exactly the accepted history after the
      last cutoff, and the map never exceeds its capacity. */
  lemma StoredIsRecentHistory(l: Limits, now: int, calls: seq<(string, int)>, key: string)
    requires l.window > 0 && Clocked(now, calls)
    ensures var s := Run(l, Start(now), calls);
            && Get(s.entries, key) == RetainAfter(Accepted(s.log, key), s.last - l.window)
            && |s.entries| <= (if l.capacity > 0 then l.capacity else 0)
  {
    hide Run, Clocked, Accepted, RetainAfter;
    StartInv(l, now);
    RunKeeps(l, Start(now), calls);
    assert AgreesOn(l, Run(l, Start(now), calls), key);
  }

  // ------------------------------------------------ in numbers of calls

  /** The calls of a key that were let through in the interval (from, to]. */
  ghost function LetThrough(log: seq<Call>, key: string, from: int, to: int): set<nat>
  {
    set n: nat | n < |log| && log[n].accepted && log[n].key == key && from < log[n].at <= to
  }

  lemma {:induction false} CountIsCardinal(log: seq<Call>, key: string, from: int, to: int)
    ensures CountWithin(Accepted(log, key), from, to) == |LetThrough(log, key, from, to)|
  {
    if log == [] {
      assert LetThrough(log, key, from, to) == {};
    } else {
      var m, init := |log| - 1, log[..|log| - 1];
      CountIsCardinal(init, key, from, to);
      AcceptedStep(init, log[m], key);
      assert log == init + [log[m]];
      LetThroughGrows(log, key, from, to);
      hide LetThrough, CountWithin, Accepted;
      CountAppend(Accepted(init, key), log[m].at, from, to);
      assert Accepted(init, key) + [] == Accepted(init, key);
    }
  }

  lemma LetThroughGrows(log: seq<Call>, key: string, from: int, to: int)
    requires log != []
    ensures var m, init := |log| - 1, log[..|log| - 1];
            var hit := log[m].accepted && log[m].key == key && from < log[m].at <= to;
            |LetThrough(log, key, from, to)| == |LetThrough(init, key, from, to)| + if hit then 1 else 0
  {
    var m, init := |log| - 1, log[..|log| - 1];
    assert forall n | 0 <= n < m :: init[n] == log[n];
    var hit := log[m].accepted && log[m].key == key && from < log[m].at <= to;
    assert LetThrough(log, key, from, to) == if hit then LetThrough(init, key, from, to) + {m} else LetThrough(init, key, from, to);
  }

  lemma {:induction false} RetainIsCount(times: seq<int>, from: int, to: int)
    requires Ordered(times) && forall k | 0 <= k < |times| :: times[k] <= to
    ensures |RetainAfter(times, from)| == CountWithin(times, from, to)
    decreases |times|
  {
    if times != [] {
      var init, t := times[..|times| - 1], times[|times| - 1];
      assert times == init + [t];
      RetainIsCount(init, from, to);
      if t > from { RetainAppend(init, t, from); } else {
        AllDropped(times, from);
        AllDropped(init, from);
      }
    }
  }

  lemma {:induction false} AllDropped(times: seq<int>, cutoff: int)
    requires forall k | 0 <= k < |times| :: times[k] <= cutoff
    ensures RetainAfter(times, cutoff) == []
  {
    if times != [] { AllDropped(times[1..], cutoff); }
  }

  /** The log lists the calls as they were made, in their order. */
  ghost predicate Lists(log: seq<Call>, calls: seq<(string, int)>)
  {
    |log| == |calls| && forall n | 0 <= n < |log| :: log[n].key == calls[n].0 && log[n].at == calls[n].1
  }

  predicate Timed(s: State)
  {
    && (forall a, b | 0 <= a < b < |s.log| :: s.log[a].at <= s.log[b].at)
    && (forall a | 0 <= a < |s.log| :: s.log[a].at <= s.last)
  }

  lemma {:induction false} RunLists(l: Limits, s: State, calls: seq<(string, int)>, done: seq<(string, int)>)
    requires Lists(s.log, done) && Timed(s) && Clocked(s.last, calls)
    ensures Lists(Run(l, s, calls).log, done + calls) && Timed(Run(l, s, calls))
    decreases |calls|
  {
    hide Allowed;
    if calls == [] {
      assert done + calls == done;
    } else {
      RunLists(l, Step(l, s, calls[0].0, calls[0].1), calls[1..], done + [calls[0]]);
      assert done + [calls[0]] + calls[1..] == done + calls;
    }
  }

  /** After any run the log is the list of calls made. */
  lemma EveryCallIsLogged(l: Limits, now: int, calls: seq<(string, int)>)
    requires Clocked(now, calls)
    ensures Lists(Run(l, Start(now), calls).log, calls) && Timed(Run(l, Start(now), calls))
  {
    RunLists(l, Start(now), calls, []);
    assert [] + calls == calls;
  }

  lemma {:induction false} AcceptedTimed(log: seq<Call>, key: string, last: int)
    requires forall a, b | 0 <= a < b < |log| :: log[a].at <= log[b].at
    requires forall a | 0 <= a < |log| :: log[a].at <= last
    ensures Ordered(Accepted(log, key)) && forall k | 0 <= k < |Accepted(log, key)| :: Accepted(log, key)[k] <= last
  {
    if log != [] {
      var init, c := log[..|log| - 1], log[|log| - 1];
      AcceptedTimed(init, key, c.at);
      AcceptedStep(init, c, key);
    }
  }

  /** No interval as long as the window holds more accepted calls of a key than
      the limit. */
  lemma WindowNeverExceeded(l: Limits, now: int, calls: seq<(string, int)>, key: string, to: int)
    requires l.window > 0 && Clocked(now, calls)
    ensures |LetThrough(Run(l, Start(now), calls).log, key, to - l.window, to)| <= if l.limit > 0 then l.limit else 0
  {
    var s := Run(l, Start(now), calls);
    CountIsCardinal(s.log, key, to - l.window, to);
    hide Run, Clocked, Accepted, CountWithin, LetThrough;
    StartInv(l, now);
    RunKeeps(l, Start(now), calls);
    assert WithinLimit(l, Accepted(s.log, key), to);
  }

  /** The key was let through within the window that ends now. */
  ghost predicate Recent(l: Limits, s: State, now: int, k: string)
  {
    LetThrough(s.log, k, now - l.window, now) != {}
  }

  ghost function RecentKeys(l: Limits, s: State, now: int): set<string>
  {
    set k | k in s.entries && Recent(l, s, now, k)
  }

  /** A call is let through exactly when its key was accepted fewer times than the
      limit within the window, and the key is recent or fewer keys than the
      capacity are. */
  lemma AllowedExactly(l: Limits, now: int, calls: seq<(string, int)>, key: string, at: int)
    requires l.window > 0 && Clocked(now, calls) && Run(l, Start(now), calls).last <= at
    ensures var s := Run(l, Start(now), calls);
            && (forall k :: Recent(l, s, at, k) <==> k in RecentKeys(l, s, at))
            && (Allowed(l, s.entries, key, at).1 <==>
                  && |LetThrough(s.log, key, at - l.window, at)| < l.limit
                  && (Recent(l, s, at, key) || |RecentKeys(l, s, at)| < l.capacity))
  {
    hide Run, Clocked, Accepted, RetainAfter, Pruned;
    StartInv(l, now);
    RunKeeps(l, Start(now), calls);
    EveryCallIsLogged(l, now, calls);
    AllowedFrom(l, Run(l, Start(now), calls), key, at);
  }

  lemma RetainedAreLetThrough(l: Limits, s: State, at: int, k: string)
    requires Timed(s) && s.last <= at
    ensures |RetainAfter(Accepted(s.log, k), at - l.window)| == |LetThrough(s.log, k, at - l.window, at)|
  {
    AcceptedTimed(s.log, k, s.last);
    CountIsCardinal(s.log, k, at - l.window, at);
    RetainIsCount(Accepted(s.log, k), at - l.window, at);
  }

  lemma AllowedFrom(l: Limits, s: State, key: string, at: int)
    requires Inv(l, s) && Timed(s) && s.last <= at
    ensures forall k :: Recent(l, s, at, k) <==> k in RecentKeys(l, s, at)
    ensures Allowed(l, s.entries, key, at).1 <==>
              && |LetThrough(s.log, key, at - l.window, at)| < l.limit
              && (Recent(l, s, at, key) || |RecentKeys(l, s, at)| < l.capacity)
  {
    hide Accepted, RetainAfter, Pruned, WithinLimit, AgreesOn, LetThrough, Timed;
    var p := Pruned(s.entries, at - l.window);
    forall k ensures (k in p <==> Recent(l, s, at, k)) && (k in p ==> k in s.entries) {
      assert AgreesOn(l, s, k);
      PrunedHistory(l, s, at, k);
      PrunedKeys(s.entries, at - l.window, k);
      RetainedAreLetThrough(l, s, at, k);
    }
    PrunedHistory(l, s, at, key);
    RetainedAreLetThrough(l, s, at, key);
    assert p.Keys == RecentKeys(l, s, at);
    assert |p| == |p.Keys|;
  }

  lemma PrunedKeys(e: Entries, cutoff: int, k: string)
    ensures k in Pruned(e, cutoff) ==> k in e
  {
  }
}

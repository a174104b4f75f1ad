/** The bounded search that shows the newest traffic of a pool to be nothing but
    hard errors, using only counts over time intervals. Times are nanoseconds. */
module TrafficTail {
  import opened Options

  const MINUTE := 60 * 1000000000
  const ROUNDS := 12
  const RESOLUTION := 4096

  /** A traffic record; `hard` marks the error classes that count as hard. */
  datatype Record = Record(at: int, hard: bool)

  datatype Aggregate = Aggregate(samples: nat, hard: nat)

  predicate Within(r: Record, since: int, until: int)
  {
    since <= r.at < until
  }

  /** aggregateTraffic over the pool's records: both counts for [since, until). */
  function AggregateTraffic(records: seq<Record>, since: int, until: int): Aggregate
  {
    if records == [] then Aggregate(0, 0)
    else
      var rest, last := AggregateTraffic(records[..|records| - 1], since, until), records[|records| - 1];
      if !Within(last, since, until) then rest
      else Aggregate(rest.samples + 1, rest.hard + if last.hard then 1 else 0)
  }

  /** Every record in the interval is a hard error. */
  ghost predicate AllHard(records: seq<Record>, since: int, until: int)
  {
    forall r | r in records && since <= r.at < until :: r.hard
  }

  lemma {:induction false} HardAtMostSamples(records: seq<Record>, since: int, until: int)
    ensures var a := AggregateTraffic(records, since, until);
            a.hard <= a.samples && (a.hard == a.samples <==> AllHard(records, since, until))
  {
    if records != [] {
      HardAtMostSamples(records[..|records| - 1], since, until);
      assert records == records[..|records| - 1] + [records[|records| - 1]];
    }
  }

  /** A later start sees no more records. */
  lemma {:induction false} LaterSeesFewer(records: seq<Record>, since: int, later: int, until: int)
    requires since <= later
    ensures AggregateTraffic(records, later, until).samples <= AggregateTraffic(records, since, until).samples
    ensures AggregateTraffic(records, later, until).hard <= AggregateTraffic(records, since, until).hard
  {
    if records != [] { LaterSeesFewer(records[..|records| - 1], since, later, until); }
  }

  function Pow2(n: nat): nat
  {
    if n == 0 then 1 else 2 * Pow2(n - 1)
  }

  /** The records of a tail, by their positions. */
  ghost function Tail(records: seq<Record>, since: int, now: int): set<nat>
  {
    set k: nat | k < |records| && since <= records[k].at <= now
  }

  ghost function HardIn(records: seq<Record>, since: int, now: int): set<nat>
  {
    set k: nat | k < |records| && since <= records[k].at <= now && records[k].hard
  }

  /** The verdict stands on that many of the newest records. */
  ghost predicate Enough(records: seq<Record>, since: int, now: int, required: int)
  {
    |Tail(records, since, now)| >= required
  }

  lemma {:induction false} SamplesAreTail(records: seq<Record>, since: int, now: int)
    ensures AggregateTraffic(records, since, now + 1).samples == |Tail(records, since, now)|
    ensures AggregateTraffic(records, since, now + 1).hard == |HardIn(records, since, now)|
  {
    if records == [] {
      assert Tail(records, since, now) == {} && HardIn(records, since, now) == {};
    } else {
      SamplesAreTail(records[..|records| - 1], since, now);
      TailGrows(records, since, now);
      HardGrows(records, since, now);
      hide Tail, HardIn;
    }
  }

  lemma TailGrows(records: seq<Record>, since: int, now: int)
    requires records != []
    ensures var n, init := |records| - 1, records[..|records| - 1];
            |Tail(records, since, now)| == |Tail(init, since, now)| + if Within(records[n], since, now + 1) then 1 else 0
  {
    var n, init := |records| - 1, records[..|records| - 1];
    assert forall k | 0 <= k < n :: init[k] == records[k];
    assert Tail(records, since, now) == if Within(records[n], since, now + 1) then Tail(init, since, now) + {n} else Tail(init, since, now);
  }

  lemma HardGrows(records: seq<Record>, since: int, now: int)
    requires records != []
    ensures var n, init := |records| - 1, records[..|records| - 1];
            |HardIn(records, since, now)| == |HardIn(init, since, now)| + if Within(records[n], since, now + 1) && records[n].hard then 1 else 0
  {
    var n, init := |records| - 1, records[..|records| - 1];
    assert forall k | 0 <= k < n :: init[k] == records[k];
    assert HardIn(records, since, now)
        == if Within(records[n], since, now + 1) && records[n].hard then HardIn(init, since, now) + {n} else HardIn(init, since, now);
  }

  /** hasConsecutiveHardTraffic. Queries are numbered; a failing one ends the
      search with an error. `low` reports where the accepted tail starts. */
  method HasConsecutiveHardTraffic(records: seq<Record>, now: int, windowMinutes: nat, required: int, fails: nat -> bool)
      returns (result: Option<bool>, ghost low: int)
    // true: within the window, from `low` on there are enough records and all of them are hard
    ensures result == Some(true) ==>
              now - windowMinutes * 60000000000 <= low <= now && Enough(records, low, now, required) && AllHard(records, low, now + 1)
    // and it is found whenever some tail with enough records is hard with a margin
    ensures result == Some(false) ==>
              forall t | now - windowMinutes * 60000000000 <= t <= now && Enough(records, t, now, required) ::
                !HardWithMargin(records, t, now, windowMinutes)
    // it ends with an error exactly when a query fails that is made: the first, or,
    // with enough hard records in the window, one of the twelve that follow
    ensures result.None? <==>
              fails(0) || (|HardIn(records, now - windowMinutes * 60000000000, now)| >= required && exists q | 1 <= q <= 12 :: fails(q))
  {
    hide AggregateTraffic, Tail, HardIn;
    var start := now - windowMinutes * MINUTE;
    low := start;
    if fails(0) {
      return None, low;
    }
    var best := AggregateTraffic(records, start, now + 1);
    SamplesAreTail(records, start, now);
    HardAtMostSamples(records, start, now + 1);
    if best.samples < required || best.hard < required {
      forall t | start <= t <= now && Enough(records, t, now, required)
        ensures !HardWithMargin(records, t, now, windowMinutes) {
        LaterSeesFewer(records, start, t, now + 1);
        SamplesAreTail(records, t, now);
        HardAtMostSamples(records, t, now + 1);
        if HardWithMargin(records, t, now, windowMinutes) { HardTail(records, t, now, windowMinutes); }
      }
      return Some(false), low;
    }
    var from, to := start, now;
    for round := 0 to ROUNDS
      invariant start <= from <= to <= now
      invariant best == AggregateTraffic(records, from, now + 1) && best.samples >= required
      invariant forall q | 1 <= q <= round :: !fails(q)
      invariant to == now || !Enough(records, to, now, required)
      invariant (to - from) * Pow2(round) <= windowMinutes * MINUTE + Pow2(round) - 1
    {
      if fails(round + 1) {
        return None, from;
      }
      var mid := from + (to - from) / 2;
      Halved(to - from, Pow2(round), windowMinutes * MINUTE);
      var tail := AggregateTraffic(records, mid, now + 1);
      SamplesAreTail(records, mid, now);
      if tail.samples >= required {
        from, best := mid, tail;
      } else {
        to := mid;
      }
    }
    low := from;
    SamplesAreTail(records, from, now);
    HardAtMostSamples(records, from, now + 1);
    assert Pow2(ROUNDS) == RESOLUTION;
    result := Some(best.samples >= required && best.samples == best.hard);
    if result == Some(false) {
      forall t | start <= t <= now && Enough(records, t, now, required)
        ensures !HardWithMargin(records, t, now, windowMinutes) {
        if t > to {
          LaterSeesFewer(records, to, t, now + 1);
          SamplesAreTail(records, to, now);
          SamplesAreTail(records, t, now);
        }
        NotHardBefore(records, from, to, t, now, windowMinutes);
      }
    }
  }

  /** The tail from `t` is all hard, even when widened within the window by the
      resolution of the search. */
  ghost predicate HardWithMargin(records: seq<Record>, t: int, now: int, windowMinutes: nat)
  {
    var start, widened := now - windowMinutes * 60000000000, t - windowMinutes * 60000000000 / 4096 - 1;
    AllHard(records, if widened < start then start else widened, now + 1)
  }

  lemma HardTail(records: seq<Record>, t: int, now: int, windowMinutes: nat)
    requires HardWithMargin(records, t, now, windowMinutes) && now - windowMinutes * MINUTE <= t
    ensures AllHard(records, t, now + 1)
  {
    forall r | r in records && Within(r, t, now + 1) ensures r.hard {
      var start, widened := now - windowMinutes * MINUTE, t - windowMinutes * MINUTE / RESOLUTION - 1;
      assert Within(r, if widened < start then start else widened, now + 1);
    }
  }

  lemma Halved(width: int, scale: nat, window: nat)
    requires width >= 0 && width * scale <= window + scale - 1
    ensures (width / 2) * (2 * scale) <= window + 2 * scale - 1
    ensures (width - width / 2) * (2 * scale) <= window + 2 * scale - 1
  {
    var half := width / 2;
    assert half * (2 * scale) == (2 * half) * scale;
    assert (width - half) * (2 * scale) == (2 * (width - half)) * scale;
    if width % 2 == 0 {
      assert 2 * half == width && 2 * (width - half) == width;
    } else {
      assert 2 * half == width - 1 && 2 * (width - half) == width + 1;
      assert (width + 1) * scale == width * scale + scale;
      assert (width - 1) * scale == width * scale - scale;
    }
  }

  /** A record that is not hard lies within the resolution before the boundary. */
  lemma NotHardBefore(records: seq<Record>, from: int, to: int, t: int, now: int, windowMinutes: nat)
    requires now - windowMinutes * MINUTE <= from <= to <= now && t <= to && !AllHard(records, from, now + 1)
    requires (to - from) * RESOLUTION <= windowMinutes * MINUTE + RESOLUTION - 1
    ensures !HardWithMargin(records, t, now, windowMinutes)
  {
    var margin := windowMinutes * MINUTE / RESOLUTION + 1;
    assert to - from <= margin;
    var r :| r in records && from <= r.at < now + 1 && !r.hard;
    var start := now - windowMinutes * MINUTE;
    assert Within(r, if t - margin < start then start else t - margin, now + 1);
  }
}

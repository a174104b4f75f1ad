/** Staged account health: how one monitor result is merged, classified and
    turned into the next stage. Times are nanoseconds, scores and rates reals. */
module HealthStages {
  import opened Options
  import Ordering

  const MINUTE := 60 * 1000000000
  const DAY := 24 * 60 * MINUTE

  datatype MonitorStatus = Operational | DegradedStatus | FailedStatus | ErrorStatus | OtherStatus

  datatype Stage = Healthy | Watch | Degraded | Quarantined | Recovering25 | Recovering50 | Frozen | OtherStage

  datatype Observation = Observation(checkedAt: int, status: MonitorStatus, latency: int, score: real, decryptFailed: bool)

  datatype Settings = Settings(
    healthyScore: int,
    watchScore: int,
    quarantineScore: int,
    minSamples: int,
    latencyWarning: int,
    quarantineMinutes: int,
    recoveryWindow: int,
    recoverySuccesses: int,
    trialMinutes: int)

  const DEFAULTS := Settings(80, 60, 35, 10, 8000, 5, 10, 8, 5)

  /** NormalizeSettings, for the fields that the stages depend on. */
  function Normalized(s: Settings): (r: Settings)
    ensures r.recoveryWindow >= 2 && r.quarantineMinutes > 0 && r.trialMinutes > 0 && r.minSamples > 0
    ensures 0 < r.recoverySuccesses <= r.recoveryWindow
  {
    var healthy := if s.healthyScore <= 0 || s.healthyScore > 100 then DEFAULTS.healthyScore else s.healthyScore;
    var watch := if s.watchScore <= 0 || s.watchScore >= healthy then DEFAULTS.watchScore else s.watchScore;
    var quarantine := if s.quarantineScore <= 0 || s.quarantineScore >= watch then DEFAULTS.quarantineScore else s.quarantineScore;
    var window := if s.recoveryWindow < 2 then DEFAULTS.recoveryWindow else s.recoveryWindow;
    var fallback := if DEFAULTS.recoverySuccesses <= window then DEFAULTS.recoverySuccesses else window;
    Settings(healthy, watch, quarantine,
             if s.minSamples <= 0 then DEFAULTS.minSamples else s.minSamples,
             if s.latencyWarning <= 0 then DEFAULTS.latencyWarning else s.latencyWarning,
             if s.quarantineMinutes <= 0 then DEFAULTS.quarantineMinutes else s.quarantineMinutes,
             window,
             if s.recoverySuccesses <= 0 || s.recoverySuccesses > window then fallback else s.recoverySuccesses,
             if s.trialMinutes <= 0 then DEFAULTS.trialMinutes else s.trialMinutes)
  }

  /** Values in range are kept, others replaced by the defaults; fewer successes
      than the default are asked for when the window is shorter. */
  lemma NormalizedMeans(raw: Settings)
    ensures var s := Normalized(raw);
            && s.healthyScore == (if 1 <= raw.healthyScore <= 100 then raw.healthyScore else 80)
            && s.watchScore == (if 1 <= raw.watchScore < s.healthyScore then raw.watchScore else 60)
            && s.quarantineScore == (if 1 <= raw.quarantineScore < s.watchScore then raw.quarantineScore else 35)
            && s.minSamples == (if 1 <= raw.minSamples then raw.minSamples else 10)
            && s.latencyWarning == (if 1 <= raw.latencyWarning then raw.latencyWarning else 8000)
            && s.quarantineMinutes == (if 1 <= raw.quarantineMinutes then raw.quarantineMinutes else 5)
            && s.trialMinutes == (if 1 <= raw.trialMinutes then raw.trialMinutes else 5)
            && s.recoveryWindow == (if 2 <= raw.recoveryWindow then raw.recoveryWindow else 10)
            && (1 <= raw.recoverySuccesses <= s.recoveryWindow ==> s.recoverySuccesses == raw.recoverySuccesses)
            && (!(1 <= raw.recoverySuccesses <= s.recoveryWindow) ==> s.recoverySuccesses <= 8 && (s.recoverySuccesses == 8 || s.recoverySuccesses == s.recoveryWindow))
  {
  }

  // --------------------------------------------------------------- merging

  predicate Ordered(s: seq<Observation>)
  {
    forall i, j | 0 <= i < j < |s| :: s[i].checkedAt < s[j].checkedAt
  }

  /** One observation per check time, the newcomer replacing an older one. */
  function Insert(s: seq<Observation>, o: Observation): (r: seq<Observation>)
    requires Ordered(s)
    ensures Ordered(r)
    ensures forall k | 0 <= k < |r| :: r[k] == o || r[k] in s
  {
    if s == [] then [o]
    else if o.checkedAt < s[0].checkedAt then [o] + s
    else if o.checkedAt == s[0].checkedAt then [o] + s[1..]
    else [s[0]] + Insert(s[1..], o)
  }

  lemma {:induction false} InsertMembers(s: seq<Observation>, o: Observation, x: Observation)
    requires Ordered(s)
    ensures x in Insert(s, o) <==> x == o || (x in s && x.checkedAt != o.checkedAt)
  {
    if s != [] {
      TailMember(s, x);
      if o.checkedAt > s[0].checkedAt { InsertMembers(s[1..], o, x); }
    }
  }

  predicate InWindow(o: Observation, now: int)
  {
    now - DAY <= o.checkedAt <= now + MINUTE
  }

  function MergedHistory(history: seq<Observation>, now: int): (r: seq<Observation>)
    ensures Ordered(r)
  {
    if history == [] then []
    else
      var rest := MergedHistory(history[..|history| - 1], now);
      var o := history[|history| - 1];
      if InWindow(o, now) then Insert(rest, o) else rest
  }

  const ZERO_TIME := 0

  /** The last day's observations in order, one per check time. */
  function Merged(history: seq<Observation>, current: Option<Observation>, now: int): (r: seq<Observation>)
    ensures Ordered(r)
  {
    var h := MergedHistory(history, now);
    if current.Some? && current.value.checkedAt != ZERO_TIME then Insert(h, current.value) else h
  }

  /** The map by check time that stands for an ordered list. */
  ghost predicate Indexes(byTime: map<int, Observation>, s: seq<Observation>)
  {
    && (forall t | t in byTime :: byTime[t].checkedAt == t && byTime[t] in s)
    && (forall o | o in s :: o.checkedAt in byTime && byTime[o.checkedAt] == o)
  }

  lemma InsertIndexes(byTime: map<int, Observation>, s: seq<Observation>, o: Observation)
    requires Ordered(s) && Indexes(byTime, s)
    ensures Indexes(byTime[o.checkedAt := o], Insert(s, o))
  {
    forall x ensures x in Insert(s, o) <==> x == o || (x in s && x.checkedAt != o.checkedAt) { InsertMembers(s, o, x); }
  }

  lemma {:induction false} OrderedUnique(a: seq<Observation>, b: seq<Observation>)
    requires Ordered(a) && Ordered(b) && forall o :: o in a <==> o in b
    ensures a == b
  {
    assert b == [] || b[0] in a;
    if a != [] {
      assert a[0] in b;
      forall o ensures o in a[1..] <==> o in b[1..] {
        TailMember(a, o);
        TailMember(b, o);
      }
      OrderedUnique(a[1..], b[1..]);
      assert a == [a[0]] + a[1..] && b == [b[0]] + b[1..];
    }
  }

  lemma TailMember(s: seq<Observation>, o: Observation)
    requires Ordered(s) && s != []
    ensures o in s[1..] <==> o in s && o != s[0]
  {
    assert s == [s[0]] + s[1..];
    if o in s[1..] {
      var k :| 0 <= k < |s| - 1 && s[1..][k] == o;
      assert s[0].checkedAt < s[k + 1].checkedAt;
    }
  }

  predicate Earlier(a: Observation, b: Observation)
  {
    a.checkedAt < b.checkedAt
  }

  lemma SomeTime(s: set<int>)
    ensures |s| > 0 ==> exists t :: t in s
  {
    if forall t :: t !in s {
      assert forall t | t in s :: t in {};
      assert s <= {};
    }
  }

  /** mergeObservations: index by check time, collect, sort. */
  method MergeObservations(history: seq<Observation>, current: Option<Observation>, now: int) returns (result: seq<Observation>)
    ensures result == Merged(history, current, now)
  {
    var byTime: map<int, Observation> := map[];
    for n := 0 to |history|
      invariant Indexes(byTime, MergedHistory(history[..n], now))
    {
      assert history[..n + 1][..n] == history[..n];
      if InWindow(history[n], now) {
        InsertIndexes(byTime, MergedHistory(history[..n], now), history[n]);
        byTime := byTime[history[n].checkedAt := history[n]];
      }
    }
    assert history[..|history|] == history;
    if current.Some? && current.value.checkedAt != ZERO_TIME {
      InsertIndexes(byTime, MergedHistory(history, now), current.value);
      byTime := byTime[current.value.checkedAt := current.value];
    }
    result := Values(byTime, Merged(history, current, now));
  }

  method Values(byTime: map<int, Observation>, ghost expected: seq<Observation>) returns (result: seq<Observation>)
    requires Ordered(expected) && Indexes(byTime, expected)
    ensures result == expected
  {
    var values: seq<Observation> := [];
    var rest := byTime.Keys;
    while |rest| > 0
      invariant rest <= byTime.Keys
      invariant forall i, j | 0 <= i < j < |values| :: values[i].checkedAt != values[j].checkedAt
      invariant forall o :: o in values <==> o.checkedAt in byTime && o.checkedAt !in rest && byTime[o.checkedAt] == o
      decreases |rest|
    {
      SomeTime(rest);
      var t :| t in rest;
      forall k | 0 <= k < |values| ensures values[k].checkedAt != t { assert values[k] in values; }
      values := values + [byTime[t]];
      rest := rest - {t};
    }
    result := Ordering.SortSlice(Earlier, values);
    forall o ensures o in result <==> o in expected {
      assert o in result <==> o in multiset(result);
      assert o in values <==> o in multiset(values);
    }
    SortedIsOrdered(values, result);
    OrderedUnique(result, expected);
  }

  lemma SortedIsOrdered(values: seq<Observation>, result: seq<Observation>)
    requires multiset(result) == multiset(values) && Ordering.Sorted(Earlier, result)
    requires forall i, j | 0 <= i < j < |values| :: values[i].checkedAt != values[j].checkedAt
    ensures Ordered(result)
  {
    forall i, j | 0 <= i < j < |result| ensures result[i].checkedAt < result[j].checkedAt {
      assert result[i] in multiset(values) && result[j] in multiset(values);
      AtMostOnce(values, result[i], result[j]);
      TwoPlaces(result, i, j);
    }
  }

  lemma AtMostOnce(values: seq<Observation>, x: Observation, y: Observation)
    requires forall i, j | 0 <= i < j < |values| :: values[i].checkedAt != values[j].checkedAt
    requires x in values && y in values
    ensures multiset(values)[x] == 1 && (x.checkedAt == y.checkedAt ==> x == y)
  {
    var a :| 0 <= a < |values| && values[a] == x;
    assert values == values[..a] + [values[a]] + values[a + 1..];
    assert x !in values[..a] && x !in values[a + 1..];
    assert multiset(values)[x] == multiset(values[..a])[x] + 1 + multiset(values[a + 1..])[x];
  }

  lemma TwoPlaces(s: seq<Observation>, i: nat, j: nat)
    requires i < j < |s|
    ensures s[i] == s[j] ==> multiset(s)[s[i]] >= 2
  {
    assert s == s[..i] + [s[i]] + s[i + 1..j] + [s[j]] + s[j + 1..];
    assert multiset(s) == multiset(s[..i]) + multiset{s[i]} + multiset(s[i + 1..j]) + multiset{s[j]} + multiset(s[j + 1..]);
  }

  /** What a merge holds: the current observation, and of the last day's stored
      ones the latest for each other check time. */
  lemma MergedMeans(history: seq<Observation>, current: Option<Observation>, now: int, o: Observation)
    ensures o in Merged(history, current, now) <==>
              if current.Some? && current.value.checkedAt == o.checkedAt != 0 then o == current.value
              else
                && now - 86400000000000 <= o.checkedAt <= now + 60000000000
                && exists n | 0 <= n < |history| :: history[n] == o && forall m | n < m < |history| :: history[m].checkedAt != o.checkedAt
  {
    MergedHistoryMeans(history, now, o);
    if current.Some? && current.value.checkedAt != ZERO_TIME { InsertMembers(MergedHistory(history, now), current.value, o); }
  }

  lemma {:induction false} MergedHistoryMeans(history: seq<Observation>, now: int, o: Observation)
    ensures o in MergedHistory(history, now) <==>
              && now - 86400000000000 <= o.checkedAt <= now + 60000000000
              && exists n | 0 <= n < |history| :: history[n] == o && forall m | n < m < |history| :: history[m].checkedAt != o.checkedAt
  {
    if history != [] {
      var init, last := history[..|history| - 1], history[|history| - 1];
      MergedHistoryMeans(init, now, o);
      if InWindow(last, now) { InsertMembers(MergedHistory(init, now), last, o); }
      LatestExtends(history, o);
    }
  }

  lemma LatestExtends(history: seq<Observation>, o: Observation)
    requires history != []
    ensures var init, last := history[..|history| - 1], history[|history| - 1];
            (exists n | 0 <= n < |history| :: history[n] == o && forall m | n < m < |history| :: history[m].checkedAt != o.checkedAt)
            <==> if last.checkedAt == o.checkedAt then last == o
                 else exists n | 0 <= n < |init| :: init[n] == o && forall m | n < m < |init| :: init[m].checkedAt != o.checkedAt
  {
    var init, last := history[..|history| - 1], history[|history| - 1];
    if last == o {
      assert history[|history| - 1] == o;
    } else if last.checkedAt != o.checkedAt {
      if n :| 0 <= n < |init| && init[n] == o && forall m | n < m < |init| :: init[m].checkedAt != o.checkedAt {
        assert history[n] == o;
        forall m | n < m < |history| ensures history[m].checkedAt != o.checkedAt {
          assert m < |init| ==> history[m] == init[m];
        }
      }
      if n :| 0 <= n < |history| && history[n] == o && forall m | n < m < |history| :: history[m].checkedAt != o.checkedAt {
        assert init[n] == o;
        forall m | n < m < |init| ensures init[m].checkedAt != o.checkedAt { assert history[m] == init[m]; }
      }
    }
  }

  // -------------------------------------------------------------- measures

  /** Points out of two per observation with a known status, and their number. */
  function Points(s: seq<Observation>, since: int): (int, nat)
  {
    if s == [] then (0, 0)
    else
      var (p, n) := Points(s[..|s| - 1], since);
      var o := s[|s| - 1];
      if o.checkedAt < since || o.status.OtherStatus? then (p, n)
      else (p + (match o.status case Operational => 2 case DegradedStatus => 1 case _ => 0), n + 1)
  }

  /** The availability is at least the percentage, over that many samples. */
  predicate AvailableAtLeast(s: seq<Observation>, since: int, percent: int, minimum: int)
  {
    var (p, n) := Points(s, since);
    n >= minimum && n > 0 && p * 100 >= percent * 2 * n
  }

  function Last(s: seq<Observation>, n: int): seq<Observation>
    requires n >= 0
  {
    if |s| > n then s[|s| - n..] else s
  }

  function CountOperational(s: seq<Observation>): nat
  {
    if s == [] then 0 else CountOperational(s[..|s| - 1]) + if s[|s| - 1].status.Operational? then 1 else 0
  }

  function CountLow(s: seq<Observation>, threshold: int): nat
  {
    if s == [] then 0 else CountLow(s[..|s| - 1], threshold) + if s[|s| - 1].score < threshold as real then 1 else 0
  }

  predicate ConsecutiveFailures(s: seq<Observation>, required: nat)
  {
    |s| >= required && forall k | |s| - required <= k < |s| :: s[k].status.FailedStatus? || s[k].status.ErrorStatus?
  }

  // -------------------------------------------------------------- decisions

  datatype HealthState = HealthState(stage: Stage, transitionAt: int, holdUntil: Option<int>)

  /** One evaluation: the stored observations, the scored current one, and the
      inputs that this model takes as given. */
  datatype Evaluation = Evaluation(
    now: int,
    frozen: bool,
    stored: seq<Observation>,
    current: Observation,
    baseline: real,
    availability7D: Option<real>)

  function History(e: Evaluation): seq<Observation>
  {
    Merged(e.stored, Some(e.current), e.now)
  }

  predicate IsNew(e: Evaluation)
  {
    forall k | 0 <= k < |e.stored| :: e.stored[k].checkedAt != e.current.checkedAt
  }

  predicate QuarantineElapsed(previous: HealthState, now: int)
  {
    previous.holdUntil.None? || now >= previous.holdUntil.value
  }

  /** CheckRecovery's verdict. */
  predicate Eligible(e: Evaluation, previous: HealthState, s: Settings)
    requires s.recoveryWindow >= 2
  {
    var unique := Merged(History(e), None, e.now);
    var ordered := Last(unique, s.recoveryWindow);
    var required := if e.availability7D.Some? && e.availability7D.value < 80.0 then s.recoveryWindow else s.recoverySuccesses;
    && |ordered| >= s.recoveryWindow && CountOperational(ordered) >= required
    && ordered[|ordered| - 1].status.Operational? && ordered[|ordered| - 2].status.Operational?
    && AvailableAtLeast(unique, e.now - 15 * MINUTE, 90, s.minSamples)
    && LatencyOk(ordered[|ordered| - 1].latency, e.baseline, s)
    && QuarantineElapsed(previous, e.now)
  }

  predicate LatencyOk(latency: int, baseline: real, s: Settings)
  {
    if baseline > 0.0 then latency > 0 && latency as real <= baseline * 1.5 else latency > 0 && latency < s.latencyWarning
  }

  predicate Severe(e: Evaluation, s: Settings)
  {
    e.current.decryptFailed || ConsecutiveFailures(History(e), 2) || CountLow(Last(History(e), 5), s.quarantineScore) >= 3
  }

  /** classifyStage. */
  function Classify(e: Evaluation, s: Settings): Stage
  {
    var samples := Points(History(e), e.now - DAY).1;
    if Severe(e, s) then Quarantined
    else if e.current.score >= s.healthyScore as real then Healthy
    else if e.current.score >= s.watchScore as real then Watch
    else if e.current.score >= s.quarantineScore as real then Degraded
    else if samples < s.minSamples then Degraded
    else Quarantined
  }

  /** transitionStage. */
  function Transition(previous: HealthState, candidate: Stage, severe: bool, eligible: bool, s: Settings, now: int, isNew: bool): HealthState
  {
    var since := if previous.transitionAt == ZERO_TIME then now else previous.transitionAt;
    if candidate.Quarantined? then
      if !previous.stage.Quarantined? || (severe && isNew)
      then HealthState(Quarantined, now, Some(now + s.quarantineMinutes * MINUTE))
      else HealthState(Quarantined, since, previous.holdUntil)
    else if previous.stage.Quarantined? then
      if candidate.Healthy? && eligible then HealthState(Recovering25, now, None)
      else HealthState(Quarantined, since, previous.holdUntil)
    else if previous.stage.Recovering25? || previous.stage.Recovering50? then
      if !candidate.Healthy? || !eligible then
        var restarted := if isNew then now else since;
        if previous.stage.Recovering50? && (candidate.Watch? || candidate.Degraded?) then HealthState(Recovering25, restarted, None)
        else HealthState(previous.stage, restarted, None)
      else if !isNew || now - since < s.trialMinutes * MINUTE then HealthState(previous.stage, since, None)
      else if previous.stage.Recovering25? then HealthState(Recovering50, now, None)
      else HealthState(Healthy, now, None)
    else HealthState(candidate, if previous.stage != candidate then now else since, None)
  }

  /** Whether the evaluation speaks for recovery. */
  predicate Good(e: Evaluation, previous: HealthState, s: Settings)
    requires s.recoveryWindow >= 2
  {
    Classify(e, s).Healthy? && Eligible(e, previous, s)
  }

  /** Evaluate. */
  function Evaluate(previous: HealthState, e: Evaluation, raw: Settings): HealthState
  {
    var s := Normalized(raw);
    if e.frozen then
      HealthState(Frozen, if previous.stage.Frozen? then previous.transitionAt else e.now, previous.holdUntil)
    else
      Transition(previous, Classify(e, s), Severe(e, s), Eligible(e, previous, s), s, e.now, IsNew(e))
  }

  // ---------------------------------------------- what the decisions demand

  /** The observations with a known status that are not older than a time. */
  ghost function KnownSince(s: seq<Observation>, since: int): set<nat>
  {
    set k: nat | k < |s| && s[k].checkedAt >= since && !s[k].status.OtherStatus?
  }

  ghost function WithStatus(s: seq<Observation>, among: set<nat>, status: MonitorStatus): set<nat>
  {
    set k: nat | k in among && k < |s| && s[k].status == status
  }

  ghost function Below(s: seq<Observation>, threshold: int): set<nat>
  {
    set k: nat | k < |s| && s[k].score < threshold as real
  }

  lemma {:induction false} PointsMean(s: seq<Observation>, since: int)
    ensures var among := KnownSince(s, since);
            Points(s, since) == (2 * |WithStatus(s, among, Operational)| + |WithStatus(s, among, DegradedStatus)|, |among|)
  {
    if s != [] {
      hide KnownSince, WithStatus, Points;
      PointsMean(s[..|s| - 1], since);
      KnownGrows(s, since);
      StatusGrows(s, since, Operational);
      StatusGrows(s, since, DegradedStatus);
      PointsGrow(s, since);
    } else {
      assert KnownSince(s, since) == {} && WithStatus(s, {}, Operational) == {} && WithStatus(s, {}, DegradedStatus) == {};
    }
  }

  lemma PointsGrow(s: seq<Observation>, since: int)
    requires s != []
    ensures var (p, n), o := Points(s[..|s| - 1], since), s[|s| - 1];
            Points(s, since) == (if o.checkedAt < since || o.status.OtherStatus? then (p, n)
                                 else if o.status.Operational? then (p + 2, n + 1)
                                 else if o.status.DegradedStatus? then (p + 1, n + 1)
                                 else (p, n + 1))
  {
  }

  lemma KnownGrows(s: seq<Observation>, since: int)
    requires s != []
    ensures var n, known := |s| - 1, KnownSince(s[..|s| - 1], since);
            KnownSince(s, since) == (if s[n].checkedAt >= since && !s[n].status.OtherStatus? then known + {n} else known) && n !in known
            && |KnownSince(s, since)| == |known| + (if s[n].checkedAt >= since && !s[n].status.OtherStatus? then 1 else 0)
  {
    var n, known := |s| - 1, KnownSince(s[..|s| - 1], since);
    assert forall k: nat | k < n :: s[..n][k] == s[k];
    forall k: nat ensures k in KnownSince(s, since) <==> k in known || (k == n && s[n].checkedAt >= since && !s[n].status.OtherStatus?) {}
  }

  lemma StatusGrows(s: seq<Observation>, since: int, status: MonitorStatus)
    requires s != [] && !status.OtherStatus?
    ensures var n, init := |s| - 1, s[..|s| - 1];
            var one := if s[n].checkedAt >= since && s[n].status == status then 1 else 0;
            |WithStatus(s, KnownSince(s, since), status)| == |WithStatus(init, KnownSince(init, since), status)| + one
  {
    var n, init := |s| - 1, s[..|s| - 1];
    KnownGrows(s, since);
    var with, all := WithStatus(init, KnownSince(init, since), status), WithStatus(s, KnownSince(s, since), status);
    var added := s[n].checkedAt >= since && s[n].status == status;
    forall k: nat ensures k in all <==> k in with || (k == n && added) { StatusAt(s, since, status, k); }
    hide WithStatus, KnownSince;
    assert n !in with by { StatusAt(s, since, status, n); }
    assert all == if added then with + {n} else with;
  }

  lemma StatusAt(s: seq<Observation>, since: int, status: MonitorStatus, k: nat)
    requires s != [] && !status.OtherStatus?
    ensures var n, init := |s| - 1, s[..|s| - 1];
            && (k in WithStatus(s, KnownSince(s, since), status) <==>
                  k in WithStatus(init, KnownSince(init, since), status) || (k == n && s[n].checkedAt >= since && s[n].status == status))
            && n !in WithStatus(init, KnownSince(init, since), status)
  {
    if k < |s| - 1 { assert s[..|s| - 1][k] == s[k]; }
  }

  lemma {:induction false} LowMeans(s: seq<Observation>, threshold: int)
    ensures CountLow(s, threshold) == |Below(s, threshold)|
  {
    if s != [] {
      var n, init := |s| - 1, s[..|s| - 1];
      LowMeans(init, threshold);
      assert forall k: nat | k < n :: init[k] == s[k];
      assert Below(s, threshold) == if s[n].score < threshold as real then Below(init, threshold) + {n} else Below(init, threshold);
    } else {
      assert Below(s, threshold) == {};
    }
  }

  ghost function OperationalIn(s: seq<Observation>): set<nat>
  {
    set k: nat | k < |s| && s[k].status.Operational?
  }

  lemma {:induction false} OperationalMeans(s: seq<Observation>)
    ensures CountOperational(s) == |OperationalIn(s)|
  {
    if s != [] {
      var n, init := |s| - 1, s[..|s| - 1];
      OperationalMeans(init);
      assert forall k: nat | k < n :: init[k] == s[k];
      assert OperationalIn(s) == if s[n].status.Operational? then OperationalIn(init) + {n} else OperationalIn(init);
    } else {
      assert OperationalIn(s) == {};
    }
  }

  /** Signs that quarantine at once: a failed decryption, the last two
      observations failed, or three of the last five scored below the bound. */
  ghost predicate Alarming(e: Evaluation, s: Settings)
  {
    var all := History(e);
    var n := |all|;
    || e.current.decryptFailed
    || (n >= 2 && all[n - 1].status in {FailedStatus, ErrorStatus} && all[n - 2].status in {FailedStatus, ErrorStatus})
    || |Below(if n > 5 then all[n - 5..] else all, s.quarantineScore)| >= 3
  }

  lemma SevereExactly(e: Evaluation, s: Settings)
    ensures Severe(e, s) <==> Alarming(e, s)
  {
    hide History, CountLow, Below;
    LowMeans(Last(History(e), 5), s.quarantineScore);
  }

  /** The class of a result, by its score and the day's known samples. */
  lemma ClassifyExactly(e: Evaluation, s: Settings)
    ensures var known := |KnownSince(History(e), e.now - 86400000000000)|;
            Classify(e, s) == (if Alarming(e, s) then Quarantined
                               else if s.healthyScore as real <= e.current.score then Healthy
                               else if s.watchScore as real <= e.current.score then Watch
                               else if s.quarantineScore as real <= e.current.score || known < s.minSamples then Degraded
                               else Quarantined)
  {
    SevereExactly(e, s);
    PointsMean(History(e), e.now - DAY);
    hide History, Points, Severe, Alarming, KnownSince;
  }

  /** What the observations must show for an account to recover: of the last
      day's, the last `recoveryWindow` exist and enough of them, or all of them
      below 80% weekly availability, are operational, the last two among them;
      over a quarter of an hour there are enough known ones and at least 90% of
      them count as available, a degraded one half; and the latest latency is
      within bounds. */
  ghost predicate Observed(e: Evaluation, s: Settings)
  {
    var recent := Merged(History(e), None, e.now);
    var n := |recent|;
    && 2 <= s.recoveryWindow <= n
    && |OperationalIn(recent[n - s.recoveryWindow..])|
       >= (if e.availability7D.Some? && e.availability7D.value < 80.0 then s.recoveryWindow else s.recoverySuccesses)
    && recent[n - 1].status.Operational? && recent[n - 2].status.Operational?
    && Available(recent, e.now - 900000000000, s.minSamples)
    && WithinBounds(recent[n - 1].latency, e.baseline, s)
  }

  /** Recovery: the observations show it, the hold has passed, and the result
      itself is healthy. */
  ghost predicate Recovers(e: Evaluation, previous: HealthState, s: Settings)
  {
    && Observed(e, s) && (previous.holdUntil.Some? ==> previous.holdUntil.value <= e.now)
    && !Alarming(e, s) && s.healthyScore as real <= e.current.score
  }

  ghost predicate Available(s: seq<Observation>, since: int, minimum: int)
  {
    var known := KnownSince(s, since);
    && |known| >= 1 && |known| >= minimum
    && 20 * |WithStatus(s, known, Operational)| + 10 * |WithStatus(s, known, DegradedStatus)| >= 18 * |known|
  }

  lemma AvailableMeans(s: seq<Observation>, since: int, minimum: int)
    ensures AvailableAtLeast(s, since, 90, minimum) <==> Available(s, since, minimum)
  {
    PointsMean(s, since);
    hide KnownSince, WithStatus, Points;
  }

  /** A result speaks for recovery exactly when the observations show it. */
  lemma GoodExactly(e: Evaluation, previous: HealthState, s: Settings)
    requires s.recoveryWindow >= 2
    ensures Good(e, previous, s) <==> Recovers(e, previous, s)
  {
    EligibleExactly(e, previous, s);
    ClassifyExactly(e, s);
    hide Eligible, Classify, Alarming, Observed, KnownSince;
  }

  lemma EligibleExactly(e: Evaluation, previous: HealthState, s: Settings)
    requires s.recoveryWindow >= 2
    ensures Eligible(e, previous, s) <==> Observed(e, s) && (previous.holdUntil.Some? ==> previous.holdUntil.value <= e.now)
  {
    hide Ordered, Merged, History, Last, AvailableAtLeast, Available, CountOperational, OperationalIn, LatencyOk, WithinBounds;
    var recent := Merged(History(e), None, e.now);
    AvailableMeans(recent, e.now - 15 * MINUTE, s.minSamples);
    OperationalMeans(Last(recent, s.recoveryWindow));
    LastMeans(recent, s.recoveryWindow);
    if s.recoveryWindow <= |recent| { LatencyExactly(recent[|recent| - 1].latency, e.baseline, s); }
  }

  lemma LastMeans(s: seq<Observation>, n: int)
    requires n >= 2
    ensures |Last(s, n)| >= n <==> n <= |s|
    ensures n <= |s| ==> Last(s, n) == s[|s| - n..] && Last(s, n)[n - 1] == s[|s| - 1] && Last(s, n)[n - 2] == s[|s| - 2] && |Last(s, n)| == n
  {
  }

  predicate WithinBounds(latency: int, baseline: real, s: Settings)
  {
    0 < latency && if baseline > 0.0 then 2.0 * latency as real <= 3.0 * baseline else latency < s.latencyWarning
  }

  lemma LatencyExactly(latency: int, baseline: real, s: Settings)
    ensures LatencyOk(latency, baseline, s) <==> WithinBounds(latency, baseline, s)
  {
  }
}

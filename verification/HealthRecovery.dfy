/** How long an account takes from quarantine back to health, over whole runs. */
module HealthRecovery {
  import opened Options
  import opened HealthStages

  /** What a run leaves behind for each evaluation: when it was, the state it
      produced, whether it was frozen, whether its observation was new, whether it
      spoke for recovery, and whether it set the quarantine hold. The first mark
      is the start. */
  datatype Mark = Mark(at: int, state: HealthState, frozen: bool, isNew: bool, good: bool, held: bool)

  predicate Holds(previous: HealthState, e: Evaluation, raw: Settings)
  {
    var s := Normalized(raw);
    !e.frozen && Classify(e, s).Quarantined? && (!previous.stage.Quarantined? || (Severe(e, s) && IsNew(e)))
  }

  function MarkOf(previous: HealthState, e: Evaluation, raw: Settings): Mark
  {
    Mark(e.now, Evaluate(previous, e, raw), e.frozen, !e.frozen && IsNew(e), !e.frozen && Good(e, previous, Normalized(raw)),
         Holds(previous, e, raw))
  }

  function Trace(start: Mark, evaluations: seq<Evaluation>, raw: Settings): (t: seq<Mark>)
    ensures |t| == |evaluations| + 1
  {
    if evaluations == [] then [start]
    else
      var before := Trace(start, evaluations[..|evaluations| - 1], raw);
      before + [MarkOf(before[|before| - 1].state, evaluations[|evaluations| - 1], raw)]
  }

  /** Fixed settings and a clock that never runs back. */
  predicate Steady(start: Mark, evaluations: seq<Evaluation>)
  {
    && (forall k | 0 <= k < |evaluations| :: start.at <= evaluations[k].now)
    && (forall j, k | 0 <= j < k < |evaluations| :: evaluations[j].now <= evaluations[k].now)
    && start.at > ZERO_TIME
  }

  function Trial(raw: Settings): int
  {
    Normalized(raw).trialMinutes * MINUTE
  }

  function Quarantine(raw: Settings): int
  {
    Normalized(raw).quarantineMinutes * MINUTE
  }

  // -------------------------------------------------------------- milestones

  /** All new observations after `k` and up to `m` spoke for recovery. */
  predicate Clean(t: seq<Mark>, k: nat, m: nat)
  {
    forall n | k < n <= m && n < |t| :: t[n].isNew ==> t[n].good
  }

  predicate NoQuarantine(t: seq<Mark>, a: nat)
  {
    forall n | a <= n < |t| :: !t[n].state.stage.Quarantined?
  }

  /** From `h` on the account is quarantined under one hold, set at `h` unless
      that is the start. */
  predicate HeldSince(t: seq<Mark>, h: nat, m: nat, raw: Settings)
  {
    && h <= m < |t|
    && (forall n | h <= n <= m :: t[n].state.stage.Quarantined? && t[n].state.holdUntil == t[h].state.holdUntil)
    && (forall n | h < n <= m :: !t[n].held)
    && (h > 0 ==> t[h].held && t[h].state.holdUntil == Some(t[h].at + Quarantine(raw)))
  }

  /** At `a` the account leaves quarantine, no earlier than the hold. */
  predicate Released(t: seq<Mark>, h: nat, a: nat, raw: Settings)
  {
    && 0 < a < |t| && HeldSince(t, h, a - 1, raw)
    && t[a].state.stage.Recovering25? && t[a].good
    && (t[h].state.holdUntil.Some? ==> t[a].at >= t[h].state.holdUntil.value)
  }

  /** A full, clean first trial ran from `k1` to `b`. */
  predicate FirstTrial(t: seq<Mark>, h: nat, a: nat, k1: nat, b: nat, raw: Settings)
  {
    && Released(t, h, a, raw) && a <= k1 < b < |t| && Clean(t, k1, b) && t[b].isNew
    && t[b].state.stage.Recovering50? && t[b].at - t[k1].at >= Trial(raw)
  }

  /** A full, clean second trial ran from `k2` to `c`. */
  predicate SecondTrial(t: seq<Mark>, h: nat, a: nat, k1: nat, b: nat, k2: nat, c: nat, raw: Settings)
  {
    && FirstTrial(t, h, a, k1, b, raw) && b <= k2 < c < |t| && Clean(t, k2, c) && t[c].isNew
    && t[c - 1].state.stage.Recovering50? && t[c].state.stage.Healthy? && t[c].at - t[k2].at >= Trial(raw)
  }

  predicate InRecovery(s: Stage)
  {
    s.Quarantined? || s.Recovering25? || s.Recovering50?
  }

  /** A frozen evaluation hits an account in quarantine or on trial, which is then
      not quarantined again. */
  predicate Escape(t: seq<Mark>, f: nat)
  {
    0 < f < |t| && t[f].frozen && InRecovery(t[f - 1].state.stage) && NoQuarantine(t, f)
  }

  /** How far the run is since the account was last quarantined, if it ever was. */
  datatype Progress =
    | Never
    | Held(h: nat)
    | First(h: nat, a: nat, k1: nat)
    | Second(h: nat, a: nat, k1: nat, b: nat, k2: nat)
    | Recovered(h: nat, a: nat, k1: nat, b: nat, k2: nat, c: nat)
    | Escaped(f: nat)

  predicate ProgressOk(t: seq<Mark>, p: Progress, raw: Settings)
    requires t != []
  {
    var last := |t| - 1;
    var s := t[last].state;
    match p
    case Never => NoQuarantine(t, 0)
    case Held(h) => HeldSince(t, h, last, raw)
    case First(h, a, k1) =>
      && s.stage.Recovering25? && Released(t, h, a, raw) && NoQuarantine(t, a)
      && a <= k1 <= last && Clean(t, k1, last) && s.transitionAt == t[k1].at
    case Second(h, a, k1, b, k2) =>
      && s.stage.Recovering50? && FirstTrial(t, h, a, k1, b, raw) && NoQuarantine(t, a)
      && b <= k2 <= last && Clean(t, k2, last) && s.transitionAt == t[k2].at
    case Recovered(h, a, k1, b, k2, c) =>
      SecondTrial(t, h, a, k1, b, k2, c, raw) && NoQuarantine(t, a) && !s.stage.Recovering25? && !s.stage.Recovering50?
    case Escaped(f) => Escape(t, f) && !s.stage.Recovering25? && !s.stage.Recovering50?
  }

  // ------------------------------------------------------------ one more mark

  lemma KeepsHeld(t: seq<Mark>, m: Mark, h: nat, n: nat, raw: Settings)
    requires HeldSince(t, h, n, raw)
    ensures HeldSince(t + [m], h, n, raw)
  {
    var u := t + [m];
    assert forall k | 0 <= k <= n :: u[k] == t[k];
  }

  lemma KeepsReleased(t: seq<Mark>, m: Mark, h: nat, a: nat, raw: Settings)
    requires Released(t, h, a, raw)
    ensures Released(t + [m], h, a, raw)
  {
    KeepsHeld(t, m, h, a - 1, raw);
  }

  lemma KeepsFirstTrial(t: seq<Mark>, m: Mark, h: nat, a: nat, k1: nat, b: nat, raw: Settings)
    requires FirstTrial(t, h, a, k1, b, raw)
    ensures FirstTrial(t + [m], h, a, k1, b, raw)
  {
    hide HeldSince;
    KeepsReleased(t, m, h, a, raw);
  }

  lemma KeepsSecondTrial(t: seq<Mark>, m: Mark, h: nat, a: nat, k1: nat, b: nat, k2: nat, c: nat, raw: Settings)
    requires SecondTrial(t, h, a, k1, b, k2, c, raw)
    ensures SecondTrial(t + [m], h, a, k1, b, k2, c, raw)
  {
    hide Released;
    KeepsFirstTrial(t, m, h, a, k1, b, raw);
  }

  /** What an evaluation that is not frozen does, stage by stage. */
  lemma Evaluated(previous: HealthState, e: Evaluation, raw: Settings)
    requires !e.frozen
    ensures var s := Normalized(raw);
            && Evaluate(previous, e, raw) == Transition(previous, Classify(e, s), Severe(e, s), Eligible(e, previous, s), s, e.now, IsNew(e))
            && (Severe(e, s) ==> Classify(e, s).Quarantined?)
            && (Classify(e, s) in {Healthy, Watch, Degraded, Quarantined})
            && (Eligible(e, previous, s) ==> QuarantineElapsed(previous, e.now))
  {
    hide History, Points, CountLow, ConsecutiveFailures, AvailableAtLeast, LatencyOk;
  }

  predicate Positive(t: seq<Mark>)
  {
    forall n | 0 <= n < |t| :: t[n].at > ZERO_TIME
  }

  /** Any evaluation that enters quarantine, or extends it, starts a new hold. */
  lemma Quarantines(t: seq<Mark>, e: Evaluation, raw: Settings)
    requires t != [] && !e.frozen
    requires var m := MarkOf(t[|t| - 1].state, e, raw);
             m.state.stage.Quarantined? && (m.held || !t[|t| - 1].state.stage.Quarantined?)
    ensures ProgressOk(t + [MarkOf(t[|t| - 1].state, e, raw)], Held(|t|), raw)
  {
    hide Classify, Severe, Eligible, Normalized;
    Evaluated(t[|t| - 1].state, e, raw);
  }

  lemma HeldStep(t: seq<Mark>, e: Evaluation, raw: Settings, h: nat) returns (q: Progress)
    requires t != [] && !e.frozen && ProgressOk(t, Held(h), raw)
    ensures ProgressOk(t + [MarkOf(t[|t| - 1].state, e, raw)], q, raw)
  {
    hide Classify, Severe, Eligible, Normalized;
    var m := MarkOf(t[|t| - 1].state, e, raw);
    Evaluated(t[|t| - 1].state, e, raw);
    if m.state.stage.Quarantined? && m.held {
      Quarantines(t, e, raw);
      q := Held(|t|);
    } else if m.state.stage.Quarantined? {
      q := Held(h);
    } else {
      KeepsHeld(t, m, h, |t| - 1, raw);
      q := First(h, |t|, |t|);
    }
  }

  lemma FirstStep(t: seq<Mark>, e: Evaluation, raw: Settings, h: nat, a: nat, k1: nat) returns (q: Progress)
    requires t != [] && !e.frozen && Positive(t) && ProgressOk(t, First(h, a, k1), raw)
    ensures ProgressOk(t + [MarkOf(t[|t| - 1].state, e, raw)], q, raw)
  {
    hide Classify, Severe, Eligible, Normalized, HeldSince;
    var m := MarkOf(t[|t| - 1].state, e, raw);
    Evaluated(t[|t| - 1].state, e, raw);
    KeepsReleased(t, m, h, a, raw);
    if m.state.stage.Quarantined? {
      Quarantines(t, e, raw);
      q := Held(|t|);
    } else if m.state.stage.Recovering50? {
      q := Second(h, a, k1, |t|, |t|);
    } else {
      q := First(h, a, if m.isNew && !m.good then |t| else k1);
    }
  }

  lemma SecondStep(t: seq<Mark>, e: Evaluation, raw: Settings, h: nat, a: nat, k1: nat, b: nat, k2: nat) returns (q: Progress)
    requires t != [] && !e.frozen && Positive(t) && ProgressOk(t, Second(h, a, k1, b, k2), raw)
    ensures ProgressOk(t + [MarkOf(t[|t| - 1].state, e, raw)], q, raw)
  {
    hide Classify, Severe, Eligible, Normalized, HeldSince;
    var m := MarkOf(t[|t| - 1].state, e, raw);
    Evaluated(t[|t| - 1].state, e, raw);
    KeepsFirstTrial(t, m, h, a, k1, b, raw);
    KeepsReleased(t, m, h, a, raw);
    var k := if m.isNew && !m.good then |t| else k2;
    if m.state.stage.Quarantined? {
      Quarantines(t, e, raw);
      q := Held(|t|);
    } else if m.state.stage.Healthy? {
      q := Recovered(h, a, k1, b, k2, |t|);
    } else if m.state.stage.Recovering25? {
      q := First(h, a, k);
    } else {
      q := Second(h, a, k1, b, k);
    }
  }

  lemma RecoveredStep(t: seq<Mark>, e: Evaluation, raw: Settings, h: nat, a: nat, k1: nat, b: nat, k2: nat, c: nat) returns (q: Progress)
    requires t != [] && !e.frozen && ProgressOk(t, Recovered(h, a, k1, b, k2, c), raw)
    ensures ProgressOk(t + [MarkOf(t[|t| - 1].state, e, raw)], q, raw)
  {
    hide Classify, Severe, Eligible, Normalized, FirstTrial, SecondTrial;
    var m := MarkOf(t[|t| - 1].state, e, raw);
    Evaluated(t[|t| - 1].state, e, raw);
    assert a <= |t| - 1 by { SecondTrialBounds(t, h, a, k1, b, k2, c, raw); }
    KeepsSecondTrial(t, m, h, a, k1, b, k2, c, raw);
    if m.state.stage.Quarantined? {
      Quarantines(t, e, raw);
      q := Held(|t|);
    } else {
      q := Recovered(h, a, k1, b, k2, c);
    }
  }

  lemma SecondTrialBounds(t: seq<Mark>, h: nat, a: nat, k1: nat, b: nat, k2: nat, c: nat, raw: Settings)
    requires SecondTrial(t, h, a, k1, b, k2, c, raw)
    ensures h < a <= k1 < b <= k2 < c < |t|
    ensures t[a].good && t[b].isNew && t[c].isNew
    ensures forall n | k1 < n <= b || k2 < n <= c :: t[n].isNew ==> t[n].good
  {
  }

  lemma NeverStep(t: seq<Mark>, e: Evaluation, raw: Settings) returns (q: Progress)
    requires t != [] && !e.frozen && ProgressOk(t, Never, raw)
    ensures ProgressOk(t + [MarkOf(t[|t| - 1].state, e, raw)], q, raw)
  {
    hide Classify, Severe, Eligible, Normalized;
    var m := MarkOf(t[|t| - 1].state, e, raw);
    if m.state.stage.Quarantined? {
      Quarantines(t, e, raw);
      q := Held(|t|);
    } else {
      q := Never;
    }
  }

  lemma EscapedStep(t: seq<Mark>, e: Evaluation, raw: Settings, f: nat) returns (q: Progress)
    requires t != [] && !e.frozen && ProgressOk(t, Escaped(f), raw)
    ensures ProgressOk(t + [MarkOf(t[|t| - 1].state, e, raw)], q, raw)
  {
    hide Classify, Severe, Eligible, Normalized;
    var m := MarkOf(t[|t| - 1].state, e, raw);
    Evaluated(t[|t| - 1].state, e, raw);
    if m.state.stage.Quarantined? {
      Quarantines(t, e, raw);
      q := Held(|t|);
    } else {
      q := Escaped(f);
    }
  }

  /** A frozen evaluation ends quarantine and trials alike. */
  lemma FrozenStep(t: seq<Mark>, e: Evaluation, raw: Settings, p: Progress) returns (q: Progress)
    requires t != [] && e.frozen && ProgressOk(t, p, raw)
    ensures ProgressOk(t + [MarkOf(t[|t| - 1].state, e, raw)], q, raw)
  {
    hide Classify, Severe, Eligible, Normalized, Released, FirstTrial, SecondTrial, HeldSince;
    var m := MarkOf(t[|t| - 1].state, e, raw);
    match p
    case Never => q := Never;
    case Held(h) =>
      HeldIsQuarantined(t, h, raw);
      q := Escaped(|t|);
    case First(_, _, _) => q := Escaped(|t|);
    case Second(_, _, _, _, _) => q := Escaped(|t|);
    case Recovered(h, a, k1, b, k2, c) =>
      SecondTrialBounds(t, h, a, k1, b, k2, c, raw);
      KeepsSecondTrial(t, m, h, a, k1, b, k2, c, raw);
      q := p;
    case Escaped(f) => q := p;
  }

  lemma HeldIsQuarantined(t: seq<Mark>, h: nat, raw: Settings)
    requires t != [] && HeldSince(t, h, |t| - 1, raw)
    ensures t[|t| - 1].state.stage.Quarantined?
  {
  }

  lemma {:induction false} TraceProgress(start: Mark, evaluations: seq<Evaluation>, raw: Settings) returns (p: Progress)
    requires Steady(start, evaluations)
    ensures ProgressOk(Trace(start, evaluations, raw), p, raw) && Positive(Trace(start, evaluations, raw))
    decreases |evaluations|
  {
    if evaluations == [] {
      p := if start.state.stage.Quarantined? then Held(0) else Never;
    } else {
      var init, e := evaluations[..|evaluations| - 1], evaluations[|evaluations| - 1];
      assert Steady(start, init);
      var before := TraceProgress(start, init, raw);
      var t := Trace(start, init, raw);
      hide ProgressOk, Evaluate;
      if e.frozen {
        p := FrozenStep(t, e, raw, before);
        return;
      }
      match before
      case Escaped(f) => p := EscapedStep(t, e, raw, f);
      case Never => p := NeverStep(t, e, raw);
      case Held(h) => p := HeldStep(t, e, raw, h);
      case First(h, a, k1) => p := FirstStep(t, e, raw, h, a, k1);
      case Second(h, a, k1, b, k2) => p := SecondStep(t, e, raw, h, a, k1, b, k2);
      case Recovered(h, a, k1, b, k2, c) => p := RecoveredStep(t, e, raw, h, a, k1, b, k2, c);
    }
  }

  // --------------------------------------------------------------- theorems

  lemma {:induction false} TraceMonotone(start: Mark, evaluations: seq<Evaluation>, raw: Settings, i: nat, j: nat)
    requires Steady(start, evaluations) && i <= j <= |evaluations|
    ensures Trace(start, evaluations, raw)[i].at <= Trace(start, evaluations, raw)[j].at
  {
    TraceTimes(start, evaluations, raw, i);
    TraceTimes(start, evaluations, raw, j);
  }

  lemma {:induction false} TraceTimes(start: Mark, evaluations: seq<Evaluation>, raw: Settings, n: nat)
    requires n <= |evaluations|
    ensures Trace(start, evaluations, raw)[n].at == if n == 0 then start.at else evaluations[n - 1].now
    decreases |evaluations|
  {
    if n < |evaluations| { TraceTimes(start, evaluations[..|evaluations| - 1], raw, n); }
  }

  /** An account that was quarantined and is healthy again has been through both
      recovery stages, in order, since it was last quarantined, unless a frozen
      evaluation let it escape. The release and every new observation of the two
      completed trials showed what recovery demands; each trial lasted the trial
      time, the release came no earlier than the hold, and the whole took at least
      the quarantine time plus two trials after the hold was last set. */
  lemma RecoveryTakesItsTime(start: Mark, evaluations: seq<Evaluation>, raw: Settings, i: nat)
      returns (h: nat, a: nat, k1: nat, b: nat, k2: nat, c: nat)
    requires Steady(start, evaluations) && i <= |evaluations|
    requires var t := Trace(start, evaluations, raw);
             && t[i].state.stage.Quarantined? && t[|evaluations|].state.stage.Healthy?
             && forall f: nat :: !Escape(t, f)
    ensures var t, s := Trace(start, evaluations, raw), Normalized(raw);
            && i < a && SecondTrial(t, h, a, k1, b, k2, c, raw) && NoQuarantine(t, a)
            && (t[h].state.holdUntil.Some? ==> t[c].at >= t[h].state.holdUntil.value + 2 * (s.trialMinutes * 60000000000))
            && (h > 0 ==> t[c].at >= t[h].at + s.quarantineMinutes * 60000000000 + 2 * (s.trialMinutes * 60000000000))
    ensures var t, s := Trace(start, evaluations, raw), Normalized(raw);
            && a <= k1 < b <= k2 < c <= |evaluations|
            && Recovers(evaluations[a - 1], t[a - 1].state, s)
            && forall n | (k1 <= n < b || k2 <= n < c) && !evaluations[n].frozen && Fresh(evaluations[n]) ::
                 Recovers(evaluations[n], t[n].state, s)
    ensures !evaluations[b - 1].frozen && Fresh(evaluations[b - 1]) && !evaluations[c - 1].frozen && Fresh(evaluations[c - 1])
  {
    h, a, k1, b, k2, c := TrialsTakeTheirTime(start, evaluations, raw, i);
    var t := Trace(start, evaluations, raw);
    SecondTrialBounds(t, h, a, k1, b, k2, c, raw);
    hide *;
    MarkMeans(start, evaluations, raw, a);
    MarkMeans(start, evaluations, raw, b);
    MarkMeans(start, evaluations, raw, c);
    forall n | (k1 <= n < b || k2 <= n < c) && !evaluations[n].frozen && Fresh(evaluations[n])
      ensures Recovers(evaluations[n], t[n].state, Normalized(raw))
    {
      MarkMeans(start, evaluations, raw, n + 1);
    }
  }

  lemma TrialsTakeTheirTime(start: Mark, evaluations: seq<Evaluation>, raw: Settings, i: nat)
      returns (h: nat, a: nat, k1: nat, b: nat, k2: nat, c: nat)
    requires Steady(start, evaluations) && i <= |evaluations|
    requires var t := Trace(start, evaluations, raw);
             && t[i].state.stage.Quarantined? && t[|evaluations|].state.stage.Healthy?
             && forall f: nat :: !Escape(t, f)
    ensures var t, s := Trace(start, evaluations, raw), Normalized(raw);
            && i < a && SecondTrial(t, h, a, k1, b, k2, c, raw) && NoQuarantine(t, a)
            && (t[h].state.holdUntil.Some? ==> t[c].at >= t[h].state.holdUntil.value + 2 * (s.trialMinutes * 60000000000))
            && (h > 0 ==> t[c].at >= t[h].at + s.quarantineMinutes * 60000000000 + 2 * (s.trialMinutes * 60000000000))
  {
    var p := TraceProgress(start, evaluations, raw);
    var t := Trace(start, evaluations, raw);
    hide Trace, Normalized, Escape;
    h, a, k1, b, k2, c := p.h, p.a, p.k1, p.b, p.k2, p.c;
    assert i < a;
    TraceMonotone(start, evaluations, raw, a, k1);
    TraceMonotone(start, evaluations, raw, b, k2);
  }

  /** The observation is not stored yet. */
  predicate Fresh(e: Evaluation)
  {
    forall o | o in e.stored :: o.checkedAt != e.current.checkedAt
  }

  lemma MarkMeans(start: Mark, evaluations: seq<Evaluation>, raw: Settings, n: nat)
    requires 0 < n <= |evaluations|
    ensures var t, e := Trace(start, evaluations, raw), evaluations[n - 1];
            && (t[n].isNew <==> !e.frozen && Fresh(e))
            && (t[n].good <==> !e.frozen && Recovers(e, t[n - 1].state, Normalized(raw)))
  {
    hide Trace, Normalized, Recovers, Good, Evaluate, Holds;
    TraceStep(start, evaluations, raw, n - 1);
    GoodExactly(evaluations[n - 1], Trace(start, evaluations, raw)[n - 1].state, Normalized(raw));
  }

  // ------------------------------------------------------ frozen evaluations

  lemma {:induction false} TraceStep(start: Mark, evaluations: seq<Evaluation>, raw: Settings, n: nat)
    requires n < |evaluations|
    ensures var t := Trace(start, evaluations, raw);
            t[n + 1] == MarkOf(t[n].state, evaluations[n], raw)
    decreases |evaluations|
  {
    if n < |evaluations| - 1 { TraceStep(start, evaluations[..|evaluations| - 1], raw, n); }
  }

  /** Outside quarantine and trials an account can only come back to them through
      quarantine. */
  lemma StaysOut(previous: HealthState, e: Evaluation, raw: Settings)
    requires !InRecovery(previous.stage) && !Evaluate(previous, e, raw).stage.Quarantined?
    ensures !InRecovery(Evaluate(previous, e, raw).stage)
  {
    hide Classify, Severe, Eligible;
    if !e.frozen { Evaluated(previous, e, raw); }
  }

  lemma {:induction false} StaysOutLater(start: Mark, evaluations: seq<Evaluation>, raw: Settings, n: nat, m: nat)
    requires n <= m <= |evaluations|
    requires var t := Trace(start, evaluations, raw);
             !InRecovery(t[n].state.stage) && NoQuarantine(t, n)
    ensures !InRecovery(Trace(start, evaluations, raw)[m].state.stage)
    decreases m - n
  {
    if n < m {
      StaysOutLater(start, evaluations, raw, n, m - 1);
      TraceStep(start, evaluations, raw, m - 1);
      var t := Trace(start, evaluations, raw);
      hide Trace, Evaluate;
      StaysOut(t[m - 1].state, evaluations[m - 1], raw);
    }
  }

  /** The account completed both trials and was not quarantined since. */
  ghost predicate Completed(t: seq<Mark>, raw: Settings)
  {
    exists h: nat, a: nat, k1: nat, b: nat, k2: nat, c: nat :: SecondTrial(t, h, a, k1, b, k2, c, raw) && NoQuarantine(t, a)
  }

  lemma NotBoth(start: Mark, evaluations: seq<Evaluation>, raw: Settings, f: nat, h: nat, a: nat, k1: nat, b: nat, k2: nat, c: nat)
    requires var t := Trace(start, evaluations, raw);
             && SecondTrial(t, h, a, k1, b, k2, c, raw) && NoQuarantine(t, a)
             && 0 < f < |t| && t[f].frozen && NoQuarantine(t, f)
    ensures !InRecovery(Trace(start, evaluations, raw)[f - 1].state.stage)
  {
    var t := Trace(start, evaluations, raw);
    SecondTrialBounds(t, h, a, k1, b, k2, c, raw);
    TraceStep(start, evaluations, raw, f - 1);
    if c < f {
      StaysOutLater(start, evaluations, raw, c, f - 1);
    } else {
      TraceStep(start, evaluations, raw, c - 1);
      hide Trace, Released;
      assert f != c;
      StaysOutLater(start, evaluations, raw, f, c - 1);
    }
  }

  /** An account that was quarantined and is healthy again has skipped its trials
      exactly when, since it was last quarantined, a frozen evaluation hit it in
      quarantine or on trial. */
  lemma BypassedExactly(start: Mark, evaluations: seq<Evaluation>, raw: Settings, i: nat)
    requires Steady(start, evaluations) && i <= |evaluations|
    requires var t := Trace(start, evaluations, raw);
             t[i].state.stage.Quarantined? && t[|evaluations|].state.stage.Healthy?
    ensures var t := Trace(start, evaluations, raw);
            !Completed(t, raw) <==> exists f: nat :: Escape(t, f)
  {
    var t := Trace(start, evaluations, raw);
    hide SecondTrial;
    if forall f: nat :: !Escape(t, f) {
      var h, a, k1, b, k2, c := RecoveryTakesItsTime(start, evaluations, raw, i);
      assert Completed(t, raw);
    } else if Completed(t, raw) {
      var f: nat :| Escape(t, f);
      var h: nat, a: nat, k1: nat, b: nat, k2: nat, c: nat :| SecondTrial(t, h, a, k1, b, k2, c, raw) && NoQuarantine(t, a);
      NotBoth(start, evaluations, raw, f, h, a, k1, b, k2, c);
    }
  }

  /** Two evaluations after quarantine, the first of them frozen: the account is
      healthy at once exactly when the second result classifies as healthy. */
  lemma FrozenSkipsQuarantine(previous: HealthState, e: Evaluation, f: Evaluation, raw: Settings)
    requires previous.stage.Quarantined? && e.frozen && !f.frozen
    ensures var healthy := !Alarming(f, Normalized(raw)) && Normalized(raw).healthyScore as real <= f.current.score;
            var after := Evaluate(Evaluate(previous, e, raw), f, raw);
            (after.stage.Healthy? <==> healthy) && (healthy ==> after == HealthState(Healthy, f.now, None))
  {
    ClassifyExactly(f, Normalized(raw));
    hide Classify, Severe, Eligible, Alarming;
    Evaluated(Evaluate(previous, e, raw), f, raw);
  }

  const HELD := HealthState(Quarantined, 1, Some(1 + 5 * MINUTE))
  const SEEN := Observation(3, Operational, 100, 100.0, false)
  const STALLED := Evaluation(2, true, [], SEEN, 0.0, None)
  const CHECKED := Evaluation(3, false, [], SEEN, 0.0, None)

  /** A concrete case: two nanoseconds into a five-minute quarantine, one frozen
      evaluation and a single good result make the account healthy. */
  lemma FrozenExample()
    ensures Evaluate(Evaluate(HELD, STALLED, DEFAULTS), CHECKED, DEFAULTS) == HealthState(Healthy, 3, None)
  {
    assert Normalized(DEFAULTS) == DEFAULTS;
    assert History(CHECKED) == [SEEN];
    assert CountLow([SEEN][1..], DEFAULTS.quarantineScore) == 0;
    assert !Severe(CHECKED, DEFAULTS);
    SevereExactly(CHECKED, DEFAULTS);
    FrozenSkipsQuarantine(HELD, STALLED, CHECKED, DEFAULTS);
  }

  /** From quarantine an evaluation freezes the account, or releases it to the
      first trial exactly when the observations show recovery, or keeps it; a new
      alarming result then starts the hold anew. */
  lemma QuarantineExits(previous: HealthState, e: Evaluation, raw: Settings)
    requires previous.stage.Quarantined?
    ensures var s, next := Normalized(raw), Evaluate(previous, e, raw);
            && (next.stage.Frozen? <==> e.frozen)
            && (next.stage.Recovering25? <==> !e.frozen && Recovers(e, previous, s))
            && (next.stage.Recovering25? ==> next == HealthState(Recovering25, e.now, None))
            && (!e.frozen && !Recovers(e, previous, s) ==>
                  && next.stage.Quarantined?
                  && next.holdUntil == (if Alarming(e, s) && Fresh(e) then Some(e.now + s.quarantineMinutes * 60000000000) else previous.holdUntil))
  {
    hide Classify, Severe, Eligible, Recovers, Alarming, Normalized;
    var s := Normalized(raw);
    if !e.frozen {
      Evaluated(previous, e, raw);
      GoodExactly(e, previous, s);
      SevereExactly(e, s);
    }
  }

  /** On trial an evaluation that is not frozen sends the account to quarantine
      when it is alarming, or scores too low on enough samples; moves it on when
      it is new, recovery shows and the trial time has passed; and otherwise keeps
      the trial, starting it over on a new observation that does not show
      recovery. A second trial falls back to the first when such a result is not
      healthy. */
  lemma TrialExits(previous: HealthState, e: Evaluation, raw: Settings)
    requires previous.stage in {Recovering25, Recovering50} && !e.frozen
    ensures var s, next := Normalized(raw), Evaluate(previous, e, raw);
            var known := |KnownSince(History(e), e.now - 86400000000000)|;
            var since := if previous.transitionAt == 0 then e.now else previous.transitionAt;
            var recovers := Recovers(e, previous, s);
            var low := e.current.score < s.healthyScore as real;
            var bad := Alarming(e, s) || (low && e.current.score < s.watchScore as real
                                          && e.current.score < s.quarantineScore as real && known >= s.minSamples);
            next == (if bad then HealthState(Quarantined, e.now, Some(e.now + s.quarantineMinutes * 60000000000))
                     else if !recovers then HealthState(if low then Recovering25 else previous.stage, if Fresh(e) then e.now else since, None)
                     else if !Fresh(e) || e.now < since + s.trialMinutes * 60000000000 then
                       HealthState(previous.stage, since, None)
                     else HealthState(if previous.stage == Recovering25 then Recovering50 else Healthy, e.now, None))
  {
    hide Classify, Severe, Eligible, Recovers, Alarming, Normalized, KnownSince;
    var s := Normalized(raw);
    Evaluated(previous, e, raw);
    GoodExactly(e, previous, s);
    SevereExactly(e, s);
    ClassifyExactly(e, s);
    NewIsFresh(e);
    hide IsNew, Fresh;
    RecoveringIsHealthy(e, previous, s);
  }

  lemma NewIsFresh(e: Evaluation)
    ensures IsNew(e) <==> Fresh(e)
  {
  }

  lemma RecoveringIsHealthy(e: Evaluation, previous: HealthState, s: Settings)
    ensures Recovers(e, previous, s) ==> !Alarming(e, s) && s.healthyScore as real <= e.current.score
  {
  }

  /** Everywhere else the result's class decides: an account outside quarantine
      and trials takes on that stage, and keeps its time when it had it. */
  lemma ElsewhereByClass(previous: HealthState, e: Evaluation, raw: Settings)
    requires previous.stage !in {Quarantined, Recovering25, Recovering50} && !e.frozen
    ensures var s, next := Normalized(raw), Evaluate(previous, e, raw);
            var known := |KnownSince(History(e), e.now - 86400000000000)|;
            && next.stage == (if Alarming(e, s) then Quarantined
                              else if s.healthyScore as real <= e.current.score then Healthy
                              else if s.watchScore as real <= e.current.score then Watch
                              else if s.quarantineScore as real <= e.current.score || known < s.minSamples then Degraded
                              else Quarantined)
            && next.transitionAt == (if next.stage == previous.stage && previous.transitionAt != 0 then previous.transitionAt else e.now)
            && next.holdUntil == (if next.stage.Quarantined? then Some(e.now + s.quarantineMinutes * 60000000000) else None)
  {
    hide Classify, Severe, Eligible, Alarming, Normalized, KnownSince;
    ClassifyExactly(e, Normalized(raw));
  }
}

/** Exactly when automatic failover can switch without a cause: a reconcile pass
    has to write a copy that credits the key with a status or with failures it
    has not earned since its last switch. */
module TierFailoverCause {
  import opened Options
  import opened Tiers
  import opened ValidationEvidence
  import opened TierFailover
  import opened TierFailoverSafety

  // -------------------------------------------------------- exposed states

  predicate TierLeft(p: Policy, t: Tier)
  {
    NextEnabledTier(p.enabled, t).Some?
  }

  /** The status alone lets the next outage or cycle switch. */
  predicate Unearned(r: Record, log: seq<Event>)
  {
    r.status.ConfirmedFailed? || ((r.status.Unknown? || r.status.Stable? || r.status.ConfirmedHealthy?) && !HealthySince(log))
  }

  /** The counter runs ahead of the failures seen since the last switch, and can
      reach the threshold before they do. */
  predicate Overcounted(threshold: int, r: Record, log: seq<Event>)
  {
    && Gathers(r.status) && r.verified
    && r.failures > FailuresSince(log) && FailuresSince(log) + 1 < threshold
  }

  predicate Risky(p: Policy, r: Record, live: Tier, log: seq<Event>)
  {
    && TierLeft(p, live) && !Cause(p.threshold, log) && !r.frozen
    && (Unearned(r, log) || Overcounted(p.threshold, r, log))
  }

  /** A row whose target was reached will be applied by recovery. Either that
      switch lacks a cause, or the state carries failures into the next tier. */
  predicate Carries(p: Policy, r: Record, target: Tier)
  {
    && p.threshold > 1 && TierLeft(p, target) && r.verified
    && (r.failures > 0 || Gathers(r.status) || (!r.frozen && !Settling(r.status)))
  }

  /** The key can go wrong with no further pass, as state and history show. */
  predicate Exposed(p: Policy, k: Key)
  {
    if k.pending.Some? && k.live == k.pending.value.target
    then !Cause(p.threshold, k.log) || Carries(p, k.record, k.live)
    else Risky(p, k.record, k.live, k.log)
  }

  ghost predicate Good(p: Policy, k: Key)
  {
    Base(k) && Caused(p.threshold, k.log) && !Exposed(p, k)
  }

  // ------------------------------------------- quiet steps keep a good key

  lemma SwitchGood(p: Policy, k: Key, target: Tier, attempt: Attempt)
    requires Base(k) && Caused(p.threshold, k.log) && Cause(p.threshold, k.log) && k.record.status.ConfirmedFailed?
    requires !k.record.frozen && !Exposed(p, k) && Index(k.cached) < Index(target) && TierLeft(p, k.cached)
    ensures Caused(p.threshold, Switch(k, target, attempt).log) && !Exposed(p, Switch(k, target, attempt))
  {
    hide Caused, Switches, FailuresSince, Relapsed, HealthySince, Escalating, LastTarget, NextEnabledTier;
    if k.live == k.cached && attempt.Succeeded? {
      var e := Applied(k.live, target);
      AppliedNoted(k.log, e);
      CausedExtends(p.threshold, k.log, e);
    }
  }

  lemma CycleGood(p: Policy, k: Key, outage: bool, attempt: Attempt)
    requires Good(p, k)
    ensures Good(p, HandleOutage(p, k, outage, attempt))
  {
    CycleKeeps(p, k, outage, attempt);
    hide Caused, Switches, FailuresSince, Relapsed, HealthySince, Base, NextEnabledTier, Switch;
    var r := k.record;
    if !(r.frozen || Settling(r.status) || (!r.status.ConfirmedFailed? && !outage)) {
      var failed := if r.status.ConfirmedFailed? then k else k.(record := r.(status := ConfirmedFailed), log := k.log + [OutageSeen]);
      Noted(p.threshold, k.log, OutageSeen);
      FailedGood(p, k, failed);
      var target := NextEnabledTier(p.enabled, k.cached);
      if target.Some? && Cause(p.threshold, failed.log) {
        SwitchGood(p, failed, target.value, attempt);
      } else if target.Some? {
        SwitchBlocked(p, failed, target.value, attempt);
      }
    }
  }

  /** Marking the tier failed does not expose the key. */
  lemma FailedGood(p: Policy, k: Key, failed: Key)
    requires Good(p, k) && !k.record.frozen && !Settling(k.record.status)
    requires failed == if k.record.status.ConfirmedFailed? then k else k.(record := k.record.(status := ConfirmedFailed), log := k.log + [OutageSeen])
    ensures Base(failed) && Caused(p.threshold, failed.log) && !Exposed(p, failed)
  {
    hide Caused, Switches, FailuresSince, Relapsed, HealthySince, Escalating, LastTarget, NextEnabledTier;
    Noted(p.threshold, k.log, OutageSeen);
  }

  /** Without a cause a failed key that is not exposed has no tier left, or its
      pending row blocks it; either way an attempt does not switch. */
  lemma SwitchBlocked(p: Policy, k: Key, target: Tier, attempt: Attempt)
    requires Base(k) && Caused(p.threshold, k.log) && !Cause(p.threshold, k.log) && k.record.status.ConfirmedFailed?
    requires !k.record.frozen && !Exposed(p, k) && TierLeft(p, k.cached)
    ensures Caused(p.threshold, Switch(k, target, attempt).log) && !Exposed(p, Switch(k, target, attempt))
  {
    hide Caused, Switches, FailuresSince, Relapsed, HealthySince, Escalating, LastTarget, NextEnabledTier;
  }

  /** What a round does to a key, without naming its verdicts. */
  predicate RoundOf(threshold: int, k: Key, g: Key, failures: nat)
  {
    var r, q := k.record, g.record;
    && g.live == k.live && g.pending == k.pending && q.verified == r.verified && q.frozen == r.frozen
    && q.failures == r.failures + failures && FailuresSince(g.log) == FailuresSince(k.log) + failures
    && Relapsed(g.log) == Relapsed(k.log) && Switches(g.log) == Switches(k.log)
    && (Caused(threshold, g.log) <==> Caused(threshold, k.log))
    && (Gathers(q.status) || (q.status.ConfirmedHealthy? && HealthySince(g.log))
        || (q.status.ConfirmedFailed? && failures > 0 && q.failures >= threshold))
  }

  lemma RoundShape(p: Policy, k: Key, verdicts: seq<Verdict>, timedOut: bool)
    requires k.record.verified && Gathers(k.record.status)
    ensures RoundOf(p.threshold, k, Gathered(p, k, verdicts, timedOut), Failures(verdicts))
  {
    hide Caused, Switches, FailuresSince, Relapsed, HealthySince, CountAll, FailureEvents, Escalating, Cause, LastTarget;
    var r := k.record;
    RoundNoted(p.threshold, k.log, Tally(r.status, r.successes, r.failures), verdicts);
    var log := k.log + FailureEvents(verdicts);
    Noted(p.threshold, log, HealthConfirmed);
    assert log + [] == log;
  }

  lemma RoundGood(p: Policy, k: Key, g: Key, failures: nat)
    requires Good(p, k) && k.record.verified && Gathers(k.record.status) && RoundOf(p.threshold, k, g, failures) && Base(g)
    ensures Good(p, g)
  {
    hide Caused, Switches, FailuresSince, Relapsed, HealthySince, Base, NextEnabledTier;
  }

  lemma EvidenceGood(p: Policy, k: Key, verdicts: seq<Verdict>, timedOut: bool)
    requires Good(p, k)
    ensures Good(p, Gathered(p, k, verdicts, timedOut))
  {
    EvidenceKeeps(p, k, verdicts, timedOut);
    if k.record.verified && Gathers(k.record.status) {
      RoundShape(p, k, verdicts, timedOut);
      hide Good, Base, RoundOf, Gathered;
      GoodIsBase(p, k);
      RoundGood(p, k, Gathered(p, k, verdicts, timedOut), Failures(verdicts));
    }
  }

  lemma GoodIsBase(p: Policy, k: Key)
    requires Good(p, k)
    ensures Base(k)
  {
  }

  lemma RecoverGood(p: Policy, k: Key)
    requires Good(p, k)
    ensures Good(p, Recovered(k))
  {
    ResolveKeeps(k);
    hide Caused, Switches, FailuresSince, Relapsed, HealthySince, Escalating, LastTarget, NextEnabledTier;
    if k.pending.Some? {
      var e := Applied(k.pending.value.origin, k.pending.value.target);
      AppliedNoted(k.log, e);
      CausedExtends(p.threshold, k.log, e);
    }
  }

  lemma QuietGood(p: Policy, k: Key, a: Action)
    requires Good(p, k) && QuietAction(a)
    ensures Good(p, Step(p, k, a))
  {
    StepKeeps(p, k, a);
    hide Base, HandleOutage, Gathered, Recovered, Caused, Cause, Risky, Carries;
    match a
    case Cycle(ready, outage, attempt) => CycleGood(p, k, outage, attempt);
    case Evidence(verdicts, timedOut) => EvidenceGood(p, k, verdicts, timedOut);
    case Recover => RecoverGood(p, k);
    case Fetch(_) =>
    case SaveFetch(_) =>
  }

  lemma {:induction false} QuietRunGood(p: Policy, k: Key, actions: seq<Action>)
    requires Good(p, k) && Quiet(actions)
    ensures Good(p, Run(p, k, actions))
    decreases |actions|
  {
    hide Good, Step, QuietAction;
    if actions != [] {
      QuietGood(p, k, actions[0]);
      QuietRunGood(p, Step(p, k, actions[0]), actions[1..]);
    }
  }

  // ---------------------------------------------- an exposed key goes wrong

  /** Some continuation without passes applies a switch that lacks a cause. */
  ghost predicate CanGoWrong(p: Policy, k: Key)
  {
    exists actions :: GoesWrong(p, k, actions)
  }

  predicate GoesWrong(p: Policy, k: Key, actions: seq<Action>)
  {
    Quiet(actions) && !Caused(p.threshold, Run(p, k, actions).log)
  }

  lemma WrongNow(p: Policy, k: Key)
    requires !Caused(p.threshold, k.log)
    ensures CanGoWrong(p, k)
  {
    hide Caused;
    assert GoesWrong(p, k, []);
  }

  lemma WrongAfter(p: Policy, k: Key, a: Action)
    requires QuietAction(a) && CanGoWrong(p, Step(p, k, a))
    ensures CanGoWrong(p, k)
  {
    hide Step, Caused, QuietAction;
    var more :| GoesWrong(p, Step(p, k, a), more);
    assert ([a] + more)[0] == a && ([a] + more)[1..] == more;
    assert GoesWrong(p, k, [a] + more);
  }

  /** Refreshing the cache changes nothing else. */
  lemma WrongAfterRefresh(p: Policy, k: Key, fetches: map<nat, Tier>)
    requires fetches == k.fetches[0 := k.live] - {0}
    requires CanGoWrong(p, k.(cached := k.live, fetches := fetches))
    ensures CanGoWrong(p, k)
  {
    hide CanGoWrong;
    var t := Step(p, k, Fetch(0));
    assert Step(p, t, SaveFetch(0)) == k.(cached := k.live, fetches := fetches);
    WrongAfter(p, t, SaveFetch(0));
    WrongAfter(p, k, Fetch(0));
  }

  lemma UnearnedGoesWrong(p: Policy, k: Key)
    requires k.pending.None? && !k.record.frozen && TierLeft(p, k.live) && !Cause(p.threshold, k.log) && Unearned(k.record, k.log)
    ensures CanGoWrong(p, k)
  {
    hide CanGoWrong, Switches, FailuresSince, Relapsed, HealthySince, NextEnabledTier, Caused;
    var fetches := k.fetches[0 := k.live] - {0};
    var t := k.(cached := k.live, fetches := fetches);
    var log := if k.record.status.ConfirmedFailed? then k.log else k.log + [OutageSeen];
    Noted(p.threshold, k.log, OutageSeen);
    var e := Applied(k.live, NextEnabledTier(p.enabled, k.live).value);
    CausedExtends(p.threshold, log, e);
    var u := Step(p, t, Cycle(true, true, Succeeded));
    assert u.log == log + [e];
    WrongNow(p, u);
    WrongAfter(p, t, Cycle(true, true, Succeeded));
    WrongAfterRefresh(p, k, fetches);
  }

  lemma {:induction false} AllFailures(verdicts: seq<Verdict>, t: Tally, threshold: int)
    requires forall v | v in verdicts :: v.Failure?
    ensures Failures(verdicts) == |verdicts|
    ensures var u := CountAll(t, verdicts, threshold);
            && !(u.status.ConfirmedHealthy? && !t.status.ConfirmedHealthy?)
            && (verdicts != [] && t.failures + |verdicts| >= threshold ==> u.status.ConfirmedFailed?)
            && (t.failures + |verdicts| < threshold ==> u.status == t.status)
    decreases |verdicts|
  {
    if verdicts != [] { AllFailures(verdicts[1..], Count(t, verdicts[0], threshold), threshold); }
  }

  lemma OvercountedGoesWrong(p: Policy, k: Key)
    requires k.pending.None? && !k.record.frozen && TierLeft(p, k.live) && !Cause(p.threshold, k.log)
    requires Overcounted(p.threshold, k.record, k.log)
    ensures CanGoWrong(p, k)
  {
    hide CanGoWrong, Switches, FailuresSince, Relapsed, HealthySince, NextEnabledTier, Caused, CountAll, FailureEvents, Escalating;
    var r := k.record;
    var n := if r.failures + 1 >= p.threshold then 1 else p.threshold - r.failures;
    var verdicts := seq(n, i => Failure);
    AllFailures(verdicts, Tally(r.status, r.successes, r.failures), p.threshold);
    RoundNoted(p.threshold, k.log, Tally(r.status, r.successes, r.failures), verdicts);
    var t := Step(p, k, Evidence(verdicts, false));
    assert t.log == k.log + FailureEvents(verdicts);
    UnearnedGoesWrong(p, t);
    WrongAfter(p, k, Evidence(verdicts, false));
  }

  lemma RiskyGoesWrong(p: Policy, k: Key)
    requires k.pending.None? && Risky(p, k.record, k.live, k.log)
    ensures CanGoWrong(p, k)
  {
    hide CanGoWrong, Unearned, Overcounted, Cause;
    if Unearned(k.record, k.log) { UnearnedGoesWrong(p, k); } else { OvercountedGoesWrong(p, k); }
  }

  predicate Reached(k: Key)
  {
    k.pending.Some? && k.live == k.pending.value.target
  }

  lemma CounterGoesWrong(p: Policy, k: Key)
    requires Base(k) && Reached(k) && p.threshold > 1 && TierLeft(p, k.live) && k.record.verified && k.record.failures > 0
    ensures CanGoWrong(p, k)
  {
    hide CanGoWrong, Switches, FailuresSince, Relapsed, HealthySince, NextEnabledTier, Escalating, LastTarget;
    var e := Applied(k.pending.value.origin, k.pending.value.target);
    AppliedNoted(k.log, e);
    var t := Step(p, k, Recover);
    assert t.log == k.log + [e];
    RiskyGoesWrong(p, t);
    WrongAfter(p, k, Recover);
  }

  lemma GatheringGoesWrong(p: Policy, k: Key)
    requires Base(k) && Reached(k) && p.threshold > 1 && TierLeft(p, k.live) && k.record.verified && Gathers(k.record.status)
    ensures CanGoWrong(p, k)
  {
    hide CanGoWrong, NextEnabledTier, Escalating, LastTarget, CountAll, FailureEvents;
    var r := k.record;
    RoundNoted(p.threshold, k.log, Tally(r.status, r.successes, r.failures), [Failure]);
    AllFailures([Failure], Tally(r.status, r.successes, r.failures), p.threshold);
    var t := Step(p, k, Evidence([Failure], false));
    StepKeeps(p, k, Evidence([Failure], false));
    CounterGoesWrong(p, t);
    WrongAfter(p, k, Evidence([Failure], false));
  }

  lemma OpenGoesWrong(p: Policy, k: Key)
    requires Base(k) && Reached(k) && p.threshold > 1 && TierLeft(p, k.live) && k.record.verified
    requires !k.record.frozen && !Settling(k.record.status)
    ensures CanGoWrong(p, k)
  {
    hide CanGoWrong, NextEnabledTier, Escalating, LastTarget;
    var fetches := k.fetches[0 := k.live] - {0};
    var t := k.(cached := k.live, fetches := fetches);
    StepKeeps(p, k, Fetch(0));
    StepKeeps(p, Step(p, k, Fetch(0)), SaveFetch(0));
    assert Step(p, Step(p, k, Fetch(0)), SaveFetch(0)) == t;
    var a := Cycle(true, true, Misconfigured);
    var u := Step(p, t, a);
    StepKeeps(p, t, a);
    GatheringGoesWrong(p, u);
    WrongAfter(p, t, a);
    WrongAfterRefresh(p, k, fetches);
  }

  lemma ReachedGoesWrong(p: Policy, k: Key)
    requires Base(k) && Reached(k) && Exposed(p, k)
    ensures CanGoWrong(p, k)
  {
    hide CanGoWrong, Base, Cause, TierLeft;
    if !Cause(p.threshold, k.log) {
      var e := Applied(k.pending.value.origin, k.pending.value.target);
      CausedExtends(p.threshold, k.log, e);
      assert Step(p, k, Recover).log == k.log + [e];
      WrongNow(p, Step(p, k, Recover));
      WrongAfter(p, k, Recover);
    } else if k.record.failures > 0 {
      CounterGoesWrong(p, k);
    } else if Gathers(k.record.status) {
      GatheringGoesWrong(p, k);
    } else {
      OpenGoesWrong(p, k);
    }
  }

  lemma ExposedGoesWrong(p: Policy, k: Key)
    requires Base(k) && Exposed(p, k)
    ensures CanGoWrong(p, k)
  {
    hide CanGoWrong, Base, Cause, Risky, Carries;
    if Reached(k) {
      ReachedGoesWrong(p, k);
    } else if k.pending.Some? {
      RiskyGoesWrong(p, Step(p, k, Recover));
      WrongAfter(p, k, Recover);
    } else {
      RiskyGoesWrong(p, k);
    }
  }

  /** A key whose switches so far were all caused can go wrong without any further
      pass exactly when it is exposed. */
  lemma GoesWrongExactly(p: Policy, k: Key)
    requires Base(k) && Caused(p.threshold, k.log)
    ensures CanGoWrong(p, k) <==> Exposed(p, k)
  {
    if Exposed(p, k) {
      ExposedGoesWrong(p, k);
    } else {
      hide Base, Caused, Exposed;
      forall actions ensures !GoesWrong(p, k, actions) {
        if Quiet(actions) { QuietRunGood(p, k, actions); }
      }
    }
  }

  // -------------------------------------------------------------- whole runs

  /** A write of a pass that leaves the key exposed. */
  predicate ExposingWrite(p: Policy, k: Key, a: Action)
  {
    (a.PassResolve? || a.PassSave?) && Exposed(p, Step(p, k, a))
  }

  predicate NoExposingWrites(p: Policy, k: Key, actions: seq<Action>)
    decreases |actions|
  {
    actions == [] || (!ExposingWrite(p, k, actions[0]) && NoExposingWrites(p, Step(p, k, actions[0]), actions[1..]))
  }

  /** Every switch is caused, now and in every continuation without passes that
      branches off anywhere along the run. */
  ghost predicate CausedThroughout(p: Policy, k: Key, actions: seq<Action>)
    decreases |actions|
  {
    && !CanGoWrong(p, k)
    && (actions != [] ==> CausedThroughout(p, Step(p, k, actions[0]), actions[1..]))
  }

  /** A completion by the pass confirms a tier that the key has really reached. */
  lemma WriteCaused(p: Policy, k: Key, a: Action)
    requires Good(p, k) && !QuietAction(a)
    ensures Base(Step(p, k, a)) && Caused(p.threshold, Step(p, k, a).log)
    ensures !a.PassResolve? && !a.PassSave? ==> !Exposed(p, Step(p, k, a))
  {
    StepKeeps(p, k, a);
    hide Escalating, Caused, Cause, Risky, Carries, LastTarget;
    if k.pending.Some? {
      CausedExtends(p.threshold, k.log, Applied(k.pending.value.origin, k.pending.value.target));
    }
  }

  lemma {:induction false} CausedFrom(p: Policy, k: Key, actions: seq<Action>)
    requires Good(p, k)
    ensures NoExposingWrites(p, k, actions) <==> CausedThroughout(p, k, actions)
    decreases |actions|
  {
    GoesWrongExactly(p, k);
    if actions != [] {
      var t := Step(p, k, actions[0]);
      if QuietAction(actions[0]) { QuietGood(p, k, actions[0]); } else { WriteCaused(p, k, actions[0]); }
      hide Base, Caused, Exposed, Step, CanGoWrong, QuietAction;
      if ExposingWrite(p, k, actions[0]) {
        GoesWrongExactly(p, t);
      } else {
        CausedFrom(p, t, actions[1..]);
      }
    }
  }

  lemma InitialGood(p: Policy, k: Key)
    requires Initial(k)
    ensures Good(p, k)
  {
  }

  /** For every run of automatic failover: all switches are caused, in the run and
      in whatever could follow any part of it without another pass, exactly when
      no pass of the run writes a copy that leaves the key exposed. */
  lemma SwitchesCausedExactly(p: Policy, k: Key, actions: seq<Action>)
    requires Initial(k)
    ensures NoExposingWrites(p, k, actions) <==> CausedThroughout(p, k, actions)
  {
    InitialGood(p, k);
    CausedFrom(p, k, actions);
  }

  lemma {:induction false} NeverWrong(p: Policy, k: Key, actions: seq<Action>)
    requires CausedThroughout(p, k, actions)
    ensures Caused(p.threshold, Run(p, k, actions).log)
    decreases |actions|
  {
    hide Step, Caused;
    if actions == [] {
      assert !GoesWrong(p, k, []);
    } else {
      NeverWrong(p, Step(p, k, actions[0]), actions[1..]);
    }
  }

  /** Between two applied switches the key collected the configured number of
      post-switch failures, or was confirmed healthy and then its pool went out. */
  lemma SwitchesHaveCause(p: Policy, k: Key, actions: seq<Action>, m: nat, n: nat)
    requires Initial(k) && NoExposingWrites(p, k, actions)
    requires var log := Run(p, k, actions).log; m < n < |log| && log[m].Applied? && log[n].Applied?
    ensures var log := Run(p, k, actions).log;
            FailuresSince(log[..n]) >= p.threshold || Relapsed(log[..n])
  {
    SwitchesCausedExactly(p, k, actions);
    NeverWrong(p, k, actions);
    var log := Run(p, k, actions).log;
    hide Run, Initial, CausedThroughout, NoExposingWrites;
    HasSwitch(log[..n], m);
  }

  lemma {:induction false} HasSwitch(log: seq<Event>, m: nat)
    requires m < |log| && log[m].Applied?
    ensures Switches(log) > 0
  {
    if m < |log| - 1 { HasSwitch(log[..|log| - 1], m); }
  }
}

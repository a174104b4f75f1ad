/** What every run of automatic failover keeps, however reconcile passes and
    refreshes interleave: switches escalate, so there are at most two. */
module TierFailoverSafety {
  import opened Options
  import opened Tiers
  import opened ValidationEvidence
  import opened TierFailover

  predicate RowOk(k: Key)
  {
    k.pending.Some? ==>
      var row := k.pending.value;
      && Index(row.origin) < Index(row.target) && NotBelow(k.log, row.origin)
      && (k.live == row.origin || (row.called && k.live == row.target))
  }

  /** Nothing read from the upstream is ahead of it. */
  predicate ViewsOk(k: Key)
  {
    && Index(k.cached) <= Index(k.live)
    && (forall f | f in k.fetches :: Index(k.fetches[f]) <= Index(k.live))
    && (k.pass.Some? && k.pass.value.rates.Some? ==> Index(k.pass.value.rates.value) <= Index(k.live))
  }

  ghost predicate Base(k: Key)
  {
    && Escalating(k.log) && NotBelow(k.log, k.live) && RowOk(k) && ViewsOk(k)
    && Announced(k.record) && (k.pass.Some? ==> Announced(k.pass.value.base))
  }

  lemma Extended(log: seq<Event>, e: Event)
    ensures (log + [e])[..|log + [e]| - 1] == log && (log + [e])[|log + [e]| - 1] == e
  {
  }

  lemma EscalatingExtends(log: seq<Event>, e: Event)
    requires Escalating(log) && Climbs(log, e)
    ensures Escalating(log + [e])
  {
    hide Climbs;
    var l := log + [e];
    forall n | 0 <= n < |l| ensures Climbs(l[..n], l[n]) {
      assert l[..n] == log[..n];
      assert n == |log| ==> log[..n] == log;
    }
  }

  lemma CausedExtends(threshold: int, log: seq<Event>, e: Event)
    ensures Caused(threshold, log + [e]) <==> Caused(threshold, log) && (e.Applied? ==> Cause(threshold, log))
  {
    hide Cause;
    var l := log + [e];
    assert l[|log|] == e && l[..|log|] == log;
    assert forall n | 0 <= n < |log| :: l[n] == log[n] && l[..n] == log[..n];
  }

  /** What an event other than a switch does to the summaries of the log. */
  lemma Noted(threshold: int, log: seq<Event>, e: Event)
    requires !e.Applied?
    ensures var l := log + [e];
            && Switches(l) == Switches(log) && LastTarget(l) == LastTarget(log)
            && FailuresSince(l) == FailuresSince(log) + (if e.FailureSeen? then 1 else 0)
            && (HealthySince(l) <==> HealthySince(log) || e.HealthConfirmed?)
            && (Relapsed(l) <==> Relapsed(log) || (e.OutageSeen? && HealthySince(log)))
            && (Cause(threshold, log) ==> Cause(threshold, l))
    ensures Escalating(log) ==> Escalating(log + [e])
    ensures Caused(threshold, log + [e]) <==> Caused(threshold, log)
  {
    Extended(log, e);
    CausedExtends(threshold, log, e);
    if Escalating(log) { EscalatingExtends(log, e); }
  }

  lemma AppliedNoted(log: seq<Event>, e: Event)
    requires e.Applied?
    ensures var l := log + [e];
            && Switches(l) == Switches(log) + 1 && LastTarget(l) == Some(e.target)
            && FailuresSince(l) == 0 && !HealthySince(l) && !Relapsed(l)
    ensures Escalating(log) && Climbs(log, e) ==> Escalating(log + [e])
  {
    Extended(log, e);
    if Escalating(log) && Climbs(log, e) { EscalatingExtends(log, e); }
  }

  function Failures(verdicts: seq<Verdict>): nat
  {
    if verdicts == [] then 0 else Failures(verdicts[1..]) + if verdicts[0].Failure? then 1 else 0
  }

  /** The failures of a round, in log and tally. */
  lemma {:induction false} RoundNoted(threshold: int, log: seq<Event>, t: Tally, verdicts: seq<Verdict>)
    ensures var l := log + FailureEvents(verdicts);
            && Switches(l) == Switches(log) && LastTarget(l) == LastTarget(log)
            && FailuresSince(l) == FailuresSince(log) + Failures(verdicts)
            && HealthySince(l) == HealthySince(log) && Relapsed(l) == Relapsed(log)
            && (Escalating(log) ==> Escalating(l)) && (Caused(threshold, l) <==> Caused(threshold, log))
    ensures var u := CountAll(t, verdicts, threshold);
            && u.failures == t.failures + Failures(verdicts)
            && (u.status == t.status || u.status.ConfirmedHealthy? || u.status.ConfirmedFailed?)
            && (u.status.ConfirmedFailed? && !t.status.ConfirmedFailed? ==> Failures(verdicts) > 0 && u.failures >= threshold)
    decreases |verdicts|
  {
    hide FailuresSince, HealthySince, Switches, LastTarget, Relapsed, Escalating, Caused, Cause;
    if verdicts == [] {
      assert log + [] == log;
    } else {
      var more := FailureEvents(verdicts[1..]);
      var next := Count(t, verdicts[0], threshold);
      if verdicts[0].Failure? {
        Noted(threshold, log, FailureSeen);
        RoundNoted(threshold, log + [FailureSeen], next, verdicts[1..]);
        assert log + ([FailureSeen] + more) == log + [FailureSeen] + more;
      } else {
        RoundNoted(threshold, log, next, verdicts[1..]);
        assert log + ([] + more) == log + more;
      }
    }
  }

  // -------------------------------------------------------------- invariant

  lemma SwitchKeeps(k: Key, target: Tier, attempt: Attempt)
    requires Base(k) && Index(k.cached) < Index(target)
    ensures Base(Switch(k, target, attempt))
  {
    hide Escalating, LastTarget;
    if k.live == k.cached && attempt.Succeeded? { AppliedNoted(k.log, Applied(k.live, target)); }
  }

  lemma CycleKeeps(p: Policy, k: Key, outage: bool, attempt: Attempt)
    requires Base(k)
    ensures Base(HandleOutage(p, k, outage, attempt))
  {
    hide Escalating, LastTarget, Switch;
    var r := k.record;
    var failed := if r.status.ConfirmedFailed? then k else k.(record := r.(status := ConfirmedFailed), log := k.log + [OutageSeen]);
    Noted(p.threshold, k.log, OutageSeen);
    var target := NextEnabledTier(p.enabled, k.cached);
    if target.Some? { SwitchKeeps(failed, target.value, attempt); }
  }

  lemma EvidenceKeeps(p: Policy, k: Key, verdicts: seq<Verdict>, timedOut: bool)
    requires Base(k)
    ensures Base(Gathered(p, k, verdicts, timedOut))
  {
    hide Escalating, LastTarget, CountAll, FailureEvents, Caused, Switches, FailuresSince, HealthySince, Relapsed, Cause;
    var r := k.record;
    if r.verified && Gathers(r.status) {
      RoundNoted(p.threshold, k.log, Tally(r.status, r.successes, r.failures), verdicts);
      var log := k.log + FailureEvents(verdicts);
      Noted(p.threshold, log, HealthConfirmed);
      assert log + [] == log;
    }
  }

  /** Applying a row whose target the key has reached. */
  lemma AppliedRowKeeps(k: Key, t: Key)
    requires Base(k) && k.pending.Some? && k.live == k.pending.value.target
    requires t.live == k.live && t.cached == k.cached && t.fetches == k.fetches && t.pending.None? && Announced(t.record)
    requires t.log == k.log + [Applied(k.pending.value.origin, k.pending.value.target)]
    requires t.pass.Some? ==> k.pass.Some? && t.pass.value.rates == k.pass.value.rates && Announced(t.pass.value.base)
    ensures Base(t)
  {
    hide Escalating, LastTarget, Announced;
    AppliedNoted(k.log, Applied(k.pending.value.origin, k.pending.value.target));
  }

  /** A tier that was read is one the key has reached. */
  lemma ReadIsReached(k: Key)
    requires Base(k) && k.pending.Some? && k.pass.Some? && k.pass.value.rates == Some(k.pending.value.target)
    ensures k.live == k.pending.value.target
  {
    hide Escalating, LastTarget;
  }

  lemma ConfirmedIsAnnounced(r: Record, row: Pending)
    ensures Announced(Confirmed(r, row)) && Announced(Confirmed(r, row).(frozen := false))
  {
  }

  lemma RecoverKeeps(k: Key)
    requires Base(k)
    ensures Base(Recovered(k))
  {
    if k.pending.Some? && k.live == k.pending.value.target {
      ConfirmedIsAnnounced(k.record, k.pending.value);
      hide Base, Confirmed, Announced;
      BaseAnnounced(k);
      AppliedRowKeeps(k, Recovered(k));
    } else {
      hide Escalating, LastTarget, Confirmed;
    }
  }

  lemma BaseAnnounced(k: Key)
    requires Base(k)
    ensures k.pass.Some? ==> Announced(k.pass.value.base)
  {
    hide Escalating, NotBelow, RowOk, ViewsOk;
  }

  lemma PassResolveKeeps(k: Key)
    requires Base(k)
    ensures Base(PassResolved(k))
  {
    if k.pending.Some? && k.pass.Some? && k.pass.value.rates == Some(k.pending.value.target)
       && k.pass.value.listed.Some? && k.pending.value.id in k.pass.value.listed.value {
      ReadIsReached(k);
      ConfirmedIsAnnounced(k.pass.value.base, k.pending.value);
      hide Base, Confirmed, Announced;
      AppliedRowKeeps(k, PassResolved(k));
    } else {
      hide Escalating, LastTarget, Confirmed;
    }
  }

  /** Recovery and both writes of a pass. */
  lemma ResolveKeeps(k: Key)
    requires Base(k)
    ensures Base(Recovered(k)) && Base(PassResolved(k)) && Base(PassSaved(k))
  {
    RecoverKeeps(k);
    PassResolveKeeps(k);
    hide Escalating, LastTarget, Recovered, PassResolved;
  }

  lemma StepKeeps(p: Policy, k: Key, a: Action)
    requires Base(k)
    ensures Base(Step(p, k, a))
  {
    hide Escalating, LastTarget, HandleOutage, Gathered, Recovered, PassResolved, PassSaved;
    match a
    case Cycle(ready, outage, attempt) => CycleKeeps(p, k, outage, attempt);
    case Evidence(verdicts, timedOut) => EvidenceKeeps(p, k, verdicts, timedOut);
    case Recover => ResolveKeeps(k);
    case PassResolve => ResolveKeeps(k);
    case PassSave => ResolveKeeps(k);
    case _ =>
  }

  lemma {:induction false} RunKeeps(p: Policy, k: Key, actions: seq<Action>)
    requires Base(k)
    ensures Base(Run(p, k, actions))
    decreases |actions|
  {
    hide Base, Step;
    if actions != [] {
      StepKeeps(p, k, actions[0]);
      RunKeeps(p, Step(p, k, actions[0]), actions[1..]);
    }
  }

  // ------------------------------------------------------------- escalation

  /** Applied switches strictly escalate: each climbs, and none starts below the
      tier an earlier one reached. */
  lemma SwitchesEscalate(p: Policy, k: Key, actions: seq<Action>, m: nat, n: nat)
    requires Initial(k)
    requires var log := Run(p, k, actions).log; m < n < |log| && log[m].Applied? && log[n].Applied?
    ensures var log := Run(p, k, actions).log;
            Index(log[m].origin) < Index(log[m].target) <= Index(log[n].origin) < Index(log[n].target)
  {
    RunKeeps(p, k, actions);
    var log := Run(p, k, actions).log;
    hide Run, Initial;
    assert Climbs(log[..m], log[m]);
    Escalates(log, m, n);
  }

  lemma {:induction false} Escalates(log: seq<Event>, m: nat, n: nat)
    requires Escalating(log) && m < n < |log| && log[m].Applied? && log[n].Applied?
    ensures Index(log[m].target) <= Index(log[n].origin) < Index(log[n].target)
    decreases n
  {
    assert Climbs(log[..n], log[n]);
    var k := LastApplied(log[..n], m);
    if k > m { Escalates(log, m, k); }
  }

  lemma {:induction false} LastApplied(log: seq<Event>, m: nat) returns (k: nat)
    requires m < |log| && log[m].Applied?
    ensures m <= k < |log| && log[k].Applied? && LastTarget(log) == Some(log[k].target)
  {
    k := |log| - 1;
    if !log[k].Applied? { k := LastApplied(log[..|log| - 1], m); }
  }

  /** So there are at most two of them. */
  lemma AtMostTwoSwitches(p: Policy, k: Key, actions: seq<Action>)
    requires Initial(k)
    ensures Switches(Run(p, k, actions).log) <= 2
  {
    RunKeeps(p, k, actions);
    var log := Run(p, k, actions).log;
    hide Run, Initial;
    SwitchesBounded(log);
  }

  lemma {:induction false} SwitchesBounded(log: seq<Event>)
    requires Escalating(log)
    ensures Switches(log) <= if LastTarget(log).None? then 0 else Index(LastTarget(log).value)
  {
    if log != [] {
      var rest := log[..|log| - 1];
      assert Escalating(rest) by {
        forall n | 0 <= n < |rest| ensures Climbs(rest[..n], rest[n]) { assert rest[..n] == log[..n]; }
      }
      SwitchesBounded(rest);
      assert Climbs(log[..|log| - 1], log[|log| - 1]);
    }
  }

  /** Relapsed read as positions: a confirmation, then an outage, and no switch
      from the confirmation on. */
  lemma {:induction false} RelapseWitness(log: seq<Event>) returns (healthy: nat, out: nat)
    requires Relapsed(log)
    ensures healthy < out < |log| && log[healthy].HealthConfirmed? && log[out].OutageSeen?
    ensures forall n | healthy <= n < |log| :: !log[n].Applied?
  {
    var rest := log[..|log| - 1];
    if Relapsed(rest) {
      healthy, out := RelapseWitness(rest);
    } else {
      healthy := HealthWitness(rest);
      out := |log| - 1;
    }
  }

  lemma {:induction false} HealthWitness(log: seq<Event>) returns (healthy: nat)
    requires HealthySince(log)
    ensures healthy < |log| && log[healthy].HealthConfirmed? && forall n | healthy <= n < |log| :: !log[n].Applied?
  {
    healthy := |log| - 1;
    if !log[healthy].HealthConfirmed? { healthy := HealthWitness(log[..|log| - 1]); }
  }
}

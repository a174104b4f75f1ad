/** What undisturbed reconcile passes keep, a run in which a late one breaks it,
    and when a settled status is final. */
module TierFailoverPasses {
  import opened Options
  import opened Tiers
  import opened ValidationEvidence
  import opened TierFailover
  import opened TierFailoverSafety
  import opened TierFailoverCause

  // ---------------------------------------------------- copies not overtaken

  /** The pass writes a copy although the stored state has changed since. */
  predicate Overtaken(k: Key, a: Action)
  {
    (a.PassResolve? || a.PassSave?) && k.pass.Some? && k.pass.value.base != k.record
  }

  predicate NeverOvertaken(p: Policy, k: Key, actions: seq<Action>)
    decreases |actions|
  {
    actions == [] || (!Overtaken(k, actions[0]) && NeverOvertaken(p, Step(p, k, actions[0]), actions[1..]))
  }

  /** Status and counters are backed by what happened since the last switch. */
  predicate Backed(p: Policy, k: Key)
  {
    var r := k.record;
    && (Switches(k.log) > 0 ==>
          && !r.status.Unknown? && !r.status.Stable?
          && r.failures <= FailuresSince(k.log)
          && (r.status.ConfirmedHealthy? ==> HealthySince(k.log))
          && (r.status.ConfirmedFailed? ==> Cause(p.threshold, k.log)))
    && (k.pending.Some? ==> Cause(p.threshold, k.log))
    && (Reached(k) ==> !r.verified && r.failures == 0)
  }

  lemma BackedIsUnexposed(p: Policy, k: Key)
    requires Base(k) && Backed(p, k)
    ensures !Exposed(p, k)
  {
    hide FailuresSince, HealthySince, Switches, Relapsed, Escalating, LastTarget, NextEnabledTier;
  }

  lemma BackedSwitch(p: Policy, k: Key, target: Tier, attempt: Attempt)
    requires Base(k) && Backed(p, k) && k.record.status.ConfirmedFailed? && Index(k.cached) < Index(target)
    ensures Backed(p, Switch(k, target, attempt))
  {
    hide FailuresSince, HealthySince, Switches, Relapsed, Escalating, LastTarget;
    if k.live == k.cached && attempt.Succeeded? { AppliedNoted(k.log, Applied(k.live, target)); }
  }

  lemma BackedFailed(p: Policy, k: Key)
    requires Base(k) && Backed(p, k) && !Settling(k.record.status) && !k.record.status.ConfirmedFailed?
    ensures var failed := k.(record := k.record.(status := ConfirmedFailed), log := k.log + [OutageSeen]);
            Base(failed) && Backed(p, failed)
  {
    Noted(p.threshold, k.log, OutageSeen);
    hide FailuresSince, HealthySince, Switches, Relapsed, Escalating, LastTarget;
  }

  lemma BackedFails(p: Policy, k: Key)
    requires Base(k) && Backed(p, k) && k.record.status.ConfirmedFailed?
    ensures Backed(p, k.(record := k.record.(status := Exhausted, frozen := true)))
    ensures Backed(p, k.(record := k.record.(frozen := true)))
    ensures Backed(p, k.(record := k.record.(status := Uncertain)))
  {
    hide FailuresSince, HealthySince, Switches, Cause;
  }

  lemma BackedCycle(p: Policy, k: Key, outage: bool, attempt: Attempt)
    requires Base(k) && Backed(p, k)
    ensures Backed(p, HandleOutage(p, k, outage, attempt))
  {
    var r := k.record;
    hide Base, Backed, Switch;
    if !(r.frozen || Settling(r.status) || (!r.status.ConfirmedFailed? && !outage)) {
      var failed := if r.status.ConfirmedFailed? then k else k.(record := r.(status := ConfirmedFailed), log := k.log + [OutageSeen]);
      if !r.status.ConfirmedFailed? { BackedFailed(p, k); }
      BackedFails(p, failed);
      var target := NextEnabledTier(p.enabled, k.cached);
      if target.Some? { BackedSwitch(p, failed, target.value, attempt); }
    }
  }

  lemma BackedEvidence(p: Policy, k: Key, verdicts: seq<Verdict>, timedOut: bool)
    requires Base(k) && Backed(p, k)
    ensures Backed(p, Gathered(p, k, verdicts, timedOut))
  {
    hide FailuresSince, HealthySince, Switches, Relapsed, Escalating, LastTarget, CountAll, FailureEvents, Base, Caused;
    var r := k.record;
    RoundNoted(p.threshold, k.log, Tally(r.status, r.successes, r.failures), verdicts);
    var log := k.log + FailureEvents(verdicts);
    Noted(p.threshold, log, HealthConfirmed);
    assert log + [] == log;
  }

  lemma BackedResolve(p: Policy, k: Key)
    requires Base(k) && Backed(p, k)
    ensures Backed(p, Recovered(k))
    ensures k.pass.Some? && k.pass.value.base == k.record ==> Backed(p, PassResolved(k)) && Backed(p, PassSaved(k))
  {
    hide FailuresSince, HealthySince, Switches, Relapsed, Escalating, LastTarget;
    if k.pending.Some? { AppliedNoted(k.log, Applied(k.pending.value.origin, k.pending.value.target)); }
  }

  lemma BackedStep(p: Policy, k: Key, a: Action)
    requires Base(k) && Backed(p, k) && !Overtaken(k, a)
    ensures Backed(p, Step(p, k, a))
  {
    hide Base, HandleOutage, Gathered, Recovered, PassResolved, PassSaved, Switches, FailuresSince, HealthySince, Cause;
    match a
    case Cycle(ready, outage, attempt) => BackedCycle(p, k, outage, attempt);
    case Evidence(verdicts, timedOut) => BackedEvidence(p, k, verdicts, timedOut);
    case Recover => BackedResolve(p, k);
    case PassResolve => if k.pass.Some? { BackedResolve(p, k); } else { NoPass(k); }
    case PassSave => if k.pass.Some? { BackedResolve(p, k); } else { NoPass(k); }
    case _ =>
  }

  lemma NoPass(k: Key)
    requires k.pass.None?
    ensures PassResolved(k) == k && PassSaved(k) == k
  {
  }

  /** A pass exposes a key only by writing a copy that has been overtaken. */
  lemma {:induction false} ExposingIsOvertaken(p: Policy, k: Key, actions: seq<Action>)
    requires Base(k) && Backed(p, k) && NeverOvertaken(p, k, actions)
    ensures NoExposingWrites(p, k, actions)
    decreases |actions|
  {
    hide Base, Backed, Step, Overtaken, Exposed;
    if actions != [] {
      StepKeeps(p, k, actions[0]);
      BackedStep(p, k, actions[0]);
      BackedIsUnexposed(p, Step(p, k, actions[0]));
      ExposingIsOvertaken(p, Step(p, k, actions[0]), actions[1..]);
    }
  }

  /** So with passes that nothing overtakes, every later switch has its cause. */
  lemma UndisturbedRunsAreCaused(p: Policy, k: Key, actions: seq<Action>)
    requires Initial(k) && NeverOvertaken(p, k, actions)
    ensures CausedThroughout(p, k, actions)
  {
    ExposingIsOvertaken(p, k, actions);
    SwitchesCausedExactly(p, k, actions);
  }

  // ------------------------------------------------------- a late pass

  lemma RunAppend(p: Policy, k: Key, a: Action, more: seq<Action>)
    ensures Run(p, k, [a] + more) == Run(p, Step(p, k, a), more)
  {
    assert ([a] + more)[1..] == more;
  }

  const POLICY := Policy({Backup, Emergency}, 3)
  const FRESH := Record(Main, Stable, 0, 0, false, false, 0)
  const QUIET_MAIN := Key(Main, Main, map[], FRESH, None, 0, None, [])
  const READ := [PassRead] + ([PassRates] + ([PassList] + []))
  const SWITCH := [Cycle(true, true, Succeeded)] + ([Fetch(0)] + ([SaveFetch(0)] + []))
  const LATE := [PassSave] + ([Cycle(true, true, Succeeded)] + [])

  lemma RunThree(p: Policy, k: Key, a: Action, b: Action, c: Action)
    ensures Run(p, k, [a] + ([b] + ([c] + []))) == Step(p, Step(p, Step(p, k, a), b), c)
  {
    hide Step;
    RunAppend(p, k, a, [b] + ([c] + []));
    RunAppend(p, Step(p, k, a), b, [c] + []);
    RunAppend(p, Step(p, Step(p, k, a), b), c, []);
  }

  const SWITCHED := QUIET_MAIN.(live := Backup, cached := Backup, issued := 1,
                                record := Record(Backup, AwaitingEvidence, 0, 0, true, false, 1),
                                pass := Some(Pass(FRESH, Some(Main), Some({}))),
                                log := [OutageSeen] + [Applied(Main, Backup)])

  lemma LateStart()
    ensures Run(POLICY, Run(POLICY, QUIET_MAIN, READ), SWITCH) == SWITCHED
  {
    var k1 := Run(POLICY, QUIET_MAIN, READ);
    RunThree(POLICY, QUIET_MAIN, PassRead, PassRates, PassList);
    assert k1 == QUIET_MAIN.(pass := Some(Pass(FRESH, Some(Main), Some({}))));
    RunThree(POLICY, k1, Cycle(true, true, Succeeded), Fetch(0), SaveFetch(0));
  }

  lemma LateEnd()
    ensures var k := Run(POLICY, SWITCHED, LATE);
            k.log == SWITCHED.log + [OutageSeen] + [Applied(Backup, Emergency)]
  {
    RunAppend(POLICY, SWITCHED, PassSave, [Cycle(true, true, Succeeded)] + []);
    RunAppend(POLICY, Step(POLICY, SWITCHED, PassSave), Cycle(true, true, Succeeded), []);
  }

  /** A pass reads the key before a switch and saves afterwards: the key is stable
      again, and the next cycle switches to the last tier although not one failure
      followed the first switch and nothing was ever confirmed healthy. */
  lemma LateSaveBreaksCause()
    ensures Initial(QUIET_MAIN)
    ensures var k := Run(POLICY, Run(POLICY, Run(POLICY, QUIET_MAIN, READ), SWITCH), LATE);
            && k.log == [OutageSeen, Applied(Main, Backup), OutageSeen, Applied(Backup, Emergency)]
            && FailuresSince(k.log[..3]) == 0 && !Relapsed(k.log[..3]) && !Caused(POLICY.threshold, k.log)
  {
    LateStart();
    LateEnd();
    hide Run;
    var log := SWITCHED.log + [OutageSeen] + [Applied(Backup, Emergency)];
    assert log[..3] == SWITCHED.log + [OutageSeen];
    AppliedNoted([OutageSeen], Applied(Main, Backup));
    Noted(POLICY.threshold, SWITCHED.log, OutageSeen);
    assert log[3].Applied? && !Cause(POLICY.threshold, log[..3]);
  }

  // ---------------------------------------------------------- final statuses

  /** The tier a pass works with, or would read next. */
  function RatesOf(k: Key): Tier
  {
    if k.pass.Some? && k.pass.value.rates.Some? then k.pass.value.rates.value else k.cached
  }

  /** Cache, state and upstream agree on the tier, and so does everything read
      from them that may still be saved. */
  ghost predicate Still(k: Key)
  {
    && k.live == k.cached == k.record.observed
    && (forall f | f in k.fetches :: k.fetches[f] == k.live)
    && (k.pass.Some? ==>
          k.pass.value.base.status == k.record.status && k.pass.value.base.observed == k.live && RatesOf(k) == k.live)
  }

  predicate Final(s: Status)
  {
    s.Exhausted? || s.Transitioning?
  }

  lemma {:induction false} StillForever(p: Policy, k: Key, actions: seq<Action>)
    requires k.pending.None? && Final(k.record.status) && Still(k)
    ensures var t := Run(p, k, actions);
            t.record.status == k.record.status && t.log == k.log && t.live == k.live
    decreases |actions|
  {
    if actions != [] {
      var t := Step(p, k, actions[0]);
      assert t.pending.None? && t.record.status == k.record.status && t.log == k.log && t.live == k.live && Still(t);
      hide Step, Still;
      StillForever(p, t, actions[1..]);
    }
  }

  predicate Keeps(p: Policy, k: Key, s: Status, actions: seq<Action>)
  {
    Run(p, k, actions).record.status == s
  }

  ghost predicate Leaves(p: Policy, k: Key, s: Status)
  {
    exists actions :: !Keeps(p, k, s, actions)
  }

  lemma LeavesNow(p: Policy, k: Key, s: Status)
    requires k.record.status != s
    ensures Leaves(p, k, s)
  {
    assert !Keeps(p, k, s, []);
  }

  lemma LeavesAfter(p: Policy, k: Key, s: Status, a: Action)
    requires Leaves(p, Step(p, k, a), s)
    ensures Leaves(p, k, s)
  {
    hide Step;
    var more :| !Keeps(p, Step(p, k, a), s, more);
    RunAppend(p, k, a, more);
    assert !Keeps(p, k, s, [a] + more);
  }

  /** A whole pass notices a cache that disagrees with the recorded tier. */
  lemma MismatchLeaves(p: Policy, k: Key, s: Status)
    requires k.pending.None? && !s.Uncertain? && k.record.observed != k.cached
    ensures Leaves(p, k, s)
  {
    hide Leaves;
    var k1 := Step(p, k, PassDrop);
    var k2 := Step(p, k1, PassRead);
    var k3 := Step(p, k2, PassRates);
    var k4 := Step(p, k3, PassList);
    var k5 := Step(p, k4, PassSave);
    LeavesNow(p, k5, s);
    LeavesAfter(p, k4, s, PassSave);
    LeavesAfter(p, k3, s, PassList);
    LeavesAfter(p, k2, s, PassRates);
    LeavesAfter(p, k1, s, PassRead);
    LeavesAfter(p, k, s, PassDrop);
  }

  /** The pass under way, completed. */
  lemma PassLeaves(p: Policy, k: Key, s: Status)
    requires k.pending.None? && !s.Uncertain? && k.pass.Some?
    requires k.pass.value.base.status != s || k.pass.value.base.observed != RatesOf(k)
             || (RatesOf(k) != k.cached && k.pass.value.base.observed == RatesOf(k))
    ensures Leaves(p, k, s)
  {
    hide Leaves;
    var k1 := Step(p, k, PassRates);
    var k2 := Step(p, k1, PassList);
    var k3 := Step(p, k2, PassSave);
    assert k1.pass.value.rates == Some(RatesOf(k)) && k1.pass.value.base == k.pass.value.base;
    if k3.record.status != s { LeavesNow(p, k3, s); } else { MismatchLeaves(p, k3, s); }
    LeavesAfter(p, k2, s, PassSave);
    LeavesAfter(p, k1, s, PassList);
    LeavesAfter(p, k, s, PassRates);
  }

  lemma StaleCacheLeaves(p: Policy, k: Key, s: Status)
    requires k.pending.None? && !s.Uncertain? && !(k.live == k.cached == k.record.observed)
    ensures Leaves(p, k, s)
  {
    hide Leaves;
    if k.record.observed != k.cached {
      MismatchLeaves(p, k, s);
    } else {
      var k1 := Step(p, k, Fetch(0));
      var k2 := Step(p, k1, SaveFetch(0));
      MismatchLeaves(p, k2, s);
      LeavesAfter(p, k1, s, SaveFetch(0));
      LeavesAfter(p, k, s, Fetch(0));
    }
  }

  lemma LateFetchLeaves(p: Policy, k: Key, s: Status, f: nat)
    requires k.pending.None? && !s.Uncertain? && k.live == k.record.observed && f in k.fetches && k.fetches[f] != k.live
    ensures Leaves(p, k, s)
  {
    hide Leaves;
    MismatchLeaves(p, Step(p, k, SaveFetch(f)), s);
    LeavesAfter(p, k, s, SaveFetch(f));
  }

  /** Exhaustion, or a transition without a pending row, is final exactly when
      everything stored and everything read but not yet saved agrees on the tier
      and on the status. */
  lemma FinalExactly(p: Policy, k: Key)
    requires k.pending.None? && Final(k.record.status)
    ensures Still(k) <==> forall actions :: Keeps(p, k, k.record.status, actions)
  {
    var s := k.record.status;
    if Still(k) {
      forall actions ensures Keeps(p, k, s, actions) { StillForever(p, k, actions); }
    } else {
      if !(k.live == k.cached == k.record.observed) {
        StaleCacheLeaves(p, k, s);
      } else if f :| f in k.fetches && k.fetches[f] != k.live {
        LateFetchLeaves(p, k, s, f);
      } else {
        PassLeaves(p, k, s);
      }
      var actions :| !Keeps(p, k, s, actions);
    }
  }

  /** A cycle that stops after announcing its switch leaves the key in transition
      for good once recovery finds the write not applied. */
  lemma StoppedSwitchSticks(p: Policy, k: Key, actions: seq<Action>)
    requires Still(k) && k.pending.None? && k.pass.None?
    requires k.record.status.ConfirmedFailed? && !k.record.frozen && TierLeft(p, k.cached)
    ensures var stuck := Step(p, Step(p, k, Cycle(true, false, Stopped(false))), Recover);
            && stuck.record.status.Transitioning?
            && Run(p, stuck, actions).record.status.Transitioning? && Run(p, stuck, actions).log == k.log
  {
    var stuck := Step(p, Step(p, k, Cycle(true, false, Stopped(false))), Recover);
    assert Still(stuck) && stuck.pending.None?;
    StillForever(p, stuck, actions);
  }

  // ------------------------------------------- exhausted, and out of step

  const TWO_TIERS := Policy({Main, Backup}, 1)
  const OUT := [Fetch(0)] + ([Cycle(true, true, Succeeded)] + ([Fetch(1)] + []))
  const SPENT := [SaveFetch(1)] + ([Evidence([Failure], false)] + ([Cycle(true, false, Succeeded)] + []))

  /** A refresh that read the main tier before the switch is saved after the key
      has been exhausted, which is then not final. */
  lemma ExhaustedOutOfStep()
    ensures Initial(QUIET_MAIN)
    ensures var k := Step(TWO_TIERS, Run(TWO_TIERS, Run(TWO_TIERS, QUIET_MAIN, OUT), SPENT), SaveFetch(0));
            && k.record.status.Exhausted? && k.pending.None? && k.live == Backup && k.cached == Main
            && !forall actions :: Keeps(TWO_TIERS, k, Exhausted, actions)
  {
    var k1 := Run(TWO_TIERS, QUIET_MAIN, OUT);
    RunThree(TWO_TIERS, QUIET_MAIN, Fetch(0), Cycle(true, true, Succeeded), Fetch(1));
    assert k1.live == Backup && k1.cached == Main && k1.fetches == map[0 := Main, 1 := Backup] && k1.pending.None? && k1.pass.None?;
    assert k1.record == Record(Backup, AwaitingEvidence, 0, 0, true, false, 1);
    var k2 := Run(TWO_TIERS, k1, SPENT);
    RunThree(TWO_TIERS, k1, SaveFetch(1), Evidence([Failure], false), Cycle(true, false, Succeeded));
    assert CountAll(Tally(AwaitingEvidence, 0, 0), [Failure], 1) == Tally(ConfirmedFailed, 0, 1);
    assert k2.record.status.Exhausted? && k2.fetches == map[0 := Main] && k2.live == Backup;
    var k3 := Step(TWO_TIERS, k2, SaveFetch(0));
    FinalExactly(TWO_TIERS, k3);
  }
}

/** Whether a pool is out: what the assessment's monitor and traffic evidence can
    and cannot change about that verdict. */
module PoolAssessment {

  /** What the assessment sees of one binding: its channel, its two monitor
      streaks, and its traffic counts over the window. */
  datatype Binding = Binding(
    schedulable: bool,
    active: bool,
    hardThree: bool,
    hardFive: bool,
    samples: nat,
    eligible: nat,
    success: nat,
    hardErrors: nat)

  datatype Rules = Rules(minSamples: int, successBelow: real)

  datatype Reason = GroupEmpty | AllDisabled | NoSchedulable | EvidenceInsufficient | AllFailed

  /** `fallback` notes in the evidence that a stopped pool had no traffic at all and
      long monitor streaks. */
  datatype Assessment = Assessment(outage: bool, reason: Reason, samples: nat, eligible: nat, success: nat, hardErrors: nat, fallback: bool)

  datatype Totals = Totals(samples: nat, eligible: nat, success: nat, hardErrors: nat)

  function Sum(bindings: seq<Binding>): Totals
  {
    if bindings == [] then Totals(0, 0, 0, 0)
    else
      var t, b := Sum(bindings[..|bindings| - 1]), bindings[|bindings| - 1];
      Totals(t.samples + b.samples, t.eligible + b.eligible, t.success + b.success, t.hardErrors + b.hardErrors)
  }

  predicate Stopped(bindings: seq<Binding>)
  {
    forall k | 0 <= k < |bindings| :: !(bindings[k].schedulable && bindings[k].active)
  }

  predicate Disabled(bindings: seq<Binding>)
  {
    forall k | 0 <= k < |bindings| :: !bindings[k].active
  }

  predicate HardThree(bindings: seq<Binding>)
  {
    forall k | 0 <= k < |bindings| :: bindings[k].hardThree
  }

  predicate HardFive(bindings: seq<Binding>)
  {
    forall k | 0 <= k < |bindings| :: bindings[k].hardFive
  }

  /** Enough eligible traffic, too little of it successful, all failures hard. */
  predicate RateHard(t: Totals, rules: Rules)
  {
    && t.eligible >= rules.minSamples
    && (if t.eligible > 0 then t.success as real * 100.0 / t.eligible as real else 0.0) < rules.successBelow
    && t.eligible - t.success > 0 && t.hardErrors as int >= t.eligible - t.success
  }

  /** The same without a quotient: some eligible requests failed, all of them by
      hard errors, and the successful ones are below the percentage. */
  predicate Poor(eligible: nat, success: nat, hardErrors: nat, rules: Rules)
  {
    && eligible >= rules.minSamples && success < eligible <= success + hardErrors
    && success as real * 100.0 < rules.successBelow * eligible as real
  }

  lemma RateHardMeans(t: Totals, rules: Rules)
    ensures RateHard(t, rules) <==> Poor(t.eligible, t.success, t.hardErrors, rules)
  {
    if t.eligible > 0 {
      var share, whole := t.success as real * 100.0, t.eligible as real;
      assert share / whole < rules.successBelow <==> share < rules.successBelow * whole;
    }
  }

  /** assessPool, given the verdict of the consecutive-traffic search. A pool is
      out exactly when no binding is both schedulable and active: monitor streaks
      and traffic only choose the reason given for it. */
  method AssessPool(bindings: seq<Binding>, rules: Rules, consecutiveHard: bool) returns (r: Assessment)
    ensures r.outage <==> bindings != [] && Stopped(bindings)
    ensures r.reason.GroupEmpty? <==> bindings == []
    ensures r.reason.AllDisabled? <==> bindings != [] && Disabled(bindings)
    ensures r.reason.AllFailed? <==>
              && r.outage && !Disabled(bindings) && HardThree(bindings)
              && (consecutiveHard || Poor(r.eligible, r.success, r.hardErrors, rules))
    ensures r.reason.EvidenceInsufficient? <==> bindings != [] && !r.outage
    ensures r.fallback <==>
              r.outage && !Disabled(bindings) && HardThree(bindings) && HardFive(bindings) && r.samples == 0
    ensures Totals(r.samples, r.eligible, r.success, r.hardErrors) == Sum(bindings)
  {
    hide RateHard, Poor;
    if bindings == [] {
      return Assessment(false, GroupEmpty, 0, 0, 0, 0, false);
    }
    var hardThree, hardFive, allStopped, allDisabled := true, true, true, true;
    var samples: nat, eligible: nat, success: nat, hardErrors: nat := 0, 0, 0, 0;
    for n := 0 to |bindings|
      invariant allStopped == Stopped(bindings[..n]) && allDisabled == Disabled(bindings[..n])
      invariant hardThree == HardThree(bindings[..n]) && hardFive == HardFive(bindings[..n])
      invariant Totals(samples, eligible, success, hardErrors) == Sum(bindings[..n])
    {
      var b := bindings[n];
      assert bindings[..n + 1][..n] == bindings[..n];
      assert bindings[..n + 1] == bindings[..n] + [b];
      if b.schedulable && b.active { allStopped := false; }
      if b.active { allDisabled := false; }
      hardThree := hardThree && b.hardThree;
      hardFive := hardFive && b.hardFive;
      samples, eligible, success, hardErrors := samples + b.samples, eligible + b.eligible, success + b.success, hardErrors + b.hardErrors;
    }
    assert bindings[..|bindings|] == bindings;
    RateHardMeans(Totals(samples, eligible, success, hardErrors), rules);
    if allDisabled {
      return Assessment(true, AllDisabled, samples, eligible, success, hardErrors, false);
    }
    if !hardThree {
      return Assessment(allStopped, if allStopped then NoSchedulable else EvidenceInsufficient, samples, eligible, success, hardErrors, false);
    }
    var trafficHard := allStopped && (RateHard(Totals(samples, eligible, success, hardErrors), rules) || consecutiveHard);
    var outage := trafficHard || allStopped;
    r := Assessment(outage, if trafficHard then AllFailed else if allStopped then NoSchedulable else EvidenceInsufficient,
                    samples, eligible, success, hardErrors, samples == 0 && hardFive && allStopped);
  }
}

/** What single steps of automatic failover do: when a cycle switches, what an
    attempt that does not succeed leaves behind, what a round of evidence and a
    recovery make of the key. */
module TierFailoverSteps {
  import opened Options
  import opened Tiers
  import opened ValidationEvidence
  import opened TierFailover

  /** The cycle reaches the upstream call: the key is not frozen and not settling,
      it has failed or its pool is out, the cache shows its real tier, no row of it
      is pending, and an enabled tier lies above. */
  predicate Attempts(p: Policy, k: Key, outage: bool)
  {
    && !k.record.frozen && k.record.status !in {Transitioning, AwaitingEvidence, Probing, Status.Uncertain, Exhausted}
    && (k.record.status == ConfirmedFailed || outage)
    && k.live == k.cached && k.pending.None?
    && ((k.cached == Main && (Backup in p.enabled || Emergency in p.enabled)) || (k.cached == Backup && Emergency in p.enabled))
  }

  /** Where it goes: the backup tier from main when it is enabled, else the emergency tier. */
  function Upward(p: Policy, k: Key): Tier
  {
    if k.cached == Main && Backup in p.enabled then Backup else Emergency
  }

  function Noticed(k: Key): seq<Event>
  {
    if k.record.status == ConfirmedFailed then k.log else k.log + [OutageSeen]
  }

  /** A ready cycle applies a switch exactly when it attempts one that succeeds;
      the switch is the one step up, and the key then awaits fresh evidence. */
  lemma SwitchesExactly(p: Policy, k: Key, outage: bool, attempt: Attempt)
    ensures var t := Step(p, k, Cycle(true, outage, attempt));
            var switched := Attempts(p, k, outage) && attempt.Succeeded?;
            && (switched <==> |t.log| > |k.log| && t.log[|t.log| - 1].Applied?)
            && (switched ==>
                  && t.log == Noticed(k) + [Applied(k.live, Upward(p, k))] && t.live == Upward(p, k) && t.pending.None?
                  && t.record.status == AwaitingEvidence && t.record.verified && t.record.observed == Upward(p, k)
                  && t.record.successes == 0 && t.record.failures == 0 && !t.record.frozen)
  {
    var r := k.record;
    if !r.frozen && !Settling(r.status) && (r.status.ConfirmedFailed? || outage) {
      var failed := if r.status.ConfirmedFailed? then k else k.(record := r.(status := ConfirmedFailed), log := k.log + [OutageSeen]);
      assert failed.log == Noticed(k);
      if Upward(p, k) in p.enabled { SwitchApplies(failed, Upward(p, k), attempt); }
    }
    hide Switch;
  }

  lemma SwitchApplies(k: Key, target: Tier, attempt: Attempt)
    ensures var t := Switch(k, target, attempt);
            if k.live == k.cached && k.pending.None? && attempt.Succeeded?
            then
              && t.log == k.log + [Applied(k.live, target)] && t.live == target && t.pending.None?
              && t.record.status == AwaitingEvidence && t.record.verified && t.record.observed == target
              && t.record.successes == 0 && t.record.failures == 0 && !t.record.frozen
            else t.log == k.log
  {
  }

  /** An attempt whose outcome is not known for sure leaves its row pending, and
      the key in transition or uncertain; one that surely failed leaves the key
      failed, and its row only if that could not be closed. None of them is
      counted as a switch. */
  lemma AttemptLeaves(p: Policy, k: Key, outage: bool, attempt: Attempt)
    requires Attempts(p, k, outage) && !attempt.Succeeded?
    ensures var t := Step(p, k, Cycle(true, outage, attempt));
            var called := attempt.Stopped? || attempt.UnknownResult? || attempt.DefiniteError? || attempt.Mismatch?;
            && t.log == Noticed(k)
            && (t.pending.Some? <==> attempt.StoppedEarly? || attempt.Stopped? || attempt.UnknownResult? || attempt == DefiniteError(false))
            && (t.pending.Some? ==> t.pending.value.origin == k.live && t.pending.value.target == Upward(p, k) && t.pending.value.called == called)
            && t.live == (if attempt in {Stopped(true), UnknownResult(true), Mismatch(true)} then Upward(p, k) else k.live)
            && t.record.status == (if attempt.Stopped? then Transitioning
                                   else if attempt.UnknownResult? || attempt.Mismatch? || attempt.Misconfigured? then Status.Uncertain
                                   else ConfirmedFailed)
            && (called ==> t.record.failures == 0 && t.record.successes == 0 && !t.record.verified)
            && (t.record.frozen <==> attempt.OverLimit?)
  {
  }

  /** An attempt refused before the request reaches the upstream leaves the key
      failed and otherwise as it was: frozen when the limit of switches is reached,
      uncertain when the policy's next group is not configured. */
  lemma RefusedBeforeTheCall(p: Policy, k: Key, outage: bool, attempt: Attempt)
    requires !k.record.frozen && k.record.status !in {Transitioning, AwaitingEvidence, Probing, Status.Uncertain, Exhausted}
    requires (k.record.status == ConfirmedFailed || outage) && attempt in {CoolingDown, OverLimit, Misconfigured, Refused, DryRun}
    requires (k.cached == Main && (Backup in p.enabled || Emergency in p.enabled)) || (k.cached == Backup && Emergency in p.enabled)
    ensures Step(p, k, Cycle(true, outage, attempt))
         == k.(record := k.record.(status := if attempt.Misconfigured? then Status.Uncertain else ConfirmedFailed, frozen := attempt.OverLimit?),
               log := Noticed(k))
  {
  }

  /** A ready cycle on a failed key or a pool that is out gives up, exhausted and
      frozen, exactly when no enabled tier lies above the cached one. */
  lemma ExhaustedExactly(p: Policy, k: Key, outage: bool, attempt: Attempt)
    requires !k.record.frozen && k.record.status !in {Transitioning, AwaitingEvidence, Probing, Status.Uncertain, Exhausted}
    ensures var t := Step(p, k, Cycle(true, outage, attempt));
            && (t.record.status == Exhausted <==>
                  (k.record.status == ConfirmedFailed || outage)
                  && !(k.cached == Main && (Backup in p.enabled || Emergency in p.enabled)) && !(k.cached == Backup && Emergency in p.enabled))
            && (t.record.status == Exhausted ==> t.record.frozen && t.live == k.live && t.log == Noticed(k))
            && (k.record.status != ConfirmedFailed && !outage ==> t == k)
  {
  }

  /** A frozen or settling key, and any key in a cycle that is not ready, is left alone. */
  lemma LeftAlone(p: Policy, k: Key, ready: bool, outage: bool, attempt: Attempt)
    requires !ready || k.record.frozen || k.record.status in {Transitioning, AwaitingEvidence, Probing, Status.Uncertain, Exhausted}
    ensures Step(p, k, Cycle(ready, outage, attempt)) == k
  {
  }

  /** When the cache does not show the real tier a cycle switches nothing: it takes
      over the tier, unfrozen, as uncertain. */
  lemma SurprisedCycle(p: Policy, k: Key, outage: bool, attempt: Attempt)
    requires Attempts(p, k.(cached := k.live), outage) && NextEnabledTier(p.enabled, k.cached).Some? && k.live != k.cached
    requires attempt !in {CoolingDown, OverLimit, Misconfigured, Refused, DryRun}
    ensures var t := Step(p, k, Cycle(true, outage, attempt));
            && t.live == k.live && t.pending == k.pending && t.log == Noticed(k)
            && t.record.status == Status.Uncertain && t.record.observed == k.live && !t.record.frozen
  {
  }

  function Positions(verdicts: seq<Verdict>, verdict: Verdict): set<int>
  {
    set n | 0 <= n < |verdicts| && verdicts[n] == verdict
  }

  function Number(verdicts: seq<Verdict>, verdict: Verdict): nat
  {
    |Positions(verdicts, verdict)|
  }

  /** A round counts its verdicts, and ends failed if the last of them is a failure
      at the threshold, else healthy if one is a success, else as before or, past
      the deadline, uncertain. Only a verified key that still gathers evidence is
      touched. */
  lemma RoundCounts(p: Policy, k: Key, verdicts: seq<Verdict>, timedOut: bool)
    ensures var t := Step(p, k, Evidence(verdicts, timedOut));
            if k.record.verified && k.record.status in {AwaitingEvidence, Probing, Status.Uncertain}
            then
              && t.record.successes == k.record.successes + Number(verdicts, Success)
              && t.record.failures == k.record.failures + Number(verdicts, Failure)
              && t.record.status == (if verdicts != [] && verdicts[|verdicts| - 1].Failure? && t.record.failures >= p.threshold then ConfirmedFailed
                                     else if Success in verdicts then ConfirmedHealthy
                                     else if timedOut then Status.Uncertain
                                     else k.record.status)
              && t == k.(record := k.record.(status := t.record.status, successes := t.record.successes, failures := t.record.failures), log := t.log)
            else t == k
  {
    var r := k.record;
    CountAllMeans(Tally(r.status, r.successes, r.failures), verdicts, p.threshold);
    hide CountAll, Number, FailureEvents;
  }

  lemma {:induction false} CountAllMeans(t: Tally, verdicts: seq<Verdict>, threshold: int)
    ensures var u := CountAll(t, verdicts, threshold);
            && u.successes == t.successes + Number(verdicts, Success) && u.failures == t.failures + Number(verdicts, Failure)
            && u.status == (if verdicts != [] && verdicts[|verdicts| - 1].Failure? && u.failures >= threshold then ConfirmedFailed
                            else if Success in verdicts then ConfirmedHealthy
                            else t.status)
    decreases |verdicts|
  {
    if verdicts != [] {
      var init, last := verdicts[..|verdicts| - 1], verdicts[|verdicts| - 1];
      CountAllMeans(t, init, threshold);
      CountAllLast(t, verdicts, threshold);
      NumberLast(verdicts, Success);
      NumberLast(verdicts, Failure);
      assert Success in verdicts <==> Success in init || last == Success by { assert verdicts == init + [last]; }
      hide CountAll, Number;
    } else {
      assert Positions(verdicts, Success) == {} && Positions(verdicts, Failure) == {};
    }
  }

  lemma NumberLast(verdicts: seq<Verdict>, verdict: Verdict)
    requires verdicts != []
    ensures Number(verdicts, verdict) == Number(verdicts[..|verdicts| - 1], verdict) + if verdicts[|verdicts| - 1] == verdict then 1 else 0
  {
    var m, init := |verdicts| - 1, verdicts[..|verdicts| - 1];
    assert forall n | 0 <= n < m :: init[n] == verdicts[n];
    assert Positions(verdicts, verdict) == if verdicts[m] == verdict then Positions(init, verdict) + {m} else Positions(init, verdict);
  }

  lemma {:induction false} CountAllLast(t: Tally, verdicts: seq<Verdict>, threshold: int)
    requires verdicts != []
    ensures CountAll(t, verdicts, threshold) == Count(CountAll(t, verdicts[..|verdicts| - 1], threshold), verdicts[|verdicts| - 1], threshold)
    decreases |verdicts|
  {
    hide Count;
    if |verdicts| > 1 {
      assert verdicts[1..][..|verdicts| - 2] == verdicts[..|verdicts| - 1][1..];
      CountAllLast(Count(t, verdicts[0], threshold), verdicts[1..], threshold);
    }
  }

  /** A recovery resolves the pending row by the tier it reads: it applies the
      switch exactly when the key is in the target tier, and then evidence is
      awaited if the row is the one the state announced. */
  lemma RecoveryExactly(p: Policy, k: Key)
    requires k.pending.Some?
    ensures var t, row := Step(p, k, Recover), k.pending.value;
            && t.pending.None? && t.live == k.live
            && (if k.live == row.target
                then
                  && t.log == k.log + [Applied(row.origin, row.target)] && t.record.observed == row.target && !t.record.frozen
                  && t.record.status == (if k.record.status == Transitioning && k.record.transition == row.id then AwaitingEvidence else Status.Uncertain)
                  && (k.record.status == Transitioning && k.record.transition == row.id ==> t.record.verified)
                else t.log == k.log && t.record == k.record)
  {
  }

  /** A pass resolves only a row it listed, by the tier it read; it saves its own
      copy, unfrozen, and as uncertain when that copy is on another tier. */
  lemma PassExactly(p: Policy, k: Key)
    requires k.pass.Some? && k.pass.value.rates.Some? && k.pass.value.listed.Some?
    ensures var t, q := Step(p, k, PassResolve), k.pass.value;
            && (k.pending.Some? && k.pending.value.id in q.listed.value ==> t.pending.None?)
            && (k.pending.None? || k.pending.value.id !in q.listed.value ==> t == k)
            && (t.log != k.log <==> k.pending.Some? && k.pending.value.id in q.listed.value && q.rates.value == k.pending.value.target)
            && (t.log != k.log ==> t.log == k.log + [Applied(k.pending.value.origin, k.pending.value.target)])
    ensures Step(p, k, PassRead) == Step(p, k, PassRates) == Step(p, k, PassList) == k
    ensures var t, q := Step(p, k, PassSave), k.pass.value;
            && t.pass.None? && t.log == k.log && t.pending == k.pending && !t.record.frozen && t.record.observed == q.rates.value
            && t.record.status == (if q.base.observed == q.rates.value then q.base.status else Status.Uncertain)
            && t.record.failures == q.base.failures && t.record.verified == q.base.verified
  {
  }
}

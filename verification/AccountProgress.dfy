/** The other half of safety: when nothing fails, a command that may proceed is
    carried out, and recovery finishes what a crash interrupted. */
module AccountProgress {
  import opened Options
  import opened Intents
  import opened WinningIntent
  import opened CandidateQueue
  import opened AccountJournal

  const OK := Reply(Good, true)

  /** The account's section runs on while the environment answers well. */
  ghost function Forward(s: State, account: int, n: nat): State
    decreases n
  {
    if n == 0 then s else Forward(Step(s, Advance(account, OK)), account, n - 1)
  }

  /** What matters to one section: itself, its row, and its account. */
  predicate Shows(s: State, account: int, sec: Section, stored: Row, a: AccountState)
  {
    && account in s.sections && s.sections[account] == sec
    && sec.key in s.journal && s.journal[sec.key] == stored
    && account in s.upstream && s.upstream[account] == a
  }

  /** One good step of a working section, in those terms. */
  lemma StepShows(s: State, account: int, sec: Section, stored: Row, a: AccountState)
    requires Shows(s, account, sec, stored, a) && sec.phase.Working?
    ensures var m := Work(account, sec, s.now, OK, Some(a), stored);
            Shows(Step(s, Advance(account, OK)), account, sec.(phase := m.phase),
                  if m.stored.Some? then m.stored.value else stored,
                  if m.event.Some? && m.event.value.Wrote? then Effect(a, sec.phase.winner.desired) else a)
    ensures Step(s, Advance(account, OK)).now == s.now
  {
    hide Effect;
    var m := Work(account, sec, s.now, OK, Some(a), stored);
    assert m.event.Some? && m.event.value.Wrote? ==> m.event.value.account == account && m.event.value.intent == sec.phase.winner by {
      WroteShape(account, sec, s.now, a, stored);
    }
    hide Work;
  }

  lemma WroteShape(account: int, sec: Section, now: int, a: AccountState, stored: Row)
    requires sec.phase.Working?
    ensures var m := Work(account, sec, now, OK, Some(a), stored);
            m.event.Some? && m.event.value.Wrote? ==> m.event.value.account == account && m.event.value.intent == sec.phase.winner
  {
    hide Matches, Expired, StoreWinning;
  }

  lemma ForwardStep(s: State, account: int, n: nat)
    requires n > 0
    ensures Forward(s, account, n) == Forward(Step(s, Advance(account, OK)), account, n - 1)
  {
  }

  /** An account intent's effect is what its verification looks for. */
  lemma EffectMatches(i: Intent, a: AccountState)
    requires AccountIntent(i)
    ensures Matches(Effect(a, i.desired), i.desired)
  {
    DesiredFitsOperation(i);
  }

  /** Matching and being written, in terms of the account's two fields. */
  lemma MatchesMeans(i: Intent, a: AccountState)
    requires AccountIntent(i)
    ensures i.desired.Schedulable? || i.desired.LoadFactor?
    ensures i.desired.Schedulable? ==>
              (Matches(a, i.desired) <==> a.schedulable == i.desired.value) && Effect(a, i.desired) == AccountState(i.desired.value, a.loadFactor)
    ensures i.desired.LoadFactor? ==>
              (Matches(a, i.desired) <==> a.loadFactor == i.desired.factor) && Effect(a, i.desired) == AccountState(a.schedulable, i.desired.factor)
  {
    DesiredFitsOperation(i);
  }

  /** From the journaled decision to proceed up to the choice between a write and
      nothing to do. */
  lemma UpToTheChoice(s: State, account: int, sec: Section, stored: Row, a: AccountState, row: Row, winner: Intent)
    requires Shows(s, account, sec, stored, a) && sec.phase == Working(Save(Some(Reading), None), row, winner)
    ensures var chosen := row.(before := Some(a), winning := StoreWinning(winner));
            Shows(Forward(s, account, 6), account, sec.(phase := Working(Chosen(a), chosen, winner)), chosen, a)
  {
    hide Step, StoreWinning, Matches;
    var s1 := Step(s, Advance(account, OK));
    StepShows(s, account, sec, stored, a);
    var s2 := Step(s1, Advance(account, OK));
    StepShows(s1, account, sec.(phase := Working(Reading, row, winner)), row, a);
    var s3 := Step(s2, Advance(account, OK));
    StepShows(s2, account, sec.(phase := Working(Controlling(a), row, winner)), row, a);
    var read := row.(before := Some(a));
    var s4 := Step(s3, Advance(account, OK));
    StepShows(s3, account, sec.(phase := Working(Save(Some(Guarding(a)), None), read, winner)), row, a);
    var s5 := Step(s4, Advance(account, OK));
    StepShows(s4, account, sec.(phase := Working(Guarding(a), read, winner)), read, a);
    var chosen := read.(winning := StoreWinning(winner));
    StepShows(s5, account, sec.(phase := Working(Save(Some(Chosen(a)), None), chosen, winner)), read, a);
    ForwardSix(s, account);
  }

  lemma ForwardAdds(s: State, account: int, m: nat, n: nat)
    ensures Forward(Forward(s, account, m), account, n) == Forward(s, account, m + n)
    decreases m
  {
    hide Step;
    if m > 0 { ForwardAdds(Step(s, Advance(account, OK)), account, m - 1, n); }
  }

  lemma ForwardOne(s: State, account: int)
    ensures Forward(s, account, 1) == Step(s, Advance(account, OK))
  {
    hide Step;
  }

  lemma ForwardTwo(s: State, account: int)
    ensures Forward(s, account, 2) == Step(Step(s, Advance(account, OK)), Advance(account, OK))
  {
    hide Step;
    ForwardStep(s, account, 2);
    ForwardStep(Step(s, Advance(account, OK)), account, 1);
  }

  lemma ForwardSix(s: State, account: int)
    ensures var a := Advance(account, OK);
            Forward(s, account, 6) == Step(Step(Step(Step(Step(Step(s, a), a), a), a), a), a)
  {
    hide Step, Forward;
    var a := Advance(account, OK);
    var s2, s4 := Step(Step(s, a), a), Step(Step(Step(Step(s, a), a), a), a);
    ForwardTwo(s, account);
    ForwardTwo(s2, account);
    ForwardTwo(s4, account);
    ForwardAdds(s, account, 2, 4);
    ForwardAdds(s2, account, 2, 2);
  }

  /** Without failures, a submission told to proceed on an account that differs
      from what the winner asks for writes once, verifies, and ends applied: the
      account then has the value asked for, its other field is as before, and the
      row records both states. */
  lemma SubmitIsCarriedOut(s: State, account: int, sec: Section, stored: Row, a: AccountState, row: Row, winner: Intent)
    requires Shows(s, account, sec, stored, a) && sec.phase == Working(Save(Some(Reading), None), row, winner)
    requires AccountIntent(winner)
    requires winner.desired.Schedulable? ==> a.schedulable != winner.desired.value
    requires winner.desired.LoadFactor? ==> a.loadFactor != winner.desired.factor
    ensures var t := Forward(s, account, 12);
            var b := if winner.desired.Schedulable? then AccountState(winner.desired.value, a.loadFactor)
                     else AccountState(a.schedulable, winner.desired.factor);
            Shows(t, account, sec.(phase := Done(Some(Applied))),
                  row.(before := Some(a), winning := StoreWinning(winner), status := Applied,
                       attempts := row.attempts + 1, after := Some(b)), b)
  {
    MatchesMeans(winner, a);
    UpToTheChoice(s, account, sec, stored, a, row, winner);
    EffectMatches(winner, a);
    hide Step, StoreWinning, Matches, Effect, AccountIntent, Forward;
    var chosen := row.(before := Some(a), winning := StoreWinning(winner));
    var b := Effect(a, winner.desired);
    ChoiceToWrite(Forward(s, account, 6), account, sec, a, chosen, winner);
    var raised := Raised(chosen);
    WriteToVerdict(Forward(Forward(s, account, 6), account, 2), account, sec, a, raised, winner);
    ForwardAdds(s, account, 6, 2);
    ForwardAdds(s, account, 8, 4);
  }

  lemma ChoiceToWrite(u: State, account: int, sec: Section, a: AccountState, chosen: Row, winner: Intent)
    requires Shows(u, account, sec.(phase := Working(Chosen(a), chosen, winner)), chosen, a) && !Matches(a, winner.desired)
    ensures Shows(Forward(u, account, 2), account, sec.(phase := Working(Writing(a), Raised(chosen), winner)), Raised(chosen), a)
  {
    hide Step, Matches, Effect, Forward;
    var u1 := Step(u, Advance(account, OK));
    StepShows(u, account, sec.(phase := Working(Chosen(a), chosen, winner)), chosen, a);
    StepShows(u1, account, sec.(phase := Working(Save(Some(Writing(a)), None), Raised(chosen), winner)), chosen, a);
    ForwardTwo(u, account);
  }

  lemma WriteToVerdict(u: State, account: int, sec: Section, a: AccountState, raised: Row, winner: Intent)
    requires Shows(u, account, sec.(phase := Working(Writing(a), raised, winner)), raised, a)
    requires Matches(Effect(a, winner.desired), winner.desired)
    ensures var b := Effect(a, winner.desired);
            Shows(Forward(u, account, 4), account, sec.(phase := Done(Some(Applied))), raised.(after := Some(b), status := Applied), b)
  {
    hide Step, Matches, Effect, Forward;
    var b := Effect(a, winner.desired);
    var verifying := raised.(status := Verifying);
    var u1 := Step(u, Advance(account, OK));
    StepShows(u, account, sec.(phase := Working(Writing(a), raised, winner)), raised, a);
    var u2 := Step(u1, Advance(account, OK));
    StepShows(u1, account, sec.(phase := Working(Save(Some(VerifyingRead(true)), Some(Verifying)), verifying, winner)), raised, b);
    assert Shows(u2, account, sec.(phase := Working(VerifyingRead(true), verifying, winner)), verifying, b);
    ReadToVerdict(u2, account, sec, b, verifying, winner, true);
    ForwardTwo(u, account);
    ForwardAdds(u, account, 2, 2);
  }

  lemma ReadToVerdict(u: State, account: int, sec: Section, b: AccountState, row: Row, winner: Intent, repair: bool)
    requires Shows(u, account, sec.(phase := Working(VerifyingRead(repair), row, winner)), row, b) && Matches(b, winner.desired)
    ensures Shows(Forward(u, account, 2), account, sec.(phase := Done(Some(Applied))), row.(after := Some(b), status := Applied), b)
  {
    hide Step, Matches, Effect, Forward;
    var u1 := Step(u, Advance(account, OK));
    StepShows(u, account, sec.(phase := Working(VerifyingRead(repair), row, winner)), row, b);
    StepShows(u1, account, sec.(phase := Working(Commit(repair), row.(after := Some(b), status := Applied), winner)), row, b);
    ForwardTwo(u, account);
  }

  /** If the account already has the value asked for, the command ends as a no-op:
      nothing is written and no attempt is counted. */
  lemma SubmitIsNoop(s: State, account: int, sec: Section, stored: Row, a: AccountState, row: Row, winner: Intent)
    requires Shows(s, account, sec, stored, a) && sec.phase == Working(Save(Some(Reading), None), row, winner)
    requires AccountIntent(winner)
    requires winner.desired.Schedulable? ==> a.schedulable == winner.desired.value
    requires winner.desired.LoadFactor? ==> a.loadFactor == winner.desired.factor
    ensures Shows(Forward(s, account, 8), account, sec.(phase := Done(Some(AppliedNoop))),
                  row.(before := Some(a), winning := StoreWinning(winner), status := AppliedNoop, after := Some(a)), a)
  {
    hide *;
    MatchesMeans(winner, a);
    UpToTheChoice(s, account, sec, stored, a, row, winner);
    ChoiceToNoop(Forward(s, account, 6), account, sec, a, row.(before := Some(a), winning := StoreWinning(winner)), winner);
    ForwardAdds(s, account, 6, 2);
  }

  lemma ChoiceToNoop(u: State, account: int, sec: Section, a: AccountState, chosen: Row, winner: Intent)
    requires Shows(u, account, sec.(phase := Working(Chosen(a), chosen, winner)), chosen, a) && Matches(a, winner.desired)
    ensures Shows(Forward(u, account, 2), account, sec.(phase := Done(Some(AppliedNoop))), chosen.(status := AppliedNoop, after := Some(a)), a)
  {
    hide Step, Matches, Effect, Forward;
    var u1 := Step(u, Advance(account, OK));
    StepShows(u, account, sec.(phase := Working(Chosen(a), chosen, winner)), chosen, a);
    StepShows(u1, account, sec.(phase := Working(Commit(true), chosen.(after := Some(a), status := AppliedNoop), winner)), chosen, a);
    ForwardTwo(u, account);
  }

  /** Recovery of an executing row whose write did not reach the account: the
      account is as before, so it writes once more, verifies and applies. */
  lemma RecoveryRetries(s: State, account: int, sec: Section, row: Row, a: AccountState, winner: Intent)
    requires Shows(s, account, sec, row, a) && sec.phase == Working(RecoverRead, row, winner)
    requires AccountIntent(winner) && (winner.expiresAt.Some? ==> s.now < winner.expiresAt.value)
    requires winner.desired.Schedulable? ==> a.schedulable != winner.desired.value
    requires winner.desired.LoadFactor? ==> a.loadFactor != winner.desired.factor
    requires row.status.Executing? && row.before == Some(a) && row.attempts == 1
    ensures var t := Forward(s, account, 8);
            var b := if winner.desired.Schedulable? then AccountState(winner.desired.value, a.loadFactor)
                     else AccountState(a.schedulable, winner.desired.factor);
            Shows(t, account, sec.(phase := Done(Some(Applied))), row.(status := Applied, attempts := 2, after := Some(b)), b)
  {
    MatchesMeans(winner, a);
    EffectMatches(winner, a);
    hide Step, StoreWinning, Matches, Effect, AccountIntent, Expired, Forward;
    RecoveryToGuard(s, account, sec, row, a, winner);
    GuardToVerdict(Forward(s, account, 3), account, sec, row, a, winner);
    ForwardAdds(s, account, 3, 5);
  }

  lemma GuardToVerdict(s: State, account: int, sec: Section, row: Row, a: AccountState, winner: Intent)
    requires Shows(s, account, sec.(phase := Working(RecoverGuardAgain(a), row, winner)), row, a)
    requires Matches(Effect(a, winner.desired), winner.desired)
    ensures var b := Effect(a, winner.desired);
            Shows(Forward(s, account, 5), account, sec.(phase := Done(Some(Applied))), Raised(row).(status := Applied, after := Some(b)), b)
  {
    hide Step, Matches, Effect, Forward;
    var s1 := Step(s, Advance(account, OK));
    StepShows(s, account, sec.(phase := Working(RecoverGuardAgain(a), row, winner)), row, a);
    var raised := Raised(row);
    var s2 := Step(s1, Advance(account, OK));
    StepShows(s1, account, sec.(phase := Working(Save(Some(RecoverWrite), None), raised, winner)), row, a);
    var s3 := Step(s2, Advance(account, OK));
    StepShows(s2, account, sec.(phase := Working(RecoverWrite, raised, winner)), raised, a);
    ReadToVerdict(s3, account, sec, Effect(a, winner.desired), raised, winner, false);
    ForwardStep(s, account, 5);
    ForwardStep(s1, account, 4);
    ForwardStep(s2, account, 3);
  }

  lemma RecoveryToGuard(s: State, account: int, sec: Section, row: Row, a: AccountState, winner: Intent)
    requires Shows(s, account, sec, row, a) && sec.phase == Working(RecoverRead, row, winner)
    requires !Matches(a, winner.desired) && !Expired(winner, s.now)
    requires row.status.Executing? && row.before == Some(a) && row.attempts == 1
    ensures Shows(Forward(s, account, 3), account, sec.(phase := Working(RecoverGuardAgain(a), row, winner)), row, a)
  {
    hide Step, Matches, Effect, Expired, Forward;
    ReadToDecide(s, account, sec, row, a, winner);
    var s2 := Forward(s, account, 2);
    StepShows(s2, account, sec.(phase := Working(RecoverDecide(a), row, winner)), row, a);
    ForwardAdds(s, account, 2, 1);
    ForwardOne(s2, account);
  }

  /** Recovery of a row whose write did reach the account applies it without
      another write. */
  lemma RecoveryConfirms(s: State, account: int, sec: Section, row: Row, a: AccountState, winner: Intent)
    requires Shows(s, account, sec, row, a) && sec.phase == Working(RecoverRead, row, winner)
    requires AccountIntent(winner) && !row.status.Prepared? && !row.status.Validating?
    requires winner.desired.Schedulable? ==> a.schedulable == winner.desired.value
    requires winner.desired.LoadFactor? ==> a.loadFactor == winner.desired.factor
    ensures Shows(Forward(s, account, 4), account, sec.(phase := Done(Some(Applied))), row.(status := Applied, after := Some(a)), a)
  {
    hide *;
    MatchesMeans(winner, a);
    assert !Early(row.status) by { LateStatus(row.status); }
    ReadToDecide(s, account, sec, row, a, winner);
    DecideToVerdict(Forward(s, account, 2), account, sec, row, a, winner);
    ForwardAdds(s, account, 2, 2);
  }

  lemma LateStatus(status: Status)
    ensures Early(status) <==> status.Prepared? || status.Validating?
  {
  }

  lemma ReadToDecide(s: State, account: int, sec: Section, row: Row, a: AccountState, winner: Intent)
    requires Shows(s, account, sec, row, a) && sec.phase == Working(RecoverRead, row, winner) && !Early(row.status)
    ensures Shows(Forward(s, account, 2), account, sec.(phase := Working(RecoverDecide(a), row, winner)), row, a)
    ensures Forward(s, account, 2).now == s.now
  {
    hide Step, StoreWinning, Matches, Expired, Forward;
    StepShows(s, account, sec, row, a);
    var s1 := Step(s, Advance(account, OK));
    StepShows(s1, account, sec.(phase := Working(RecoverControl(a), row, winner)), row, a);
    ForwardTwo(s, account);
  }

  lemma DecideToVerdict(s: State, account: int, sec: Section, row: Row, a: AccountState, winner: Intent)
    requires Shows(s, account, sec.(phase := Working(RecoverDecide(a), row, winner)), row, a) && Matches(a, winner.desired)
    ensures Shows(Forward(s, account, 2), account, sec.(phase := Done(Some(Applied))), row.(status := Applied, after := Some(a)), a)
  {
    hide Step, StoreWinning, Matches, Expired, Forward;
    StepShows(s, account, sec.(phase := Working(RecoverDecide(a), row, winner)), row, a);
    var s1 := Step(s, Advance(account, OK));
    StepShows(s1, account, sec.(phase := Working(Commit(false), row.(after := Some(a), status := Applied), winner)), row, a);
    ForwardTwo(s, account);
  }
}

/** How a section of the account protocol ends when something fails. */
module AccountEndings {
  import opened Options
  import opened Intents
  import opened WinningIntent
  import opened CandidateQueue
  import opened AccountJournal
  import opened AccountProgress
  import Arbiter
  import Text

  /** One step of a working section with any answer. */
  lemma AnyStepShows(s: State, account: int, sec: Section, stored: Row, a: AccountState, o: Reply)
    requires Shows(s, account, sec, stored, a) && sec.phase.Working?
    ensures var m := Work(account, sec, s.now, o, Some(a), stored);
            Shows(Step(s, Advance(account, o)), account, sec.(phase := m.phase),
                  if m.stored.Some? then m.stored.value else stored,
                  if o.effect && m.event.Some? && m.event.value.Wrote? then Effect(a, sec.phase.winner.desired) else a)
  {
    hide Effect;
    var m := Work(account, sec, s.now, o, Some(a), stored);
    assert m.event.Some? && m.event.value.Wrote? ==> m.event.value.account == account && m.event.value.intent == sec.phase.winner by {
      WroteByWinner(account, sec, s.now, a, stored, o);
    }
    hide Work;
  }

  lemma WroteByWinner(account: int, sec: Section, now: int, a: AccountState, stored: Row, o: Reply)
    requires sec.phase.Working?
    ensures var m := Work(account, sec, now, o, Some(a), stored);
            m.event.Some? && m.event.value.Wrote? ==> m.event.value.account == account && m.event.value.intent == sec.phase.winner
  {
    hide Matches, Expired, StoreWinning;
  }

  /** The step with an answer, then good steps. */
  ghost function Then(s: State, account: int, o: Reply, n: nat): State
  {
    Forward(Step(s, Advance(account, o)), account, n)
  }

  lemma CommitShows(u: State, account: int, sec: Section, stored: Row, a: AccountState, repair: bool, row: Row, winner: Intent)
    requires Shows(u, account, sec.(phase := Working(Commit(repair), row, winner)), stored, a)
    ensures Shows(Forward(u, account, 1), account, sec.(phase := Done(Some(row.status))), row, a)
  {
    hide Step, Forward;
    AnyStepShows(u, account, sec.(phase := Working(Commit(repair), row, winner)), stored, a, OK);
    ForwardOne(u, account);
  }

  lemma SaveShows(u: State, account: int, sec: Section, stored: Row, a: AccountState, failed: Option<Status>, row: Row, winner: Intent)
    requires Shows(u, account, sec.(phase := Working(Save(None, failed), row, winner)), stored, a)
    ensures Shows(Forward(u, account, 1), account, sec.(phase := Done(Some(row.status))), row, a)
  {
    hide Step, Forward;
    AnyStepShows(u, account, sec.(phase := Working(Save(None, failed), row, winner)), stored, a, OK);
    ForwardOne(u, account);
  }

  /** A refusal ends the command or recovery as blocked, and a failing read, check
      or guard, or a write that certainly failed, ends a command as failed. The row
      records that and the account is as before. */
  lemma FailureEnds(s: State, account: int, sec: Section, stored: Row, a: AccountState, o: Reply)
    requires Shows(s, account, sec, stored, a) && sec.phase.Working? && !o.answer.Good? && !o.effect
    requires var at := sec.phase.at;
             || at.Reading? || at.Controlling? || at.Guarding?
             || (at.Writing? && !o.answer.Ambiguous?)
             || ((at.RecoverGuard? || at.RecoverGuardAgain?) && o.answer.Block?)
    ensures var at := sec.phase.at;
            var status := if o.answer.Block? && (at.Guarding? || at.RecoverGuard? || at.RecoverGuardAgain?) then Blocked else Failed;
            Shows(Then(s, account, o, 1), account, sec.(phase := Done(Some(status))), sec.phase.row.(status := status), a)
  {
    hide Step, Effect, Forward, StoreWinning, Matches;
    AnyStepShows(s, account, sec, stored, a, o);
    var at := sec.phase.at;
    var status := if o.answer.Block? && (at.Guarding? || at.RecoverGuard? || at.RecoverGuardAgain?) then Blocked else Failed;
    CommitShows(Step(s, Advance(account, o)), account, sec, stored, a, false, sec.phase.row.(status := status), sec.phase.winner);
  }

  /** A command whose account is not in the list ends as blocked. */
  lemma MissingAccountBlocks(s: State, account: int, sec: Section)
    requires account in s.sections && s.sections[account] == sec && sec.key in s.journal && account !in s.upstream
    requires sec.phase.Working? && sec.phase.at.Reading?
    ensures var t := Step(Step(s, Advance(account, OK)), Advance(account, OK));
            && t.sections[account] == sec.(phase := Done(Some(Blocked))) && t.journal[sec.key] == sec.phase.row.(status := Blocked)
            && t.upstream == s.upstream
  {
    hide StoreWinning, Matches;
  }

  /** What a recovery or a verification cannot settle stays open as uncertain:
      reads that fail, a readback without the value asked for, a recovery's write
      that does not answer well, and a recovery that finds the account neither as
      asked for nor as before, or has no attempt left. */
  lemma UnsettledStaysOpen(s: State, account: int, sec: Section, stored: Row, a: AccountState, o: Reply)
    requires Shows(s, account, sec, stored, a) && sec.phase.Working? && !o.effect && AccountIntent(sec.phase.winner)
    requires var at, row, d := sec.phase.at, sec.phase.row, sec.phase.winner.desired;
             var differs := (d.Schedulable? ==> a.schedulable != d.value) && (d.LoadFactor? ==> a.loadFactor != d.factor);
             || ((at.ReadingBack? || at.VerifyingRead? || at.RecoverRead? || at.RecoverWrite?) && !o.answer.Good?)
             || (at.VerifyingRead? && differs)
             || (at.ReadingBack? && differs && (at.seen != a || row.attempts >= 2))
             || (at == RecoverDecide(a) && differs && (sec.phase.winner.expiresAt.Some? ==> s.now < sec.phase.winner.expiresAt.value)
                 && (if row.before.None? then row.status !in {Prepared, Validating} else row.before.value != a || row.attempts >= 2))
    ensures Shows(Then(s, account, o, 1), account, sec.(phase := Done(Some(Status.Uncertain))), sec.phase.row.(status := Status.Uncertain), a)
  {
    hide *;
    MatchesMeans(sec.phase.winner, a);
    WorkLeavesOpen(account, sec, s.now, stored, a, o);
    AnyStepShows(s, account, sec, stored, a, o);
    SaveShows(Step(s, Advance(account, o)), account, sec, stored, a, None, sec.phase.row.(status := Status.Uncertain), sec.phase.winner);
    ThenForward(s, account, o, 1);
  }

  lemma ThenForward(s: State, account: int, o: Reply, n: nat)
    ensures Then(s, account, o, n) == Forward(Step(s, Advance(account, o)), account, n)
  {
    hide Step, Forward;
  }

  lemma WorkLeavesOpen(account: int, sec: Section, now: int, stored: Row, a: AccountState, o: Reply)
    requires sec.phase.Working? && !o.effect
    requires var at, row, w := sec.phase.at, sec.phase.row, sec.phase.winner;
             || ((at.ReadingBack? || at.VerifyingRead? || at.RecoverRead? || at.RecoverWrite?) && !o.answer.Good?)
             || (at.VerifyingRead? && !Matches(a, w.desired))
             || (at.ReadingBack? && !Matches(a, w.desired) && (at.seen != a || row.attempts >= 2))
             || (at == RecoverDecide(a) && !Matches(a, w.desired) && (w.expiresAt.Some? ==> now < w.expiresAt.value)
                 && (if row.before.None? then row.status !in {Prepared, Validating} else row.before.value != a || row.attempts >= 2))
    ensures var m := Work(account, sec, now, o, Some(a), stored);
            && m.stored.None? && (o.effect ==> m.event.None?)
            && m.phase == Working(Save(None, None), sec.phase.row.(status := Status.Uncertain), sec.phase.winner)
  {
    hide Matches, StoreWinning;
  }

  /** A write of unknown result is read back at once: if it took effect the command
      is applied with that one write; if not it is written once more. */
  lemma AmbiguousWriteIsResolved(s: State, account: int, sec: Section, row: Row, a: AccountState, winner: Intent, effect: bool)
    requires Shows(s, account, sec, row, a) && sec.phase == Working(Writing(a), row, winner) && row.attempts == 1
    requires AccountIntent(winner)
    requires winner.desired.Schedulable? ==> a.schedulable != winner.desired.value
    requires winner.desired.LoadFactor? ==> a.loadFactor != winner.desired.factor
    ensures var b := if winner.desired.Schedulable? then AccountState(winner.desired.value, a.loadFactor)
                     else AccountState(a.schedulable, winner.desired.factor);
            Shows(Then(s, account, Reply(Ambiguous, effect), if effect then 2 else 5), account, sec.(phase := Done(Some(Applied))),
                  if effect then row.(status := Applied, after := Some(b))
                  else row.(status := Applied, after := Some(b), attempts := 2), b)
  {
    MatchesMeans(winner, a);
    MatchesMeans(winner, Effect(a, winner.desired));
    hide Step, Effect, Forward, StoreWinning, Matches, AccountIntent;
    AnyStepShows(s, account, sec, row, a, Reply(Ambiguous, effect));
    var s1 := Step(s, Advance(account, Reply(Ambiguous, effect)));
    if effect {
      EffectIsReadBack(s1, account, sec, row, a, winner);
    } else {
      WrittenOnceMore(s1, account, sec, row, a, winner);
    }
  }

  lemma EffectIsReadBack(u: State, account: int, sec: Section, row: Row, a: AccountState, winner: Intent)
    requires var b := Effect(a, winner.desired);
             Shows(u, account, sec.(phase := Working(ReadingBack(a), row, winner)), row, b) && Matches(b, winner.desired)
    ensures var b := Effect(a, winner.desired);
            Shows(Forward(u, account, 2), account, sec.(phase := Done(Some(Applied))), row.(status := Applied, after := Some(b)), b)
  {
    hide Step, Effect, Forward, StoreWinning, Matches;
    var b := Effect(a, winner.desired);
    var u1 := Step(u, Advance(account, OK));
    AnyStepShows(u, account, sec.(phase := Working(ReadingBack(a), row, winner)), row, b, OK);
    CommitShows(u1, account, sec, row, b, true, row.(status := Applied, after := Some(b)), winner);
    ForwardOne(u, account);
    ForwardAdds(u, account, 1, 1);
  }

  lemma WrittenOnceMore(u: State, account: int, sec: Section, row: Row, a: AccountState, winner: Intent)
    requires Shows(u, account, sec.(phase := Working(ReadingBack(a), row, winner)), row, a) && row.attempts == 1
    requires !Matches(a, winner.desired) && Matches(Effect(a, winner.desired), winner.desired)
    ensures var b := Effect(a, winner.desired);
            Shows(Forward(u, account, 5), account, sec.(phase := Done(Some(Applied))),
                  row.(status := Applied, after := Some(b), attempts := 2), b)
  {
    hide Step, Effect, Forward, StoreWinning, Matches;
    var b, raised := Effect(a, winner.desired), Raised(row);
    var u1 := Step(u, Advance(account, OK));
    AnyStepShows(u, account, sec.(phase := Working(ReadingBack(a), row, winner)), row, a, OK);
    var u2 := Step(u1, Advance(account, OK));
    AnyStepShows(u1, account, sec.(phase := Working(Save(Some(WritingAgain), None), raised, winner)), row, a, OK);
    var u3 := Step(u2, Advance(account, OK));
    AnyStepShows(u2, account, sec.(phase := Working(WritingAgain, raised, winner)), raised, a, OK);
    ReadToVerdict(u3, account, sec, b, raised, winner, true);
    ForwardTwo(u, account);
    ForwardOne(u2, account);
    ForwardAdds(u, account, 2, 3);
    ForwardAdds(u2, account, 1, 2);
  }

  /** A verdict that cannot be committed: after a command's own verification the
      row is put back to verifying, for a recovery to settle; otherwise it stays as
      it was. */
  lemma UncommittedVerdict(s: State, account: int, sec: Section, stored: Row, a: AccountState, o: Reply)
    requires Shows(s, account, sec, stored, a) && sec.phase.Working? && sec.phase.at.Commit? && !o.answer.Good?
    ensures if sec.phase.at.repair
            then Shows(Then(s, account, o, 1), account, sec.(phase := Done(Some(Verifying))), sec.phase.row.(status := Verifying), a)
            else Shows(Then(s, account, o, 0), account, sec.(phase := Done(None)), stored, a)
  {
    hide Step, Effect, Forward, StoreWinning, Matches;
    AnyStepShows(s, account, sec, stored, a, o);
    if sec.phase.at.repair {
      SaveShows(Step(s, Advance(account, o)), account, sec, stored, a, Some(Verifying), sec.phase.row.(status := Verifying), sec.phase.winner);
    } else {
      ForwardNothing(Step(s, Advance(account, o)), account);
    }
  }

  lemma ForwardNothing(s: State, account: int)
    ensures Forward(s, account, 0) == s
  {
  }

  /** A journal update that fails ends the section at once; whether the row was
      stored all the same is up to the failure. A recovery that cannot load the
      account's controls, or whose guard fails, leaves everything for another one. */
  lemma InterruptedSection(s: State, account: int, sec: Section, stored: Row, a: AccountState, o: Reply)
    requires Shows(s, account, sec, stored, a) && sec.phase.Working? && !o.answer.Good?
    requires sec.phase.at.Save? || sec.phase.at.RecoverControl?
          || ((sec.phase.at.RecoverGuard? || sec.phase.at.RecoverGuardAgain?) && !o.answer.Block?)
    ensures Shows(Step(s, Advance(account, o)), account,
                  sec.(phase := Done(if sec.phase.at.Save? then sec.phase.at.failed else None)),
                  if sec.phase.at.Save? && o.effect then sec.phase.row else stored, a)
  {
    hide Step, Effect, StoreWinning, Matches;
    AnyStepShows(s, account, sec, stored, a, o);
  }

  /** A recovery that finds the winner expired closes the row without a write,
      unless the account already has what was asked for. */
  lemma LateRecoveryExpires(s: State, account: int, sec: Section, row: Row, a: AccountState, winner: Intent)
    requires Shows(s, account, sec, row, a) && sec.phase == Working(RecoverDecide(a), row, winner) && AccountIntent(winner)
    requires winner.desired.Schedulable? ==> a.schedulable != winner.desired.value
    requires winner.desired.LoadFactor? ==> a.loadFactor != winner.desired.factor
    requires winner.expiresAt.Some? && winner.expiresAt.value <= s.now
    ensures Shows(Then(s, account, OK, 1), account, sec.(phase := Done(Some(ExpiredStatus))), row.(status := ExpiredStatus), a)
  {
    MatchesMeans(winner, a);
    hide Step, Effect, Forward, StoreWinning, Matches, AccountIntent;
    AnyStepShows(s, account, sec, row, a, OK);
    CommitShows(Step(s, Advance(account, OK)), account, sec, row, a, false, row.(status := ExpiredStatus), winner);
  }

  /** A row whose command never got to its guard is guarded by its recovery before
      anything is written, and is given the state read now as its before. */
  lemma EarlyRecoveryIsGuarded(s: State, account: int, sec: Section, row: Row, a: AccountState, winner: Intent)
    requires Shows(s, account, sec, row, a) && sec.phase == Working(RecoverRead, row, winner) && AccountIntent(winner)
    requires row.status in {Prepared, Validating} && row.before.None? && row.attempts == 0
    requires winner.desired.Schedulable? ==> a.schedulable != winner.desired.value
    requires winner.desired.LoadFactor? ==> a.loadFactor != winner.desired.factor
    requires winner.expiresAt.Some? ==> s.now < winner.expiresAt.value
    ensures Shows(Forward(s, account, 2), account, sec.(phase := Working(RecoverGuard(a), row, winner)), row, a)
    ensures Shows(Forward(s, account, 4), account, sec.(phase := Working(RecoverGuardAgain(a), row.(before := Some(a)), winner)), row, a)
  {
    hide *;
    MatchesMeans(winner, a);
    ReadToGuard(s, account, sec, row, a, winner);
    GuardToDecision(Forward(s, account, 2), account, sec, row, a, winner);
    ForwardAdds(s, account, 2, 2);
  }

  lemma ReadToGuard(s: State, account: int, sec: Section, row: Row, a: AccountState, winner: Intent)
    requires Shows(s, account, sec, row, a) && sec.phase == Working(RecoverRead, row, winner) && row.status in {Prepared, Validating}
    ensures Shows(Forward(s, account, 2), account, sec.(phase := Working(RecoverGuard(a), row, winner)), row, a)
    ensures Forward(s, account, 2).now == s.now
  {
    hide Step, Effect, Forward, StoreWinning, Matches, Expired;
    var s1 := Step(s, Advance(account, OK));
    StepShows(s, account, sec, row, a);
    StepShows(s1, account, sec.(phase := Working(RecoverControl(a), row, winner)), row, a);
    ForwardTwo(s, account);
  }

  lemma GuardToDecision(u: State, account: int, sec: Section, row: Row, a: AccountState, winner: Intent)
    requires Shows(u, account, sec.(phase := Working(RecoverGuard(a), row, winner)), row, a)
    requires row.status in {Prepared, Validating} && row.before.None? && row.attempts == 0 && !Matches(a, winner.desired)
    requires winner.expiresAt.Some? ==> u.now < winner.expiresAt.value
    ensures Shows(Forward(u, account, 2), account, sec.(phase := Working(RecoverGuardAgain(a), row.(before := Some(a)), winner)), row, a)
  {
    hide Step, Effect, Forward, StoreWinning, Matches;
    var u1 := Step(u, Advance(account, OK));
    StepShows(u, account, sec.(phase := Working(RecoverGuard(a), row, winner)), row, a);
    StepShows(u1, account, sec.(phase := Working(RecoverDecide(a), row, winner)), row, a);
    ForwardTwo(u, account);
  }

  /** A submission whose journal key is taken is answered from the row: with its
      status if the request is the same, with an error if it is another one.
      Nothing is written and the row stays. */
  lemma RepeatedRequestIsAnswered(s: State, account: int, token: nat, sub: Submission, o: Reply)
    requires account in s.sections && s.sections[account] == Section(Submit(token, sub), JournalKey(sub), Lookup)
    requires JournalKey(sub) in s.journal && o.answer.Good?
    ensures var t, row := Step(s, Advance(account, o)), s.journal[JournalKey(sub)];
            && t.sections[account] == s.sections[account].(phase := Done(if row.signature == RequestSignature(sub) then Some(row.status) else None))
            && t.journal == s.journal && t.upstream == s.upstream && t.log == s.log
  {
    hide RequestSignature, JournalKey;
  }

  /** Two submissions are the same request to the journal and to the queue exactly
      when their trimmed request keys agree; one without a request key goes by its
      intent's idempotency key, which the queue trims and the journal does not. */
  lemma SameRequestExactly(a: Submission, b: Submission)
    ensures Text.Trim(a.requestKey) != "" && Text.Trim(b.requestKey) != "" ==>
              && (JournalKey(a) == JournalKey(b) <==> Text.Trim(a.requestKey) == Text.Trim(b.requestKey))
              && (QueueRequestKey(a) == QueueRequestKey(b) <==> Text.Trim(a.requestKey) == Text.Trim(b.requestKey))
    ensures Text.Trim(a.requestKey) == "" == Text.Trim(b.requestKey) ==>
              && (JournalKey(a) == JournalKey(b) <==> a.intent.idempotencyKey == b.intent.idempotencyKey)
              && (QueueRequestKey(a) == QueueRequestKey(b) <==> Text.Trim(a.intent.idempotencyKey) == Text.Trim(b.intent.idempotencyKey))
    ensures Text.Trim(a.requestKey) != "" == Text.Trim(b.requestKey) ==>
              && (JournalKey(a) == JournalKey(b) <==> Text.Trim(a.requestKey) == b.intent.idempotencyKey)
              && (QueueRequestKey(a) == QueueRequestKey(b) <==> Text.Trim(a.requestKey) == Text.Trim(b.intent.idempotencyKey))
    ensures Text.Trim(a.requestSignature) == "" == Text.Trim(b.requestSignature) ==>
              (RequestSignature(a) == RequestSignature(b) <==> Arbiter.Signature(a.intent) == Arbiter.Signature(b.intent))
    ensures Text.Trim(a.requestSignature) != "" && Text.Trim(b.requestSignature) != "" ==>
              (RequestSignature(a) == RequestSignature(b) <==> Text.Trim(a.requestSignature) == Text.Trim(b.requestSignature))
  {
    hide Text.Trim, Arbiter.Signature;
  }

  /** A recovery of a row that is closed by now, or whose lookup fails, ends at
      once. Otherwise it rebuilds the row's winner and reads the account, unless
      the row never got past its guard and the winner has expired, which closes it. */
  lemma RecoveryBegins(s: State, account: int, key: string, row: Row, winner: Intent, a: AccountState, o: Reply)
    requires Shows(s, account, Section(Recover, key, Lookup), row, a) && RestoreIntent(row.account, row.winning) == Some(winner)
    ensures var t := Step(s, Advance(account, o));
            var closed := row.status in {Applied, AppliedNoop, Blocked, Failed, Superseded, ExpiredStatus};
            var late := row.status in {Prepared, Validating} && winner.expiresAt.Some? && winner.expiresAt.value <= s.now;
            && (closed || !o.answer.Good? ==> Shows(t, account, Section(Recover, key, Done(None)), row, a))
            && (!closed && o.answer.Good? && late ==>
                  Shows(Then(s, account, o, 1), account, Section(Recover, key, Done(Some(ExpiredStatus))), row.(status := ExpiredStatus), a))
            && (!closed && o.answer.Good? && !late ==>
                  Shows(t, account, Section(Recover, key, Working(RecoverRead, row, winner)), row, a))
  {
    hide RestoreIntent, Forward;
    LookedUpShows(s, account, key, row, winner, a, o);
    var late := row.status in {Prepared, Validating} && winner.expiresAt.Some? && winner.expiresAt.value <= s.now;
    if late && o.answer.Good? {
      hide Step;
      CommitShows(Step(s, Advance(account, o)), account, Section(Recover, key, Lookup), row, a, false, row.(status := ExpiredStatus), winner);
    }
  }

  lemma LookedUpShows(s: State, account: int, key: string, row: Row, winner: Intent, a: AccountState, o: Reply)
    requires Shows(s, account, Section(Recover, key, Lookup), row, a) && RestoreIntent(row.account, row.winning) == Some(winner)
    ensures var late := row.status in {Prepared, Validating} && winner.expiresAt.Some? && winner.expiresAt.value <= s.now;
            Shows(Step(s, Advance(account, o)), account,
                  Section(Recover, key,
                          if !o.answer.Good? || row.status in {Applied, AppliedNoop, Blocked, Failed, Superseded, ExpiredStatus} then Done(None)
                          else if late then Working(Commit(false), row.(status := ExpiredStatus), winner)
                          else Working(RecoverRead, row, winner)), row, a)
  {
    hide RestoreIntent;
  }

  /** A command arbitrated while another one took its journal key is answered from
      that row, and one whose insert fails ends there, with its row stored exactly
      when the failing insert was kept. */
  lemma PreparedTooLate(s: State, account: int, o: Reply)
    requires account in s.sections && s.sections[account].phase.Preparing?
    requires s.sections[account].key in s.journal || !o.answer.Good?
    ensures var t, sec := Step(s, Advance(account, o)), s.sections[account];
            && t.upstream == s.upstream && t.log == s.log
            && (o.answer.Good? ==>
                  && t.journal == s.journal
                  && t.sections[account].phase == Done(if s.journal[sec.key].signature == sec.phase.row.signature
                                                       then Some(s.journal[sec.key].status) else None))
            && (!o.answer.Good? ==>
                  && t.sections[account].phase == Done(None)
                  && t.journal == (if o.effect && sec.key !in s.journal then s.journal[sec.key := sec.phase.row] else s.journal))
  {
  }
}

/** The other half of the group transition journal: when nothing fails a request
    switches its key, and a recovery settles a pending row by what it reads. */
module GroupTransitionProgress {
  import opened Options
  import opened GroupTransitions

  const OK := Reply(Good, true)

  function Forward(s: State, token: Token, n: nat): State
    decreases n
  {
    if n == 0 then s else Forward(Step(s, Advance(token, OK)), token, n - 1)
  }

  lemma ForwardAdds(s: State, token: Token, m: nat, n: nat)
    ensures Forward(Forward(s, token, m), token, n) == Forward(s, token, m + n)
    decreases m
  {
    hide Step;
    if m > 0 { ForwardAdds(Step(s, Advance(token, OK)), token, m - 1, n); }
  }

  lemma ForwardThree(s: State, token: Token)
    ensures var a := Advance(token, OK);
            Forward(s, token, 3) == Step(Step(Step(s, a), a), a)
  {
    hide Step;
    var s1 := Step(s, Advance(token, OK));
    var s2 := Step(s1, Advance(token, OK));
    assert Forward(s, token, 3) == Forward(s1, token, 2) == Forward(s2, token, 1) == Forward(Step(s2, Advance(token, OK)), token, 0);
  }

  /** What matters to a section before it has a row. */
  predicate Starts(s: State, token: Token, job: Job, phase: Phase, live: string)
  {
    && token in s.sections && s.sections[token] == Section(job, phase)
    && job.Transition? && job.idem !in s.rows && NoPending(s.rows, token)
    && token in s.upstream && s.upstream[token] == live
  }

  /** What matters once the row exists. */
  predicate Runs(s: State, token: Token, job: Job, phase: Phase, row: Row, live: string)
  {
    && token in s.sections && s.sections[token] == Section(job, phase)
    && job.idem in s.rows && s.rows[job.idem] == row
    && token in s.upstream && s.upstream[token] == live
  }

  lemma ToTheReservation(s: State, token: Token, job: Job, live: string)
    requires Starts(s, token, job, Lookup, live)
    requires job.manual || (token in s.cache && s.cache[token] == live)
    ensures Starts(Forward(s, token, 3), token, job, Beginning(live), live)
  {
    var a := Advance(token, OK);
    var s1 := Step(s, a);
    assert Starts(s1, token, job, Checking, live);
    var s2 := Step(s1, a);
    assert Starts(s2, token, job, Asserting(live), live);
    var s3 := Step(s2, a);
    assert Starts(s3, token, job, Beginning(live), live);
    ForwardThree(s, token);
  }

  lemma ToTheSwitch(s: State, token: Token, job: Job, live: string)
    requires Starts(s, token, job, Beginning(live), live) && !job.dryRun && live != job.to
    ensures Runs(Forward(s, token, 3), token, job, Switching, Row(token, live, job.to, Pending), live)
  {
    hide NoPending;
    var a := Advance(token, OK);
    var row := Row(token, live, job.to, Pending);
    var s1 := Step(s, a);
    assert Runs(s1, token, job, Begun(live), row, live);
    var s2 := Step(s1, a);
    assert Runs(s2, token, job, Saving(live), row, live);
    var s3 := Step(s2, a);
    assert Runs(s3, token, job, Switching, row, live);
    ForwardThree(s, token);
  }

  lemma ToTheEnd(s: State, token: Token, job: Job, row: Row, live: string)
    requires Runs(s, token, job, Switching, row, live) && row.status.Pending? && row.token == token
    ensures Runs(Forward(s, token, 3), token, job, Leaving, row.(status := Applied), row.toGroup)
  {
    hide NoPending;
    var a := Advance(token, OK);
    var s1 := Step(s, a);
    assert Runs(s1, token, job, Reading, row, row.toGroup);
    var s2 := Step(s1, a);
    assert Runs(s2, token, job, Completing, row, row.toGroup);
    var s3 := Step(s2, a);
    assert Runs(s3, token, job, Leaving, row.(status := Applied), row.toGroup);
    ForwardThree(s, token);
  }

  /** Without failures, a new request for another group switches the key and ends
      with its row applied, provided it is manual or the cache shows the live group. */
  lemma RequestIsCarriedOut(s: State, token: Token, job: Job, live: string)
    requires Starts(s, token, job, Lookup, live) && !job.dryRun && live != job.to
    requires job.manual || (token in s.cache && s.cache[token] == live)
    ensures Runs(Forward(s, token, 9), token, job, Leaving, Row(token, live, job.to, Applied), job.to)
  {
    hide Step, Forward;
    ToTheReservation(s, token, job, live);
    ToTheSwitch(Forward(s, token, 3), token, job, live);
    ForwardAdds(s, token, 3, 3);
    ToTheEnd(Forward(s, token, 6), token, job, Row(token, live, job.to, Pending), live);
    ForwardAdds(s, token, 6, 3);
  }

  /** A recovery settles a pending row by one readback: applied if the key is in
      the target group, failed if it is still in the old one, and otherwise left
      pending. It never calls a switch. */
  lemma RecoverySettles(s: State, token: Token, job: Job, row: Row, live: string)
    requires Runs(s, token, job, Lookup, row, live) && job.Recovery? && row.status.Pending?
    ensures var t := Forward(s, token, 3);
            && t.upstream == s.upstream && job.idem in t.rows
            && t.rows[job.idem] == row.(status := if live == row.fromGroup then Failed else if live == row.toGroup then Applied else Pending)
            && Switches(t.log, job.idem) == Switches(s.log, job.idem)
  {
    hide NoPending, Switches;
    var a := Advance(token, OK);
    var s1 := Step(s, a);
    assert Runs(s1, token, job, Fetching, row, live) && s1.log == s.log;
    var s2 := Step(s1, a);
    assert s2.log == s1.log + [Read(token, live, true)] && s2.rows == s.rows;
    var s3 := Step(s2, a);
    ForwardThree(s, token);
    OtherEvent(s1.log, Read(token, live, true), job.idem);
    if s3.log != s2.log { OtherEvent(s2.log, s3.log[|s2.log|], job.idem); }
  }

  lemma OtherEvent(log: seq<Event>, e: Event, idem: string)
    ensures Switches(log + [e], idem) == Switches(log, idem) + if e.Switched? && e.idem == idem then 1 else 0
  {
    assert (log + [e])[..|log|] == log;
  }

  /** A request's switch returns with an unknown result, the request leaves, and a
      recovery of the row runs. */
  function UnknownThenRecovery(token: Token, idem: string, effect: bool): seq<Action>
  {
    [Advance(token, Reply(Unknown, effect)), Advance(token, OK), Begin(token, Recovery(idem)),
     Advance(token, OK), Advance(token, OK), Advance(token, OK)]
  }

  /** Right after the unknown result the row is pending, whatever the switch did.
      The recovery then ends it as applied if the switch took effect and as failed
      if it did not, with no further switch call. */
  lemma UnknownSwitchIsSettled(s: State, token: Token, job: Job, row: Row, live: string, effect: bool)
    requires Runs(s, token, job, Switching, row, live) && job.Transition? && row.status.Pending? && row.token == token
    requires live == row.fromGroup != row.toGroup
    ensures var t := Step(s, Advance(token, Reply(Unknown, effect)));
            Runs(t, token, job, Leaving, row, if effect then row.toGroup else row.fromGroup)
    ensures var t := Run(s, UnknownThenRecovery(token, job.idem, effect));
            && job.idem in t.rows && t.rows[job.idem] == row.(status := if effect then Applied else Failed)
            && token in t.upstream && t.upstream[token] == (if effect then row.toGroup else row.fromGroup)
            && Switches(t.log, job.idem) == Switches(s.log, job.idem) + 1
  {
    var now := if effect then row.toGroup else row.fromGroup;
    UnknownKeepsRow(s, token, job, row, live, effect);
    var s1 := Step(s, Advance(token, Reply(Unknown, effect)));
    LeaveAndRecover(s1, token, job, row, now);
    var s3 := Step(Step(s1, Advance(token, OK)), Begin(token, Recovery(job.idem)));
    RecoverySettles(s3, token, Recovery(job.idem), row, now);
    ForwardThree(s3, token);
    hide *;
    RunSix(s, UnknownThenRecovery(token, job.idem, effect));
    SixActions(token, job.idem, effect);
  }

  lemma SixActions(token: Token, idem: string, effect: bool)
    ensures var a := UnknownThenRecovery(token, idem, effect);
            && |a| == 6 && a[0] == Advance(token, Reply(Unknown, effect)) && a[1] == Advance(token, OK)
            && a[2] == Begin(token, Recovery(idem)) && a[3] == a[4] == a[5] == Advance(token, OK)
  {
  }

  lemma UnknownKeepsRow(s: State, token: Token, job: Job, row: Row, live: string, effect: bool)
    requires Runs(s, token, job, Switching, row, live) && job.Transition? && live == row.fromGroup
    ensures var t := Step(s, Advance(token, Reply(Unknown, effect)));
            && Runs(t, token, job, Leaving, row, if effect then row.toGroup else row.fromGroup)
            && Switches(t.log, job.idem) == Switches(s.log, job.idem) + 1
  {
    hide NoPending, Switches;
    OtherEvent(s.log, Switched(job.idem, token, Unknown, row, job), job.idem);
  }

  lemma LeaveAndRecover(s: State, token: Token, job: Job, row: Row, live: string)
    requires Runs(s, token, job, Leaving, row, live) && row.token == token
    ensures var t := Step(Step(s, Advance(token, OK)), Begin(token, Recovery(job.idem)));
            Runs(t, token, Recovery(job.idem), Lookup, row, live) && Switches(t.log, job.idem) == Switches(s.log, job.idem)
  {
    hide NoPending, Switches;
    OtherEvent(s.log, Locked(token), job.idem);
  }

  lemma RunFive(s: State, a: seq<Action>)
    requires |a| == 5
    ensures Run(s, a) == Step(Step(Step(Step(Step(s, a[0]), a[1]), a[2]), a[3]), a[4])
  {
    hide Step;
    var s1 := Step(s, a[0]);
    var s2 := Step(s1, a[1]);
    var s3 := Step(s2, a[2]);
    var s4 := Step(s3, a[3]);
    assert Run(s, a) == Run(s1, a[1..]);
    assert a[1..][1..] == a[2..] && Run(s1, a[1..]) == Run(s2, a[2..]);
    assert a[2..][1..] == a[3..] && Run(s2, a[2..]) == Run(s3, a[3..]);
    assert a[3..][1..] == a[4..] && Run(s3, a[3..]) == Run(s4, a[4..]);
    assert a[4..][1..] == [] && Run(s4, a[4..]) == Run(Step(s4, a[4]), []);
  }

  lemma RunSix(s: State, a: seq<Action>)
    requires |a| == 6
    ensures Run(s, a) == Step(Step(Step(Step(Step(Step(s, a[0]), a[1]), a[2]), a[3]), a[4]), a[5])
  {
    hide Step;
    RunFive(Step(s, a[0]), a[1..]);
  }

  /** An automatic request whose key is live in another group than the cache shows
      reserves nothing, and neither does any request while a row of its key is
      pending. */
  lemma RefusedRequest(s: State, token: Token, job: Job, live: string)
    requires token in s.sections && s.sections[token] == Section(job, Lookup) && job.Transition? && job.idem !in s.rows
    requires token in s.upstream && s.upstream[token] == live
    requires (!job.manual && (token !in s.cache || s.cache[token] != live)) || !NoPending(s.rows, token)
    ensures var t := Forward(s, token, 3);
            t.rows == s.rows && t.upstream == s.upstream && (token in t.sections ==> t.sections[token].phase.Leaving?)
  {
    hide NoPending;
    var a := Advance(token, OK);
    var s1 := Step(s, a);
    var s2 := Step(s1, a);
    assert s2.rows == s.rows && s2.upstream == s.upstream;
    ForwardThree(s, token);
  }

  /** A dry run reserves and simulates its row, and leaves the key alone. */
  lemma DryRunIsSimulated(s: State, token: Token, job: Job, live: string)
    requires Starts(s, token, job, Lookup, live) && job.dryRun
    requires job.manual || (token in s.cache && s.cache[token] == live)
    ensures Runs(Forward(s, token, 5), token, job, Leaving, Row(token, live, job.to, Simulated), live)
  {
    hide Step, Forward;
    ToTheReservation(s, token, job, live);
    ToTheSimulation(Forward(s, token, 3), token, job, live);
    ForwardAdds(s, token, 3, 2);
  }

  lemma ToTheSimulation(s: State, token: Token, job: Job, live: string)
    requires Starts(s, token, job, Beginning(live), live) && job.dryRun
    ensures Runs(Forward(s, token, 2), token, job, Leaving, Row(token, live, job.to, Simulated), live)
  {
    hide NoPending;
    var s1 := Step(s, Advance(token, OK));
    assert Runs(s1, token, job, Begun(live), Row(token, live, job.to, Pending), live);
    var s2 := Step(s1, Advance(token, OK));
    assert Runs(s2, token, job, Leaving, Row(token, live, job.to, Simulated), live);
    assert Forward(s, token, 2) == Forward(s1, token, 1) == Forward(s2, token, 0);
  }

  /** A request that certainly did not switch its key fails its row: a store that
      fails before the call, a call that is refused or definitely fails, and a call
      whose readback does not show the target. */
  lemma CertainFailureIsRecorded(s: State, token: Token, job: Job, phase: Phase, row: Row, live: string, reply: Reply)
    requires Runs(s, token, job, phase, row, live) && job.Transition? && !job.dryRun && row.status.Pending? && !reply.effect
    requires ((phase == Begun(live) || phase == Saving(live)) && !reply.answer.Good?)
          || (phase == Switching && reply.answer in {Refused, Definite})
          || (phase == Reading && live != row.toGroup)
    ensures Runs(Forward(Step(s, Advance(token, reply)), token, 1), token, job, Leaving, row.(status := Failed), live)
  {
    hide NoPending;
    var s1 := Step(s, Advance(token, reply));
    assert Runs(s1, token, job, Failing, row, live);
    var s2 := Step(s1, Advance(token, OK));
    assert Runs(s2, token, job, Leaving, row.(status := Failed), live);
    assert Forward(s1, token, 1) == Forward(s2, token, 0);
  }

  /** A key already in the target group needs no switch: its row is applied. */
  lemma InPlaceIsApplied(s: State, token: Token, job: Job, row: Row)
    requires Runs(s, token, job, Saving(row.toGroup), row, row.toGroup) && job.Transition? && !job.dryRun && row.status.Pending?
    ensures var t := Forward(Step(s, Advance(token, OK)), token, 1);
            Runs(t, token, job, Leaving, row.(status := Applied), row.toGroup) && Switches(t.log, job.idem) == Switches(s.log, job.idem)
  {
    hide NoPending, Switches;
    var s1 := Step(s, Advance(token, OK));
    assert Runs(s1, token, job, Completing, row, row.toGroup) && s1.log == s.log;
    var s2 := Step(s1, Advance(token, OK));
    OtherEvent(s.log, Completed(job.idem, token, row.toGroup, true), job.idem);
    assert Forward(s1, token, 1) == Forward(s2, token, 0);
  }

  /** A reservation that fails ends the request; its row is there, pending, exactly
      when the failing insert was stored all the same. */
  lemma FailedReservationEnds(s: State, token: Token, job: Job, live: string, reply: Reply)
    requires Starts(s, token, job, Beginning(live), live) && !reply.answer.Good?
    ensures var t := Step(s, Advance(token, reply));
            && t.sections[token] == Section(job, Leaving) && t.upstream == s.upstream
            && t.rows == (if reply.effect then s.rows[job.idem := Row(token, live, job.to, Pending)] else s.rows)
  {
    hide NoPending;
  }

  /** A failure or completion that cannot be recorded, and a recovery of a resolved
      row, end the section and leave the row as it is. */
  lemma NothingRecorded(s: State, token: Token, job: Job, phase: Phase, row: Row, live: string, reply: Reply)
    requires Runs(s, token, job, phase, row, live)
    requires ((phase.Failing? || phase.Completing?) && !reply.answer.Good? && !reply.effect)
          || (phase.Lookup? && job.Recovery? && (!row.status.Pending? || !reply.answer.Good?))
    ensures var t := Step(s, Advance(token, reply));
            Runs(t, token, job, Leaving, row, live) && t.rows == s.rows && t.log == s.log
  {
    hide NoPending;
  }

  /** A failure is recorded when the store accepts it or keeps it although it
      answers with an error, and a dry run likewise as simulated. */
  lemma EndingRecordedExactly(s: State, token: Token, job: Job, phase: Phase, row: Row, live: string, reply: Reply)
    requires Runs(s, token, job, phase, row, live) && row.status.Pending?
    requires phase.Failing? || (phase.Begun? && job.Transition? && job.dryRun)
    ensures var t, status := Step(s, Advance(token, reply)), if phase.Failing? then Failed else Simulated;
            Runs(t, token, job, Leaving, if reply.answer.Good? || reply.effect then row.(status := status) else row, live)
  {
    hide NoPending;
  }

  /** A key has one lock section at a time: while one is under way no other begins. */
  lemma SectionExcludes(s: State, token: Token, job: Job)
    requires token in s.sections
    ensures Step(s, Begin(token, job)) == s
  {
  }

  function CrashThenRecovery(token: Token, idem: string): seq<Action>
  {
    [Crash, Begin(token, Recovery(idem)), Advance(token, OK), Advance(token, OK), Advance(token, OK)]
  }

  /** Wherever a crash hits a request or a recovery, the pending row is settled by a
      recovery afterwards, from what it reads, and without another switch call. */
  lemma CrashIsRecovered(s: State, token: Token, idem: string)
    requires idem in s.rows && s.rows[idem].token == token && s.rows[idem].status.Pending? && token in s.upstream
    ensures var t, row, live := Run(s, CrashThenRecovery(token, idem)), s.rows[idem], s.upstream[token];
            && idem in t.rows && t.upstream == s.upstream
            && t.rows[idem] == row.(status := if live == row.fromGroup then Failed else if live == row.toGroup then Applied else Pending)
            && Switches(t.log, idem) == Switches(s.log, idem)
  {
    var s2 := Step(Step(s, Crash), Begin(token, Recovery(idem)));
    BeginAfterCrash(s, token, idem);
    RecoverySettles(s2, token, Recovery(idem), s.rows[idem], s.upstream[token]);
    ForwardThree(s2, token);
    var a := CrashThenRecovery(token, idem);
    hide Step, Switches;
    RunFive(s, a);
  }

  lemma BeginAfterCrash(s: State, token: Token, idem: string)
    requires idem in s.rows && s.rows[idem].token == token && token in s.upstream
    ensures var t := Step(Step(s, Crash), Begin(token, Recovery(idem)));
            && Runs(t, token, Recovery(idem), Lookup, s.rows[idem], s.upstream[token]) && t.upstream == s.upstream
            && Switches(t.log, idem) == Switches(s.log, idem)
  {
    hide NoPending, Switches;
    OtherEvent(s.log, Locked(token), idem);
  }
}

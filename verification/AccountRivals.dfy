/** Exactly when an arbitrated command reaches the writer, and the two ways in
    which a command that loses the arbitration order still does. */
module AccountRivals {
  import opened Options
  import opened Intents
  import opened Arbiter
  import ArbiterLaws
  import ArbiterTies
  import opened WinningIntent
  import opened CandidateQueue
  import opened AccountJournal
  import opened AccountJournalSafety
  import opened AccountOverlap
  import opened AccountProgress
  import Text

  // ------------------------------------------------------ the top candidate

  /** A representative of the conflict key that no other representative beats. */
  ghost predicate Top(now: int, m: multiset<Intent>, key: ConflictKey, w: Intent)
  {
    && Represents(now, m, w) && KeyOf(w) == key
    && forall c | Represents(now, m, c) && KeyOf(c) == key :: !CandidateWins(c, w)
  }

  lemma SameRepresentative(now: int, m: multiset<Intent>, c: Intent, d: Intent)
    requires Represents(now, m, c) && Represents(now, m, d) && c.idempotencyKey == d.idempotencyKey
    ensures ArbiterTies.Twins(c, d)
  {
    RepresentsIsEligible(now, m, c);
    RepresentsIsEligible(now, m, d);
    RepresentativeIsLeast(now, m, c, d);
    RepresentativeIsLeast(now, m, d, c);
    RepresentativeTotal(c, d);
  }

  lemma RepresentsIsEligible(now: int, m: multiset<Intent>, i: Intent)
    requires Represents(now, m, i)
    ensures Eligible(now, m, i)
  {
  }

  lemma WinnerIsTop(now: int, m: multiset<Intent>, r: Arbitration)
    requires Settled(now, m, r) && r.winner.Some?
    ensures Top(now, m, r.key, r.winner.value)
  {
    hide Represents, Eligible, CandidateWins, IgnoredReason, OutcomeLess, Copies;
    var w := r.winner.value;
    var s := CandidatesOf(r);
    assert s[0] == w && w in s;
    forall c | Represents(now, m, c) && KeyOf(c) == r.key ensures !CandidateWins(c, w) {
      RepresentsIsEligible(now, m, c);
      assert HasKey(s, c.idempotencyKey);
      var d :| d in s && d.idempotencyKey == c.idempotencyKey;
      SameRepresentative(now, m, c, d);
      ArbiterLaws.CandidateMember(r, d);
      ArbiterTies.TwinsCompare(c, d, w);
      CandidateTotal(d, w);
    }
  }

  lemma TopsShareId(now: int, m: multiset<Intent>, key: ConflictKey, v: Intent, w: Intent)
    requires Top(now, m, key, v) && Top(now, m, key, w)
    ensures v.id == w.id
  {
    hide CanonicalKey, CandidateWins, Represents;
    CandidateTotal(v, w);
    CanonicalKeyParts(v, w);
  }

  /** A command is told to proceed exactly when the top candidate of its key
      carries its intent ID. */
  lemma ProceedsExactly(now: int, m: multiset<Intent>, results: seq<Arbitration>, a: Intent)
    requires Arbitrated(now, m, results)
    ensures Decide(results, a).Proceed? <==> exists w :: Top(now, m, KeyOf(a), w) && w.id == a.id
    ensures Decide(results, a).Proceed? ==> Top(now, m, KeyOf(a), Decide(results, a).winner)
  {
    hide Settled, Top, ResultLess, Decide;
    if Decide(results, a).Proceed? {
      var r := ProceedHasResult(results, a);
      WinnerIsTop(now, m, r);
    }
    if w :| Top(now, m, KeyOf(a), w) && w.id == a.id {
      TopIsEligible(now, m, KeyOf(a), w);
      assert HasIntent(m, KeyOf(a));
      assert HasResult(results, KeyOf(a));
      var r :| r in results && r.key == KeyOf(a);
      ArbiterLaws.WinnerBeatsEligible(now, m, r, w);
      WinnerIsTop(now, m, r);
      TopsShareId(now, m, KeyOf(a), w, r.winner.value);
      DecideFinds(results, r, a);
    }
  }

  lemma TopIsEligible(now: int, m: multiset<Intent>, key: ConflictKey, w: Intent)
    requires Top(now, m, key, w)
    ensures Eligible(now, m, w) && KeyOf(w) == key && w in m
  {
  }

  // ------------------------------------------------- one decision per command

  predicate OnlyDecision(log: seq<Event>, a: nat, d: Decision)
  {
    forall e | e in log && e.Decided? && e.token == a :: e.decision == d
  }

  ghost predicate Past(s: State, a: nat, d: Decision)
  {
    Gone(s, a) && OnlyDecision(s.log, a, d)
  }

  lemma PastMoved(s: State, account: int, m: Move, effect: bool, a: nat, d: Decision)
    requires Past(s, a, d) && account in s.sections
    requires m.phase.Lookup? || m.phase.Deciding? ==> Before(s.sections[account])
    requires m.event.Some? && m.event.value.Decided? ==> m.event.value.token != a
    ensures Past(Moved(s, account, s.sections[account], m, effect), a, d)
  {
  }

  lemma PastAdvance(s: State, account: int, o: Reply, a: nat, d: Decision)
    requires Past(s, a, d) && account in s.sections
    ensures Past(Advanced(s, account, o), a, d)
  {
    hide Past, Work;
    var sec := s.sections[account];
    match sec.phase
    case Lookup => PastMoved(s, account, LookUp(account, sec, s.now, o, s.journal), false, a, d);
    case Deciding(_) => PastMoved(s, account, Silent(Done(None)), false, a, d);
    case Preparing(_, _, _) => PastMoved(s, account, Prepare(sec, o, s.journal), false, a, d);
    case Working(_, _, _) =>
      if sec.key in s.journal {
        var present := if account in s.upstream then Some(s.upstream[account]) else None;
        WorkNeverRestarts(account, sec, s.now, o, present, s.journal[sec.key]);
        PastMoved(s, account, Work(account, sec, s.now, o, present, s.journal[sec.key]), o.effect, a, d);
      }
    case _ => PastDone(s, account, o, a, d);
  }

  lemma PastDone(s: State, account: int, o: Reply, a: nat, d: Decision)
    requires Past(s, a, d) && account in s.sections && (s.sections[account].phase.Done? || s.sections[account].phase.Leaving?)
    ensures Past(Advanced(s, account, o), a, d)
  {
    hide FinishIn;
    var sec := s.sections[account];
    if sec.phase.Done? && sec.job.Submit? {
      FinishNext(s.queue, SlotOf(sec.job.sub.intent), sec.job.token, Retained(sec.phase.status));
    }
  }

  lemma PastArbitration(s: State, account: int, overrides: seq<Intent>, results: seq<Arbitration>, a: nat, d: Decision)
    requires Past(s, a, d) && account in s.sections
    ensures Past(Arbitrating(s, account, overrides, results), a, d)
  {
    hide Arbitrated, Candidates, Decide, NewRow;
  }

  lemma PastStep(s: State, x: Action, a: nat, d: Decision)
    requires Past(s, a, d)
    ensures Past(Step(s, x), a, d)
  {
    hide Advanced, Arbitrating, FinishIn, AddTo, AccountIntent;
    match x
    case Enqueue(sub) => AddNext(s.queue, QueueRequestKey(sub), sub.intent);
    case Withdraw(t) => if t in s.waiting { FinishNext(s.queue, SlotOf(s.waiting[t].intent), t, Retained(None)); }
    case Advance(account, o) => if account in s.sections { PastAdvance(s, account, o, a, d); }
    case Arbitration(account, overrides, results) => if account in s.sections { PastArbitration(s, account, overrides, results, a, d); }
    case _ =>
  }

  lemma {:induction false} PastRun(s: State, actions: seq<Action>, a: nat, d: Decision)
    requires Past(s, a, d)
    ensures Past(Run(s, actions), a, d)
    decreases |actions|
  {
    hide Past, Step;
    if actions != [] {
      PastStep(s, actions[0], a, d);
      PastRun(Step(s, actions[0]), actions[1..], a, d);
    }
  }

  // --------------------------------------------------------- a taken key

  predicate WroteFor(log: seq<Event>, a: nat)
  {
    exists e | e in log :: e.Wrote? && e.author == Some(a)
  }

  /** The command's request key belongs to another row, so it cannot get its own. */
  predicate Barred(s: State, a: nat, key: string)
  {
    && key in s.journal && a <= s.queue.next && a !in s.waiting && !WroteFor(s.log, a)
    && forall b | b in s.sections && s.sections[b].job.Submit? && s.sections[b].job.token == a ::
         s.sections[b].key == key && !s.sections[b].phase.Working?
  }

  lemma BarredMoved(s: State, account: int, m: Move, effect: bool, a: nat, key: string)
    requires Barred(s, a, key) && account in s.sections
    requires TokenOf(s.sections[account].job) == Some(a) ==> !m.phase.Working? && m.event.None?
    requires m.event.Some? && m.event.value.Wrote? ==> m.event.value.author == TokenOf(s.sections[account].job)
    ensures Barred(Moved(s, account, s.sections[account], m, effect), a, key)
  {
  }

  lemma BarredAdvance(s: State, account: int, o: Reply, a: nat, key: string)
    requires Barred(s, a, key) && account in s.sections
    ensures Barred(Advanced(s, account, o), a, key)
  {
    hide Work;
    var sec := s.sections[account];
    match sec.phase
    case Lookup => BarredMoved(s, account, LookUp(account, sec, s.now, o, s.journal), false, a, key);
    case Deciding(_) => BarredMoved(s, account, Silent(Done(None)), false, a, key);
    case Preparing(_, _, _) => BarredMoved(s, account, Prepare(sec, o, s.journal), false, a, key);
    case Working(_, _, _) =>
      if sec.key in s.journal {
        var present := if account in s.upstream then Some(s.upstream[account]) else None;
        WriteIsOwn(account, sec, s.now, o, present, s.journal[sec.key]);
        BarredMoved(s, account, Work(account, sec, s.now, o, present, s.journal[sec.key]), o.effect, a, key);
      }
    case _ => BarredDone(s, account, o, a, key);
  }

  lemma WriteIsOwn(account: int, sec: Section, now: int, o: Reply, present: Option<AccountState>, stored: Row)
    requires sec.phase.Working?
    ensures var m := Work(account, sec, now, o, present, stored);
            m.event.Some? && m.event.value.Wrote? ==> m.event.value.author == TokenOf(sec.job)
  {
    hide Matches, Expired, StoreWinning;
  }

  lemma BarredDone(s: State, account: int, o: Reply, a: nat, key: string)
    requires Barred(s, a, key) && account in s.sections && (s.sections[account].phase.Done? || s.sections[account].phase.Leaving?)
    ensures Barred(Advanced(s, account, o), a, key)
  {
    hide FinishIn;
    var sec := s.sections[account];
    if sec.phase.Done? && sec.job.Submit? {
      FinishNext(s.queue, SlotOf(sec.job.sub.intent), sec.job.token, Retained(sec.phase.status));
    }
  }

  lemma BarredStep(s: State, x: Action, a: nat, key: string)
    requires Barred(s, a, key)
    ensures Barred(Step(s, x), a, key)
  {
    hide Advanced, FinishIn, AddTo, AccountIntent, Arbitrated, Candidates, Decide, NewRow;
    match x
    case Enqueue(sub) => AddNext(s.queue, QueueRequestKey(sub), sub.intent);
    case Withdraw(t) => if t in s.waiting { FinishNext(s.queue, SlotOf(s.waiting[t].intent), t, Retained(None)); }
    case Advance(account, o) => if account in s.sections { BarredAdvance(s, account, o, a, key); }
    case _ =>
  }

  lemma {:induction false} BarredRun(s: State, actions: seq<Action>, a: nat, key: string)
    requires Barred(s, a, key)
    ensures !WroteFor(Run(s, actions).log, a)
    decreases |actions|
  {
    hide Barred, Step, WroteFor;
    if actions == [] {
      assert !WroteFor(s.log, a) by { BarredNow(s, a, key); }
    } else {
      BarredStep(s, actions[0], a, key);
      BarredRun(Step(s, actions[0]), actions[1..], a, key);
    }
  }

  lemma BarredNow(s: State, a: nat, key: string)
    requires Barred(s, a, key)
    ensures !WroteFor(s.log, a)
  {
  }

  // ------------------------------------------------- proceeding to the writer

  lemma {:induction false} ForwardIsRun(s: State, account: int, n: nat)
    ensures Run(s, seq(n, i => Advance(account, AccountProgress.OK))) == Forward(s, account, n)
    decreases n
  {
    hide Step;
    if n > 0 {
      var actions := seq(n, i => Advance(account, AccountProgress.OK));
      assert actions[1..] == seq(n - 1, i => Advance(account, AccountProgress.OK));
      ForwardIsRun(Step(s, actions[0]), account, n - 1);
    }
  }

  /** A state of the account that the winner would change. */
  function Unmatched(d: DesiredState): AccountState
  {
    match d
    case Schedulable(value) => AccountState(!value, None)
    case LoadFactor(None) => AccountState(true, Some(1))
    case _ => AccountState(true, None)
  }

  /** What the section does after its decision to proceed: nine good steps on an
      account that does not match end with a write. */
  function Onward(account: int, d: DesiredState): seq<Action>
  {
    [Drift(account, Unmatched(d))] + seq(10, i => Advance(account, AccountProgress.OK))
  }

  lemma ProceedWrites(t: State, account: int, row: Row, winner: Intent)
    requires account in t.sections && t.sections[account].job.Submit? && t.sections[account].key !in t.journal
    requires t.sections[account].phase == Preparing(Proceed(winner), row, winner) && AccountIntent(winner)
    ensures var u := Run(t, Onward(account, winner.desired));
            && u.log != [] && u.log[|u.log| - 1].Wrote?
            && u.log[|u.log| - 1].author == Some(t.sections[account].job.token) && u.log[|u.log| - 1].intent == winner
  {
    hide Step, Shows, Unmatched, AccountIntent, Run, Forward, Matches;
    var b := Unmatched(winner.desired);
    var t1 := Step(t, Drift(account, b));
    var t2 := Step(t1, Advance(account, AccountProgress.OK));
    DriftThenPrepare(t, account, row, winner);
    PreparedWrites(t2, account, t.sections[account], row, b, winner);
    ForwardStep(t1, account, 10);
    ForwardIsRun(t1, account, 10);
    RunFirst(t, Drift(account, b), seq(10, i => Advance(account, AccountProgress.OK)));
  }

  lemma RunFirst(s: State, x: Action, more: seq<Action>)
    ensures Run(s, [x] + more) == Run(Step(s, x), more)
  {
    hide Step;
    assert ([x] + more)[1..] == more;
  }

  lemma DriftThenPrepare(t: State, account: int, row: Row, winner: Intent)
    requires account in t.sections && t.sections[account].job.Submit? && t.sections[account].key !in t.journal
    requires t.sections[account].phase == Preparing(Proceed(winner), row, winner) && AccountIntent(winner)
    ensures var b := Unmatched(winner.desired);
            var t2 := Step(Step(t, Drift(account, b)), Advance(account, AccountProgress.OK));
            && !Matches(b, winner.desired)
            && Shows(t2, account, t.sections[account].(phase := Working(Save(Some(Reading), None), row.(status := Validating), winner)), row, b)
  {
    DesiredFitsOperation(winner);
    hide AccountIntent;
  }

  lemma PreparedWrites(t2: State, account: int, sec: Section, row: Row, b: AccountState, winner: Intent)
    requires Shows(t2, account, sec.(phase := Working(Save(Some(Reading), None), row.(status := Validating), winner)), row, b)
    requires !Matches(b, winner.desired)
    ensures var u := Forward(t2, account, 9);
            && u.log != [] && u.log[|u.log| - 1].Wrote?
            && u.log[|u.log| - 1].author == TokenOf(sec.job) && u.log[|u.log| - 1].intent == winner
  {
    var begun := row.(status := Validating);
    var working := sec.(phase := Working(Save(Some(Reading), None), begun, winner));
    hide Step, StoreWinning, Matches, Shows, Forward;
    UpToTheChoice(t2, account, working, row, b, begun, winner);
    var chosen := begun.(before := Some(b), winning := StoreWinning(winner));
    ChoiceToWrite(Forward(t2, account, 6), account, working, b, chosen, winner);
    var v := Forward(Forward(t2, account, 6), account, 2);
    LastStepWrites(v, account, working.(phase := Working(Writing(b), Raised(chosen), winner)), Raised(chosen), b);
    ForwardAdds(t2, account, 6, 2);
    ForwardAdds(t2, account, 8, 1);
    ForwardStep(v, account, 1);
    ForwardStep(t2, account, 9);
    ForwardNone(Step(v, Advance(account, AccountProgress.OK)), account);
  }

  lemma ForwardNone(s: State, account: int)
    ensures Forward(s, account, 0) == s
  {
  }

  lemma LastStepWrites(v: State, account: int, sec: Section, stored: Row, b: AccountState)
    requires Shows(v, account, sec, stored, b) && sec.phase.Working? && sec.phase.at.Writing?
    ensures var u := Step(v, Advance(account, AccountProgress.OK));
            && u.log == v.log + [u.log[|v.log|]] && u.log[|v.log|].Wrote?
            && u.log[|v.log|].author == TokenOf(sec.job) && u.log[|v.log|].intent == sec.phase.winner
  {
    hide Matches, StoreWinning, Effect;
  }

  // -------------------------------------------------------------- exactly when

  ghost predicate CanWrite(t: State, a: nat)
  {
    exists more :: WritesAfter(t, a, more)
  }

  ghost predicate WritesAfter(t: State, a: nat, more: seq<Action>)
  {
    WroteFor(Run(t, more).log, a)
  }

  /** Whatever its rivals: once a command's candidates are on the table, it can
      still reach the writer exactly when its request key is free and the top
      candidate of its conflict key carries its intent ID. */
  lemma ReachesWriterExactly(s: State, account: int, overrides: seq<Intent>, results: seq<Arbitration>)
    requires Safe(s) && Orderly(s) && account in s.sections
    requires s.sections[account].phase.Deciding? && s.sections[account].job.Submit?
    requires Arbitrated(s.sections[account].phase.now, multiset(Candidates(s, s.sections[account], overrides)), results)
    ensures var sec := s.sections[account];
            var own := sec.job.sub.intent;
            var m := multiset(Candidates(s, sec, overrides));
            var t := Step(s, Action.Arbitration(account, overrides, results));
            CanWrite(t, sec.job.token) <==> sec.key !in s.journal && exists w :: Top(sec.phase.now, m, KeyOf(own), w) && w.id == own.id
  {
    var sec := s.sections[account];
    var own, token := sec.job.sub.intent, sec.job.token;
    var m := multiset(Candidates(s, sec, overrides));
    var t := Step(s, Action.Arbitration(account, overrides, results));
    hide Safe, Candidates, Arbitrated, Decide, Top, NewRow, QueueMirrors, QueueOk;
    ProceedsExactly(sec.phase.now, m, results, own);
    ArbitratingSafe(s, account, overrides, results);
    StepOrderly(s, Action.Arbitration(account, overrides, results));
    var d := Decide(results, own);
    var w := WinnerOf(d, own);
    assert t.sections[account] == sec.(phase := Preparing(d, NewRow(account, sec.job.sub, w), w)) && t.journal == s.journal;
    UnwrittenYet(s, account);
    if sec.key in s.journal {
      NowBarred(s, t, account, token);
      forall more ensures !WritesAfter(t, token, more) { BarredRun(t, more, token, sec.key); }
    } else if d.Proceed? {
      PreparedIsAdmissible(t, account);
      ProceedWrites(t, account, NewRow(account, sec.job.sub, w), w);
      var u := Run(t, Onward(account, w.desired));
      assert u.log[|u.log| - 1] in u.log;
      assert WritesAfter(t, token, Onward(account, w.desired));
    } else {
      NowPast(s, t, account, overrides, results);
      forall more ensures !WritesAfter(t, token, more) { NeverProceedsNeverWrites(t, more, token, d); }
    }
  }

  lemma PreparedIsAdmissible(t: State, account: int)
    requires Safe(t) && account in t.sections && t.sections[account].phase.Preparing?
    ensures AccountIntent(t.sections[account].phase.winner)
  {
    hide RowsOk, Unused, WaitingOk, LogOk, AccountIntent;
    assert SectionOk(t.journal, t.log, account, t.sections[account]);
  }

  /** An undecided command has written nothing. */
  lemma UnwrittenYet(s: State, account: int)
    requires Safe(s) && Tokens(s) && account in s.sections && s.sections[account].phase.Deciding? && s.sections[account].job.Submit?
    ensures !WroteFor(s.log, s.sections[account].job.token)
  {
    hide RowsOk, SectionsOk, Unused, WaitingOk, LogOk, WroteFor;
    WroteIsDecided(s.log, s.sections[account].job.token);
  }

  lemma WroteIsDecided(log: seq<Event>, a: nat)
    requires LogOk(log)
    ensures WroteFor(log, a) ==> DecidedIn(log, a)
  {
    hide LogOk;
    if WroteFor(log, a) {
      var e :| e in log && e.Wrote? && e.author == Some(a);
      WriteWasDecided(log, e, a, e.intent);
    }
  }

  lemma NowBarred(s: State, t: State, account: int, token: nat)
    requires Tokens(s) && account in s.sections && s.sections[account].job.Submit? && s.sections[account].job.token == token
    requires s.sections[account].key in s.journal && !WroteFor(s.log, token)
    requires t.journal == s.journal && t.queue == s.queue && t.waiting == s.waiting
    requires |t.log| == |s.log| + 1 && t.log == s.log + [t.log[|s.log|]] && !t.log[|s.log|].Wrote?
    requires account in t.sections && t.sections == s.sections[account := t.sections[account]]
    requires t.sections[account].phase.Preparing? && t.sections[account].job == s.sections[account].job
             && t.sections[account].key == s.sections[account].key
    ensures Barred(t, token, s.sections[account].key)
  {
    hide DecidedIn;
  }

  lemma NowPast(s: State, t: State, account: int, overrides: seq<Intent>, results: seq<Arbitration>)
    requires Tokens(s) && account in s.sections && s.sections[account].phase.Deciding? && s.sections[account].job.Submit?
    requires t == Arbitrating(s, account, overrides, results) && t != s
    ensures Past(t, s.sections[account].job.token, Decide(results, s.sections[account].job.sub.intent))
  {
    hide Arbitrated, Candidates, Decide, NewRow;
    var a := s.sections[account].job.token;
    assert !DecidedIn(s.log, a);
  }

  lemma NeverProceedsNeverWrites(t: State, more: seq<Action>, a: nat, d: Decision)
    requires Safe(t) && Past(t, a, d) && !d.Proceed?
    ensures !WroteFor(Run(t, more).log, a)
  {
    RunSafe(t, more);
    PastRun(t, more, a, d);
    var log := Run(t, more).log;
    assert LogOk(log);
    hide Run, Safe, LogOk;
    if e :| e in log && e.Wrote? && e.author == Some(a) {
      WriteWasDecided(log, e, a, e.intent);
    }
  }

  // --------------------------------------------------------------- witnesses

  /** The arbitration of two intents of one key that compete. */
  function Pair(x: Intent, y: Intent): Arbiter.Arbitration
  {
    Arbiter.Arbitration(KeyOf(x), Some(x), [Outcome(y, SupersededReason(x, y))], [], Some(SelectedReason))
  }

  function Sole(x: Intent): Arbiter.Arbitration
  {
    Arbiter.Arbitration(KeyOf(x), Some(x), [], [], Some(SelectedReason))
  }

  /** An active intent that alone uses its idempotency key represents it. */
  lemma AloneRepresents(now: int, m: multiset<Intent>, x: Intent)
    requires x in m && Active(now, x) && forall y | y in m && y.idempotencyKey == x.idempotencyKey :: y == x
    ensures Represents(now, m, x) && Eligible(now, m, x) && !Conflicted(now, m, x.idempotencyKey)
  {
    hide Active, Signature;
    forall a, b ensures !Clash(now, m, a, b, x.idempotencyKey) {}
    RepresentativeTotal(x, x);
  }

  lemma SoleIsArbitrated(now: int, x: Intent)
    requires Active(now, x)
    ensures Arbitrated(now, multiset{x}, [Sole(x)])
  {
    var m, r := multiset{x}, Sole(x);
    AloneRepresents(now, m, x);
    hide Active, Represents, Eligible, Conflicted, IgnoredReason, CandidateWins;
    assert CandidatesOf(r) == [x] && IntentsOf(r.ignored) == [];
    forall y | Eligible(now, m, y) ensures HasKey([x], y.idempotencyKey) {
      ArbiterTies.EligibleIsGiven(now, m, y);
      assert x in [x];
    }
    forall y ensures Copies(r, y) == if KeyOf(y) == KeyOf(x) then m[y] else 0 {}
    assert Settled(now, m, r);
    hide Settled;
    assert x in m;
    ArbiterTies.AloneIsArbitrated(now, m, r, KeyOf(x));
  }

  lemma PairIsArbitrated(now: int, x: Intent, y: Intent)
    requires Active(now, x) && Active(now, y) && KeyOf(x) == KeyOf(y)
    requires x.idempotencyKey != y.idempotencyKey && CandidateWins(x, y)
    ensures Arbitrated(now, multiset{x, y}, [Pair(x, y)])
  {
    var m := multiset{x, y};
    AloneRepresents(now, m, x);
    AloneRepresents(now, m, y);
    hide Active, Represents, Eligible, Conflicted, CandidateWins, Settled, Arbitrated;
    PairIsSettled(now, x, y);
    assert x in m;
    ArbiterTies.AloneIsArbitrated(now, m, Pair(x, y), KeyOf(x));
  }

  lemma PairIsSettled(now: int, x: Intent, y: Intent)
    requires Represents(now, multiset{x, y}, x) && Represents(now, multiset{x, y}, y) && KeyOf(x) == KeyOf(y)
    requires x.idempotencyKey != y.idempotencyKey && CandidateWins(x, y)
    ensures Settled(now, multiset{x, y}, Pair(x, y))
  {
    var m, r := multiset{x, y}, Pair(x, y);
    hide Represents, Eligible, IgnoredReason, CandidateWins, SupersededReason, OutcomeLess;
    assert CandidatesOf(r) == [x, y] && IntentsOf(r.ignored) == [];
    forall z | Eligible(now, m, z) ensures HasKey([x, y], z.idempotencyKey) {
      ArbiterTies.EligibleIsGiven(now, m, z);
      assert x in [x, y] && y in [x, y];
    }
    forall z ensures Copies(r, z) == if KeyOf(z) == KeyOf(x) then m[z] else 0 {
      assert multiset([x, y]) == m;
    }
  }
}

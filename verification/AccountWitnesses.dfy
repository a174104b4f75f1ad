/** Two runs in which the command that loses the arbitration order reaches the
    writer: through a rival with the same intent ID, and past a rival with the
    same request key. */
module AccountWitnesses {
  import opened Options
  import opened Intents
  import opened Arbiter
  import opened WinningIntent
  import opened CandidateQueue
  import opened AccountJournal
  import opened AccountJournalSafety
  import opened AccountOverlap
  import opened AccountRivals
  import AccountProgress
  import Text

  const ACCOUNT := 1
  const NOW := 5
  const OLDER := Intent("i", "ka", AdminUI, ManualHold, AccountResource(ACCOUNT), SetAccountSchedulable, Schedulable(true),
                        "actor", "reason", [], "", "", 1, None)
  const NEWER := OLDER.(idempotencyKey := "kb", desired := Schedulable(false), createdAt := 2)
  const OTHER := NEWER.(id := "j")

  lemma Admissible()
    ensures AccountIntent(OLDER) && AccountIntent(NEWER) && AccountIntent(OTHER)
    ensures Active(NOW, OLDER) && Active(NOW, NEWER) && Active(NOW, OTHER)
  {
    Text.TrimSolid("i");
    Text.TrimSolid("j");
    Text.TrimSolid("ka");
    Text.TrimSolid("kb");
    Text.TrimSolid("actor");
    Text.TrimSolid("reason");
    hide Text.Trim;
  }

  lemma NewerWins()
    ensures CandidateWins(NEWER, OLDER) && CandidateWins(OTHER, OLDER)
    ensures KeyOf(NEWER) == KeyOf(OLDER) == KeyOf(OTHER) && SlotOf(NEWER) == SlotOf(OLDER) == SlotOf(OTHER)
    ensures OLDER.idempotencyKey != NEWER.idempotencyKey && OTHER.idempotencyKey != OLDER.idempotencyKey
  {
    assert "ka"[1] != "kb"[1];
  }

  // ------------------------------------------------- the run both share

  function Both(a: Submission, b: Submission): seq<Action>
  {
    [Enqueue(a)] + [Enqueue(b)]
  }

  /** The first command locks, finds nothing under its key, and is arbitrated. */
  function FirstRuns(results: seq<Arbiter.Arbitration>, d: DesiredState): seq<Action>
  {
    [Begin(1)] + ([Advance(ACCOUNT, AccountProgress.OK)] + ([Action.Arbitration(ACCOUNT, [], results)] + Onward(ACCOUNT, d)))
  }

  function Queued(a: Submission, b: Submission): State
  {
    Start(map[], NOW).(
      queue := Queue(2, map[SlotOf(a.intent) := [EntryOf(1, a), EntryOf(2, b)]]),
      waiting := map[1 := a, 2 := b])
  }

  function Arbitrable(a: Submission, b: Submission): State
  {
    Queued(a, b).(waiting := map[2 := b],
                  sections := map[ACCOUNT := Section(Submit(1, a), JournalKey(a), Deciding(NOW))],
                  log := [Began(ACCOUNT)])
  }

  predicate Placeable(a: Submission, b: Submission)
  {
    && AccountIntent(a.intent) && AccountIntent(b.intent)
    && SlotOf(a.intent) == SlotOf(b.intent) && AccountOf(a.intent) == ACCOUNT
  }

  lemma BothQueue(a: Submission, b: Submission)
    requires Placeable(a, b)
    ensures Run(Start(map[], NOW), Both(a, b)) == Queued(a, b)
    ensures Undecided(Queued(a, b), 1, a) && Undecided(Queued(a, b), 2, b)
  {
    hide AccountIntent, QueueRequestKey;
    var s := Start(map[], NOW);
    var s1 := Step(s, Enqueue(a));
    assert Items(s.queue, SlotOf(a.intent)) == [];
    assert Items(s.queue, SlotOf(a.intent)) + [EntryOf(1, a)] == [EntryOf(1, a)];
    assert s1.queue == Queue(1, map[SlotOf(a.intent) := [EntryOf(1, a)]]);
    var s2 := Step(s1, Enqueue(b));
    assert Items(s1.queue, SlotOf(b.intent)) == [EntryOf(1, a)];
    assert [EntryOf(1, a)] + [EntryOf(2, b)] == [EntryOf(1, a), EntryOf(2, b)];
    assert s2.queue == Queue(2, map[SlotOf(a.intent) := [EntryOf(1, a), EntryOf(2, b)]]);
    assert s1.waiting == map[1 := a];
    assert s2.waiting == map[1 := a, 2 := b];
    assert s2 == Queued(a, b);
    hide Step;
    RunFirst(s, Enqueue(a), [Enqueue(b)]);
    assert [Enqueue(b)] == [Enqueue(b)] + [];
    RunFirst(s1, Enqueue(b), []);
  }

  lemma FirstLocks(a: Submission, b: Submission)
    requires Placeable(a, b)
    ensures Step(Step(Queued(a, b), Begin(1)), Advance(ACCOUNT, AccountProgress.OK)) == Arbitrable(a, b)
  {
    hide AccountIntent, JournalKey;
    var s1 := Step(Queued(a, b), Begin(1));
    assert s1.sections == map[ACCOUNT := Section(Submit(1, a), JournalKey(a), Lookup)];
    assert s1.log == [Began(ACCOUNT)];
  }

  /** What the first command sees of the second: nothing if they share a request key. */
  function Rivals(a: Submission, b: Submission): seq<Intent>
  {
    (if QueueRequestKey(b) == QueueRequestKey(a) then [] else [b.intent]) + [a.intent]
  }

  lemma FirstSees(a: Submission, b: Submission)
    requires Placeable(a, b)
    ensures Candidates(Arbitrable(a, b), Arbitrable(a, b).sections[ACCOUNT], []) == Rivals(a, b)
  {
    hide AccountIntent, QueueRequestKey;
    var items := [EntryOf(1, a), EntryOf(2, b)];
    var e := EntryOf(1, a);
    assert items[1..] == [EntryOf(2, b)] && items[1..][1..] == [];
    assert CompetingIn(items, e) == CompetingIn(items[1..], e);
    assert CompetingIn(items[1..], e) == if QueueRequestKey(b) == QueueRequestKey(a) then [] else [b.intent] + CompetingIn([], e);
    assert Items(Arbitrable(a, b).queue, SlotOf(a.intent)) == items;
  }

  // -------------------------------------------------- what the rest can log

  predicate OneSection(actions: seq<Action>, account: int)
  {
    forall x | x in actions :: x.Drift? || (x.Advance? && x.account == account)
  }

  lemma AdvanceLogs(s: State, account: int, o: Reply, b: nat)
    requires account in s.sections && s.sections[account].job.Submit? && s.sections[account].job.token != b
    ensures var t := Advanced(s, account, o);
            && (forall e | e in t.log :: e in s.log || (!e.Decided? && !(e.Finished? && e.token == b)))
            && (account in t.sections ==> t.sections[account].job == s.sections[account].job)
  {
    hide Work, RestoreIntent, RequestSignature, FinishIn;
    var sec := s.sections[account];
    if sec.phase.Working? && sec.key in s.journal {
      var present := if account in s.upstream then Some(s.upstream[account]) else None;
      WorkNeverRestarts(account, sec, s.now, o, present, s.journal[sec.key]);
      WorkNeverFinishes(account, sec, s.now, o, present, s.journal[sec.key]);
    }
  }

  lemma WorkNeverFinishes(account: int, sec: Section, now: int, o: Reply, present: Option<AccountState>, stored: Row)
    requires sec.phase.Working?
    ensures var m := Work(account, sec, now, o, present, stored);
            m.event.Some? ==> !m.event.value.Finished?
  {
    hide Matches, Expired, StoreWinning;
  }

  /** A section on its own decides nothing more, and only finishes its own command. */
  lemma {:induction false} OneSectionLogs(s: State, actions: seq<Action>, account: int, b: nat)
    requires OneSection(actions, account)
    requires account in s.sections ==> s.sections[account].job.Submit? && s.sections[account].job.token != b
    ensures forall e | e in Run(s, actions).log :: e in s.log || (!e.Decided? && !(e.Finished? && e.token == b))
    decreases |actions|
  {
    if actions != [] {
      var t := Step(s, actions[0]);
      if actions[0].Advance? && account in s.sections { AdvanceLogs(s, account, actions[0].outcome, b); }
      hide Step, Advanced;
      OneSectionLogs(t, actions[1..], account, b);
    }
  }

  lemma OnwardIsOneSection(account: int, d: DesiredState)
    ensures OneSection(Onward(account, d), account)
  {
  }

  // --------------------------------------------------------- the shared part

  /** If the first command is told to proceed with `w`, it writes `w`, while the
      second is still waiting. */
  lemma FirstReaches(a: Submission, b: Submission, results: seq<Arbiter.Arbitration>, w: Intent)
    requires Placeable(a, b) && AccountIntent(w)
    requires Arbitrated(NOW, multiset(Rivals(a, b)), results) && Decide(results, a.intent) == Proceed(w)
    ensures var u := Run(Queued(a, b), FirstRuns(results, w.desired));
            && (exists e | e in u.log :: e.Wrote? && e.author == Some(1) && e.intent == w)
            && EndsRetained(u.log, 2)
            && (forall e | e in u.log && e.Decided? && e.token == 1 :: e.now == NOW && e.candidates == Rivals(a, b))
    ensures CrashFree(FirstRuns(results, w.desired))
  {
    hide AccountIntent, Arbitrated, Decide, NewRow, Rivals, JournalKey, Candidates, Step, Run;
    FirstLocks(a, b);
    FirstSees(a, b);
    var s := Arbitrable(a, b);
    ArbitrationStep(s, a, results, w, Rivals(a, b));
    var t := Step(s, Action.Arbitration(ACCOUNT, [], results));
    ProceedWrites(t, ACCOUNT, NewRow(ACCOUNT, a, w), w);
    OnwardIsOneSection(ACCOUNT, w.desired);
    OneSectionLogs(t, Onward(ACCOUNT, w.desired), ACCOUNT, 2);
    RunFirst(s, Action.Arbitration(ACCOUNT, [], results), Onward(ACCOUNT, w.desired));
    var rest := [Action.Arbitration(ACCOUNT, [], results)] + Onward(ACCOUNT, w.desired);
    RunFirst(Step(Queued(a, b), Begin(1)), Advance(ACCOUNT, AccountProgress.OK), rest);
    RunFirst(Queued(a, b), Begin(1), [Advance(ACCOUNT, AccountProgress.OK)] + rest);
    var u := Run(t, Onward(ACCOUNT, w.desired));
    assert u == Run(Queued(a, b), FirstRuns(results, w.desired));
    assert u.log[|u.log| - 1] in u.log;
  }

  lemma ArbitrationStep(s: State, a: Submission, results: seq<Arbiter.Arbitration>, w: Intent, candidates: seq<Intent>)
    requires ACCOUNT in s.sections && s.sections[ACCOUNT] == Section(Submit(1, a), JournalKey(a), Deciding(NOW))
    requires Candidates(s, s.sections[ACCOUNT], []) == candidates && s.log == [Began(ACCOUNT)] && s.journal == map[]
    requires Arbitrated(NOW, multiset(candidates), results) && Decide(results, a.intent) == Proceed(w)
    ensures var t := Step(s, Action.Arbitration(ACCOUNT, [], results));
            && ACCOUNT in t.sections && t.sections[ACCOUNT].job == Submit(1, a) && t.journal == map[]
            && t.sections[ACCOUNT].phase == Preparing(Proceed(w), NewRow(ACCOUNT, a, w), w)
            && t.log == [Began(ACCOUNT)] + [Decided(1, NOW, candidates, Proceed(w))]
  {
    hide Arbitrated, Decide, NewRow, JournalKey, Candidates;
  }

  // -------------------------------------------------------------- shared ID

  const LOSER := Submission(OLDER, "", "")
  const NAMESAKE := Submission(NEWER, "", "")

  lemma RequestKeys()
    ensures QueueRequestKey(LOSER) == "ka" && QueueRequestKey(NAMESAKE) == "kb"
    ensures QueueRequestKey(RETRY) == "r" && QueueRequestKey(RIVAL) == "r"
  {
    Text.TrimSolid("ka");
    Text.TrimSolid("kb");
    Text.TrimSolid("r");
  }

  /** Everything that keeps the loser from writing its own intent holds, and still
      it reaches the writer: the better command has the same intent ID, so the
      loser proceeds on its behalf. */
  lemma SharedIdReachesWriter()
    ensures var s := Run(Start(map[], NOW), Both(LOSER, NAMESAKE));
            var actions := FirstRuns([Pair(NEWER, OLDER)], NEWER.desired);
            var log := Run(s, actions).log;
            && Undecided(s, 1, LOSER) && Undecided(s, 2, NAMESAKE) && CrashFree(actions)
            && SlotOf(OLDER) == SlotOf(NEWER) && QueueRequestKey(LOSER) != QueueRequestKey(NAMESAKE)
            && CandidateWins(NEWER, OLDER) && EndsRetained(log, 2) && RivalStands(log, 1, NEWER)
            && WroteFor(log, 1)
  {
    hide AccountIntent, Active, Run, Arbitrated, Decide, Undecided, CandidateWins, Conflicted, FirstRuns, QueueRequestKey, Both, Queued;
    Admissible();
    NewerWins();
    RequestKeys();
    BothQueue(LOSER, NAMESAKE);
    PairIsArbitrated(NOW, NEWER, OLDER);
    var results := [Pair(NEWER, OLDER)];
    assert Rivals(LOSER, NAMESAKE) == [NEWER, OLDER];
    assert multiset([NEWER, OLDER]) == multiset{NEWER, OLDER};
    assert Decide(results, OLDER) == Proceed(NEWER) by { DecideFinds(results, Pair(NEWER, OLDER), OLDER); }
    FirstReaches(LOSER, NAMESAKE, results, NEWER);
    NewerStands();
  }

  lemma NewerStands()
    ensures !Expired(NEWER, NOW) && !Conflicted(NOW, multiset([NEWER, OLDER]), "kb")
    ensures !Expired(OTHER, NOW) && !Conflicted(NOW, multiset([OLDER]), "kb")
  {
    NewerWins();
    hide Active, Signature;
    forall x, y ensures !Clash(NOW, multiset([NEWER, OLDER]), x, y, "kb") {}
    forall x, y ensures !Clash(NOW, multiset([OLDER]), x, y, "kb") {}
  }

  // ----------------------------------------------------------- shared request

  const RETRY := Submission(OLDER, "r", "")
  const RIVAL := Submission(OTHER, "r", "")

  /** If the better command carries the same request key, the loser does not see
      it as a rival: locking first, it writes its own intent. */
  lemma SharedRequestReachesWriter()
    ensures var s := Run(Start(map[], NOW), Both(RETRY, RIVAL));
            var actions := FirstRuns([Sole(OLDER)], OLDER.desired);
            var log := Run(s, actions).log;
            && Undecided(s, 1, RETRY) && Undecided(s, 2, RIVAL) && CrashFree(actions)
            && SlotOf(OLDER) == SlotOf(OTHER) && QueueRequestKey(RETRY) == QueueRequestKey(RIVAL)
            && CandidateWins(OTHER, OLDER) && EndsRetained(log, 2) && RivalStands(log, 1, OTHER)
            && exists e | e in log :: e.Wrote? && e.author == Some(1) && e.intent == OLDER
  {
    hide AccountIntent, Active, Run, Arbitrated, Decide, Undecided, CandidateWins, Conflicted, FirstRuns, QueueRequestKey, Both, Queued;
    Admissible();
    NewerWins();
    RequestKeys();
    BothQueue(RETRY, RIVAL);
    SoleIsArbitrated(NOW, OLDER);
    var results := [Sole(OLDER)];
    assert Rivals(RETRY, RIVAL) == [OLDER];
    assert multiset([OLDER]) == multiset{OLDER};
    assert Decide(results, OLDER) == Proceed(OLDER) by { DecideFinds(results, Sole(OLDER), OLDER); }
    FirstReaches(RETRY, RIVAL, results, OLDER);
    NewerStands();
  }
}

/** Why journal rows end as they do: every terminal row was closed by a section
    whose own reads, guards, writes or decision call for that status. */
module AccountJournalOutcomes {
  import opened Options
  import opened Intents
  import opened Arbiter
  import opened WinningIntent
  import opened CandidateQueue
  import opened AccountJournal
  import opened AccountJournalSafety

  // -------------------------------------------------------- reading the log

  /** An event of a section of the account other than its beginning and closing. */
  predicate Concerns(e: Event, account: int)
  {
    && (e.Read? || e.Passed? || e.Missed? || e.Unread? || e.Denied? || e.Faulted? || e.Weighed? || e.Wrote?)
    && e.account == account
  }

  /** The last such event of the current section. */
  function LastIn(log: seq<Event>, account: int): Option<Event>
  {
    if log == [] then None
    else
      var e := log[|log| - 1];
      if Concerns(e, account) then Some(e)
      else if e == Began(account) then None
      else LastIn(log[..|log| - 1], account)
  }

  /** When the current section last weighed the winner's expiry. */
  function WeighedAt(log: seq<Event>, account: int): Option<int>
  {
    if log == [] then None
    else
      var e := log[|log| - 1];
      if e.Weighed? && e.account == account then Some(e.now)
      else if e == Began(account) then None
      else WeighedAt(log[..|log| - 1], account)
  }

  predicate DecidedAs(log: seq<Event>, token: nat, d: Decision)
  {
    exists e | e in log :: e.Decided? && e.token == token && e.decision == d
  }

  predicate Has(a: AccountState, d: DesiredState)
  {
    (d.Schedulable? && a.schedulable == d.value) || (d.LoadFactor? && a.loadFactor == d.factor)
  }

  predicate Late(w: Intent, now: int)
  {
    w.expiresAt.Some? && w.expiresAt.value <= now
  }

  // ------------------------------------------------------------ explanations

  /** The section last read a state that has what the row's winner asks for. */
  ghost predicate Shown(log: seq<Event>, account: int, key: string, row: Row)
  {
    && row.after.Some? && Fresh(log, account, key) == row.after
    && var w := RestoreIntent(account, row.winning);
       w.Some? && Has(row.after.value, w.value.desired)
  }

  predicate Blocks(e: Option<Event>)
  {
    e.Some? && (e.value.Denied? || e.value.Missed?)
  }

  predicate Fails(e: Option<Event>)
  {
    e.Some? && (e.value.Unread? || e.value.Faulted? || (e.value.Wrote? && e.value.answer in {Block, Definite}))
  }

  /** What a section must have seen, or been told, to close its row like this. */
  ghost predicate Closable(log: seq<Event>, account: int, key: string, row: Row, author: Option<nat>)
  {
    match row.status
    case Applied => Shown(log, account, key, row)
    case AppliedNoop => Shown(log, account, key, row) && Guarded(log, account) && Writes(log, key) == 0
    case Blocked => Blocks(LastIn(log, account))
    case Failed => Fails(LastIn(log, account))
    case Superseded => author.Some? && (exists w :: DecidedAs(log, author.value, Yield(w))) && Writes(log, key) == 0
    case ExpiredStatus =>
      if author.Some? then DecidedAs(log, author.value, Lapse) && Writes(log, key) == 0
      else
        && LastIn(log, account).Some? && LastIn(log, account).value.Weighed?
        && var w := RestoreIntent(account, row.winning);
           w.Some? && Late(w.value, LastIn(log, account).value.now)
    case _ => false
  }

  ghost predicate Explained(before: seq<Event>, e: Event)
  {
    match e
    case Closed(account, key, author, row) => row.account == account && Closable(before, account, key, row, author)
    case Wrote(account, key, author, intent, _, _, winning, _) =>
      if author.Some? then exists at :: DecidedTimely(before, author.value, intent, at)
      else
        && RestoreIntent(account, winning) == Some(intent)
        && WeighedAt(before, account).Some? && !Late(intent, WeighedAt(before, account).value)
    case _ => true
  }

  /** The command was told to proceed with the intent at a time when it had not expired. */
  predicate DecidedTimely(log: seq<Event>, token: nat, i: Intent, at: int)
  {
    !Late(i, at) && exists e | e in log :: e.Decided? && e.token == token && e.decision == Proceed(i) && e.now == at
  }

  ghost predicate LogExplained(log: seq<Event>)
  {
    && (forall n | 0 <= n < |log| :: Explained(log[..n], log[n]))
    && (forall e | e in log && e.Decided? && e.decision.Proceed? :: !Late(e.decision.winner, e.now))
  }

  predicate ClosedAs(log: seq<Event>, key: string, row: Row)
  {
    exists e | e in log :: e.Closed? && e.key == key && e.row == row
  }

  ghost predicate RowsExplained(journal: map<string, Row>, log: seq<Event>)
  {
    forall key | key in journal && Terminal(journal[key].status) :: ClosedAs(log, key, journal[key])
  }

  /** The operation that follows a save, or the one at hand. */
  function Upcoming(at: Pc): Pc
  {
    if at.Save? && at.next.Some? then at.next.value else at
  }

  /** The recovery is past weighing its winner, and on its way to a write. */
  predicate Retrying(at: Pc)
  {
    Upcoming(at).RecoverGuardAgain? || Upcoming(at).RecoverWrite?
  }

  ghost predicate WorkExplained(log: seq<Event>, account: int, key: string, job: Job, at: Pc, row: Row, winner: Intent)
  {
    && (at.Commit? ==> Closable(log, account, key, row, TokenOf(job)))
    && (job.Recover? ==>
          && RestoreIntent(account, row.winning) == Some(winner)
          && (Retrying(at) ==> WeighedAt(log, account).Some? && !Late(winner, WeighedAt(log, account).value)))
    && (job.Submit? ==> !Retrying(at) && !Recovers(at))
    && (job.Recover? ==> !Submits(at))
  }

  predicate Recovers(at: Pc)
  {
    var next := Upcoming(at);
    next.RecoverRead? || next.RecoverControl? || next.RecoverGuard? || next.RecoverDecide?
  }

  predicate Submits(at: Pc)
  {
    var next := Upcoming(at);
    next.Reading? || next.Controlling? || next.Guarding? || next.Chosen? || next.Writing? || next.ReadingBack? || next.WritingAgain?
  }

  ghost predicate SectionExplained(log: seq<Event>, account: int, sec: Section)
  {
    match sec.phase
    case Preparing(d, _, _) => sec.job.Submit? && DecidedAs(log, sec.job.token, d)
    case Working(at, row, winner) => WorkExplained(log, account, sec.key, sec.job, at, row, winner)
    case _ => true
  }

  ghost predicate AllExplained(s: State)
  {
    && LogExplained(s.log) && RowsExplained(s.journal, s.log)
    && forall account | account in s.sections :: SectionExplained(s.log, account, s.sections[account])
  }

  // ----------------------------------------------------------- log extension

  lemma DecisionStays(log: seq<Event>, e: Event, token: nat, d: Decision)
    ensures DecidedAs(log, token, d) ==> DecidedAs(log + [e], token, d)
    ensures e.Decided? && e.token == token && e.decision == d ==> DecidedAs(log + [e], token, d)
  {
    if DecidedAs(log, token, d) {
      var x :| x in log && x.Decided? && x.token == token && x.decision == d;
      assert x in log + [e];
    }
    assert e in log + [e];
  }

  lemma ClosedStays(log: seq<Event>, e: Event, key: string, row: Row)
    ensures ClosedAs(log, key, row) ==> ClosedAs(log + [e], key, row)
    ensures e.Closed? && e.key == key && e.row == row ==> ClosedAs(log + [e], key, row)
  {
    if ClosedAs(log, key, row) {
      var x :| x in log && x.Closed? && x.key == key && x.row == row;
      assert x in log + [e];
    }
    assert e in log + [e];
  }

  lemma NextEvent(log: seq<Event>, e: Event, account: int)
    ensures LastIn(log + [e], account)
         == (if Concerns(e, account) then Some(e) else if e == Began(account) then None else LastIn(log, account))
    ensures WeighedAt(log + [e], account)
         == (if e.Weighed? && e.account == account then Some(e.now) else if e == Began(account) then None else WeighedAt(log, account))
  {
    Extended(log, e);
  }

  /** An event of another account, or of none. */
  predicate Elsewhere(e: Event, account: int)
  {
    e.Decided? || e.Finished? || e.account != account
  }

  lemma ElsewhereKeeps(log: seq<Event>, e: Event, account: int, key: string, row: Row, author: Option<nat>)
    requires Elsewhere(e, account) && !(e.Wrote? && e.key == key)
    ensures Closable(log, account, key, row, author) ==> Closable(log + [e], account, key, row, author)
    ensures WeighedAt(log + [e], account) == WeighedAt(log, account)
  {
    hide RestoreIntent, Has, DecidedAs;
    NextEvent(log, e, account);
    ForeignKeeps(log, e, account, key);
    if Closable(log, account, key, row, author) && author.Some? {
      if row.status.Superseded? {
        var w :| DecidedAs(log, author.value, Yield(w));
        DecisionStays(log, e, author.value, Yield(w));
      }
      DecisionStays(log, e, author.value, Lapse);
    }
  }

  lemma SectionUndisturbed(log: seq<Event>, e: Event, account: int, sec: Section)
    requires SectionExplained(log, account, sec) && Elsewhere(e, account)
    requires sec.phase.Working? ==> !(e.Wrote? && e.key == sec.key)
    ensures SectionExplained(log + [e], account, sec)
  {
    hide Closable, RestoreIntent, DecidedAs, Late;
    match sec.phase
    case Preparing(d, _, _) => DecisionStays(log, e, sec.job.token, d);
    case Working(at, row, winner) => ElsewhereKeeps(log, e, account, sec.key, row, TokenOf(sec.job));
    case _ =>
  }

  lemma LogExplainedExtends(log: seq<Event>, e: Event)
    requires LogExplained(log) && Explained(log, e)
    requires e.Decided? && e.decision.Proceed? ==> !Late(e.decision.winner, e.now)
    ensures LogExplained(log + [e])
  {
    hide Explained, Late;
    var l := log + [e];
    forall n | 0 <= n < |l| ensures Explained(l[..n], l[n]) {
      assert l[..n] == log[..n];
      assert n == |log| ==> log[..n] == log;
    }
  }

  /** One section moved, by an event of its own, and at most its row was closed. */
  ghost predicate Progresses(s: State, t: State, account: int, e: Option<Event>)
  {
    && t.log == Logged(s, e)
    && (e.Some? ==> Explained(s.log, e.value) && (Elsewhere(e.value, account) ==> e.value.Decided? || e.value.Finished?))
    && (e.Some? && e.value.Decided? && e.value.decision.Proceed? ==> !Late(e.value.decision.winner, e.value.now))
    && (e.Some? && e.value.Wrote? ==> e.value.key in s.journal && s.journal[e.value.key].account == account)
    && (forall b | b in t.sections && b != account :: b in s.sections && t.sections[b] == s.sections[b])
    && (account in t.sections ==> SectionExplained(t.log, account, t.sections[account]))
    && (forall k | k in t.journal && Terminal(t.journal[k].status) ::
          (k in s.journal && t.journal[k] == s.journal[k]) || (e.Some? && e.value.Closed? && e.value.key == k && e.value.row == t.journal[k]))
  }

  lemma ExplainedAfter(s: State, t: State, account: int, e: Option<Event>)
    requires Safe(s) && AllExplained(s) && Progresses(s, t, account, e)
    ensures AllExplained(t)
  {
    hide Explained, SectionExplained, RowsOk, Unused, WaitingOk, LogOk, ClosedAs, Late;
    if e.Some? { LogExplainedExtends(s.log, e.value); }
    forall k | k in t.journal && Terminal(t.journal[k].status) ensures ClosedAs(t.log, k, t.journal[k]) {
      if e.Some? { ClosedStays(s.log, e.value, k, t.journal[k]); }
    }
    forall b | b in t.sections ensures SectionExplained(t.log, b, t.sections[b]) {
      if b != account && e.Some? {
        assert SectionOk(s.journal, s.log, b, s.sections[b]);
        if s.sections[b].phase.Working? { WorkingOwns(s.journal, s.log, b, s.sections[b]); }
        SectionUndisturbed(s.log, e.value, b, s.sections[b]);
      }
    }
  }

  // ---------------------------------------------------------- a section works

  /** What one step of a section owes to the explanations. */
  ghost predicate StepExplained(log: seq<Event>, account: int, sec: Section, m: Move)
  {
    var after := if m.event.None? then log else log + [m.event.value];
    && (m.event.Some? ==> Explained(log, m.event.value) && !Elsewhere(m.event.value, account))
    && (m.phase.Working? ==> WorkExplained(after, account, sec.key, sec.job, m.phase.at, m.phase.row, m.phase.winner))
    && (m.stored.Some? && Terminal(m.stored.value.status) ==>
          m.event.Some? && m.event.value.Closed? && m.event.value.key == sec.key && m.event.value.row == m.stored.value)
  }

  lemma HasMeans(a: AccountState, account: int, c: Columns, winner: Intent)
    requires Stands(account, c, winner) && Matches(a, winner.desired)
    ensures RestoreIntent(account, c).Some? && Has(a, RestoreIntent(account, c).value.desired)
  {
  }

  lemma SaveExplains(account: int, sec: Section, now: int, o: Reply, present: Option<AccountState>, stored: Row, log: seq<Event>)
    requires sec.phase.Working? && (sec.phase.at.Save? || sec.phase.at.Commit?)
    requires Owned(log, account, sec.key, stored, sec.phase.at, sec.phase.row, sec.phase.winner)
    requires WorkExplained(log, account, sec.key, sec.job, sec.phase.at, sec.phase.row, sec.phase.winner)
    requires !Upcoming(sec.phase.at).Save? || sec.phase.at == Upcoming(sec.phase.at)
    requires sec.phase.at.Save? ==> !Upcoming(sec.phase.at).Commit?
    ensures StepExplained(log, account, sec, Work(account, sec, now, o, present, stored))
  {
    hide Closable, Stands, Ready, RestoreIntent, AfterOk, Late;
  }

  lemma ReadingExplains(account: int, sec: Section, now: int, o: Reply, present: Option<AccountState>, stored: Row, log: seq<Event>)
    requires sec.phase.Working? && (sec.phase.at.Reading? || sec.phase.at.Controlling? || sec.phase.at.Guarding?)
    requires WorkExplained(log, account, sec.key, sec.job, sec.phase.at, sec.phase.row, sec.phase.winner)
    ensures StepExplained(log, account, sec, Work(account, sec, now, o, present, stored))
  {
    hide RestoreIntent, StoreWinning, Shown, DecidedAs, Late, WeighedAt, Writes, Guarded;
    NextEvent(log, Missed(account), account);
    NextEvent(log, Unread(account), account);
    NextEvent(log, Faulted(account), account);
    NextEvent(log, Denied(account), account);
    hide LastIn;
  }

  lemma ChosenExplains(account: int, sec: Section, now: int, o: Reply, present: Option<AccountState>, stored: Row, log: seq<Event>)
    requires sec.phase.Working? && sec.phase.at.Chosen? && RowOk(log, sec.key, stored)
    requires Owned(log, account, sec.key, stored, sec.phase.at, sec.phase.row, sec.phase.winner)
    requires WorkExplained(log, account, sec.key, sec.job, sec.phase.at, sec.phase.row, sec.phase.winner)
    ensures StepExplained(log, account, sec, Work(account, sec, now, o, present, stored))
  {
    hide RestoreIntent, Matches, Has, DecidedAs, Late, WeighedAt, Writes, Guarded, Fresh, WroteAs, AccountIntent, LastIn;
    if Matches(sec.phase.at.seen, sec.phase.winner.desired) { HasMeans(sec.phase.at.seen, account, sec.phase.row.winning, sec.phase.winner); }
  }

  lemma VerifiedExplains(account: int, sec: Section, repair: bool, row: Row, winner: Intent, seen: Option<AccountState>, log: seq<Event>)
    requires Stands(account, row.winning, winner)
    requires sec.job.Recover? ==> RestoreIntent(account, row.winning) == Some(winner)
    ensures StepExplained(log, account, sec, Verified(account, repair, row, winner, seen))
  {
    hide RestoreIntent, Matches, Has, DecidedAs, Late, WeighedAt, Writes, Guarded, Fresh, AccountIntent, LastIn, Stands;
    if seen.Some? && Matches(seen.value, winner.desired) {
      HasMeans(seen.value, account, row.winning, winner);
      ReadEvent(log, account, sec.key, seen.value);
    }
  }

  lemma OwnedStands(log: seq<Event>, account: int, key: string, stored: Row, at: Pc, row: Row, winner: Intent)
    requires Owned(log, account, key, stored, at, row, winner)
    ensures Stands(account, row.winning, winner) && (AtWrite(at) ==> row.winning == stored.winning)
  {
    hide Ready, Stands;
  }

  lemma ReadBackExplains(account: int, sec: Section, now: int, o: Reply, present: Option<AccountState>, stored: Row, log: seq<Event>)
    requires sec.phase.Working? && (sec.phase.at.ReadingBack? || sec.phase.at.VerifyingRead?)
    requires Owned(log, account, sec.key, stored, sec.phase.at, sec.phase.row, sec.phase.winner)
    requires WorkExplained(log, account, sec.key, sec.job, sec.phase.at, sec.phase.row, sec.phase.winner)
    ensures StepExplained(log, account, sec, Work(account, sec, now, o, present, stored))
  {
    hide Owned, Verified, RestoreIntent, Matches, Closable, Late, WeighedAt, Stands, HasProceed;
    var row, winner := sec.phase.row, sec.phase.winner;
    var seen := if o.answer.Good? then present else None;
    OwnedStands(log, account, sec.key, stored, sec.phase.at, row, winner);
    VerifiedExplains(account, sec, true, row, winner, seen, log);
    if sec.phase.at.VerifyingRead? { VerifiedExplains(account, sec, sec.phase.at.repair, row, winner, seen, log); }
  }

  lemma WriteExplains(account: int, sec: Section, now: int, o: Reply, present: Option<AccountState>, stored: Row, log: seq<Event>)
    requires sec.phase.Working? && AtWrite(sec.phase.at) && LogExplained(log)
    requires Owned(log, account, sec.key, stored, sec.phase.at, sec.phase.row, sec.phase.winner)
    requires WorkExplained(log, account, sec.key, sec.job, sec.phase.at, sec.phase.row, sec.phase.winner)
    requires sec.job.Submit? ==> HasProceed(log, sec.job.token, sec.phase.winner)
    ensures StepExplained(log, account, sec, Work(account, sec, now, o, present, stored))
  {
    hide Owned, Stands, RestoreIntent, Late, WeighedAt, LastIn, LogExplained, DecidedTimely, HasProceed, Shown;
    OwnedStands(log, account, sec.key, stored, sec.phase.at, sec.phase.row, sec.phase.winner);
    var e := Wrote(account, sec.key, TokenOf(sec.job), sec.phase.winner, stored.attempts, stored.before, stored.winning, o.answer);
    NextEvent(log, e, account);
    if sec.job.Submit? { ProceedWasTimely(log, sec.job.token, sec.phase.winner); }
  }

  lemma ProceedWasTimely(log: seq<Event>, token: nat, w: Intent)
    requires LogExplained(log) && HasProceed(log, token, w)
    ensures exists at :: DecidedTimely(log, token, w, at)
  {
    hide Explained, Late;
    var e :| e in log && e.Decided? && e.token == token && e.decision == Proceed(w);
    assert DecidedTimely(log, token, w, e.now);
  }

  lemma RecoverExplains(account: int, sec: Section, now: int, o: Reply, present: Option<AccountState>, stored: Row, log: seq<Event>)
    requires sec.phase.Working? && (Recovers(sec.phase.at) || sec.phase.at.RecoverGuardAgain?)
    requires Owned(log, account, sec.key, stored, sec.phase.at, sec.phase.row, sec.phase.winner)
    requires WorkExplained(log, account, sec.key, sec.job, sec.phase.at, sec.phase.row, sec.phase.winner)
    ensures StepExplained(log, account, sec, Work(account, sec, now, o, present, stored))
  {
    hide RestoreIntent, Matches, Has, DecidedAs, WeighedAt, LastIn, Writes, Guarded, Fresh, AccountIntent, Stands;
    var row, winner := sec.phase.row, sec.phase.winner;
    OwnedStands(log, account, sec.key, stored, sec.phase.at, row, winner);
    NextEvent(log, Denied(account), account);
    NextEvent(log, Passed(account), account);
    NextEvent(log, Weighed(account, now), account);
    if sec.phase.at.RecoverDecide? {
      NoteEvent(log, Weighed(account, now), account, sec.key);
      if Matches(sec.phase.at.seen, winner.desired) { HasMeans(sec.phase.at.seen, account, row.winning, winner); }
    }
  }

  lemma SaveLeadsOn(log: seq<Event>, account: int, key: string, stored: Row, at: Pc, row: Row, winner: Intent)
    requires Owned(log, account, key, stored, at, row, winner) && at.Save?
    ensures Upcoming(at) == at || (!Upcoming(at).Save? && !Upcoming(at).Commit?)
  {
    hide Stands, RestoreIntent, Fresh, Guarded, Writes;
  }

  lemma WorkExplains(account: int, sec: Section, now: int, o: Reply, present: Option<AccountState>, stored: Row, log: seq<Event>)
    requires sec.phase.Working? && RowOk(log, sec.key, stored) && LogExplained(log)
    requires Owned(log, account, sec.key, stored, sec.phase.at, sec.phase.row, sec.phase.winner)
    requires WorkExplained(log, account, sec.key, sec.job, sec.phase.at, sec.phase.row, sec.phase.winner)
    requires sec.job.Submit? && MayStillWrite(sec.phase.at) ==> HasProceed(log, sec.job.token, sec.phase.winner)
    ensures StepExplained(log, account, sec, Work(account, sec, now, o, present, stored))
  {
    hide Owned, RowOk, StepExplained, WorkExplained, Work, HasProceed, LogExplained;
    match sec.phase.at
    case Save(_, _) =>
      SaveLeadsOn(log, account, sec.key, stored, sec.phase.at, sec.phase.row, sec.phase.winner);
      SaveExplains(account, sec, now, o, present, stored, log);
    case Commit(_) => SaveExplains(account, sec, now, o, present, stored, log);
    case Reading => ReadingExplains(account, sec, now, o, present, stored, log);
    case Controlling(_) => ReadingExplains(account, sec, now, o, present, stored, log);
    case Guarding(_) => ReadingExplains(account, sec, now, o, present, stored, log);
    case Chosen(_) => ChosenExplains(account, sec, now, o, present, stored, log);
    case Writing(_) => WriteExplains(account, sec, now, o, present, stored, log);
    case WritingAgain => WriteExplains(account, sec, now, o, present, stored, log);
    case RecoverWrite => WriteExplains(account, sec, now, o, present, stored, log);
    case ReadingBack(_) => ReadBackExplains(account, sec, now, o, present, stored, log);
    case VerifyingRead(_) => ReadBackExplains(account, sec, now, o, present, stored, log);
    case _ => RecoverExplains(account, sec, now, o, present, stored, log);
  }

  // -------------------------------------------------------- the whole state

  lemma MovedExplained(s: State, account: int, m: Move, effect: bool)
    requires Safe(s) && AllExplained(s) && account in s.sections
    requires SectionExplained(if m.event.None? then s.log else s.log + [m.event.value], account, s.sections[account].(phase := m.phase))
    requires m.event.Some? ==> Explained(s.log, m.event.value) && (Elsewhere(m.event.value, account) ==> m.event.value.Finished?)
    requires m.event.Some? ==> !m.event.value.Decided?
    requires m.event.Some? && m.event.value.Wrote? ==> m.event.value.key in s.journal && s.journal[m.event.value.key].account == account
    requires m.stored.Some? && Terminal(m.stored.value.status) ==>
               m.event.Some? && m.event.value.Closed? && m.event.value.key == s.sections[account].key && m.event.value.row == m.stored.value
    ensures AllExplained(Moved(s, account, s.sections[account], m, effect))
  {
    hide Safe, AllExplained, SectionExplained, Explained;
    ExplainedAfter(s, Moved(s, account, s.sections[account], m, effect), account, m.event);
  }

  lemma SectionAt(s: State, account: int)
    requires Safe(s) && AllExplained(s) && account in s.sections
    ensures var sec := s.sections[account];
            && SectionOk(s.journal, s.log, account, sec) && SectionExplained(s.log, account, sec) && LogExplained(s.log)
            && (sec.key in s.journal ==> RowOk(s.log, sec.key, s.journal[sec.key]))
            && (sec.key in s.journal || Writes(s.log, sec.key) == 0)
  {
    hide RowOk, SectionOk, SectionExplained, LogExplained, RowsExplained;
  }

  lemma WorkingExplained(s: State, account: int, o: Reply)
    requires Safe(s) && AllExplained(s) && account in s.sections && s.sections[account].phase.Working?
    ensures AllExplained(Advanced(s, account, o))
  {
    hide Safe, AllExplained, Work, Owned, RowOk, Explained, WorkExplained, HasProceed, SectionOk, LogExplained, MoveOk;
    SectionAt(s, account);
    var sec := s.sections[account];
    WorkingOwns(s.journal, s.log, account, sec);
    WorkingKeeps(s.journal, s.log, account, sec);
    var stored := s.journal[sec.key];
    var present := if account in s.upstream then Some(s.upstream[account]) else None;
    var m := Work(account, sec, s.now, o, present, stored);
    WorkExplains(account, sec, s.now, o, present, stored, s.log);
    WorkKeeps(account, sec, s.now, o, present, stored, s.log);
    MoveShape(s.log, account, sec.key, stored, m);
    MovedExplained(s, account, m, o.effect);
  }

  lemma MoveShape(log: seq<Event>, account: int, key: string, stored: Row, m: Move)
    requires MoveOk(log, account, key, stored, m)
    ensures m.phase.Working? || m.phase.Done?
    ensures m.event.Some? ==> !m.event.value.Decided? && !m.event.value.Finished? && (m.event.value.Wrote? ==> m.event.value.key == key)
  {
    hide RowOk, Owned, Justified;
  }

  lemma LookupExplained(s: State, account: int, o: Reply)
    requires Safe(s) && AllExplained(s) && account in s.sections && s.sections[account].phase.Lookup?
    ensures AllExplained(Advanced(s, account, o))
  {
    hide Safe, AllExplained, SectionOk, LogExplained, LookUp, SectionExplained;
    SectionAt(s, account);
    LookupExplains(s.journal, s.log, account, s.sections[account], s.now, o);
    MovedExplained(s, account, LookUp(account, s.sections[account], s.now, o, s.journal), false);
  }

  lemma LookupExplains(j: map<string, Row>, log: seq<Event>, account: int, sec: Section, now: int, o: Reply)
    requires SectionOk(j, log, account, sec) && sec.phase.Lookup?
    ensures var m := LookUp(account, sec, now, o, j);
            && m.stored.None? && (m.event.Some? ==> m.event == Some(Weighed(account, now)))
            && SectionExplained(if m.event.None? then log else log + [m.event.value], account, sec.(phase := m.phase))
  {
    hide RestoreIntent, RequestSignature, AccountIntent, DecidedAs, Shown, Writes, Guarded, LastIn, WeighedAt;
    NextEvent(log, Weighed(account, now), account);
  }

  lemma PreparingExplained(s: State, account: int, o: Reply)
    requires Safe(s) && AllExplained(s) && account in s.sections && s.sections[account].phase.Preparing?
    ensures AllExplained(Advanced(s, account, o))
  {
    hide Safe, AllExplained, SectionOk, LogExplained, SectionExplained, Prepare;
    SectionAt(s, account);
    PreparedRow(s.journal, s.log, account, s.sections[account]);
    PrepareExplains(s.journal, s.log, account, s.sections[account], o);
    MovedExplained(s, account, Prepare(s.sections[account], o, s.journal), false);
  }

  lemma PrepareExplains(j: map<string, Row>, log: seq<Event>, account: int, sec: Section, o: Reply)
    requires sec.phase.Preparing? && SectionExplained(log, account, sec) && sec.phase.row.status.Prepared?
    requires sec.key in j || Writes(log, sec.key) == 0
    ensures var m := Prepare(sec, o, j);
            && m.event.None? && (m.stored.Some? ==> !Terminal(m.stored.value.status))
            && SectionExplained(log, account, sec.(phase := m.phase))
  {
    hide DecidedAs, Shown, LastIn, WeighedAt, RestoreIntent, Writes, Guarded;
  }

  lemma PreparedRow(j: map<string, Row>, log: seq<Event>, account: int, sec: Section)
    requires SectionOk(j, log, account, sec) && sec.phase.Preparing?
    ensures sec.phase.row.status.Prepared?
  {
    hide AccountIntent, HasProceed, RequestSignature, StoreWinning;
  }

  lemma DoneExplained(s: State, account: int, o: Reply)
    requires Safe(s) && AllExplained(s) && account in s.sections
    requires var p := s.sections[account].phase; p.Deciding? || p.Done? || p.Leaving?
    ensures AllExplained(Advanced(s, account, o))
  {
    hide Safe, RowsExplained, LogExplained, FinishIn, Explained;
    var sec := s.sections[account];
    var e := if sec.phase.Done? && sec.job.Submit? then Some(Finished(sec.job.token, sec.phase.status)) else None;
    if e.Some? { FinishedIsExplained(s.log, e.value); }
    JournalStaysExplained(s, Advanced(s, account, o));
    ExplainedAfter(s, Advanced(s, account, o), account, e);
  }

  lemma FinishedIsExplained(log: seq<Event>, e: Event)
    requires e.Finished?
    ensures Explained(log, e)
  {
  }

  lemma JournalStaysExplained(s: State, t: State)
    requires t.journal == s.journal
    ensures forall k | k in t.journal && Terminal(t.journal[k].status) :: k in s.journal && t.journal[k] == s.journal[k]
  {
  }

  lemma ArbitratingExplained(s: State, account: int, overrides: seq<Intent>, results: seq<Arbiter.Arbitration>)
    requires Safe(s) && AllExplained(s) && account in s.sections
    ensures AllExplained(Arbitrating(s, account, overrides, results))
  {
    hide RowOk, LogOk, LogExplained, SectionOk, ClosedAs, Decide, Arbitrated, Candidates, NewRow, AccountIntent;
    var sec := s.sections[account];
    var t := Arbitrating(s, account, overrides, results);
    if t != s {
      var candidates := Candidates(s, sec, overrides);
      var d := Decide(results, sec.job.sub.intent);
      var e := Decided(sec.job.token, sec.phase.now, candidates, d);
      if d.Proceed? { ProceedIsEligible(sec.phase.now, multiset(candidates), results, sec.job.sub.intent); }
      assert t.log == s.log + [e];
      DecisionStays(s.log, e, sec.job.token, d);
      hide Eligible, ValidationError;
      ExplainedAfter(s, t, account, Some(e));
    }
  }

  lemma BeginExplained(s: State, account: int, sec: Section, waiting: map<nat, Submission>)
    requires Safe(s) && AllExplained(s) && account !in s.sections && sec.phase.Lookup?
    ensures AllExplained(s.(waiting := waiting, sections := s.sections[account := sec], log := s.log + [Began(account)]))
  {
    hide RowOk, LogOk, LogExplained, SectionOk, ClosedAs;
    ExplainedAfter(s, s.(waiting := waiting, sections := s.sections[account := sec], log := s.log + [Began(account)]), account, Some(Began(account)));
  }

  lemma WithdrawExplained(s: State, token: nat)
    requires Safe(s) && AllExplained(s) && token in s.waiting
    ensures AllExplained(Step(s, Withdraw(token)))
  {
    hide Safe, RowsExplained, LogExplained, SectionExplained, ClosedAs, FinishIn, Explained;
    var t, e := Step(s, Withdraw(token)), Finished(token, None);
    FinishedIsExplained(s.log, e);
    if 0 in s.sections { SectionUndisturbed(s.log, e, 0, s.sections[0]); }
    JournalStaysExplained(s, t);
    ExplainedAfter(s, t, 0, Some(e));
  }

  lemma StepExplains(s: State, a: Action)
    requires Safe(s) && AllExplained(s)
    ensures AllExplained(Step(s, a))
  {
    hide AllExplained, Safe, FinishIn, AddTo, Advanced, Arbitrating, AccountIntent;
    match a
    case Begin(token) =>
      if token in s.waiting && AccountOf(s.waiting[token].intent) !in s.sections {
        var sub := s.waiting[token];
        BeginExplained(s, AccountOf(sub.intent), Section(Submit(token, sub), JournalKey(sub), Lookup), s.waiting - {token});
      }
    case BeginRecovery(key) =>
      if key in s.journal && s.journal[key].account !in s.sections {
        BeginExplained(s, s.journal[key].account, Section(Recover, key, Lookup), s.waiting);
      }
    case Advance(account, o) =>
      if account in s.sections {
        match s.sections[account].phase
        case Lookup => LookupExplained(s, account, o);
        case Preparing(_, _, _) => PreparingExplained(s, account, o);
        case Working(_, _, _) => WorkingExplained(s, account, o);
        case _ => DoneExplained(s, account, o);
      }
    case Arbitration(account, overrides, results) => if account in s.sections { ArbitratingExplained(s, account, overrides, results); }
    case Withdraw(token) => if token in s.waiting { WithdrawExplained(s, token); }
    case _ => OutsideExplains(s, a);
  }

  lemma OutsideExplains(s: State, a: Action)
    requires AllExplained(s) && (a.Enqueue? || a.Crash? || a.Drift? || a.Vanish? || a.Tick?)
    ensures AllExplained(Step(s, a))
  {
    hide LogExplained, RowsExplained, SectionExplained, AddTo, AccountIntent;
  }

  lemma {:induction false} RunExplains(s: State, actions: seq<Action>)
    requires Safe(s) && AllExplained(s)
    ensures AllExplained(Run(s, actions))
    decreases |actions|
  {
    hide Safe, AllExplained, Step;
    if actions != [] {
      StepSafe(s, actions[0]);
      StepExplains(s, actions[0]);
      RunExplains(Step(s, actions[0]), actions[1..]);
    }
  }

  lemma StartExplained(upstream: map<int, AccountState>, now: int)
    ensures AllExplained(Start(upstream, now))
  {
  }

  // --------------------------------------------------------------- theorems

  /** Nothing of the account's section is logged strictly between two positions. */
  predicate Adjacent(log: seq<Event>, w: nat, c: nat, account: int)
  {
    forall k | w < k < c && k < |log| :: !Concerns(log[k], account) && log[k] != Began(account)
  }

  lemma {:induction false} LastInWitness(log: seq<Event>, account: int) returns (w: nat)
    requires LastIn(log, account).Some?
    ensures w < |log| && Some(log[w]) == LastIn(log, account) && Concerns(log[w], account) && Adjacent(log, w, |log|, account)
  {
    w := |log| - 1;
    if !Concerns(log[w], account) {
      var init := log[..|log| - 1];
      w := LastInWitness(init, account);
      forall k | w < k < |log| ensures !Concerns(log[k], account) && log[k] != Began(account) {
        assert k < |log| - 1 ==> init[k] == log[k];
      }
    }
  }

  lemma {:induction false} WeighedWitness(log: seq<Event>, account: int) returns (w: nat)
    requires WeighedAt(log, account).Some?
    ensures w < |log| && log[w] == Weighed(account, WeighedAt(log, account).value) && SameSection(log, w, account)
  {
    w := |log| - 1;
    if !(log[w].Weighed? && log[w].account == account) { w := WeighedWitness(log[..|log| - 1], account); }
  }

  lemma DecidedWitness(log: seq<Event>, token: nat, d: Decision) returns (w: nat)
    requires DecidedAs(log, token, d)
    ensures w < |log| && log[w].Decided? && log[w].token == token && log[w].decision == d
  {
    var e :| e in log && e.Decided? && e.token == token && e.decision == d;
    w :| 0 <= w < |log| && log[w] == e;
  }

  /** The events that explain an ending, for one closing at position `c`. */
  ghost predicate Because(log: seq<Event>, c: nat, w: nat, account: int, key: string, author: Option<nat>, row: Row)
  {
    var winner := RestoreIntent(account, row.winning);
    && w < c < |log|
    && match row.status
       case Applied => row.after.Some? && log[w] == Read(account, row.after.value) && NoReadSince(log[..c], w + 1, account)
       case AppliedNoop =>
         && row.after.Some? && log[w] == Read(account, row.after.value) && NoReadSince(log[..c], w + 1, account)
         && Writes(log[..c], key) == 0
       case Blocked => log[w] in {Denied(account), Missed(account)} && Adjacent(log, w, c, account)
       case Failed =>
         && (log[w] in {Unread(account), Faulted(account)}
             || (log[w].Wrote? && log[w].account == account && log[w].answer in {Block, Definite}))
         && Adjacent(log, w, c, account)
       case Superseded =>
         log[w].Decided? && Some(log[w].token) == author && log[w].decision.Yield? && Writes(log[..c], key) == 0
       case ExpiredStatus =>
         || (log[w].Decided? && Some(log[w].token) == author && log[w].decision.Lapse? && Writes(log[..c], key) == 0)
         || (author.None? && log[w].Weighed? && log[w].account == account && Adjacent(log, w, c, account)
             && winner.Some? && winner.value.expiresAt.Some? && winner.value.expiresAt.value <= log[w].now)
       case _ => false
  }

  lemma AdjacentPrefix(log: seq<Event>, w: nat, c: nat, account: int)
    requires w < c <= |log| && Adjacent(log[..c], w, c, account)
    ensures Adjacent(log, w, c, account)
  {
    forall k | w < k < c && k < |log| ensures !Concerns(log[k], account) && log[k] != Began(account) { assert log[..c][k] == log[k]; }
  }

  lemma ClosableBecause(log: seq<Event>, c: nat, account: int, key: string, author: Option<nat>, row: Row) returns (w: nat)
    requires c < |log| && Closable(log[..c], account, key, row, author)
    ensures Because(log, c, w, account, key, author, row)
  {
    var before := log[..c];
    match row.status
    case Applied => w := FreshWitness(before, account, key);
    case AppliedNoop => w := FreshWitness(before, account, key);
    case Superseded =>
      var d :| DecidedAs(before, author.value, Yield(d));
      w := DecidedWitness(before, author.value, Yield(d));
    case ExpiredStatus =>
      if author.Some? {
        w := DecidedWitness(before, author.value, Lapse);
      } else {
        w := LastInWitness(before, account);
        AdjacentPrefix(log, w, c, account);
      }
    case _ =>
      w := LastInWitness(before, account);
      AdjacentPrefix(log, w, c, account);
  }

  /** Every terminal row of every reachable journal was closed with exactly its
      final contents, for the reason its status names. Applied and applied_noop
      rest on the last read of the section, which shows what the winner asks for;
      applied_noop moreover on a guard pass, with nothing written; blocked on a
      guard's refusal or a missing account, failed on a failed read, a faulting
      check or a write that certainly failed, as the section's last act; superseded
      and expired on the command's own arbitration, with nothing written, or on a
      recovery that found the winner expired. */
  lemma TerminalRowsAreExplained(upstream: map<int, AccountState>, now: int, actions: seq<Action>, key: string)
      returns (c: nat, w: nat, author: Option<nat>)
    requires var s := Run(Start(upstream, now), actions);
             key in s.journal && s.journal[key].status in {Applied, AppliedNoop, Blocked, Failed, Superseded, ExpiredStatus}
    ensures var s := Run(Start(upstream, now), actions);
            var row := s.journal[key];
            c < |s.log| && s.log[c] == Closed(row.account, key, author, row) && Because(s.log, c, w, row.account, key, author, row)
    ensures var s := Run(Start(upstream, now), actions);
            var row := s.journal[key];
            row.status in {Applied, AppliedNoop} ==>
              && SameSection(s.log[..c], w, row.account) && NoWriteSince(s.log[..c], w, key)
              && var winner := RestoreIntent(row.account, row.winning);
                 winner.Some? && row.after.Some?
                 && ((winner.value.desired.Schedulable? && row.after.value.schedulable == winner.value.desired.value)
                     || (winner.value.desired.LoadFactor? && row.after.value.loadFactor == winner.value.desired.factor))
    ensures var s := Run(Start(upstream, now), actions);
            var row := s.journal[key];
            row.status.AppliedNoop? ==> exists g | 0 <= g < c :: s.log[g] == Passed(row.account) && SameSection(s.log[..c], g, row.account)
  {
    StartSafe(upstream, now);
    StartExplained(upstream, now);
    RunExplains(Start(upstream, now), actions);
    var s := Run(Start(upstream, now), actions);
    hide Run, Start, Safe, AllExplained, Because, Closable, LogExplained, SameSection, NoWriteSince;
    TerminalIsClosed(s, key);
    var row := s.journal[key];
    var e :| e in s.log && e.Closed? && e.key == key && e.row == row;
    c :| 0 <= c < |s.log| && s.log[c] == e;
    author := e.author;
    w := ClosingExplained(s.log, c);
    if row.status.AppliedNoop? { GuardBefore(s.log, c, row.account); }
  }

  lemma GuardBefore(log: seq<Event>, c: nat, account: int)
    requires c <= |log| && Guarded(log[..c], account)
    ensures exists g | 0 <= g < c :: log[g] == Passed(account) && SameSection(log[..c], g, account)
  {
    var g := GuardWitness(log[..c], account);
    assert log[g] == log[..c][g];
  }

  lemma TerminalIsClosed(s: State, key: string)
    requires AllExplained(s) && key in s.journal && Terminal(s.journal[key].status)
    ensures ClosedAs(s.log, key, s.journal[key]) && LogExplained(s.log)
  {
    hide LogExplained, SectionExplained, ClosedAs;
  }

  lemma ClosingExplained(log: seq<Event>, c: nat) returns (w: nat)
    requires LogExplained(log) && c < |log| && log[c].Closed?
    ensures var e := log[c];
            && e.row.account == e.account && Because(log, c, w, e.account, e.key, e.author, e.row)
            && (e.row.status in {Applied, AppliedNoop} ==>
                  && Shown(log[..c], e.account, e.key, e.row)
                  && SameSection(log[..c], w, e.account) && NoWriteSince(log[..c], w, e.key))
            && (e.row.status.AppliedNoop? ==> Guarded(log[..c], e.account))
  {
    var e := log[c];
    assert Explained(log[..c], e);
    if e.row.status in {Applied, AppliedNoop} {
      w := FreshWitness(log[..c], e.account, e.key);
    } else {
      w := ClosableBecause(log, c, e.account, e.key, e.author, e.row);
    }
  }

  /** Nothing is written for an intent known to have expired: a command's write
      follows its own arbitration in favour of the intent at a time before the
      intent's expiry, and a recovery's write a weighing of the rebuilt winner in
      the same lock section, before its expiry. */
  lemma WritesAreTimely(upstream: map<int, AccountState>, now: int, actions: seq<Action>, w: nat) returns (n: nat)
    requires var log := Run(Start(upstream, now), actions).log; w < |log| && log[w].Wrote?
    ensures var log := Run(Start(upstream, now), actions).log;
            var e := log[w];
            && n < w && (log[n].Decided? || log[n].Weighed?) && (e.intent.expiresAt.Some? ==> log[n].now < e.intent.expiresAt.value)
            && match e.author
               case Some(token) => log[n].Decided? && log[n].token == token && log[n].decision == Proceed(e.intent)
               case None =>
                 && log[n].Weighed? && log[n].account == e.account && SameSection(log[..w], n, e.account)
                 && RestoreIntent(e.account, e.winning) == Some(e.intent)
  {
    StartSafe(upstream, now);
    StartExplained(upstream, now);
    RunExplains(Start(upstream, now), actions);
    var log := Run(Start(upstream, now), actions).log;
    hide Run, Start, Safe;
    n := WriteExplained(log, w);
  }

  lemma WriteExplained(log: seq<Event>, w: nat) returns (n: nat)
    requires LogExplained(log) && w < |log| && log[w].Wrote?
    ensures var e := log[w];
            && n < w && (log[n].Decided? || log[n].Weighed?) && (e.intent.expiresAt.Some? ==> log[n].now < e.intent.expiresAt.value)
            && match e.author
               case Some(token) => log[n].Decided? && log[n].token == token && log[n].decision == Proceed(e.intent)
               case None =>
                 && log[n].Weighed? && log[n].account == e.account && SameSection(log[..w], n, e.account)
                 && RestoreIntent(e.account, e.winning) == Some(e.intent)
  {
    var e, before := log[w], log[..w];
    assert Explained(before, e);
    if e.author.Some? {
      var at :| DecidedTimely(before, e.author.value, e.intent, at);
      var d :| d in before && d.Decided? && d.token == e.author.value && d.decision == Proceed(e.intent) && d.now == at;
      n :| 0 <= n < |before| && before[n] == d;
    } else {
      n := WeighedWitness(before, e.account);
    }
  }
}

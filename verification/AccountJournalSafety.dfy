/** What every run of the account mutation protocol keeps. */
module AccountJournalSafety {
  import opened Options
  import opened Intents
  import opened Arbiter
  import opened WinningIntent
  import opened CandidateQueue
  import opened AccountJournal

  // ------------------------------------------------------------ invariants

  predicate Effective(s: Status)
  {
    s.Applied? || s.AppliedNoop?
  }

  /** The readback stored in a settled row shows the state its winner wants. */
  ghost predicate AfterOk(log: seq<Event>, key: string, row: Row)
  {
    && row.after.Some? && Confirmed(log, row.account, key, row.after.value)
    && var w := RestoreIntent(row.account, row.winning);
       w.Some? && Matches(row.after.value, w.value.desired)
  }

  /** Every write of the row was made under these winning columns. */
  predicate WroteAs(log: seq<Event>, key: string, c: Columns)
  {
    log == [] || (WroteAs(log[..|log| - 1], key, c) &&
                  var e := log[|log| - 1];
                  e.Wrote? && e.key == key ==> e.winning == c)
  }

  ghost predicate RowOk(log: seq<Event>, key: string, row: Row)
  {
    && Writes(log, key) <= row.attempts <= 2 && WroteAs(log, key, row.winning)
    && RestoreIntent(row.account, row.winning).Some?
    && (Effective(row.status) ==> AfterOk(log, key, row))
  }

  /** The columns stand for the winner the section acts on. */
  ghost predicate Stands(account: int, c: Columns, winner: Intent)
  {
    && AccountIntent(winner) && winner.resource == AccountResource(account)
    && var w := RestoreIntent(account, c);
       w.Some? && w.value.desired == winner.desired
  }

  /** What holds of the section's copy of the row before a given operation. */
  ghost predicate Ready(log: seq<Event>, account: int, key: string, row: Row, at: Pc)
  {
    match at
    case Save(_, _) => false
    case Commit(_) => false
    case Reading => row.attempts == 0
    case Controlling(a) => row.attempts == 0 && Fresh(log, account, key) == Some(a)
    case Guarding(a) => row.attempts == 0 && Fresh(log, account, key) == Some(a) == row.before
    case Chosen(a) => row.attempts == 0 && Fresh(log, account, key) == Some(a) == row.before && Guarded(log, account)
    case Writing(a) => row.before == Some(a) && MayWrite(log, account, key, row)
    case ReadingBack(a) => row.before == Some(a) && Guarded(log, account)
    case WritingAgain => MayWrite(log, account, key, row)
    case VerifyingRead(_) => true
    case RecoverRead => true
    case RecoverControl(a) => Fresh(log, account, key) == Some(a)
    case RecoverGuard(a) => Fresh(log, account, key) == Some(a)
    case RecoverDecide(a) => Fresh(log, account, key) == Some(a)
    case RecoverGuardAgain(a) => Fresh(log, account, key) == Some(a) == row.before && row.attempts < 2
    case RecoverWrite => MayWrite(log, account, key, row)
  }

  ghost predicate MayWrite(log: seq<Event>, account: int, key: string, row: Row)
  {
    && row.before.Some? && Fresh(log, account, key) == row.before && Guarded(log, account)
    && Writes(log, key) < row.attempts
  }

  predicate AtWrite(at: Pc)
  {
    at.Writing? || at.WritingAgain? || at.RecoverWrite?
  }

  /** The section is on its way to a write. */
  predicate ToWrite(at: Pc)
  {
    var next := if at.Save? && at.next.Some? then at.next.value else at;
    AtWrite(next) || next.RecoverGuardAgain?
  }

  /** What holds between a section's copy of its row and the journal's. */
  ghost predicate Owned(log: seq<Event>, account: int, key: string, stored: Row, at: Pc, row: Row, winner: Intent)
  {
    && stored.account == account == row.account && !Terminal(stored.status) && stored.signature == row.signature
    && Stands(account, row.winning, winner)
    && stored.attempts <= row.attempts <= 2
    && ((at.Save? && row.attempts == 0) || row.winning == stored.winning)
    && (ToWrite(at) ==> row.before.Some? && !Matches(row.before.value, winner.desired))
    && match at
       case Save(next, _) => !Terminal(row.status) && (next.Some? ==> Ready(log, account, key, row, next.value))
       case Commit(_) => Terminal(row.status) && (Effective(row.status) ==> AfterOk(log, key, row))
       case _ =>
         && Ready(log, account, key, row, at) && !Terminal(row.status)
         && stored.attempts == row.attempts && (AtWrite(at) ==> stored == row)
  }

  /** A section that may still write acts on the intent it was told to. */
  predicate MayStillWrite(at: Pc)
  {
    !at.Commit? && (at.Save? ==> at.next.Some?)
  }

  ghost predicate PhaseOk(journal: map<string, Row>, log: seq<Event>, account: int, sec: Section)
  {
    match sec.phase
    case Lookup => sec.job.Recover? ==> sec.key in journal && journal[sec.key].account == account
    case Deciding(_) => sec.job.Submit?
    case Preparing(d, row, winner) =>
      && sec.job.Submit? && row == NewRow(account, sec.job.sub, winner)
      && AccountIntent(winner) && winner.resource == AccountResource(account)
      && (d.Proceed? ==> HasProceed(log, sec.job.token, winner))
    case Working(at, row, winner) =>
      && sec.key in journal && Owned(log, account, sec.key, journal[sec.key], at, row, winner)
      && (sec.job.Submit? && MayStillWrite(at) ==> HasProceed(log, sec.job.token, winner))
    case Done(_) => true
    case Leaving => true
  }

  predicate Placed(account: int, sub: Submission)
  {
    AccountIntent(sub.intent) && AccountOf(sub.intent) == account
  }

  ghost predicate SectionOk(journal: map<string, Row>, log: seq<Event>, account: int, sec: Section)
  {
    && (sec.job.Submit? ==> Placed(account, sec.job.sub))
    && PhaseOk(journal, log, account, sec)
  }

  ghost predicate RowsOk(s: State)
  {
    forall key | key in s.journal :: RowOk(s.log, key, s.journal[key])
  }

  ghost predicate SectionsOk(s: State)
  {
    forall account | account in s.sections :: SectionOk(s.journal, s.log, account, s.sections[account])
  }

  ghost predicate Unused(s: State)
  {
    forall key :: key in s.journal || Writes(s.log, key) == 0
  }

  ghost predicate WaitingOk(s: State)
  {
    forall t | t in s.waiting :: AccountIntent(s.waiting[t].intent)
  }

  ghost predicate Safe(s: State)
  {
    RowsOk(s) && SectionsOk(s) && Unused(s) && WaitingOk(s) && LogOk(s.log)
  }

  // --------------------------------------------------------- log extension

  lemma Extended(log: seq<Event>, e: Event)
    ensures (log + [e])[..|log + [e]| - 1] == log && (log + [e])[|log + [e]| - 1] == e
  {
  }

  lemma LogOkExtends(log: seq<Event>, e: Event)
    requires LogOk(log) && Justified(log, e)
    ensures LogOk(log + [e])
  {
    hide Justified;
    var l := log + [e];
    forall n | 0 <= n < |l| ensures Justified(l[..n], l[n]) {
      assert l[..n] == log[..n];
      assert n == |log| ==> log[..n] == log;
    }
  }

  /** An event that concerns neither the account nor the row. */
  predicate Foreign(e: Event, account: int, key: string)
  {
    && (e.Began? || e.Read? || e.Passed? || e.Wrote? ==> e.account != account)
    && (e.Wrote? ==> e.key != key)
  }

  lemma ForeignKeeps(log: seq<Event>, e: Event, account: int, key: string)
    requires Foreign(e, account, key)
    ensures Writes(log + [e], key) == Writes(log, key)
    ensures Fresh(log + [e], account, key) == Fresh(log, account, key)
    ensures Guarded(log + [e], account) == Guarded(log, account)
    ensures forall seen :: Confirmed(log + [e], account, key, seen) == Confirmed(log, account, key, seen)
  {
    Extended(log, e);
  }

  lemma ProceedStays(log: seq<Event>, e: Event, token: nat, w: Intent)
    requires HasProceed(log, token, w)
    ensures HasProceed(log + [e], token, w)
  {
    var x :| x in log && x.Decided? && x.token == token && x.decision == Proceed(w);
    assert x in log + [e];
  }

  /** A row is untouched by events that do not write it. */
  lemma RowStays(log: seq<Event>, e: Event, key: string, row: Row)
    requires RowOk(log, key, row) && !(e.Wrote? && e.key == key)
    ensures RowOk(log + [e], key, row)
  {
    hide RestoreIntent;
    Extended(log, e);
  }

  lemma ReadyStays(log: seq<Event>, e: Event, account: int, key: string, row: Row, at: Pc)
    requires Ready(log, account, key, row, at) && Foreign(e, account, key)
    ensures Ready(log + [e], account, key, row, at)
  {
    hide Fresh, Guarded, Writes;
    ForeignKeeps(log, e, account, key);
  }

  lemma OwnedStays(log: seq<Event>, e: Event, account: int, key: string, stored: Row, at: Pc, row: Row, winner: Intent)
    requires Owned(log, account, key, stored, at, row, winner) && Foreign(e, account, key)
    ensures Owned(log + [e], account, key, stored, at, row, winner)
  {
    hide Ready, Stands, RestoreIntent, Confirmed;
    ForeignKeeps(log, e, account, key);
    match at
    case Save(next, _) => if next.Some? { ReadyStays(log, e, account, key, row, next.value); }
    case Commit(_) =>
    case _ => ReadyStays(log, e, account, key, row, at);
  }

  /** A section is undisturbed by a journal write and an event of another account. */
  lemma SectionStays(j: map<string, Row>, k: map<string, Row>, log: seq<Event>, e: Option<Event>, account: int, sec: Section)
    requires SectionOk(j, log, account, sec)
    requires e.Some? && sec.phase.Working? ==> Foreign(e.value, account, sec.key)
    requires forall key | key in j && j[key].account == account :: key in k && k[key] == j[key]
    ensures SectionOk(k, if e.None? then log else log + [e.value], account, sec)
  {
    hide Owned, Stands, AccountIntent;
    if sec.phase.Working? {
      assert j[sec.key].account == account by { OwnedAccount(log, account, sec.key, j[sec.key], sec.phase.at, sec.phase.row, sec.phase.winner); }
    }
    if e.Some? {
      match sec.phase
      case Preparing(d, row, winner) =>
        if d.Proceed? { ProceedStays(log, e.value, sec.job.token, winner); }
      case Working(at, row, winner) =>
        OwnedStays(log, e.value, account, sec.key, j[sec.key], at, row, winner);
        if sec.job.Submit? && MayStillWrite(at) { ProceedStays(log, e.value, sec.job.token, winner); }
      case _ =>
    }
  }

  lemma OwnedAccount(log: seq<Event>, account: int, key: string, stored: Row, at: Pc, row: Row, winner: Intent)
    requires Owned(log, account, key, stored, at, row, winner)
    ensures stored.account == account
  {
  }

  // ---------------------------------------------------------- a section works

  /** What one step of a section owes the journal and the log. */
  ghost predicate MoveOk(log: seq<Event>, account: int, key: string, stored: Row, m: Move)
  {
    var after := if m.event.None? then log else log + [m.event.value];
    var row := if m.stored.None? then stored else m.stored.value;
    && RowOk(after, key, row) && row.account == account
    && (m.event.Some? ==> Justified(log, m.event.value) && EventOf(m.event.value, account, key))
    && (m.phase.Working? ==> Owned(after, account, key, row, m.phase.at, m.phase.row, m.phase.winner))
    && (m.phase.Working? || m.phase.Done?)
  }

  predicate EventOf(e: Event, account: int, key: string)
  {
    || e == Passed(account) || (e.Read? && e.account == account) || (e.Wrote? && e.account == account && e.key == key)
    || (Note(e) && e.account == account && (e.Closed? ==> e.key == key))
  }

  /** What a section notes beside its reads, guard passes and writes. */
  predicate Note(e: Event)
  {
    e.Missed? || e.Unread? || e.Denied? || e.Faulted? || e.Weighed? || e.Closed?
  }

  lemma NoteEvent(log: seq<Event>, e: Event, account: int, key: string)
    requires Note(e)
    ensures Writes(log + [e], key) == Writes(log, key) && Fresh(log + [e], account, key) == Fresh(log, account, key)
    ensures Guarded(log + [e], account) == Guarded(log, account)
    ensures forall seen :: Confirmed(log + [e], account, key, seen) == Confirmed(log, account, key, seen)
    ensures forall c :: WroteAs(log + [e], key, c) == WroteAs(log, key, c)
  {
    Extended(log, e);
  }

  lemma ReadEvent(log: seq<Event>, account: int, key: string, a: AccountState)
    ensures Writes(log + [Read(account, a)], key) == Writes(log, key)
    ensures Fresh(log + [Read(account, a)], account, key) == Some(a)
    ensures Guarded(log + [Read(account, a)], account) == Guarded(log, account)
    ensures Confirmed(log + [Read(account, a)], account, key, a)
  {
    Extended(log, Read(account, a));
  }

  lemma PassedEvent(log: seq<Event>, account: int, key: string)
    ensures Writes(log + [Passed(account)], key) == Writes(log, key)
    ensures Fresh(log + [Passed(account)], account, key) == Fresh(log, account, key)
    ensures Guarded(log + [Passed(account)], account)
  {
    Extended(log, Passed(account));
  }

  lemma WroteEvent(log: seq<Event>, e: Event)
    requires e.Wrote?
    ensures WroteAs(log, e.key, e.winning) ==> WroteAs(log + [e], e.key, e.winning)
    ensures Writes(log + [e], e.key) == Writes(log, e.key) + 1
    ensures Guarded(log + [e], e.account) == Guarded(log, e.account)
  {
    Extended(log, e);
  }

  lemma {:induction false} FreshIsConfirmed(log: seq<Event>, account: int, key: string)
    requires Fresh(log, account, key).Some?
    ensures Confirmed(log, account, key, Fresh(log, account, key).value)
  {
    var e := log[|log| - 1];
    if !(e.Read? && e.account == account) {
      FreshIsConfirmed(log[..|log| - 1], account, key);
    }
  }

  lemma {:induction false} UnwrittenIsFree(log: seq<Event>, key: string, c: Columns)
    ensures Writes(log, key) == 0 ==> WroteAs(log, key, c)
  {
    if log != [] { UnwrittenIsFree(log[..|log| - 1], key, c); }
  }

  lemma SaveKeeps(account: int, sec: Section, now: int, o: Reply, present: Option<AccountState>, stored: Row, log: seq<Event>)
    requires sec.phase.Working? && (sec.phase.at.Save? || sec.phase.at.Commit?)
    requires RowOk(log, sec.key, stored) && Owned(log, account, sec.key, stored, sec.phase.at, sec.phase.row, sec.phase.winner)
    ensures MoveOk(log, account, sec.key, stored, Work(account, sec, now, o, present, stored))
  {
    hide RestoreIntent, Writes, WroteAs, Fresh, Guarded, Confirmed, AccountIntent, Matches;
    UnwrittenIsFree(log, sec.key, sec.phase.row.winning);
    if sec.phase.at.Commit? {
      var e := Closed(account, sec.key, TokenOf(sec.job), sec.phase.row);
      NoteEvent(log, e, account, sec.key);
      NoteKeepsRow(log, e, sec.key, sec.phase.row);
    }
  }

  lemma NoteKeepsRow(log: seq<Event>, e: Event, key: string, row: Row)
    requires Note(e)
    ensures RowOk(log, key, row) ==> RowOk(log + [e], key, row)
  {
    if RowOk(log, key, row) { RowStays(log, e, key, row); }
  }

  lemma VerifiedKeeps(account: int, key: string, repair: bool, row: Row, winner: Intent, seen: Option<AccountState>, stored: Row, log: seq<Event>)
    requires RowOk(log, key, stored) && stored.account == account == row.account && stored.signature == row.signature
    requires !Terminal(stored.status) && Stands(account, row.winning, winner) && row.winning == stored.winning
    requires stored.attempts <= row.attempts <= 2
    ensures MoveOk(log, account, key, stored, Verified(account, repair, row, winner, seen))
  {
    hide RestoreIntent, Writes, WroteAs, Fresh, Guarded, Confirmed, AccountIntent, Matches;
    if seen.Some? {
      ReadEvent(log, account, key, seen.value);
      RowStays(log, Read(account, seen.value), key, stored);
    }
  }

  lemma ReadingKeeps(account: int, sec: Section, now: int, o: Reply, present: Option<AccountState>, stored: Row, log: seq<Event>)
    requires sec.phase.Working? && (sec.phase.at.Reading? || sec.phase.at.Controlling?)
    requires RowOk(log, sec.key, stored) && Owned(log, account, sec.key, stored, sec.phase.at, sec.phase.row, sec.phase.winner)
    ensures MoveOk(log, account, sec.key, stored, Work(account, sec, now, o, present, stored))
  {
    hide RestoreIntent, Writes, WroteAs, Fresh, Guarded, Confirmed, Matches, ValidationError, RowOk, AccountIntent;
    if sec.phase.at.Reading? && present.Some? {
      ReadEvent(log, account, sec.key, present.value);
      RowStays(log, Read(account, present.value), sec.key, stored);
    }
    NoteKeepsRow(log, Missed(account), sec.key, stored);
    NoteKeepsRow(log, Unread(account), sec.key, stored);
    NoteKeepsRow(log, Faulted(account), sec.key, stored);
  }

  lemma GuardKeeps(account: int, sec: Section, now: int, o: Reply, present: Option<AccountState>, stored: Row, log: seq<Event>)
    requires sec.phase.Working? && (sec.phase.at.Guarding? || sec.phase.at.Chosen?)
    requires RowOk(log, sec.key, stored) && Owned(log, account, sec.key, stored, sec.phase.at, sec.phase.row, sec.phase.winner)
    ensures MoveOk(log, account, sec.key, stored, Work(account, sec, now, o, present, stored))
  {
    hide RestoreIntent, Writes, WroteAs, Fresh, Guarded, Confirmed, Matches, ValidationError;
    var winner := sec.phase.winner;
    WinningRoundTrip(winner);
    match sec.phase.at
    case Guarding(a) =>
      PassedEvent(log, account, sec.key);
      RowStays(log, Passed(account), sec.key, stored);
      NoteKeepsRow(log, Denied(account), sec.key, stored);
      NoteKeepsRow(log, Faulted(account), sec.key, stored);
    case Chosen(a) =>
      FreshIsConfirmed(log, account, sec.key);
  }

  lemma WriteKeeps(account: int, sec: Section, now: int, o: Reply, present: Option<AccountState>, stored: Row, log: seq<Event>)
    requires sec.phase.Working? && AtWrite(sec.phase.at)
    requires RowOk(log, sec.key, stored) && Owned(log, account, sec.key, stored, sec.phase.at, sec.phase.row, sec.phase.winner)
    requires sec.job.Submit? ==> HasProceed(log, sec.job.token, sec.phase.winner)
    ensures MoveOk(log, account, sec.key, stored, Work(account, sec, now, o, present, stored))
  {
    hide RestoreIntent, Writes, WroteAs, Fresh, Guarded, Confirmed, Matches, AccountIntent;
    RestoredIsAdmissible(account, stored.winning);
    WroteEvent(log, Wrote(account, sec.key, TokenOf(sec.job), sec.phase.winner, stored.attempts, stored.before, stored.winning, o.answer));
  }

  lemma ReadBackKeeps(account: int, sec: Section, now: int, o: Reply, present: Option<AccountState>, stored: Row, log: seq<Event>)
    requires sec.phase.Working? && (sec.phase.at.ReadingBack? || sec.phase.at.VerifyingRead?)
    requires RowOk(log, sec.key, stored) && Owned(log, account, sec.key, stored, sec.phase.at, sec.phase.row, sec.phase.winner)
    ensures MoveOk(log, account, sec.key, stored, Work(account, sec, now, o, present, stored))
  {
    hide RestoreIntent, Writes, WroteAs, Fresh, Guarded, Confirmed, Matches, AccountIntent;
    var row, winner := sec.phase.row, sec.phase.winner;
    var seen := if o.answer.Good? then present else None;
    match sec.phase.at
    case ReadingBack(a) =>
      if seen == Some(a) && !Matches(a, winner.desired) && row.attempts < 2 {
        ReadEvent(log, account, sec.key, a);
        RowStays(log, Read(account, a), sec.key, stored);
      } else {
        VerifiedKeeps(account, sec.key, true, row, winner, seen, stored, log);
      }
    case VerifyingRead(repair) => VerifiedKeeps(account, sec.key, repair, row, winner, seen, stored, log);
  }

  lemma RecoverKeeps(account: int, sec: Section, now: int, o: Reply, present: Option<AccountState>, stored: Row, log: seq<Event>)
    requires sec.phase.Working? && (sec.phase.at.RecoverRead? || sec.phase.at.RecoverControl? || sec.phase.at.RecoverGuard?
                                   || sec.phase.at.RecoverDecide? || sec.phase.at.RecoverGuardAgain?)
    requires RowOk(log, sec.key, stored) && Owned(log, account, sec.key, stored, sec.phase.at, sec.phase.row, sec.phase.winner)
    ensures MoveOk(log, account, sec.key, stored, Work(account, sec, now, o, present, stored))
  {
    hide RestoreIntent, Writes, WroteAs, Fresh, Guarded, Confirmed, Matches, AccountIntent, Expired;
    match sec.phase.at
    case RecoverRead =>
      if present.Some? {
        ReadEvent(log, account, sec.key, present.value);
        RowStays(log, Read(account, present.value), sec.key, stored);
      }
    case RecoverControl(a) =>
    case RecoverGuard(a) =>
      PassedEvent(log, account, sec.key);
      RowStays(log, Passed(account), sec.key, stored);
      RowStays(log, Denied(account), sec.key, stored);
    case RecoverDecide(a) =>
      FreshIsConfirmed(log, account, sec.key);
      NoteEvent(log, Weighed(account, now), account, sec.key);
      RowStays(log, Weighed(account, now), sec.key, stored);
    case RecoverGuardAgain(a) =>
      PassedEvent(log, account, sec.key);
      RowStays(log, Passed(account), sec.key, stored);
      RowStays(log, Denied(account), sec.key, stored);
  }

  lemma WorkKeeps(account: int, sec: Section, now: int, o: Reply, present: Option<AccountState>, stored: Row, log: seq<Event>)
    requires sec.phase.Working? && RowOk(log, sec.key, stored)
    requires Owned(log, account, sec.key, stored, sec.phase.at, sec.phase.row, sec.phase.winner)
    requires sec.job.Submit? && MayStillWrite(sec.phase.at) ==> HasProceed(log, sec.job.token, sec.phase.winner)
    ensures MoveOk(log, account, sec.key, stored, Work(account, sec, now, o, present, stored))
  {
    hide Owned, RowOk, MoveOk, Work, HasProceed;
    match sec.phase.at
    case Save(_, _) => SaveKeeps(account, sec, now, o, present, stored, log);
    case Commit(_) => SaveKeeps(account, sec, now, o, present, stored, log);
    case Reading => ReadingKeeps(account, sec, now, o, present, stored, log);
    case Controlling(_) => ReadingKeeps(account, sec, now, o, present, stored, log);
    case Guarding(_) => GuardKeeps(account, sec, now, o, present, stored, log);
    case Chosen(_) => GuardKeeps(account, sec, now, o, present, stored, log);
    case Writing(_) => WriteKeeps(account, sec, now, o, present, stored, log);
    case WritingAgain => WriteKeeps(account, sec, now, o, present, stored, log);
    case RecoverWrite => WriteKeeps(account, sec, now, o, present, stored, log);
    case ReadingBack(_) => ReadBackKeeps(account, sec, now, o, present, stored, log);
    case VerifyingRead(_) => ReadBackKeeps(account, sec, now, o, present, stored, log);
    case _ => RecoverKeeps(account, sec, now, o, present, stored, log);
  }

  /** A step never changes the winner, and starts no new way to write. */
  lemma WorkKeepsWinner(account: int, sec: Section, now: int, o: Reply, present: Option<AccountState>, stored: Row)
    requires sec.phase.Working?
    ensures var m := Work(account, sec, now, o, present, stored);
            m.phase.Working? ==>
              m.phase.winner == sec.phase.winner && (MayStillWrite(m.phase.at) ==> MayStillWrite(sec.phase.at))
  {
    hide Matches, Expired, StoreWinning;
  }

  // ------------------------------------------------------- the whole state

  /** An event of one account's section, writing at most the touched row. */
  predicate Local(e: Event, account: int, touched: Option<string>)
  {
    && (e.Began? || e.Read? || e.Passed? || e.Wrote? ==> e.account == account)
    && (e.Wrote? ==> touched == Some(e.key))
  }

  /** From `s` to `t` only one account's section moved, changing at most one row. */
  ghost predicate LocalChange(s: State, t: State, account: int, touched: Option<string>, e: Option<Event>)
  {
    && t.log == Logged(s, e)
    && (e.Some? ==> Justified(s.log, e.value) && Local(e.value, account, touched))
    && (forall k | k in s.journal && touched != Some(k) :: k in t.journal && t.journal[k] == s.journal[k])
    && (forall k | k in t.journal && touched != Some(k) :: k in s.journal)
    && (touched.Some? ==> TouchedOk(s, t, account, touched.value))
    && (forall b | b in t.sections && b != account :: b in s.sections && t.sections[b] == s.sections[b])
    && (account in t.sections ==> SectionOk(t.journal, t.log, account, t.sections[account]))
  }

  ghost predicate TouchedOk(s: State, t: State, account: int, key: string)
  {
    && key in t.journal && RowOk(t.log, key, t.journal[key]) && t.journal[key].account == account
    && (key in s.journal ==> s.journal[key].account == account)
  }

  lemma RowsStay(s: State, t: State, account: int, touched: Option<string>, e: Option<Event>)
    requires Safe(s) && LocalChange(s, t, account, touched, e)
    ensures RowsOk(t) && Unused(t)
  {
    hide RowOk, Justified, SectionOk;
    forall k | k in t.journal ensures RowOk(t.log, k, t.journal[k]) {
      if touched != Some(k) {
        assert t.journal[k] == s.journal[k] && RowOk(s.log, k, s.journal[k]);
        if e.Some? { RowStays(s.log, e.value, k, s.journal[k]); }
      }
    }
    forall k ensures k in t.journal || Writes(t.log, k) == 0 {
      if e.Some? { Extended(s.log, e.value); }
    }
  }

  lemma SectionsStay(s: State, t: State, account: int, touched: Option<string>, e: Option<Event>)
    requires Safe(s) && LocalChange(s, t, account, touched, e)
    ensures SectionsOk(t)
  {
    hide RowOk, Justified, SectionOk, LogOk, WaitingOk;
    forall b | b in t.sections ensures SectionOk(t.journal, t.log, b, t.sections[b]) {
      if b != account {
        var sec := s.sections[b];
        if sec.phase.Working? { WorkingOwns(s.journal, s.log, b, sec); }
        SectionStays(s.journal, t.journal, s.log, e, b, sec);
      }
    }
  }

  lemma WorkingOwns(j: map<string, Row>, log: seq<Event>, account: int, sec: Section)
    requires SectionOk(j, log, account, sec) && sec.phase.Working?
    ensures sec.key in j && j[sec.key].account == account && !Terminal(j[sec.key].status)
  {
  }

  lemma SafeAfter(s: State, t: State, account: int, touched: Option<string>, e: Option<Event>)
    requires Safe(s) && LocalChange(s, t, account, touched, e) && WaitingOk(t)
    ensures Safe(t)
  {
    RowsStay(s, t, account, touched, e);
    SectionsStay(s, t, account, touched, e);
    hide Justified, RowOk, SectionOk;
    if e.Some? { LogOkExtends(s.log, e.value); }
  }

  lemma MovedSafe(s: State, account: int, m: Move, effect: bool, touched: Option<string>)
    requires Safe(s) && account in s.sections
    requires m.stored.Some? ==> touched.Some?
    requires touched.Some? ==> touched.value == s.sections[account].key
    requires m.event.Some? ==> Justified(s.log, m.event.value) && Local(m.event.value, account, touched)
    requires var t := Moved(s, account, s.sections[account], m, effect);
             && SectionOk(t.journal, t.log, account, t.sections[account])
             && (touched.Some? ==> TouchedOk(s, t, account, touched.value))
    ensures Safe(Moved(s, account, s.sections[account], m, effect))
  {
    hide RowOk, Justified, LogOk, SectionOk, WaitingOk;
    var t := Moved(s, account, s.sections[account], m, effect);
    assert WaitingOk(t) by { WaitingStays(s, t); }
    SafeAfter(s, t, account, touched, m.event);
  }

  lemma WaitingStays(s: State, t: State)
    requires WaitingOk(s) && t.waiting == s.waiting
    ensures WaitingOk(t)
  {
  }

  lemma WorkingSection(j: map<string, Row>, log: seq<Event>, account: int, sec: Section, m: Move, k: map<string, Row>)
    requires SectionOk(j, log, account, sec) && sec.phase.Working? && sec.key in j
    requires MoveOk(log, account, sec.key, j[sec.key], m)
    requires m.phase.Working? ==> m.phase.winner == sec.phase.winner && (MayStillWrite(m.phase.at) ==> MayStillWrite(sec.phase.at))
    requires k == if m.stored.Some? then j[sec.key := m.stored.value] else j
    ensures SectionOk(k, if m.event.None? then log else log + [m.event.value], account, sec.(phase := m.phase))
  {
    hide Owned, RowOk, Justified, HasProceed, AccountIntent;
    if sec.job.Submit? && m.event.Some? && MayStillWrite(sec.phase.at) {
      ProceedStays(log, m.event.value, sec.job.token, sec.phase.winner);
    }
  }

  lemma WorkingSafe(s: State, account: int, o: Reply)
    requires Safe(s) && account in s.sections && s.sections[account].phase.Working?
    ensures Safe(Advanced(s, account, o))
  {
    hide Work, Owned, RowOk, Justified, LogOk, AccountIntent, HasProceed, SectionOk;
    var sec := s.sections[account];
    assert SectionOk(s.journal, s.log, account, sec);
    WorkingOwns(s.journal, s.log, account, sec);
    WorkingKeeps(s.journal, s.log, account, sec);
    var stored := s.journal[sec.key];
    var present := if account in s.upstream then Some(s.upstream[account]) else None;
    var m := Work(account, sec, s.now, o, present, stored);
    assert RowOk(s.log, sec.key, stored);
    WorkKeeps(account, sec, s.now, o, present, stored, s.log);
    WorkKeepsWinner(account, sec, s.now, o, present, stored);
    var t := Moved(s, account, sec, m, o.effect);
    WorkingSection(s.journal, s.log, account, sec, m, t.journal);
    MovedSafe(s, account, m, o.effect, Some(sec.key));
  }

  lemma WorkingKeeps(j: map<string, Row>, log: seq<Event>, account: int, sec: Section)
    requires SectionOk(j, log, account, sec) && sec.phase.Working? && sec.key in j
    ensures Owned(log, account, sec.key, j[sec.key], sec.phase.at, sec.phase.row, sec.phase.winner)
    ensures sec.job.Submit? && MayStillWrite(sec.phase.at) ==> HasProceed(log, sec.job.token, sec.phase.winner)
  {
    hide Owned;
  }

  lemma NoteIsJustified(log: seq<Event>, e: Event)
    requires Note(e)
    ensures Justified(log, e)
  {
  }

  lemma LookupSafe(s: State, account: int, o: Reply)
    requires Safe(s) && account in s.sections && s.sections[account].phase.Lookup?
    ensures Safe(Advanced(s, account, o))
  {
    hide RowOk, Justified, LogOk, SectionOk, LookUp;
    var sec := s.sections[account];
    assert SectionOk(s.journal, s.log, account, sec);
    if sec.key in s.journal { assert RowOk(s.log, sec.key, s.journal[sec.key]); }
    LookupSection(s.journal, s.log, account, sec, s.now, o);
    NoteIsJustified(s.log, Weighed(account, s.now));
    MovedSafe(s, account, LookUp(account, sec, s.now, o, s.journal), false, None);
  }

  lemma LookupSection(j: map<string, Row>, log: seq<Event>, account: int, sec: Section, now: int, o: Reply)
    requires SectionOk(j, log, account, sec) && sec.phase.Lookup?
    requires sec.key in j ==> RowOk(log, sec.key, j[sec.key])
    ensures var m := LookUp(account, sec, now, o, j);
            && m.stored.None? && (m.event.Some? ==> m.event == Some(Weighed(account, now)))
            && SectionOk(j, if m.event.None? then log else log + [m.event.value], account, sec.(phase := m.phase))
  {
    hide RowOk, RestoreIntent, AccountIntent, HasProceed, Owned, RequestSignature, Expired;
    if sec.key in j && j[sec.key].account == account && !Terminal(j[sec.key].status) {
      LookedUp(log, account, sec.key, j[sec.key]);
      LookedUpNote(log + [Weighed(account, now)], account, sec.key, j[sec.key]);
    }
  }

  lemma LookedUpNote(log: seq<Event>, account: int, key: string, row: Row)
    requires RestoreIntent(account, row.winning).Some? && row.account == account && !Terminal(row.status) && row.attempts <= 2
    ensures Owned(log, account, key, row, Commit(false), row.(status := ExpiredStatus), RestoreIntent(account, row.winning).value)
  {
    hide RestoreIntent;
    RestoredIsAdmissible(account, row.winning);
  }

  lemma LookedUp(log: seq<Event>, account: int, key: string, row: Row)
    requires RowOk(log, key, row) && row.account == account && !Terminal(row.status)
    ensures var w := RestoreIntent(account, row.winning).value;
            && Owned(log, account, key, row, RecoverRead, row, w)
            && RestoreIntent(account, row.winning).Some? && row.attempts <= 2
  {
    hide RestoreIntent;
    RestoredIsAdmissible(account, row.winning);
  }

  lemma DecidingSafe(s: State, account: int, o: Reply)
    requires Safe(s) && account in s.sections && s.sections[account].phase.Deciding?
    ensures Safe(Advanced(s, account, o))
  {
    hide RowOk, Justified, LogOk, AccountIntent;
    SafeAfter(s, Advanced(s, account, o), account, None, None);
  }

  lemma NewRowOwned(log: seq<Event>, account: int, key: string, sub: Submission, winner: Intent, status: Status)
    requires AccountIntent(winner) && winner.resource == AccountResource(account) && Writes(log, key) == 0
    requires Terminal(status) && !Effective(status)
    ensures var row := NewRow(account, sub, winner);
            && RowOk(log, key, row)
            && Owned(log, account, key, row, Save(Some(Reading), None), row.(status := Validating), winner)
            && Owned(log, account, key, row, Commit(false), row.(status := status), winner)
  {
    hide RestoreIntent, AccountIntent, RequestSignature;
    WinningRoundTrip(winner);
  }

  lemma PreparingSection(j: map<string, Row>, log: seq<Event>, account: int, sec: Section, o: Reply)
    requires SectionOk(j, log, account, sec) && sec.phase.Preparing?
    requires sec.key in j || Writes(log, sec.key) == 0
    ensures var m := Prepare(sec, o, j);
            var k := if m.stored.Some? then j[sec.key := m.stored.value] else j;
            && SectionOk(k, log, account, sec.(phase := m.phase)) && m.event.None?
            && (m.stored.Some? ==> sec.key !in j && RowOk(log, sec.key, m.stored.value) && m.stored.value.account == account)
  {
    hide RowOk, AccountIntent, Owned, HasProceed, NewRow;
    if sec.key !in j {
      NewRowOwned(log, account, sec.key, sec.job.sub, sec.phase.winner, Superseded);
      NewRowOwned(log, account, sec.key, sec.job.sub, sec.phase.winner, ExpiredStatus);
      NewRowAccount(account, sec.job.sub, sec.phase.winner);
    }
  }

  lemma PreparingSafe(s: State, account: int, o: Reply)
    requires Safe(s) && account in s.sections && s.sections[account].phase.Preparing?
    ensures Safe(Advanced(s, account, o))
  {
    hide RowOk, Justified, LogOk, SectionOk, Prepare;
    var sec := s.sections[account];
    assert SectionOk(s.journal, s.log, account, sec);
    assert sec.key in s.journal || Writes(s.log, sec.key) == 0;
    PreparingSection(s.journal, s.log, account, sec, o);
    var m := Prepare(sec, o, s.journal);
    MovedSafe(s, account, m, false, if m.stored.Some? then Some(sec.key) else None);
  }

  lemma NewRowAccount(account: int, sub: Submission, winner: Intent)
    ensures NewRow(account, sub, winner).account == account
  {
  }

  lemma DoneSafe(s: State, account: int, o: Reply)
    requires Safe(s) && account in s.sections && (s.sections[account].phase.Done? || s.sections[account].phase.Leaving?)
    ensures Safe(Advanced(s, account, o))
  {
    hide RowOk, Justified, LogOk, AccountIntent, Owned, HasProceed, FinishIn;
    var sec := s.sections[account];
    var t := Advanced(s, account, o);
    if sec.phase.Done? && sec.job.Submit? {
      FinishedIsJustified(s.log, sec.job.token, sec.phase.status);
      SafeAfter(s, t, account, None, Some(Finished(sec.job.token, sec.phase.status)));
    } else {
      SafeAfter(s, t, account, None, None);
    }
  }

  lemma FinishedIsJustified(log: seq<Event>, token: nat, status: Option<Status>)
    ensures Justified(log, Finished(token, status))
  {
  }

  /** What any decision may act on is an admissible intent for the account. */
  lemma DecisionAdmissible(now: int, m: multiset<Intent>, results: seq<Arbiter.Arbitration>, submitted: Intent)
    requires Arbitrated(now, m, results) && AccountIntent(submitted)
    ensures var w := WinnerOf(Decide(results, submitted), submitted);
            AccountIntent(w) && w.resource == submitted.resource
  {
    hide Active, Conflicted, ResultLess, Decide, ValidationError, Arbiter.Settled;
    var d := Decide(results, submitted);
    if d.Proceed? || (d.Yield? && d.other.Some?) {
      var r := DecisionHasResult(results, submitted);
      assert Arbiter.Settled(now, m, r);
      WinnerIsEligible(now, m, r);
      ActiveIsValid(now, r.winner.value);
    }
  }

  lemma ActiveIsValid(now: int, i: Intent)
    requires Active(now, i)
    ensures Valid(i)
  {
  }

  lemma {:induction false} DecisionHasResult(results: seq<Arbiter.Arbitration>, submitted: Intent) returns (r: Arbiter.Arbitration)
    requires var d := Decide(results, submitted); d.Proceed? || (d.Yield? && d.other.Some?)
    ensures r in results && r.key == KeyOf(submitted) && r.winner.Some?
    ensures r.winner.value == WinnerOf(Decide(results, submitted), submitted)
  {
    if results[0].key == KeyOf(submitted) && results[0].winner.Some? {
      r := results[0];
    } else {
      r := DecisionHasResult(results[1..], submitted);
    }
  }

  lemma ArbitratingSafe(s: State, account: int, overrides: seq<Intent>, results: seq<Arbiter.Arbitration>)
    requires Safe(s) && account in s.sections
    ensures Safe(Arbitrating(s, account, overrides, results))
  {
    hide RowOk, LogOk, AccountIntent, Owned, NewRow, Decide, Arbitrated, Candidates, AccountIntent;
    var sec := s.sections[account];
    var t := Arbitrating(s, account, overrides, results);
    assert SectionOk(s.journal, s.log, account, sec);
    if t != s {
      var sub := sec.job.sub;
      var candidates := Candidates(s, sec, overrides);
      DecisionAdmissible(sec.phase.now, multiset(candidates), results, sub.intent);
      PlacedResource(account, sub);
      var d := Decide(results, sub.intent);
      var e := Decided(sec.job.token, sec.phase.now, candidates, d);
      assert t.log == s.log + [e] && e in t.log;
      SafeAfter(s, t, account, None, Some(e));
    }
  }

  lemma PlacedResource(account: int, sub: Submission)
    requires Placed(account, sub)
    ensures sub.intent.resource == AccountResource(account)
  {
  }

  lemma BeginSafe(s: State, account: int, sec: Section, waiting: map<nat, Submission>)
    requires Safe(s) && account !in s.sections && sec.phase.Lookup? && SectionOk(s.journal, s.log, account, sec)
    requires forall t | t in waiting :: t in s.waiting && waiting[t] == s.waiting[t]
    ensures Safe(s.(waiting := waiting, sections := s.sections[account := sec], log := s.log + [Began(account)]))
  {
    hide RowOk, LogOk, AccountIntent;
    SafeAfter(s, s.(waiting := waiting, sections := s.sections[account := sec], log := s.log + [Began(account)]), account, None, Some(Began(account)));
  }

  lemma StepSafe(s: State, a: Action)
    requires Safe(s)
    ensures Safe(Step(s, a))
  {
    hide RowOk, Justified, LogOk, AccountIntent, Owned, HasProceed, FinishIn, AddTo, Advanced, Arbitrating;
    match a
    case Begin(token) =>
      if token in s.waiting && AccountOf(s.waiting[token].intent) !in s.sections {
        var sub := s.waiting[token];
        BeginSafe(s, AccountOf(sub.intent), Section(Submit(token, sub), JournalKey(sub), Lookup), s.waiting - {token});
      }
    case BeginRecovery(key) =>
      if key in s.journal && s.journal[key].account !in s.sections {
        BeginSafe(s, s.journal[key].account, Section(Recover, key, Lookup), s.waiting);
      }
    case Advance(account, o) =>
      if account in s.sections {
        match s.sections[account].phase
        case Lookup => LookupSafe(s, account, o);
        case Deciding(_) => DecidingSafe(s, account, o);
        case Preparing(_, _, _) => PreparingSafe(s, account, o);
        case Working(_, _, _) => WorkingSafe(s, account, o);
        case Done(_) => DoneSafe(s, account, o);
        case Leaving => DoneSafe(s, account, o);
      }
    case Arbitration(account, overrides, results) =>
      if account in s.sections { ArbitratingSafe(s, account, overrides, results); }
    case Withdraw(token) =>
      if token in s.waiting {
        WithdrawSafe(s, token);
      }
    case _ =>
  }

  lemma WithdrawSafe(s: State, token: nat)
    requires Safe(s) && token in s.waiting
    ensures Safe(Step(s, Withdraw(token)))
  {
    hide RowOk, Justified, LogOk, AccountIntent, FinishIn, SectionOk;
    FinishedIsJustified(s.log, token, None);
    var t := Step(s, Withdraw(token));
    var e := Finished(token, None);
    if 0 in s.sections { SectionStays(s.journal, t.journal, s.log, Some(e), 0, s.sections[0]); }
    SafeAfter(s, t, 0, None, Some(e));
  }

  lemma {:induction false} RunSafe(s: State, actions: seq<Action>)
    requires Safe(s)
    ensures Safe(Run(s, actions))
    decreases |actions|
  {
    hide Safe, Step;
    if actions != [] {
      StepSafe(s, actions[0]);
      RunSafe(Step(s, actions[0]), actions[1..]);
    }
  }

  lemma StartSafe(upstream: map<int, AccountState>, now: int)
    ensures Safe(Start(upstream, now))
  {
  }

  // -------------------------------------------------------------- theorems

  /** How a row may evolve: it stays on its account and request, its attempt
      count never falls, and once terminal it never changes. */
  predicate Evolves(a: Row, b: Row)
  {
    && b.account == a.account && b.signature == a.signature && a.attempts <= b.attempts
    && (a.status in {Applied, AppliedNoop, Blocked, Failed, Superseded, ExpiredStatus} ==> b == a)
  }

  lemma WorkEvolves(log: seq<Event>, account: int, sec: Section, now: int, o: Reply, present: Option<AccountState>, stored: Row)
    requires sec.phase.Working?
    requires Owned(log, account, sec.key, stored, sec.phase.at, sec.phase.row, sec.phase.winner)
    ensures var m := Work(account, sec, now, o, present, stored);
            m.stored.Some? ==> Evolves(stored, m.stored.value)
  {
    hide Ready, Stands, AfterOk, Recovering, Verified;
    VerifiedStoresNothing(account, sec.phase.row, sec.phase.winner, if o.answer.Good? then present else None);
  }

  lemma VerifiedStoresNothing(account: int, row: Row, winner: Intent, seen: Option<AccountState>)
    ensures forall repair :: Verified(account, repair, row, winner, seen).stored.None?
  {
  }

  predicate WorkStep(s: State, a: Action)
  {
    a.Advance? && a.account in s.sections && s.sections[a.account].phase.Working?
  }

  /** A step that leaves all rows alone and writes nothing. */
  predicate Quiet(s: State, t: State)
  {
    && (forall k | k in s.journal :: k in t.journal && t.journal[k] == s.journal[k])
    && (t.log == s.log || (|t.log| == |s.log| + 1 && t.log == s.log + [t.log[|s.log|]] && !t.log[|s.log|].Wrote?))
  }

  lemma AdvanceIsQuiet(s: State, account: int, o: Reply)
    requires account in s.sections && !s.sections[account].phase.Working?
    ensures Quiet(s, Advanced(s, account, o))
  {
    hide FinishIn, RestoreIntent, RequestSignature, NewRow;
    var sec := s.sections[account];
    if sec.phase.Preparing? {
      var m := Prepare(sec, o, s.journal);
      assert m.event.None? && (m.stored.Some? ==> sec.key !in s.journal);
    }
  }

  lemma OtherStepsAreQuiet(s: State, a: Action)
    requires !WorkStep(s, a)
    ensures Quiet(s, Step(s, a))
  {
    hide FinishIn, AddTo, Advanced, Arbitrated, Candidates, Decide, NewRow, AccountIntent;
    if a.Advance? && a.account in s.sections { AdvanceIsQuiet(s, a.account, a.outcome); }
  }

  lemma StepEvolves(s: State, a: Action, key: string)
    requires Safe(s) && key in s.journal
    ensures var t := Step(s, a);
            key in t.journal && Evolves(s.journal[key], t.journal[key])
    ensures Terminal(s.journal[key].status) ==> Writes(Step(s, a).log, key) == Writes(s.log, key)
  {
    hide Safe, Advanced;
    if WorkStep(s, a) {
      WorkingEvolves(s, a.account, a.outcome, key);
    } else {
      OtherStepsAreQuiet(s, a);
      var t := Step(s, a);
      hide Step;
      if t.log != s.log { Extended(s.log, t.log[|s.log|]); }
    }
  }

  lemma WorkingEvolves(s: State, account: int, o: Reply, key: string)
    requires Safe(s) && key in s.journal && account in s.sections && s.sections[account].phase.Working?
    ensures var t := Advanced(s, account, o);
            key in t.journal && Evolves(s.journal[key], t.journal[key])
    ensures Terminal(s.journal[key].status) ==> Writes(Advanced(s, account, o).log, key) == Writes(s.log, key)
  {
    hide Work, Owned, RowOk, Justified, LogOk, AccountIntent, HasProceed, SectionOk;
    var sec := s.sections[account];
    assert SectionOk(s.journal, s.log, account, sec);
    WorkingOwns(s.journal, s.log, account, sec);
    WorkingKeeps(s.journal, s.log, account, sec);
    var stored := s.journal[sec.key];
    var present := if account in s.upstream then Some(s.upstream[account]) else None;
    var m := Work(account, sec, s.now, o, present, stored);
    assert RowOk(s.log, sec.key, stored);
    WorkKeeps(account, sec, s.now, o, present, stored, s.log);
    WorkEvolves(s.log, account, sec, s.now, o, present, stored);
    if m.event.Some? { Extended(s.log, m.event.value); }
  }

  /** Over any continuation of any run, a row keeps its account and request,
      its attempts only grow, and a terminal row is never changed or written again. */
  lemma {:induction false} RowsEvolve(s: State, actions: seq<Action>, key: string)
    requires Safe(s) && key in s.journal
    ensures var t := Run(s, actions);
            key in t.journal && Evolves(s.journal[key], t.journal[key])
    ensures s.journal[key].status in {Applied, AppliedNoop, Blocked, Failed, Superseded, ExpiredStatus} ==>
              Writes(Run(s, actions).log, key) == Writes(s.log, key)
    decreases |actions|
  {
    hide Safe, Step, Writes;
    if actions != [] {
      StepSafe(s, actions[0]);
      StepEvolves(s, actions[0], key);
      RowsEvolve(Step(s, actions[0]), actions[1..], key);
    }
  }

  /** One journal row causes at most two upstream writes, each counted in the
      row before it is made, over every run of commands, crashes and recoveries. */
  lemma AtMostTwoWrites(upstream: map<int, AccountState>, now: int, actions: seq<Action>, key: string)
    ensures var s := Run(Start(upstream, now), actions);
            Writes(s.log, key) <= if key in s.journal then s.journal[key].attempts else 0
    ensures var s := Run(Start(upstream, now), actions);
            key in s.journal ==> s.journal[key].attempts <= 2
  {
    StartSafe(upstream, now);
    RunSafe(Start(upstream, now), actions);
    var s := Run(Start(upstream, now), actions);
    hide Run;
    assert key in s.journal ==> RowOk(s.log, key, s.journal[key]);
  }

  /** From `n` on, the account's lock section has not ended and begun anew. */
  predicate SameSection(log: seq<Event>, n: nat, account: int)
  {
    forall k | n <= k < |log| :: log[k] != Began(account)
  }

  predicate NoWriteSince(log: seq<Event>, n: nat, key: string)
  {
    forall k | n <= k < |log| :: !(log[k].Wrote? && log[k].key == key)
  }

  predicate NoReadSince(log: seq<Event>, n: nat, account: int)
  {
    forall k | n <= k < |log| :: !(log[k].Read? && log[k].account == account)
  }

  lemma {:induction false} FreshWitness(log: seq<Event>, account: int, key: string) returns (n: nat)
    requires Fresh(log, account, key).Some?
    ensures n < |log| && log[n] == Read(account, Fresh(log, account, key).value)
    ensures SameSection(log, n, account) && NoWriteSince(log, n, key) && NoReadSince(log, n + 1, account)
  {
    var e := log[|log| - 1];
    n := |log| - 1;
    if !(e.Read? && e.account == account) {
      n := FreshWitness(log[..|log| - 1], account, key);
    }
  }

  lemma {:induction false} GuardWitness(log: seq<Event>, account: int) returns (n: nat)
    requires Guarded(log, account)
    ensures n < |log| && log[n] == Passed(account) && SameSection(log, n, account)
  {
    n := |log| - 1;
    if log[n] != Passed(account) {
      n := GuardWitness(log[..|log| - 1], account);
    }
  }

  lemma {:induction false} ConfirmedWitness(log: seq<Event>, account: int, key: string, seen: AccountState) returns (n: nat)
    requires Confirmed(log, account, key, seen)
    ensures n < |log| && log[n] == Read(account, seen) && NoWriteSince(log, n, key)
  {
    n := |log| - 1;
    if log[n] != Read(account, seen) {
      n := ConfirmedWitness(log[..|log| - 1], account, key, seen);
    }
  }

  lemma {:induction false} WriteIsCounted(log: seq<Event>, w: nat)
    requires w < |log| && log[w].Wrote?
    ensures Writes(log, log[w].key) > 0
  {
    if w < |log| - 1 { WriteIsCounted(log[..|log| - 1], w); }
  }

  lemma {:induction false} WrittenColumns(log: seq<Event>, key: string, c: Columns, w: nat)
    requires WroteAs(log, key, c) && w < |log| && log[w].Wrote? && log[w].key == key
    ensures log[w].winning == c
  {
    if w < |log| - 1 { WrittenColumns(log[..|log| - 1], key, c, w); }
  }

  /** Every write, whether of a command or a recovery, follows a guard pass and a
      read of exactly the journaled Before state in the same lock section, with
      no write of that row in between; its attempt was journaled first, what it
      asks for is what the intent rebuilt from the row's columns asks for, and the
      state before does not have it yet. */
  lemma EveryWriteIsGuarded(upstream: map<int, AccountState>, now: int, actions: seq<Action>, w: nat)
      returns (guard: nat, read: nat)
    requires var log := Run(Start(upstream, now), actions).log; w < |log| && log[w].Wrote?
    ensures var log := Run(Start(upstream, now), actions).log;
            var e := log[w];
            && guard < w && log[guard] == Passed(e.account) && SameSection(log[..w], guard, e.account)
            && read < w && e.before.Some? && log[read] == Read(e.account, e.before.value)
            && SameSection(log[..w], read, e.account) && NoWriteSince(log[..w], read, e.key)
            && NoReadSince(log[..w], read + 1, e.account)
            && Writes(log[..w], e.key) < e.attempts <= 2
    ensures var s := Run(Start(upstream, now), actions);
            var e := s.log[w];
            e.key in s.journal && s.journal[e.key].winning == e.winning && Rebuilds(e.account, s.journal[e.key].winning, e.intent)
    ensures var e := Run(Start(upstream, now), actions).log[w];
            && (e.intent.desired.Schedulable? || e.intent.desired.LoadFactor?)
            && (e.intent.desired.Schedulable? ==> e.before.value.schedulable != e.intent.desired.value)
            && (e.intent.desired.LoadFactor? ==> e.before.value.loadFactor != e.intent.desired.factor)
  {
    StartSafe(upstream, now);
    RunSafe(Start(upstream, now), actions);
    var s := Run(Start(upstream, now), actions);
    var log := s.log;
    hide Run, Start, Rebuilds;
    assert Justified(log[..w], log[w]);
    WriteIsCounted(log, w);
    assert log[w].key in s.journal;
    assert RowOk(log, log[w].key, s.journal[log[w].key]);
    WrittenColumns(log, log[w].key, s.journal[log[w].key].winning, w);
    RebuiltDesire(log[w].account, log[w].winning, log[w].intent);
    read := FreshWitness(log[..w], log[w].account, log[w].key);
    guard := GuardWitness(log[..w], log[w].account);
  }

  lemma RebuiltDesire(account: int, c: Columns, i: Intent)
    requires Rebuilds(account, c, i)
    ensures i.desired.Schedulable? || i.desired.LoadFactor?
  {
    RestoredIsAdmissible(account, c);
    DesiredFitsOperation(RestoreIntent(account, c).value);
  }

  /** In every reachable journal a row marked applied or applied_noop carries a
      state read from the account, not earlier than the row's last write, and
      that state has the schedulability or the load factor that the intent
      rebuilt from the row asks for. */
  lemma AppliedRowsAreVerified(upstream: map<int, AccountState>, now: int, actions: seq<Action>, key: string) returns (read: nat)
    requires var s := Run(Start(upstream, now), actions);
             key in s.journal && s.journal[key].status in {Applied, AppliedNoop}
    ensures var s := Run(Start(upstream, now), actions);
            var row := s.journal[key];
            && row.after.Some? && read < |s.log| && s.log[read] == Read(row.account, row.after.value)
            && NoWriteSince(s.log, read, key)
    ensures var row := Run(Start(upstream, now), actions).journal[key];
            var winner := RestoreIntent(row.account, row.winning);
            && winner.Some? && (winner.value.desired.Schedulable? || winner.value.desired.LoadFactor?)
            && (winner.value.desired.Schedulable? ==> row.after.value.schedulable == winner.value.desired.value)
            && (winner.value.desired.LoadFactor? ==> row.after.value.loadFactor == winner.value.desired.factor)
  {
    StartSafe(upstream, now);
    RunSafe(Start(upstream, now), actions);
    var s := Run(Start(upstream, now), actions);
    hide Run, Start, RestoreIntent;
    var row := s.journal[key];
    assert RowOk(s.log, key, row);
    read := ConfirmedWitness(s.log, row.account, key, row.after.value);
  }

  /** Recovery can always rebuild the winner of a reachable row. */
  lemma EveryRowRestores(upstream: map<int, AccountState>, now: int, actions: seq<Action>, key: string)
    requires key in Run(Start(upstream, now), actions).journal
    ensures var row := Run(Start(upstream, now), actions).journal[key];
            RestoreIntent(row.account, row.winning).Some?
  {
    StartSafe(upstream, now);
    RunSafe(Start(upstream, now), actions);
    var s := Run(Start(upstream, now), actions);
    hide Run, Start, RestoreIntent;
    assert RowOk(s.log, key, s.journal[key]);
  }
}

/** The account mutation protocol as a step system. A lock section runs one
    Submit or one recovery; every journal, guard and network operation is a
    separate step whose outcome the environment picks, and a crash may come
    between any two of them. */
module AccountJournal {
  import opened Options
  import opened Intents
  import opened Arbiter
  import opened WinningIntent
  import opened CandidateQueue
  import Text

  // ----------------------------------------------------------------- data

  datatype Status =
    | Prepared | Validating | Executing | Verifying | Applied | AppliedNoop
    | Blocked | Failed | Uncertain | Superseded | ExpiredStatus

  predicate Terminal(s: Status)
  {
    s.Applied? || s.AppliedNoop? || s.Blocked? || s.Failed? || s.Superseded? || s.ExpiredStatus?
  }

  /** retainQueuedCandidate; an error return carries no status. */
  predicate Retained(s: Option<Status>)
  {
    s.Some? && (s.value.Applied? || s.value.AppliedNoop? || s.value.Executing? || s.value.Verifying? || s.value.Uncertain?)
  }

  predicate Early(s: Status)
  {
    s.Prepared? || s.Validating?
  }

  datatype AccountState = AccountState(schedulable: bool, loadFactor: Option<int>)

  /** accountMatchesIntent. */
  predicate Matches(a: AccountState, d: DesiredState)
  {
    match d
    case Schedulable(value) => a.schedulable == value
    case LoadFactor(factor) => a.loadFactor == factor
    case _ => false
  }

  /** The upstream effect of executor.write. */
  function Effect(a: AccountState, d: DesiredState): AccountState
  {
    match d
    case Schedulable(value) => a.(schedulable := value)
    case LoadFactor(factor) => a.(loadFactor := factor)
    case _ => a
  }

  datatype Row = Row(
    account: int,
    signature: string,
    winning: Columns,
    status: Status,
    attempts: nat,
    before: Option<AccountState>,
    after: Option<AccountState>)

  datatype Submission = Submission(intent: Intent, requestKey: string, requestSignature: string)

  function JournalKey(sub: Submission): string
  {
    if Text.Trim(sub.requestKey) == "" then sub.intent.idempotencyKey else Text.Trim(sub.requestKey)
  }

  function QueueRequestKey(sub: Submission): string
  {
    if Text.Trim(sub.requestKey) == "" then Text.Trim(sub.intent.idempotencyKey) else Text.Trim(sub.requestKey)
  }

  function RequestSignature(sub: Submission): string
  {
    if Text.Trim(sub.requestSignature) == "" then Signature(sub.intent) else Text.Trim(sub.requestSignature)
  }

  // ------------------------------------------------------------- sections

  datatype Job = Submit(token: nat, sub: Submission) | Recover

  /** Where a section stands once it owns a journal row. `Save` is an
      UpdateAccountMutation and `Commit` a FinalizeAccountMutation of the
      section's copy of the row. */
  datatype Pc =
    | Save(next: Option<Pc>, failed: Option<Status>)
    | Commit(repair: bool)
    | Reading | Controlling(seen: AccountState) | Guarding(seen: AccountState) | Chosen(seen: AccountState)
    | Writing(seen: AccountState) | ReadingBack(seen: AccountState) | WritingAgain
    | VerifyingRead(repair: bool)
    | RecoverRead | RecoverControl(seen: AccountState) | RecoverGuard(seen: AccountState)
    | RecoverDecide(seen: AccountState) | RecoverGuardAgain(seen: AccountState) | RecoverWrite

  datatype Phase =
    | Lookup
    | Deciding(now: int)
    | Preparing(decision: Decision, row: Row, winner: Intent)
    | Working(at: Pc, row: Row, winner: Intent)
    | Done(status: Option<Status>)
    | Leaving

  datatype Section = Section(job: Job, key: string, phase: Phase)

  /** What the environment answers. `effect` says whether a failing journal
      update was stored, or whether a write reached the account. */
  datatype Answer = Good | Block | Definite | Ambiguous
  datatype Reply = Reply(answer: Answer, effect: bool)

  /** What the log records of a section: its beginning, what it read or failed to
      read, how guards and controls answered, when a recovery weighed the winner's
      expiry, its writes, its decision, the row it closed, and its end. */
  datatype Event =
    | Began(account: int)
    | Read(account: int, seen: AccountState)
    | Passed(account: int)
    | Missed(account: int)
    | Unread(account: int)
    | Denied(account: int)
    | Faulted(account: int)
    | Weighed(account: int, now: int)
    | Wrote(account: int, key: string, author: Option<nat>, intent: Intent, attempts: nat, before: Option<AccountState>, winning: Columns, answer: Answer)
    | Closed(account: int, key: string, author: Option<nat>, row: Row)
    | Decided(token: nat, now: int, candidates: seq<Intent>, decision: Decision)
    | Finished(token: nat, status: Option<Status>)

  datatype State = State(
    journal: map<string, Row>,
    upstream: map<int, AccountState>,
    queue: Queue,
    waiting: map<nat, Submission>,
    sections: map<int, Section>,
    log: seq<Event>,
    now: int)

  function Start(upstream: map<int, AccountState>, now: int): State
  {
    State(map[], upstream, EMPTY, map[], map[], [], now)
  }

  // ---------------------------------------------------- one section's step

  /** The section's next phase, the row it stores, and what it did. */
  datatype Move = Move(phase: Phase, stored: Option<Row>, event: Option<Event>)

  function Silent(phase: Phase): Move
  {
    Move(phase, None, None)
  }

  function Uncertainly(row: Row, winner: Intent): Phase
  {
    Working(Save(None, None), row.(status := Uncertain), winner)
  }

  function Ending(status: Status, row: Row, winner: Intent): Phase
  {
    Working(Commit(false), row.(status := status), winner)
  }

  function Raised(row: Row): Row
  {
    row.(status := Executing, attempts := row.attempts + 1)
  }

  function TokenOf(job: Job): Option<nat>
  {
    if job.Submit? then Some(job.token) else None
  }

  /** A readback that should show the winner: applied, or uncertain. */
  function Verified(account: int, repair: bool, row: Row, winner: Intent, seen: Option<AccountState>): Move
  {
    if seen.None? then Silent(Uncertainly(row, winner))
    else if Matches(seen.value, winner.desired) then
      Move(Working(Commit(repair), row.(after := seen, status := Applied), winner), None, Some(Read(account, seen.value)))
    else Move(Uncertainly(row, winner), None, Some(Read(account, seen.value)))
  }

  /** The decision in the middle of recoverOne. */
  function Recovering(now: int, row: Row, winner: Intent, seen: AccountState): Phase
  {
    if Matches(seen, winner.desired) then Working(Commit(false), row.(after := Some(seen), status := Applied), winner)
    else if Expired(winner, now) then Ending(ExpiredStatus, row, winner)
    else if row.before.None? && !Early(row.status) then Uncertainly(row, winner)
    else
      var r := if row.before.None? then row.(before := Some(seen)) else row;
      if r.before.value != seen || r.attempts >= 2 then Uncertainly(r, winner)
      else Working(RecoverGuardAgain(seen), r, winner)
  }

  /** One step of a section that owns its row. `seen` is the account's state
      when the account list was read and holds it; `before` and `attempts` are
      what the journal holds. */
  function Work(account: int, sec: Section, now: int, o: Reply, present: Option<AccountState>, stored: Row): Move
    requires sec.phase.Working?
  {
    var row, winner := sec.phase.row, sec.phase.winner;
    var good := o.answer.Good?;
    var seen := if good then present else None;
    var wrote := Some(Wrote(account, sec.key, TokenOf(sec.job), winner, stored.attempts, stored.before, stored.winning, o.answer));
    match sec.phase.at
    case Save(next, failed) =>
      if !good then Move(Done(failed), if o.effect then Some(row) else None, None)
      else Move(if next.None? then Done(Some(row.status)) else Working(next.value, row, winner), Some(row), None)
    case Commit(repair) =>
      if good then Move(Done(Some(row.status)), Some(row), Some(Closed(account, sec.key, TokenOf(sec.job), row)))
      else if repair then Silent(Working(Save(None, Some(Verifying)), row.(status := Verifying), winner))
      else Silent(Done(None))
    case Reading =>
      if seen.Some? then Move(Working(Controlling(seen.value), row, winner), None, Some(Read(account, seen.value)))
      else Move(Ending(if good then Blocked else Failed, row, winner), None, Some(if good then Missed(account) else Unread(account)))
    case Controlling(a) =>
      if good then Silent(Working(Save(Some(Guarding(a)), None), row.(before := Some(a)), winner))
      else Move(Ending(Failed, row, winner), None, Some(Faulted(account)))
    case Guarding(a) =>
      if good then Move(Working(Save(Some(Chosen(a)), None), row.(winning := StoreWinning(winner)), winner), None, Some(Passed(account)))
      else Move(Ending(if o.answer.Block? then Blocked else Failed, row, winner), None,
                Some(if o.answer.Block? then Denied(account) else Faulted(account)))
    case Chosen(a) =>
      if Matches(a, winner.desired) then
        Silent(Working(Commit(true), row.(after := Some(a), status := AppliedNoop), winner))
      else Silent(Working(Save(Some(Writing(a)), None), Raised(row), winner))
    case Writing(a) =>
      Move(if good then Working(Save(Some(VerifyingRead(true)), Some(Verifying)), row.(status := Verifying), winner)
           else if o.answer.Ambiguous? then Working(ReadingBack(a), row, winner)
           else Ending(Failed, row, winner), None, wrote)
    case ReadingBack(a) =>
      if seen == Some(a) && !Matches(a, winner.desired) && row.attempts < 2 then
        Move(Working(Save(Some(WritingAgain), None), Raised(row), winner), None, Some(Read(account, a)))
      else Verified(account, true, row, winner, seen)
    case WritingAgain => Move(Working(VerifyingRead(true), row, winner), None, wrote)
    case VerifyingRead(repair) => Verified(account, repair, row, winner, seen)
    case RecoverRead =>
      if seen.Some? then Move(Working(RecoverControl(seen.value), row, winner), None, Some(Read(account, seen.value)))
      else Silent(Uncertainly(row, winner))
    case RecoverControl(a) =>
      if good then Silent(Working(if Early(row.status) then RecoverGuard(a) else RecoverDecide(a), row, winner))
      else Silent(Done(None))
    case RecoverGuard(a) =>
      if good then Move(Working(RecoverDecide(a), row, winner), None, Some(Passed(account)))
      else if o.answer.Block? then Move(Ending(Blocked, row, winner), None, Some(Denied(account)))
      else Silent(Done(None))
    case RecoverDecide(a) => Move(Recovering(now, row, winner, a), None, Some(Weighed(account, now)))
    case RecoverGuardAgain(a) =>
      if good then Move(Working(Save(Some(RecoverWrite), None), Raised(row), winner), None, Some(Passed(account)))
      else if o.answer.Block? then Move(Ending(Blocked, row, winner), None, Some(Denied(account)))
      else Silent(Done(None))
    case RecoverWrite =>
      Move(if good then Working(VerifyingRead(false), row, winner) else Uncertainly(row, winner), None, wrote)
  }

  /** FindAccountMutationByIdempotency and what each job makes of its answer. */
  function LookUp(account: int, sec: Section, now: int, o: Reply, journal: map<string, Row>): Move
  {
    if !o.answer.Good? then Silent(Done(None))
    else if sec.job.Submit? then
      if sec.key !in journal then Silent(Deciding(now))
      else if journal[sec.key].signature != RequestSignature(sec.job.sub) then Silent(Done(None))
      else Silent(Done(Some(journal[sec.key].status)))
    else if sec.key !in journal || Terminal(journal[sec.key].status) then Silent(Done(None))
    else
      var row := journal[sec.key];
      var winner := RestoreIntent(row.account, row.winning);
      if winner.None? then Silent(Done(None))
      else if Early(row.status) && Expired(winner.value, now) then
        Move(Ending(ExpiredStatus, row, winner.value), None, Some(Weighed(account, now)))
      else Silent(Working(RecoverRead, row, winner.value))
  }

  /** newMutation. */
  function NewRow(account: int, sub: Submission, winner: Intent): Row
  {
    Row(account, RequestSignature(sub), StoreWinning(winner), Prepared, 0, None, None)
  }

  function WinnerOf(d: Decision, submitted: Intent): Intent
  {
    match d
    case Proceed(w) => w
    case Yield(Some(w)) => w
    case _ => submitted
  }

  /** PrepareAccountMutation stores the row unless its key is taken. */
  function Prepare(sec: Section, o: Reply, journal: map<string, Row>): Move
    requires sec.phase.Preparing?
  {
    var row, winner := sec.phase.row, sec.phase.winner;
    var taken := sec.key in journal;
    if !o.answer.Good? then Move(Done(None), if o.effect && !taken then Some(row) else None, None)
    else if taken then
      Silent(Done(if journal[sec.key].signature != row.signature then None else Some(journal[sec.key].status)))
    else
      Move(match sec.phase.decision
           case Proceed(_) => Working(Save(Some(Reading), None), row.(status := Validating), winner)
           case Yield(_) => Ending(Superseded, row, winner)
           case Lapse => Ending(ExpiredStatus, row, winner), Some(row), None)
  }

  // ------------------------------------------------------------ all steps

  datatype Action =
    | Enqueue(sub: Submission)
    | Withdraw(token: nat)
    | Begin(token: nat)
    | BeginRecovery(key: string)
    | Advance(account: int, outcome: Reply)
    | Arbitration(account: int, overrides: seq<Intent>, results: seq<Arbiter.Arbitration>)
    | Crash
    | Drift(account: int, state: AccountState)
    | Vanish(account: int)
    | Tick(elapsed: nat)

  function Logged(s: State, e: Option<Event>): seq<Event>
  {
    if e.None? then s.log else s.log + [e.value]
  }

  /** The account after a step: only a write that took effect changes it. */
  function Upstream(s: State, e: Option<Event>, effect: bool): map<int, AccountState>
  {
    if effect && e.Some? && e.value.Wrote? && e.value.account in s.upstream
    then s.upstream[e.value.account := Effect(s.upstream[e.value.account], e.value.intent.desired)]
    else s.upstream
  }

  function Moved(s: State, account: int, sec: Section, m: Move, effect: bool): State
  {
    s.(journal := if m.stored.Some? then s.journal[sec.key := m.stored.value] else s.journal,
       upstream := Upstream(s, m.event, effect),
       sections := s.sections[account := sec.(phase := m.phase)],
       log := Logged(s, m.event))
  }

  ghost function Leave(s: State, token: nat, sub: Submission, status: Option<Status>): State
  {
    s.(queue := FinishIn(s.queue, SlotOf(sub.intent), token, Retained(status)),
       log := s.log + [Finished(token, status)])
  }

  ghost function Advanced(s: State, account: int, o: Reply): State
    requires account in s.sections
  {
    var sec := s.sections[account];
    match sec.phase
    case Lookup => Moved(s, account, sec, LookUp(account, sec, s.now, o, s.journal), false)
    case Deciding(_) => Moved(s, account, sec, Silent(Done(None)), false)
    case Preparing(_, _, _) => Moved(s, account, sec, Prepare(sec, o, s.journal), false)
    case Working(_, _, _) =>
      if sec.key !in s.journal then s
      else
        var present := if account in s.upstream then Some(s.upstream[account]) else None;
        Moved(s, account, sec, Work(account, sec, s.now, o, present, s.journal[sec.key]), o.effect)
    case Done(status) =>
      var left := if sec.job.Submit? then Leave(s, sec.job.token, sec.job.sub, status) else s;
      left.(sections := s.sections[account := sec.(phase := Leaving)])
    case Leaving => s.(sections := s.sections - {account})
  }

  function Candidates(s: State, sec: Section, overrides: seq<Intent>): seq<Intent>
    requires sec.job.Submit?
  {
    var sub := sec.job.sub;
    var entry := Entry(sec.job.token, QueueRequestKey(sub), sub.intent, false);
    overrides + CompetingIn(Items(s.queue, SlotOf(sub.intent)), entry) + [sub.intent]
  }

  /** The arbitration step: enabled when the results are those of Arbitrate. */
  ghost function Arbitrating(s: State, account: int, overrides: seq<Intent>, results: seq<Arbiter.Arbitration>): State
    requires account in s.sections
  {
    var sec := s.sections[account];
    if !sec.phase.Deciding? || !sec.job.Submit? then s
    else
      var candidates := Candidates(s, sec, overrides);
      if !Arbitrated(sec.phase.now, multiset(candidates), results) then s
      else
        var d := Decide(results, sec.job.sub.intent);
        var w := WinnerOf(d, sec.job.sub.intent);
        Moved(s, account, sec,
              Move(Preparing(d, NewRow(account, sec.job.sub, w), w), None,
                   Some(Decided(sec.job.token, sec.phase.now, candidates, d))), false)
  }

  ghost function Step(s: State, a: Action): State
  {
    match a
    case Enqueue(sub) =>
      if !AccountIntent(sub.intent) then s
      else
        var q := AddTo(s.queue, QueueRequestKey(sub), sub.intent).0;
        s.(queue := q, waiting := s.waiting[q.next := sub])
    case Withdraw(token) =>
      if token !in s.waiting then s
      else Leave(s, token, s.waiting[token], None).(waiting := s.waiting - {token})
    case Begin(token) =>
      if token !in s.waiting || AccountOf(s.waiting[token].intent) in s.sections then s
      else
        var sub := s.waiting[token];
        var account := AccountOf(sub.intent);
        s.(waiting := s.waiting - {token},
           sections := s.sections[account := Section(Submit(token, sub), JournalKey(sub), Lookup)],
           log := s.log + [Began(account)])
    case BeginRecovery(key) =>
      if key !in s.journal || s.journal[key].account in s.sections then s
      else
        var account := s.journal[key].account;
        s.(sections := s.sections[account := Section(Recover, key, Lookup)], log := s.log + [Began(account)])
    case Advance(account, o) => if account in s.sections then Advanced(s, account, o) else s
    case Arbitration(account, overrides, results) =>
      if account in s.sections then Arbitrating(s, account, overrides, results) else s
    // A new process numbers its candidates afresh; letting the numbers run on
    // only keeps the log's tokens apart.
    case Crash => s.(queue := Queue(s.queue.next, map[]), waiting := map[], sections := map[])
    case Drift(account, state) => s.(upstream := s.upstream[account := state])
    case Vanish(account) => s.(upstream := s.upstream - {account})
    case Tick(elapsed) => s.(now := s.now + elapsed)
  }

  ghost function Run(s: State, actions: seq<Action>): State
    decreases |actions|
  {
    if actions == [] then s else Run(Step(s, actions[0]), actions[1..])
  }

  // -------------------------------------------------------- reading the log

  /** How often a row's key was written upstream. */
  function Writes(log: seq<Event>, key: string): nat
  {
    if log == [] then 0
    else
      var e := log[|log| - 1];
      Writes(log[..|log| - 1], key) + if e.Wrote? && e.key == key then 1 else 0
  }

  /** The last state read in the current section of an account, unless the row
      was written since. */
  function Fresh(log: seq<Event>, account: int, key: string): Option<AccountState>
  {
    if log == [] then None
    else
      var e := log[|log| - 1];
      if e.Read? && e.account == account then Some(e.seen)
      else if (e.Began? && e.account == account) || (e.Wrote? && e.key == key) then None
      else Fresh(log[..|log| - 1], account, key)
  }

  /** Whether a guard passed in the current section of an account. */
  predicate Guarded(log: seq<Event>, account: int)
  {
    log != [] &&
    var e := log[|log| - 1];
    if e.Passed? && e.account == account then true
    else if e.Began? && e.account == account then false
    else Guarded(log[..|log| - 1], account)
  }

  /** The state was read from the account after the last write of the row. */
  predicate Confirmed(log: seq<Event>, account: int, key: string, seen: AccountState)
  {
    log != [] &&
    var e := log[|log| - 1];
    e == Read(account, seen) || (!(e.Wrote? && e.key == key) && Confirmed(log[..|log| - 1], account, key, seen))
  }

  predicate HasProceed(log: seq<Event>, token: nat, w: Intent)
  {
    exists e | e in log :: e.Decided? && e.token == token && e.decision == Proceed(w)
  }

  /** The intent rebuilt from the columns asks for what the write asked for. */
  predicate Rebuilds(account: int, c: Columns, i: Intent)
  {
    var w := RestoreIntent(account, c);
    w.Some? && w.value.desired == i.desired && w.value.resource == i.resource
  }

  /** A write of the log is justified by what came before it. */
  predicate Justified(before: seq<Event>, e: Event)
  {
    e.Wrote? ==>
      && Writes(before, e.key) < e.attempts <= 2
      && e.before.Some? && Fresh(before, e.account, e.key) == e.before
      && Guarded(before, e.account)
      && Rebuilds(e.account, e.winning, e.intent)
      && !Matches(e.before.value, e.intent.desired)
      && (e.author.Some? ==> HasProceed(before, e.author.value, e.intent))
  }

  predicate LogOk(log: seq<Event>)
  {
    forall n | 0 <= n < |log| :: Justified(log[..n], log[n])
  }
}

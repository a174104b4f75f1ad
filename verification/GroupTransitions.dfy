/** The journal of group tier transitions: reserved before the upstream write,
    resolved by readback, never replayed. Lock sections per upstream key run
    beside refreshes of the rate cache and beside the reconcile pass, which
    takes no group lock. */
module GroupTransitions {
  import opened Options

  datatype Token = Token(source: int, key: string)

  datatype RowStatus = Pending | Applied | Failed | Simulated

  datatype Row = Row(token: Token, fromGroup: string, toGroup: string, status: RowStatus)

  datatype Job =
    | Transition(idem: string, to: string, manual: bool, dryRun: bool)
    | Recovery(idem: string)

  datatype Phase =
    | Lookup | Checking
    | Asserting(live: string) | Beginning(live: string) | Begun(live: string) | Saving(live: string)
    | Switching | Reading | Fetching | Failing | Completing | Leaving

  datatype Section = Section(job: Job, phase: Phase)

  /** A reconcile pass over one key: what the cache showed, then which pending rows it listed. */
  datatype Reconciler = Reconciler(token: Token, group: string, listed: Option<set<string>>)

  datatype Fetched = Fetched(token: Token, group: string)

  /** Who resolved a row: a lock section, or a pass that saw a group in the cache. */
  datatype Closer = BySection(job: Job) | ByPass(group: string)

  datatype Event =
    | Locked(token: Token)
    | Read(token: Token, group: string, inSection: bool)
    | Reserved(idem: string, token: Token)
    | Switched(idem: string, token: Token, answer: Answer, row: Row, job: Job)
    | Completed(idem: string, token: Token, group: string, inSection: bool)
    | Closed(idem: string, token: Token, row: Row, closer: Closer)

  datatype State = State(
    rows: map<string, Row>,
    upstream: map<Token, string>,
    cache: map<Token, string>,
    sections: map<Token, Section>,
    fetches: map<nat, Fetched>,
    reconciler: Option<Reconciler>,
    log: seq<Event>)

  function Start(upstream: map<Token, string>): State
  {
    State(map[], upstream, map[], map[], map[], None, [])
  }

  /** Good, or refused before the call, definitely failed, or of unknown result.
      `effect` says whether a failed store or upstream write took place anyway. */
  datatype Answer = Good | Refused | Definite | Unknown
  datatype Reply = Reply(answer: Answer, effect: bool)

  datatype Action =
    | Begin(token: Token, job: Job)
    | Advance(token: Token, reply: Reply)
    | Fetch(id: nat, token: Token)
    | SaveFetch(id: nat)
    | ReconcileRead(token: Token)
    | ReconcileList
    | ReconcileResolve(idem: string)
    | ReconcileEnd
    | Crash
    | Drift(token: Token, group: string)
    | Vanish(token: Token)

  // ------------------------------------------------------- a section's step

  datatype Move = Move(phase: Phase, row: Option<Row>, event: Option<Event>)

  function Silent(phase: Phase): Move
  {
    Move(phase, None, None)
  }

  /** FailGroupTierTransition and SimulateGroupTierTransition act on pending rows only. */
  function Ended(idem: string, token: Token, row: Row, status: RowStatus, job: Job, done: bool): Move
  {
    if done && row.status.Pending?
    then Move(Leaving, Some(row.(status := status)), Some(Closed(idem, token, row.(status := status), BySection(job))))
    else Silent(Leaving)
  }

  predicate NoPending(rows: map<string, Row>, token: Token)
  {
    forall k | k in rows :: rows[k].token == token ==> !rows[k].status.Pending?
  }

  function Looked(sec: Section, rows: map<string, Row>): Phase
  {
    if sec.job.Transition? then (if sec.job.idem in rows then Leaving else Checking)
    else if sec.job.idem in rows && rows[sec.job.idem].status.Pending? then Fetching
    else Leaving
  }

  /** The checks before the reservation, ending in a live read of the key. An
      automatic request is refused when the live group is not the cached one. */
  function Checked(token: Token, job: Job, present: Option<string>, cached: Option<string>): Move
    requires job.Transition?
  {
    if present.None? then Silent(Leaving)
    else
      Move(if !job.manual && cached != present then Leaving else Asserting(present.value),
           None, Some(Read(token, present.value, true)))
  }

  function Reserve(token: Token, job: Job, live: string, o: Reply, rows: map<string, Row>): Move
    requires job.Transition?
  {
    var row := Row(token, live, job.to, Pending);
    if job.idem in rows then Silent(Leaving)
    else if o.answer.Good? then Move(Begun(live), Some(row), Some(Reserved(job.idem, token)))
    else if o.effect then Move(Leaving, Some(row), Some(Reserved(job.idem, token)))
    else Silent(Leaving)
  }

  /** What a readback makes of a recovered row. */
  function Recovered(token: Token, row: Row, present: Option<string>): Move
  {
    if present.None? then Silent(Leaving)
    else
      Move(if present.value == row.fromGroup then Failing else if present.value == row.toGroup then Completing else Leaving,
           None, Some(Read(token, present.value, true)))
  }

  function ReadAfterSwitch(token: Token, row: Row, present: Option<string>): Move
  {
    if present.None? then Silent(Failing)
    else Move(if present.value == row.toGroup then Completing else Failing, None, Some(Read(token, present.value, true)))
  }

  function Work(token: Token, sec: Section, o: Reply, s: State): Move
  {
    var idem := sec.job.idem;
    var good := o.answer.Good?;
    var present := if good && token in s.upstream then Some(s.upstream[token]) else None;
    match sec.phase
    // a request whose lookup fails goes on as if the key were new
    case Lookup => Silent(if good then Looked(sec, s.rows) else if sec.job.Transition? then Checking else Leaving)
    case Checking =>
      if !sec.job.Transition? then Silent(Leaving)
      else Checked(token, sec.job, present, if token in s.cache then Some(s.cache[token]) else None)
    case Asserting(live) => Silent(if good && NoPending(s.rows, token) then Beginning(live) else Leaving)
    case Beginning(live) => if sec.job.Transition? then Reserve(token, sec.job, live, o, s.rows) else Silent(Leaving)
    case Leaving => Silent(Leaving)
    case _ =>
      if idem !in s.rows then Silent(Leaving)
      else
        var row := s.rows[idem];
        match sec.phase
        case Begun(live) =>
          if sec.job.Transition? && sec.job.dryRun then Ended(idem, token, row, Simulated, sec.job, good || o.effect)
          else Silent(if good then Saving(live) else Failing)
        case Saving(live) => Silent(if !good then Failing else if live == row.toGroup && o.effect then Completing else Switching)
        case Switching =>
          if o.answer.Refused? then Silent(Failing)
          else
            Move(match o.answer
                 case Good => Reading
                 case Unknown => Leaving
                 case _ => Failing, None, Some(Switched(idem, token, o.answer, row, sec.job)))
        case Reading => ReadAfterSwitch(token, row, present)
        case Fetching => Recovered(token, row, present)
        case Failing => Ended(idem, token, row, Failed, sec.job, good || o.effect)
        case Completing =>
          if good && row.status.Pending?
          then Move(Leaving, Some(row.(status := Applied)), Some(Completed(idem, token, row.toGroup, true)))
          else Silent(Leaving)
        case _ => Silent(Leaving)
  }

  // --------------------------------------------------------------- all steps

  function Logged(s: State, e: Option<Event>): seq<Event>
  {
    if e.None? then s.log else s.log + [e.value]
  }

  /** A switch that took effect moves the key to the row's target. */
  function Upstream(s: State, e: Option<Event>, effect: bool): map<Token, string>
  {
    if effect && e.Some? && e.value.Switched? && e.value.idem in s.rows && e.value.token in s.upstream
    then s.upstream[e.value.token := s.rows[e.value.idem].toGroup]
    else s.upstream
  }

  function Moved(s: State, token: Token, sec: Section, m: Move, effect: bool): State
  {
    s.(rows := if m.row.Some? then s.rows[sec.job.idem := m.row.value] else s.rows,
       upstream := Upstream(s, m.event, effect),
       sections := s.sections[token := sec.(phase := m.phase)],
       log := Logged(s, m.event))
  }

  function Advanced(s: State, token: Token, o: Reply): State
    requires token in s.sections
  {
    var sec := s.sections[token];
    if sec.phase.Leaving? then s.(sections := s.sections - {token})
    else Moved(s, token, sec, Work(token, sec, o, s), o.effect)
  }

  predicate Startable(s: State, token: Token, job: Job)
  {
    && token !in s.sections
    && (job.Recovery? ==> job.idem in s.rows && s.rows[job.idem].token == token)
  }

  /** The reconcile pass settles a listed row by the cached group alone. */
  function Settled(s: State, idem: string): State
  {
    if s.reconciler.None? || s.reconciler.value.listed.None? then s
    else
      var r := s.reconciler.value;
      if idem !in r.listed.value || idem !in s.rows || !s.rows[idem].status.Pending? then s
      else if r.group == s.rows[idem].toGroup then
        s.(rows := s.rows[idem := s.rows[idem].(status := Applied)],
           log := s.log + [Completed(idem, r.token, r.group, false)])
      else
        var row := s.rows[idem].(status := Failed);
        s.(rows := s.rows[idem := row], log := s.log + [Closed(idem, r.token, row, ByPass(r.group))])
  }

  function PendingOf(s: State, token: Token): set<string>
  {
    set k | k in s.rows && s.rows[k].token == token && s.rows[k].status.Pending?
  }

  function Step(s: State, a: Action): State
  {
    match a
    case Begin(token, job) =>
      if Startable(s, token, job)
      then s.(sections := s.sections[token := Section(job, Lookup)], log := s.log + [Locked(token)])
      else s
    case Advance(token, o) => if token in s.sections then Advanced(s, token, o) else s
    case Fetch(id, token) =>
      if id in s.fetches || token !in s.upstream then s
      else s.(fetches := s.fetches[id := Fetched(token, s.upstream[token])], log := s.log + [Read(token, s.upstream[token], false)])
    case SaveFetch(id) =>
      if id !in s.fetches then s
      else s.(fetches := s.fetches - {id}, cache := s.cache[s.fetches[id].token := s.fetches[id].group])
    case ReconcileRead(token) =>
      if s.reconciler.None? && token in s.cache then s.(reconciler := Some(Reconciler(token, s.cache[token], None))) else s
    case ReconcileList =>
      if s.reconciler.Some? && s.reconciler.value.listed.None?
      then s.(reconciler := Some(s.reconciler.value.(listed := Some(PendingOf(s, s.reconciler.value.token)))))
      else s
    case ReconcileResolve(idem) => Settled(s, idem)
    case ReconcileEnd => s.(reconciler := None)
    case Crash => s.(sections := map[], fetches := map[], reconciler := None)
    case Drift(token, group) => s.(upstream := s.upstream[token := group])
    case Vanish(token) => s.(upstream := s.upstream - {token})
  }

  function Run(s: State, actions: seq<Action>): State
    decreases |actions|
  {
    if actions == [] then s else Run(Step(s, actions[0]), actions[1..])
  }

  // -------------------------------------------------------- reading the log

  function Switches(log: seq<Event>, idem: string): nat
  {
    if log == [] then 0
    else Switches(log[..|log| - 1], idem) + if log[|log| - 1].Switched? && log[|log| - 1].idem == idem then 1 else 0
  }

  predicate Seen(log: seq<Event>, token: Token, group: string)
  {
    exists e | e in log :: e.Read? && e.token == token && e.group == group
  }

  /** The group last read in the current lock section of a key, unless a switch was called since. */
  function FreshRead(log: seq<Event>, token: Token): Option<string>
  {
    if log == [] then None
    else
      var e := log[|log| - 1];
      if e.Read? && e.inSection && e.token == token then Some(e.group)
      else if (e.Locked? || e.Switched?) && e.token == token then None
      else FreshRead(log[..|log| - 1], token)
  }

  /** The answer to the switch called in the current lock section of a key. */
  function LastSwitch(log: seq<Event>, token: Token): Option<Answer>
  {
    if log == [] then None
    else
      var e := log[|log| - 1];
      if e.Switched? && e.token == token then Some(e.answer)
      else if e.Locked? && e.token == token then None
      else LastSwitch(log[..|log| - 1], token)
  }

  /** What a section's ending of its row without applying it rests on. A request
      fails its row when it called no switch, when the call definitely failed, or
      when it succeeded and the section did not read the target since; never
      when the answer was unknown. A recovery fails a row on reading the old group. */
  predicate EndJustified(before: seq<Event>, token: Token, idem: string, row: Row, job: Job)
  {
    var answer, read := LastSwitch(before, token), FreshRead(before, token);
    match job
    case Recovery(_) => row.status.Failed? && answer.None? && read == Some(row.fromGroup)
    case Transition(_, _, _, dryRun) =>
      && (row.status.Simulated? || row.status.Failed?) && (row.status.Simulated? ==> dryRun)
      && match answer
         case None => Switches(before, idem) == 0
         case Some(Definite) => row.status.Failed?
         case Some(Good) => row.status.Failed? && read != Some(row.toGroup)
         case Some(_) => false
  }

  /** A lock section resolves the row. */
  predicate SectionCloses(e: Event, idem: string)
  {
    (e.Completed? && e.inSection && e.idem == idem) || (e.Closed? && e.closer.BySection? && e.idem == idem)
  }

  predicate Unclosed(log: seq<Event>, idem: string)
  {
    forall e | e in log :: !SectionCloses(e, idem)
  }

  /** A completion from inside a section rests on a fresh read of the target, a
      switch on a fresh read of the old group and no earlier switch. */
  predicate Justified(before: seq<Event>, e: Event)
  {
    match e
    case Completed(idem, token, group, inSection) =>
      inSection ==> FreshRead(before, token) == Some(group) && LastSwitch(before, token) in {None, Some(Good)}
    case Switched(idem, token, answer, row, job) =>
      && job.Transition? && !job.dryRun && job.to == row.toGroup && !answer.Refused?
      && FreshRead(before, token) == Some(row.fromGroup) && LastSwitch(before, token).None? && Unclosed(before, idem)
    case Closed(idem, token, row, closer) =>
      (match closer
       case BySection(job) => EndJustified(before, token, idem, row, job)
       case ByPass(group) => row.status.Failed? && group != row.toGroup && Seen(before, token, group))
    case _ => true
  }

  predicate LogOk(log: seq<Event>)
  {
    forall n | 0 <= n < |log| :: Justified(log[..n], log[n])
  }
}

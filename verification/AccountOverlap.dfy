/** Commands that overlap on one account and operation: the queue holds exactly
    the unfinished ones, and the one that loses the arbitration order does not
    write, whichever takes the account lock first. */
module AccountOverlap {
  import opened Options
  import opened Intents
  import opened Arbiter
  import opened WinningIntent
  import opened CandidateQueue
  import opened AccountJournal
  import opened AccountJournalSafety

  // ---------------------------------------------------- unfinished commands

  function EntryOf(token: nat, sub: Submission): Entry
  {
    Entry(token, QueueRequestKey(sub), sub.intent, false)
  }

  predicate Holds(sec: Section, e: Entry)
  {
    sec.job.Submit? && !sec.phase.Leaving? && e == EntryOf(sec.job.token, sec.job.sub)
  }

  ghost predicate Held(s: State, e: Entry)
  {
    exists account | account in s.sections :: Holds(s.sections[account], e)
  }

  /** The entry of a command that has not finished. */
  ghost predicate Pending(s: State, e: Entry)
  {
    (e.token in s.waiting && e == EntryOf(e.token, s.waiting[e.token])) || Held(s, e)
  }

  predicate OnFile(q: Queue, key: CandidateKey, e: Entry)
  {
    e in Items(q, key) && !e.completed
  }

  /** The queue's incomplete candidates are exactly the unfinished commands. */
  ghost predicate QueueMirrors(s: State)
  {
    forall key, e :: OnFile(s.queue, key, e) <==> Pending(s, e) && key == SlotOf(e.intent)
  }

  predicate DecidedIn(log: seq<Event>, token: nat)
  {
    exists e | e in log :: e.Decided? && e.token == token
  }

  predicate Before(sec: Section)
  {
    sec.phase.Lookup? || sec.phase.Deciding?
  }

  /** Tokens tell commands apart, and waiting commands are undecided. */
  ghost predicate Tokens(s: State)
  {
    && (forall t | t in s.waiting :: t <= s.queue.next && !DecidedIn(s.log, t))
    && (forall a | a in s.sections && s.sections[a].job.Submit? ::
          var t := s.sections[a].job.token;
          t <= s.queue.next && t !in s.waiting && (Before(s.sections[a]) ==> !DecidedIn(s.log, t)))
    && (forall a, b | a in s.sections && b in s.sections && a != b && s.sections[a].job.Submit? && s.sections[b].job.Submit? ::
          s.sections[a].job.token != s.sections[b].job.token)
    && (forall e | e in s.log && e.Decided? :: e.token <= s.queue.next)
  }

  ghost predicate Orderly(s: State)
  {
    Tokens(s) && QueueMirrors(s) && QueueOk(s.queue)
  }

  // ------------------------------------------------------- tokens per step

  /** What the tokens' invariant needs from a step that adds at most one event. */
  lemma DecidedGrows(log: seq<Event>, e: Event, token: nat)
    ensures DecidedIn(log + [e], token) <==> DecidedIn(log, token) || (e.Decided? && e.token == token)
  {
    if DecidedIn(log, token) {
      var x :| x in log && x.Decided? && x.token == token;
      assert x in log + [e];
    }
    if e.Decided? && e.token == token { assert e in log + [e]; }
  }

  lemma LoggedDecided(s: State, e: Option<Event>, token: nat)
    ensures DecidedIn(Logged(s, e), token) <==> DecidedIn(s.log, token) || (e.Some? && e.value.Decided? && e.value.token == token)
  {
    if e.Some? { DecidedGrows(s.log, e.value, token); }
  }

  /** A section moves on without leaving. */
  lemma MovedOrderly(s: State, account: int, m: Move, effect: bool)
    requires Orderly(s) && account in s.sections && !s.sections[account].phase.Leaving? && !m.phase.Leaving?
    requires m.phase.Lookup? || m.phase.Deciding? ==> Before(s.sections[account])
    requires m.event.Some? && m.event.value.Decided? ==>
               && s.sections[account].job.Submit? && m.event.value.token == s.sections[account].job.token
               && !m.phase.Lookup? && !m.phase.Deciding?
    ensures Orderly(Moved(s, account, s.sections[account], m, effect))
  {
    hide OnFile, DecidedIn, QueueOk, EntryOf;
    var t := Moved(s, account, s.sections[account], m, effect);
    forall token ensures DecidedIn(t.log, token) <==> DecidedIn(s.log, token) || (m.event.Some? && m.event.value.Decided? && m.event.value.token == token) {
      LoggedDecided(s, m.event, token);
    }
    SectionsPending(s, t);
  }

  /** Waiting commands and the jobs of sections settle what is pending. */
  lemma SectionsPending(s: State, t: State)
    requires t.waiting == s.waiting && t.queue == s.queue && t.sections.Keys == s.sections.Keys
    requires forall a | a in s.sections :: t.sections[a].job == s.sections[a].job && (t.sections[a].phase.Leaving? <==> s.sections[a].phase.Leaving?)
    requires QueueMirrors(s)
    ensures QueueMirrors(t)
  {
    hide OnFile, EntryOf;
    forall e ensures Pending(t, e) <==> Pending(s, e) {
      if Held(s, e) {
        var a :| a in s.sections && Holds(s.sections[a], e);
        assert Holds(t.sections[a], e);
      }
      if Held(t, e) {
        var a :| a in t.sections && Holds(t.sections[a], e);
        assert Holds(s.sections[a], e);
      }
    }
  }

  lemma WorkNeverRestarts(account: int, sec: Section, now: int, o: Reply, present: Option<AccountState>, stored: Row)
    requires sec.phase.Working?
    ensures var m := Work(account, sec, now, o, present, stored);
            (m.phase.Working? || m.phase.Done?) && (m.event.Some? ==> !m.event.value.Decided?)
  {
    hide Matches, Expired, StoreWinning;
  }

  lemma AdvanceOrderly(s: State, account: int, o: Reply)
    requires Orderly(s) && account in s.sections
    ensures Orderly(Advanced(s, account, o))
  {
    hide Orderly, Work;
    var sec := s.sections[account];
    match sec.phase
    case Lookup => MovedOrderly(s, account, LookUp(account, sec, s.now, o, s.journal), false);
    case Deciding(_) => MovedOrderly(s, account, Silent(Done(None)), false);
    case Preparing(_, _, _) => MovedOrderly(s, account, Prepare(sec, o, s.journal), false);
    case Working(_, _, _) =>
      if sec.key in s.journal {
        var present := if account in s.upstream then Some(s.upstream[account]) else None;
        WorkNeverRestarts(account, sec, s.now, o, present, s.journal[sec.key]);
        MovedOrderly(s, account, Work(account, sec, s.now, o, present, s.journal[sec.key]), o.effect);
      }
    case Done(_) => DoneOrderly(s, account, o);
    case Leaving => LeavingOrderly(s, account, o);
  }

  lemma LeavingOrderly(s: State, account: int, o: Reply)
    requires Orderly(s) && account in s.sections && s.sections[account].phase.Leaving?
    ensures Orderly(Advanced(s, account, o))
  {
    hide OnFile, EntryOf, QueueOk, DecidedIn;
    var t := Advanced(s, account, o);
    forall e ensures Held(t, e) <==> Held(s, e) {
      if Held(s, e) {
        var a :| a in s.sections && Holds(s.sections[a], e);
        assert a in t.sections;
      }
    }
  }

  /** A command leaves the queue: exactly its own entry stops being on file. */
  lemma LeaveMirrors(s: State, t: State, token: nat, sub: Submission, retain: bool)
    requires Orderly(s) && t.queue == FinishIn(s.queue, SlotOf(sub.intent), token, retain)
    requires Pending(s, EntryOf(token, sub))
    requires forall e :: Pending(t, e) <==> Pending(s, e) && e.token != token
    requires forall e :: Pending(s, e) && e.token == token ==> e == EntryOf(token, sub)
    ensures QueueMirrors(t) && QueueOk(t.queue)
  {
    hide Pending, EntryOf;
    FinishKeepsQueueOk(s.queue, SlotOf(sub.intent), token, retain);
    forall key, e ensures OnFile(t.queue, key, e) <==> Pending(t, e) && key == SlotOf(e.intent) {
      assert OnFile(s.queue, key, e) <==> Pending(s, e) && key == SlotOf(e.intent);
      assert EntryOf(token, sub).intent == sub.intent by { EntryIntent(token, sub); }
      if key == SlotOf(sub.intent) {
        FinishedEntry(s.queue, key, token, retain, e);
      } else {
        assert Items(t.queue, key) == Items(s.queue, key);
      }
    }
  }

  lemma EntryIntent(token: nat, sub: Submission)
    ensures EntryOf(token, sub).intent == sub.intent && EntryOf(token, sub).token == token
  {
  }

  /** When a section starts leaving, exactly its own command stops pending. */
  lemma LeavingPending(s: State, t: State, account: int, e: Entry)
    requires Tokens(s) && account in s.sections && t.waiting == s.waiting
    requires t.sections == s.sections[account := s.sections[account].(phase := Leaving)]
    ensures Pending(t, e) <==> Pending(s, e) && !(s.sections[account].job.Submit? && e.token == s.sections[account].job.token)
  {
    hide DecidedIn;
    var job := s.sections[account].job;
    if Held(s, e) && !(job.Submit? && e.token == job.token) {
      var a :| a in s.sections && Holds(s.sections[a], e);
      assert a in t.sections && Holds(t.sections[a], e);
    }
    if Held(t, e) {
      var a :| a in t.sections && Holds(t.sections[a], e);
      assert a in s.sections && Holds(s.sections[a], e);
    }
  }

  lemma HolderPending(s: State, account: int, e: Entry)
    requires Tokens(s) && account in s.sections && s.sections[account].phase.Done? && s.sections[account].job.Submit?
    ensures var entry := EntryOf(s.sections[account].job.token, s.sections[account].job.sub);
            Pending(s, entry) && (Pending(s, e) && e.token == entry.token ==> e == entry)
  {
    hide DecidedIn;
    var entry := EntryOf(s.sections[account].job.token, s.sections[account].job.sub);
    assert Holds(s.sections[account], entry);
    if Held(s, e) && e.token == entry.token {
      var a :| a in s.sections && Holds(s.sections[a], e);
    }
  }

  lemma DoneOrderly(s: State, account: int, o: Reply)
    requires Orderly(s) && account in s.sections && s.sections[account].phase.Done?
    ensures Orderly(Advanced(s, account, o))
  {
    hide OnFile, QueueOk, DecidedIn, FinishIn, QueueMirrors, Pending;
    var sec := s.sections[account];
    var t := Advanced(s, account, o);
    forall e ensures Pending(t, e) <==> Pending(s, e) && !(sec.job.Submit? && e.token == sec.job.token) {
      LeavingPending(s, t, account, e);
    }
    if sec.job.Submit? {
      var token, sub := sec.job.token, sec.job.sub;
      forall e ensures Pending(s, EntryOf(token, sub)) && (Pending(s, e) && e.token == token ==> e == EntryOf(token, sub)) {
        HolderPending(s, account, e);
        EntryIntent(token, sub);
      }
      LeaveMirrors(s, t, token, sub, Retained(sec.phase.status));
      FinishTokens(s, t, Finished(token, sec.phase.status));
      FinishNext(s.queue, SlotOf(sub.intent), token, Retained(sec.phase.status));
    } else {
      SamePending(s, t);
    }
  }

  lemma SamePending(s: State, t: State)
    requires QueueMirrors(s) && t.queue == s.queue && forall e :: Pending(t, e) <==> Pending(s, e)
    ensures QueueMirrors(t)
  {
    hide Pending, OnFile;
  }

  lemma FinishNext(q: Queue, key: CandidateKey, token: nat, retain: bool)
    ensures FinishIn(q, key, token, retain).next == q.next
  {
  }

  lemma FinishTokens(s: State, t: State, e: Event)
    requires t.log == s.log + [e] && !e.Decided?
    ensures forall token :: DecidedIn(t.log, token) <==> DecidedIn(s.log, token)
    ensures forall x | x in t.log && x.Decided? :: x in s.log
  {
    forall token ensures DecidedIn(t.log, token) <==> DecidedIn(s.log, token) { DecidedGrows(s.log, e, token); }
  }

  lemma WithdrawOrderly(s: State, token: nat)
    requires Orderly(s) && token in s.waiting
    ensures Orderly(Step(s, Withdraw(token)))
  {
    hide OnFile, QueueOk, DecidedIn, FinishIn, QueueMirrors;
    var sub := s.waiting[token];
    var t := Step(s, Withdraw(token));
    EntryIntent(token, sub);
    forall e ensures Held(t, e) <==> Held(s, e) {
      if Held(s, e) { var a :| a in s.sections && Holds(s.sections[a], e); assert a in t.sections; }
    }
    forall e | Held(s, e) ensures e.token != token {
      var a :| a in s.sections && Holds(s.sections[a], e);
    }
    LeaveMirrors(s, t, token, sub, false);
    FinishTokens(s, t, Finished(token, None));
    FinishNext(s.queue, SlotOf(sub.intent), token, false);
  }

  lemma BeginPending(s: State, t: State, token: nat, e: Entry)
    requires token in s.waiting && t == Step(s, Begin(token)) && t != s
    ensures Pending(t, e) <==> Pending(s, e)
  {
    hide EntryOf;
    var sub := s.waiting[token];
    var account := AccountOf(sub.intent);
    EntryIntent(token, sub);
    assert Holds(t.sections[account], e) <==> e == EntryOf(token, sub);
    if Held(s, e) {
      var a :| a in s.sections && Holds(s.sections[a], e);
      assert a in t.sections && Holds(t.sections[a], e);
    }
    if Held(t, e) {
      var a :| a in t.sections && Holds(t.sections[a], e);
      assert a != account ==> a in s.sections && Holds(s.sections[a], e);
    }
  }

  lemma BeginOrderly(s: State, token: nat)
    requires Orderly(s)
    ensures Orderly(Step(s, Begin(token)))
  {
    hide OnFile, QueueOk, DecidedIn, QueueMirrors, Pending;
    var t := Step(s, Begin(token));
    if t != s {
      FinishTokens(s, t, Began(AccountOf(s.waiting[token].intent)));
      forall e ensures Pending(t, e) <==> Pending(s, e) { BeginPending(s, t, token, e); }
      SamePending(s, t);
    }
  }

  lemma BeginRecoveryOrderly(s: State, key: string)
    requires Orderly(s)
    ensures Orderly(Step(s, BeginRecovery(key)))
  {
    hide OnFile, QueueOk, DecidedIn, QueueMirrors;
    var t := Step(s, BeginRecovery(key));
    if t != s {
      var account := s.journal[key].account;
      FinishTokens(s, t, Began(account));
      forall e ensures Pending(t, e) <==> Pending(s, e) {
        if Held(s, e) {
          var a :| a in s.sections && Holds(s.sections[a], e);
          assert a in t.sections && Holds(t.sections[a], e);
        }
      }
      SamePending(s, t);
    }
  }

  lemma EnqueuePending(s: State, sub: Submission, e: Entry)
    requires Tokens(s) && AccountIntent(sub.intent)
    ensures Pending(Step(s, Enqueue(sub)), e) <==> Pending(s, e) || e == EntryOf(s.queue.next + 1, sub)
  {
    hide AccountIntent, DecidedIn, EntryOf;
    var t := Step(s, Enqueue(sub));
    EntryIntent(s.queue.next + 1, sub);
    if Held(s, e) { var a :| a in s.sections && Holds(s.sections[a], e); assert a in t.sections; }
    if Held(t, e) { var a :| a in t.sections && Holds(t.sections[a], e); assert a in s.sections; }
  }

  lemma EnqueueOrderly(s: State, sub: Submission)
    requires Orderly(s)
    ensures Orderly(Step(s, Enqueue(sub)))
  {
    hide QueueOk, DecidedIn, AccountIntent, Pending;
    var t := Step(s, Enqueue(sub));
    if AccountIntent(sub.intent) {
      var e0 := EntryOf(s.queue.next + 1, sub);
      AddKeepsQueueOk(s.queue, QueueRequestKey(sub), sub.intent);
      assert (t.queue, e0) == AddTo(s.queue, QueueRequestKey(sub), sub.intent);
      forall token: nat | DecidedIn(s.log, token) ensures token <= s.queue.next { DecidedBound(s, token); }
      forall key, e ensures OnFile(t.queue, key, e) <==> Pending(t, e) && key == SlotOf(e.intent) {
        assert OnFile(s.queue, key, e) <==> Pending(s, e) && key == SlotOf(e.intent);
        assert Items(t.queue, key) == if key == SlotOf(sub.intent) then Items(s.queue, key) + [e0] else Items(s.queue, key);
        EnqueuePending(s, sub, e);
      }
    }
  }

  lemma DecidedBound(s: State, token: nat)
    requires Tokens(s) && DecidedIn(s.log, token)
    ensures token <= s.queue.next
  {
  }

  lemma ArbitratingOrderly(s: State, account: int, overrides: seq<Intent>, results: seq<Arbiter.Arbitration>)
    requires Orderly(s) && account in s.sections
    ensures Orderly(Arbitrating(s, account, overrides, results))
  {
    hide Orderly, Arbitrated, Candidates, Decide, NewRow;
    var sec := s.sections[account];
    if sec.phase.Deciding? && sec.job.Submit? {
      var candidates := Candidates(s, sec, overrides);
      var d := Decide(results, sec.job.sub.intent);
      var w := WinnerOf(d, sec.job.sub.intent);
      MovedOrderly(s, account, Move(Preparing(d, NewRow(account, sec.job.sub, w), w), None,
                                    Some(Decided(sec.job.token, sec.phase.now, candidates, d))), false);
    }
  }

  lemma StepOrderly(s: State, a: Action)
    requires Orderly(s)
    ensures Orderly(Step(s, a))
  {
    match a
    case Enqueue(sub) => EnqueueOrderly(s, sub);
    case Withdraw(token) => if token in s.waiting { WithdrawOrderly(s, token); }
    case Begin(token) => BeginOrderly(s, token);
    case BeginRecovery(key) => BeginRecoveryOrderly(s, key);
    case Advance(account, o) => if account in s.sections { AdvanceOrderly(s, account, o); }
    case Arbitration(account, overrides, results) =>
      if account in s.sections { ArbitratingOrderly(s, account, overrides, results); }
    case Crash =>
    case _ => QuietOrderly(s, a);
  }

  lemma QuietOrderly(s: State, a: Action)
    requires Orderly(s) && (a.Drift? || a.Vanish? || a.Tick?)
    ensures Orderly(Step(s, a))
  {
    hide QueueOk, DecidedIn;
    SectionsPending(s, Step(s, a));
  }

  lemma StartOrderly(upstream: map<int, AccountState>, now: int)
    ensures Orderly(Start(upstream, now))
  {
  }

  lemma {:induction false} RunOrderly(s: State, actions: seq<Action>)
    requires Orderly(s)
    ensures Orderly(Run(s, actions))
    decreases |actions|
  {
    hide Orderly, Step;
    if actions != [] {
      StepOrderly(s, actions[0]);
      RunOrderly(Step(s, actions[0]), actions[1..]);
    }
  }

  /** Over every run the queue holds exactly the unfinished commands, every
      stored key has one of them, and it is empty once all have finished. */
  lemma QueueHoldsUnfinished(upstream: map<int, AccountState>, now: int, actions: seq<Action>)
    ensures var s := Run(Start(upstream, now), actions);
            && (forall key, e :: OnFile(s.queue, key, e) <==> Pending(s, e) && key == SlotOf(e.intent))
            && (forall key | key in s.queue.entries :: exists e :: OnFile(s.queue, key, e))
            && ((forall e :: !Pending(s, e)) ==> s.queue.entries == map[])
  {
    StartOrderly(upstream, now);
    RunOrderly(Start(upstream, now), actions);
    var s := Run(Start(upstream, now), actions);
    hide Run, Pending;
    forall key | key in s.queue.entries ensures exists e :: OnFile(s.queue, key, e) {
      var e :| e in s.queue.entries[key] && !e.completed;
      assert OnFile(s.queue, key, e);
    }
    if s.queue.entries != map[] {
      var key :| key in s.queue.entries;
      var e :| OnFile(s.queue, key, e);
      assert Pending(s, e);
    }
  }

  /** A command that ends stays visible to the others of its slot, as completed,
      exactly when it ends applied, as a no-op, executing, verifying or uncertain
      and one of them is still unfinished. */
  lemma EndedStaysVisibleExactly(s: State, account: int, o: Reply)
    requires Orderly(s) && account in s.sections && s.sections[account].phase.Done? && s.sections[account].job.Submit?
    ensures var sec := s.sections[account];
            var slot, token := SlotOf(sec.job.sub.intent), sec.job.token;
            var t := Step(s, Advance(account, o));
            && ((exists e | e in Items(t.queue, slot) :: e.token == token) <==>
                && sec.phase.status in {Some(Applied), Some(AppliedNoop), Some(Executing), Some(Verifying), Some(Status.Uncertain)}
                && exists e | e in Items(s.queue, slot) :: e.token != token && !e.completed)
            && (forall e | e in Items(t.queue, slot) && e.token == token :: e.completed)
  {
    hide Orderly, QueueOk, FinishIn, Live;
    var sec := s.sections[account];
    HolderOnFile(s, account);
    FinishedStaysExactly(s.queue, SlotOf(sec.job.sub.intent), sec.job.token, Retained(sec.phase.status));
  }

  lemma HolderOnFile(s: State, account: int)
    requires Orderly(s) && account in s.sections && s.sections[account].phase.Done? && s.sections[account].job.Submit?
    ensures QueueOk(s.queue) && Live(s.queue, SlotOf(s.sections[account].job.sub.intent), s.sections[account].job.token)
  {
    hide Tokens, QueueOk, Pending, SlotOf;
    var entry := EntryOf(s.sections[account].job.token, s.sections[account].job.sub);
    HolderPending(s, account, entry);
    EntryIntent(s.sections[account].job.token, s.sections[account].job.sub);
    assert OnFile(s.queue, SlotOf(entry.intent), entry);
  }

  // -------------------------------------------------------- the losing side

  /** The command still waits for its arbitration. */
  predicate Undecided(s: State, token: nat, sub: Submission)
  {
    var account := AccountOf(sub.intent);
    || (token in s.waiting && s.waiting[token] == sub)
    || (account in s.sections && s.sections[account].job == Submit(token, sub) && Before(s.sections[account]))
  }

  /** The command is past its arbitration or left without one. */
  predicate Gone(s: State, token: nat)
  {
    && token <= s.queue.next && token !in s.waiting
    && forall a | a in s.sections && s.sections[a].job.Submit? && s.sections[a].job.token == token :: !Before(s.sections[a])
  }

  predicate EndsRetained(log: seq<Event>, token: nat)
  {
    forall e | e in log && e.Finished? && e.token == token ::
      e.status in {Some(Applied), Some(AppliedNoop), Some(Executing), Some(Verifying), Some(Status.Uncertain)}
  }

  /** In each arbitration of the command, the rival has not expired and no other
      active candidate uses the rival's idempotency key for something else. */
  ghost predicate RivalStands(log: seq<Event>, token: nat, rival: Intent)
  {
    forall e | e in log && e.Decided? && e.token == token ::
      !Expired(rival, e.now) && !Conflicted(e.now, multiset(e.candidates), rival.idempotencyKey)
  }

  /** The command is never told to proceed with its own intent; if it proceeds,
      then with a candidate that shares its ID. */
  predicate NeverOwn(log: seq<Event>, token: nat, own: Intent)
  {
    forall e | e in log && e.Decided? && e.token == token :: DecidesOther(e.decision, e.candidates, own)
  }

  predicate DecidesOther(d: Decision, candidates: seq<Intent>, own: Intent)
  {
    d.Proceed? ==> d.winner != own && d.winner in candidates && d.winner.id == own.id
  }

  ghost predicate Watched(s: State, a: nat, sub: Submission, b: Entry)
  {
    && NeverOwn(s.log, a, sub.intent)
    && (Gone(s, a) || (Undecided(s, a, sub) && Overlap(s.queue, SlotOf(sub.intent), a, b)))
  }

  /** The pairing under study: b beats a on the same account and operation, and
      they are not retries of one request. */
  ghost predicate Rivals(a: nat, sub: Submission, b: Entry)
  {
    && a != b.token && Valid(b.intent) && KeyOf(b.intent) == KeyOf(sub.intent)
    && CandidateWins(b.intent, sub.intent) && b.requestKey != QueueRequestKey(sub)
  }

  lemma QuietLog(log: seq<Event>, e: Option<Event>, a: nat, own: Intent)
    requires NeverOwn(log, a, own) && (e.Some? && e.value.Decided? ==> e.value.token != a || DecidesOther(e.value.decision, e.value.candidates, own))
    ensures NeverOwn(if e.None? then log else log + [e.value], a, own)
  {
  }

  lemma EnqueueWatched(s: State, new': Submission, a: nat, sub: Submission, b: Entry)
    requires Orderly(s) && Watched(s, a, sub, b) && Rivals(a, sub, b)
    ensures Watched(Step(s, Enqueue(new')), a, sub, b)
  {
    hide QueueOk, AccountIntent, DecidedIn, QueueMirrors, Overlap, Rivals, AddTo, NeverOwn;
    assert AddTo(s.queue, QueueRequestKey(new'), new'.intent).0.next == s.queue.next + 1 by { AddNext(s.queue, QueueRequestKey(new'), new'.intent); }
    if AccountIntent(new'.intent) && Overlap(s.queue, SlotOf(sub.intent), a, b) {
      AddKeepsOverlap(s.queue, QueueRequestKey(new'), new'.intent, SlotOf(sub.intent), a, b);
    }
  }

  lemma AddNext(q: Queue, requestKey: string, i: Intent)
    ensures AddTo(q, requestKey, i).0.next == q.next + 1
  {
  }

  lemma WithdrawWatched(s: State, token: nat, a: nat, sub: Submission, b: Entry)
    requires Orderly(s) && Watched(s, a, sub, b) && token in s.waiting
    requires EndsRetained(Step(s, Withdraw(token)).log, b.token)
    ensures Watched(Step(s, Withdraw(token)), a, sub, b)
  {
    hide DecidedIn, QueueMirrors, Overlap, FinishIn, QueueOk;
    var t := Step(s, Withdraw(token));
    var slot := SlotOf(s.waiting[token].intent);
    assert Finished(token, None) in t.log;
    FinishNext(s.queue, slot, token, false);
    if token != a && Overlap(s.queue, SlotOf(sub.intent), a, b) {
      FinishKeepsOverlap(s.queue, slot, token, false, SlotOf(sub.intent), a, b);
    }
  }

  lemma BeginWatched(s: State, token: nat, a: nat, sub: Submission, b: Entry)
    requires Orderly(s) && Watched(s, a, sub, b)
    ensures Watched(Step(s, Begin(token)), a, sub, b)
  {
    hide DecidedIn, QueueMirrors, Overlap, QueueOk;
  }

  lemma BeginRecoveryWatched(s: State, key: string, a: nat, sub: Submission, b: Entry)
    requires Orderly(s) && Watched(s, a, sub, b)
    ensures Watched(Step(s, BeginRecovery(key)), a, sub, b)
  {
    hide DecidedIn, QueueMirrors, Overlap, QueueOk;
  }

  lemma MovedWatched(s: State, account: int, m: Move, effect: bool, a: nat, sub: Submission, b: Entry)
    requires Orderly(s) && Watched(s, a, sub, b) && account in s.sections
    requires m.phase.Lookup? || m.phase.Deciding? ==> Before(s.sections[account])
    requires m.event.Some? ==> !m.event.value.Decided?
    ensures Watched(Moved(s, account, s.sections[account], m, effect), a, sub, b)
  {
    hide DecidedIn, QueueMirrors, Overlap, QueueOk;
    QuietLog(s.log, m.event, a, sub.intent);
  }

  lemma DoneWatched(s: State, account: int, o: Reply, a: nat, sub: Submission, b: Entry)
    requires Orderly(s) && Watched(s, a, sub, b) && account in s.sections && s.sections[account].phase.Done?
    requires EndsRetained(Advanced(s, account, o).log, b.token)
    ensures Watched(Advanced(s, account, o), a, sub, b)
  {
    hide DecidedIn, QueueMirrors, Overlap, FinishIn, QueueOk;
    var sec := s.sections[account];
    var t := Advanced(s, account, o);
    if sec.job.Submit? {
      var token, slot, retain := sec.job.token, SlotOf(sec.job.sub.intent), Retained(sec.phase.status);
      assert Finished(token, sec.phase.status) in t.log;
      FinishNext(s.queue, slot, token, retain);
      if !Gone(s, a) {
        FinishKeepsOverlap(s.queue, slot, token, retain, SlotOf(sub.intent), a, b);
      }
    }
  }

  lemma AdvanceWatched(s: State, account: int, o: Reply, a: nat, sub: Submission, b: Entry)
    requires Orderly(s) && Watched(s, a, sub, b) && account in s.sections
    requires EndsRetained(Advanced(s, account, o).log, b.token)
    ensures Watched(Advanced(s, account, o), a, sub, b)
  {
    hide Orderly, Watched, Work, EndsRetained;
    var sec := s.sections[account];
    match sec.phase
    case Lookup => MovedWatched(s, account, LookUp(account, sec, s.now, o, s.journal), false, a, sub, b);
    case Deciding(_) => MovedWatched(s, account, Silent(Done(None)), false, a, sub, b);
    case Preparing(_, _, _) => MovedWatched(s, account, Prepare(sec, o, s.journal), false, a, sub, b);
    case Working(_, _, _) =>
      if sec.key in s.journal {
        var present := if account in s.upstream then Some(s.upstream[account]) else None;
        WorkNeverRestarts(account, sec, s.now, o, present, s.journal[sec.key]);
        MovedWatched(s, account, Work(account, sec, s.now, o, present, s.journal[sec.key]), o.effect, a, sub, b);
      }
    case Done(_) => DoneWatched(s, account, o, a, sub, b);
    case Leaving => LeavingWatched(s, account, o, a, sub, b);
  }

  lemma LeavingWatched(s: State, account: int, o: Reply, a: nat, sub: Submission, b: Entry)
    requires Watched(s, a, sub, b) && account in s.sections && s.sections[account].phase.Leaving?
    ensures Watched(Advanced(s, account, o), a, sub, b)
  {
    hide Overlap;
  }

  /** The overlapping rival is among the candidates of the arbitration. */
  lemma RivalCompetes(s: State, sec: Section, overrides: seq<Intent>, b: Entry)
    requires sec.job.Submit? && Overlap(s.queue, SlotOf(sec.job.sub.intent), sec.job.token, b)
    requires b.requestKey != QueueRequestKey(sec.job.sub)
    ensures b.intent in multiset(Candidates(s, sec, overrides))
  {
    hide Overlap;
    var e := EntryOf(sec.job.token, sec.job.sub);
    OverlapCompetes(s.queue, e, b);
    assert b.intent in Candidates(s, sec, overrides);
  }

  lemma RivalWins(now: int, candidates: seq<Intent>, results: seq<Arbiter.Arbitration>, own: Intent, rival: Intent)
    requires Arbitrated(now, multiset(candidates), results) && rival in multiset(candidates)
    requires Valid(rival) && !Expired(rival, now) && !Conflicted(now, multiset(candidates), rival.idempotencyKey)
    requires KeyOf(rival) == KeyOf(own) && CandidateWins(rival, own)
    ensures DecidesOther(Decide(results, own), candidates, own)
  {
    hide Arbitrated, Conflicted, ValidationError, CandidateWins, Decide;
    LoserNeverProceeds(now, multiset(candidates), results, own, rival);
    if Decide(results, own).Proceed? { ProceedIsEligible(now, multiset(candidates), results, own); }
  }

  lemma ArbitrationWatched(s: State, account: int, overrides: seq<Intent>, results: seq<Arbiter.Arbitration>, a: nat, sub: Submission, b: Entry)
    requires Orderly(s) && Watched(s, a, sub, b) && account in s.sections && Rivals(a, sub, b)
    requires RivalStands(Arbitrating(s, account, overrides, results).log, a, b.intent)
    ensures Watched(Arbitrating(s, account, overrides, results), a, sub, b)
  {
    hide DecidedIn, QueueMirrors, Overlap, QueueOk, Candidates, Decide, Arbitrated, Conflicted, NewRow, CandidateWins, Expired, Valid;
    var sec := s.sections[account];
    var t := Arbitrating(s, account, overrides, results);
    if sec.phase.Deciding? && sec.job.Submit? {
      var candidates := Candidates(s, sec, overrides);
      if Arbitrated(sec.phase.now, multiset(candidates), results) {
        var d := Decide(results, sec.job.sub.intent);
        var e := Decided(sec.job.token, sec.phase.now, candidates, d);
        assert t.log == s.log + [e] && e in t.log;
        if sec.job.token == a {
          assert !Gone(s, a);
          assert sec.job.sub == sub;
          RivalCompetes(s, sec, overrides, b);
          RivalWins(sec.phase.now, candidates, results, sub.intent, b.intent);
        }
        QuietLog(s.log, Some(e), a, sub.intent);
      }
    }
  }

  lemma StepWatched(s: State, x: Action, a: nat, sub: Submission, b: Entry)
    requires Orderly(s) && Watched(s, a, sub, b) && Rivals(a, sub, b) && !x.Crash?
    requires EndsRetained(Step(s, x).log, b.token) && RivalStands(Step(s, x).log, a, b.intent)
    ensures Watched(Step(s, x), a, sub, b)
  {
    match x
    case Enqueue(new') => EnqueueWatched(s, new', a, sub, b);
    case Withdraw(token) => if token in s.waiting { WithdrawWatched(s, token, a, sub, b); }
    case Begin(token) => BeginWatched(s, token, a, sub, b);
    case BeginRecovery(key) => BeginRecoveryWatched(s, key, a, sub, b);
    case Advance(account, o) => if account in s.sections { AdvanceWatched(s, account, o, a, sub, b); }
    case Arbitration(account, overrides, results) =>
      if account in s.sections { ArbitrationWatched(s, account, overrides, results, a, sub, b); }
    case _ =>
  }

  lemma {:induction false} LogGrows(s: State, actions: seq<Action>, e: Event)
    requires e in s.log
    ensures e in Run(s, actions).log
    decreases |actions|
  {
    hide Step;
    if actions != [] {
      StepLogGrows(s, actions[0]);
      LogGrows(Step(s, actions[0]), actions[1..], e);
    }
  }

  lemma StepLogGrows(s: State, x: Action)
    ensures forall e | e in s.log :: e in Step(s, x).log
  {
    hide FinishIn, AddTo, Work, LookUp, Arbitrated, Candidates, Decide, AccountIntent, NewRow;
  }

  predicate CrashFree(actions: seq<Action>)
  {
    forall x | x in actions :: !x.Crash?
  }

  lemma {:induction false} RunWatched(s: State, actions: seq<Action>, a: nat, sub: Submission, b: Entry)
    requires Orderly(s) && Watched(s, a, sub, b) && Rivals(a, sub, b) && CrashFree(actions)
    requires EndsRetained(Run(s, actions).log, b.token) && RivalStands(Run(s, actions).log, a, b.intent)
    ensures Watched(Run(s, actions), a, sub, b)
    decreases |actions|
  {
    hide Orderly, Step, Watched, Rivals;
    if actions != [] {
      var t := Step(s, actions[0]);
      forall e | e in t.log ensures e in Run(s, actions).log { LogGrows(t, actions[1..], e); }
      StepOrderly(s, actions[0]);
      StepWatched(s, actions[0], a, sub, b);
      RunWatched(t, actions[1..], a, sub, b);
    }
  }

  lemma UndecidedOverlap(s: State, a: nat, subA: Submission, b: nat, subB: Submission)
    requires Safe(s) && Orderly(s) && Undecided(s, a, subA) && Undecided(s, b, subB) && a != b
    requires SlotOf(subA.intent) == SlotOf(subB.intent)
    ensures Overlap(s.queue, SlotOf(subA.intent), a, EntryOf(b, subB)) && NeverOwn(s.log, a, subA.intent)
    ensures AccountIntent(subA.intent) && AccountIntent(subB.intent)
  {
    hide RowsOk, Unused, LogOk, QueueOk, PhaseOk, AccountIntent, QueueRequestKey;
    UndecidedPending(s, a, subA);
    UndecidedPending(s, b, subB);
    var slot := SlotOf(subA.intent);
    assert OnFile(s.queue, slot, EntryOf(a, subA)) && OnFile(s.queue, slot, EntryOf(b, subB));
  }

  lemma UndecidedPending(s: State, a: nat, sub: Submission)
    requires Safe(s) && Orderly(s) && Undecided(s, a, sub)
    ensures Pending(s, EntryOf(a, sub)) && AccountIntent(sub.intent) && !DecidedIn(s.log, a)
  {
    hide RowsOk, Unused, LogOk, QueueOk, PhaseOk, AccountIntent, QueueMirrors, DecidedIn, QueueRequestKey;
    var account := AccountOf(sub.intent);
    if !(a in s.waiting && s.waiting[a] == sub) {
      assert SectionOk(s.journal, s.log, account, s.sections[account]);
      assert Holds(s.sections[account], EntryOf(a, sub));
    }
  }

  lemma SameSlotSameKey(i: Intent, j: Intent)
    requires AccountIntent(i) && AccountIntent(j) && SlotOf(i) == SlotOf(j)
    ensures KeyOf(i) == KeyOf(j)
  {
  }

  /** Two commands for one account and operation are both queued before either
      is arbitrated. If the better one stands in the other's arbitration and
      ends in a retained status, the other never writes its own intent,
      whichever takes the lock first and however the steps interleave. */
  lemma LoserNeverWrites(upstream: map<int, AccountState>, now: int, past: seq<Action>, actions: seq<Action>,
                         a: nat, subA: Submission, b: nat, subB: Submission)
    requires var s := Run(Start(upstream, now), past);
             && Undecided(s, a, subA) && Undecided(s, b, subB) && a != b
             && EndsRetained(Run(s, actions).log, b) && RivalStands(Run(s, actions).log, a, subB.intent)
    requires SlotOf(subA.intent) == SlotOf(subB.intent) && QueueRequestKey(subA) != QueueRequestKey(subB)
    requires CandidateWins(subB.intent, subA.intent) && CrashFree(actions)
    ensures var log := Run(Run(Start(upstream, now), past), actions).log;
            && NeverOwn(log, a, subA.intent)
            && forall e | e in log && e.Wrote? && e.author == Some(a) :: e.intent != subA.intent
  {
    hide *;
    StartSafe(upstream, now);
    RunSafe(Start(upstream, now), past);
    StartOrderly(upstream, now);
    RunOrderly(Start(upstream, now), past);
    var s := Run(Start(upstream, now), past);
    LoserFrom(s, actions, a, subA, b, subB);
  }

  lemma LoserFrom(s: State, actions: seq<Action>, a: nat, subA: Submission, b: nat, subB: Submission)
    requires Safe(s) && Orderly(s) && Undecided(s, a, subA) && Undecided(s, b, subB) && a != b
    requires EndsRetained(Run(s, actions).log, b) && RivalStands(Run(s, actions).log, a, subB.intent)
    requires SlotOf(subA.intent) == SlotOf(subB.intent) && QueueRequestKey(subA) != QueueRequestKey(subB)
    requires CandidateWins(subB.intent, subA.intent) && CrashFree(actions)
    ensures var log := Run(s, actions).log;
            && NeverOwn(log, a, subA.intent)
            && forall e | e in log && e.Wrote? && e.author == Some(a) :: e.intent != subA.intent
  {
    hide Run, CandidateWins, AccountIntent, EndsRetained, RivalStands, NeverOwn, Orderly, RowsOk, SectionsOk, Unused, WaitingOk, LogOk, Undecided;
    hide Overlap, QueueRequestKey;
    var t := Run(s, actions);
    RunSafe(s, actions);
    UndecidedOverlap(s, a, subA, b, subB);
    SameSlotSameKey(subA.intent, subB.intent);
    AdmissibleIsValid(subB.intent);
    RunWatched(s, actions, a, subA, EntryOf(b, subB));
    forall e | e in t.log && e.Wrote? && e.author == Some(a) ensures e.intent != subA.intent {
      WriteWasDecided(t.log, e, a, subA.intent);
    }
  }

  /** If moreover no other candidate carries the loser's intent ID, the loser
      does not reach the writer at all. */
  lemma LoserIsSilent(upstream: map<int, AccountState>, now: int, past: seq<Action>, actions: seq<Action>,
                      a: nat, subA: Submission, b: nat, subB: Submission)
    requires var s := Run(Start(upstream, now), past);
             && Undecided(s, a, subA) && Undecided(s, b, subB) && a != b
             && EndsRetained(Run(s, actions).log, b) && RivalStands(Run(s, actions).log, a, subB.intent)
    requires SlotOf(subA.intent) == SlotOf(subB.intent) && QueueRequestKey(subA) != QueueRequestKey(subB)
    requires CandidateWins(subB.intent, subA.intent) && CrashFree(actions)
    requires forall e, c | e in Run(Run(Start(upstream, now), past), actions).log && e.Decided? && e.token == a && c in e.candidates ::
               c.id == subA.intent.id ==> c == subA.intent
    ensures forall e | e in Run(Run(Start(upstream, now), past), actions).log && e.Wrote? :: e.author != Some(a)
  {
    LoserNeverWrites(upstream, now, past, actions, a, subA, b, subB);
    var s := Run(Start(upstream, now), past);
    StartSafe(upstream, now);
    RunSafe(Start(upstream, now), past);
    RunSafe(s, actions);
    var log := Run(s, actions).log;
    assert LogOk(log);
    hide Run, Start, CandidateWins, Safe, EndsRetained, RivalStands, Undecided, QueueRequestKey, LogOk;
    forall e | e in log && e.Wrote? ensures e.author != Some(a) {
      if e.author == Some(a) { WriteWasDecided(log, e, a, subA.intent); }
    }
  }

  lemma AdmissibleIsValid(i: Intent)
    requires AccountIntent(i)
    ensures Valid(i)
  {
  }

  lemma WriteWasDecided(log: seq<Event>, e: Event, a: nat, own: Intent)
    requires LogOk(log) && e in log && e.Wrote? && e.author == Some(a)
    ensures HasProceed(log, a, e.intent)
    ensures NeverOwn(log, a, own) ==> e.intent != own
  {
    hide Writes, Fresh, Guarded;
    var n :| 0 <= n < |log| && log[n] == e;
    assert Justified(log[..n], log[n]);
    var d :| d in log[..n] && d.Decided? && d.token == a && d.decision == Proceed(e.intent);
    assert d in log;
  }
}

/** When a transition can be marked applied on an outdated readback: the
    reconcile pass trusts the rate cache, which may be older than the row. */
module GroupTransitionFreshness {
  import opened Options
  import opened GroupTransitions
  import opened GroupTransitionSafety

  /** The target was read from the key at or after a position of the log. */
  predicate SeenSince(log: seq<Event>, mark: nat, token: Token, group: string)
  {
    exists n | mark <= n < |log| :: log[n].Read? && log[n].token == token && log[n].group == group
  }

  predicate CacheShows(s: State, token: Token, group: string)
  {
    token in s.cache && s.cache[token] == group
  }

  predicate FetchHolds(s: State, token: Token, group: string)
  {
    exists f | f in s.fetches :: s.fetches[f] == Fetched(token, group)
  }

  predicate ReconcilerHolds(s: State, token: Token, group: string, idem: string)
  {
    && s.reconciler.Some? && s.reconciler.value.token == token && s.reconciler.value.group == group
    && (s.reconciler.value.listed.None? || idem in s.reconciler.value.listed.value)
  }

  /** Something outside the lock already claims that the key is in the target
      group: the cache, a fetch not yet saved, or a reconcile pass. */
  predicate TargetClaimed(s: State, idem: string)
    requires idem in s.rows
  {
    var token, to := s.rows[idem].token, s.rows[idem].toGroup;
    CacheShows(s, token, to) || FetchHolds(s, token, to) || ReconcilerHolds(s, token, to, idem)
  }

  /** No section works on the row having already read the target. */
  predicate SectionsUnread(s: State, idem: string)
    requires idem in s.rows
  {
    forall t | t in s.sections && s.sections[t].job.idem == idem ::
      && !s.sections[t].phase.Completing?
      && (s.sections[t].phase.Begun? || s.sections[t].phase.Saving? ==> s.sections[t].phase.live != s.rows[idem].toGroup)
  }

  predicate Unread(s: State, idem: string)
  {
    && idem in s.rows && !s.rows[idem].status.Applied?
    && SectionsUnread(s, idem) && !TargetClaimed(s, idem)
  }

  predicate Tracked(s: State, mark: nat, idem: string, token: Token, to: string)
  {
    && idem in s.rows && s.rows[idem].token == token && s.rows[idem].toGroup == to
    && (SeenSince(s.log, mark, token, to) || Unread(s, idem))
  }

  lemma SeenSinceStays(log: seq<Event>, e: Event, mark: nat, token: Token, group: string)
    requires mark <= |log|
    ensures SeenSince(log, mark, token, group) ==> SeenSince(log + [e], mark, token, group)
    ensures e.Read? && e.token == token && e.group == group ==> SeenSince(log + [e], mark, token, group)
  {
    if SeenSince(log, mark, token, group) {
      var n :| mark <= n < |log| && log[n].Read? && log[n].token == token && log[n].group == group;
      assert (log + [e])[n] == log[n];
    }
    assert (log + [e])[|log|] == e;
  }

  /** A section working on the row reaches Completing only by reading the target. */
  lemma WorkTracks(s: State, token: Token, sec: Section, o: Reply, idem: string)
    requires SectionOk(s.rows, s.log, token, sec) && sec.job.idem == idem && idem in s.rows && !s.rows[idem].status.Applied?
    requires !sec.phase.Completing? && !sec.phase.Leaving?
    requires sec.phase.Begun? || sec.phase.Saving? ==> sec.phase.live != s.rows[idem].toGroup
    ensures var m := Work(token, sec, o, s);
            && (m.row.Some? ==> m.row.value == s.rows[idem].(status := m.row.value.status) && !m.row.value.status.Applied?)
            && (m.phase.Completing? ==> m.event == Some(Read(s.rows[idem].token, s.rows[idem].toGroup, true)))
            && (m.phase.Begun? || m.phase.Saving? ==> m.phase.live != s.rows[idem].toGroup)
  {
    hide FreshRead, Switches, NoPending;
  }

  lemma ClaimsStay(s: State, t: State, idem: string)
    requires idem in s.rows && idem in t.rows && t.cache == s.cache && t.fetches == s.fetches && t.reconciler == s.reconciler
    requires t.rows[idem].token == s.rows[idem].token && t.rows[idem].toGroup == s.rows[idem].toGroup
    ensures TargetClaimed(t, idem) == TargetClaimed(s, idem)
  {
    assert FetchHolds(t, s.rows[idem].token, s.rows[idem].toGroup) == FetchHolds(s, s.rows[idem].token, s.rows[idem].toGroup);
  }

  lemma AdvanceTracked(s: State, token: Token, o: Reply, mark: nat, idem: string)
    requires Safe(s) && Unread(s, idem) && token in s.sections && mark <= |s.log|
    ensures Tracked(Advanced(s, token, o), mark, idem, s.rows[idem].token, s.rows[idem].toGroup)
  {
    hide SectionOk, LogOk, SwitchesOk, RowsOk, CacheOk, TargetClaimed, Work, SeenSince;
    var sec := s.sections[token];
    var t := Advanced(s, token, o);
    assert SectionOk(s.rows, s.log, token, sec);
    if !sec.phase.Leaving? {
      var m := Work(token, sec, o, s);
      if sec.job.idem == idem { WorkTracks(s, token, sec, o, idem); } else { SameRow(s, token, sec, m, idem, o); }
      if m.event.Some? { SeenSinceStays(s.log, m.event.value, mark, s.rows[idem].token, s.rows[idem].toGroup); }
    }
    ClaimsStay(s, t, idem);
  }

  lemma SameRow(s: State, token: Token, sec: Section, m: Move, idem: string, o: Reply)
    requires sec.job.idem != idem && idem in s.rows
    ensures var t := Moved(s, token, sec, m, o.effect);
            idem in t.rows && t.rows[idem] == s.rows[idem]
  {
  }

  lemma FetchTracked(s: State, id: nat, k: Token, mark: nat, idem: string)
    requires Unread(s, idem) && mark <= |s.log| && id !in s.fetches && k in s.upstream
    ensures Tracked(Step(s, Fetch(id, k)), mark, idem, s.rows[idem].token, s.rows[idem].toGroup)
  {
    hide SeenSince;
    var token, to := s.rows[idem].token, s.rows[idem].toGroup;
    var t := Step(s, Fetch(id, k));
    SeenSinceStays(s.log, Read(k, s.upstream[k], false), mark, token, to);
    if FetchHolds(t, token, to) {
      var f :| f in t.fetches && t.fetches[f] == Fetched(token, to);
      assert f != id ==> FetchHolds(s, token, to);
    }
  }

  lemma SaveTracked(s: State, id: nat, mark: nat, idem: string)
    requires Unread(s, idem) && id in s.fetches
    ensures Tracked(Step(s, SaveFetch(id)), mark, idem, s.rows[idem].token, s.rows[idem].toGroup)
  {
    hide SeenSince;
    var token, to := s.rows[idem].token, s.rows[idem].toGroup;
    var t := Step(s, SaveFetch(id));
    assert s.fetches[id] == Fetched(token, to) ==> FetchHolds(s, token, to);
    assert FetchHolds(t, token, to) ==> FetchHolds(s, token, to);
  }

  lemma ReconcileTracked(s: State, a: Action, mark: nat, idem: string)
    requires Unread(s, idem) && (a.ReconcileRead? || a.ReconcileList? || a.ReconcileEnd?)
    ensures Tracked(Step(s, a), mark, idem, s.rows[idem].token, s.rows[idem].toGroup)
  {
    hide SeenSince;
    var t := Step(s, a);
    assert FetchHolds(t, s.rows[idem].token, s.rows[idem].toGroup) == FetchHolds(s, s.rows[idem].token, s.rows[idem].toGroup);
    hide FetchHolds;
  }

  lemma ResolveTracked(s: State, k: string, mark: nat, idem: string)
    requires Safe(s) && Unread(s, idem)
    ensures Tracked(Settled(s, k), mark, idem, s.rows[idem].token, s.rows[idem].toGroup)
  {
    hide SeenSince, SectionsOk, SwitchesOk, RowsOk, LogOk, Seen, FetchHolds, CacheShows;
    var t := Settled(s, k);
    if t != s {
      ListedIsOwned(s, k);
      ClaimsStay(s, t, idem);
      hide TargetClaimed;
      assert k == idem ==> ReconcilerHolds(s, s.rows[idem].token, s.reconciler.value.group, idem);
      assert k == idem ==> s.reconciler.value.group != s.rows[idem].toGroup by { ClaimedByReconciler(s, idem); }
    }
  }

  lemma ClaimedByReconciler(s: State, idem: string)
    requires idem in s.rows && !TargetClaimed(s, idem)
    ensures !ReconcilerHolds(s, s.rows[idem].token, s.rows[idem].toGroup, idem)
  {
  }

  lemma StepTracked(s: State, a: Action, mark: nat, idem: string)
    requires Safe(s) && Unread(s, idem) && mark <= |s.log|
    ensures Tracked(Step(s, a), mark, idem, s.rows[idem].token, s.rows[idem].toGroup)
  {
    hide Safe, Advanced, Settled, SeenSince, TargetClaimed;
    match a
    case Advance(k, o) => if k in s.sections { AdvanceTracked(s, k, o, mark, idem); }
    case Fetch(id, k) => if id !in s.fetches && k in s.upstream { FetchTracked(s, id, k, mark, idem); }
    case SaveFetch(id) => if id in s.fetches { SaveTracked(s, id, mark, idem); }
    case ReconcileRead(_) => ReconcileTracked(s, a, mark, idem);
    case ReconcileList => ReconcileTracked(s, a, mark, idem);
    case ReconcileResolve(k) => ResolveTracked(s, k, mark, idem);
    case ReconcileEnd => ReconcileTracked(s, a, mark, idem);
    case Crash => CrashClaims(s, idem);
    case _ => ClaimsStay(s, Step(s, a), idem);
  }

  lemma CrashClaims(s: State, idem: string)
    requires idem in s.rows && !TargetClaimed(s, idem)
    ensures !TargetClaimed(Step(s, Crash), idem)
  {
  }

  lemma StepLogGrows(s: State, a: Action)
    ensures Step(s, a).log == s.log || exists e :: Step(s, a).log == s.log + [e]
  {
    hide Work;
  }

  lemma StepKeepsTarget(s: State, a: Action, idem: string)
    requires Safe(s) && idem in s.rows
    ensures var t := Step(s, a);
            idem in t.rows && t.rows[idem].token == s.rows[idem].token && t.rows[idem].toGroup == s.rows[idem].toGroup
  {
    hide Work, RowsOk, CacheOk, SwitchesOk, LogOk;
    if a.Advance? && a.token in s.sections && !s.sections[a.token].phase.Leaving? {
      WorkKeeps(s, a.token, s.sections[a.token], a.reply);
    }
  }

  lemma {:induction false} RunTracked(s: State, actions: seq<Action>, mark: nat, idem: string, token: Token, to: string)
    requires Safe(s) && Tracked(s, mark, idem, token, to) && mark <= |s.log|
    ensures Tracked(Run(s, actions), mark, idem, token, to)
    decreases |actions|
  {
    hide Safe, Step, Unread;
    if actions != [] {
      var t := Step(s, actions[0]);
      StepSafe(s, actions[0]);
      StepLogGrows(s, actions[0]);
      StepKeepsTarget(s, actions[0], idem);
      if SeenSince(s.log, mark, token, to) {
        if t.log != s.log {
          var e :| t.log == s.log + [e];
          SeenSinceStays(s.log, e, mark, token, to);
        }
      } else {
        StepTracked(s, actions[0], mark, idem);
      }
      RunTracked(t, actions[1..], mark, idem, token, to);
    }
  }

  // ------------------------------------------------------------ exact case

  /** A run that marks the row applied although nobody read the target from the
      key since the run began. */
  predicate StaleRun(s: State, idem: string, actions: seq<Action>)
    requires idem in s.rows
  {
    var t := Run(s, actions);
    && idem in t.rows && t.rows[idem].status.Applied?
    && !SeenSince(t.log, |s.log|, s.rows[idem].token, s.rows[idem].toGroup)
  }

  lemma RunAppend(s: State, a: Action, more: seq<Action>)
    ensures Run(s, [a] + more) == Run(Step(s, a), more)
  {
    assert ([a] + more)[1..] == more;
  }

  lemma NothingSeen(log: seq<Event>, e: Event, token: Token, group: string)
    requires !e.Read?
    ensures !SeenSince(log + [e], |log|, token, group)
  {
  }

  /** The reconcile pass that trusts an old claim. */
  lemma ResolveIsStale(s: State, idem: string)
    requires idem in s.rows && s.rows[idem].status.Pending? && s.reconciler.Some? && s.reconciler.value.listed.Some?
    requires idem in s.reconciler.value.listed.value && s.reconciler.value.group == s.rows[idem].toGroup
    ensures StaleRun(s, idem, [ReconcileResolve(idem)])
  {
    var t := Step(s, ReconcileResolve(idem));
    RunAppend(s, ReconcileResolve(idem), []);
    assert [ReconcileResolve(idem)] + [] == [ReconcileResolve(idem)];
    NothingSeen(s.log, Completed(idem, s.reconciler.value.token, s.reconciler.value.group, false), s.rows[idem].token, s.rows[idem].toGroup);
  }

  lemma StalePrefix(s: State, a: Action, idem: string, more: seq<Action>)
    requires idem in s.rows && Step(s, a).rows == s.rows && Step(s, a).log == s.log
    requires StaleRun(Step(s, a), idem, more)
    ensures StaleRun(s, idem, [a] + more)
  {
    RunAppend(s, a, more);
  }

  lemma ReconcilerStale(s: State, idem: string) returns (actions: seq<Action>)
    requires idem in s.rows && s.rows[idem].status.Pending?
    requires ReconcilerHolds(s, s.rows[idem].token, s.rows[idem].toGroup, idem)
    ensures StaleRun(s, idem, actions)
  {
    hide StaleRun;
    if s.reconciler.value.listed.Some? {
      ResolveIsStale(s, idem);
      actions := [ReconcileResolve(idem)];
    } else {
      ResolveIsStale(Step(s, ReconcileList), idem);
      StalePrefix(s, ReconcileList, idem, [ReconcileResolve(idem)]);
      actions := [ReconcileList] + [ReconcileResolve(idem)];
    }
  }

  lemma CacheStale(s: State, idem: string) returns (actions: seq<Action>)
    requires idem in s.rows && s.rows[idem].status.Pending?
    requires CacheShows(s, s.rows[idem].token, s.rows[idem].toGroup)
    ensures StaleRun(s, idem, actions)
  {
    hide StaleRun;
    var t := Step(s, ReconcileEnd);
    var u := Step(t, ReconcileRead(s.rows[idem].token));
    actions := ReconcilerStale(u, idem);
    StalePrefix(t, ReconcileRead(s.rows[idem].token), idem, actions);
    StalePrefix(s, ReconcileEnd, idem, [ReconcileRead(s.rows[idem].token)] + actions);
    actions := [ReconcileEnd] + ([ReconcileRead(s.rows[idem].token)] + actions);
  }

  /** A pending row whose target no section has read yet can be marked applied
      without any later readback exactly when the target is already claimed. */
  lemma StaleExactly(s: State, idem: string)
    requires Safe(s) && idem in s.rows && s.rows[idem].status.Pending? && SectionsUnread(s, idem)
    ensures (exists actions :: StaleRun(s, idem, actions)) <==> TargetClaimed(s, idem)
  {
    hide Safe, StaleRun;
    var token, to := s.rows[idem].token, s.rows[idem].toGroup;
    if TargetClaimed(s, idem) {
      if ReconcilerHolds(s, token, to, idem) {
        var actions := ReconcilerStale(s, idem);
      } else if CacheShows(s, token, to) {
        var actions := CacheStale(s, idem);
      } else {
        var f :| f in s.fetches && s.fetches[f] == Fetched(token, to);
        var actions := CacheStale(Step(s, SaveFetch(f)), idem);
        StalePrefix(s, SaveFetch(f), idem, actions);
      }
    } else {
      forall actions ensures !StaleRun(s, idem, actions) {
        RunTracked(s, actions, |s.log|, idem, token, to);
        TrackedIsNotStale(s, idem, actions);
      }
    }
  }

  lemma TrackedIsNotStale(s: State, idem: string, actions: seq<Action>)
    requires idem in s.rows && Tracked(Run(s, actions), |s.log|, idem, s.rows[idem].token, s.rows[idem].toGroup)
    ensures !StaleRun(s, idem, actions)
  {
    hide Run;
  }

  /** Right after its reservation a row is unread by its section unless the key
      was already in the target group. */
  lemma ReservedIsUnread(s: State, token: Token, o: Reply)
    requires Safe(s) && token in s.sections && s.sections[token].phase.Beginning?
    requires s.sections[token].job.idem !in s.rows && (o.answer.Good? || o.effect)
    requires s.sections[token].phase.live != s.sections[token].job.to
    ensures var t := Advanced(s, token, o);
            var idem := s.sections[token].job.idem;
            idem in t.rows && t.rows[idem].status.Pending? && SectionsUnread(t, idem)
  {
    hide FreshRead, Seen, Switches, LogOk, SwitchesOk, RowsOk, CacheOk, NoPending;
    var idem := s.sections[token].job.idem;
    assert SectionOk(s.rows, s.log, token, s.sections[token]);
    forall k | k in s.sections && k != token && s.sections[k].job.idem == idem
      ensures !s.sections[k].phase.Completing? && !s.sections[k].phase.Begun? && !s.sections[k].phase.Saving? {
      assert SectionOk(s.rows, s.log, k, s.sections[k]);
    }
  }

  // ---------------------------------------------------------------- witness

  const KEY := Token(1, "k")
  const GOOD := Reply(Good, true)
  const REQUEST := Transition("t", "b", false, false)
  const ROW := Row(KEY, "a", "b", Pending)

  lemma RunThree(s: State, a: Action, b: Action, c: Action)
    ensures Run(s, [a, b, c]) == Step(Step(Step(s, a), b), c)
  {
    hide Step;
    assert [a, b, c][1..] == [b, c] && [b, c][1..] == [c] && [c][1..] == [];
    assert Run(Step(s, a), [b, c]) == Run(Step(Step(s, a), b), [c]);
    assert Run(Step(Step(s, a), b), [c]) == Run(Step(Step(Step(s, a), b), c), []);
  }

  /** The key leaves the target group while a refresh that saw it there is on its way. */
  const OUTDATED := [Fetch(0, KEY), Drift(KEY, "a"), Fetch(1, KEY)]
  const REQUESTED := [SaveFetch(1), Begin(KEY, REQUEST), Advance(KEY, GOOD)]
  const RESERVED := [Advance(KEY, GOOD), Advance(KEY, GOOD), Advance(KEY, GOOD)]
  const CLAIMED := [SaveFetch(0), ReconcileRead(KEY), ReconcileList]

  const START := Start(map[KEY := "b"])
  const AFTER_DRIFT := State(map[], map[KEY := "a"], map[], map[], map[0 := Fetched(KEY, "b"), 1 := Fetched(KEY, "a")], None,
                             [Read(KEY, "b", false), Read(KEY, "a", false)])
  const CHECKING := AFTER_DRIFT.(cache := map[KEY := "a"], fetches := map[0 := Fetched(KEY, "b")],
                                 sections := map[KEY := Section(REQUEST, Checking)],
                                 log := AFTER_DRIFT.log + [Locked(KEY)])
  const WAITING := CHECKING.(rows := map["t" := ROW], sections := map[KEY := Section(REQUEST, Begun("a"))],
                             log := CHECKING.log + [Read(KEY, "a", true)] + [Reserved("t", KEY)])

  lemma ReachesChecking()
    ensures Run(Run(START, OUTDATED), REQUESTED) == CHECKING
  {
    RunThree(START, Fetch(0, KEY), Drift(KEY, "a"), Fetch(1, KEY));
    assert [] + [Read(KEY, "b", false)] + [Read(KEY, "a", false)] == AFTER_DRIFT.log;
    assert Run(START, OUTDATED) == AFTER_DRIFT;
    RunThree(AFTER_DRIFT, SaveFetch(1), Begin(KEY, REQUEST), Advance(KEY, GOOD));
  }

  lemma ReachesWaiting()
    ensures Run(CHECKING, RESERVED) == WAITING
  {
    RunThree(CHECKING, Advance(KEY, GOOD), Advance(KEY, GOOD), Advance(KEY, GOOD));
    var s1 := Step(CHECKING, Advance(KEY, GOOD));
    assert s1.sections == map[KEY := Section(REQUEST, Asserting("a"))];
    var s2 := Step(s1, Advance(KEY, GOOD));
    assert s2.sections == map[KEY := Section(REQUEST, Beginning("a"))];
  }

  const CLAIMING := WAITING.(cache := map[KEY := "b"], fetches := map[], reconciler := Some(Reconciler(KEY, "b", Some({"t"}))))
  const COMPLETED := CLAIMING.(rows := map["t" := ROW.(status := Applied)], log := CLAIMING.log + [Completed("t", KEY, "b", false)])

  lemma ReachesClaiming()
    ensures Run(WAITING, CLAIMED) == CLAIMING
  {
    RunThree(WAITING, SaveFetch(0), ReconcileRead(KEY), ReconcileList);
    assert PendingOf(WAITING, KEY) == {"t"};
  }

  lemma WaitingIsClaimed()
    ensures SectionsUnread(WAITING, "t") && TargetClaimed(WAITING, "t")
  {
    assert FetchHolds(WAITING, KEY, "b") by { assert 0 in WAITING.fetches; }
  }

  /** An automatic request whose live and cached group agree reserves its row;
      then the late refresh is saved and a reconcile pass marks the row applied,
      with no switch ever called and the key still in the old group. */
  lemma StaleCompletionIsReachable()
    ensures var s := Run(Run(Run(START, OUTDATED), REQUESTED), RESERVED);
            && "t" in s.rows && s.rows["t"].status.Pending? && SectionsUnread(s, "t") && TargetClaimed(s, "t")
    ensures var t := Step(Run(Run(Run(Run(START, OUTDATED), REQUESTED), RESERVED), CLAIMED), ReconcileResolve("t"));
            && "t" in t.rows && t.rows["t"].status.Applied?
            && KEY in t.upstream && t.upstream[KEY] == "a" && Switches(t.log, "t") == 0
  {
    hide Step, Run, SectionsUnread, TargetClaimed, Switches;
    ReachesChecking();
    ReachesWaiting();
    ReachesClaiming();
    WaitingIsClaimed();
    ClaimCompletes();
    NoSwitchCalled(COMPLETED.log, "t");
  }

  lemma ClaimCompletes()
    ensures Step(CLAIMING, ReconcileResolve("t")) == COMPLETED
  {
  }

  lemma {:induction false} NoSwitchCalled(log: seq<Event>, idem: string)
    requires forall n | 0 <= n < |log| :: !log[n].Switched?
    ensures Switches(log, idem) == 0
  {
    if log != [] { NoSwitchCalled(log[..|log| - 1], idem); }
  }
}

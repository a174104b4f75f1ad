/** What every run of the group transition journal keeps. */
module GroupTransitionSafety {
  import opened Options
  import opened GroupTransitions

  // ------------------------------------------------------------- invariant

  predicate Owns(rows: map<string, Row>, token: Token, idem: string)
  {
    idem in rows && rows[idem].token == token
  }

  /** The section has called no switch, and none has resolved the row. */
  predicate Unswitched(log: seq<Event>, token: Token, idem: string)
  {
    LastSwitch(log, token).None? && Switches(log, idem) == 0 && Unclosed(log, idem)
  }

  /** The request's row stands for the group it read and the group it asks for. */
  ghost predicate Requested(rows: map<string, Row>, log: seq<Event>, token: Token, job: Job)
  {
    && job.Transition? && Owns(rows, token, job.idem) && Unswitched(log, token, job.idem)
    && FreshRead(log, token) == Some(rows[job.idem].fromGroup) && rows[job.idem].toGroup == job.to
  }

  ghost predicate SectionOk(rows: map<string, Row>, log: seq<Event>, token: Token, sec: Section)
  {
    var idem := sec.job.idem;
    match sec.phase
    case Lookup => (sec.job.Recovery? ==> Owns(rows, token, idem)) && LastSwitch(log, token).None?
    case Checking => sec.job.Transition? && LastSwitch(log, token).None?
    case Asserting(live) => sec.job.Transition? && FreshRead(log, token) == Some(live) && LastSwitch(log, token).None?
    case Beginning(live) =>
      sec.job.Transition? && FreshRead(log, token) == Some(live) && NoPending(rows, token) && LastSwitch(log, token).None?
    case Begun(live) => Requested(rows, log, token, sec.job) && rows[idem].fromGroup == live
    case Saving(live) => Requested(rows, log, token, sec.job) && rows[idem].fromGroup == live && !sec.job.dryRun
    case Switching => Requested(rows, log, token, sec.job) && !sec.job.dryRun
    case Reading => Owns(rows, token, idem) && LastSwitch(log, token) == Some(Good) && FreshRead(log, token).None? && sec.job.Transition?
    case Fetching => Owns(rows, token, idem) && LastSwitch(log, token).None? && sec.job.Recovery?
    case Failing =>
      && Owns(rows, token, idem)
      && EndJustified(log, token, idem, rows[idem].(status := Failed), sec.job)
    case Completing =>
      && Owns(rows, token, idem) && FreshRead(log, token) == Some(rows[idem].toGroup)
      && LastSwitch(log, token) in {None, Some(Good)}
    case Leaving => true
  }

  ghost predicate SectionsOk(s: State)
  {
    forall token | token in s.sections :: SectionOk(s.rows, s.log, token, s.sections[token])
  }

  ghost predicate SwitchesOk(rows: map<string, Row>, log: seq<Event>)
  {
    && (forall idem :: Switches(log, idem) <= if idem in rows then 1 else 0)
    && (forall e | e in log && AboutRow(e) :: Owns(rows, e.token, e.idem))
  }

  predicate AboutRow(e: Event)
  {
    e.Switched? || e.Completed? || e.Closed?
  }

  /** The event that resolves a row. */
  predicate Resolves(e: Event, idem: string, status: RowStatus)
  {
    || (e.Completed? && e.idem == idem && status.Applied?)
    || (e.Closed? && e.idem == idem && e.row.status == status)
  }

  predicate ResolvedIn(log: seq<Event>, idem: string, status: RowStatus)
  {
    exists e | e in log :: Resolves(e, idem, status)
  }

  ghost predicate RowsOk(rows: map<string, Row>, log: seq<Event>)
  {
    && (forall k | k in rows :: rows[k].status.Applied? ==> Seen(log, rows[k].token, rows[k].toGroup))
    && (forall k | k in rows :: rows[k].status.Pending? || ResolvedIn(log, k, rows[k].status))
    && (forall i, j | i in rows && j in rows :: rows[i].status.Pending? && rows[j].status.Pending? && rows[i].token == rows[j].token ==> i == j)
  }

  /** Everything the cache side holds was read from the upstream. */
  ghost predicate CacheOk(s: State)
  {
    && (forall t | t in s.cache :: Seen(s.log, t, s.cache[t]))
    && (forall f | f in s.fetches :: Seen(s.log, s.fetches[f].token, s.fetches[f].group))
    && (s.reconciler.Some? ==>
          var r := s.reconciler.value;
          Seen(s.log, r.token, r.group) && (r.listed.Some? ==> forall k | k in r.listed.value :: Owns(s.rows, r.token, k)))
  }

  ghost predicate Safe(s: State)
  {
    SectionsOk(s) && SwitchesOk(s.rows, s.log) && RowsOk(s.rows, s.log) && CacheOk(s) && LogOk(s.log)
  }

  // --------------------------------------------------------- log extension

  lemma Extended(log: seq<Event>, e: Event)
    ensures (log + [e])[..|log + [e]| - 1] == log && (log + [e])[|log + [e]| - 1] == e
  {
  }

  lemma SeenStays(log: seq<Event>, e: Event, token: Token, group: string)
    ensures Seen(log, token, group) ==> Seen(log + [e], token, group)
    ensures e.Read? && e.token == token && e.group == group ==> Seen(log + [e], token, group)
  {
    if Seen(log, token, group) {
      var x :| x in log && x.Read? && x.token == token && x.group == group;
      assert x in log + [e];
    }
    assert e in log + [e];
  }

  lemma ResolvedStays(log: seq<Event>, e: Event, idem: string, status: RowStatus)
    ensures ResolvedIn(log, idem, status) ==> ResolvedIn(log + [e], idem, status)
    ensures Resolves(e, idem, status) ==> ResolvedIn(log + [e], idem, status)
  {
    if ResolvedIn(log, idem, status) {
      var x :| x in log && Resolves(x, idem, status);
      assert x in log + [e];
    }
    assert e in log + [e];
  }

  lemma {:induction false} FreshIsSeen(log: seq<Event>, token: Token)
    requires FreshRead(log, token).Some?
    ensures Seen(log, token, FreshRead(log, token).value)
  {
    var e := log[|log| - 1];
    var rest := log[..|log| - 1];
    assert log == rest + [e];
    if !(e.Read? && e.inSection && e.token == token) { FreshIsSeen(rest, token); }
    SeenStays(rest, e, token, FreshRead(log, token).value);
  }

  lemma LogOkExtends(log: seq<Event>, e: Event)
    requires LogOk(log) && Justified(log, e)
    ensures LogOk(log + [e])
  {
    hide Justified;
    var l := log + [e];
    forall n | 0 <= n < |l| ensures Justified(l[..n], l[n]) {
      assert l[..n] == log[..n];
      assert n == |log| ==> log[..n] == log;
    }
  }

  /** An event that says nothing about the current section of a key. */
  predicate Foreign(e: Event, token: Token)
  {
    e.token != token || e.Completed? || e.Closed? || e.Reserved? || (e.Read? && !e.inSection)
  }

  lemma ForeignKeeps(log: seq<Event>, e: Event, token: Token)
    requires Foreign(e, token)
    ensures FreshRead(log + [e], token) == FreshRead(log, token) && LastSwitch(log + [e], token) == LastSwitch(log, token)
  {
    Extended(log, e);
  }

  // ------------------------------------------------------------- the frame

  /** Rows keep their key and groups, resolved rows never change, and pending
      rows appear only under the one key that is being worked on. */
  predicate RowsEvolve(a: map<string, Row>, b: map<string, Row>, token: Option<Token>)
  {
    && (forall k | k in a :: k in b && RowEvolves(a[k], b[k]))
    && (forall k | k in b && k !in a :: token == Some(b[k].token))
  }

  predicate RowEvolves(a: Row, b: Row)
  {
    && b.token == a.token && b.fromGroup == a.fromGroup && b.toGroup == a.toGroup
    && (!a.status.Pending? ==> b == a)
  }

  /** A section calls a switch for the row or resolves it. */
  predicate Touches(e: Event, idem: string)
  {
    (e.Switched? && e.idem == idem) || SectionCloses(e, idem)
  }

  lemma SectionStays(a: map<string, Row>, b: map<string, Row>, log: seq<Event>, e: Option<Event>, worked: Option<Token>, token: Token, sec: Section)
    requires SectionOk(a, log, token, sec) && RowsEvolve(a, b, worked) && worked != Some(token)
    requires e.Some? ==> Foreign(e.value, token) && (Owns(a, token, sec.job.idem) ==> !Touches(e.value, sec.job.idem))
    ensures SectionOk(b, if e.None? then log else log + [e.value], token, sec)
  {
    hide FreshRead;
    if e.Some? {
      ForeignKeeps(log, e.value, token);
      Extended(log, e.value);
    }
  }

  /** From `s` to `t` one key's section moved, or nobody's. */
  ghost predicate LocalChange(s: State, t: State, worked: Option<Token>, e: Option<Event>)
  {
    && t.log == Logged(s, e)
    && (e.Some? ==> EventFits(s.log, t.rows, e.value, worked))
    && RowsEvolve(s.rows, t.rows, worked)
    && (forall b | b in t.sections && worked != Some(b) :: b in s.sections && t.sections[b] == s.sections[b])
    && (worked.Some? && worked.value in t.sections ==> SectionOk(t.rows, t.log, worked.value, t.sections[worked.value]))
    && RowsOk(t.rows, t.log) && CacheOk(t)
  }

  ghost predicate EventFits(log: seq<Event>, rows: map<string, Row>, e: Event, worked: Option<Token>)
  {
    && Justified(log, e)
    && (e.Locked? || e.Switched? || (e.Read? && e.inSection) ==> worked == Some(e.token))
    && (e.Switched? ==> Owns(rows, e.token, e.idem) && Switches(log, e.idem) == 0)
    && (forall idem | Touches(e, idem) :: worked == Some(e.token))
    && (AboutRow(e) ==> Owns(rows, e.token, e.idem))
  }

  lemma SafeAfter(s: State, t: State, worked: Option<Token>, e: Option<Event>)
    requires Safe(s) && LocalChange(s, t, worked, e)
    ensures Safe(t)
  {
    hide Justified, FreshRead, RowsOk, CacheOk;
    forall b | b in t.sections ensures SectionOk(t.rows, t.log, b, t.sections[b]) {
      if worked != Some(b) {
        assert SectionOk(s.rows, s.log, b, s.sections[b]);
        SectionStays(s.rows, t.rows, s.log, e, worked, b, s.sections[b]);
      }
    }
    if e.Some? {
      LogOkExtends(s.log, e.value);
      Extended(s.log, e.value);
    }
    SwitchesStay(s.rows, t.rows, s.log, e, worked);
  }

  lemma SwitchesStay(a: map<string, Row>, b: map<string, Row>, log: seq<Event>, e: Option<Event>, worked: Option<Token>)
    requires SwitchesOk(a, log) && RowsEvolve(a, b, worked) && (e.Some? ==> EventFits(log, b, e.value, worked))
    ensures SwitchesOk(b, if e.None? then log else log + [e.value])
  {
    hide Justified;
    if e.Some? { Extended(log, e.value); }
    var l := if e.None? then log else log + [e.value];
    forall idem ensures Switches(l, idem) <= if idem in b then 1 else 0 {
      assert Switches(log, idem) <= if idem in a then 1 else 0;
    }
    forall x | x in l && AboutRow(x) ensures Owns(b, x.token, x.idem) {
      assert x in log ==> Owns(a, x.token, x.idem);
    }
  }

  lemma CacheStays(s: State, t: State, e: Option<Event>)
    requires CacheOk(s) && t.log == Logged(s, e) && RowsKeepTokens(s.rows, t.rows)
    requires t.cache == s.cache && t.fetches == s.fetches && t.reconciler == s.reconciler
    ensures CacheOk(t)
  {
    hide Seen;
    if e.Some? {
      forall token, group ensures Seen(s.log, token, group) ==> Seen(t.log, token, group) { SeenStays(s.log, e.value, token, group); }
    }
  }

  predicate RowsKeepTokens(a: map<string, Row>, b: map<string, Row>)
  {
    forall k | k in a :: k in b && b[k].token == a[k].token
  }

  lemma EvolveKeepsTokens(a: map<string, Row>, b: map<string, Row>, token: Option<Token>)
    requires RowsEvolve(a, b, token)
    ensures RowsKeepTokens(a, b)
  {
  }

  // ----------------------------------------------------------- section steps

  /** What one step of a section owes the journal and the log. */
  ghost predicate MoveOk(s: State, token: Token, sec: Section, m: Move)
  {
    var rows := if m.row.Some? then s.rows[sec.job.idem := m.row.value] else s.rows;
    var log := Logged(s, m.event);
    && RowsEvolve(s.rows, rows, Some(token)) && RowsOk(rows, log)
    && SectionOk(rows, log, token, sec.(phase := m.phase))
    && (m.event.Some? ==> EventFits(s.log, rows, m.event.value, Some(token)))
  }

  lemma RowsOkStays(rows: map<string, Row>, log: seq<Event>, e: Event)
    requires RowsOk(rows, log)
    ensures RowsOk(rows, log + [e])
  {
    hide Seen, ResolvedIn;
    forall token, group ensures Seen(log, token, group) ==> Seen(log + [e], token, group) { SeenStays(log, e, token, group); }
    forall k, status ensures ResolvedIn(log, k, status) ==> ResolvedIn(log + [e], k, status) { ResolvedStays(log, e, k, status); }
  }

  lemma SwitchEvent(log: seq<Event>, e: Event)
    requires e.Switched?
    ensures FreshRead(log + [e], e.token).None? && LastSwitch(log + [e], e.token) == Some(e.answer)
  {
    Extended(log, e);
  }

  lemma SectionReads(log: seq<Event>, token: Token, group: string)
    ensures FreshRead(log + [Read(token, group, true)], token) == Some(group)
    ensures LastSwitch(log + [Read(token, group, true)], token) == LastSwitch(log, token)
    ensures forall idem :: Switches(log + [Read(token, group, true)], idem) == Switches(log, idem)
  {
    Extended(log, Read(token, group, true));
  }

  lemma EarlyKeeps(s: State, token: Token, sec: Section, o: Reply)
    requires Safe(s) && token in s.sections && s.sections[token] == sec
    requires sec.phase.Lookup? || sec.phase.Checking? || sec.phase.Asserting?
    ensures MoveOk(s, token, sec, Work(token, sec, o, s))
  {
    hide FreshRead, Seen, Switches, CacheOk, LogOk;
    assert SectionOk(s.rows, s.log, token, sec);
    var m := Work(token, sec, o, s);
    if m.event.Some? {
      SectionReads(s.log, token, m.event.value.group);
      RowsOkStays(s.rows, s.log, m.event.value);
    }
  }

  lemma ReserveKeeps(s: State, token: Token, sec: Section, o: Reply)
    requires Safe(s) && token in s.sections && s.sections[token] == sec && sec.phase.Beginning?
    ensures MoveOk(s, token, sec, Work(token, sec, o, s))
  {
    hide Seen, CacheOk, LogOk, SectionsOk, FreshRead, LastSwitch, Switches, ResolvedIn, Unclosed;
    assert SectionOk(s.rows, s.log, token, sec) by { SectionIsOk(s, token); }
    var m := Work(token, sec, o, s);
    if m.event.Some? {
      ReservedEvent(s.log, sec.job.idem, token);
      RowsOkStays(s.rows, s.log, m.event.value);
      assert Switches(s.log, sec.job.idem) <= 0;
      assert Unclosed(s.log, sec.job.idem) by { UnknownIsUnclosed(s.rows, s.log, sec.job.idem); }
    }
  }

  lemma UnknownIsUnclosed(rows: map<string, Row>, log: seq<Event>, idem: string)
    requires SwitchesOk(rows, log) && idem !in rows
    ensures Unclosed(log, idem)
  {
  }

  lemma SectionIsOk(s: State, token: Token)
    requires SectionsOk(s) && token in s.sections
    ensures SectionOk(s.rows, s.log, token, s.sections[token])
  {
  }

  lemma ReservedEvent(log: seq<Event>, idem: string, token: Token)
    ensures var l := log + [Reserved(idem, token)];
            && FreshRead(l, token) == FreshRead(log, token) && LastSwitch(l, token) == LastSwitch(log, token)
            && Switches(l, idem) == Switches(log, idem) && Unclosed(l, idem) == Unclosed(log, idem)
  {
    Extended(log, Reserved(idem, token));
    if Unclosed(log + [Reserved(idem, token)], idem) {
      forall e | e in log ensures !SectionCloses(e, idem) { assert e in log + [Reserved(idem, token)]; }
    }
  }

  lemma ReadKeeps(s: State, token: Token, sec: Section, o: Reply)
    requires Safe(s) && token in s.sections && s.sections[token] == sec && (sec.phase.Reading? || sec.phase.Fetching?)
    ensures MoveOk(s, token, sec, Work(token, sec, o, s))
  {
    hide FreshRead, LastSwitch, Seen, Switches, CacheOk, LogOk, ResolvedIn, Unclosed;
    assert SectionOk(s.rows, s.log, token, sec);
    var m := Work(token, sec, o, s);
    if m.event.Some? {
      SectionReads(s.log, token, m.event.value.group);
      RowsOkStays(s.rows, s.log, m.event.value);
    }
  }

  lemma SwitchKeeps(s: State, token: Token, sec: Section, o: Reply)
    requires Safe(s) && token in s.sections && s.sections[token] == sec
    requires sec.phase.Begun? || sec.phase.Saving? || sec.phase.Switching?
    ensures MoveOk(s, token, sec, Work(token, sec, o, s))
  {
    hide FreshRead, LastSwitch, Seen, Switches, CacheOk, LogOk, ResolvedIn;
    assert SectionOk(s.rows, s.log, token, sec);
    var m := Work(token, sec, o, s);
    if m.event.Some? {
      if m.event.value.Switched? {
        SwitchEvent(s.log, m.event.value);
        RowsOkStays(s.rows, s.log, m.event.value);
      } else {
        ClosingKeeps(s.rows, s.log, sec.job.idem, m.event.value);
      }
    }
  }

  /** Resolving one pending row, to applied only where its target was seen. */
  lemma ClosingKeeps(rows: map<string, Row>, log: seq<Event>, idem: string, e: Event)
    requires RowsOk(rows, log) && idem in rows && rows[idem].status.Pending?
    requires (e.Closed? && e.idem == idem && e.row == rows[idem].(status := e.row.status) && !e.row.status.Pending? && !e.row.status.Applied?)
          || (e.Completed? && e.idem == idem && Seen(log, rows[idem].token, rows[idem].toGroup))
    ensures var after := rows[idem := if e.Closed? then e.row else rows[idem].(status := Applied)];
            RowsOk(after, log + [e]) && RowsEvolve(rows, after, None) && RowsKeepTokens(rows, after)
  {
    var after := rows[idem := if e.Closed? then e.row else rows[idem].(status := Applied)];
    ResolvedStays(log, e, idem, after[idem].status);
    RowsOkStays(rows, log, e);
    hide Seen, ResolvedIn;
  }

  lemma ResolveKeeps(s: State, token: Token, sec: Section, o: Reply)
    requires Safe(s) && token in s.sections && s.sections[token] == sec && (sec.phase.Failing? || sec.phase.Completing?)
    ensures MoveOk(s, token, sec, Work(token, sec, o, s))
  {
    hide FreshRead, LastSwitch, Seen, Switches, CacheOk, LogOk, ResolvedIn;
    assert SectionOk(s.rows, s.log, token, sec);
    var m := Work(token, sec, o, s);
    if m.event.Some? {
      if sec.phase.Completing? { FreshIsSeen(s.log, token); }
      ClosingKeeps(s.rows, s.log, sec.job.idem, m.event.value);
    }
  }

  lemma AdvanceSafe(s: State, token: Token, o: Reply)
    requires Safe(s) && token in s.sections
    ensures Safe(Advanced(s, token, o))
  {
    var sec := s.sections[token];
    var t := Advanced(s, token, o);
    hide Work, SectionOk, RowsOk, CacheOk, LogOk, SwitchesOk, EventFits;
    if sec.phase.Leaving? {
      CacheStays(s, t, None);
      SafeAfter(s, t, Some(token), None);
    } else {
      WorkKeeps(s, token, sec, o);
      var m := Work(token, sec, o, s);
      EvolveKeepsTokens(s.rows, t.rows, Some(token));
      CacheStays(s, t, m.event);
      SafeAfter(s, t, Some(token), m.event);
    }
  }

  lemma WorkKeeps(s: State, token: Token, sec: Section, o: Reply)
    requires Safe(s) && token in s.sections && s.sections[token] == sec && !sec.phase.Leaving?
    ensures MoveOk(s, token, sec, Work(token, sec, o, s))
  {
    hide *;
    match sec.phase
    case Lookup => EarlyKeeps(s, token, sec, o);
    case Checking => EarlyKeeps(s, token, sec, o);
    case Asserting(_) => EarlyKeeps(s, token, sec, o);
    case Beginning(_) => ReserveKeeps(s, token, sec, o);
    case Begun(_) => SwitchKeeps(s, token, sec, o);
    case Saving(_) => SwitchKeeps(s, token, sec, o);
    case Switching => SwitchKeeps(s, token, sec, o);
    case Reading => ReadKeeps(s, token, sec, o);
    case Fetching => ReadKeeps(s, token, sec, o);
    case Failing => ResolveKeeps(s, token, sec, o);
    case Completing => ResolveKeeps(s, token, sec, o);
  }

  // -------------------------------------------------------------- all steps

  lemma BeginSafe(s: State, token: Token, job: Job)
    requires Safe(s) && Startable(s, token, job)
    ensures Safe(Step(s, Begin(token, job)))
  {
    hide FreshRead, Seen, Switches, LogOk, RowsOk, CacheOk;
    var t := Step(s, Begin(token, job));
    RowsOkStays(s.rows, s.log, Locked(token));
    CacheStays(s, t, Some(Locked(token)));
    SafeAfter(s, t, Some(token), Some(Locked(token)));
  }

  lemma FetchSafe(s: State, id: nat, token: Token)
    requires Safe(s) && id !in s.fetches && token in s.upstream
    ensures Safe(Step(s, Fetch(id, token)))
  {
    hide FreshRead, Seen, Switches, LogOk, SectionsOk, SwitchesOk;
    var t := Step(s, Fetch(id, token));
    var e := Read(token, s.upstream[token], false);
    RowsOkStays(s.rows, s.log, e);
    forall k, g ensures Seen(s.log, k, g) ==> Seen(t.log, k, g) { SeenStays(s.log, e, k, g); }
    SeenStays(s.log, e, token, s.upstream[token]);
    SafeAfter(s, t, None, Some(e));
  }

  lemma ListedIsOwned(s: State, idem: string)
    requires CacheOk(s) && s.reconciler.Some? && s.reconciler.value.listed.Some? && idem in s.reconciler.value.listed.value
    ensures Owns(s.rows, s.reconciler.value.token, idem) && Seen(s.log, s.reconciler.value.token, s.reconciler.value.group)
  {
    hide Seen;
  }

  lemma SettleSafe(s: State, idem: string)
    requires Safe(s)
    ensures Safe(Settled(s, idem))
  {
    hide FreshRead, Seen, Switches, LogOk, SectionsOk, SwitchesOk, RowsOk, CacheOk, RowsEvolve, RowsKeepTokens;
    var t := Settled(s, idem);
    if t != s {
      var r := s.reconciler.value;
      ListedIsOwned(s, idem);
      if r.group == s.rows[idem].toGroup {
        var e := Completed(idem, r.token, r.group, false);
        ClosingKeeps(s.rows, s.log, idem, e);
        CacheStays(s, t, Some(e));
        SafeAfter(s, t, None, Some(e));
      } else {
        var e := Closed(idem, r.token, s.rows[idem].(status := Failed), ByPass(r.group));
        ClosingKeeps(s.rows, s.log, idem, e);
        CacheStays(s, t, Some(e));
        SafeAfter(s, t, None, Some(e));
      }
    }
  }

  lemma StepSafe(s: State, a: Action)
    requires Safe(s)
    ensures Safe(Step(s, a))
  {
    hide Work, SectionOk, RowsOk, LogOk, SwitchesOk, Seen;
    match a
    case Begin(token, job) => if Startable(s, token, job) { BeginSafe(s, token, job); }
    case Advance(token, o) => if token in s.sections { AdvanceSafe(s, token, o); }
    case Fetch(id, token) => if id !in s.fetches && token in s.upstream { FetchSafe(s, id, token); }
    case ReconcileResolve(idem) => SettleSafe(s, idem);
    case _ =>
  }

  lemma {:induction false} RunSafe(s: State, actions: seq<Action>)
    requires Safe(s)
    ensures Safe(Run(s, actions))
    decreases |actions|
  {
    hide Safe, Step;
    if actions != [] {
      StepSafe(s, actions[0]);
      RunSafe(Step(s, actions[0]), actions[1..]);
    }
  }

  lemma StartSafe(upstream: map<Token, string>)
    ensures Safe(Start(upstream))
  {
  }

  // --------------------------------------------------------------- theorems

  /** A transition idempotency key causes at most one upstream switch call, over
      any mix of repeated calls, crashes, recoveries and reconcile passes. */
  lemma OneSwitchPerKey(upstream: map<Token, string>, actions: seq<Action>, idem: string)
    ensures Switches(Run(Start(upstream), actions).log, idem) <= 1
  {
    StartSafe(upstream);
    RunSafe(Start(upstream), actions);
    hide Run;
  }

  /** Each upstream key has at most one pending row. */
  lemma OnePendingPerKey(upstream: map<Token, string>, actions: seq<Action>, i: string, j: string)
    requires var rows := Run(Start(upstream), actions).rows;
             i in rows && j in rows && rows[i].token == rows[j].token && rows[i].status.Pending? && rows[j].status.Pending?
    ensures i == j
  {
    StartSafe(upstream);
    RunSafe(Start(upstream), actions);
    hide Run;
  }

  /** A row becomes applied only after some readback showed its target group. */
  lemma AppliedWasRead(upstream: map<Token, string>, actions: seq<Action>, idem: string) returns (n: nat)
    requires var s := Run(Start(upstream), actions);
             idem in s.rows && s.rows[idem].status.Applied?
    ensures var s := Run(Start(upstream), actions);
            && n < |s.log| && s.log[n].Read?
            && s.log[n].token == s.rows[idem].token && s.log[n].group == s.rows[idem].toGroup
  {
    StartSafe(upstream);
    RunSafe(Start(upstream), actions);
    var s := Run(Start(upstream), actions);
    hide Run;
    var e :| e in s.log && e.Read? && e.token == s.rows[idem].token && e.group == s.rows[idem].toGroup;
    n :| 0 <= n < |s.log| && s.log[n] == e;
  }

  /** No event ends the lock section or calls a switch from `n` on. */
  predicate Undisturbed(log: seq<Event>, n: nat, token: Token)
  {
    forall k | n <= k < |log| :: !((log[k].Locked? || log[k].Switched?) && log[k].token == token)
  }

  lemma {:induction false} FreshWitness(log: seq<Event>, token: Token) returns (n: nat)
    requires FreshRead(log, token).Some?
    ensures n < |log| && log[n] == Read(token, FreshRead(log, token).value, true) && Undisturbed(log, n, token)
  {
    var e := log[|log| - 1];
    n := |log| - 1;
    if !(e.Read? && e.inSection && e.token == token) { n := FreshWitness(log[..|log| - 1], token); }
  }

  /** A row completed by a request or a recovery rests on a readback in the same
      lock section, later than any switch call for that key. */
  lemma CompletionInSectionIsFresh(upstream: map<Token, string>, actions: seq<Action>, c: nat) returns (n: nat)
    requires var log := Run(Start(upstream), actions).log;
             c < |log| && log[c].Completed? && log[c].inSection
    ensures var log := Run(Start(upstream), actions).log;
            n < c && log[n] == Read(log[c].token, log[c].group, true) && Undisturbed(log[..c], n, log[c].token)
  {
    StartSafe(upstream);
    RunSafe(Start(upstream), actions);
    var log := Run(Start(upstream), actions).log;
    hide Run, Start;
    assert Justified(log[..c], log[c]);
    n := FreshWitness(log[..c], log[c].token);
  }

  /** The lock section of a key has not ended between two positions of the log. */
  predicate SameSection(log: seq<Event>, from: nat, to: nat, token: Token)
  {
    forall k | from < k < to && k < |log| :: log[k] != Locked(token)
  }

  /** Within its lock section the answer of a switch is the last one. */
  lemma {:induction false} SwitchRemembered(log: seq<Event>, n: nat, m: nat)
    requires LogOk(log) && n < m <= |log| && log[n].Switched? && SameSection(log, n, m, log[n].token)
    ensures LastSwitch(log[..m], log[n].token) == Some(log[n].answer)
    decreases m
  {
    assert log[..m][..m - 1] == log[..m - 1];
    if n < m - 1 {
      SwitchRemembered(log, n, m - 1);
      assert Justified(log[..m - 1], log[m - 1]);
    }
  }

  lemma {:induction false} LastSwitchWitness(log: seq<Event>, token: Token) returns (w: nat)
    requires LastSwitch(log, token).Some?
    ensures w < |log| && log[w].Switched? && log[w].token == token && log[w].answer == LastSwitch(log, token).value
    ensures SameSection(log, w, |log|, token)
  {
    var e := log[|log| - 1];
    w := |log| - 1;
    if !(e.Switched? && e.token == token) {
      w := LastSwitchWitness(log[..|log| - 1], token);
      forall k | w < k < |log| ensures log[k] != Locked(token) {
        assert k < |log| - 1 ==> log[..|log| - 1][k] == log[k];
      }
    }
  }

  /** A switch of unknown result leaves its row to be settled by readback: the row
      is still pending, or what resolved it is a reconcile pass, or a later lock
      section of the key. */
  lemma UnknownStaysPending(upstream: map<Token, string>, actions: seq<Action>, n: nat) returns (m: nat, k: nat)
    requires var log := Run(Start(upstream), actions).log;
             n < |log| && log[n].Switched? && log[n].answer.Unknown?
    ensures var s := Run(Start(upstream), actions);
            var idem, token := s.log[n].idem, s.log[n].token;
            && idem in s.rows && s.rows[idem].token == token
            && (s.rows[idem].status.Pending?
                || (m < |s.log| && Resolves(s.log[m], idem, s.rows[idem].status)
                    && ((s.log[m].Completed? && !s.log[m].inSection) || (s.log[m].Closed? && s.log[m].closer.ByPass?)
                        || (n < k < m && s.log[k] == Locked(s.log[m].token)))))
  {
    StartSafe(upstream);
    RunSafe(Start(upstream), actions);
    var s := Run(Start(upstream), actions);
    hide Run, Start;
    var idem, token := s.log[n].idem, s.log[n].token;
    assert s.log[n] in s.log;
    m, k := n, n;
    if !s.rows[idem].status.Pending? {
      var e :| e in s.log && Resolves(e, idem, s.rows[idem].status);
      m :| 0 <= m < |s.log| && s.log[m] == e;
      if SectionCloses(e, idem) {
        NotClosedBefore(s.log, n, m);
        assert e.token == token;
        k := NextSection(s.log, n, m);
      }
    }
  }

  /** No section resolves a row before the row's switch is called. */
  lemma NotClosedBefore(log: seq<Event>, n: nat, m: nat)
    requires LogOk(log) && n < |log| && log[n].Switched? && m < |log| && SectionCloses(log[m], log[n].idem)
    ensures n < m
  {
    assert Justified(log[..n], log[n]);
    if m < n { InPrefix(log, m, n); }
  }

  lemma InPrefix(log: seq<Event>, m: nat, n: nat)
    requires m < n <= |log|
    ensures log[m] in log[..n]
  {
    assert log[..n][m] == log[m];
  }

  lemma JustifiedAt(log: seq<Event>, m: nat)
    requires LogOk(log) && m < |log|
    ensures Justified(log[..m], log[m])
  {
  }

  /** After a switch of unknown result only a later lock section resolves its row. */
  lemma NextSection(log: seq<Event>, n: nat, m: nat) returns (k: nat)
    requires LogOk(log) && n < m < |log| && log[n].Switched? && log[n].answer.Unknown?
    requires SectionCloses(log[m], log[n].idem) && log[m].token == log[n].token
    ensures n < k < m && log[k] == Locked(log[m].token)
  {
    if SameSection(log, n, m, log[n].token) {
      SwitchRemembered(log, n, m);
      JustifiedAt(log, m);
    }
    k :| n < k < m && k < |log| && log[k] == Locked(log[n].token);
  }

  /** Why rows fail. A request fails its row without having called a switch, or
      when its call definitely failed, or when it succeeded and the last group
      read in the section since then is not the target; it simulates only dry
      runs, which call no switch. A recovery fails a row when it reads the old
      group, a reconcile pass when the cache shows another group than the target. */
  lemma FailedRowsAreExplained(upstream: map<Token, string>, actions: seq<Action>, c: nat) returns (w: nat)
    requires var log := Run(Start(upstream), actions).log;
             c < |log| && log[c].Closed?
    ensures var log := Run(Start(upstream), actions).log;
            var e := log[c];
            match e.closer
            case BySection(Transition(_, to, _, dryRun)) =>
              && (e.row.status.Failed? || (e.row.status.Simulated? && dryRun && Switches(log[..c], e.idem) == 0))
              && (Switches(log[..c], e.idem) == 0
                  || (w < c && log[w].Switched? && log[w].token == e.token && SameSection(log, w, c, e.token)
                      && (log[w].answer.Definite? || (log[w].answer.Good? && FreshRead(log[..c], e.token) != Some(e.row.toGroup)))))
            case BySection(Recovery(_)) =>
              e.row.status.Failed? && w < c && log[w] == Read(e.token, e.row.fromGroup, true) && Undisturbed(log[..c], w, e.token)
            case ByPass(group) =>
              e.row.status.Failed? && group != e.row.toGroup && w < c && log[w].Read? && log[w].token == e.token && log[w].group == group
  {
    StartSafe(upstream);
    RunSafe(Start(upstream), actions);
    var log := Run(Start(upstream), actions).log;
    hide Run, Start, Safe;
    w := WhyClosed(log, c);
  }

  lemma WhyClosed(log: seq<Event>, c: nat) returns (w: nat)
    requires LogOk(log) && c < |log| && log[c].Closed?
    ensures var e := log[c];
            match e.closer
            case BySection(Transition(_, to, _, dryRun)) =>
              && (e.row.status.Failed? || (e.row.status.Simulated? && dryRun && Switches(log[..c], e.idem) == 0))
              && (Switches(log[..c], e.idem) == 0
                  || (w < c && log[w].Switched? && log[w].token == e.token && SameSection(log, w, c, e.token)
                      && (log[w].answer.Definite? || (log[w].answer.Good? && FreshRead(log[..c], e.token) != Some(e.row.toGroup)))))
            case BySection(Recovery(_)) =>
              e.row.status.Failed? && w < c && log[w] == Read(e.token, e.row.fromGroup, true) && Undisturbed(log[..c], w, e.token)
            case ByPass(group) =>
              e.row.status.Failed? && group != e.row.toGroup && w < c && log[w].Read? && log[w].token == e.token && log[w].group == group
  {
    var e, before := log[c], log[..c];
    assert Justified(before, e);
    w := 0;
    match e.closer
    case BySection(Recovery(_)) => w := FreshWitness(before, e.token);
    case BySection(Transition(_, _, _, _)) =>
      if LastSwitch(before, e.token).Some? {
        w := LastSwitchWitness(before, e.token);
        assert log[w] == before[w];
        forall k | w < k < c ensures log[k] != Locked(e.token) { assert log[k] == before[k]; }
      }
    case ByPass(group) =>
      var x :| x in before && x.Read? && x.token == e.token && x.group == group;
      w :| 0 <= w < |before| && before[w] == x;
  }

  /** Every switch call is made by a request that is no dry run, for the group the
      request asks for, after the section has read the group the row records as
      the old one, and it is the section's only one. */
  lemma SwitchesAreRequested(upstream: map<Token, string>, actions: seq<Action>, w: nat) returns (n: nat)
    requires var log := Run(Start(upstream), actions).log;
             w < |log| && log[w].Switched?
    ensures var log := Run(Start(upstream), actions).log;
            var e := log[w];
            && e.job.Transition? && !e.job.dryRun && e.row.toGroup == e.job.to
            && n < w && log[n] == Read(e.token, e.row.fromGroup, true) && Undisturbed(log[..w], n, e.token)
  {
    StartSafe(upstream);
    RunSafe(Start(upstream), actions);
    var log := Run(Start(upstream), actions).log;
    hide Run, Start, Safe;
    assert Justified(log[..w], log[w]);
    n := FreshWitness(log[..w], log[w].token);
  }
}

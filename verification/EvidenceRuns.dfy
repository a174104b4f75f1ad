/** Evidence rounds interleaved with every other writer of a key's validation
    state. A round saves by comparing only transition, status and target; the
    other writers save unconditionally what they read earlier. */
module EvidenceRuns {
  import opened Options
  import opened ValidationEvidence

  datatype Pass = Pass(expected: Validation, next: Option<Validation>)

  datatype World = World(
    rows: seq<Item>,
    monitorMax: nat,
    trafficMax: nat,
    stored: Validation,
    pass: Option<Pass>,
    copies: map<nat, Validation>)

  datatype Action =
    | Record(item: Item)
    | EvidenceRead
    | EvidenceList(items: seq<Item>, rules: Rules, now: int)
    | EvidenceSave
    | Copy(p: nat)
    | Save(p: nat, status: Status)
    | StartTransition(p: nat, target: string)
    | Complete(p: nat, now: int, deadline: int)

  const FRESH := Validation(0, "", Unknown, None, None, None, 0, 0, 0, 0, 0, 0, [])
  const START := World([], 0, 0, FRESH, None, map[])

  function MaxOf(w: World, source: Source): nat
  {
    if source.Monitor? then w.monitorMax else w.trafficMax
  }

  /** Row numbers grow per source, and rows record honest times. */
  predicate Recordable(w: World, i: Item)
  {
    i.id > MaxOf(w, i.source) && TimesHonest(i)
  }

  /** CompareAndSaveGroupFailoverState. */
  predicate Unsuperseded(stored: Validation, expected: Validation)
  {
    stored.transition == expected.transition && stored.status == expected.status && stored.target == expected.target
  }

  /** The state TransitionGroupTier saves before it calls the upstream. */
  function Opening(w: World, target: string): Validation
  {
    Validation(w.stored.transition + 1, target, Transitioning, None, None, None,
               w.monitorMax, w.trafficMax, w.monitorMax, w.trafficMax, 0, 0, [])
  }

  ghost function Step(w: World, a: Action): World
  {
    match a
    case Record(i) =>
      if !Recordable(w, i) then w
      else if i.source.Monitor? then w.(rows := w.rows + [i], monitorMax := i.id)
      else w.(rows := w.rows + [i], trafficMax := i.id)
    case EvidenceRead => if w.pass.None? && Collecting(w.stored) then w.(pass := Some(Pass(w.stored, None))) else w
    case EvidenceList(items, rules, now) =>
      if w.pass.Some? && w.pass.value.next.None? && Listing(w.pass.value.expected, items) && (forall i | i in items :: i in w.rows)
      then w.(pass := Some(w.pass.value.(next := Some(Round(w.pass.value.expected, items, rules, now)))))
      else w
    case EvidenceSave =>
      if w.pass.Some? && w.pass.value.next.Some? && Unsuperseded(w.stored, w.pass.value.expected)
      then w.(stored := w.pass.value.next.value, pass := None)
      else w.(pass := None)
    case Copy(p) => w.(copies := w.copies[p := w.stored])
    case Save(p, status) => if p in w.copies then w.(stored := w.copies[p].(status := status)) else w
    case StartTransition(p, target) => w.(stored := Opening(w, target), copies := w.copies[p := Opening(w, target)])
    case Complete(p, now, deadline) =>
      if p in w.copies && w.copies[p].notBefore.None?
      then w.(stored := w.copies[p].(status := AwaitingEvidence, verifiedAt := Some(now),
                                     notBefore := Some(now + PROPAGATION_DELAY), deadline := Some(deadline)))
      else w
  }

  ghost function Run(w: World, actions: seq<Action>): World
    decreases |actions|
  {
    if actions == [] then w else Run(Step(w, actions[0]), actions[1..])
  }

  // ------------------------------------------------------------- invariant

  /** A version of the state: its counters are distinct recorded rows. */
  ghost predicate VersionOk(w: World, v: Validation)
  {
    && Sound(v) && v.monitorCursor <= w.monitorMax && v.trafficCursor <= w.trafficMax
    && (v.notBefore.None? ==> v.counted == [])
    && (forall c | c in v.counted :: c.item in w.rows)
  }

  ghost predicate RowsOk(w: World)
  {
    forall i | i in w.rows :: i.id <= MaxOf(w, i.source)
  }

  ghost predicate DistinctRows(rows: seq<Item>)
  {
    forall a, b | 0 <= a < b < |rows| :: !SameRow(rows[a], rows[b])
  }

  ghost predicate Inv(w: World)
  {
    && RowsOk(w) && DistinctRows(w.rows) && VersionOk(w, w.stored)
    && (w.pass.Some? ==> VersionOk(w, w.pass.value.expected) && (w.pass.value.next.Some? ==> VersionOk(w, w.pass.value.next.value)))
    && (forall p | p in w.copies :: VersionOk(w, w.copies[p]))
  }

  lemma VersionStays(w: World, t: World, v: Validation)
    requires VersionOk(w, v) && w.monitorMax <= t.monitorMax && w.trafficMax <= t.trafficMax
    requires forall i | i in w.rows :: i in t.rows
    ensures VersionOk(t, v)
  {
    hide Sound;
  }

  lemma RecordKeeps(w: World, i: Item)
    requires Inv(w)
    ensures Inv(Step(w, Record(i)))
  {
    hide Sound, TimesHonest;
    var t := Step(w, Record(i));
    if Recordable(w, i) {
      forall v | VersionOk(w, v) ensures VersionOk(t, v) { VersionStays(w, t, v); }
      forall a | 0 <= a < |w.rows| ensures !SameRow(w.rows[a], i) { assert w.rows[a] in w.rows; }
    }
  }

  lemma ListKeeps(w: World, items: seq<Item>, rules: Rules, now: int)
    requires Inv(w) && w.pass.Some? && Listing(w.pass.value.expected, items) && forall i | i in items :: i in w.rows
    ensures VersionOk(w, Round(w.pass.value.expected, items, rules, now))
  {
    var v := w.pass.value.expected;
    RoundSound(v, items, rules, now);
    RoundBounded(w, v, items, rules, now);
  }

  lemma RoundBounded(w: World, v: Validation, items: seq<Item>, rules: Rules, now: int)
    requires RowsOk(w) && VersionOk(w, v) && forall i | i in items :: i in w.rows
    ensures var x := Round(v, items, rules, now);
            && x.monitorCursor <= w.monitorMax && x.trafficCursor <= w.trafficMax
            && (x.notBefore.None? ==> x.counted == []) && (forall c | c in x.counted :: c.item in w.rows)
  {
    ConsumeBounded(w, v, items, rules, now);
  }

  lemma {:induction false} ConsumeBounded(w: World, v: Validation, items: seq<Item>, rules: Rules, now: int)
    requires RowsOk(w) && VersionOk(w, v) && forall i | i in items :: i in w.rows
    ensures var x := ConsumeAll(v, items, rules, now);
            && x.monitorCursor <= w.monitorMax && x.trafficCursor <= w.trafficMax && x.notBefore == v.notBefore
            && (x.notBefore.None? ==> x.counted == []) && (forall c | c in x.counted :: c.item in w.rows)
    decreases |items|
  {
    hide Sound, OccurrenceAt, Classify;
    if items != [] {
      ConsumeBounded(w, v, items[..|items| - 1], rules, now);
      assert items[|items| - 1] in items;
    }
  }

  lemma OpeningOk(w: World, target: string)
    requires Inv(w)
    ensures VersionOk(w, Opening(w, target))
  {
  }

  lemma StatusKeepsVersion(w: World, v: Validation, status: Status)
    requires VersionOk(w, v)
    ensures VersionOk(w, v.(status := status))
  {
    var x := v.(status := status);
    forall a | 0 <= a < |x.counted| ensures Countable(x, x.counted[a]) { assert Countable(v, v.counted[a]); }
  }

  lemma StepKeeps(w: World, a: Action)
    requires Inv(w)
    ensures Inv(Step(w, a))
  {
    hide Sound, Listing, Round, Collecting;
    match a
    case Record(i) => RecordKeeps(w, i);
    case EvidenceList(items, rules, now) =>
      if w.pass.Some? && Listing(w.pass.value.expected, items) && (forall i | i in items :: i in w.rows) {
        ListKeeps(w, items, rules, now);
        SameRowsKeep(w, Step(w, a));
      }
    case Save(p, status) => if p in w.copies { StatusKeepsVersion(w, w.copies[p], status); SameRowsKeep(w, Step(w, a)); }
    case StartTransition(p, target) => OpeningOk(w, target); SameRowsKeep(w, Step(w, a));
    case Complete(p, now, deadline) =>
      if p in w.copies && w.copies[p].notBefore.None? { CompletedOk(w, w.copies[p], now, deadline); SameRowsKeep(w, Step(w, a)); }
    case _ => SameRowsKeep(w, Step(w, a));
  }

  lemma SameRowsKeep(w: World, t: World)
    requires t.rows == w.rows && t.monitorMax == w.monitorMax && t.trafficMax == w.trafficMax
    ensures forall v :: VersionOk(t, v) <==> VersionOk(w, v)
    ensures RowsOk(w) ==> RowsOk(t)
  {
    hide Sound;
  }

  lemma CompletedOk(w: World, v: Validation, now: int, deadline: int)
    requires VersionOk(w, v) && v.notBefore.None?
    ensures VersionOk(w, v.(status := AwaitingEvidence, verifiedAt := Some(now), notBefore := Some(now + PROPAGATION_DELAY), deadline := Some(deadline)))
  {
  }

  lemma {:induction false} RunKeeps(w: World, actions: seq<Action>)
    requires Inv(w)
    ensures Inv(Run(w, actions))
    decreases |actions|
  {
    hide Inv, Step;
    if actions != [] {
      StepKeeps(w, actions[0]);
      RunKeeps(Step(w, actions[0]), actions[1..]);
    }
  }

  lemma StartInv()
    ensures Inv(START)
  {
  }

  // --------------------------------------------------------------- theorems

  /** Over every interleaving of rounds and other writers, the stored counters
      are the numbers of distinct recorded rows that confirm and that fail, by
      their columns: no row is counted twice for a transition. Each lies beyond
      the watermark, names no other transition or target, was seen within the
      freshness limit of the round that counted it, and belongs to a request that
      began at least five seconds after the switch was verified. */
  lemma CountedAtMostOnce(actions: seq<Action>)
    ensures var w := Run(START, actions);
            var v := w.stored;
            && v.successes == |Confirming(v.counted)| && v.failures == |Refuting(v.counted)|
            && (forall a, b | 0 <= a < b < |v.counted| ::
                  v.counted[a].item.source != v.counted[b].item.source || v.counted[a].item.id != v.counted[b].item.id)
            && (forall c | c in v.counted ::
                  var i := c.item;
                  && i in w.rows && i.id > (if i.source.Monitor? then v.monitorMark else v.trafficMark)
                  && i.transition in {None, Some(v.transition)} && i.target in {None, Some(v.target)}
                  && i.observedAt <= c.now <= i.observedAt + c.freshness
                  && v.verifiedAt.Some? && v.verifiedAt.value + 5000000000 <= i.began <= c.now)
  {
    StartInv();
    RunKeeps(START, actions);
    var w := Run(START, actions);
    hide Run;
    var v := w.stored;
    CountersAreCardinals(v.counted);
    forall a, b | 0 <= a < b < |v.counted|
      ensures v.counted[a].item.source != v.counted[b].item.source || v.counted[a].item.id != v.counted[b].item.id
    {
      assert !SameRow(v.counted[a].item, v.counted[b].item);
    }
    forall c | c in v.counted ensures Countable(v, c) {
      var a :| 0 <= a < |v.counted| && v.counted[a] == c;
    }
  }

  predicate EvidenceStep(a: Action)
  {
    a.EvidenceRead? || a.EvidenceList? || a.EvidenceSave? || a.Record?
  }

  /** Rounds alone never touch a key whose switch is not verified or which gathers
      no evidence: one that was confirmed healthy or failed stays so. */
  lemma {:induction false} RoundsLeaveSettledKeys(w: World, actions: seq<Action>)
    requires w.pass.None? && forall a | a in actions :: EvidenceStep(a)
    requires w.stored.verifiedAt.None? || w.stored.notBefore.None? || w.stored.status !in {AwaitingEvidence, Probing, Status.Uncertain}
    ensures Run(w, actions).stored == w.stored
    decreases |actions|
  {
    if actions != [] {
      assert EvidenceStep(actions[0]);
      assert Step(w, actions[0]).stored == w.stored && Step(w, actions[0]).pass.None?;
      hide Step;
      RoundsLeaveSettledKeys(Step(w, actions[0]), actions[1..]);
    }
  }

  /** Later transition, or the same one with no cursor or counter moved back. */
  predicate Forward(v: Validation, x: Validation)
  {
    || v.transition < x.transition
    || (v.transition == x.transition && v.monitorCursor <= x.monitorCursor && v.trafficCursor <= x.trafficCursor
        && v.successes <= x.successes && v.failures <= x.failures)
  }

  /** A writer saves a copy that evidence or a transition has overtaken: it can
      tell by comparing its copy with what is stored. */
  predicate StaleSave(w: World, a: Action)
  {
    && (a.Save? || a.Complete?) && a.p in w.copies && (a.Complete? ==> w.copies[a.p].notBefore.None?)
    && !Forward(w.stored, w.copies[a.p])
  }

  ghost predicate NoStaleSaves(w: World, actions: seq<Action>)
    decreases |actions|
  {
    actions == [] || (!StaleSave(w, actions[0]) && NoStaleSaves(Step(w, actions[0]), actions[1..]))
  }

  /** No step of the run moves a cursor or counter of a transition back. */
  ghost predicate AlwaysForward(w: World, actions: seq<Action>)
    decreases |actions|
  {
    actions == [] || (Forward(w.stored, Step(w, actions[0]).stored) && AlwaysForward(Step(w, actions[0]), actions[1..]))
  }

  /** Copies and the base of a pass are past states: none is ahead of the stored one. */
  ghost predicate Behind(w: World)
  {
    && (forall p | p in w.copies :: Forward(w.copies[p], w.stored))
    && (w.pass.Some? ==>
          && Forward(w.pass.value.expected, w.stored)
          && (w.pass.value.expected.transition == w.stored.transition ==> Forward(w.stored, w.pass.value.expected))
          && (w.pass.value.next.Some? ==> Derived(w.pass.value.expected, w.pass.value.next.value)))
  }

  lemma ForwardTransitive(u: Validation, v: Validation, x: Validation)
    requires Forward(u, v) && Forward(v, x)
    ensures Forward(u, x)
  {
  }

  lemma ForwardThrough(w: World, x: Validation)
    requires Behind(w) && Forward(w.stored, x)
    ensures forall p | p in w.copies :: Forward(w.copies[p], x)
    ensures w.pass.Some? ==> Forward(w.pass.value.expected, x)
  {
    hide Forward;
    forall p | p in w.copies ensures Forward(w.copies[p], x) { ForwardTransitive(w.copies[p], w.stored, x); }
    if w.pass.Some? { ForwardTransitive(w.pass.value.expected, w.stored, x); }
  }

  lemma StepForward(w: World, a: Action)
    requires Inv(w) && Behind(w) && !StaleSave(w, a)
    ensures Forward(w.stored, Step(w, a).stored) && Behind(Step(w, a))
  {
    hide Sound, Listing, Round, Collecting, TimesHonest;
    if a.EvidenceList? && w.pass.Some? && Listing(w.pass.value.expected, a.items) {
      RoundSound(w.pass.value.expected, a.items, a.rules, a.now);
    }
    var t := Step(w, a);
    assert Forward(w.stored, t.stored);
    ForwardThrough(w, t.stored);
  }

  /** The two sides for a single save. */
  lemma StaleSaveMovesBack(w: World, p: nat, status: Status)
    requires p in w.copies
    ensures Forward(w.stored, Step(w, Save(p, status)).stored) <==> !StaleSave(w, Save(p, status))
  {
  }

  lemma StaleStepMovesBack(w: World, a: Action)
    requires StaleSave(w, a)
    ensures !Forward(w.stored, Step(w, a).stored)
  {
  }

  /** Over a whole run, cursors and counters never move back within a transition
      exactly when no writer saves a copy that has been overtaken. */
  lemma {:induction false} CursorsMoveForward(w: World, actions: seq<Action>)
    requires Inv(w) && Behind(w)
    ensures AlwaysForward(w, actions) <==> NoStaleSaves(w, actions)
    decreases |actions|
  {
    hide Inv, Step, StaleSave, Behind, Forward;
    if actions != [] {
      if StaleSave(w, actions[0]) {
        StaleStepMovesBack(w, actions[0]);
      } else {
        StepKeeps(w, actions[0]);
        StepForward(w, actions[0]);
        CursorsMoveForward(Step(w, actions[0]), actions[1..]);
      }
    }
  }

  /** In particular for every run from the start. */
  lemma CursorsMoveForwardFromStart(actions: seq<Action>)
    ensures AlwaysForward(START, actions) <==> NoStaleSaves(START, actions)
  {
    StartInv();
    CursorsMoveForward(START, actions);
  }

  const ROW := Item(Monitor, 1, FailedRow, OtherClass, 100 * SECOND, Some(100 * SECOND), MonitorRequestStart, None, None, 100 * SECOND)
  const RULES := Rules(3, 600 * SECOND)
  const SWITCHED := Validation(1, "backup", AwaitingEvidence, Some(SECOND), Some(SECOND + PROPAGATION_DELAY), Some(700 * SECOND), 0, 0, 0, 0, 0, 0, [])
  const COUNTED := SWITCHED.(monitorCursor := 1, failures := 1, counted := [Credit(ROW, 101 * SECOND, 600 * SECOND)])
  const OVERTAKEN := World([ROW], 1, 0, COUNTED, None, map[0 := Opening(START, "backup"), 1 := SWITCHED])

  lemma OneFailure()
    ensures Round(SWITCHED, [ROW], RULES, 101 * SECOND) == COUNTED && Listing(SWITCHED, [ROW])
  {
    assert [ROW][..0] == [];
    assert ConsumeAll(SWITCHED, [], RULES, 101 * SECOND) == SWITCHED;
    assert Consume(SWITCHED, ROW, RULES, 101 * SECOND) == COUNTED;
  }

  /** And it happens: a reconcile pass copies the state, a round counts a failed
      check, and the pass saves its copy, undoing both cursor and counter. */
  lemma StaleSaveIsReachable()
    ensures var opening := [StartTransition(0, "backup"), Complete(0, SECOND, 700 * SECOND), Record(ROW), Copy(1), EvidenceRead];
            var round := [EvidenceList([ROW], RULES, 101 * SECOND), EvidenceSave];
            Run(START, opening + round) == OVERTAKEN
    ensures var after := Step(OVERTAKEN, Save(1, Uncertain)).stored;
            && COUNTED.monitorCursor == 1 && COUNTED.failures == 1
            && after.monitorCursor == 0 && after.failures == 0 && after.transition == COUNTED.transition
  {
    var w5 := World([ROW], 1, 0, SWITCHED, Some(Pass(SWITCHED, None)), map[0 := Opening(START, "backup"), 1 := SWITCHED]);
    FirstFive(w5);
    OneFailure();
    assert ROW in [ROW];
    var w6 := Step(w5, EvidenceList([ROW], RULES, 101 * SECOND));
    assert w6 == w5.(pass := Some(Pass(SWITCHED, Some(COUNTED))));
    assert Step(w6, EvidenceSave) == OVERTAKEN;
    var actions := [StartTransition(0, "backup"), Complete(0, SECOND, 700 * SECOND), Record(ROW), Copy(1), EvidenceRead]
      + [EvidenceList([ROW], RULES, 101 * SECOND), EvidenceSave];
    hide Step, Round, Listing;
    RunSeven(START, actions);
  }

  lemma FirstFive(w5: World)
    requires w5 == World([ROW], 1, 0, SWITCHED, Some(Pass(SWITCHED, None)), map[0 := Opening(START, "backup"), 1 := SWITCHED])
    ensures Step(Step(Step(Step(Step(START, StartTransition(0, "backup")), Complete(0, SECOND, 700 * SECOND)), Record(ROW)), Copy(1)), EvidenceRead) == w5
  {
    hide Round, Listing;
    var w1 := Step(START, StartTransition(0, "backup"));
    var w2 := Step(w1, Complete(0, SECOND, 700 * SECOND));
    assert w2.stored == SWITCHED;
    var w3 := Step(w2, Record(ROW));
    assert w3.rows == [ROW];
  }

  lemma RunSeven(w: World, a: seq<Action>)
    requires |a| == 7
    ensures Run(w, a) == Step(Step(Step(Step(Step(Step(Step(w, a[0]), a[1]), a[2]), a[3]), a[4]), a[5]), a[6])
  {
    hide Step;
    var w1 := Step(w, a[0]);
    var w2 := Step(w1, a[1]);
    var w3 := Step(w2, a[2]);
    var w4 := Step(w3, a[3]);
    var w5 := Step(w4, a[4]);
    var w6 := Step(w5, a[5]);
    assert Run(w, a) == Run(w1, a[1..]);
    assert a[1..][1..] == a[2..] && Run(w1, a[1..]) == Run(w2, a[2..]);
    assert a[2..][1..] == a[3..] && Run(w2, a[2..]) == Run(w3, a[3..]);
    assert a[3..][1..] == a[4..] && Run(w3, a[3..]) == Run(w4, a[4..]);
    assert a[4..][1..] == a[5..] && Run(w4, a[4..]) == Run(w5, a[5..]);
    assert a[5..][1..] == a[6..] && Run(w5, a[5..]) == Run(w6, a[6..]);
    assert a[6..][1..] == [];
  }
}

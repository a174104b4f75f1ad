/** Evidence gathered after a group switch: which telemetry rows count for a
    transition, the loop that counts them, and what interleaved saves of the
    validation state do to counts and cursors. Times are in nanoseconds. */
module ValidationEvidence {
  import opened Options

  const SECOND := 1000000000
  const PROPAGATION_DELAY := 5 * SECOND
  const MONITOR_REQUEST_TIMEOUT := 45 * SECOND
  const MINIMUM_SUCCESSES := 1
  const ZERO_TIME := 0

  datatype Status =
    | Unknown | Stable | Transitioning | AwaitingEvidence | Probing
    | ConfirmedHealthy | ConfirmedFailed | Uncertain | Exhausted

  datatype Source = Monitor | Traffic

  datatype TimeBasis = MonitorRequestStart | RequestStart | Completion | OtherBasis

  datatype Verdict = Success | Failure

  /** The status column of a row, as far as classification tells values apart. */
  datatype RowStatus = Operational | FailedRow | SuccessRow | ErrorRow | OtherRow

  datatype ErrorClass = Infrastructure | Capacity | OtherClass

  /** A telemetry row. `began` is when the request really started; the other
      times are what the row records about it. Tags are absent unless known. */
  datatype Item = Item(
    source: Source,
    id: nat,
    status: RowStatus,
    errorClass: ErrorClass,
    observedAt: int,
    startedAt: Option<int>,
    basis: TimeBasis,
    transition: Option<nat>,
    target: Option<string>,
    began: int)

  /** What the recorded times promise about the request. */
  predicate TimesHonest(i: Item)
  {
    if i.startedAt.Some? && i.startedAt.value != ZERO_TIME then i.began == i.startedAt.value
    else match i.basis
      case MonitorRequestStart => i.began == i.observedAt
      case RequestStart => i.began == i.observedAt
      case Completion => i.source.Monitor? ==> i.observedAt - MONITOR_REQUEST_TIMEOUT <= i.began <= i.observedAt
      case OtherBasis => true
  }

  /** A row that counted, with the time and the freshness limit of its round. */
  datatype Credit = Credit(item: Item, now: int, freshness: int)

  /** The validation part of a key's failover state. `counted` is history: the
      rows that its two counters stand for. */
  datatype Validation = Validation(
    transition: nat,
    target: string,
    status: Status,
    verifiedAt: Option<int>,
    notBefore: Option<int>,
    deadline: Option<int>,
    monitorMark: nat,
    trafficMark: nat,
    monitorCursor: nat,
    trafficCursor: nat,
    successes: nat,
    failures: nat,
    counted: seq<Credit>)

  datatype Rules = Rules(failures: int, freshness: int)

  // ------------------------------------------------------- the decisions

  /** evidenceMatchesValidation. */
  predicate Matches(i: Item, v: Validation)
  {
    && (i.transition.Some? ==> i.transition.value == v.transition)
    && (i.target.Some? ==> i.target.value == v.target)
  }

  /** evidenceOccurrenceAt. */
  function OccurrenceAt(i: Item, v: Validation): Option<int>
  {
    if i.startedAt.Some? && i.startedAt.value != ZERO_TIME then i.startedAt
    else match i.basis
      case MonitorRequestStart => if i.observedAt == ZERO_TIME then None else Some(i.observedAt)
      case RequestStart => if i.observedAt == ZERO_TIME then None else Some(i.observedAt)
      case Completion =>
        if !i.source.Monitor? || v.verifiedAt.None? || i.observedAt == ZERO_TIME then None
        else if i.observedAt < v.verifiedAt.value + (PROPAGATION_DELAY + MONITOR_REQUEST_TIMEOUT) then None
        else Some(i.observedAt)
      case OtherBasis => None
  }

  /** classifyPostSwitchEvidence. */
  function Classify(i: Item): Option<Verdict>
  {
    match i.source
    case Monitor => if i.status.Operational? then Some(Success) else if i.status.FailedRow? || i.status.ErrorRow? then Some(Failure) else None
    case Traffic =>
      if i.status.SuccessRow? then Some(Success)
      else if i.status.ErrorRow? && (i.errorClass.Infrastructure? || i.errorClass.Capacity?) then Some(Failure)
      else None
  }

  /** The verdict a row contributes, if it counts at all. */
  function VerdictOf(i: Item, v: Validation, rules: Rules, now: int): Option<Verdict>
  {
    if !Matches(i, v) || i.observedAt == ZERO_TIME || i.observedAt > now || now - i.observedAt > rules.freshness then None
    else
      var at := OccurrenceAt(i, v);
      if at.None? || v.notBefore.None? || at.value < v.notBefore.value || at.value > now then None
      else Classify(i)
  }

  /** The bookkeeping of one verdict, shared with the controller's cycles. */
  datatype Tally = Tally(status: Status, successes: nat, failures: nat)

  function Count(t: Tally, verdict: Verdict, threshold: int): Tally
  {
    match verdict
    case Success =>
      Tally(if t.successes + 1 >= MINIMUM_SUCCESSES then ConfirmedHealthy else t.status, t.successes + 1, t.failures)
    case Failure =>
      Tally(if t.failures + 1 >= threshold then ConfirmedFailed else t.status, t.successes, t.failures + 1)
  }

  predicate Collecting(v: Validation)
  {
    && v.verifiedAt.Some? && v.notBefore.Some?
    && (v.status.AwaitingEvidence? || v.status.Probing? || v.status.Uncertain?)
  }

  // ---------------------------------------------------------- specification

  function Max(a: nat, b: nat): nat
  {
    if a >= b then a else b
  }

  /** The cursor moves past the row. */
  function Passing(v: Validation, i: Item): Validation
  {
    if i.source.Monitor? then v.(monitorCursor := Max(v.monitorCursor, i.id)) else v.(trafficCursor := Max(v.trafficCursor, i.id))
  }

  function Consume(v: Validation, i: Item, rules: Rules, now: int): Validation
  {
    var w := Passing(v, i);
    var verdict := VerdictOf(i, w, rules, now);
    if verdict.None? then w
    else
      var t := Count(Tally(w.status, w.successes, w.failures), verdict.value, rules.failures);
      w.(status := t.status, successes := t.successes, failures := t.failures, counted := w.counted + [Credit(i, now, rules.freshness)])
  }

  function ConsumeAll(v: Validation, items: seq<Item>, rules: Rules, now: int): Validation
  {
    if items == [] then v
    else Consume(ConsumeAll(v, items[..|items| - 1], rules, now), items[|items| - 1], rules, now)
  }

  function TimedOut(v: Validation, now: int): Validation
  {
    if !v.status.ConfirmedHealthy? && !v.status.ConfirmedFailed? && v.deadline.Some? && now >= v.deadline.value
    then v.(status := Uncertain)
    else v
  }

  /** One round of ProcessFailoverEvidence on the rows listed for a key. */
  function Round(v: Validation, items: seq<Item>, rules: Rules, now: int): Validation
  {
    TimedOut(ConsumeAll(v, items, rules, now), now)
  }

  // ------------------------------------------------------- implementation

  /** The loop of ProcessFailoverEvidence over the listed rows. */
  method ProcessEvidence(expected: Validation, items: seq<Item>, rules: Rules, now: int) returns (state: Validation, changed: bool)
    requires Collecting(expected)
    ensures state == Round(expected, items, rules, now)
    ensures changed <==> state != expected || (!state.status.ConfirmedHealthy? && !state.status.ConfirmedFailed?
                                               && state.deadline.Some? && now >= state.deadline.value)
  {
    hide VerdictOf, Collecting;
    state, changed := expected, false;
    for n := 0 to |items|
      invariant state == ConsumeAll(expected, items[..n], rules, now)
      invariant changed <==> state != expected
      invariant expected.monitorCursor <= state.monitorCursor && expected.trafficCursor <= state.trafficCursor
      invariant |expected.counted| <= |state.counted| && state.deadline == expected.deadline
    {
      var item := items[n];
      assert items[..n + 1][..n] == items[..n];
      if item.source.Monitor? && item.id > state.monitorCursor {
        state := state.(monitorCursor := item.id);
        changed := true;
      }
      if item.source.Traffic? && item.id > state.trafficCursor {
        state := state.(trafficCursor := item.id);
        changed := true;
      }
      var verdict := VerdictOf(item, state, rules, now);
      if verdict.Some? {
        state := state.(counted := state.counted + [Credit(item, now, rules.freshness)]);
        changed := true;
        if verdict.value.Success? {
          state := state.(successes := state.successes + 1);
          if state.successes >= MINIMUM_SUCCESSES {
            state := state.(status := ConfirmedHealthy);
          }
        } else {
          state := state.(failures := state.failures + 1);
          if state.failures >= rules.failures {
            state := state.(status := ConfirmedFailed);
          }
        }
      }
    }
    assert items[..|items|] == items;
    if !state.status.ConfirmedHealthy? && !state.status.ConfirmedFailed? && state.deadline.Some? && now >= state.deadline.value {
      state := state.(status := Uncertain);
      changed := true;
    }
  }

  // ------------------------------------------------------- what a state means

  predicate SameRow(a: Item, b: Item)
  {
    a.source == b.source && a.id == b.id
  }

  function Cursor(v: Validation, source: Source): nat
  {
    if source.Monitor? then v.monitorCursor else v.trafficCursor
  }

  function Mark(v: Validation, source: Source): nat
  {
    if source.Monitor? then v.monitorMark else v.trafficMark
  }

  predicate Good(i: Item)
  {
    Classify(i) == Some(Success)
  }

  predicate Bad(i: Item)
  {
    Classify(i) == Some(Failure)
  }

  function SuccessCount(credits: seq<Credit>): nat
  {
    if credits == [] then 0
    else SuccessCount(credits[..|credits| - 1]) + if Good(credits[|credits| - 1].item) then 1 else 0
  }

  function FailureCount(credits: seq<Credit>): nat
  {
    if credits == [] then 0
    else FailureCount(credits[..|credits| - 1]) + if Bad(credits[|credits| - 1].item) then 1 else 0
  }

  /** The row may stand behind a counter: it lies between watermark and cursor,
      carries no other transition or target, was seen within the freshness limit
      of its round, and its request really began after the boundary. */
  predicate Countable(v: Validation, c: Credit)
  {
    var i := c.item;
    && Mark(v, i.source) < i.id <= Cursor(v, i.source)
    && (i.transition.Some? ==> i.transition.value == v.transition) && (i.target.Some? ==> i.target.value == v.target)
    && i.observedAt <= c.now <= i.observedAt + c.freshness
    && v.notBefore.Some? && v.notBefore.value <= i.began <= c.now
    && (Good(i) || Bad(i))
  }

  /** The counters are exactly distinct countable rows. */
  ghost predicate Sound(v: Validation)
  {
    && v.monitorMark <= v.monitorCursor && v.trafficMark <= v.trafficCursor
    && (forall a, b | 0 <= a < b < |v.counted| :: !SameRow(v.counted[a].item, v.counted[b].item))
    && (forall a | 0 <= a < |v.counted| :: Countable(v, v.counted[a]))
    && v.successes == SuccessCount(v.counted) && v.failures == FailureCount(v.counted)
    && (v.notBefore.Some? ==> v.verifiedAt.Some? && v.notBefore.value == v.verifiedAt.value + PROPAGATION_DELAY)
  }

  /** What the store lists for a state: honest rows beyond its cursors, each once. */
  ghost predicate Listing(v: Validation, items: seq<Item>)
  {
    && (forall a | 0 <= a < |items| :: items[a].id > Cursor(v, items[a].source) && TimesHonest(items[a]))
    && (forall a, b | 0 <= a < b < |items| :: !SameRow(items[a], items[b]))
  }

  /** A row that counts began at or after the boundary; for rows stamped at
      completion this is the 5 s delay plus the 45 s bound on a request. */
  lemma CountedBeganAfterBoundary(i: Item, v: Validation, rules: Rules, now: int)
    requires VerdictOf(i, v, rules, now).Some? && TimesHonest(i)
    requires v.notBefore.Some? ==> v.verifiedAt.Some? && v.notBefore.value == v.verifiedAt.value + PROPAGATION_DELAY
    ensures v.notBefore.Some? && v.notBefore.value <= i.began <= now && Classify(i) == VerdictOf(i, v, rules, now)
    ensures i.began >= v.verifiedAt.value + 5000000000
  {
  }

  /** The boundary is needed: a completion stamp before it may belong to a
      request that began before the switch was verified. */
  lemma BoundaryIsTight(v: Validation, at: int)
    requires v.verifiedAt.Some? && at < v.verifiedAt.value + 50000000000
    ensures var i := Item(Monitor, 1, Operational, OtherClass, at, None, Completion, None, None, at - 45000000000);
            TimesHonest(i) && i.began < v.verifiedAt.value + 5000000000 && OccurrenceAt(i, v).None?
  {
  }

  lemma CountsAppend(credits: seq<Credit>, c: Credit)
    ensures SuccessCount(credits + [c]) == SuccessCount(credits) + if Good(c.item) then 1 else 0
    ensures FailureCount(credits + [c]) == FailureCount(credits) + if Bad(c.item) then 1 else 0
  {
    assert (credits + [c])[..|credits|] == credits;
  }

  /** The state after some of a listing: sound, and all counted rows come from
      before the listing or from the part already consumed. */
  ghost predicate Consumed(v: Validation, w: Validation, items: seq<Item>)
  {
    && Sound(w) && Derived(v, w)
    && (forall a | 0 <= a < |w.counted| :: BelowCursor(v, w.counted[a].item) || exists k :: 0 <= k < |items| && items[k] == w.counted[a].item)
  }

  predicate BelowCursor(v: Validation, i: Item)
  {
    i.id <= Cursor(v, i.source)
  }

  /** Consuming rows moves cursors forward only, and keeps the transition. */
  predicate Derived(v: Validation, w: Validation)
  {
    && w.transition == v.transition && w.target == v.target && w.verifiedAt == v.verifiedAt && w.notBefore == v.notBefore
    && w.monitorMark == v.monitorMark && w.trafficMark == v.trafficMark
    && v.monitorCursor <= w.monitorCursor && v.trafficCursor <= w.trafficCursor
    && v.successes <= w.successes && v.failures <= w.failures
  }

  lemma ConsumeStep(w: Validation, i: Item, rules: Rules, now: int)
    requires Sound(w) && TimesHonest(i) && i.id > Mark(w, i.source)
    requires forall a | 0 <= a < |w.counted| :: !SameRow(w.counted[a].item, i)
    ensures var x := Consume(w, i, rules, now);
            Sound(x) && Derived(w, x) && (x.counted == w.counted || x.counted == w.counted + [Credit(i, now, rules.freshness)])
  {
    var c := Passing(w, i);
    PassingSound(w, i);
    if VerdictOf(i, c, rules, now).Some? {
      CountedBeganAfterBoundary(i, c, rules, now);
      CountedSound(c, Credit(i, now, rules.freshness), Consume(w, i, rules, now));
    }
    hide VerdictOf, Sound;
  }

  lemma PassingSound(w: Validation, i: Item)
    requires Sound(w)
    ensures Sound(Passing(w, i)) && Derived(w, Passing(w, i)) && i.id <= Cursor(Passing(w, i), i.source)
    ensures Mark(Passing(w, i), i.source) == Mark(w, i.source) && Passing(w, i).counted == w.counted
  {
    hide SuccessCount, FailureCount, SameRow, Classify;
    var x := Passing(w, i);
    forall a | 0 <= a < |x.counted| ensures Countable(x, x.counted[a]) { assert Countable(w, w.counted[a]); }
  }

  lemma CountedSound(v: Validation, c: Credit, x: Validation)
    requires Sound(v) && Countable(v, c) && forall a | 0 <= a < |v.counted| :: !SameRow(v.counted[a].item, c.item)
    requires x == v.(status := x.status, successes := x.successes, failures := x.failures, counted := v.counted + [c])
    requires x.successes == v.successes + if Good(c.item) then 1 else 0
    requires x.failures == v.failures + if Bad(c.item) then 1 else 0
    ensures Sound(x)
  {
    hide Good, Bad, SuccessCount, FailureCount, SameRow;
    CountsAppend(v.counted, c);
    forall a | 0 <= a < |x.counted| ensures Countable(x, x.counted[a]) {
      if a < |v.counted| { assert Countable(v, v.counted[a]); }
    }
  }

  /** A row of the listing not consumed yet is not among the counted ones. */
  lemma NotYetCounted(v: Validation, w: Validation, items: seq<Item>)
    requires items != [] && Listing(v, items) && Consumed(v, w, items[..|items| - 1])
    ensures forall a | 0 <= a < |w.counted| :: !SameRow(w.counted[a].item, items[|items| - 1])
  {
    hide Sound, TimesHonest;
    forall a | 0 <= a < |w.counted| ensures !SameRow(w.counted[a].item, items[|items| - 1]) {
      if !BelowCursor(v, w.counted[a].item) {
        var k :| 0 <= k < |items| - 1 && items[..|items| - 1][k] == w.counted[a].item;
        assert items[k] == w.counted[a].item;
      }
    }
  }

  lemma ConsumedExtends(v: Validation, w: Validation, x: Validation, items: seq<Item>, c: Credit)
    requires items != [] && Consumed(v, w, items[..|items| - 1]) && Sound(x) && Derived(w, x)
    requires c.item == items[|items| - 1] && (x.counted == w.counted || x.counted == w.counted + [c])
    ensures Consumed(v, x, items)
  {
    hide Sound;
    forall a | 0 <= a < |x.counted|
      ensures BelowCursor(v, x.counted[a].item) || exists k :: 0 <= k < |items| && items[k] == x.counted[a].item
    {
      if a < |w.counted| {
        assert x.counted[a] == w.counted[a];
        if !BelowCursor(v, w.counted[a].item) {
          var k :| 0 <= k < |items| - 1 && items[..|items| - 1][k] == w.counted[a].item;
          assert items[k] == x.counted[a].item;
        }
      } else {
        assert items[|items| - 1] == x.counted[a].item;
      }
    }
  }

  lemma NothingConsumed(v: Validation)
    requires Sound(v)
    ensures Consumed(v, v, [])
  {
    hide SuccessCount, FailureCount;
    forall a | 0 <= a < |v.counted| ensures BelowCursor(v, v.counted[a].item) { assert Countable(v, v.counted[a]); }
  }

  lemma {:induction false} ConsumeAllSound(v: Validation, items: seq<Item>, rules: Rules, now: int)
    requires Sound(v) && Listing(v, items)
    ensures Consumed(v, ConsumeAll(v, items, rules, now), items)
    decreases |items|
  {
    if items == [] {
      NothingConsumed(v);
    } else {
      var init, last := items[..|items| - 1], items[|items| - 1];
      ConsumeAllSound(v, init, rules, now);
      var w := ConsumeAll(v, init, rules, now);
      NotYetCounted(v, w, items);
      MarkBelow(v);
      hide Sound, TimesHonest, Consume, SameRow;
      ConsumeStep(w, last, rules, now);
      ConsumedExtends(v, w, Consume(w, last, rules, now), items, Credit(last, now, rules.freshness));
    }
  }

  lemma MarkBelow(v: Validation)
    requires Sound(v)
    ensures v.monitorMark <= v.monitorCursor && v.trafficMark <= v.trafficCursor
  {
  }

  // ------------------------------------------------------- what a round does

  /** The counted rows that confirm, and those that fail, by their columns. */
  ghost function Confirming(credits: seq<Credit>): set<nat>
  {
    set a: nat | a < |credits| &&
      var i := credits[a].item; (i.source.Monitor? && i.status.Operational?) || (i.source.Traffic? && i.status.SuccessRow?)
  }

  ghost function Refuting(credits: seq<Credit>): set<nat>
  {
    set a: nat | a < |credits| &&
      var i := credits[a].item;
      (i.source.Monitor? && i.status in {FailedRow, ErrorRow})
      || (i.source.Traffic? && i.status.ErrorRow? && i.errorClass in {Infrastructure, Capacity})
  }

  lemma ConfirmingSplits(credits: seq<Credit>)
    requires credits != []
    ensures var n, init := |credits| - 1, credits[..|credits| - 1];
            Confirming(credits) == (if Good(credits[n].item) then Confirming(init) + {n} else Confirming(init)) && n !in Confirming(init)
  {
    var n, init := |credits| - 1, credits[..|credits| - 1];
    assert forall a: nat | a < n :: init[a] == credits[a];
    forall a: nat | a < |credits| ensures a in Confirming(credits) <==> Good(credits[a].item) {}
  }

  lemma RefutingSplits(credits: seq<Credit>)
    requires credits != []
    ensures var n, init := |credits| - 1, credits[..|credits| - 1];
            Refuting(credits) == (if Bad(credits[n].item) then Refuting(init) + {n} else Refuting(init)) && n !in Refuting(init)
  {
    var n, init := |credits| - 1, credits[..|credits| - 1];
    assert forall a: nat | a < n :: init[a] == credits[a];
    forall a: nat | a < |credits| ensures a in Refuting(credits) <==> Bad(credits[a].item) {}
  }

  lemma {:induction false} CountersAreCardinals(credits: seq<Credit>)
    ensures SuccessCount(credits) == |Confirming(credits)| && FailureCount(credits) == |Refuting(credits)|
  {
    if credits != [] {
      var n, init := |credits| - 1, credits[..|credits| - 1];
      hide Confirming, Refuting, Good, Bad;
      CountersAreCardinals(init);
      ConfirmingSplits(credits);
      RefutingSplits(credits);
    }
  }

  /** A round keeps the counters equal to the numbers of distinct confirming and
      failing rows, never moves a cursor or counter of the state it started from
      backwards, and keeps what was counted. */
  lemma RoundSound(v: Validation, items: seq<Item>, rules: Rules, now: int)
    requires Sound(v) && Listing(v, items)
    ensures var w := Round(v, items, rules, now);
            Sound(w) && Derived(v, w)
    ensures var w := Round(v, items, rules, now);
            w.successes == |Confirming(w.counted)| && w.failures == |Refuting(w.counted)|
  {
    ConsumeAllSound(v, items, rules, now);
    hide ConsumeAll;
    CountersAreCardinals(Round(v, items, rules, now).counted);
  }

  /** The columns of a row that make it count in a round of a state. */
  predicate Attributable(i: Item, v: Validation, freshness: int, now: int)
  {
    && i.transition in {None, Some(v.transition)} && i.target in {None, Some(v.target)}
    && i.observedAt != 0 && i.observedAt <= now <= i.observedAt + freshness
    && v.notBefore.Some?
    && (if i.startedAt !in {None, Some(0)} then v.notBefore.value <= i.startedAt.value <= now
        else
          && v.notBefore.value <= i.observedAt
          && (i.basis in {MonitorRequestStart, RequestStart}
              || (i.basis.Completion? && i.source.Monitor? && v.verifiedAt.Some? && v.verifiedAt.value + 50000000000 <= i.observedAt)))
    && (if i.source.Monitor? then i.status in {Operational, FailedRow, ErrorRow}
        else i.status.SuccessRow? || (i.status.ErrorRow? && i.errorClass in {Infrastructure, Capacity}))
  }

  lemma VerdictExactly(i: Item, v: Validation, rules: Rules, now: int)
    ensures VerdictOf(i, v, rules, now).Some? <==> Attributable(i, v, rules.freshness, now)
  {
    assert i.transition in {None, Some(v.transition)} <==> (i.transition.Some? ==> i.transition.value == v.transition);
    assert i.target in {None, Some(v.target)} <==> (i.target.Some? ==> i.target.value == v.target);
    assert i.startedAt !in {None, Some(0)} <==> i.startedAt.Some? && i.startedAt.value != ZERO_TIME;
  }

  /** The rows of a listing that count, in order. */
  function Counting(v: Validation, items: seq<Item>, freshness: int, now: int): seq<Credit>
  {
    if items == [] then []
    else
      var last := items[|items| - 1];
      Counting(v, items[..|items| - 1], freshness, now) + if Attributable(last, v, freshness, now) then [Credit(last, now, freshness)] else []
  }

  lemma {:induction false} CountedFrom(v: Validation, items: seq<Item>, rules: Rules, now: int)
    ensures var w := ConsumeAll(v, items, rules, now);
            && w.counted == v.counted + Counting(v, items, rules.freshness, now)
            && w.transition == v.transition && w.target == v.target && w.verifiedAt == v.verifiedAt && w.notBefore == v.notBefore
            && w.deadline == v.deadline
    decreases |items|
  {
    if items != [] {
      var init, last := items[..|items| - 1], items[|items| - 1];
      CountedFrom(v, init, rules, now);
      var w := ConsumeAll(v, init, rules, now);
      VerdictExactly(last, Passing(w, last), rules, now);
      hide VerdictOf;
    }
  }

  /** Where a collecting state ends after some new credits: failed when the last
      one fails and the threshold is reached, healthy when one confirms and no
      such failure follows. */
  predicate Judged(start: Status, credits: seq<Credit>, failures: nat, threshold: int, status: Status)
  {
    var failed := credits != [] && Bad(credits[|credits| - 1].item) && failures >= threshold;
    var confirmed := exists a | 0 <= a < |credits| :: Good(credits[a].item);
    status == if failed then ConfirmedFailed else if confirmed then ConfirmedHealthy else start
  }

  lemma {:induction false} JudgedAfter(v: Validation, items: seq<Item>, rules: Rules, now: int)
    ensures var w := ConsumeAll(v, items, rules, now);
            Judged(v.status, Counting(v, items, rules.freshness, now), w.failures, rules.failures, w.status)
    decreases |items|
  {
    hide Judged, Consume, Attributable;
    if items == [] {
      JudgedAtFirst(v.status, v.failures, rules.failures);
    } else {
      JudgedAfter(v, items[..|items| - 1], rules, now);
      JudgedLast(v, items, rules, now);
    }
  }

  lemma JudgedLast(v: Validation, items: seq<Item>, rules: Rules, now: int)
    requires items != []
    requires var w := ConsumeAll(v, items[..|items| - 1], rules, now);
             Judged(v.status, Counting(v, items[..|items| - 1], rules.freshness, now), w.failures, rules.failures, w.status)
    ensures var x := ConsumeAll(v, items, rules, now);
            Judged(v.status, Counting(v, items, rules.freshness, now), x.failures, rules.failures, x.status)
  {
    var init, last := items[..|items| - 1], items[|items| - 1];
    hide *;
    CountedFrom(v, init, rules, now);
    LastConsumed(v, items, rules, now);
    var w := ConsumeAll(v, init, rules, now);
    VerdictExactly(last, v, rules, now);
    SameVerdict(last, w, v, rules, now);
    ConsumeJudges(w, last, rules, now);
    CountingLast(v, items, rules.freshness, now);
    var credits, x := Counting(v, init, rules.freshness, now), Consume(w, last, rules, now);
    if Attributable(last, v, rules.freshness, now) {
      JudgedStep(v.status, credits, w.failures, w.status, Credit(last, now, rules.freshness), rules.failures, x.failures, x.status);
    }
  }

  lemma CountingLast(v: Validation, items: seq<Item>, freshness: int, now: int)
    requires items != []
    ensures var last := items[|items| - 1];
            var init := Counting(v, items[..|items| - 1], freshness, now);
            Counting(v, items, freshness, now) == (if Attributable(last, v, freshness, now) then init + [Credit(last, now, freshness)] else init)
  {
  }

  lemma ConsumeJudges(w: Validation, i: Item, rules: Rules, now: int)
    ensures var x, counts := Consume(w, i, rules, now), VerdictOf(i, w, rules, now).Some?;
            && x.failures == w.failures + (if counts && Bad(i) then 1 else 0)
            && x.status == (if counts && Good(i) then ConfirmedHealthy
                            else if counts && x.failures >= rules.failures then ConfirmedFailed
                            else w.status)
            && (counts ==> Good(i) || Bad(i))
  {
    SameVerdict(i, Passing(w, i), w, rules, now);
    hide VerdictOf, Classify;
  }

  lemma JudgedAtFirst(start: Status, failures: nat, threshold: int)
    ensures Judged(start, [], failures, threshold, start)
  {
  }

  lemma LastConsumed(v: Validation, items: seq<Item>, rules: Rules, now: int)
    requires items != []
    ensures ConsumeAll(v, items, rules, now) == Consume(ConsumeAll(v, items[..|items| - 1], rules, now), items[|items| - 1], rules, now)
  {
  }

  lemma SameVerdict(i: Item, v: Validation, w: Validation, rules: Rules, now: int)
    requires v.transition == w.transition && v.target == w.target && v.verifiedAt == w.verifiedAt && v.notBefore == w.notBefore
    ensures VerdictOf(i, v, rules, now) == VerdictOf(i, w, rules, now)
    ensures VerdictOf(i, v, rules, now).Some? ==> VerdictOf(i, v, rules, now) == Classify(i)
  {
  }

  lemma JudgedStep(start: Status, credits: seq<Credit>, failures: nat, status: Status, c: Credit, threshold: int, more: nat, next: Status)
    requires Judged(start, credits, failures, threshold, status) && (Good(c.item) || Bad(c.item))
    requires more == failures + if Bad(c.item) then 1 else 0
    requires next == if Good(c.item) then ConfirmedHealthy else if more >= threshold then ConfirmedFailed else status
    ensures Judged(start, credits + [c], more, threshold, next)
  {
    hide Classify;
    var all := credits + [c];
    assert all[|credits|] == c;
    forall a | 0 <= a < |credits| ensures all[a] == credits[a] {}
  }

  /** What one round does, by the columns of the listed rows: it adds exactly the
      attributable ones, in order, and the new status is failure if the last of
      them fails and the threshold is reached, else health if one confirms, else
      uncertainty past the deadline, else what it was. */
  lemma RoundExactly(v: Validation, items: seq<Item>, rules: Rules, now: int)
    requires Sound(v) && Listing(v, items) && Collecting(v)
    ensures var w := Round(v, items, rules, now);
            var credits := Counting(v, items, rules.freshness, now);
            && w.counted == v.counted + credits
            && (forall c :: c in credits <==> c.now == now && c.freshness == rules.freshness && c.item in items
                                              && Attributable(c.item, v, rules.freshness, now))
            && w.status == (if credits != [] && |credits| - 1 in Refuting(credits) && |Refuting(w.counted)| >= rules.failures then ConfirmedFailed
                            else if Confirming(credits) != {} then ConfirmedHealthy
                            else if v.deadline.Some? && v.deadline.value <= now then Status.Uncertain
                            else v.status)
  {
    CountedFrom(v, items, rules, now);
    JudgedAfter(v, items, rules, now);
    ConsumeAllSound(v, items, rules, now);
    CountingMember(v, items, rules.freshness, now);
    hide Counting, ConsumeAll, Listing, Attributable, Judged;
    var u := ConsumeAll(v, items, rules, now);
    CountersAreCardinals(u.counted);
    hide Sound;
    JudgedByColumns(v.status, Counting(v, items, rules.freshness, now), u.failures, rules.failures, u.status);
  }

  lemma JudgedByColumns(start: Status, credits: seq<Credit>, failures: nat, threshold: int, status: Status)
    requires Judged(start, credits, failures, threshold, status)
    ensures status == if credits != [] && |credits| - 1 in Refuting(credits) && failures >= threshold then ConfirmedFailed
                      else if Confirming(credits) != {} then ConfirmedHealthy
                      else start
  {
    if a :| 0 <= a < |credits| && Good(credits[a].item) { assert a in Confirming(credits); }
    if Confirming(credits) != {} {
      var a :| a in Confirming(credits);
      assert Good(credits[a].item);
    }
  }

  lemma {:induction false} CountingMember(v: Validation, items: seq<Item>, freshness: int, now: int)
    ensures forall c :: c in Counting(v, items, freshness, now)
                        <==> c.now == now && c.freshness == freshness && c.item in items && Attributable(c.item, v, freshness, now)
  {
    hide Attributable;
    if items != [] {
      CountingMember(v, items[..|items| - 1], freshness, now);
      assert items == items[..|items| - 1] + [items[|items| - 1]];
    }
  }
}

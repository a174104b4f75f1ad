/** The coordinator that coalesces reconcile requests: a pending set under a
    mutex, a wake channel with one slot, and a single runner that drains it. */
module ReconcileCoordinator {
  import opened Options
  import Ordering

  datatype Box = Box(full: bool, accounts: set<int>)

  const EMPTY := Box(false, {})

  function Positive(ids: seq<int>): set<int>
  {
    set id | id in ids && id > 0
  }

  /** The critical section of RequestAccountsFrom. */
  function WithAccounts(b: Box, ids: seq<int>): Box
  {
    if b.full then b else b.(accounts := b.accounts + Positive(ids))
  }

  predicate IntLess(a: int, b: int)
  {
    a < b
  }

  lemma Nonempty(s: set<int>)
    ensures s != {} ==> exists id :: id in s
  {
    if forall id :: id !in s {
      assert forall id | id in s :: id in {};
      assert s <= {};
    }
  }

  /** Ranging over a map's keys: each once, in no particular order. */
  method Listed(pending: set<int>) returns (ids: seq<int>)
    ensures multiset(ids) == multiset(pending)
  {
    ids := [];
    var rest := pending;
    while rest != {}
      invariant rest <= pending
      invariant multiset(ids) + multiset(rest) == multiset(pending)
      decreases |rest|
    {
      Nonempty(rest);
      var id :| id in rest;
      ids := ids + [id];
      assert multiset(rest) == multiset(rest - {id}) + multiset{id};
      rest := rest - {id};
    }
  }

  class Coordinator {
    var pendingFull: bool
    var pending: set<int>

    ghost function View(): Box
      reads this
    {
      Box(pendingFull, pending)
    }

    constructor ()
      ensures View() == EMPTY
    {
      pendingFull, pending := false, {};
    }

    /** Whether the caller goes on to signal. */
    method RequestAccounts(accountIDs: seq<int>) returns (signals: bool)
      modifies this
      ensures View() == WithAccounts(old(View()), accountIDs)
      ensures signals == !old(pendingFull)
    {
      if pendingFull {
        return false;
      }
      for n := 0 to |accountIDs|
        invariant !pendingFull
        invariant pending == old(pending) + Positive(accountIDs[..n])
      {
        assert accountIDs[..n + 1] == accountIDs[..n] + [accountIDs[n]];
        assert Positive(accountIDs[..n + 1]) == Positive(accountIDs[..n]) + if accountIDs[n] > 0 then {accountIDs[n]} else {};
        if accountIDs[n] > 0 {
          pending := pending + {accountIDs[n]};
        }
      }
      assert accountIDs[..|accountIDs|] == accountIDs;
      signals := true;
    }

    method RequestFull()
      modifies this
      ensures View() == if old(pendingFull) then old(View()) else Box(true, {})
    {
      if !pendingFull {
        pendingFull := true;
        pending := {};
      }
    }

    /** takePending: the accounts come out once each, in increasing order. */
    method TakePending() returns (full: bool, ids: seq<int>)
      modifies this
      ensures View() == EMPTY && full == old(pendingFull)
      ensures multiset(ids) == if full then multiset{} else multiset(old(pending))
      ensures Ordering.Sorted(IntLess, ids)
    {
      full := pendingFull;
      ids := [];
      if !full {
        ids := Listed(pending);
        ids := Ordering.SortSlice(IntLess, ids);
      }
      pendingFull, pending := false, {};
    }
  }

  // ------------------------------------------------------------ schedules

  /** The runner: in its select, about to signal its own periodic request,
      debouncing, about to take, in a pass, or stopped with its context. */
  datatype Runner = Idle | Ticked | Debouncing | Draining | Passing | Stopped

  datatype Event = Asked(ids: set<int>) | AskedFull | Took(full: bool, ids: set<int>)

  datatype State = State(box: Box, wake: bool, signalling: set<nat>, runner: Runner, log: seq<Event>)

  const START := State(EMPTY, false, {}, Idle, [])

  datatype Action =
    | RequestAccounts(p: nat, ids: seq<int>)
    | RequestFull(p: nat)
    | Signal(p: nat)
    | Tick            // the ticker fires and the runner records a full request
    | Wake            // the runner receives the token, idle or debouncing
    | Advance         // the runner's next operation
    | Stop

  function Step(s: State, a: Action): State
  {
    match a
    case RequestAccounts(p, ids) =>
      if p in s.signalling then s
      else s.(box := WithAccounts(s.box, ids),
              signalling := if s.box.full then s.signalling else s.signalling + {p},
              log := s.log + [Asked(Positive(ids))])
    case RequestFull(p) =>
      if p in s.signalling then s
      else s.(box := if s.box.full then s.box else Box(true, {}), signalling := s.signalling + {p}, log := s.log + [AskedFull])
    case Signal(p) => if p in s.signalling then s.(signalling := s.signalling - {p}, wake := true) else s
    case Tick =>
      if !s.runner.Idle? then s
      else s.(box := if s.box.full then s.box else Box(true, {}), runner := Ticked, log := s.log + [AskedFull])
    case Wake =>
      if s.wake && (s.runner.Idle? || s.runner.Debouncing?) then s.(wake := false, runner := Debouncing) else s
    case Advance => Advanced(s)
    case Stop => s.(runner := Stopped)
  }

  function Advanced(s: State): State
  {
    match s.runner
    case Ticked => s.(wake := true, runner := Draining)
    case Debouncing => s.(runner := Draining)
    case Draining =>
      s.(box := EMPTY,
         runner := if s.box == EMPTY then Idle else Passing,
         log := s.log + [Took(s.box.full, s.box.accounts)])
    case Passing => s.(runner := Draining)
    case Idle => s
    case Stopped => s
  }

  function Run(s: State, actions: seq<Action>): State
    decreases |actions|
  {
    if actions == [] then s else Run(Step(s, actions[0]), actions[1..])
  }

  // ------------------------------------------------------------ invariant

  predicate Covers(e: Event, id: int)
  {
    e.Took? && (e.full || id in e.ids)
  }

  /** The account was asked for and no pass covering it has begun since. */
  predicate Owed(log: seq<Event>, id: int)
  {
    log != [] &&
    var e := log[|log| - 1];
    if e.Asked? && id in e.ids then true
    else if Covers(e, id) then false
    else Owed(log[..|log| - 1], id)
  }

  /** A full pass was asked for and none has begun since. */
  predicate OwedFull(log: seq<Event>)
  {
    log != [] &&
    var e := log[|log| - 1];
    if e.AskedFull? then true
    else if e.Took? && e.full then false
    else OwedFull(log[..|log| - 1])
  }

  ghost predicate Inv(s: State)
  {
    && (s.box.full ==> s.box.accounts == {})
    && (s.box != EMPTY ==> s.wake || s.signalling != {} || !s.runner.Idle?)
    && (OwedFull(s.log) <==> s.box.full)
    && (forall id :: Owed(s.log, id) ==> s.box.full || id in s.box.accounts)
    && (forall id | id in s.box.accounts :: id > 0 && Owed(s.log, id))
  }

  lemma Appended(log: seq<Event>, e: Event)
    ensures OwedFull(log + [e]) == (e.AskedFull? || (!(e.Took? && e.full) && OwedFull(log)))
    ensures forall id :: Owed(log + [e], id) == ((e.Asked? && id in e.ids) || (!Covers(e, id) && Owed(log, id)))
  {
    assert (log + [e])[..|log + [e]| - 1] == log;
  }

  lemma StepKeeps(s: State, a: Action)
    requires Inv(s)
    ensures Inv(Step(s, a))
  {
    hide Owed, OwedFull;
    match a
    case RequestAccounts(p, ids) => RequestKeeps(s, p, ids);
    case RequestFull(p) =>
      Appended(s.log, AskedFull);
      assert p in Step(s, a).signalling;
    case Tick => Appended(s.log, AskedFull);
    case Advance => Appended(s.log, Took(s.box.full, s.box.accounts));
    case _ =>
  }

  lemma RequestKeeps(s: State, p: nat, ids: seq<int>)
    requires Inv(s)
    ensures Inv(Step(s, RequestAccounts(p, ids)))
  {
    hide Owed, OwedFull;
    Appended(s.log, Asked(Positive(ids)));
    assert p in s.signalling || s.box.full || p in Step(s, RequestAccounts(p, ids)).signalling;
  }

  lemma {:induction false} RunKeeps(s: State, actions: seq<Action>)
    requires Inv(s)
    ensures Inv(Run(s, actions))
    decreases |actions|
  {
    hide Inv, Step;
    if actions != [] {
      StepKeeps(s, actions[0]);
      RunKeeps(Step(s, actions[0]), actions[1..]);
    }
  }

  // ------------------------------------------------------------- theorems

  /** Over every interleaving: a pending full request implies an empty account
      set; a full pass is owed exactly when one is pending; what is owed is
      pending, and what is pending was asked for. */
  lemma PendingIsOwed(actions: seq<Action>, id: int)
    ensures var s := Run(START, actions);
            && (s.box.full ==> s.box.accounts == {})
            && (OwedFull(s.log) <==> s.box.full)
            && (Owed(s.log, id) ==> s.box.full || id in s.box.accounts)
            && (id in s.box.accounts ==> id > 0 && Owed(s.log, id))
  {
    RunKeeps(START, actions);
    hide Run;
  }

  /** Pending work always has somebody who will bring it to a pass: a buffered
      token, a requester about to signal, or a runner before its empty take. */
  lemma WorkIsNoticed(actions: seq<Action>)
    ensures var s := Run(START, actions);
            s.box != EMPTY ==> s.wake || s.signalling != {} || !s.runner.Idle?
  {
    RunKeeps(START, actions);
    hide Run;
  }

  /** The steps that finish what is pending without any new request. */
  predicate Closing(a: Action)
  {
    a.Signal? || a.Wake? || a.Advance?
  }

  lemma Extend(s: State, a: Action, more: seq<Action>)
    ensures Run(s, [a] + more) == Run(Step(s, a), more)
  {
    assert ([a] + more)[1..] == more;
  }

  /** Distance of a runner from its next take. */
  function Distance(r: Runner): nat
  {
    match r
    case Draining => 0
    case Idle => 2
    case _ => 1
  }

  /** Nothing is lost: from any reachable state whose runner has not stopped, the
      outstanding signals and the runner's own steps lead to a state in which no
      account and no full pass is owed. */
  lemma {:induction false} WorkCanFinish(s: State) returns (more: seq<Action>)
    requires Inv(s) && !s.runner.Stopped?
    ensures forall a | a in more :: Closing(a)
    ensures var t := Run(s, more);
            t.box == EMPTY && !OwedFull(t.log) && forall id :: !Owed(t.log, id)
    decreases if s.box == EMPTY then 0 else 1, Distance(s.runner), |s.signalling|
  {
    if s.box == EMPTY {
      more := [];
    } else {
      var a: Action;
      if s.runner.Idle? && !s.wake {
        var p :| p in s.signalling;
        a := Signal(p);
      } else if s.runner.Idle? {
        a := Wake;
      } else {
        a := Advance;
      }
      StepKeeps(s, a);
      var rest := WorkCanFinish(Step(s, a));
      Extend(s, a, rest);
      more := [a] + rest;
    }
  }

  /** Every requested positive account is covered: if a pass for it is no longer
      pending, some later event of the log is a full pass or a pass naming it. */
  lemma RequestsAreCovered(actions: seq<Action>, n: nat, id: int) returns (pass: nat)
    requires var s := Run(START, actions);
             n < |s.log| && s.log[n].Asked? && id in s.log[n].ids && !s.box.full && id !in s.box.accounts
    ensures var s := Run(START, actions);
            n < pass < |s.log| && Covers(s.log[pass], id)
  {
    PendingIsOwed(actions, id);
    var s := Run(START, actions);
    hide Run;
    pass := CoveredSince(s.log, n, id);
  }

  lemma {:induction false} CoveredSince(log: seq<Event>, n: nat, id: int) returns (pass: nat)
    requires n < |log| && log[n].Asked? && id in log[n].ids && !Owed(log, id)
    ensures n < pass < |log| && Covers(log[pass], id)
  {
    pass := |log| - 1;
    if !Covers(log[pass], id) {
      pass := CoveredSince(log[..|log| - 1], n, id);
    }
  }

  /** What the runner last took. */
  function LastTook(log: seq<Event>): Option<Box>
  {
    if log == [] then None
    else if log[|log| - 1].Took? then Some(Box(log[|log| - 1].full, log[|log| - 1].ids))
    else LastTook(log[..|log| - 1])
  }

  /** The runner is in a pass only for what it took, and idle only after an empty take. */
  predicate Occupied(s: State)
  {
    var took := LastTook(s.log);
    && (s.runner.Passing? ==> took.Some? && took.value != Box(false, {}))
    && (s.runner.Idle? ==> took.None? || took.value == Box(false, {}))
  }

  lemma StepOccupied(s: State, a: Action)
    requires Occupied(s)
    ensures Occupied(Step(s, a))
  {
    var t := Step(s, a);
    if t.log != s.log {
      assert t.log == s.log + [t.log[|s.log|]];
      assert t.log[..|t.log| - 1] == s.log;
    }
  }

  lemma {:induction false} RunOccupied(s: State, actions: seq<Action>)
    requires Occupied(s)
    ensures Occupied(Run(s, actions))
    decreases |actions|
  {
    hide Occupied, Step;
    if actions != [] {
      StepOccupied(s, actions[0]);
      RunOccupied(Step(s, actions[0]), actions[1..]);
    }
  }

  /** Over every run, each pass is for a full request or for some accounts, and the
      runner goes back to waiting only after it found nothing to do. */
  lemma PassesHaveWork(actions: seq<Action>)
    ensures var s := Run(START, actions);
            var took := LastTook(s.log);
            && (s.runner.Passing? ==> took.Some? && took.value != Box(false, {}))
            && (s.runner.Idle? ==> took.None? || took.value == Box(false, {}))
  {
    RunOccupied(START, actions);
    hide Run;
  }

  /** A waiting runner stirs only for a token, which it uses up, or for its ticker. */
  lemma IdleStirsExactly(s: State, a: Action)
    requires s.runner.Idle? && !a.Stop?
    ensures !Step(s, a).runner.Idle? <==> a.Tick? || (a.Wake? && s.wake)
    ensures a.Wake? ==> !Step(s, a).wake
  {
  }
}

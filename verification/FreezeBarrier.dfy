/** The barrier between automated mutations and freeze publication: counters
    under a mutex and a broadcast channel that is closed and replaced. A
    channel is known by its generation; every earlier generation is closed. */
module FreezeBarrier {

  datatype Gate = Gate(changed: nat, active: int, freezing: bool, waiters: int)

  const OPEN := Gate(0, 0, false, 0)

  predicate MayMutate(g: Gate)
  {
    !g.freezing && g.waiters == 0
  }

  predicate MayFreeze(g: Gate)
  {
    !g.freezing && g.active == 0
  }

  function Signalled(g: Gate): Gate
  {
    g.(changed := g.changed + 1)
  }

  class Barrier {
    var changed: nat
    var active: int
    var freezing: bool
    var waiters: int

    ghost function View(): Gate
      reads this
    {
      Gate(changed, active, freezing, waiters)
    }

    constructor ()
      ensures View() == OPEN
    {
      changed, active, freezing, waiters := 0, 0, false, 0;
    }

    /** signalLocked. */
    method Signal()
      modifies this
      ensures View() == Signalled(old(View()))
    {
      changed := changed + 1;
    }

    /** One turn of EnterMutation's loop; on refusal the caller waits on the channel. */
    method TryMutation() returns (entered: bool, channel: nat)
      modifies this
      ensures entered == MayMutate(old(View()))
      ensures View() == if entered then old(View()).(active := old(active) + 1) else old(View())
      ensures channel == changed
    {
      entered := !freezing && waiters == 0;
      if entered { active := active + 1; }
      channel := changed;
    }

    method LeaveMutation()
      modifies this
      ensures View() == Signalled(old(View()).(active := old(active) - 1))
    {
      active := active - 1;
      Signal();
    }

    method AnnounceFreeze()
      modifies this
      ensures View() == Signalled(old(View()).(waiters := old(waiters) + 1))
    {
      waiters := waiters + 1;
      Signal();
    }

    /** One turn of EnterFreeze's loop. */
    method TryFreeze() returns (entered: bool, channel: nat)
      modifies this
      ensures entered == MayFreeze(old(View()))
      ensures View() == if entered then old(View()).(waiters := old(waiters) - 1, freezing := true) else old(View())
      ensures channel == changed
    {
      entered := !freezing && active == 0;
      if entered { waiters, freezing := waiters - 1, true; }
      channel := changed;
    }

    method AbandonFreeze()
      modifies this
      ensures View() == Signalled(old(View()).(waiters := old(waiters) - 1))
    {
      waiters := waiters - 1;
      Signal();
    }

    method LeaveFreeze()
      modifies this
      ensures View() == Signalled(old(View()).(freezing := false))
    {
      freezing := false;
      Signal();
    }
  }

  // ------------------------------------------------------------ schedules

  /** Where a caller stands. A released lease keeps its release function, which
      may be called again. */
  datatype Proc =
    | MutationTry | MutationWait(channel: nat) | MutationLease | MutationReleased
    | FreezeTry | FreezeWait(channel: nat) | FreezeLease | FreezeReleased | FreezeCancelled

  datatype State = State(gate: Gate, procs: map<nat, Proc>)

  const START := State(OPEN, map[])

  datatype Action =
    | StartMutation(p: nat)
    | StartFreeze(p: nat)
    | Turn(p: nat)      // a turn of the caller's loop under the mutex
    | Wake(p: nat)      // receive from a closed channel
    | Cancel(p: nat)    // the context ends while waiting
    | Abandon(p: nat)   // the cancelled freeze gives up its claim
    | Release(p: nat)   // call the lease's release function, perhaps again

  function Put(s: State, p: nat, proc: Proc, gate: Gate): State
  {
    State(gate, s.procs[p := proc])
  }

  function Step(s: State, a: Action): State
  {
    var g := s.gate;
    match a
    case StartMutation(p) => if p in s.procs then s else Put(s, p, MutationTry, g)
    case StartFreeze(p) => if p in s.procs then s else Put(s, p, FreezeTry, Signalled(g.(waiters := g.waiters + 1)))
    case Turn(p) =>
      if p !in s.procs then s
      else if s.procs[p].MutationTry? then
        if MayMutate(g) then Put(s, p, MutationLease, g.(active := g.active + 1)) else Put(s, p, MutationWait(g.changed), g)
      else if s.procs[p].FreezeTry? then
        if MayFreeze(g) then Put(s, p, FreezeLease, g.(waiters := g.waiters - 1, freezing := true))
        else Put(s, p, FreezeWait(g.changed), g)
      else s
    case Wake(p) =>
      if p !in s.procs then s
      else if s.procs[p].MutationWait? && s.procs[p].channel < g.changed then Put(s, p, MutationTry, g)
      else if s.procs[p].FreezeWait? && s.procs[p].channel < g.changed then Put(s, p, FreezeTry, g)
      else s
    case Cancel(p) =>
      if p !in s.procs then s
      else if s.procs[p].MutationWait? then s.(procs := s.procs - {p})
      else if s.procs[p].FreezeWait? then Put(s, p, FreezeCancelled, g)
      else s
    case Abandon(p) =>
      if p in s.procs && s.procs[p].FreezeCancelled?
      then State(Signalled(g.(waiters := g.waiters - 1)), s.procs - {p})
      else s
    case Release(p) =>
      if p !in s.procs then s
      else if s.procs[p].MutationLease? then Put(s, p, MutationReleased, Signalled(g.(active := g.active - 1)))
      else if s.procs[p].FreezeLease? then Put(s, p, FreezeReleased, Signalled(g.(freezing := false)))
      else s
  }

  function Run(s: State, actions: seq<Action>): State
    decreases |actions|
  {
    if actions == [] then s else Run(Step(s, actions[0]), actions[1..])
  }

  // ------------------------------------------------------------ invariant

  function Mutations(s: State): set<nat>
  {
    set p | p in s.procs && s.procs[p].MutationLease?
  }

  predicate Claims(proc: Proc)
  {
    proc.FreezeTry? || proc.FreezeWait? || proc.FreezeCancelled?
  }

  function Claimants(s: State): set<nat>
  {
    set p | p in s.procs && Claims(s.procs[p])
  }

  function Freezes(s: State): set<nat>
  {
    set p | p in s.procs && s.procs[p].FreezeLease?
  }

  /** A waiter on the current channel has a false guard. */
  predicate WaitOk(g: Gate, proc: Proc)
  {
    match proc
    case MutationWait(c) => c <= g.changed && (c == g.changed ==> !MayMutate(g))
    case FreezeWait(c) => c <= g.changed && (c == g.changed ==> !MayFreeze(g))
    case _ => true
  }

  ghost predicate Inv(s: State)
  {
    && s.gate.active == |Mutations(s)|
    && s.gate.waiters == |Claimants(s)|
    && |Freezes(s)| == (if s.gate.freezing then 1 else 0)
    && (s.gate.freezing ==> s.gate.active == 0)
    && forall p | p in s.procs :: WaitOk(s.gate, s.procs[p])
  }

  function One(b: bool): nat
  {
    if b then 1 else 0
  }

  lemma Swapped(a: set<nat>, b: set<nat>, p: nat, present: bool)
    requires b == (a - {p}) + (if present then {p} else {})
    ensures |b| == |a| - One(p in a) + One(present)
  {
  }

  lemma TwoMembers(a: set<nat>, p: nat, q: nat)
    requires p in a && q in a && p != q
    ensures |a| >= 2
  {
    assert {p, q} <= a;
    assert |a - {p, q}| == |a| - 2;
  }

  /** Two sets that agree away from one member. */
  lemma AgreeElsewhere(a: set<nat>, b: set<nat>, p: nat)
    requires forall q | q != p :: q in b <==> q in a
    ensures b == (a - {p}) + if p in b then {p} else {}
  {
  }

  lemma OthersStay(s: State, t: State, p: nat)
    requires forall q | q != p :: (q in t.procs <==> q in s.procs) && (q in s.procs ==> t.procs[q] == s.procs[q])
    ensures Mutations(t) == (Mutations(s) - {p}) + if p in t.procs && t.procs[p].MutationLease? then {p} else {}
    ensures Claimants(t) == (Claimants(s) - {p}) + if p in t.procs && Claims(t.procs[p]) then {p} else {}
    ensures Freezes(t) == (Freezes(s) - {p}) + if p in t.procs && t.procs[p].FreezeLease? then {p} else {}
  {
    hide Mutations, Claimants, Freezes, Claims;
    MemberSets(t, p);
    forall q | q != p ensures q in Mutations(t) <==> q in Mutations(s)
                      ensures q in Claimants(t) <==> q in Claimants(s)
                      ensures q in Freezes(t) <==> q in Freezes(s) {
      MemberSets(s, q);
      MemberSets(t, q);
    }
    AgreeElsewhere(Mutations(s), Mutations(t), p);
    AgreeElsewhere(Claimants(s), Claimants(t), p);
    AgreeElsewhere(Freezes(s), Freezes(t), p);
  }

  /** Moving one process changes each of the three counted sets by at most it. */
  lemma PutCounts(s: State, p: nat, proc: Proc, gate: Gate)
    ensures var t := Put(s, p, proc, gate);
            && |Mutations(t)| == |Mutations(s)| - One(p in Mutations(s)) + One(proc.MutationLease?)
            && |Claimants(t)| == |Claimants(s)| - One(p in Claimants(s)) + One(Claims(proc))
            && |Freezes(t)| == |Freezes(s)| - One(p in Freezes(s)) + One(proc.FreezeLease?)
  {
    hide Mutations, Claimants, Freezes, Claims;
    var t := Put(s, p, proc, gate);
    OthersStay(s, t, p);
    Swapped(Mutations(s), Mutations(t), p, proc.MutationLease?);
    Swapped(Claimants(s), Claimants(t), p, Claims(proc));
    Swapped(Freezes(s), Freezes(t), p, proc.FreezeLease?);
  }

  lemma RemoveCounts(s: State, p: nat, gate: Gate)
    ensures var t := State(gate, s.procs - {p});
            && |Mutations(t)| == |Mutations(s)| - One(p in Mutations(s))
            && |Claimants(t)| == |Claimants(s)| - One(p in Claimants(s))
            && |Freezes(t)| == |Freezes(s)| - One(p in Freezes(s))
  {
    hide Mutations, Claimants, Freezes, Claims;
    var t := State(gate, s.procs - {p});
    OthersStay(s, t, p);
    Swapped(Mutations(s), Mutations(t), p, false);
    Swapped(Claimants(s), Claimants(t), p, false);
    Swapped(Freezes(s), Freezes(t), p, false);
  }

  lemma StepKeeps(s: State, a: Action)
    requires Inv(s)
    ensures Inv(Step(s, a))
  {
    var t := Step(s, a);
    hide Mutations, Claimants, Freezes;
    MemberSets(s, a.p);
    if a.p in t.procs {
      PutCounts(s, a.p, t.procs[a.p], t.gate);
      assert t == s || t == Put(s, a.p, t.procs[a.p], t.gate);
    } else {
      RemoveCounts(s, a.p, t.gate);
      assert t == s || t == State(t.gate, s.procs - {a.p});
    }
  }

  lemma MemberSets(s: State, p: nat)
    ensures p in Mutations(s) <==> p in s.procs && s.procs[p].MutationLease?
    ensures p in Claimants(s) <==> p in s.procs && Claims(s.procs[p])
    ensures p in Freezes(s) <==> p in s.procs && s.procs[p].FreezeLease?
    ensures p in Mutations(s) ==> |Mutations(s)| > 0
    ensures p in Claimants(s) ==> |Claimants(s)| > 0
    ensures p in Freezes(s) ==> |Freezes(s)| > 0
  {
  }

  lemma {:induction false} RunKeeps(s: State, actions: seq<Action>)
    requires Inv(s)
    ensures Inv(Run(s, actions))
    decreases |actions|
  {
    hide Inv, Step;
    if actions != [] {
      StepKeeps(s, actions[0]);
      RunKeeps(Step(s, actions[0]), actions[1..]);
    }
  }

  lemma StartInv()
    ensures Inv(START)
  {
    assert Mutations(START) == {} && Claimants(START) == {} && Freezes(START) == {};
  }

  // ------------------------------------------------------------- theorems

  /** Over every schedule the counters are the leases and claims present. */
  lemma CountersAreExact(actions: seq<Action>)
    ensures var s := Run(START, actions);
            && s.gate.active == |Mutations(s)| && s.gate.waiters == |Claimants(s)|
            && (s.gate.freezing <==> Freezes(s) != {})
  {
    StartInv();
    RunKeeps(START, actions);
    hide Run;
  }

  /** A freeze lease excludes every mutation lease and every other freeze. */
  lemma FreezeExcludes(actions: seq<Action>, p: nat, q: nat)
    requires var s := Run(START, actions);
             p in s.procs && s.procs[p].FreezeLease? && q in s.procs && q != p
    ensures var s := Run(START, actions);
            !s.procs[q].MutationLease? && !s.procs[q].FreezeLease?
  {
    StartInv();
    RunKeeps(START, actions);
    var s := Run(START, actions);
    hide Run;
    MemberSets(s, p);
    MemberSets(s, q);
    if s.procs[q].FreezeLease? { TwoMembers(Freezes(s), p, q); }
  }

  /** While a freeze waits throughout, active mutations never grow. */
  lemma {:induction false} FreezeHasPriority(s: State, actions: seq<Action>)
    requires forall n | 0 <= n < |actions| :: Run(s, actions[..n]).gate.waiters > 0
    ensures Run(s, actions).gate.active <= s.gate.active
    decreases |actions|
  {
    if actions != [] {
      var t := Step(s, actions[0]);
      assert Run(s, actions[..0]) == s;
      forall n | 0 <= n < |actions[1..]| ensures Run(t, actions[1..][..n]).gate.waiters > 0 {
        assert actions[..n + 1][1..] == actions[1..][..n];
        assert Run(s, actions[..n + 1]) == Run(t, actions[1..][..n]);
      }
      FreezeHasPriority(t, actions[1..]);
      assert t.gate.active <= s.gate.active;
    }
  }

  /** No wake-up is lost: a waiter whose guard holds waits on a closed channel,
      so it can wake, and if nobody steps in between its next turn succeeds. */
  lemma NoLostWakeUp(actions: seq<Action>, p: nat)
    requires var s := Run(START, actions);
             && p in s.procs
             && ((s.procs[p].MutationWait? && MayMutate(s.gate)) || (s.procs[p].FreezeWait? && MayFreeze(s.gate)))
    ensures var s := Run(START, actions);
            var t := Step(Step(s, Wake(p)), Turn(p));
            p in t.procs && t.procs[p] == if s.procs[p].MutationWait? then MutationLease else FreezeLease
  {
    StartInv();
    RunKeeps(START, actions);
    var s := Run(START, actions);
    hide Run;
    assert WaitOk(s.gate, s.procs[p]);
  }

  /** Releasing a lease again, or late, changes nothing. */
  lemma ReleaseOnce(s: State, p: nat, between: seq<Action>)
    requires p in s.procs && (s.procs[p].MutationLease? || s.procs[p].FreezeLease?)
    ensures var t := Run(Step(s, Release(p)), between);
            p in t.procs && Step(t, Release(p)) == t
  {
    ReleasedStays(Step(s, Release(p)), p, between);
  }

  lemma {:induction false} ReleasedStays(s: State, p: nat, actions: seq<Action>)
    requires p in s.procs && (s.procs[p].MutationReleased? || s.procs[p].FreezeReleased?)
    ensures var t := Run(s, actions);
            p in t.procs && t.procs[p] == s.procs[p]
    decreases |actions|
  {
    if actions != [] { ReleasedStays(Step(s, actions[0]), p, actions[1..]); }
  }

  /** Once all callers are done the barrier is open again. */
  lemma BarrierReopens(actions: seq<Action>)
    requires forall p | p in Run(START, actions).procs ::
               var proc := Run(START, actions).procs[p]; proc.MutationReleased? || proc.FreezeReleased?
    ensures var g := Run(START, actions).gate;
            g.active == 0 && g.waiters == 0 && !g.freezing
  {
    StartInv();
    RunKeeps(START, actions);
    var s := Run(START, actions);
    hide Run;
    assert Mutations(s) == {} && Claimants(s) == {} && Freezes(s) == {};
  }

  lemma RunTwo(s: State, a: Action, b: Action)
    ensures Run(s, [a, b]) == Step(Step(s, a), b)
  {
    hide Step;
    assert [a, b][1..] == [b] && [b][1..] == [];
    assert Run(s, [a, b]) == Run(Step(s, a), [b]) == Run(Step(Step(s, a), b), []);
  }

  /** An open barrier admits a mutation at its first turn, and one without leases
      a freeze. */
  lemma OpenBarrierAdmits(actions: seq<Action>, p: nat)
    requires p !in Run(START, actions).procs
    ensures var s := Run(START, actions);
            var t := Run(s, [StartMutation(p), Turn(p)]);
            (forall q | q in s.procs :: !Claims(s.procs[q]) && !s.procs[q].FreezeLease?) ==>
              t.procs == s.procs[p := MutationLease] && t.gate.active == s.gate.active + 1
    ensures var s := Run(START, actions);
            var t := Run(s, [StartFreeze(p), Turn(p)]);
            (forall q | q in s.procs :: !s.procs[q].MutationLease? && !s.procs[q].FreezeLease?) ==>
              t.procs == s.procs[p := FreezeLease] && t.gate.freezing && t.gate.waiters == s.gate.waiters
  {
    var s := Run(START, actions);
    RunKeeps(START, actions);
    RunTwo(s, StartMutation(p), Turn(p));
    RunTwo(s, StartFreeze(p), Turn(p));
    hide Run;
    if forall q | q in s.procs :: !Claims(s.procs[q]) && !s.procs[q].FreezeLease? {
      assert Claimants(s) == {} && Freezes(s) == {};
    }
    if forall q | q in s.procs :: !s.procs[q].MutationLease? && !s.procs[q].FreezeLease? {
      assert Mutations(s) == {} && Freezes(s) == {};
    }
  }

  /** A waiter can give up at any time: a mutation is simply gone, a freeze gives
      back its claim; nobody else moves. */
  lemma WaitersCanLeave(s: State, p: nat)
    requires p in s.procs && (s.procs[p].MutationWait? || s.procs[p].FreezeWait?)
    ensures s.procs[p].MutationWait? ==> Step(s, Cancel(p)) == State(s.gate, s.procs - {p})
    ensures var t := Run(s, [Cancel(p), Abandon(p)]);
            t.procs == s.procs - {p} && t.gate.waiters == s.gate.waiters - (if s.procs[p].FreezeWait? then 1 else 0)
            && t.gate.active == s.gate.active && t.gate.freezing == s.gate.freezing
  {
    RunTwo(s, Cancel(p), Abandon(p));
    assert s.procs[p := FreezeCancelled] - {p} == s.procs - {p};
  }

  /** A waiter on the current channel is not woken; one on a closed channel is. */
  lemma WokenExactly(s: State, p: nat)
    requires p in s.procs && (s.procs[p].MutationWait? || s.procs[p].FreezeWait?)
    ensures Step(s, Wake(p)) != s <==> s.procs[p].channel < s.gate.changed
    ensures s.procs[p].channel < s.gate.changed ==>
              Step(s, Wake(p)) == State(s.gate, s.procs[p := if s.procs[p].MutationWait? then MutationTry else FreezeTry])
  {
    assert s.procs[p := MutationTry][p] != s.procs[p] && s.procs[p := FreezeTry][p] != s.procs[p];
  }
}

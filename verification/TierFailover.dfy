/** Automatic three-tier failover of one upstream key. Controller cycles,
    evidence rounds and the recovery at startup are one step each; cache
    refreshes and reconcile passes are split where other steps can come between.
    No manual, agent or probe action takes part, so the key's group is always one
    of the policy's three distinct groups. */
module TierFailover {
  import opened Options
  import opened Tiers
  import opened ValidationEvidence

  datatype Policy = Policy(enabled: set<Tier>, threshold: int)

  /** nextEnabledTier: the first enabled tier after the current one. */
  function NextEnabledTier(enabled: set<Tier>, current: Tier): (next: Option<Tier>)
    ensures next.Some? ==> next.value in enabled && Index(current) < Index(next.value)
    ensures next.Some? ==> forall t | t in enabled && Index(current) < Index(t) :: Index(next.value) <= Index(t)
    ensures next.None? ==> forall t | t in enabled :: Index(t) <= Index(current)
  {
    if current.Main? && Backup in enabled then Some(Backup)
    else if !current.Emergency? && Emergency in enabled then Some(Emergency)
    else None
  }

  /** The key's stored failover state. */
  datatype Record = Record(
    observed: Tier,
    status: Status,
    successes: nat,
    failures: nat,
    verified: bool,
    frozen: bool,
    transition: nat)

  /** An unresolved journal row; `called` once the state that announces its
      upstream call has been saved. */
  datatype Pending = Pending(id: nat, origin: Tier, target: Tier, called: bool)

  /** A reconcile pass over the key: the state it read, then the cached tier it
      read, then the pending rows it listed. */
  datatype Pass = Pass(base: Record, rates: Option<Tier>, listed: Option<set<nat>>)

  datatype Event = Applied(origin: Tier, target: Tier) | FailureSeen | HealthConfirmed | OutageSeen

  /** `live` is the key's real tier, `cached` the one in the rate cache, and
      `fetches` what refreshes have read and not saved yet. */
  datatype Key = Key(
    live: Tier,
    cached: Tier,
    fetches: map<nat, Tier>,
    record: Record,
    pending: Option<Pending>,
    issued: nat,
    pass: Option<Pass>,
    log: seq<Event>)

  /** How far a cycle gets once it wants to switch. `moved` tells whether the
      upstream write took effect, `resolved` whether the failed row was closed. */
  datatype Attempt =
    | CoolingDown | OverLimit | Misconfigured | Refused | DryRun
    | StoppedEarly | Stopped(moved: bool) | UnknownResult(moved: bool)
    | DefiniteError(resolved: bool) | Mismatch(moved: bool) | Succeeded

  datatype Action =
    | Cycle(ready: bool, outage: bool, attempt: Attempt)
    | Evidence(verdicts: seq<Verdict>, timedOut: bool)
    | Recover
    | Fetch(id: nat)
    | SaveFetch(id: nat)
    | PassRead
    | PassRates
    | PassList
    | PassResolve
    | PassSave
    | PassDrop

  // ------------------------------------------------------ controller cycles

  /** TransitionGroupTier from the live tier, which the cache must show. */
  function Switch(k: Key, target: Tier, attempt: Attempt): Key
  {
    if k.live != k.cached then k.(record := k.record.(status := Uncertain, observed := k.live, frozen := false))
    else if k.pending.Some? then k
    else
      var id := k.issued + 1;
      var begun := k.record.(status := Transitioning, successes := 0, failures := 0, verified := false, transition := id);
      var row := Some(Pending(id, k.live, target, true));
      match attempt
      case StoppedEarly => k.(issued := id, pending := Some(Pending(id, k.live, target, false)))
      case Stopped(moved) => k.(issued := id, record := begun, pending := row, live := if moved then target else k.live)
      case UnknownResult(moved) =>
        k.(issued := id, record := begun.(status := Uncertain), pending := row, live := if moved then target else k.live)
      case DefiniteError(resolved) =>
        k.(issued := id, record := begun.(status := ConfirmedFailed), pending := if resolved then None else row)
      case Mismatch(moved) => k.(issued := id, record := begun.(status := Uncertain), live := if moved then target else k.live)
      case Succeeded =>
        k.(issued := id, live := target,
           record := begun.(status := AwaitingEvidence, verified := true, frozen := false, observed := target),
           log := k.log + [Applied(k.live, target)])
      case _ => k
  }

  predicate Settling(s: Status)
  {
    s.Transitioning? || s.AwaitingEvidence? || s.Probing? || s.Uncertain? || s.Exhausted?
  }

  /** handleOutage for the pool's active key. */
  function HandleOutage(p: Policy, k: Key, outage: bool, attempt: Attempt): Key
  {
    var r := k.record;
    if r.frozen || Settling(r.status) || (!r.status.ConfirmedFailed? && !outage) then k
    else
      var failed := if r.status.ConfirmedFailed? then k else k.(record := r.(status := ConfirmedFailed), log := k.log + [OutageSeen]);
      var target := NextEnabledTier(p.enabled, k.cached);
      if target.None? then failed.(record := failed.record.(status := Exhausted, frozen := true))
      else match attempt
        case CoolingDown => failed
        case OverLimit => failed.(record := failed.record.(frozen := true))
        case Misconfigured => failed.(record := failed.record.(status := Uncertain))
        case Refused => failed
        case DryRun => failed
        case _ => Switch(failed, target.value, attempt)
  }

  // -------------------------------------------------------- evidence rounds

  function CountAll(t: Tally, verdicts: seq<Verdict>, threshold: int): Tally
    decreases |verdicts|
  {
    if verdicts == [] then t else CountAll(Count(t, verdicts[0], threshold), verdicts[1..], threshold)
  }

  function FailureEvents(verdicts: seq<Verdict>): seq<Event>
  {
    if verdicts == [] then []
    else (if verdicts[0].Failure? then [FailureSeen] else []) + FailureEvents(verdicts[1..])
  }

  predicate Gathers(s: Status)
  {
    s.AwaitingEvidence? || s.Probing? || s.Uncertain?
  }

  /** A round of ProcessFailoverEvidence, given the verdicts that count. */
  function Gathered(p: Policy, k: Key, verdicts: seq<Verdict>, timedOut: bool): Key
  {
    var r := k.record;
    if !r.verified || !Gathers(r.status) then k
    else
      var t := CountAll(Tally(r.status, r.successes, r.failures), verdicts, p.threshold);
      var open := !t.status.ConfirmedHealthy? && !t.status.ConfirmedFailed?;
      k.(record := r.(status := if open && timedOut then Uncertain else t.status, successes := t.successes, failures := t.failures),
         log := k.log + FailureEvents(verdicts) + if t.status.ConfirmedHealthy? then [HealthConfirmed] else [])
  }

  // ----------------------------------------------- recovery and reconcile pass

  /** The state after a readback confirmed the row's target. */
  function Confirmed(r: Record, row: Pending): Record
  {
    var tracked := r.status.Transitioning? && r.transition == row.id;
    r.(observed := row.target, status := if tracked then AwaitingEvidence else Uncertain, verified := r.verified || tracked)
  }

  /** recoverGroupTransition reads the upstream itself. */
  function Recovered(k: Key): Key
  {
    if k.pending.None? then k
    else
      var row := k.pending.value;
      if k.live != row.target then k.(pending := None)
      else k.(pending := None, record := Confirmed(k.record, row).(frozen := false), log := k.log + [Applied(row.origin, row.target)])
  }

  /** The pass resolves a listed row by the tier it read, writing its own copy. */
  function PassResolved(k: Key): Key
  {
    if k.pass.None? || k.pass.value.listed.None? || k.pass.value.rates.None? || k.pending.None? then k
    else
      var q, row := k.pass.value, k.pending.value;
      if row.id !in q.listed.value then k
      else if q.rates.value != row.target then k.(pending := None)
      else
        var base := Confirmed(q.base, row);
        k.(pending := None, record := base, pass := Some(q.(base := base)), log := k.log + [Applied(row.origin, row.target)])
  }

  /** The pass ends by saving its copy, whatever has been stored meanwhile. */
  function PassSaved(k: Key): Key
  {
    if k.pass.None? || k.pass.value.listed.None? || k.pass.value.rates.None? then k
    else
      var base, rates := k.pass.value.base, k.pass.value.rates.value;
      k.(pass := None,
         record := if base.observed != rates then base.(status := Uncertain, observed := rates, frozen := false)
                   else base.(frozen := false))
  }

  function Step(p: Policy, k: Key, a: Action): Key
  {
    match a
    case Cycle(ready, outage, attempt) => if ready then HandleOutage(p, k, outage, attempt) else k
    case Evidence(verdicts, timedOut) => Gathered(p, k, verdicts, timedOut)
    case Recover => Recovered(k)
    case Fetch(id) => k.(fetches := k.fetches[id := k.live])
    case SaveFetch(id) => if id in k.fetches then k.(cached := k.fetches[id], fetches := k.fetches - {id}) else k
    case PassRead => if k.pass.None? then k.(pass := Some(Pass(k.record, None, None))) else k
    case PassRates =>
      if k.pass.Some? && k.pass.value.rates.None? then k.(pass := Some(k.pass.value.(rates := Some(k.cached)))) else k
    case PassList =>
      if k.pass.Some? && k.pass.value.rates.Some? && k.pass.value.listed.None?
      then k.(pass := Some(k.pass.value.(listed := Some(if k.pending.Some? then {k.pending.value.id} else {}))))
      else k
    case PassResolve => PassResolved(k)
    case PassSave => PassSaved(k)
    case PassDrop => k.(pass := None)
  }

  function Run(p: Policy, k: Key, actions: seq<Action>): Key
    decreases |actions|
  {
    if actions == [] then k else Run(p, Step(p, k, actions[0]), actions[1..])
  }

  /** Steps other than those of a reconcile pass. */
  predicate Quiet(actions: seq<Action>)
  {
    forall a | a in actions :: QuietAction(a)
  }

  predicate QuietAction(a: Action)
  {
    a.Cycle? || a.Evidence? || a.Recover? || a.Fetch? || a.SaveFetch?
  }

  /** Any key without an unresolved row, with nothing in flight, and with a cache
      that is not ahead of it. */
  predicate Initial(k: Key)
  {
    && k.pending.None? && k.pass.None? && k.fetches == map[] && k.log == []
    && Index(k.cached) <= Index(k.live) && Announced(k.record)
  }

  /** A state in transition has not been verified and has counted nothing. */
  predicate Announced(r: Record)
  {
    r.status.Transitioning? ==> !r.verified && r.failures == 0
  }

  // -------------------------------------------------------- reading the log

  function Switches(log: seq<Event>): nat
  {
    if log == [] then 0 else Switches(log[..|log| - 1]) + if log[|log| - 1].Applied? then 1 else 0
  }

  /** Post-switch failures: those since the last applied switch. */
  function FailuresSince(log: seq<Event>): nat
  {
    if log == [] || log[|log| - 1].Applied? then 0
    else FailuresSince(log[..|log| - 1]) + if log[|log| - 1].FailureSeen? then 1 else 0
  }

  predicate HealthySince(log: seq<Event>)
  {
    log != [] && !log[|log| - 1].Applied? && (log[|log| - 1].HealthConfirmed? || HealthySince(log[..|log| - 1]))
  }

  /** Since the last switch the key was confirmed healthy and then its pool went out. */
  predicate Relapsed(log: seq<Event>)
  {
    && log != [] && !log[|log| - 1].Applied?
    && ((log[|log| - 1].OutageSeen? && HealthySince(log[..|log| - 1])) || Relapsed(log[..|log| - 1]))
  }

  /** The reason a further switch needs, once there has been one. */
  predicate Cause(threshold: int, log: seq<Event>)
  {
    Switches(log) == 0 || FailuresSince(log) >= threshold || Relapsed(log)
  }

  /** Every applied switch but the first had a cause. */
  predicate Caused(threshold: int, log: seq<Event>)
  {
    forall n | 0 <= n < |log| :: log[n].Applied? ==> Cause(threshold, log[..n])
  }

  /** Where the last applied switch led. */
  function LastTarget(log: seq<Event>): Option<Tier>
  {
    if log == [] then None
    else if log[|log| - 1].Applied? then Some(log[|log| - 1].target)
    else LastTarget(log[..|log| - 1])
  }

  predicate NotBelow(log: seq<Event>, t: Tier)
  {
    LastTarget(log).Some? ==> Index(LastTarget(log).value) <= Index(t)
  }

  /** Each applied switch climbs, and starts no lower than the last one ended. */
  predicate Climbs(before: seq<Event>, e: Event)
  {
    e.Applied? ==> Index(e.origin) < Index(e.target) && NotBelow(before, e.origin)
  }

  predicate Escalating(log: seq<Event>)
  {
    forall n | 0 <= n < |log| :: Climbs(log[..n], log[n])
  }
}

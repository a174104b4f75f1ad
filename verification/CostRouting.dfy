/** Cost routing: which accounts stand by because a cheaper source of their pool
    serves. Rates are reals; a missing target stands for the largest float. */
module CostRouting {
  import opened Options
  import Text

  datatype Control = Control(healthLocked: bool, balanceLocked: bool, manualLocked: bool, ownsPause: bool)

  /** `fit` is an active account without an error; a control that failed to load is missing. */
  datatype Account = Account(id: int, url: string, fit: bool, schedulable: bool, control: Option<Control>)

  datatype Source = Source(
    id: int,
    url: string,
    pool: string,
    enabled: bool,
    routing: bool,
    rate: real,
    balance: Option<real>,
    recent: bool,
    balanceLocked: bool,
    pauseBelow: real,
    resumeAt: real,
    recoveryStreak: int)

  datatype Lock = Lock(source: int, account: int, pool: string, rate: real)

  datatype Item = Item(source: Source, accounts: seq<Account>, available: bool, activationReady: bool, serving: bool)

  /** What one pass reads. */
  datatype Input = Input(sources: seq<Source>, accounts: seq<Account>, locks: seq<Lock>)

  // ------------------------------------------------------- one source's item

  predicate Locked(locks: seq<Lock>, account: int)
  {
    exists l | l in locks :: l.account == account
  }

  predicate Healthy(a: Account)
  {
    a.fit && a.control.Some? && !a.control.value.healthLocked && !a.control.value.balanceLocked && !a.control.value.manualLocked
  }

  /** The account takes traffic now. */
  predicate Serves(locks: seq<Lock>, a: Account)
  {
    Healthy(a) && a.schedulable && !Locked(locks, a.id)
  }

  predicate Usable(locks: seq<Lock>, a: Account)
  {
    Healthy(a) && (a.schedulable || (a.control.value.ownsPause && Locked(locks, a.id)))
  }

  function AccountsOf(accounts: seq<Account>, url: string): seq<Account>
  {
    if accounts == [] then []
    else (if accounts[0].url == url then [accounts[0]] else []) + AccountsOf(accounts[1..], url)
  }

  predicate AnyServes(locks: seq<Lock>, accounts: seq<Account>)
  {
    exists a | a in accounts :: Serves(locks, a)
  }

  predicate AnyUsable(locks: seq<Lock>, accounts: seq<Account>)
  {
    exists a | a in accounts :: Usable(locks, a)
  }

  function ItemOf(i: Input, s: Source): Item
  {
    var accounts := AccountsOf(i.accounts, s.url);
    var available := s.rate > 0.0 && accounts != [] && s.balance.Some? && s.recent && !s.balanceLocked && AnyUsable(i.locks, accounts);
    Item(s, accounts, available, available && s.balance.value >= s.resumeAt && s.recoveryStreak >= 2, AnyServes(i.locks, accounts))
  }

  function PoolOf(s: Source): string
  {
    if s.enabled && s.routing then Text.Trim(s.pool) else ""
  }

  function PoolItems(i: Input, sources: seq<Source>, pool: string): seq<Item>
  {
    if sources == [] then []
    else PoolItems(i, sources[..|sources| - 1], pool) +
         if PoolOf(sources[|sources| - 1]) == pool then [ItemOf(i, sources[|sources| - 1])] else []
  }

  // --------------------------------------------------------- a pool's target

  predicate SameRate(a: real, b: real)
  {
    (if a >= b then a - b else b - a) < 0.000001
  }

  predicate AnyHealthyServing(items: seq<Item>)
  {
    exists it | it in items :: it.serving && it.available
  }

  /** The sources a pool may route to: while a healthy one serves, that one or a
      source ready for activation; otherwise any that can still pay. */
  predicate Candidate(healthy: bool, it: Item)
  {
    it.available && if healthy then it.serving || it.activationReady
                    else it.source.balance.Some? && it.source.balance.value >= it.source.pauseBelow
  }

  /** The target is the lowest rate among the candidates. */
  ghost predicate IsTarget(items: seq<Item>, target: Option<real>)
  {
    var healthy := AnyHealthyServing(items);
    match target
    case None => forall it | it in items :: !Candidate(healthy, it)
    case Some(r) =>
      && (exists it | it in items :: Candidate(healthy, it) && it.source.rate == r)
      && (forall it | it in items && Candidate(healthy, it) :: r <= it.source.rate)
  }

  lemma TargetUnique(items: seq<Item>, a: Option<real>, b: Option<real>)
    requires IsTarget(items, a) && IsTarget(items, b)
    ensures a == b
  {
  }

  predicate ServingAt(items: seq<Item>, rate: real)
  {
    exists it | it in items :: SameRate(it.source.rate, rate) && it.serving
  }

  predicate Lists(it: Item, account: int)
  {
    exists a | a in it.accounts :: a.id == account
  }

  predicate AtRate(items: seq<Item>, rate: real, account: int)
  {
    exists it | it in items :: SameRate(it.source.rate, rate) && Lists(it, account)
  }

  predicate OffRate(items: seq<Item>, rate: real, account: int)
  {
    exists it | it in items :: !SameRate(it.source.rate, rate) && Lists(it, account)
  }

  /** A lock of this pool whose source is still one of the pool's. */
  predicate KeepsLock(items: seq<Item>, pool: string, locks: seq<Lock>, account: int)
  {
    exists l | l in locks :: l.account == account && PoolLock(items, pool, l)
  }

  predicate PoolLock(items: seq<Item>, pool: string, l: Lock)
  {
    l.pool == pool && exists it | it in items :: it.source.id == l.source
  }

  /** Whether a pool wants an account locked, given its target. */
  ghost predicate PoolWants(items: seq<Item>, pool: string, locks: seq<Lock>, target: Option<real>, account: int)
  {
    if target.None? then KeepsLock(items, pool, locks, account)
    else if !ServingAt(items, target.value) then
      KeepsLock(items, pool, locks, account) && !AtRate(items, target.value, account)
    else OffRate(items, target.value, account)
  }

  /** Whether a pool wants an account locked, whatever its target is. */
  ghost predicate PoolLocks(items: seq<Item>, pool: string, locks: seq<Lock>, account: int)
  {
    exists target :: IsTarget(items, target) && PoolWants(items, pool, locks, target, account)
  }

  /** The lock a pool may put on an account: one it keeps, or one that names the
      account's source, the pool and the source's rate. */
  predicate Fits(items: seq<Item>, pool: string, locks: seq<Lock>, account: int, l: Lock)
  {
    && l.account == account
    && ((l in locks && PoolLock(items, pool, l)) || exists it | it in items :: Lists(it, account) && l == Lock(it.source.id, account, pool, it.source.rate))
  }

  ghost predicate FitsSomePool(i: Input, account: int, l: Lock)
  {
    exists pool :: pool != "" && Fits(PoolItems(i, i.sources, pool), pool, i.locks, account, l)
  }

  /** The pool writes only fitting locks over those of other pools. */
  ghost predicate Written(items: seq<Item>, pool: string, locks: seq<Lock>, before: map<int, Lock>, desired: map<int, Lock>)
  {
    forall a | a in desired :: (a in before && desired[a] == before[a]) || Fits(items, pool, locks, a, desired[a])
  }

  /** Whether the pass wants an account locked. */
  ghost predicate Wants(i: Input, account: int)
  {
    exists pool, target :: WantsIn(i, pool, target, account)
  }

  ghost predicate WantsIn(i: Input, pool: string, target: Option<real>, account: int)
  {
    var items := PoolItems(i, i.sources, pool);
    pool != "" && items != [] && IsTarget(items, target) && PoolWants(items, pool, i.locks, target, account)
  }

  // -------------------------------------------------------- implementation

  method BuildItem(i: Input, s: Source) returns (item: Item)
    ensures item == ItemOf(i, s)
  {
    var accounts: seq<Account> := [];
    var serving := false;
    for n := 0 to |i.accounts|
      invariant accounts + AccountsOf(i.accounts[n..], s.url) == AccountsOf(i.accounts, s.url)
      invariant serving == AnyServes(i.locks, accounts)
    {
      assert i.accounts[n..][1..] == i.accounts[n + 1..];
      if i.accounts[n].url == s.url {
        AnyAppend(i.locks, accounts, i.accounts[n]);
        accounts := accounts + [i.accounts[n]];
        if Serves(i.locks, i.accounts[n]) {
          serving := true;
        }
      }
    }
    assert i.accounts[|i.accounts|..] == [];
    var available := s.rate > 0.0 && |accounts| > 0 && s.balance.Some? && s.recent && !s.balanceLocked;
    if available {
      var usable := false;
      for n := 0 to |accounts|
        invariant forall k | 0 <= k < n :: !Usable(i.locks, accounts[k])
        invariant !usable
      {
        if Usable(i.locks, accounts[n]) {
          usable := true;
          break;
        }
      }
      assert usable == AnyUsable(i.locks, accounts);
      available := usable;
    }
    var ready := available && s.balance.Some? && s.balance.value >= s.resumeAt && s.recoveryStreak >= 2;
    item := Item(s, accounts, available, ready, serving);
  }

  lemma AnyAppend(locks: seq<Lock>, accounts: seq<Account>, a: Account)
    ensures AnyServes(locks, accounts + [a]) <==> AnyServes(locks, accounts) || Serves(locks, a)
  {
    if AnyServes(locks, accounts) {
      var x :| x in accounts && Serves(locks, x);
      assert x in accounts + [a];
    }
    assert a in accounts + [a];
  }

  /** The pools in no particular order, each with its items in source order. */
  method BuildPools(i: Input) returns (pools: map<string, seq<Item>>)
    ensures forall pool :: pool in pools <==> pool != "" && PoolItems(i, i.sources, pool) != []
    ensures forall pool | pool in pools :: pools[pool] == PoolItems(i, i.sources, pool)
  {
    pools := map[];
    for n := 0 to |i.sources|
      invariant forall pool :: pool in pools <==> pool != "" && PoolItems(i, i.sources[..n], pool) != []
      invariant forall pool | pool in pools :: pools[pool] == PoolItems(i, i.sources[..n], pool)
    {
      var s := i.sources[n];
      assert i.sources[..n + 1][..n] == i.sources[..n];
      var pool := PoolOf(s);
      if pool != "" {
        var item := BuildItem(i, s);
        pools := pools[pool := (if pool in pools then pools[pool] else []) + [item]];
      }
    }
    assert i.sources[..|i.sources|] == i.sources;
  }

  method TargetRate(items: seq<Item>) returns (target: Option<real>)
    ensures IsTarget(items, target)
  {
    var current: Option<real> := None;
    for n := 0 to |items|
      invariant current.None? ==> forall k | 0 <= k < n :: !(items[k].serving && items[k].available)
      invariant current.Some? ==>
                  && (exists k | 0 <= k < n :: items[k].serving && items[k].available && items[k].source.rate == current.value)
                  && (forall k | 0 <= k < n :: items[k].serving && items[k].available ==> current.value <= items[k].source.rate)
    {
      var it := items[n];
      if it.serving && it.available && (current.None? || it.source.rate < current.value) {
        current := Some(it.source.rate);
      }
    }
    assert current.Some? <==> AnyHealthyServing(items);
    target := current;
    var healthy := current.Some?;
    for n := 0 to |items|
      invariant target.None? ==> !healthy && forall k | 0 <= k < n :: !Candidate(healthy, items[k])
      invariant target.Some? ==> exists it | it in items :: Candidate(healthy, it) && it.source.rate == target.value
      invariant target.Some? ==> forall k | 0 <= k < n :: Candidate(healthy, items[k]) ==> target.value <= items[k].source.rate
      invariant healthy ==> target.Some? && target.value <= current.value
    {
      var it := items[n];
      var eligible := if healthy then it.available && it.activationReady
                      else it.available && it.source.balance.Some? && it.source.balance.value >= it.source.pauseBelow;
      if eligible && (target.None? || it.source.rate < target.value) {
        target := Some(it.source.rate);
      }
    }
  }

  lemma LocksAtTarget(items: seq<Item>, pool: string, locks: seq<Lock>, target: Option<real>, account: int)
    requires IsTarget(items, target)
    ensures PoolLocks(items, pool, locks, account) <==> PoolWants(items, pool, locks, target, account)
  {
    hide PoolWants, IsTarget;
    if PoolLocks(items, pool, locks, account) {
      var t :| IsTarget(items, t) && PoolWants(items, pool, locks, t, account);
      TargetUnique(items, t, target);
    }
  }

  /** One pool's contribution to the desired locks. */
  method RoutePool(i: Input, pool: string, items: seq<Item>, before: map<int, Lock>) returns (desired: map<int, Lock>)
    ensures forall a :: a in desired <==> a in before || PoolLocks(items, pool, i.locks, a)
    ensures Written(items, pool, i.locks, before, desired)
  {
    var t := TargetRate(items);
    desired := before;
    forall a ensures PoolLocks(items, pool, i.locks, a) <==> PoolWants(items, pool, i.locks, t, a) {
      LocksAtTarget(items, pool, i.locks, t, a);
    }
    if t.None? {
      desired := KeepLocks(i, pool, items, None, desired);
      return;
    }
    var targetServing := false;
    for n := 0 to |items|
      invariant forall k | 0 <= k < n :: !(SameRate(items[k].source.rate, t.value) && items[k].serving)
      invariant !targetServing
    {
      if SameRate(items[n].source.rate, t.value) && items[n].serving {
        targetServing := true;
        break;
      }
    }
    assert targetServing == ServingAt(items, t.value);
    if !targetServing {
      desired := KeepLocks(i, pool, items, t, desired);
    } else {
      desired := LockOffRate(i, pool, items, t.value, desired);
    }
  }

  ghost predicate Kept(items: seq<Item>, pool: string, rate: Option<real>, l: Lock)
  {
    PoolLock(items, pool, l) && (rate.Some? ==> !AtRate(items, rate.value, l.account))
  }

  /** Keeps the pool's locks, except those of accounts at the rate to activate. */
  method KeepLocks(i: Input, pool: string, items: seq<Item>, rate: Option<real>, before: map<int, Lock>) returns (desired: map<int, Lock>)
    ensures forall a :: a in desired <==> a in before || (exists l | l in i.locks :: l.account == a && Kept(items, pool, rate, l))
    ensures Written(items, pool, i.locks, before, desired)
  {
    desired := before;
    for n := 0 to |i.locks|
      invariant forall a :: a in desired <==> a in before || (exists k | 0 <= k < n :: i.locks[k].account == a && Kept(items, pool, rate, i.locks[k]))
      invariant Written(items, pool, i.locks, before, desired)
    {
      var l := i.locks[n];
      if PoolLock(items, pool, l) && !(rate.Some? && AtRate(items, rate.value, l.account)) {
        desired := desired[l.account := l];
      }
    }
  }

  /** Locks every account of the sources that are not at the target rate. */
  method LockOffRate(i: Input, pool: string, items: seq<Item>, rate: real, before: map<int, Lock>) returns (desired: map<int, Lock>)
    ensures forall a :: a in desired <==> a in before || OffRate(items, rate, a)
    ensures Written(items, pool, i.locks, before, desired)
  {
    desired := before;
    for n := 0 to |items|
      invariant forall a :: a in desired <==> a in before || (exists k | 0 <= k < n :: !SameRate(items[k].source.rate, rate) && Lists(items[k], a))
      invariant Written(items, pool, i.locks, before, desired)
    {
      var it := items[n];
      if !SameRate(it.source.rate, rate) {
        var held := desired;
        for m := 0 to |it.accounts|
          invariant forall a :: a in desired <==> a in held || (exists k | 0 <= k < m :: it.accounts[k].id == a)
          invariant Written(items, pool, i.locks, before, desired)
        {
          assert it in items && it.accounts[m] in it.accounts;
          desired := desired[it.accounts[m].id := Lock(it.source.id, it.accounts[m].id, pool, it.source.rate)];
        }
      }
    }
  }

  lemma SomePool(s: set<string>)
    ensures |s| > 0 ==> exists k :: k in s
  {
    if forall k :: k !in s {
      assert forall k | k in s :: k in {};
      assert s <= {};
    }
  }

  /** reconcileCostRouting: the accounts it wants locked, whatever the order in
      which the pools are visited. */
  method ReconcileCostRouting(i: Input) returns (desired: map<int, Lock>)
    ensures forall a :: a in desired <==> Wants(i, a)
    ensures forall a | a in desired :: FitsSomePool(i, a, desired[a])
  {
    var pools := BuildPools(i);
    desired := map[];
    var rest := pools.Keys;
    while |rest| > 0
      invariant rest <= pools.Keys
      invariant forall a :: a in desired <==> exists pool, target :: pool !in rest && WantsIn(i, pool, target, a)
      invariant forall a | a in desired :: FitsSomePool(i, a, desired[a])
      decreases |rest|
    {
      SomePool(rest);
      var pool :| pool in rest;
      var before := desired;
      desired := RoutePool(i, pool, pools[pool], before);
      forall a ensures a in desired <==> exists p, t :: p !in rest - {pool} && WantsIn(i, p, t, a) {
        OnePool(i, rest, pool, a);
      }
      rest := rest - {pool};
    }
    forall a ensures a in desired <==> Wants(i, a) {
      if Wants(i, a) {
        var pool, target :| WantsIn(i, pool, target, a);
        assert pool !in rest;
      }
    }
  }

  lemma OnePool(i: Input, rest: set<string>, pool: string, a: int)
    requires pool in rest && pool != "" && PoolItems(i, i.sources, pool) != []
    ensures (exists p, t :: p !in rest - {pool} && WantsIn(i, p, t, a))
       <==> (exists p, t :: p !in rest && WantsIn(i, p, t, a)) || PoolLocks(PoolItems(i, i.sources, pool), pool, i.locks, a)
  {
    hide PoolWants, IsTarget;
    if PoolLocks(PoolItems(i, i.sources, pool), pool, i.locks, a) {
      var t :| IsTarget(PoolItems(i, i.sources, pool), t) && PoolWants(PoolItems(i, i.sources, pool), pool, i.locks, t, a);
      assert WantsIn(i, pool, t, a);
    }
    if exists p, t :: p !in rest - {pool} && WantsIn(i, p, t, a) {
      var p, t :| p !in rest - {pool} && WantsIn(i, p, t, a);
      assert p == pool ==> PoolLocks(PoolItems(i, i.sources, pool), pool, i.locks, a);
    }
  }
}

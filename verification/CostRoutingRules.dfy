/** What cost routing locks, in terms of the sources, accounts, controls and
    locks that a pass reads. */
module CostRoutingRules {
  import opened Options
  import opened CostRouting
  import Text

  /** The account takes traffic now. */
  ghost predicate Carries(i: Input, a: Account)
  {
    && a in i.accounts && a.fit && a.schedulable && a.control.Some?
    && !(a.control.value.healthLocked || a.control.value.balanceLocked || a.control.value.manualLocked)
    && forall l | l in i.locks :: l.account != a.id
  }

  /** The account takes traffic, or would if its cost pause were lifted. */
  ghost predicate CouldCarry(i: Input, a: Account)
  {
    && a in i.accounts && a.fit && a.control.Some?
    && !(a.control.value.healthLocked || a.control.value.balanceLocked || a.control.value.manualLocked)
    && (a.schedulable || (a.control.value.ownsPause && exists l | l in i.locks :: l.account == a.id))
  }

  ghost predicate Serving(i: Input, s: Source)
  {
    exists a | Carries(i, a) :: a.url == s.url
  }

  ghost predicate Available(i: Input, s: Source)
  {
    && s.rate > 0.0 && s.balance.Some? && s.recent && !s.balanceLocked
    && exists a | CouldCarry(i, a) :: a.url == s.url
  }

  ghost predicate Feeds(i: Input, s: Source, account: int)
  {
    exists a | a in i.accounts :: a.url == s.url && a.id == account
  }

  ghost predicate Routed(i: Input, pool: string, s: Source)
  {
    s in i.sources && s.enabled && s.routing && Text.Trim(s.pool) == pool != ""
  }

  ghost predicate SomeServing(i: Input, pool: string)
  {
    exists s | Routed(i, pool, s) :: Serving(i, s) && Available(i, s)
  }

  /** The sources a pool may route to: while an available one serves, that one or
      one with balance and streak to take over; otherwise any that can still pay. */
  ghost predicate Choice(i: Input, pool: string, s: Source)
  {
    && Routed(i, pool, s) && Available(i, s)
    && if SomeServing(i, pool) then Serving(i, s) || (s.balance.value >= s.resumeAt && s.recoveryStreak >= 2)
       else s.balance.value >= s.pauseBelow
  }

  ghost predicate Cheapest(i: Input, pool: string, rate: real)
  {
    && (exists s | Choice(i, pool, s) :: s.rate == rate)
    && (forall s | Choice(i, pool, s) :: rate <= s.rate)
  }

  predicate Near(s: Source, rate: real)
  {
    -0.000001 < s.rate - rate < 0.000001
  }

  /** A lock of the pool whose source is still routed there. */
  ghost predicate Current(i: Input, pool: string, l: Lock)
  {
    l in i.locks && l.pool == pool && exists s | Routed(i, pool, s) :: s.id == l.source
  }

  ghost predicate HasCurrent(i: Input, pool: string, account: int)
  {
    exists l | Current(i, pool, l) :: l.account == account
  }

  /** Some source of the pool at the rate serves. */
  ghost predicate RateServes(i: Input, pool: string, rate: real)
  {
    exists s | Routed(i, pool, s) :: Near(s, rate) && Serving(i, s)
  }

  ghost predicate FedAt(i: Input, pool: string, rate: real, account: int)
  {
    exists s | Routed(i, pool, s) :: Near(s, rate) && Feeds(i, s, account)
  }

  ghost predicate FedOff(i: Input, pool: string, rate: real, account: int)
  {
    exists s | Routed(i, pool, s) :: !Near(s, rate) && Feeds(i, s, account)
  }

  /** The locks a pool asks for: its current ones while nothing can be chosen;
      those not in the way while the cheapest rate does not serve yet; and once it
      serves, every account that a source off that rate feeds. */
  ghost predicate AsksFor(i: Input, pool: string, account: int)
  {
    if forall s :: !Choice(i, pool, s) then HasCurrent(i, pool, account)
    else exists rate | Cheapest(i, pool, rate) ::
      if RateServes(i, pool, rate) then FedOff(i, pool, rate, account)
      else HasCurrent(i, pool, account) && !FedAt(i, pool, rate, account)
  }

  // ------------------------------------------------------------------ items

  lemma {:induction false} AccountsMean(accounts: seq<Account>, url: string, a: Account)
    ensures a in AccountsOf(accounts, url) <==> a in accounts && a.url == url
  {
    if accounts != [] {
      AccountsMean(accounts[1..], url, a);
      assert accounts == [accounts[0]] + accounts[1..];
    }
  }

  lemma AccountMeans(i: Input, a: Account)
    requires a in i.accounts
    ensures Serves(i.locks, a) <==> Carries(i, a)
    ensures Usable(i.locks, a) <==> CouldCarry(i, a)
  {
  }

  lemma AnyMeans(i: Input, url: string)
    ensures AnyServes(i.locks, AccountsOf(i.accounts, url)) <==> exists a | Carries(i, a) :: a.url == url
    ensures AnyUsable(i.locks, AccountsOf(i.accounts, url)) <==> exists a | CouldCarry(i, a) :: a.url == url
  {
    var accounts := AccountsOf(i.accounts, url);
    forall a ensures a in accounts <==> a in i.accounts && a.url == url { AccountsMean(i.accounts, url, a); }
    forall a | a in accounts ensures (Serves(i.locks, a) <==> Carries(i, a)) && (Usable(i.locks, a) <==> CouldCarry(i, a)) {
      AccountMeans(i, a);
    }
    forall a ensures (Carries(i, a) ==> a in i.accounts) && (CouldCarry(i, a) ==> a in i.accounts) {}
    hide Serves, Usable, Carries, CouldCarry, AccountsOf;
  }

  lemma ItemMeans(i: Input, s: Source)
    ensures var it := ItemOf(i, s);
            && it.source == s && (it.serving <==> Serving(i, s)) && (it.available <==> Available(i, s))
            && (it.activationReady <==> Available(i, s) && s.balance.value >= s.resumeAt && s.recoveryStreak >= 2)
    ensures forall account :: Lists(ItemOf(i, s), account) <==> Feeds(i, s, account)
  {
    AnyMeans(i, s.url);
    forall a ensures a in AccountsOf(i.accounts, s.url) <==> a in i.accounts && a.url == s.url { AccountsMean(i.accounts, s.url, a); }
    hide AnyServes, AccountsOf, Carries, CouldCarry, Usable;
    if AnyUsable(i.locks, AccountsOf(i.accounts, s.url)) {
      var a :| a in AccountsOf(i.accounts, s.url) && Usable(i.locks, a);
      assert AccountsOf(i.accounts, s.url) != [];
    }
    hide AnyUsable;
  }

  lemma ItemAccounts(i: Input, s: Source)
    ensures forall a :: a in ItemOf(i, s).accounts <==> a in i.accounts && a.url == s.url
  {
    forall a ensures a in AccountsOf(i.accounts, s.url) <==> a in i.accounts && a.url == s.url { AccountsMean(i.accounts, s.url, a); }
    hide AccountsOf, AnyServes, AnyUsable;
  }

  lemma {:induction false} PoolMeans(i: Input, sources: seq<Source>, pool: string, it: Item)
    ensures it in PoolItems(i, sources, pool) <==> exists s | s in sources :: PoolOf(s) == pool && it == ItemOf(i, s)
  {
    hide ItemOf, PoolOf;
    if sources != [] {
      var init, last := sources[..|sources| - 1], sources[|sources| - 1];
      PoolMeans(i, init, pool, it);
      assert sources == init + [last];
    }
  }

  // --------------------------------------------------------------- the pool

  /** What the items of a pool say of its sources. */
  lemma PoolSources(i: Input, pool: string)
    requires pool != ""
    ensures forall it :: it in PoolItems(i, i.sources, pool) <==> exists s :: Routed(i, pool, s) && it == ItemOf(i, s)
  {
    forall it ensures it in PoolItems(i, i.sources, pool) <==> exists s :: Routed(i, pool, s) && it == ItemOf(i, s) {
      PoolMeans(i, i.sources, pool, it);
      forall s ensures Routed(i, pool, s) <==> s in i.sources && PoolOf(s) == pool {}
      hide PoolItems, ItemOf, PoolOf, Routed;
    }
  }

  lemma ChoiceMeans(i: Input, pool: string, s: Source)
    requires pool != ""
    ensures Routed(i, pool, s) ==> (Candidate(AnyHealthyServing(PoolItems(i, i.sources, pool)), ItemOf(i, s)) <==> Choice(i, pool, s))
  {
    ItemMeans(i, s);
    HealthyMeans(i, pool);
    hide ItemOf, PoolItems, AnyHealthyServing, Available, Serving, SomeServing, Routed, Feeds, Lists;
  }

  lemma HealthyMeans(i: Input, pool: string)
    requires pool != ""
    ensures AnyHealthyServing(PoolItems(i, i.sources, pool)) <==> SomeServing(i, pool)
  {
    PoolSources(i, pool);
    forall s ensures (ItemOf(i, s).serving <==> Serving(i, s)) && (ItemOf(i, s).available <==> Available(i, s)) { ItemMeans(i, s); }
    hide ItemOf, PoolItems, Available, Serving, Routed;
    if SomeServing(i, pool) {
      var s :| Routed(i, pool, s) && Serving(i, s) && Available(i, s);
      assert ItemOf(i, s) in PoolItems(i, i.sources, pool);
    }
  }

  lemma TargetMeans(i: Input, pool: string, target: Option<real>)
    requires pool != ""
    ensures IsTarget(PoolItems(i, i.sources, pool), target)
       <==> if target.None? then forall s :: !Choice(i, pool, s) else Cheapest(i, pool, target.value)
  {
    PoolSources(i, pool);
    forall s ensures Routed(i, pool, s) ==> (Candidate(AnyHealthyServing(PoolItems(i, i.sources, pool)), ItemOf(i, s)) <==> Choice(i, pool, s)) {
      ChoiceMeans(i, pool, s);
    }
    forall s ensures ItemOf(i, s).source == s && (Choice(i, pool, s) ==> Routed(i, pool, s)) { ItemMeans(i, s); }
    hide ItemOf, PoolItems, Choice, Routed, Candidate, AnyHealthyServing;
    var items := PoolItems(i, i.sources, pool);
    forall s | Routed(i, pool, s) ensures ItemOf(i, s) in items {}
  }

  lemma WantsMeans(i: Input, pool: string, target: Option<real>, account: int)
    requires pool != ""
    ensures PoolWants(PoolItems(i, i.sources, pool), pool, i.locks, target, account)
       <==> if target.None? then HasCurrent(i, pool, account)
            else if RateServes(i, pool, target.value) then FedOff(i, pool, target.value, account)
            else HasCurrent(i, pool, account) && !FedAt(i, pool, target.value, account)
  {
    CurrentMeans(i, pool);
    if target.Some? { RatesMean(i, pool, target.value, account); }
    hide PoolItems, PoolLock, Current, ServingAt, AtRate, OffRate, RateServes, FedAt, FedOff;
    var items := PoolItems(i, i.sources, pool);
    assert KeepsLock(items, pool, i.locks, account) <==> HasCurrent(i, pool, account);
  }

  lemma CurrentMeans(i: Input, pool: string)
    requires pool != ""
    ensures forall l :: l in i.locks && PoolLock(PoolItems(i, i.sources, pool), pool, l) <==> Current(i, pool, l)
  {
    PoolSources(i, pool);
    forall s ensures ItemOf(i, s).source == s { ItemMeans(i, s); }
    hide ItemOf, PoolItems, Routed;
    forall s | Routed(i, pool, s) ensures ItemOf(i, s) in PoolItems(i, i.sources, pool) {}
  }

  lemma RatesMean(i: Input, pool: string, rate: real, account: int)
    requires pool != ""
    ensures var items := PoolItems(i, i.sources, pool);
            && (ServingAt(items, rate) <==> RateServes(i, pool, rate))
            && (AtRate(items, rate, account) <==> FedAt(i, pool, rate, account))
            && (OffRate(items, rate, account) <==> FedOff(i, pool, rate, account))
  {
    PoolSources(i, pool);
    forall s ensures ItemOf(i, s).source == s && (ItemOf(i, s).serving <==> Serving(i, s)) && (Lists(ItemOf(i, s), account) <==> Feeds(i, s, account)) {
      ItemMeans(i, s);
    }
    forall s: Source ensures SameRate(s.rate, rate) <==> Near(s, rate) {}
    hide ItemOf, PoolItems, Routed, Lists, Feeds, Serving, SameRate, Near;
    forall s | Routed(i, pool, s) ensures ItemOf(i, s) in PoolItems(i, i.sources, pool) {}
  }

  /** The accounts that cost routing wants locked are exactly those that some pool
      asks for. */
  lemma WantsExactly(i: Input, account: int)
    ensures Wants(i, account) <==> exists pool :: pool != "" && AsksFor(i, pool, account)
  {
    if Wants(i, account) {
      var pool, target :| WantsIn(i, pool, target, account);
      WantedIsAskedFor(i, pool, target, account);
    }
    if pool :| pool != "" && AsksFor(i, pool, account) {
      AskedForIsWanted(i, pool, account);
    }
  }

  lemma WantedIsAskedFor(i: Input, pool: string, target: Option<real>, account: int)
    requires WantsIn(i, pool, target, account)
    ensures AsksFor(i, pool, account)
  {
    TargetMeans(i, pool, target);
    WantsMeans(i, pool, target, account);
    hide PoolItems, PoolWants, IsTarget, Choice, RateServes, FedOff, FedAt, HasCurrent;
  }

  lemma AskedForIsWanted(i: Input, pool: string, account: int)
    requires pool != "" && AsksFor(i, pool, account)
    ensures Wants(i, account)
  {
    var target: Option<real> := None;
    if exists s :: Choice(i, pool, s) {
      var rate :| Cheapest(i, pool, rate) && if RateServes(i, pool, rate) then FedOff(i, pool, rate, account)
                                             else HasCurrent(i, pool, account) && !FedAt(i, pool, rate, account);
      target := Some(rate);
    }
    TargetMeans(i, pool, target);
    WantsMeans(i, pool, target, account);
    assert exists s :: Routed(i, pool, s) by { AskingPoolIsRouted(i, pool, account); }
    PoolSources(i, pool);
    hide PoolWants, IsTarget, Routed;
    var s :| Routed(i, pool, s);
    assert ItemOf(i, s) in PoolItems(i, i.sources, pool);
    hide PoolItems;
    assert WantsIn(i, pool, target, account);
  }

  lemma AskingPoolIsRouted(i: Input, pool: string, account: int)
    requires AsksFor(i, pool, account)
    ensures exists s :: Routed(i, pool, s)
  {
    hide Routed, Available;
  }

  /** The lock is a current one of the pool, or names a source of the pool that
      feeds the account, the pool, and that source's rate. */
  ghost predicate Says(i: Input, pool: string, account: int, l: Lock)
  {
    && l.account == account
    && (Current(i, pool, l) || exists s | Routed(i, pool, s) :: Feeds(i, s, account) && l == Lock(s.id, account, pool, s.rate))
  }

  /** And what each lock of the pass says. */
  lemma FitsExactly(i: Input, account: int, l: Lock)
    ensures FitsSomePool(i, account, l) <==> exists pool :: pool != "" && Says(i, pool, account, l)
  {
    if FitsSomePool(i, account, l) {
      var pool :| pool != "" && Fits(PoolItems(i, i.sources, pool), pool, i.locks, account, l);
      FitsIn(i, pool, account, l);
    }
    if pool :| pool != "" && Says(i, pool, account, l) {
      FitsIn(i, pool, account, l);
    }
  }

  lemma FitsIn(i: Input, pool: string, account: int, l: Lock)
    requires pool != ""
    ensures Fits(PoolItems(i, i.sources, pool), pool, i.locks, account, l) <==> Says(i, pool, account, l)
  {
    PoolSources(i, pool);
    forall s ensures ItemOf(i, s).source == s && (Lists(ItemOf(i, s), account) <==> Feeds(i, s, account)) { ItemMeans(i, s); }
    hide ItemOf, PoolItems, Routed, Lists, Feeds;
    var items := PoolItems(i, i.sources, pool);
    forall s | Routed(i, pool, s) ensures ItemOf(i, s) in items {}
  }
}

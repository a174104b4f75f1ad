/** Cost routing never takes a pool's last serving account away, as long as no
    account is listed under two routed sources. */
module CostRoutingSafety {
  import opened Options
  import opened CostRouting
  import opened CostRoutingRules
  import Text

  /** Each account belongs to at most one routed source. */
  ghost predicate OneSource(i: Input)
  {
    forall j, k, id | 0 <= j < |i.sources| && 0 <= k < |i.sources| && RoutedLists(i, j, id) && RoutedLists(i, k, id) :: j == k
  }

  ghost predicate RoutedLists(i: Input, k: nat, id: int)
    requires k < |i.sources|
  {
    Routed(i, Text.Trim(i.sources[k].pool), i.sources[k]) && Feeds(i, i.sources[k], id)
  }

  lemma RoutedListsMeans(i: Input, k: nat, id: int)
    requires k < |i.sources|
    ensures RoutedLists(i, k, id) <==> PoolOf(i.sources[k]) != "" && Lists(ItemOf(i, i.sources[k]), id)
  {
    ItemMeans(i, i.sources[k]);
    hide ItemOf, Lists, Feeds;
  }

  /** An account that takes traffic for the pool. */
  ghost predicate ServesPool(i: Input, pool: string, a: Account)
  {
    Carries(i, a) && exists s | Routed(i, pool, s) :: s.url == a.url
  }

  lemma ServesPoolMeans(i: Input, pool: string, a: Account)
    requires pool != ""
    ensures ServesPool(i, pool, a) <==> Serves(i.locks, a) && exists it | it in PoolItems(i, i.sources, pool) :: a in it.accounts
  {
    PoolSources(i, pool);
    forall s, x ensures x in ItemOf(i, s).accounts <==> x in i.accounts && x.url == s.url { ItemAccounts(i, s); }
    if a in i.accounts { AccountMeans(i, a); }
    assert Carries(i, a) ==> a in i.accounts;
    hide ItemOf, PoolItems, Routed, Serves, Carries;
    if ServesPool(i, pool, a) {
      var s :| Routed(i, pool, s) && s.url == a.url;
      assert ItemOf(i, s) in PoolItems(i, i.sources, pool);
    }
  }

  lemma {:induction false} ItemSource(i: Input, sources: seq<Source>, pool: string, it: Item) returns (k: nat)
    requires it in PoolItems(i, sources, pool)
    ensures k < |sources| && it == ItemOf(i, sources[k]) && PoolOf(sources[k]) == pool
    decreases |sources|
  {
    k := |sources| - 1;
    if !(it == ItemOf(i, sources[k]) && PoolOf(sources[k]) == pool) {
      k := ItemSource(i, sources[..k], pool, it);
    }
  }

  lemma {:induction false} TargetExists(items: seq<Item>, healthy: bool) returns (target: Option<real>)
    ensures target.None? ==> forall it | it in items :: !Candidate(healthy, it)
    ensures target.Some? ==>
              && (exists it | it in items :: Candidate(healthy, it) && it.source.rate == target.value)
              && (forall it | it in items && Candidate(healthy, it) :: target.value <= it.source.rate)
  {
    if items == [] {
      target := None;
    } else {
      var rest := TargetExists(items[1..], healthy);
      assert items == [items[0]] + items[1..];
      target := if Candidate(healthy, items[0]) && (rest.None? || items[0].source.rate < rest.value) then Some(items[0].source.rate) else rest;
    }
  }

  /** A pool that locks accounts for being off its target rate. */
  ghost predicate LocksOff(i: Input, pool: string, rate: real, account: int)
  {
    pool != "" && Cheapest(i, pool, rate) && RateServes(i, pool, rate) && FedOff(i, pool, rate, account)
  }

  lemma LocksOffMeans(i: Input, pool: string, rate: real, account: int)
    ensures var items := PoolItems(i, i.sources, pool);
            LocksOff(i, pool, rate, account) <==>
              pool != "" && IsTarget(items, Some(rate)) && ServingAt(items, rate) && OffRate(items, rate, account)
  {
    if pool != "" {
      TargetMeans(i, pool, Some(rate));
      RatesMean(i, pool, rate, account);
      hide PoolItems, IsTarget, Cheapest, ServingAt, OffRate, RateServes, FedOff;
    }
  }

  /** A serving account is locked exactly when some pool whose cheapest rate already
      serves feeds it from a source off that rate. */
  lemma ServingLockedExactly(i: Input, a: Account)
    requires Carries(i, a)
    ensures Wants(i, a.id) <==> exists pool, rate :: LocksOff(i, pool, rate, a.id)
  {
    WantsExactly(i, a.id);
    forall pool ensures !HasCurrent(i, pool, a.id) {}
    hide Carries, HasCurrent;
    UncurrentAsks(i, a.id);
  }

  lemma UncurrentAsks(i: Input, account: int)
    requires forall pool :: !HasCurrent(i, pool, account)
    ensures (exists pool :: pool != "" && AsksFor(i, pool, account)) <==> exists pool, rate :: LocksOff(i, pool, rate, account)
  {
    hide Choice, RateServes, FedOff, FedAt, HasCurrent;
    if pool :| pool != "" && AsksFor(i, pool, account) {
      var rate :| Cheapest(i, pool, rate) && if RateServes(i, pool, rate) then FedOff(i, pool, rate, account)
                                             else HasCurrent(i, pool, account) && !FedAt(i, pool, rate, account);
      assert LocksOff(i, pool, rate, account);
    }
    if pool, rate: real :| LocksOff(i, pool, rate, account) {
      assert Cheapest(i, pool, rate) && RateServes(i, pool, rate) && FedOff(i, pool, rate, account);
      assert AsksFor(i, pool, account);
    }
  }

  /** New locks appear only where the cheapest rate is already serving. */
  lemma NewLocksOnlyWhenTargetServes(i: Input, account: int) returns (pool: string, rate: real)
    requires Wants(i, account) && forall l | l in i.locks :: l.account != account
    ensures LocksOff(i, pool, rate, account)
  {
    WantsExactly(i, account);
    forall p ensures !HasCurrent(i, p, account) {}
    UncurrentAsks(i, account);
    pool, rate :| LocksOff(i, pool, rate, account);
  }

  /** With one source per account, only the account's own pool can lock it. */
  lemma OwnPoolOnly(i: Input, pool: string, it: Item, a: Account, other: string, rate: real)
    requires OneSource(i) && pool != "" && it in PoolItems(i, i.sources, pool) && a in it.accounts
    requires LocksOff(i, other, rate, a.id)
    ensures other == pool && !SameRate(it.source.rate, rate)
  {
    LocksOffMeans(i, other, rate, a.id);
    hide IsTarget, ServingAt, PoolItems, RoutedLists, LocksOff;
    assert Lists(it, a.id);
    var k := ItemSource(i, i.sources, pool, it);
    RoutedListsMeans(i, k, a.id);
    assert RoutedLists(i, k, a.id);
    var off :| off in PoolItems(i, i.sources, other) && !SameRate(off.source.rate, rate) && Lists(off, a.id);
    var j := ItemSource(i, i.sources, other, off);
    RoutedListsMeans(i, j, a.id);
    assert RoutedLists(i, j, a.id);
  }

  lemma ItemsServe(i: Input, pool: string, it: Item) returns (a: Account)
    requires it in PoolItems(i, i.sources, pool) && it.serving
    ensures a in it.accounts && Serves(i.locks, a)
  {
    var k := ItemSource(i, i.sources, pool, it);
    a :| a in it.accounts && Serves(i.locks, a);
  }

  /** If a pool had a serving account before the pass, one of its serving accounts
      is outside the locks the pass wants. */
  lemma LastServingAccountStays(i: Input, pool: string, before: Account) returns (a: Account)
    requires OneSource(i) && pool != "" && ServesPool(i, pool, before)
    ensures ServesPool(i, pool, a) && !Wants(i, a.id)
  {
    ServesPoolMeans(i, pool, before);
    hide IsTarget, PoolItems, OneSource, ServesPool, LocksOff, Serves, Carries;
    var items := PoolItems(i, i.sources, pool);
    var it :| it in items && before in it.accounts;
    a := before;
    if rate: real :| LocksOff(i, pool, rate, before.id) {
      LocksOffMeans(i, pool, rate, before.id);
      it :| it in items && SameRate(it.source.rate, rate) && it.serving;
      a := ItemsServe(i, pool, it);
      OnlyCheapest(i, pool, rate);
    }
    ServesPoolMeans(i, pool, a);
    assert Carries(i, a) by { ServesCarries(i, pool, a); }
    ServingLockedExactly(i, a);
    if exists other, r :: LocksOff(i, other, r, a.id) {
      var other, r :| LocksOff(i, other, r, a.id);
      OwnPoolOnly(i, pool, it, a, other, r);
      OnlyCheapest(i, pool, r);
    }
  }

  lemma ServesCarries(i: Input, pool: string, a: Account)
    requires ServesPool(i, pool, a)
    ensures Carries(i, a)
  {
  }

  lemma OnlyCheapest(i: Input, pool: string, rate: real)
    ensures forall r, account | LocksOff(i, pool, r, account) && Cheapest(i, pool, rate) :: r == rate
  {
    hide Choice, RateServes, FedOff;
  }

  // ------------------------------------------------------- why one source

  const FIT := Control(false, false, false, false)
  const SHARED := Account(1, "u", true, true, Some(FIT))
  const CHEAP := Source(1, "u", "p", true, true, 1.0, Some(10.0), true, false, 0.0, 0.0, 2)
  const DEAR := Source(2, "u", "p", true, true, 2.0, Some(10.0), true, false, 0.0, 0.0, 2)
  const TWICE := Input([CHEAP, DEAR], [SHARED], [])

  const CHEAP_ITEM := Item(CHEAP, [SHARED], true, true, true)
  const DEAR_ITEM := Item(DEAR, [SHARED], true, true, true)

  lemma SharedItems()
    ensures ItemOf(TWICE, CHEAP) == CHEAP_ITEM && ItemOf(TWICE, DEAR) == DEAR_ITEM
  {
    assert AccountsOf([SHARED], "u") == [SHARED] + AccountsOf([], "u");
    assert SHARED in [SHARED] && Serves([], SHARED) && Usable([], SHARED);
  }

  lemma SharedPool()
    ensures PoolItems(TWICE, TWICE.sources, "p") == [CHEAP_ITEM, DEAR_ITEM]
    ensures PoolOf(CHEAP) == "p" && PoolOf(DEAR) == "p"
  {
    SharedItems();
    hide ItemOf, AccountsOf;
    assert Text.Trim("p") == "p";
    assert [CHEAP, DEAR][..1] == [CHEAP] && [CHEAP][..0] == [];
    assert PoolItems(TWICE, [CHEAP], "p") == [] + [CHEAP_ITEM];
    assert PoolItems(TWICE, [CHEAP, DEAR], "p") == [CHEAP_ITEM] + [DEAR_ITEM];
  }

  /** Without that condition it fails: an account listed under two sources of one
      pool is locked for the dearer one, and the pool loses its only server. */
  lemma SharedAccountIsLost()
    ensures !OneSource(TWICE) && ServesPool(TWICE, "p", SHARED) && Wants(TWICE, SHARED.id)
    ensures forall a :: ServesPool(TWICE, "p", a) ==> a == SHARED
  {
    SharedItems();
    SharedPool();
    hide ItemOf, AccountsOf, PoolItems, PoolOf;
    var items := [CHEAP_ITEM, DEAR_ITEM];
    assert CHEAP_ITEM in items && DEAR_ITEM in items && SHARED in CHEAP_ITEM.accounts && SHARED in DEAR_ITEM.accounts;
    assert RoutedLists(TWICE, 0, 1) && RoutedLists(TWICE, 1, 1);
    assert AnyHealthyServing(items);
    assert IsTarget(items, Some(1.0));
    assert ServingAt(items, 1.0) && OffRate(items, 1.0, 1);
    assert WantsIn(TWICE, "p", Some(1.0), 1);
  }
}

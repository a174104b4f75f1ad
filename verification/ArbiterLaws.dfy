/** What follows from a correct arbitration: it is unique, independent of input
    order, conserves its input, and its winner beats every eligible candidate. */
module ArbiterLaws {
  import opened Options
  import opened Intents
  import opened Arbiter
  import Ordering
  import Text

  // --------------------------------------------------- sequences as multisets

  function Map<A, B>(f: A -> B, s: seq<A>): (r: seq<B>)
    ensures |r| == |s| && forall k | 0 <= k < |s| :: r[k] == f(s[k])
  {
    seq(|s|, k requires 0 <= k < |s| => f(s[k]))
  }

  lemma RemoveAt<T>(t: seq<T>, k: nat)
    requires k < |t|
    ensures multiset(t) == multiset{t[k]} + multiset(t[..k] + t[k + 1..])
  {
    assert t == t[..k] + [t[k]] + t[k + 1..];
  }

  lemma MapRemoveAt<A, B>(f: A -> B, t: seq<A>, k: nat)
    requires k < |t|
    ensures multiset(Map(f, t)) == multiset{f(t[k])} + multiset(Map(f, t[..k] + t[k + 1..]))
  {
    RemoveAt(Map(f, t), k);
    assert Map(f, t)[..k] + Map(f, t)[k + 1..] == Map(f, t[..k] + t[k + 1..]);
  }

  lemma {:induction false} MapMultiset<A, B>(f: A -> B, s: seq<A>, t: seq<A>)
    requires multiset(s) == multiset(t)
    ensures multiset(Map(f, s)) == multiset(Map(f, t))
    decreases |s|
  {
    if |s| == 0 {
      assert multiset(t) == multiset{};
      assert |t| == 0;
    } else {
      assert s[0] in multiset(t);
      var k :| 0 <= k < |t| && t[k] == s[0];
      RemoveAt(s, 0);
      RemoveAt(t, k);
      MapRemoveAt(f, s, 0);
      MapRemoveAt(f, t, k);
      var u, v := s[..0] + s[1..], t[..k] + t[k + 1..];
      assert multiset(u) == multiset(s) - multiset{s[0]} == multiset(v);
      MapMultiset(f, u, v);
    }
  }

  ghost predicate Distinct<T>(s: seq<T>)
  {
    forall i, j | 0 <= i < j < |s| :: s[i] != s[j]
  }

  lemma {:induction false} DistinctCount<T>(s: seq<T>, x: T)
    requires Distinct(s)
    ensures multiset(s)[x] == if x in s then 1 else 0
  {
    if s != [] {
      DistinctCount(s[1..], x);
      assert s == [s[0]] + s[1..];
      assert multiset(s) == multiset{s[0]} + multiset(s[1..]);
      assert s[0] !in s[1..];
    }
  }

  lemma DistinctSameElements<T(!new)>(s: seq<T>, t: seq<T>)
    requires Distinct(s) && Distinct(t)
    requires forall x :: x in s <==> x in t
    ensures multiset(s) == multiset(t)
  {
    forall x ensures multiset(s)[x] == multiset(t)[x] {
      DistinctCount(s, x);
      DistinctCount(t, x);
    }
  }

  // -------------------------------------------------------------- uniqueness

  ghost predicate AllCanonical(m: multiset<Intent>)
  {
    forall x | x in m :: Canonical(x)
  }

  /** No two different intents share a canonical key. */
  ghost predicate KeysIdentify(m: multiset<Intent>)
  {
    forall x, y | x in m && y in m && CanonicalKey(x) == CanonicalKey(y) :: x == y
  }

  lemma CanonicalKeysIdentify(m: multiset<Intent>)
    requires AllCanonical(m)
    ensures KeysIdentify(m)
  {
    hide CanonicalKey;
    forall x, y | x in m && y in m && CanonicalKey(x) == CanonicalKey(y) ensures x == y { CanonicalKeyInjective(x, y); }
  }

  lemma RepresentativeUnique(now: int, m: multiset<Intent>, a: Intent, b: Intent)
    requires KeysIdentify(m) && Represents(now, m, a) && Represents(now, m, b)
    requires a.idempotencyKey == b.idempotencyKey
    ensures a == b
  {
    assert !Precedes(now, m, a, b) && !Precedes(now, m, b, a);
    RepresentativeTotal(a, b);
    assert a in m && b in m;
  }

  lemma CandidatesIncluded(now: int, m: multiset<Intent>, key: ConflictKey, s: seq<Intent>, t: seq<Intent>, x: Intent)
    requires KeysIdentify(m) && CandidatesRight(now, m, key, s) && CandidatesRight(now, m, key, t)
    requires x in s
    ensures x in t
  {
    hide Eligible, RepresentativeLess, Canonical;
    assert Eligible(now, m, x) && KeyOf(x) == key;
    assert HasKey(t, x.idempotencyKey);
    var c :| c in t && c.idempotencyKey == x.idempotencyKey;
    RepresentativeUnique(now, m, x, c);
  }

  lemma CandidatesUnique(now: int, m: multiset<Intent>, key: ConflictKey, s: seq<Intent>, t: seq<Intent>)
    requires KeysIdentify(m) && CandidatesRight(now, m, key, s) && CandidatesRight(now, m, key, t)
    ensures multiset(s) == multiset(t)
  {
    forall x ensures x in s <==> x in t {
      if x in s { CandidatesIncluded(now, m, key, s, t, x); }
      if x in t { CandidatesIncluded(now, m, key, t, s, x); }
    }
    DistinctSameElements(s, t);
  }

  lemma OutcomeTiesAreEqual(m: multiset<Intent>, s: seq<Outcome>)
    requires KeysIdentify(m) && forall o | o in s :: o.intent in m
    ensures Ordering.TiesAreEqual(OutcomeLess, multiset(s))
  {
    forall x, y | x in multiset(s) && y in multiset(s) && !OutcomeLess(x, y) && !OutcomeLess(y, x)
      ensures x == y
    {
      assert x in s && y in s;
      OutcomeTotal(x, y);
      assert CanonicalKey(x.intent) == CanonicalKey(y.intent);
    }
  }

  /** Sorted outcome lists whose reasons are a function of the intent are
      determined by the multiset of their intents. */
  lemma OutcomesUnique(m: multiset<Intent>, reason: Intent -> Reason, s: seq<Outcome>, t: seq<Outcome>)
    requires KeysIdentify(m) && (forall o | o in s :: o.intent in m) && (forall o | o in t :: o.intent in m)
    requires (forall o | o in s :: o.reason == reason(o.intent)) && (forall o | o in t :: o.reason == reason(o.intent))
    requires Ordering.Sorted(OutcomeLess, s) && Ordering.Sorted(OutcomeLess, t)
    requires multiset(IntentsOf(s)) == multiset(IntentsOf(t))
    ensures s == t
  {
    var build := (i: Intent) => Outcome(i, reason(i));
    assert Map(build, IntentsOf(s)) == s;
    assert Map(build, IntentsOf(t)) == t;
    MapMultiset(build, IntentsOf(s), IntentsOf(t));
    OutcomeTiesAreEqual(m, s);
    Ordering.SortedUnique(OutcomeLess, s, t);
  }

  lemma SettledCopies(now: int, m: multiset<Intent>, r: Arbitration, x: Intent)
    requires Settled(now, m, r)
    ensures Copies(r, x) == if KeyOf(x) == r.key then m[x] else 0
  {
  }

  lemma FiledIntentsAreGiven(now: int, m: multiset<Intent>, r: Arbitration)
    requires Settled(now, m, r)
    ensures forall o | o in r.superseded :: o.intent in m
    ensures forall o | o in r.ignored :: o.intent in m && KeyOf(o.intent) == r.key
    ensures r.winner.Some? ==> r.winner.value in m && KeyOf(r.winner.value) == r.key
  {
    hide ValidationError, Signature, OutcomeLess;
    if r.winner.Some? { CandidateMember(r, r.winner.value); }
    forall o | o in r.superseded ensures o.intent in m {
      CandidateMember(r, o.intent);
    }
    forall o | o in r.ignored ensures o.intent in m && KeyOf(o.intent) == r.key {
      IntentMember(r.ignored, o.intent);
      assert Copies(r, o.intent) > 0;
    }
  }

  lemma DistinctKeysIdentify(s: seq<Intent>, a: Intent, b: Intent)
    requires DistinctKeys(s) && a in s && b in s && a.idempotencyKey == b.idempotencyKey
    ensures a == b
  {
    var i :| 0 <= i < |s| && s[i] == a;
    var j :| 0 <= j < |s| && s[j] == b;
  }

  lemma IntentMember(outcomes: seq<Outcome>, x: Intent)
    ensures x in IntentsOf(outcomes) <==> exists o | o in outcomes :: o.intent == x
  {
    if x in IntentsOf(outcomes) {
      var k :| 0 <= k < |outcomes| && IntentsOf(outcomes)[k] == x;
      assert outcomes[k] in outcomes;
    }
    if o :| o in outcomes && o.intent == x {
      var k :| 0 <= k < |outcomes| && outcomes[k] == o;
      assert IntentsOf(outcomes)[k] == x;
    }
  }

  lemma CandidateMember(r: Arbitration, c: Intent)
    ensures c in CandidatesOf(r) <==>
              (r.winner.Some? && c == r.winner.value) || exists o | o in r.superseded :: o.intent == c
  {
    IntentMember(r.superseded, c);
  }

  lemma WinnerUnique(now: int, m: multiset<Intent>, r: Arbitration, q: Arbitration)
    requires KeysIdentify(m) && Settled(now, m, r) && Settled(now, m, q) && r.key == q.key
    ensures r.winner == q.winner
  {
    CandidatesUnique(now, m, r.key, CandidatesOf(r), CandidatesOf(q));
    assert |CandidatesOf(r)| == |multiset(CandidatesOf(r))| == |CandidatesOf(q)|;
    if r.winner.Some? && q.winner.Some? && r.winner != q.winner {
      SupersededElsewhere(r, q);
      SupersededElsewhere(q, r);
      CandidateTotal(r.winner.value, q.winner.value);
    }
  }

  lemma SupersededElsewhere(r: Arbitration, q: Arbitration)
    requires r.winner.Some? && q.winner.Some? && r.winner != q.winner
    requires multiset(CandidatesOf(r)) == multiset(CandidatesOf(q))
    ensures exists o | o in q.superseded :: o.intent == r.winner.value
  {
    CandidateMember(r, r.winner.value);
    assert r.winner.value in multiset(CandidatesOf(q));
    CandidateMember(q, r.winner.value);
  }

  lemma SupersededUnique(now: int, m: multiset<Intent>, r: Arbitration, q: Arbitration)
    requires KeysIdentify(m) && Settled(now, m, r) && Settled(now, m, q) && r.key == q.key && r.winner == q.winner
    ensures r.superseded == q.superseded
  {
    hide CandidatesRight, OutcomeLess, CandidateWins, Copies;
    CandidatesUnique(now, m, r.key, CandidatesOf(r), CandidatesOf(q));
    FiledIntentsAreGiven(now, m, r);
    FiledIntentsAreGiven(now, m, q);
    if r.winner.Some? {
      var w := r.winner.value;
      assert multiset(CandidatesOf(r)) == multiset{w} + multiset(IntentsOf(r.superseded));
      assert multiset(CandidatesOf(q)) == multiset{w} + multiset(IntentsOf(q.superseded));
      assert multiset(IntentsOf(r.superseded)) == multiset(CandidatesOf(r)) - multiset{w};
      assert multiset(IntentsOf(q.superseded)) == multiset(CandidatesOf(q)) - multiset{w};
      OutcomesUnique(m, i => SupersededReason(w, i), r.superseded, q.superseded);
    }
  }

  lemma IgnoredUnique(now: int, m: multiset<Intent>, r: Arbitration, q: Arbitration)
    requires KeysIdentify(m) && Settled(now, m, r) && Settled(now, m, q) && r.key == q.key
    ensures r.ignored == q.ignored
  {
    hide CandidatesRight, OutcomeLess, CandidateWins, IgnoredReason;
    CandidatesUnique(now, m, r.key, CandidatesOf(r), CandidatesOf(q));
    FiledIntentsAreGiven(now, m, r);
    FiledIntentsAreGiven(now, m, q);
    forall x ensures multiset(IntentsOf(r.ignored))[x] == multiset(IntentsOf(q.ignored))[x] {
      assert Copies(r, x) == Copies(q, x);
    }
    OutcomesUnique(m, i => IgnoredReason(now, m, i), r.ignored, q.ignored);
  }

  lemma SettledUnique(now: int, m: multiset<Intent>, r: Arbitration, q: Arbitration)
    requires KeysIdentify(m) && Settled(now, m, r) && Settled(now, m, q) && r.key == q.key
    ensures r == q
  {
    hide CandidatesRight, OutcomeLess, CandidateWins, IgnoredReason, Copies;
    WinnerUnique(now, m, r, q);
    SupersededUnique(now, m, r, q);
    IgnoredUnique(now, m, r, q);
  }

  lemma ResultIncluded(now: int, m: multiset<Intent>, rs: seq<Arbitration>, qs: seq<Arbitration>, r: Arbitration)
    requires KeysIdentify(m) && Arbitrated(now, m, rs) && Arbitrated(now, m, qs) && r in rs
    ensures r in qs
  {
    hide Settled, ResultLess;
    assert HasResult(rs, r.key) && HasResult(qs, r.key);
    var q :| q in qs && q.key == r.key;
    SettledUnique(now, m, r, q);
  }

  /** Two arbitrations of one multiset whose keys tell its intents apart are identical. */
  lemma ArbitrationUnique(now: int, m: multiset<Intent>, rs: seq<Arbitration>, qs: seq<Arbitration>)
    requires KeysIdentify(m) && Arbitrated(now, m, rs) && Arbitrated(now, m, qs)
    ensures rs == qs
  {
    hide Settled, ConflictKeyText, Text.Less;
    forall r ensures r in rs <==> r in qs {
      if r in rs { ResultIncluded(now, m, rs, qs, r); }
      if r in qs { ResultIncluded(now, m, qs, rs, r); }
    }
    DistinctSameElements(rs, qs);
    forall x, y | x in multiset(rs) && y in multiset(rs) && !ResultLess(x, y) && !ResultLess(y, x) ensures x == y {
      assert x in rs && y in rs;
      TextTrichotomy(ConflictKeyText(x.key), ConflictKeyText(y.key));
      ConflictKeyTextInjective(x.key, y.key);
    }
    Ordering.SortedUnique(ResultLess, rs, qs);
  }

  // ------------------------------------------------------------ conservation

  function Filed(r: Arbitration): multiset<Intent>
  {
    multiset(CandidatesOf(r)) + multiset(IntentsOf(r.ignored))
  }

  function AllFiled(results: seq<Arbitration>): multiset<Intent>
  {
    if results == [] then multiset{} else Filed(results[0]) + AllFiled(results[1..])
  }

  lemma {:induction false} FiledCount(now: int, m: multiset<Intent>, results: seq<Arbitration>, x: Intent)
    requires forall r | r in results :: Settled(now, m, r)
    requires forall i, j | 0 <= i < j < |results| :: results[i].key != results[j].key
    ensures AllFiled(results)[x] == if HasResult(results, KeyOf(x)) then m[x] else 0
  {
    hide Settled;
    if results != [] {
      var rest := results[1..];
      assert results == [results[0]] + rest;
      assert forall r | r in rest :: r in results;
      FiledCount(now, m, rest, x);
      SettledCopies(now, m, results[0], x);
      assert Copies(results[0], x) == Filed(results[0])[x];
      if results[0].key == KeyOf(x) {
        assert results[0] in results;
        assert !HasResult(rest, KeyOf(x));
      } else {
        assert HasResult(results, KeyOf(x)) <==> HasResult(rest, KeyOf(x));
      }
    }
  }

  /** Nothing is lost and nothing invented: winners, superseded and ignored
      intents together are exactly the intents given, repeats included. */
  lemma ArbitrationConserves(now: int, m: multiset<Intent>, results: seq<Arbitration>)
    requires Arbitrated(now, m, results)
    ensures AllFiled(results) == m
  {
    hide Settled, ResultLess;
    forall x ensures AllFiled(results)[x] == m[x] {
      FiledCount(now, m, results, x);
      if m[x] > 0 { assert HasIntent(m, KeyOf(x)); }
    }
  }

  // ---------------------------------------------------------------- authority

  /** The winner of a conflict key beats every eligible intent under it, except
      an intent it represents, which carries the same meaning. */
  lemma WinnerBeatsEligible(now: int, m: multiset<Intent>, r: Arbitration, x: Intent)
    requires Settled(now, m, r) && Eligible(now, m, x) && KeyOf(x) == r.key
    ensures r.winner.Some? && Eligible(now, m, r.winner.value)
    ensures var w := r.winner.value;
            if w.idempotencyKey == x.idempotencyKey
            then Signature(w) == Signature(x) && !CandidateWins(x, w)
            else exists c | Represents(now, m, c) && Signature(c) == Signature(x) && c.idempotencyKey == x.idempotencyKey :: CandidateWins(w, c)
  {
    hide ValidationError, Signature, CanonicalKey;
    var s := CandidatesOf(r);
    assert HasKey(s, x.idempotencyKey);
    var c :| c in s && c.idempotencyKey == x.idempotencyKey;
    assert Represents(now, m, c);
    assert Signature(c) == Signature(x) by {
      assert !Clash(now, m, c, x, x.idempotencyKey);
    }
    CandidateMember(r, c);
    var w := r.winner.value;
    CandidateMember(r, w);
    if w.idempotencyKey == x.idempotencyKey {
      DistinctKeysIdentify(s, c, w);
      SignatureDeterminesIntent(w, x);
      assert !Precedes(now, m, x, w);
    }
  }

  lemma ValidAuthorityIsKnown(i: Intent)
    requires Valid(i)
    ensures !i.authority.UnknownAuthority?
  {
  }

  lemma WinsBySeniority(w: Intent, x: Intent)
    requires CandidateWins(w, x) && Valid(w) && Valid(x)
    ensures match x.authority
            case ManualHold => w.authority == ManualHold
            case AdministratorCommand => w.authority in {ManualHold, AdministratorCommand}
            case EmergencyAutomation => w.authority in {ManualHold, AdministratorCommand, EmergencyAutomation}
            case AutonomousAgent => w.authority in {ManualHold, AdministratorCommand, EmergencyAutomation, AutonomousAgent}
            case ActivePolicy => w.authority in {ManualHold, AdministratorCommand, EmergencyAutomation, AutonomousAgent, ActivePolicy}
            case Optimization => !w.authority.UnknownAuthority?
            case UnknownAuthority(_) => false
    ensures w.authority == x.authority ==> w.createdAt >= x.createdAt
    ensures w.authority == x.authority && w.createdAt == x.createdAt ==> w.id == x.id || Text.Less(w.id, x.id)
    ensures w.authority == x.authority && w.createdAt == x.createdAt && w.id == x.id ==> Text.Less(CanonicalKey(w), CanonicalKey(x))
  {
    ValidAuthorityIsKnown(w);
    ValidAuthorityIsKnown(x);
    hide Valid, CanonicalKey;
  }

  lemma EligibleIsActive(now: int, m: multiset<Intent>, x: Intent)
    requires Eligible(now, m, x)
    ensures Active(now, x) && Valid(x) && !Expired(x, now) && x in m
  {
    hide ValidationError, Conflicted;
  }

  /** The winner against any eligible intent of its resource and operation: its
      authority comes no later in the order of authorities, among equals it is not
      older, and among equally old ones its ID is not greater; last, no greater
      canonical key. */
  lemma HighestAuthorityWins(now: int, m: multiset<Intent>, r: Arbitration, x: Intent)
    requires Settled(now, m, r) && Eligible(now, m, x)
    requires x.resource == r.key.resource && x.operation == r.key.operation
    ensures r.winner.Some?
    ensures var w := r.winner.value;
            w in m && Valid(w) && !Expired(w, now) && w.resource == x.resource && w.operation == x.operation
    ensures var w := r.winner.value;
            match x.authority
            case ManualHold => w.authority == ManualHold
            case AdministratorCommand => w.authority in {ManualHold, AdministratorCommand}
            case EmergencyAutomation => w.authority in {ManualHold, AdministratorCommand, EmergencyAutomation}
            case AutonomousAgent => w.authority in {ManualHold, AdministratorCommand, EmergencyAutomation, AutonomousAgent}
            case ActivePolicy => w.authority in {ManualHold, AdministratorCommand, EmergencyAutomation, AutonomousAgent, ActivePolicy}
            case Optimization => !w.authority.UnknownAuthority?
            case UnknownAuthority(_) => false
    ensures var w := r.winner.value;
            w.authority == x.authority ==> w.createdAt >= x.createdAt
    ensures var w := r.winner.value;
            w.authority == x.authority && w.createdAt == x.createdAt ==> w.id == x.id || Text.Less(w.id, x.id)
    ensures var w := r.winner.value;
            w.authority == x.authority && w.createdAt == x.createdAt && w.id == x.id && w != x ==>
              CanonicalKey(w) == CanonicalKey(x) || Text.Less(CanonicalKey(w), CanonicalKey(x))
  {
    hide Settled, Valid, Signature, RepresentativeLess, CandidateWins, Eligible, Represents, Expired;
    WinnerBeatsEligible(now, m, r, x);
    EligibleIsActive(now, m, x);
    var w := r.winner.value;
    EligibleIsActive(now, m, w);
    WinnerHasKey(now, m, r);
    ValidAuthorityIsKnown(w);
    ValidAuthorityIsKnown(x);
    if w.idempotencyKey == x.idempotencyKey {
      SignatureDeterminesIntent(w, x);
      NotBeaten(w, x);
    } else {
      var c :| Represents(now, m, c) && Signature(c) == Signature(x) && c.idempotencyKey == x.idempotencyKey && CandidateWins(w, c);
      SignatureDeterminesIntent(c, x);
      RepresentedLater(now, m, c, x);
      WinsBySeniority(w, c);
      TextTrichotomy(c.id, x.id);
      TextTrichotomy(CanonicalKey(c), CanonicalKey(x));
      if Text.Less(w.id, c.id) && Text.Less(c.id, x.id) { Text.LessTransitive(w.id, c.id, x.id); }
      if w.id == x.id && w.id != c.id { TextTrichotomy(w.id, c.id); }
      if CanonicalKey(c) != CanonicalKey(x) && Text.Less(CanonicalKey(w), CanonicalKey(c)) && Text.Less(CanonicalKey(c), CanonicalKey(x)) {
        Text.LessTransitive(CanonicalKey(w), CanonicalKey(c), CanonicalKey(x));
      }
    }
  }

  lemma WinnerHasKey(now: int, m: multiset<Intent>, r: Arbitration)
    requires Settled(now, m, r) && r.winner.Some?
    ensures r.winner.value.resource == r.key.resource && r.winner.value.operation == r.key.operation
  {
    hide Represents, OutcomeLess, CandidateWins, Copies;
    assert CandidatesOf(r)[0] == r.winner.value;
    assert r.winner.value in CandidatesOf(r);
  }

  /** Intents of one meaning that cannot beat each other. */
  lemma NotBeaten(w: Intent, x: Intent)
    requires !CandidateWins(x, w) && w.authority == x.authority && w.createdAt == x.createdAt
    ensures w.id == x.id || Text.Less(w.id, x.id)
    ensures w.id == x.id ==> CanonicalKey(w) == CanonicalKey(x) || Text.Less(CanonicalKey(w), CanonicalKey(x))
  {
    hide CanonicalKey;
    TextTrichotomy(w.id, x.id);
    TextTrichotomy(CanonicalKey(w), CanonicalKey(x));
  }

  lemma RepresentedLater(now: int, m: multiset<Intent>, c: Intent, x: Intent)
    requires Represents(now, m, c) && Eligible(now, m, x) && c.idempotencyKey == x.idempotencyKey
    ensures c in m && Valid(c) && !Expired(c, now)
    ensures c.id == x.id || Text.Less(c.id, x.id)
    ensures c.id == x.id ==> CanonicalKey(c) == CanonicalKey(x) || Text.Less(CanonicalKey(c), CanonicalKey(x))
  {
    hide ValidationError, Conflicted, CanonicalKey;
    assert !Precedes(now, m, x, c);
    TextTrichotomy(c.id, x.id);
    TextTrichotomy(CanonicalKey(c), CanonicalKey(x));
  }

  /** A superseded intent names what beat it: a different authority, which is a
      stronger one, the same authority used later, or neither. */
  lemma SupersededAre(now: int, m: multiset<Intent>, r: Arbitration, o: Outcome)
    requires Settled(now, m, r) && o in r.superseded
    ensures r.winner.Some?
    ensures var w, x := r.winner.value, o.intent;
            && (o.reason == LowerAuthority <==> w.authority != x.authority)
            && (o.reason == OlderSameAuthority <==> w.authority == x.authority && w.createdAt > x.createdAt)
            && (o.reason == DeterministicTieBreak <==> w.authority == x.authority && w.createdAt == x.createdAt)
            && o.reason in {LowerAuthority, OlderSameAuthority, DeterministicTieBreak}
    ensures Eligible(now, m, o.intent) && o.intent.idempotencyKey != r.winner.value.idempotencyKey
  {
    var w, x := r.winner.value, o.intent;
    SupersededEligible(now, m, r, o);
    EligibleIsActive(now, m, x);
    EligibleIsActive(now, m, w);
    hide Settled, Eligible;
    SupersededMeans(w, x);
  }

  lemma SupersededMeans(w: Intent, x: Intent)
    requires Valid(w) && Valid(x) && CandidateWins(w, x)
    ensures var reason := SupersededReason(w, x);
            && (reason == LowerAuthority <==> w.authority != x.authority)
            && (reason == OlderSameAuthority <==> w.authority == x.authority && w.createdAt > x.createdAt)
            && (reason == DeterministicTieBreak <==> w.authority == x.authority && w.createdAt == x.createdAt)
            && reason in {LowerAuthority, OlderSameAuthority, DeterministicTieBreak}
  {
    ValidAuthorityIsKnown(w);
    ValidAuthorityIsKnown(x);
    WinsBySeniority(w, x);
    hide Valid, CandidateWins;
  }

  lemma SupersededEligible(now: int, m: multiset<Intent>, r: Arbitration, o: Outcome)
    requires Settled(now, m, r) && o in r.superseded
    ensures r.winner.Some? && o.reason == SupersededReason(r.winner.value, o.intent)
    ensures Eligible(now, m, o.intent) && Eligible(now, m, r.winner.value)
    ensures CandidateWins(r.winner.value, o.intent) && o.intent.idempotencyKey != r.winner.value.idempotencyKey
  {
    hide Active, Conflicted, Copies, OutcomeLess, CandidateWins, SupersededReason, Ordering.Sorted;
    CandidateMember(r, o.intent);
    CandidateMember(r, r.winner.value);
    var k :| 0 <= k < |r.superseded| && r.superseded[k] == o;
    assert CandidatesOf(r)[0] == r.winner.value && CandidatesOf(r)[k + 1] == o.intent;
  }

  /** An ignored intent names what kept it out: it is invalid, or valid and
      expired, or its idempotency key has two meanings among the active intents,
      or an equal one that comes no later stands for it. */
  lemma IgnoredAre(now: int, m: multiset<Intent>, r: Arbitration, o: Outcome)
    requires Settled(now, m, r) && o in r.ignored
    ensures var x := o.intent;
            && (o.reason == InvalidReason <==> ValidationError(x).Some?)
            && (o.reason == ExpiredReason <==> ValidationError(x).None? && x.expiresAt.Some? && x.expiresAt.value <= now)
            && (o.reason == IdempotencyConflict ==> Active(now, x) && TwoMeanings(now, m, x.idempotencyKey))
            && (o.reason == DuplicateReason ==> Active(now, x) && !TwoMeanings(now, m, x.idempotencyKey))
            && o.reason in {InvalidReason, ExpiredReason, IdempotencyConflict, DuplicateReason}
    ensures o.reason == DuplicateReason ==>
              exists c | c in CandidatesOf(r) :: c.idempotencyKey == o.intent.idempotencyKey && Signature(c) == Signature(o.intent)
                                                 && (c.id == o.intent.id || Text.Less(c.id, o.intent.id))
  {
    var x := o.intent;
    assert o.reason == IgnoredReason(now, m, x) by { hide IgnoredReason, Copies, CandidatesRight; }
    TwoMeaningsIsConflict(now, m, x.idempotencyKey);
    ReasonMeans(now, m, x);
    FiledIntentsAreGiven(now, m, r);
    hide Settled, IgnoredReason, Signature, Active, TwoMeanings, Conflicted, RepresentativeLess;
    if o.reason == DuplicateReason {
      var c := StoodFor(now, m, r, x);
      assert c in CandidatesOf(r) && c.idempotencyKey == o.intent.idempotencyKey;
    }
  }

  ghost predicate TwoMeanings(now: int, m: multiset<Intent>, key: string)
  {
    exists a, b | a in m && b in m ::
      && ValidationError(a).None? && (a.expiresAt.Some? ==> now < a.expiresAt.value) && a.idempotencyKey == key
      && ValidationError(b).None? && (b.expiresAt.Some? ==> now < b.expiresAt.value) && b.idempotencyKey == key
      && Signature(a) != Signature(b)
  }

  lemma TwoMeaningsIsConflict(now: int, m: multiset<Intent>, key: string)
    ensures TwoMeanings(now, m, key) <==> Conflicted(now, m, key)
  {
    hide ValidationError, Signature;
    if TwoMeanings(now, m, key) {
      var a, b :| a in m && b in m
        && ValidationError(a).None? && (a.expiresAt.Some? ==> now < a.expiresAt.value) && a.idempotencyKey == key
        && ValidationError(b).None? && (b.expiresAt.Some? ==> now < b.expiresAt.value) && b.idempotencyKey == key
        && Signature(a) != Signature(b);
      assert Clash(now, m, a, b, key);
    }
    if Conflicted(now, m, key) {
      var a, b :| Clash(now, m, a, b, key);
    }
  }

  lemma ReasonMeans(now: int, m: multiset<Intent>, x: Intent)
    ensures var reason := IgnoredReason(now, m, x);
            && (reason == InvalidReason <==> ValidationError(x).Some?)
            && (reason == ExpiredReason <==> ValidationError(x).None? && x.expiresAt.Some? && x.expiresAt.value <= now)
            && (reason == IdempotencyConflict ==> Active(now, x) && Conflicted(now, m, x.idempotencyKey))
            && (reason == DuplicateReason ==> Active(now, x) && !Conflicted(now, m, x.idempotencyKey))
            && reason in {InvalidReason, ExpiredReason, IdempotencyConflict, DuplicateReason}
  {
    hide ValidationError, Conflicted;
  }

  /** The candidate that stands for an eligible intent of the result's key. */
  lemma StoodFor(now: int, m: multiset<Intent>, r: Arbitration, x: Intent) returns (c: Intent)
    requires Settled(now, m, r) && x in m && Active(now, x) && !Conflicted(now, m, x.idempotencyKey) && KeyOf(x) == r.key
    ensures c in CandidatesOf(r) && c.idempotencyKey == x.idempotencyKey && Signature(c) == Signature(x)
    ensures c.id == x.id || Text.Less(c.id, x.id)
  {
    hide ValidationError, Signature, CanonicalKey, Copies, Ordering.Sorted, CandidateWins, RepresentativeLess;
    assert Eligible(now, m, x);
    assert HasKey(CandidatesOf(r), x.idempotencyKey);
    c :| c in CandidatesOf(r) && c.idempotencyKey == x.idempotencyKey;
    assert Represents(now, m, c);
    assert !Clash(now, m, c, x, x.idempotencyKey);
    RepresentedLater(now, m, c, x);
  }

  /** Without a winner the result's reason is expiry if any intent of the key
      expired, else a conflict if there is one, else invalidity. */
  lemma ReasonWithoutWinner(now: int, m: multiset<Intent>, r: Arbitration)
    requires Settled(now, m, r) && r.winner.None? && HasIntent(m, r.key)
    ensures r.reason
         == if exists o | o in r.ignored :: ValidationError(o.intent).None? && o.intent.expiresAt.Some? && o.intent.expiresAt.value <= now
            then Some(ExpiredReason)
            else if exists o | o in r.ignored :: ValidationError(o.intent).None? then Some(IdempotencyConflict)
            else Some(InvalidReason)
  {
    SomethingIgnored(now, m, r);
    var s := r.ignored;
    ReasonIsFirst(now, m, r);
    forall o | o in s
      ensures o.reason in {ExpiredReason, IdempotencyConflict, InvalidReason}
      ensures o.reason == ExpiredReason <==> ValidationError(o.intent).None? && o.intent.expiresAt.Some? && o.intent.expiresAt.value <= now
      ensures o.reason == InvalidReason <==> ValidationError(o.intent).Some?
    {
      IgnoredAre(now, m, r, o);
      assert CandidatesOf(r) == [];
    }
    LeastComesFirst(now, m, r);
    assert s[0] in s;
    hide Settled, ValidationError, OutcomeLess, ReasonText, Text.Less;
  }

  /** With expiry before a conflict before invalidity, the first ignored outcome
      has the least reason. */
  lemma LeastComesFirst(now: int, m: multiset<Intent>, r: Arbitration)
    requires Settled(now, m, r) && r.ignored != []
    requires forall o | o in r.ignored :: o.reason in {ExpiredReason, IdempotencyConflict, InvalidReason}
    ensures forall o | o in r.ignored :: (o.reason == ExpiredReason ==> r.ignored[0].reason == ExpiredReason)
                                      && (r.ignored[0].reason == InvalidReason ==> o.reason == InvalidReason)
  {
    hide CandidatesRight, Copies, ReasonText, Text.Less, CanonicalLess, IgnoredReason, SupersededReason, CandidateWins;
    var s := r.ignored;
    ReasonOrder();
    assert s[0] in s;
    forall o | o in s
      ensures (o.reason == ExpiredReason ==> s[0].reason == ExpiredReason) && (s[0].reason == InvalidReason ==> o.reason == InvalidReason)
    {
      var k :| 0 <= k < |s| && s[k] == o;
      if k > 0 { FirstIsLeast(s, k); }
    }
  }

  lemma ReasonIsFirst(now: int, m: multiset<Intent>, r: Arbitration)
    requires Settled(now, m, r) && r.winner.None? && r.ignored != []
    ensures r.reason == Some(r.ignored[0].reason)
  {
    hide CandidatesRight, Copies, OutcomeLess;
  }

  lemma FirstIsLeast(s: seq<Outcome>, k: nat)
    requires Ordering.Sorted(OutcomeLess, s) && 0 < k < |s|
    ensures s[k].reason == s[0].reason || !Text.Less(ReasonText(s[k].reason), ReasonText(s[0].reason))
  {
    hide ReasonText, CanonicalLess;
  }

  lemma ReasonOrder()
    ensures Text.Less(ReasonText(ExpiredReason), ReasonText(IdempotencyConflict))
    ensures Text.Less(ReasonText(ExpiredReason), ReasonText(InvalidReason))
    ensures Text.Less(ReasonText(IdempotencyConflict), ReasonText(InvalidReason))
  {
  }

  lemma SomethingIgnored(now: int, m: multiset<Intent>, r: Arbitration)
    requires Settled(now, m, r) && r.winner.None? && HasIntent(m, r.key)
    ensures r.ignored != []
  {
    hide CandidatesRight, OutcomeLess, IgnoredReason;
    var x :| x in m && KeyOf(x) == r.key;
    assert Copies(r, x) == m[x];
  }
}

/** When the result of arbitration is determined by the multiset of intents: only
    intents that spell one evidence set differently can change places. */
module ArbiterTies {
  import opened Options
  import opened Intents
  import opened Arbiter
  import opened ArbiterLaws
  import Ordering
  import Text
  import WinningIntent

  /** Different intents the arbiter cannot tell apart. */
  predicate Twins(x: Intent, y: Intent)
  {
    CanonicalKey(x) == CanonicalKey(y)
  }

  lemma TwinsAlike(x: Intent, y: Intent)
    requires Twins(x, y)
    ensures x == y.(evidence := x.evidence) && CanonicalRefs(x.evidence) == CanonicalRefs(y.evidence)
    ensures Signature(x) == Signature(y) && KeyOf(x) == KeyOf(y) && ValidationError(x) == ValidationError(y)
  {
    CanonicalKeyParts(x, y);
    hide CanonicalKey, Signature, ValidationError;
    SignatureDeterminesIntent(x, y);
    SpellingKeepsValidity(x, y);
  }

  lemma SpellingKeepsValidity(x: Intent, y: Intent)
    requires x == y.(evidence := x.evidence) && CanonicalRefs(x.evidence) == CanonicalRefs(y.evidence)
    ensures ValidationError(x) == ValidationError(y)
  {
    hide CanonicalRefs, HasBlankRef, Blank, StateError, ResourceValid;
    WinningIntent.CanonicalRefsKeepBlanks(x.evidence);
    WinningIntent.CanonicalRefsKeepBlanks(y.evidence);
  }

  /** Twins stand in the same place of every order. */
  lemma TwinsCompare(x: Intent, y: Intent, z: Intent)
    requires Twins(x, y)
    ensures CandidateWins(x, z) == CandidateWins(y, z) && CandidateWins(z, x) == CandidateWins(z, y)
    ensures RepresentativeLess(x, z) == RepresentativeLess(y, z) && RepresentativeLess(z, x) == RepresentativeLess(z, y)
    ensures CanonicalLess(x, z) == CanonicalLess(y, z) && CanonicalLess(z, x) == CanonicalLess(z, y)
    ensures SupersededReason(x, z) == SupersededReason(y, z) && SupersededReason(z, x) == SupersededReason(z, y)
  {
    TwinsAlike(x, y);
    hide CanonicalKey;
  }

  lemma TwinsShareRole(now: int, m: multiset<Intent>, x: Intent, y: Intent)
    requires Twins(x, y) && x in m && y in m
    ensures IgnoredReason(now, m, x) == IgnoredReason(now, m, y)
    ensures Eligible(now, m, x) == Eligible(now, m, y)
    ensures Represents(now, m, x) ==> Represents(now, m, y)
  {
    TwinsAlike(x, y);
    hide Twins, ValidationError, Conflicted, RepresentativeLess;
    if Represents(now, m, x) {
      forall z ensures !Precedes(now, m, z, y) {
        assert !Precedes(now, m, z, x);
        TwinsCompare(x, y, z);
      }
    }
  }

  // ------------------------------------------------- replacing one intent

  function All(r: Arbitration): seq<Intent>
  {
    CandidatesOf(r) + IntentsOf(r.ignored)
  }

  function Replaced(s: seq<Outcome>, k: nat, z: Intent): (t: seq<Outcome>)
    requires k < |s|
    ensures IntentsOf(t) == IntentsOf(s)[k := z]
  {
    s[k := s[k].(intent := z)]
  }

  function Winners(r: Arbitration): nat
  {
    if r.winner.Some? then 1 else 0
  }

  /** The result with its k-th intent replaced. */
  function With(r: Arbitration, k: nat, z: Intent): (q: Arbitration)
    requires k < |All(r)|
  {
    var n := Winners(r);
    if k < n then r.(winner := Some(z))
    else if k < n + |r.superseded| then r.(superseded := Replaced(r.superseded, k - n, z))
    else r.(ignored := Replaced(r.ignored, k - n - |r.superseded|, z))
  }

  lemma WithAll(r: Arbitration, k: nat, z: Intent)
    requires k < |All(r)|
    ensures All(With(r, k, z)) == All(r)[k := z] && With(r, k, z).key == r.key
    ensures k < |CandidatesOf(r)| ==> CandidatesOf(With(r, k, z)) == CandidatesOf(r)[k := z] && With(r, k, z).ignored == r.ignored
    ensures k >= |CandidatesOf(r)| ==> CandidatesOf(With(r, k, z)) == CandidatesOf(r)
  {
    hide IntentsOf;
    assert |IntentsOf(r.superseded)| == |r.superseded| && |IntentsOf(r.ignored)| == |r.ignored|;
  }

  /** Everything a settled result must be except for the number of copies. */
  ghost predicate Shaped(now: int, m: multiset<Intent>, r: Arbitration)
  {
    && CandidatesRight(now, m, r.key, CandidatesOf(r))
    && (forall o | o in r.ignored :: o.reason == IgnoredReason(now, m, o.intent))
    && (r.winner.None? ==> r.superseded == [])
    && (forall o | o in r.superseded :: CandidateWins(r.winner.value, o.intent) && o.reason == SupersededReason(r.winner.value, o.intent))
    && Ordering.Sorted(OutcomeLess, r.superseded)
    && Ordering.Sorted(OutcomeLess, r.ignored)
    && r.reason == (if r.winner.Some? then Some(SelectedReason) else if r.ignored != [] then Some(r.ignored[0].reason) else None)
  }

  lemma SortedReplaced(s: seq<Outcome>, k: nat, z: Intent)
    requires k < |s| && Ordering.Sorted(OutcomeLess, s) && Twins(s[k].intent, z)
    ensures Ordering.Sorted(OutcomeLess, Replaced(s, k, z))
  {
    hide Twins, CanonicalLess;
    var t := Replaced(s, k, z);
    forall i, j | 0 <= i < j < |t| ensures !OutcomeLess(t[j], t[i]) {
      assert !OutcomeLess(s[j], s[i]);
      TwinsCompare(s[k].intent, z, s[i].intent);
      TwinsCompare(s[k].intent, z, s[j].intent);
    }
  }

  lemma CandidatesReplaced(now: int, m: multiset<Intent>, key: ConflictKey, s: seq<Intent>, k: nat, z: Intent)
    requires k < |s| && CandidatesRight(now, m, key, s) && Twins(s[k], z) && z in m
    ensures CandidatesRight(now, m, key, s[k := z])
  {
    hide Twins, Represents, ValidationError;
    var t := s[k := z];
    assert s[k] in s;
    assert s[k] in m by { RepresentsIsGiven(now, m, s[k]); }
    TwinsAlike(s[k], z);
    TwinsShareRole(now, m, s[k], z);
    forall c | c in t ensures Represents(now, m, c) && KeyOf(c) == key { assert c == z || c in s; }
    forall x | Eligible(now, m, x) && KeyOf(x) == key ensures HasKey(t, x.idempotencyKey) {
      assert HasKey(s, x.idempotencyKey);
      var c :| c in s && c.idempotencyKey == x.idempotencyKey;
      var n :| 0 <= n < |s| && s[n] == c;
      assert t[n].idempotencyKey == x.idempotencyKey;
    }
  }

  lemma RepresentsIsGiven(now: int, m: multiset<Intent>, x: Intent)
    requires Represents(now, m, x)
    ensures x in m
  {
  }

  lemma WinnerReplaced(now: int, m: multiset<Intent>, r: Arbitration, z: Intent)
    requires Shaped(now, m, r) && r.winner.Some? && Twins(r.winner.value, z) && z in m
    ensures Shaped(now, m, r.(winner := Some(z)))
  {
    hide Twins, CandidatesRight, CandidateWins, OutcomeLess, IgnoredReason, SupersededReason;
    var q := r.(winner := Some(z));
    CandidatesReplaced(now, m, r.key, CandidatesOf(r), 0, z);
    assert CandidatesOf(q) == CandidatesOf(r)[0 := z];
    forall o | o in q.superseded ensures CandidateWins(z, o.intent) && o.reason == SupersededReason(z, o.intent) {
      TwinsCompare(r.winner.value, z, o.intent);
    }
  }

  lemma SupersededReplaced(now: int, m: multiset<Intent>, r: Arbitration, k: nat, z: Intent)
    requires Shaped(now, m, r) && k < |r.superseded| && Twins(r.superseded[k].intent, z) && z in m
    ensures Shaped(now, m, r.(superseded := Replaced(r.superseded, k, z)))
  {
    hide Twins, CandidatesRight, CandidateWins, OutcomeLess, IgnoredReason, SupersededReason, IntentsOf;
    var q := r.(superseded := Replaced(r.superseded, k, z));
    var x := r.superseded[k].intent;
    assert |IntentsOf(r.superseded)| == |r.superseded| && IntentsOf(r.superseded)[k] == x;
    assert CandidatesOf(r)[k + 1] == x;
    CandidatesReplaced(now, m, r.key, CandidatesOf(r), k + 1, z);
    assert CandidatesOf(q) == CandidatesOf(r)[k + 1 := z];
    SortedReplaced(r.superseded, k, z);
    TwinsCompare(x, z, r.winner.value);
    assert r.superseded[k] in r.superseded;
    forall o | o in q.superseded ensures CandidateWins(q.winner.value, o.intent) && o.reason == SupersededReason(q.winner.value, o.intent) {
      var n :| 0 <= n < |q.superseded| && q.superseded[n] == o;
      assert n != k ==> o == r.superseded[n];
    }
  }

  lemma IgnoredReplaced(now: int, m: multiset<Intent>, r: Arbitration, k: nat, z: Intent)
    requires Shaped(now, m, r) && k < |r.ignored| && Twins(r.ignored[k].intent, z) && z in m && r.ignored[k].intent in m
    ensures Shaped(now, m, r.(ignored := Replaced(r.ignored, k, z)))
  {
    hide Twins, CandidatesRight, CandidateWins, OutcomeLess, IgnoredReason, SupersededReason;
    var q := r.(ignored := Replaced(r.ignored, k, z));
    SortedReplaced(r.ignored, k, z);
    TwinsShareRole(now, m, r.ignored[k].intent, z);
    assert r.ignored[k] in r.ignored;
    forall o | o in q.ignored ensures o.reason == IgnoredReason(now, m, o.intent) {
      var n :| 0 <= n < |q.ignored| && q.ignored[n] == o;
      assert n != k ==> o == r.ignored[n];
    }
  }

  lemma WithShaped(now: int, m: multiset<Intent>, r: Arbitration, k: nat, z: Intent)
    requires Shaped(now, m, r) && k < |All(r)| && Twins(All(r)[k], z) && z in m && All(r)[k] in m
    ensures Shaped(now, m, With(r, k, z))
  {
    hide Twins, Shaped, IntentsOf;
    var n := Winners(r);
    assert |IntentsOf(r.superseded)| == |r.superseded| && |IntentsOf(r.ignored)| == |r.ignored|;
    if k < n {
      WinnerReplaced(now, m, r, z);
    } else if k < n + |r.superseded| {
      assert All(r)[k] == r.superseded[k - n].intent;
      SupersededReplaced(now, m, r, k - n, z);
    } else {
      assert All(r)[k] == r.ignored[k - n - |r.superseded|].intent;
      IgnoredReplaced(now, m, r, k - n - |r.superseded|, z);
    }
  }

  // -------------------------------------------------------------- exchanging

  lemma Exchanged<T>(s: seq<T>, i: nat, j: nat)
    requires i < |s| && j < |s| && i != j
    ensures multiset(s[i := s[j]][j := s[i]]) == multiset(s)
  {
    assert multiset(s[i := s[j]]) == multiset(s) - multiset{s[i]} + multiset{s[j]};
    assert multiset(s[i := s[j]][j := s[i]]) == multiset(s[i := s[j]]) - multiset{s[j]} + multiset{s[i]};
  }

  lemma SettledIsShaped(now: int, m: multiset<Intent>, r: Arbitration)
    ensures Settled(now, m, r) <==> Shaped(now, m, r) && forall x :: multiset(All(r))[x] == if KeyOf(x) == r.key then m[x] else 0
  {
    hide CandidatesRight, CandidateWins, OutcomeLess, IgnoredReason, SupersededReason, IntentsOf, CandidatesOf;
    forall x ensures Copies(r, x) == multiset(All(r))[x] {}
  }

  lemma Filed(now: int, m: multiset<Intent>, r: Arbitration, x: Intent) returns (k: nat)
    requires Settled(now, m, r) && x in m && KeyOf(x) == r.key
    ensures k < |All(r)| && All(r)[k] == x
  {
    SettledIsShaped(now, m, r);
    hide Settled, Shaped, All;
    assert x in multiset(All(r));
    k :| 0 <= k < |All(r)| && All(r)[k] == x;
  }

  /** Two twins under one key can change places in its result. */
  lemma SettledExchange(now: int, m: multiset<Intent>, r: Arbitration, x: Intent, y: Intent) returns (q: Arbitration)
    requires Settled(now, m, r) && x in m && y in m && x != y && Twins(x, y) && KeyOf(x) == r.key
    ensures Settled(now, m, q) && q != r && q.key == r.key
  {
    TwinsAlike(x, y);
    var i := Filed(now, m, r, x);
    var j := Filed(now, m, r, y);
    SettledIsShaped(now, m, r);
    WithShaped(now, m, r, i, y);
    WithAll(r, i, y);
    var half := With(r, i, y);
    assert All(half)[j] == y && Twins(y, x) by { hide All; }
    WithShaped(now, m, half, j, x);
    WithAll(half, j, x);
    q := With(half, j, x);
    Exchanged(All(r), i, j);
    SettledIsShaped(now, m, q);
    hide Settled, Shaped, With, Twins;
    assert All(q)[i] == y;
  }

  lemma ResultOf(now: int, m: multiset<Intent>, rs: seq<Arbitration>, x: Intent) returns (n: nat)
    requires Arbitrated(now, m, rs) && x in m
    ensures n < |rs| && rs[n].key == KeyOf(x) && Settled(now, m, rs[n])
  {
    hide Settled, ResultLess;
    assert HasIntent(m, KeyOf(x));
    assert HasResult(rs, KeyOf(x));
    var r :| r in rs && r.key == KeyOf(x);
    n :| 0 <= n < |rs| && rs[n] == r;
  }

  lemma ArbitratedWith(now: int, m: multiset<Intent>, rs: seq<Arbitration>, n: nat, q: Arbitration)
    requires Arbitrated(now, m, rs) && n < |rs| && Settled(now, m, q) && q.key == rs[n].key
    ensures Arbitrated(now, m, rs[n := q])
  {
    hide Settled;
    var qs := rs[n := q];
    forall key ensures HasResult(qs, key) <==> HasResult(rs, key) {
      if HasResult(rs, key) {
        var r :| r in rs && r.key == key;
        var k :| 0 <= k < |rs| && rs[k] == r;
        assert qs[k] in qs && qs[k].key == key;
      }
      if HasResult(qs, key) {
        var r :| r in qs && r.key == key;
        var k :| 0 <= k < |qs| && qs[k] == r;
        assert rs[k] in rs && rs[k].key == key;
      }
    }
    forall i, j | 0 <= i < j < |qs| ensures !ResultLess(qs[j], qs[i]) && qs[i].key != qs[j].key {
      assert !ResultLess(rs[j], rs[i]) && rs[i].key != rs[j].key;
    }
    forall r | r in qs ensures Settled(now, m, r) { assert r == q || r in rs; }
  }

  lemma TwinsShow(now: int, m: multiset<Intent>, rs: seq<Arbitration>, x: Intent, y: Intent) returns (qs: seq<Arbitration>)
    requires Arbitrated(now, m, rs) && x in m && y in m && x != y && Twins(x, y)
    ensures Arbitrated(now, m, qs) && qs != rs
  {
    hide Settled, Arbitrated, Twins;
    var n := ResultOf(now, m, rs, x);
    var q := SettledExchange(now, m, rs[n], x, y);
    ArbitratedWith(now, m, rs, n, q);
    qs := rs[n := q];
    assert qs[n] != rs[n];
  }

  /** The result of arbitrating a multiset is determined exactly when no two
      different intents of it share a canonical key. */
  lemma ResultDeterminedExactly(now: int, m: multiset<Intent>, rs: seq<Arbitration>)
    requires Arbitrated(now, m, rs)
    ensures (forall qs :: Arbitrated(now, m, qs) ==> qs == rs) <==> KeysIdentify(m)
  {
    hide Arbitrated, CanonicalKey;
    if KeysIdentify(m) {
      forall qs | Arbitrated(now, m, qs) ensures qs == rs { ArbitrationUnique(now, m, qs, rs); }
    } else {
      var x, y :| x in m && y in m && CanonicalKey(x) == CanonicalKey(y) && x != y;
      assert Twins(x, y);
      var qs := TwinsShow(now, m, rs, x, y);
    }
  }

  // ---------------------------------------------------------------- witness

  lemma SpellingKeepsKey(i: Intent, evidence: seq<string>)
    requires CanonicalRefs(i.evidence) == CanonicalRefs(evidence)
    ensures CanonicalKey(i) == CanonicalKey(i.(evidence := evidence))
  {
    hide CanonicalRefs, Text.Encode, ProducerText, AuthorityText, ResourceText, OperationText, StateText, ExpiryText;
    assert SemanticParts(i) == SemanticParts(i.(evidence := evidence));
  }

  lemma TieRepresents(now: int, m: multiset<Intent>, i: Intent)
    requires i in m && forall x | x in m :: Active(now, x) && CanonicalKey(x) == CanonicalKey(i)
    ensures Represents(now, m, i)
  {
    hide ValidationError, Signature, RepresentativeLess;
    forall a, b, key ensures !Clash(now, m, a, b, key) {
      if a in m && b in m { CanonicalKeyParts(a, b); }
    }
    forall x ensures !Precedes(now, m, x, i) {
      if x in m { RepresentativeTotal(x, i); }
    }
  }

  /** The result that lets one twin stand for both. */
  function Standing(i: Intent, j: Intent): Arbitration
  {
    Arbitration(KeyOf(i), Some(i), [], [Outcome(j, DuplicateReason)], Some(SelectedReason))
  }

  lemma StandingIsArbitrated(now: int, i: Intent, j: Intent)
    requires Active(now, i) && Active(now, j) && i != j && Twins(i, j)
    ensures Arbitrated(now, multiset{i, j}, [Standing(i, j)])
  {
    var m := multiset{i, j};
    TwinsAlike(i, j);
    TieRepresents(now, m, i);
    TieRepresents(now, m, j);
    RepresentsIsEligible(now, m, j);
    EligibleReason(now, m, j);
    hide Represents, Eligible, IgnoredReason, Settled, Arbitrated, Twins, Active;
    StandingIsSettled(now, i, j);
    assert i in m;
    AloneIsArbitrated(now, m, Standing(i, j), KeyOf(i));
  }

  lemma StandingIsSettled(now: int, i: Intent, j: Intent)
    requires var m := multiset{i, j};
             Represents(now, m, i) && IgnoredReason(now, m, j) == DuplicateReason
    requires i != j && KeyOf(i) == KeyOf(j) && i.idempotencyKey == j.idempotencyKey
    ensures Settled(now, multiset{i, j}, Standing(i, j))
  {
    hide Represents, Eligible, IgnoredReason;
    var m, r := multiset{i, j}, Standing(i, j);
    assert CandidatesOf(r) == [i] && IntentsOf(r.ignored) == [j];
    forall x | Eligible(now, m, x) ensures HasKey([i], x.idempotencyKey) {
      EligibleIsGiven(now, m, x);
      assert i in [i];
    }
    forall x ensures Copies(r, x) == if KeyOf(x) == KeyOf(i) then m[x] else 0 {}
  }

  lemma EligibleIsGiven(now: int, m: multiset<Intent>, x: Intent)
    requires Eligible(now, m, x)
    ensures x in m
  {
  }

  /** A single settled result is the arbitration of intents with one conflict key. */
  lemma AloneIsArbitrated(now: int, m: multiset<Intent>, r: Arbitration, key: ConflictKey)
    requires Settled(now, m, r) && r.key == key && (exists x :: x in m) && forall x | x in m :: KeyOf(x) == key
    ensures Arbitrated(now, m, [r])
  {
    hide Settled, ResultLess, KeyOf;
    forall k ensures HasResult([r], k) <==> HasIntent(m, k) {
      assert r in [r];
      var x :| x in m;
      assert KeyOf(x) == key;
    }
  }

  lemma RepresentsIsEligible(now: int, m: multiset<Intent>, i: Intent)
    requires Represents(now, m, i)
    ensures Eligible(now, m, i)
  {
  }

  lemma EligibleReason(now: int, m: multiset<Intent>, i: Intent)
    requires Eligible(now, m, i)
    ensures IgnoredReason(now, m, i) == DuplicateReason
  {
  }

  /** Two spellings of one evidence set have two different arbitrations: either
      can win while the other is dropped as its duplicate. */
  lemma EvidenceSpellingIsVisible(now: int, i: Intent, j: Intent)
    requires Active(now, i) && Active(now, j)
    requires j == i.(evidence := j.evidence) && i.evidence != j.evidence
    requires forall y :: y in Trimmed(i.evidence) <==> y in Trimmed(j.evidence)
    ensures Arbitrated(now, multiset{i, j}, [Standing(i, j)]) && Arbitrated(now, multiset{i, j}, [Standing(j, i)])
    ensures [Standing(i, j)] != [Standing(j, i)]
  {
    CanonicalRefsBySet(i.evidence, j.evidence);
    SpellingKeepsKey(i, j.evidence);
    hide Active, CanonicalKey, Arbitrated;
    StandingIsArbitrated(now, i, j);
    StandingIsArbitrated(now, j, i);
    assert multiset{j, i} == multiset{i, j};
    assert [Standing(i, j)][0] != [Standing(j, i)][0];
  }

  const PLAIN := Intent("i", "k", AdminUI, ManualHold, AccountResource(1), SetAccountSchedulable, Schedulable(true),
                        "actor", "reason", ["a", "b"], "", "", 1, None)
  const TURNED := PLAIN.(evidence := ["b", "a"])

  lemma PlainIsActive(now: int)
    ensures Active(now, PLAIN) && Active(now, TURNED)
  {
    Text.TrimSolid("i");
    Text.TrimSolid("k");
    Text.TrimSolid("actor");
    Text.TrimSolid("reason");
    hide Text.Trim;
  }

  /** A concrete pair of such intents. */
  lemma SpellingExample(now: int)
    ensures Arbitrated(now, multiset{PLAIN, TURNED}, [Standing(PLAIN, TURNED)])
    ensures Arbitrated(now, multiset{PLAIN, TURNED}, [Standing(TURNED, PLAIN)])
    ensures [Standing(PLAIN, TURNED)] != [Standing(TURNED, PLAIN)]
  {
    hide Active, Arbitrated, Text.Trim;
    PlainIsActive(now);
    assert PLAIN.evidence[0] != TURNED.evidence[0];
    assert Trimmed(PLAIN.evidence) == [Text.Trim("a"), Text.Trim("b")];
    assert Trimmed(TURNED.evidence) == [Text.Trim("b"), Text.Trim("a")];
    EvidenceSpellingIsVisible(now, PLAIN, TURNED);
  }
}

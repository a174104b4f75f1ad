/** Arbitrate itself: sort, file into buckets, group by idempotency key, settle
    every bucket, order the results. Each sort may break ties arbitrarily and
    buckets are visited in any order, as Go's sort.Slice and maps allow. */
module ArbiterRun {
  import opened Options
  import opened Intents
  import opened Arbiter
  import ArbiterLaws
  import Ordering
  import Text

  datatype Bucket = Bucket(candidates: seq<Intent>, ignored: seq<Outcome>)

  type Buckets = map<ConflictKey, Bucket>

  function EnsureBucket(buckets: Buckets, key: ConflictKey): Buckets
  {
    if key in buckets then buckets else buckets[key := Bucket([], [])]
  }

  function Ignore(buckets: Buckets, key: ConflictKey, o: Outcome): Buckets
  {
    var b := EnsureBucket(buckets, key);
    b[key := b[key].(ignored := b[key].ignored + [o])]
  }

  function Nominate(buckets: Buckets, key: ConflictKey, i: Intent): Buckets
  {
    var b := EnsureBucket(buckets, key);
    b[key := b[key].(candidates := b[key].candidates + [i])]
  }

  function BucketCopies(b: Bucket, x: Intent): nat
  {
    multiset(b.candidates)[x] + multiset(IntentsOf(b.ignored))[x]
  }

  /** How often an intent is filed, in the only bucket it may be filed in. */
  function Stored(buckets: Buckets, x: Intent): nat
  {
    if KeyOf(x) in buckets then BucketCopies(buckets[KeyOf(x)], x) else 0
  }

  lemma IgnoreStores(buckets: Buckets, o: Outcome, x: Intent)
    ensures Stored(Ignore(buckets, KeyOf(o.intent), o), x) == Stored(buckets, x) + (if x == o.intent then 1 else 0)
  {
    var b := EnsureBucket(buckets, KeyOf(o.intent))[KeyOf(o.intent)];
    assert IntentsOf(b.ignored + [o]) == IntentsOf(b.ignored) + [o.intent];
    assert IntentsOf([]) == [];
  }

  lemma NominateStores(buckets: Buckets, i: Intent, x: Intent)
    ensures Stored(Nominate(buckets, KeyOf(i), i), x) == Stored(buckets, x) + (if x == i then 1 else 0)
  {
    assert IntentsOf([]) == [];
  }

  // --------------------------------------------------------- first pass

  function Queued(active: map<string, seq<Intent>>, x: Intent): nat
  {
    if x.idempotencyKey in active then multiset(active[x.idempotencyKey])[x] else 0
  }

  function InactiveReason(i: Intent): Reason
  {
    if !Valid(i) then InvalidReason else ExpiredReason
  }

  ghost predicate Inactive(now: int, key: ConflictKey, b: Bucket)
  {
    && b.candidates == []
    && forall o | o in b.ignored :: KeyOf(o.intent) == key && !Active(now, o.intent) && o.reason == InactiveReason(o.intent)
  }

  ghost predicate Waiting(now: int, key: string, s: seq<Intent>)
  {
    s != [] && forall i | i in s :: Active(now, i) && i.idempotencyKey == key
  }

  /** Inactive intents are in buckets, active ones wait under their idempotency key. */
  ghost predicate Sifted(now: int, m: multiset<Intent>, buckets: Buckets, active: map<string, seq<Intent>>)
  {
    && (forall key :: key in buckets <==> HasIntent(m, key))
    && (forall key | key in buckets :: Inactive(now, key, buckets[key]))
    && (forall key | key in active :: Waiting(now, key, active[key]))
    && (forall x :: Stored(buckets, x) == if Active(now, x) then 0 else m[x])
    && (forall x :: Queued(active, x) == if Active(now, x) then m[x] else 0)
  }

  lemma SiftedEmpty(now: int)
    ensures Sifted(now, multiset{}, map[], map[])
  {
  }

  lemma HasIntentGrows(m: multiset<Intent>, i: Intent, key: ConflictKey)
    ensures HasIntent(m + multiset{i}, key) <==> HasIntent(m, key) || key == KeyOf(i)
  {
    assert i in m + multiset{i};
    if HasIntent(m, key) {
      var x :| x in m && KeyOf(x) == key;
      assert x in m + multiset{i};
    }
  }

  lemma BucketKeysGrow(m: multiset<Intent>, buckets: Buckets, b: Buckets, i: Intent)
    requires forall key :: key in buckets <==> HasIntent(m, key)
    requires b.Keys == buckets.Keys + {KeyOf(i)}
    ensures forall key :: key in b <==> HasIntent(m + multiset{i}, key)
  {
    hide HasIntent, KeyOf;
    forall key ensures key in b <==> HasIntent(m + multiset{i}, key) { HasIntentGrows(m, i, key); }
  }

  lemma SiftInactive(now: int, m: multiset<Intent>, buckets: Buckets, active: map<string, seq<Intent>>, i: Intent)
    requires Sifted(now, m, buckets, active) && !Active(now, i)
    ensures Sifted(now, m + multiset{i}, Ignore(buckets, KeyOf(i), Outcome(i, InactiveReason(i))), active)
  {
    hide Active, InactiveReason, Stored, HasIntent, Queued, Waiting;
    var o := Outcome(i, InactiveReason(i));
    var b := Ignore(buckets, KeyOf(i), o);
    BucketKeysGrow(m, buckets, b, i);
    forall x ensures Stored(b, x) == if Active(now, x) then 0 else (m + multiset{i})[x] { IgnoreStores(buckets, o, x); }
    forall x ensures Queued(active, x) == if Active(now, x) then (m + multiset{i})[x] else 0 {}
    forall key | key in b ensures Inactive(now, key, b[key]) {
      assert key in buckets ==> Inactive(now, key, buckets[key]);
    }
  }

  lemma EnsureStores(buckets: Buckets, key: ConflictKey, x: Intent)
    ensures Stored(EnsureBucket(buckets, key), x) == Stored(buckets, x)
  {
    assert IntentsOf([]) == [];
  }

  lemma SiftActive(now: int, m: multiset<Intent>, buckets: Buckets, active: map<string, seq<Intent>>, i: Intent)
    requires Sifted(now, m, buckets, active) && Active(now, i)
    ensures var list := if i.idempotencyKey in active then active[i.idempotencyKey] else [];
            Sifted(now, m + multiset{i}, EnsureBucket(buckets, KeyOf(i)), active[i.idempotencyKey := list + [i]])
  {
    hide Active, InactiveReason, Stored, HasIntent;
    var list := if i.idempotencyKey in active then active[i.idempotencyKey] else [];
    var b, a := EnsureBucket(buckets, KeyOf(i)), active[i.idempotencyKey := list + [i]];
    BucketKeysGrow(m, buckets, b, i);
    forall x ensures Stored(b, x) == if Active(now, x) then 0 else (m + multiset{i})[x] {
      EnsureStores(buckets, KeyOf(i), x);
    }
    forall x ensures Queued(a, x) == if Active(now, x) then (m + multiset{i})[x] else 0 {
      assert Queued(a, x) == Queued(active, x) + (if x == i then 1 else 0);
    }
    forall key | key in b ensures Inactive(now, key, b[key]) {
      assert key in buckets ==> Inactive(now, key, buckets[key]);
    }
    forall key | key in a ensures Waiting(now, key, a[key]) {
      assert key in active ==> Waiting(now, key, active[key]);
    }
  }

  method Sift(now: int, working: seq<Intent>) returns (buckets: Buckets, active: map<string, seq<Intent>>)
    ensures Sifted(now, multiset(working), buckets, active)
  {
    hide Sifted, Active, InactiveReason;
    buckets, active := map[], map[];
    SiftedEmpty(now);
    for n := 0 to |working|
      invariant Sifted(now, multiset(working[..n]), buckets, active)
    {
      var i := working[n];
      assert working[..n + 1] == working[..n] + [i];
      if !Active(now, i) {
        SiftInactive(now, multiset(working[..n]), buckets, active, i);
        buckets := Ignore(buckets, KeyOf(i), Outcome(i, InactiveReason(i)));
      } else {
        SiftActive(now, multiset(working[..n]), buckets, active, i);
        buckets := EnsureBucket(buckets, KeyOf(i));
        var list := if i.idempotencyKey in active then active[i.idempotencyKey] else [];
        active := active[i.idempotencyKey := list + [i]];
      }
    }
    assert working[..|working|] == working;
  }

  // -------------------------------------------------------- second pass

  ghost predicate BucketRight(now: int, m: multiset<Intent>, key: ConflictKey, b: Bucket, done: set<string>)
  {
    && (forall o | o in b.ignored :: KeyOf(o.intent) == key && o.reason == IgnoredReason(now, m, o.intent))
    && (forall c | c in b.candidates :: KeyOf(c) == key && Represents(now, m, c) && c.idempotencyKey in done)
    && DistinctKeys(b.candidates)
    && (forall x | Eligible(now, m, x) && KeyOf(x) == key && x.idempotencyKey in done :: HasKey(b.candidates, x.idempotencyKey))
  }

  /** Everything but the active intents whose idempotency key is still to come is filed. */
  ghost predicate Filing(now: int, m: multiset<Intent>, buckets: Buckets, done: set<string>)
  {
    && (forall key :: key in buckets <==> HasIntent(m, key))
    && (forall key | key in buckets :: BucketRight(now, m, key, buckets[key], done))
    && (forall x :: Stored(buckets, x) == if Active(now, x) && x.idempotencyKey !in done then 0 else m[x])
  }

  /** The filing while one idempotency key is being worked through. */
  ghost predicate FilingPart(now: int, m: multiset<Intent>, buckets: Buckets, done: set<string>, key: string, filed: multiset<Intent>)
  {
    && (forall k :: k in buckets <==> HasIntent(m, k))
    && (forall k | k in buckets :: BucketRight(now, m, k, buckets[k], done))
    && (forall x :: Stored(buckets, x) == if Active(now, x) && x.idempotencyKey == key then filed[x] else if Active(now, x) && x.idempotencyKey !in done then 0 else m[x])
  }

  lemma InactiveIsRight(now: int, m: multiset<Intent>, key: ConflictKey, b: Bucket)
    requires Inactive(now, key, b)
    ensures BucketRight(now, m, key, b, {})
  {
    hide ValidationError, Conflicted, Represents;
  }

  lemma SiftedStartsFiling(now: int, m: multiset<Intent>, buckets: Buckets, active: map<string, seq<Intent>>)
    requires Sifted(now, m, buckets, active)
    ensures Filing(now, m, buckets, {})
  {
    hide BucketRight, Active, Stored, HasIntent, Inactive;
    forall key | key in buckets ensures BucketRight(now, m, key, buckets[key], {}) {
      InactiveIsRight(now, m, key, buckets[key]);
    }
  }

  lemma IgnoreKeepsRight(now: int, m: multiset<Intent>, key: ConflictKey, b: Bucket, done: set<string>, o: Outcome)
    requires BucketRight(now, m, key, b, done)
    requires KeyOf(o.intent) == key && o.reason == IgnoredReason(now, m, o.intent)
    ensures BucketRight(now, m, key, b.(ignored := b.ignored + [o]), done)
  {
    hide IgnoredReason, Represents, Eligible, HasKey, DistinctKeys;
  }

  lemma IgnoreFiles(now: int, m: multiset<Intent>, buckets: Buckets, done: set<string>, key: string, filed: multiset<Intent>, o: Outcome)
    requires FilingPart(now, m, buckets, done, key, filed)
    requires o.intent in m && Active(now, o.intent) && o.intent.idempotencyKey == key
    requires o.reason == IgnoredReason(now, m, o.intent)
    ensures FilingPart(now, m, Ignore(buckets, KeyOf(o.intent), o), done, key, filed + multiset{o.intent})
  {
    hide BucketRight, Active, Stored, IgnoredReason;
    assert HasIntent(m, KeyOf(o.intent));
    var b := Ignore(buckets, KeyOf(o.intent), o);
    IgnoreKeepsRight(now, m, KeyOf(o.intent), buckets[KeyOf(o.intent)], done, o);
    forall x ensures Stored(b, x) == if Active(now, x) && x.idempotencyKey == key then (filed + multiset{o.intent})[x]
                                     else if Active(now, x) && x.idempotencyKey !in done then 0 else m[x] {
      IgnoreStores(buckets, o, x);
    }
  }

  /** The list of one idempotency key holds exactly its active intents. */
  ghost predicate Exactly(now: int, m: multiset<Intent>, key: string, s: seq<Intent>)
  {
    forall x :: multiset(s)[x] == if Active(now, x) && x.idempotencyKey == key then m[x] else 0
  }

  lemma ExactlyMember(now: int, m: multiset<Intent>, key: string, s: seq<Intent>, x: Intent)
    requires Exactly(now, m, key, s)
    ensures x in s <==> Active(now, x) && x.idempotencyKey == key && x in m
  {
    hide Active;
    assert x in s <==> x in multiset(s);
    assert multiset(s)[x] == if Active(now, x) && x.idempotencyKey == key then m[x] else 0;
  }

  predicate SameSemantics(s: seq<Intent>)
  {
    forall k | 0 <= k < |s| :: Signature(s[k]) == Signature(s[0])
  }

  lemma SameSemanticsMeansNoConflict(now: int, m: multiset<Intent>, key: string, s: seq<Intent>)
    requires Exactly(now, m, key, s)
    ensures SameSemantics(s) <==> !Conflicted(now, m, key)
  {
    hide Active, Signature, Exactly;
    if SameSemantics(s) {
      forall a, b ensures !Clash(now, m, a, b, key) {
        ExactlyMember(now, m, key, s, a);
        ExactlyMember(now, m, key, s, b);
      }
    } else {
      var k :| 0 <= k < |s| && Signature(s[k]) != Signature(s[0]);
      ExactlyMember(now, m, key, s, s[k]);
      ExactlyMember(now, m, key, s, s[0]);
      assert Clash(now, m, s[k], s[0], key);
    }
  }

  lemma FilingStartsPart(now: int, m: multiset<Intent>, buckets: Buckets, done: set<string>, key: string)
    requires Filing(now, m, buckets, done) && key !in done
    ensures FilingPart(now, m, buckets, done, key, multiset{})
  {
    hide BucketRight, Active, Stored, HasIntent;
  }

  lemma PartEndsFiling(now: int, m: multiset<Intent>, buckets: Buckets, done: set<string>, key: string, s: seq<Intent>)
    requires FilingPart(now, m, buckets, done, key, multiset(s)) && Exactly(now, m, key, s)
    requires forall k | k in buckets :: BucketRight(now, m, k, buckets[k], done + {key})
    ensures Filing(now, m, buckets, done + {key})
  {
    hide BucketRight, Active, Stored, HasIntent;
    forall x ensures Stored(buckets, x) == if Active(now, x) && x.idempotencyKey !in done + {key} then 0 else m[x] {
      assert multiset(s)[x] == if Active(now, x) && x.idempotencyKey == key then m[x] else 0;
    }
  }

  lemma ConflictWidensDone(now: int, m: multiset<Intent>, k: ConflictKey, b: Bucket, done: set<string>, key: string)
    requires BucketRight(now, m, k, b, done) && Conflicted(now, m, key)
    ensures BucketRight(now, m, k, b, done + {key})
  {
    hide IgnoredReason, Represents, HasKey, DistinctKeys, Conflicted, Active;
  }

  method FileConflict(now: int, ghost m: multiset<Intent>, start: Buckets, ghost done: set<string>, ghost key: string, s: seq<Intent>)
    returns (buckets: Buckets)
    requires Filing(now, m, start, done) && key !in done && Exactly(now, m, key, s) && Conflicted(now, m, key)
    ensures Filing(now, m, buckets, done + {key})
  {
    hide FilingPart, Filing, Exactly, ValidationError, Signature, Conflicted, Ignore, BucketRight, KeyOf;
    buckets := start;
    FilingStartsPart(now, m, buckets, done, key);
    assert multiset(s[..0]) == multiset{};
    for n := 0 to |s|
      invariant FilingPart(now, m, buckets, done, key, multiset(s[..n]))
    {
      ExactlyMember(now, m, key, s, s[n]);
      assert s[..n + 1] == s[..n] + [s[n]];
      IgnoreFiles(now, m, buckets, done, key, multiset(s[..n]), Outcome(s[n], IdempotencyConflict));
      buckets := Ignore(buckets, KeyOf(s[n]), Outcome(s[n], IdempotencyConflict));
    }
    assert s[..|s|] == s;
    PartConflict(now, m, buckets, done, key, s);
  }

  lemma PartConflict(now: int, m: multiset<Intent>, buckets: Buckets, done: set<string>, key: string, s: seq<Intent>)
    requires FilingPart(now, m, buckets, done, key, multiset(s)) && Exactly(now, m, key, s) && Conflicted(now, m, key)
    ensures Filing(now, m, buckets, done + {key})
  {
    hide BucketRight, Active, Stored, HasIntent, Exactly, Conflicted;
    forall k | k in buckets ensures BucketRight(now, m, k, buckets[k], done + {key}) {
      ConflictWidensDone(now, m, k, buckets[k], done, key);
    }
    PartEndsFiling(now, m, buckets, done, key, s);
  }

  /** Idempotent duplicates share their representative's bucket. */
  lemma DuplicatesShareBucket(s: seq<Intent>, k: nat)
    requires SameSemantics(s) && k < |s|
    ensures KeyOf(s[k]) == KeyOf(s[0])
  {
    hide Signature;
    SignatureDeterminesIntent(s[k], s[0]);
  }

  lemma FirstRepresents(now: int, m: multiset<Intent>, key: string, s: seq<Intent>)
    requires Exactly(now, m, key, s) && s != [] && Ordering.Sorted(RepresentativeLess, s) && !Conflicted(now, m, key)
    ensures Represents(now, m, s[0]) && s[0].idempotencyKey == key
  {
    hide Active, Exactly, Conflicted, RepresentativeLess;
    ExactlyMember(now, m, key, s, s[0]);
    forall x ensures !Precedes(now, m, x, s[0]) {
      ExactlyMember(now, m, key, s, x);
      RepresentativeTotal(s[0], s[0]);
      if x in s {
        var k :| 0 <= k < |s| && s[k] == x;
        assert k > 0 ==> !RepresentativeLess(s[k], s[0]);
      }
    }
  }

  lemma NominateKeepsRight(now: int, m: multiset<Intent>, key: ConflictKey, b: Bucket, done: set<string>, i: Intent)
    requires BucketRight(now, m, key, b, done)
    requires Represents(now, m, i) && KeyOf(i) == key && i.idempotencyKey !in done
    ensures BucketRight(now, m, key, b.(candidates := b.candidates + [i]), done + {i.idempotencyKey})
  {
    hide IgnoredReason, Represents, Eligible;
    var s := b.candidates + [i];
    forall n | 0 <= n < |b.candidates| ensures s[n].idempotencyKey != i.idempotencyKey {
      assert s[n] in b.candidates;
    }
    forall x | Eligible(now, m, x) && KeyOf(x) == key && x.idempotencyKey in done + {i.idempotencyKey}
      ensures HasKey(s, x.idempotencyKey)
    {
      if x.idempotencyKey == i.idempotencyKey {
        assert i in s;
      } else {
        assert HasKey(b.candidates, x.idempotencyKey);
        var c :| c in b.candidates && c.idempotencyKey == x.idempotencyKey;
        assert c in s;
      }
    }
  }

  lemma OthersWidenDone(now: int, m: multiset<Intent>, k: ConflictKey, b: Bucket, done: set<string>, i: Intent)
    requires BucketRight(now, m, k, b, done) && Eligible(now, m, i) && KeyOf(i) != k
    ensures BucketRight(now, m, k, b, done + {i.idempotencyKey})
  {
    hide IgnoredReason, Represents, HasKey, DistinctKeys, Conflicted, Active;
    forall x | Eligible(now, m, x) && KeyOf(x) == k && x.idempotencyKey in done + {i.idempotencyKey}
      ensures HasKey(b.candidates, x.idempotencyKey)
    {
      if x.idempotencyKey == i.idempotencyKey { EligibleShareKey(now, m, i, x); }
    }
  }

  lemma EligibleShareKey(now: int, m: multiset<Intent>, i: Intent, x: Intent)
    requires Eligible(now, m, i) && Eligible(now, m, x) && i.idempotencyKey == x.idempotencyKey
    ensures Signature(i) == Signature(x) && KeyOf(i) == KeyOf(x)
  {
    hide Active, Signature;
    assert !Clash(now, m, i, x, i.idempotencyKey);
    SignatureDeterminesIntent(i, x);
  }

  lemma NominateFiles(now: int, m: multiset<Intent>, buckets: Buckets, done: set<string>, i: Intent)
    requires Filing(now, m, buckets, done) && i.idempotencyKey !in done && Represents(now, m, i)
    ensures FilingPart(now, m, Nominate(buckets, KeyOf(i), i), done + {i.idempotencyKey}, i.idempotencyKey, multiset{i})
  {
    hide BucketRight, Active, Stored, Represents, Conflicted;
    assert Eligible(now, m, i) by { RepresentsIsEligible(now, m, i); }
    assert HasIntent(m, KeyOf(i));
    var b := Nominate(buckets, KeyOf(i), i);
    NominateKeepsRight(now, m, KeyOf(i), buckets[KeyOf(i)], done, i);
    forall k | k in b ensures BucketRight(now, m, k, b[k], done + {i.idempotencyKey}) {
      if k != KeyOf(i) { OthersWidenDone(now, m, k, buckets[k], done, i); }
    }
    forall x ensures Stored(b, x) == if Active(now, x) && x.idempotencyKey == i.idempotencyKey then multiset{i}[x]
                                     else if Active(now, x) && x.idempotencyKey !in done + {i.idempotencyKey} then 0 else m[x] {
      NominateStores(buckets, i, x);
    }
  }

  lemma RepresentsIsEligible(now: int, m: multiset<Intent>, i: Intent)
    requires Represents(now, m, i)
    ensures Eligible(now, m, i)
  {
    hide Active;
  }

  lemma DuplicateReasonRight(now: int, m: multiset<Intent>, i: Intent)
    requires Active(now, i) && !Conflicted(now, m, i.idempotencyKey)
    ensures IgnoredReason(now, m, i) == DuplicateReason
  {
    hide ValidationError, Conflicted;
  }

  method FileDuplicates(now: int, ghost m: multiset<Intent>, start: Buckets, ghost done: set<string>, ghost key: string, s: seq<Intent>)
    returns (buckets: Buckets)
    requires Filing(now, m, start, done) && key !in done && Exactly(now, m, key, s) && s != []
    requires Ordering.Sorted(RepresentativeLess, s) && SameSemantics(s)
    ensures Filing(now, m, buckets, done + {key})
  {
    hide FilingPart, Filing, Exactly, Valid, Active, SameSemantics, Conflicted, Ignore, Nominate, BucketRight, KeyOf, RepresentativeLess;
    SameSemanticsMeansNoConflict(now, m, key, s);
    FirstRepresents(now, m, key, s);
    NominateFiles(now, m, start, done, s[0]);
    buckets := Nominate(start, KeyOf(s[0]), s[0]);
    assert multiset(s[..1]) == multiset{s[0]};
    for n := 1 to |s|
      invariant FilingPart(now, m, buckets, done + {key}, key, multiset(s[..n]))
    {
      ExactlyMember(now, m, key, s, s[n]);
      assert s[..n + 1] == s[..n] + [s[n]];
      DuplicateReasonRight(now, m, s[n]);
      IgnoreFiles(now, m, buckets, done + {key}, key, multiset(s[..n]), Outcome(s[n], DuplicateReason));
      DuplicatesShareBucket(s, n);
      buckets := Ignore(buckets, KeyOf(s[0]), Outcome(s[n], DuplicateReason));
    }
    assert s[..|s|] == s;
    PartSettled(now, m, buckets, done, key, s);
  }

  lemma PartSettled(now: int, m: multiset<Intent>, buckets: Buckets, done: set<string>, key: string, s: seq<Intent>)
    requires FilingPart(now, m, buckets, done + {key}, key, multiset(s)) && Exactly(now, m, key, s)
    ensures Filing(now, m, buckets, done + {key})
  {
    hide BucketRight, Active, Stored, HasIntent;
    forall x ensures Stored(buckets, x) == if Active(now, x) && x.idempotencyKey !in done + {key} then 0 else m[x] {
      assert multiset(s)[x] == if Active(now, x) && x.idempotencyKey == key then m[x] else 0;
    }
  }

  /** The idempotency keys in ascending order. */
  method SortedKeys(active: map<string, seq<Intent>>) returns (keys: seq<string>)
    ensures forall k :: k in keys <==> k in active
    ensures forall i, j | 0 <= i < j < |keys| :: keys[i] != keys[j]
  {
    var left := active.Keys;
    var all: seq<string> := [];
    while left != {}
      invariant left <= active.Keys
      invariant forall k :: k in all <==> k in active && k !in left
      invariant ArbiterLaws.Distinct(all)
    {
      var k :| k in left;
      all := all + [k];
      left := left - {k};
    }
    StringOrderIsStrictWeak();
    keys := Ordering.SortSlice(Text.Less, all);
    forall k ensures k in keys <==> k in all && multiset(keys)[k] <= 1 {
      assert k in keys <==> k in multiset(keys);
      assert k in all <==> k in multiset(all);
      ArbiterLaws.DistinctCount(all, k);
    }
    CountsMeanDistinct(keys);
  }

  lemma {:induction false} CountsMeanDistinct(s: seq<string>)
    requires forall k :: multiset(s)[k] <= 1
    ensures ArbiterLaws.Distinct(s)
  {
    if s != [] {
      assert s == [s[0]] + s[1..];
      assert multiset(s) == multiset{s[0]} + multiset(s[1..]);
      assert forall k :: multiset(s[1..])[k] <= multiset(s)[k];
      CountsMeanDistinct(s[1..]);
      assert multiset(s)[s[0]] == 1 + multiset(s[1..])[s[0]];
      assert s[0] !in multiset(s[1..]);
      assert forall j | 0 < j < |s| :: s[j] in multiset(s[1..]) by {
        forall j | 0 < j < |s| ensures s[j] in multiset(s[1..]) { assert s[1..][j - 1] == s[j]; }
      }
    }
  }

  lemma QueuedIsExact(now: int, m: multiset<Intent>, buckets: Buckets, active: map<string, seq<Intent>>, key: string, s: seq<Intent>)
    requires Sifted(now, m, buckets, active) && key in active && multiset(s) == multiset(active[key])
    ensures Exactly(now, m, key, s) && s != []
  {
    hide Active, Stored, HasIntent, Inactive;
    assert Waiting(now, key, active[key]);
    assert |multiset(s)| == |multiset(active[key])|;
    forall x ensures multiset(s)[x] == if Active(now, x) && x.idempotencyKey == key then m[x] else 0 {
      assert Queued(active, x) == if Active(now, x) then m[x] else 0;
      assert x in multiset(active[key]) <==> x in active[key];
    }
  }

  method FileActive(now: int, ghost m: multiset<Intent>, start: Buckets, active: map<string, seq<Intent>>) returns (buckets: Buckets)
    requires Sifted(now, m, start, active)
    ensures Filing(now, m, buckets, active.Keys)
  {
    hide Sifted, Filing, Exactly, Valid, Conflicted, RepresentativeLess, Signature;
    SiftedStartsFiling(now, m, start, active);
    RepresentativeLessStrictWeak();
    buckets := start;
    ghost var done: set<string> := {};
    var keys := SortedKeys(active);
    for n := 0 to |keys|
      invariant done == set k | k in keys[..n]
      invariant Filing(now, m, buckets, done)
    {
      var key := keys[n];
      assert keys[..n + 1] == keys[..n] + [key];
      assert key in keys && key !in done;
      var candidates := Ordering.SortSlice(RepresentativeLess, active[key]);
      QueuedIsExact(now, m, start, active, key, candidates);
      SameSemanticsMeansNoConflict(now, m, key, candidates);
      if !SameSemantics(candidates) {
        buckets := FileConflict(now, m, buckets, done, key, candidates);
      } else {
        buckets := FileDuplicates(now, m, buckets, done, key, candidates);
      }
      done := done + {key};
    }
    assert keys[..|keys|] == keys;
    assert done == active.Keys;
  }

  // --------------------------------------------------------- third pass

  ghost predicate Filed(now: int, m: multiset<Intent>, key: ConflictKey, b: Bucket)
  {
    && CandidatesRight(now, m, key, b.candidates)
    && (forall o | o in b.ignored :: o.reason == IgnoredReason(now, m, o.intent))
    && (forall x :: BucketCopies(b, x) == if KeyOf(x) == key then m[x] else 0)
  }

  lemma BucketIsFiled(now: int, m: multiset<Intent>, start: Buckets, active: map<string, seq<Intent>>, buckets: Buckets, key: ConflictKey)
    requires Sifted(now, m, start, active) && Filing(now, m, buckets, active.Keys) && key in buckets
    ensures Filed(now, m, key, buckets[key])
  {
    hide Sifted, Active, IgnoredReason, Represents, BucketCopies, HasIntent, Conflicted;
    var b := buckets[key];
    assert BucketRight(now, m, key, b, active.Keys);
    forall x ensures BucketCopies(b, x) == if KeyOf(x) == key then m[x] else 0 {
      ActiveIsQueued(now, m, start, active, x);
      if KeyOf(x) == key {
        assert Stored(buckets, x) == BucketCopies(b, x);
      } else {
        ForeignIntentAbsent(now, m, key, b, active.Keys, x);
      }
    }
    forall x | Eligible(now, m, x) && KeyOf(x) == key ensures HasKey(b.candidates, x.idempotencyKey) {
      ActiveIsQueued(now, m, start, active, x);
    }
  }

  lemma ActiveIsQueued(now: int, m: multiset<Intent>, start: Buckets, active: map<string, seq<Intent>>, x: Intent)
    requires Sifted(now, m, start, active)
    ensures Active(now, x) && x in m ==> x.idempotencyKey in active
  {
    hide Active, Stored, HasIntent, Inactive, Waiting;
    assert Queued(active, x) == if Active(now, x) then m[x] else 0;
  }

  lemma ForeignIntentAbsent(now: int, m: multiset<Intent>, key: ConflictKey, b: Bucket, done: set<string>, x: Intent)
    requires BucketRight(now, m, key, b, done) && KeyOf(x) != key
    ensures BucketCopies(b, x) == 0
  {
    hide IgnoredReason, Represents, HasKey, DistinctKeys, Eligible;
    ArbiterLaws.IntentMember(b.ignored, x);
    assert x in b.candidates <==> x in multiset(b.candidates);
    assert x in IntentsOf(b.ignored) <==> x in multiset(IntentsOf(b.ignored));
  }

  lemma CandidatesRightOfSort(now: int, m: multiset<Intent>, key: ConflictKey, s: seq<Intent>, t: seq<Intent>)
    requires CandidatesRight(now, m, key, s) && multiset(s) == multiset(t)
    ensures CandidatesRight(now, m, key, t)
  {
    hide Represents, Eligible;
    forall x ensures x in s <==> x in t {
      assert x in s <==> x in multiset(s);
      assert x in t <==> x in multiset(t);
    }
    forall x | Eligible(now, m, x) && KeyOf(x) == key ensures HasKey(t, x.idempotencyKey) {
      assert HasKey(s, x.idempotencyKey);
      var c :| c in s && c.idempotencyKey == x.idempotencyKey;
      assert c in t;
    }
    forall i, j | 0 <= i < j < |t| ensures t[i].idempotencyKey != t[j].idempotencyKey {
      if t[i].idempotencyKey == t[j].idempotencyKey {
        assert t[i] in s && t[j] in s;
        ArbiterLaws.DistinctKeysIdentify(s, t[i], t[j]);
        DistinctKeysAreDistinct(s);
        ArbiterLaws.DistinctCount(s, t[i]);
        TwiceCounted(t, i, j);
      }
    }
  }

  lemma DistinctKeysAreDistinct(s: seq<Intent>)
    requires DistinctKeys(s)
    ensures ArbiterLaws.Distinct(s)
  {
  }

  lemma TwiceCounted<T>(t: seq<T>, i: nat, j: nat)
    requires i < j < |t| && t[i] == t[j]
    ensures multiset(t)[t[i]] >= 2
  {
    assert t == t[..i] + [t[i]] + t[i + 1..j] + [t[j]] + t[j + 1..];
  }

  /** The outcomes of the candidates that lost. */
  method Losers(winner: Intent, s: seq<Intent>) returns (r: seq<Outcome>)
    ensures IntentsOf(r) == s
    ensures forall o | o in r :: o.reason == SupersededReason(winner, o.intent)
  {
    r := [];
    for n := 0 to |s|
      invariant IntentsOf(r) == s[..n]
      invariant forall o | o in r :: o.reason == SupersededReason(winner, o.intent)
    {
      r := r + [Outcome(s[n], SupersededReason(winner, s[n]))];
    }
    assert s[..|s|] == s;
  }

  lemma SortedOutcomesKeep(s: seq<Outcome>, t: seq<Outcome>)
    requires multiset(s) == multiset(t)
    ensures multiset(IntentsOf(s)) == multiset(IntentsOf(t))
    ensures forall o :: o in s <==> o in t
  {
    var f := (o: Outcome) => o.intent;
    assert IntentsOf(s) == ArbiterLaws.Map(f, s) && IntentsOf(t) == ArbiterLaws.Map(f, t);
    ArbiterLaws.MapMultiset(f, s, t);
    forall o ensures o in s <==> o in t {
      assert o in s <==> o in multiset(s);
      assert o in t <==> o in multiset(t);
    }
  }

  /** The head of the sorted candidates beats every other candidate. */
  lemma HeadWins(s: seq<Intent>, k: nat)
    requires DistinctKeys(s) && Ordering.Sorted(CandidateWins, s) && 0 < k < |s|
    ensures CandidateWins(s[0], s[k])
  {
    hide CandidateWins, CanonicalKey;
    CandidateTotal(s[0], s[k]);
    if CanonicalKey(s[0]) == CanonicalKey(s[k]) { CanonicalKeyParts(s[0], s[k]); }
  }

  method Settle(now: int, ghost m: multiset<Intent>, key: ConflictKey, b: Bucket) returns (r: Arbitration)
    requires Filed(now, m, key, b)
    ensures Settled(now, m, r) && r.key == key
  {
    hide CandidatesRight, IgnoredReason, CandidateWins, OutcomeLess, Settled, Valid;
    CandidateWinsStrictWeak();
    OutcomeLessStrictWeak();
    var candidates := Ordering.SortSlice(CandidateWins, b.candidates);
    CandidatesRightOfSort(now, m, key, b.candidates, candidates);
    var ignored := Ordering.SortSlice(OutcomeLess, b.ignored);
    SortedOutcomesKeep(b.ignored, ignored);
    if candidates != [] {
      var losers := Losers(candidates[0], candidates[1..]);
      var superseded := Ordering.SortSlice(OutcomeLess, losers);
      SortedOutcomesKeep(losers, superseded);
      r := Arbitration(key, Some(candidates[0]), superseded, ignored, Some(SelectedReason));
      WithWinnerIsSettled(now, m, b, candidates, losers, r);
    } else {
      r := Arbitration(key, None, [], ignored, if ignored != [] then Some(ignored[0].reason) else None);
      WithoutWinnerIsSettled(now, m, b, r);
    }
  }

  lemma WithWinnerIsSettled(now: int, m: multiset<Intent>, b: Bucket, candidates: seq<Intent>, losers: seq<Outcome>, r: Arbitration)
    requires Filed(now, m, r.key, b) && CandidatesRight(now, m, r.key, candidates)
    requires candidates != [] && multiset(candidates) == multiset(b.candidates) && Ordering.Sorted(CandidateWins, candidates)
    requires IntentsOf(losers) == candidates[1..] && multiset(losers) == multiset(r.superseded)
    requires forall o | o in losers :: o.reason == SupersededReason(candidates[0], o.intent)
    requires multiset(b.ignored) == multiset(r.ignored)
    requires r.winner == Some(candidates[0]) && r.reason == Some(SelectedReason)
    requires Ordering.Sorted(OutcomeLess, r.superseded) && Ordering.Sorted(OutcomeLess, r.ignored)
    ensures Settled(now, m, r)
  {
    hide IgnoredReason, CandidateWins, OutcomeLess, CandidatesRight, SupersededReason, Ordering.Sorted;
    hide IntentsOf;
    WinnerCopies(b, candidates, losers, r);
    RightIsDistinct(now, m, r.key, candidates);
    WinnerBeatsLosers(candidates, losers);
    SortedOutcomesKeep(losers, r.superseded);
    SortedOutcomesKeep(b.ignored, r.ignored);
    CandidatesRightOfSort(now, m, r.key, candidates, CandidatesOf(r));
    forall x ensures Copies(r, x) == if KeyOf(x) == r.key then m[x] else 0 {
      assert Copies(r, x) == BucketCopies(b, x);
    }
  }

  lemma RightIsDistinct(now: int, m: multiset<Intent>, key: ConflictKey, s: seq<Intent>)
    requires CandidatesRight(now, m, key, s)
    ensures DistinctKeys(s)
  {
  }

  lemma WinnerCopies(b: Bucket, candidates: seq<Intent>, losers: seq<Outcome>, r: Arbitration)
    requires candidates != [] && multiset(candidates) == multiset(b.candidates)
    requires IntentsOf(losers) == candidates[1..] && multiset(losers) == multiset(r.superseded)
    requires multiset(b.ignored) == multiset(r.ignored) && r.winner == Some(candidates[0])
    ensures multiset(CandidatesOf(r)) == multiset(candidates)
    ensures multiset(IntentsOf(r.ignored)) == multiset(IntentsOf(b.ignored))
  {
    hide IntentsOf;
    SortedOutcomesKeep(losers, r.superseded);
    SortedOutcomesKeep(b.ignored, r.ignored);
    assert candidates == [candidates[0]] + candidates[1..];
    assert CandidatesOf(r) == [candidates[0]] + IntentsOf(r.superseded);
  }

  lemma WinnerBeatsLosers(candidates: seq<Intent>, losers: seq<Outcome>)
    requires candidates != [] && IntentsOf(losers) == candidates[1..] && Ordering.Sorted(CandidateWins, candidates)
    requires DistinctKeys(candidates)
    ensures forall o | o in losers :: CandidateWins(candidates[0], o.intent)
  {
    hide CandidateWins;
    forall o | o in losers ensures CandidateWins(candidates[0], o.intent) {
      var k :| 0 <= k < |losers| && losers[k] == o;
      assert IntentsOf(losers)[k] == candidates[k + 1];
      HeadWins(candidates, k + 1);
    }
  }

  lemma WithoutWinnerIsSettled(now: int, m: multiset<Intent>, b: Bucket, r: Arbitration)
    requires Filed(now, m, r.key, b) && CandidatesRight(now, m, r.key, []) && multiset(b.candidates) == multiset([])
    requires multiset(b.ignored) == multiset(r.ignored) && Ordering.Sorted(OutcomeLess, r.ignored)
    requires r.winner == None && r.superseded == [] && r.reason == (if r.ignored != [] then Some(r.ignored[0].reason) else None)
    ensures Settled(now, m, r)
  {
    hide IgnoredReason, CandidateWins, OutcomeLess, CandidatesRight;
    SortedOutcomesKeep(b.ignored, r.ignored);
    assert CandidatesOf(r) == [];
    forall x ensures Copies(r, x) == if KeyOf(x) == r.key then m[x] else 0 {
      assert Copies(r, x) == BucketCopies(b, x);
    }
  }

  method SettleAll(now: int, ghost m: multiset<Intent>, buckets: Buckets) returns (results: seq<Arbitration>)
    requires forall key :: key in buckets <==> HasIntent(m, key)
    requires forall key | key in buckets :: Filed(now, m, key, buckets[key])
    ensures Arbitrated(now, m, results)
  {
    hide Settled, Filed, HasIntent, ResultLess;
    var all: seq<Arbitration> := [];
    var left := buckets.Keys;
    while left != {}
      invariant left <= buckets.Keys
      invariant forall r | r in all :: Settled(now, m, r) && r.key !in left
      invariant forall key :: HasResult(all, key) <==> key in buckets && key !in left
      invariant forall i, j | 0 <= i < j < |all| :: all[i].key != all[j].key
    {
      var key :| key in left;
      var r := Settle(now, m, key, buckets[key]);
      forall k ensures HasResult(all + [r], k) <==> HasResult(all, k) || k == key { ResultGrows(all, r, k); }
      all := all + [r];
      left := left - {key};
    }
    ResultLessStrictWeak();
    results := Ordering.SortSlice(ResultLess, all);
    SortedResultsKeep(all, results);
  }

  lemma ResultGrows(all: seq<Arbitration>, r: Arbitration, k: ConflictKey)
    ensures HasResult(all + [r], k) <==> HasResult(all, k) || k == r.key
  {
    assert r in all + [r];
    if HasResult(all, k) {
      var q :| q in all && q.key == k;
      assert q in all + [r];
    }
  }

  lemma SortedResultsKeep(s: seq<Arbitration>, t: seq<Arbitration>)
    requires multiset(s) == multiset(t)
    requires forall i, j | 0 <= i < j < |s| :: s[i].key != s[j].key
    ensures forall r :: r in s <==> r in t
    ensures forall key :: HasResult(s, key) <==> HasResult(t, key)
    ensures forall i, j | 0 <= i < j < |t| :: t[i].key != t[j].key
  {
    forall r ensures r in s <==> r in t {
      assert r in s <==> r in multiset(s);
      assert r in t <==> r in multiset(t);
    }
    assert ArbiterLaws.Distinct(s);
    forall i, j | 0 <= i < j < |t| ensures t[i].key != t[j].key {
      if t[i].key == t[j].key {
        assert t[i] in s && t[j] in s;
        var a :| 0 <= a < |s| && s[a] == t[i];
        var b :| 0 <= b < |s| && s[b] == t[j];
        assert a == b;
        ArbiterLaws.DistinctCount(s, t[i]);
        TwiceCounted(t, i, j);
      }
    }
  }

  method Arbitrate(now: int, intents: seq<Intent>) returns (results: seq<Arbitration>)
    ensures Arbitrated(now, multiset(intents), results)
  {
    hide Sifted, Filing, Filed, Arbitrated, CanonicalLess;
    CanonicalLessStrictWeak();
    var working := Ordering.SortSlice(CanonicalLess, intents);
    ghost var m := multiset(intents);
    var start, active := Sift(now, working);
    var buckets := FileActive(now, m, start, active);
    BucketsAreFiled(now, m, start, active, buckets);
    results := SettleAll(now, m, buckets);
  }

  lemma BucketsAreFiled(now: int, m: multiset<Intent>, start: Buckets, active: map<string, seq<Intent>>, buckets: Buckets)
    requires Sifted(now, m, start, active) && Filing(now, m, buckets, active.Keys)
    ensures forall key :: key in buckets <==> HasIntent(m, key)
    ensures forall key | key in buckets :: Filed(now, m, key, buckets[key])
  {
    hide Sifted, Filed, Stored, BucketRight, HasIntent, Active;
    forall key | key in buckets ensures Filed(now, m, key, buckets[key]) {
      BucketIsFiled(now, m, start, active, buckets, key);
    }
  }

  /** Order independence: whatever order canonical intents arrive in, and however
      each sort breaks its ties, arbitration gives the identical results. */
  method ArbitrateBoth(now: int, intents: seq<Intent>, reordered: seq<Intent>) returns (a: seq<Arbitration>, b: seq<Arbitration>)
    requires multiset(intents) == multiset(reordered)
    ensures ArbiterLaws.KeysIdentify(multiset(intents)) ==> a == b
    ensures (forall i | i in intents :: Canonical(i)) ==> a == b
    ensures Arbitrated(now, multiset(intents), a) && Arbitrated(now, multiset(intents), b)
  {
    hide Arbitrated, Canonical, ArbiterLaws.KeysIdentify;
    a := Arbitrate(now, intents);
    b := Arbitrate(now, reordered);
    if forall i | i in intents :: Canonical(i) {
      assert ArbiterLaws.AllCanonical(multiset(intents));
      ArbiterLaws.CanonicalKeysIdentify(multiset(intents));
    }
    if ArbiterLaws.KeysIdentify(multiset(intents)) {
      ArbiterLaws.ArbitrationUnique(now, multiset(intents), a, b);
    }
  }
}

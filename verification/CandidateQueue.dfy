/** The queue of submissions that overlap on one account and operation, and
    what its contents mean for arbitration. */
module CandidateQueue {
  import opened Options
  import opened Intents
  import opened Arbiter
  import ArbiterLaws
  import Text

  datatype CandidateKey = CandidateKey(account: int, operation: Operation)

  datatype Entry = Entry(token: nat, requestKey: string, intent: Intent, completed: bool)

  datatype Queue = Queue(next: nat, entries: map<CandidateKey, seq<Entry>>)

  const EMPTY := Queue(0, map[])

  function AccountOf(i: Intent): int
  {
    if i.resource.AccountResource? then i.resource.id else 0
  }

  function SlotOf(i: Intent): CandidateKey
  {
    CandidateKey(AccountOf(i), i.operation)
  }

  // ------------------------------------------------------- specification

  function Items(q: Queue, key: CandidateKey): seq<Entry>
  {
    if key in q.entries then q.entries[key] else []
  }

  function AddTo(q: Queue, requestKey: string, i: Intent): (Queue, Entry)
  {
    var e := Entry(q.next + 1, requestKey, i, false);
    (Queue(q.next + 1, q.entries[SlotOf(i) := Items(q, SlotOf(i)) + [e]]), e)
  }

  /** The position of a token, or the length when it is absent. */
  function IndexOf(items: seq<Entry>, token: nat): (k: nat)
    ensures k <= |items|
    ensures k < |items| ==> items[k].token == token
    ensures forall n | 0 <= n < k :: items[n].token != token
  {
    if items == [] || items[0].token == token then 0 else 1 + IndexOf(items[1..], token)
  }

  ghost predicate Incomplete(items: seq<Entry>, except: nat)
  {
    exists e | e in items :: e.token != except && !e.completed
  }

  ghost predicate AllCompleted(items: seq<Entry>)
  {
    forall e | e in items :: e.completed
  }

  function Marked(items: seq<Entry>, k: nat): seq<Entry>
    requires k < |items|
  {
    items[k := items[k].(completed := true)]
  }

  function Removed(items: seq<Entry>, k: nat): seq<Entry>
    requires k < |items|
  {
    items[..k] + items[k + 1..]
  }

  ghost function FinishIn(q: Queue, key: CandidateKey, token: nat, retain: bool): Queue
  {
    var items := Items(q, key);
    var k := IndexOf(items, token);
    if k == |items| then q
    else if retain && Incomplete(items, token) then
      q.(entries := q.entries[key := Marked(items, k)])
    else
      var rest := Removed(items, k);
      if AllCompleted(rest) then q.(entries := q.entries - {key}) else q.(entries := q.entries[key := rest])
  }

  function CompetingIn(items: seq<Entry>, e: Entry): seq<Intent>
  {
    if items == [] then []
    else if items[0].token == e.token || items[0].requestKey == e.requestKey then CompetingIn(items[1..], e)
    else [items[0].intent] + CompetingIn(items[1..], e)
  }

  // ------------------------------------------------------ implementation

  class CandidateQueue {
    var next: nat
    var entries: map<CandidateKey, seq<Entry>>

    ghost function View(): Queue
      reads this
    {
      Queue(next, entries)
    }

    constructor ()
      ensures View() == EMPTY
    {
      next, entries := 0, map[];
    }

    method Add(requestKey: string, intent: Intent) returns (entry: Entry)
      modifies this
      ensures (View(), entry) == AddTo(old(View()), requestKey, intent)
    {
      next := next + 1;
      entry := Entry(next, requestKey, intent, false);
      var key := SlotOf(intent);
      entries := entries[key := (if key in entries then entries[key] else []) + [entry]];
    }

    method Finish(key: CandidateKey, token: nat, retain: bool)
      modifies this
      ensures View() == FinishIn(old(View()), key, token, retain)
    {
      var items := if key in entries then entries[key] else [];
      var found := 0;
      while found < |items| && items[found].token != token
        invariant found <= |items|
        invariant forall n | 0 <= n < found :: items[n].token != token
      {
        found := found + 1;
      }
      assert found == IndexOf(items, token);
      if found == |items| {
        return;
      }
      hide IndexOf, Marked, Removed, Incomplete, AllCompleted;
      var incomplete := HasIncompleteCandidate(items, token);
      if retain && incomplete {
        entries := entries[key := Marked(items, found)];
        return;
      }
      items := Removed(items, found);
      var completed := AllCandidatesCompleted(items);
      if completed {
        entries := entries - {key};
      } else {
        entries := entries[key := items];
      }
    }

    method Competing(entry: Entry) returns (result: seq<Intent>)
      ensures result == CompetingIn(Items(View(), SlotOf(entry.intent)), entry)
    {
      var key := SlotOf(entry.intent);
      var items := if key in entries then entries[key] else [];
      result := [];
      for n := 0 to |items|
        invariant result + CompetingIn(items[n..], entry) == CompetingIn(items, entry)
      {
        assert items[n..][1..] == items[n + 1..];
        if items[n].token != entry.token && items[n].requestKey != entry.requestKey {
          result := result + [items[n].intent];
        }
      }
      assert items[|items|..] == [];
    }
  }

  method HasIncompleteCandidate(items: seq<Entry>, except: nat) returns (found: bool)
    ensures found <==> Incomplete(items, except)
  {
    for n := 0 to |items|
      invariant forall k | 0 <= k < n :: items[k].token == except || items[k].completed
    {
      if items[n].token != except && !items[n].completed {
        assert items[n] in items;
        return true;
      }
    }
    found := false;
  }

  method AllCandidatesCompleted(items: seq<Entry>) returns (all: bool)
    ensures all <==> AllCompleted(items)
  {
    for n := 0 to |items|
      invariant forall k | 0 <= k < n :: items[k].completed
    {
      if !items[n].completed {
        assert items[n] in items;
        return false;
      }
    }
    all := true;
  }

  // ------------------------------------------------------ queue invariant

  ghost predicate Live(q: Queue, key: CandidateKey, token: nat)
  {
    exists e | e in Items(q, key) :: e.token == token && !e.completed
  }

  /** Every stored key still has an incomplete candidate, and tokens are unique. */
  ghost predicate QueueOk(q: Queue)
  {
    && (forall key | key in q.entries :: !AllCompleted(q.entries[key]))
    && (forall key, e | key in q.entries && e in q.entries[key] :: e.token <= q.next && SlotOf(e.intent) == key)
    && (forall key | key in q.entries :: DistinctTokens(q.entries[key]))
  }

  ghost predicate DistinctTokens(items: seq<Entry>)
  {
    forall i, j | 0 <= i < j < |items| :: items[i].token != items[j].token
  }

  lemma AddKeepsQueueOk(q: Queue, requestKey: string, i: Intent)
    requires QueueOk(q)
    ensures QueueOk(AddTo(q, requestKey, i).0)
    ensures Live(AddTo(q, requestKey, i).0, SlotOf(i), q.next + 1)
  {
    var (r, e) := AddTo(q, requestKey, i);
    var items := Items(q, SlotOf(i));
    assert r.entries[SlotOf(i)] == items + [e] && e in items + [e];
    forall n | 0 <= n < |items| ensures items[n].token != e.token { assert items[n] in items; }
  }

  lemma CompletedAt(items: seq<Entry>, k: nat, e: Entry)
    requires k < |items|
    ensures e in Marked(items, k) ==> e in items || e == items[k].(completed := true)
    ensures e in items && e != items[k] ==> e in Marked(items, k)
  {
    var r := Marked(items, k);
    if e in items && e != items[k] {
      var n :| 0 <= n < |items| && items[n] == e;
      assert r[n] == e;
    }
  }

  ghost predicate SlotOk(next: nat, key: CandidateKey, items: seq<Entry>)
  {
    DistinctTokens(items) && forall x | x in items :: x.token <= next && SlotOf(x.intent) == key
  }

  lemma SlotReplaced(q: Queue, key: CandidateKey, items: seq<Entry>)
    requires QueueOk(q) && !AllCompleted(items) && SlotOk(q.next, key, items)
    ensures QueueOk(q.(entries := q.entries[key := items]))
  {
    hide AllCompleted, DistinctTokens, SlotOf;
  }

  lemma SlotRemoved(q: Queue, key: CandidateKey)
    requires QueueOk(q)
    ensures QueueOk(q.(entries := q.entries - {key}))
  {
    hide AllCompleted, DistinctTokens, SlotOf;
  }

  lemma FinishKeepsQueueOk(q: Queue, key: CandidateKey, token: nat, retain: bool)
    requires QueueOk(q)
    ensures QueueOk(FinishIn(q, key, token, retain))
  {
    var items := Items(q, key);
    var k := IndexOf(items, token);
    if k < |items| {
      MarkingKeepsItems(q, key, k);
      var marked, rest := Marked(items, k), Removed(items, k);
      if Incomplete(items, token) { OtherStaysIncomplete(items, k, token); }
      hide QueueOk, SlotOk, AllCompleted, Incomplete, IndexOf, Marked, Removed;
      if retain && Incomplete(items, token) {
        SlotReplaced(q, key, marked);
      } else if AllCompleted(rest) {
        SlotRemoved(q, key);
      } else {
        SlotReplaced(q, key, rest);
      }
    }
  }

  lemma OtherStaysIncomplete(items: seq<Entry>, k: nat, token: nat)
    requires k < |items| && items[k].token == token && Incomplete(items, token)
    ensures !AllCompleted(Marked(items, k))
  {
    var e :| e in items && e.token != token && !e.completed;
    CompletedAt(items, k, e);
  }

  /** Marking or removing one entry keeps what the invariant says of a slot. */
  lemma MarkingKeepsItems(q: Queue, key: CandidateKey, k: nat)
    requires QueueOk(q) && k < |Items(q, key)|
    ensures var items := Items(q, key);
            var marked, rest := Marked(items, k), Removed(items, k);
            SlotOk(q.next, key, marked) && SlotOk(q.next, key, rest)
  {
    var items := Items(q, key);
    var marked, rest := Marked(items, k), Removed(items, k);
    assert items[k] in items;
    forall x | x in marked ensures x.token <= q.next && SlotOf(x.intent) == key { CompletedAt(items, k, x); }
    forall x | x in rest ensures x in items {}
  }

  /** The queue is empty as soon as no candidate is incomplete. */
  lemma QueueEmptiesWhenAllFinish(q: Queue)
    requires QueueOk(q) && forall key, token :: !Live(q, key, token)
    ensures q.entries == map[]
  {
    if key :| key in q.entries {
      var e :| e in q.entries[key] && !e.completed;
      assert Live(q, key, e.token);
    }
  }

  /** Finishing a command ends exactly that command's claim on the queue. */
  lemma FinishEndsOne(q: Queue, key: CandidateKey, token: nat, retain: bool, other: CandidateKey, t: nat)
    requires QueueOk(q)
    ensures Live(FinishIn(q, key, token, retain), other, t) <==> Live(q, other, t) && (other, t) != (key, token)
  {
    var items := Items(q, key);
    var k := IndexOf(items, token);
    var r := FinishIn(q, key, token, retain);
    if other == key {
      forall e: Entry ensures e in Items(r, key) && !e.completed <==> e in items && !e.completed && e.token != token {
        FinishedEntry(q, key, token, retain, e);
      }
    } else {
      assert Items(r, other) == Items(q, other);
    }
  }

  lemma FinishedEntry(q: Queue, key: CandidateKey, token: nat, retain: bool, e: Entry)
    requires QueueOk(q)
    ensures e in Items(FinishIn(q, key, token, retain), key) && !e.completed <==> e in Items(q, key) && !e.completed && e.token != token
  {
    var items := Items(q, key);
    var k := IndexOf(items, token);
    if k < |items| {
      TokenPosition(items, k, e);
      if retain && Incomplete(items, token) {
        CompletedAt(items, k, e);
      } else {
        RemovedAt(items, k, e);
      }
    }
  }

  lemma TokenPosition(items: seq<Entry>, k: nat, e: Entry)
    requires DistinctTokens(items) && k < |items|
    ensures e in items && e.token == items[k].token ==> e == items[k]
  {
    if e in items {
      var n :| 0 <= n < |items| && items[n] == e;
    }
  }

  lemma RemovedAt(items: seq<Entry>, k: nat, e: Entry)
    requires DistinctTokens(items) && k < |items|
    ensures e in Removed(items, k) <==> e in items && e.token != items[k].token
  {
    assert items == items[..k] + [items[k]] + items[k + 1..];
    var rest := Removed(items, k);
    forall n | 0 <= n < |rest| ensures rest[n].token != items[k].token {
      assert rest[n] == if n < k then items[n] else items[n + 1];
    }
  }

  // ------------------------------------------------------------- overlaps

  /** Candidate `b` is on file and candidate `a` is still incomplete. */
  ghost predicate Overlap(q: Queue, key: CandidateKey, a: nat, b: Entry)
  {
    && Live(q, key, a) && a != b.token
    && (b in Items(q, key) || b.(completed := true) in Items(q, key))
  }

  lemma AddKeepsOverlap(q: Queue, requestKey: string, i: Intent, key: CandidateKey, a: nat, b: Entry)
    requires Overlap(q, key, a, b)
    ensures Overlap(AddTo(q, requestKey, i).0, key, a, b)
  {
    var (r, e) := AddTo(q, requestKey, i);
    assert forall x | x in Items(q, key) :: x in Items(r, key);
  }

  /** A better candidate that finishes in a retained status stays visible for as
      long as the overlapping command is unfinished. */
  lemma FinishKeepsOverlap(q: Queue, finished: CandidateKey, token: nat, retain: bool, key: CandidateKey, a: nat, b: Entry)
    requires QueueOk(q) && Overlap(q, key, a, b) && (finished, token) != (key, a)
    requires token == b.token ==> retain
    ensures Overlap(FinishIn(q, finished, token, retain), key, a, b)
  {
    var r := FinishIn(q, finished, token, retain);
    FinishEndsOne(q, finished, token, retain, key, a);
    if finished == key {
      var items := Items(q, key);
      var k := IndexOf(items, token);
      var e := if b in items then b else b.(completed := true);
      if k < |items| {
        if retain && Incomplete(items, token) {
          CompletedAt(items, k, e);
          if e == items[k] {
            assert Marked(items, k)[k] == b.(completed := true);
          }
        } else {
          var l :| l in items && l.token == a && !l.completed;
          assert token != b.token;
          RemovedAt(items, k, e);
          assert e in Removed(items, k);
          RemovedAt(items, k, l);
        }
      }
    } else {
      assert Items(r, key) == Items(q, key);
    }
  }

  lemma {:induction false} CompetingMember(items: seq<Entry>, e: Entry, x: Entry)
    requires x in items && x.token != e.token && x.requestKey != e.requestKey
    ensures x.intent in CompetingIn(items, e)
  {
    if x != items[0] {
      assert x in items[1..];
      CompetingMember(items[1..], e, x);
    }
  }

  /** An overlapping candidate takes part in the other one's arbitration. */
  lemma OverlapCompetes(q: Queue, e: Entry, b: Entry)
    requires Overlap(q, SlotOf(e.intent), e.token, b) && b.requestKey != e.requestKey
    ensures b.intent in CompetingIn(Items(q, SlotOf(e.intent)), e)
  {
    var items := Items(q, SlotOf(e.intent));
    CompetingMember(items, e, if b in items then b else b.(completed := true));
  }

  // ------------------------------------------------------------- decisions

  datatype Decision = Proceed(winner: Intent) | Yield(other: Option<Intent>) | Lapse

  /** submissionDecision: proceed, yield to a winner, or lapse when expired. */
  function Decide(results: seq<Arbitration>, submitted: Intent): Decision
  {
    if results == [] then Yield(None)
    else
      var r := results[0];
      if r.key != KeyOf(submitted) then Decide(results[1..], submitted)
      else if r.winner.Some? then
        if r.winner.value.id == submitted.id then Proceed(r.winner.value) else Yield(Some(r.winner.value))
      else if exists o | o in r.ignored :: o.intent.id == submitted.id && o.reason == ExpiredReason then Lapse
      else Decide(results[1..], submitted)
  }

  lemma {:induction false} ProceedHasResult(results: seq<Arbitration>, submitted: Intent) returns (r: Arbitration)
    requires Decide(results, submitted).Proceed?
    ensures r in results && r.key == KeyOf(submitted) && r.winner == Some(Decide(results, submitted).winner)
    ensures r.winner.value.id == submitted.id
  {
    if results[0].key == KeyOf(submitted) && results[0].winner.Some? {
      r := results[0];
    } else {
      r := ProceedHasResult(results[1..], submitted);
    }
  }

  /** A submission only proceeds with a given intent that is valid and unexpired,
      is about its own resource and operation, and has its own ID. */
  lemma ProceedIsEligible(now: int, m: multiset<Intent>, results: seq<Arbitration>, submitted: Intent)
    requires Arbitrated(now, m, results) && Decide(results, submitted).Proceed?
    ensures var w := Decide(results, submitted).winner;
            Eligible(now, m, w) && KeyOf(w) == KeyOf(submitted) && w.id == submitted.id
    ensures var w := Decide(results, submitted).winner;
            && w in m && w.resource == submitted.resource && w.operation == submitted.operation
            && Valid(w) && (w.expiresAt.Some? ==> now < w.expiresAt.value)
  {
    hide Active, Conflicted, ResultLess;
    var r := ProceedHasResult(results, submitted);
    assert Settled(now, m, r);
    WinnerIsEligible(now, m, r);
    ArbiterLaws.EligibleIsActive(now, m, r.winner.value);
  }

  lemma WinnerIsEligible(now: int, m: multiset<Intent>, r: Arbitration)
    requires Settled(now, m, r) && r.winner.Some?
    ensures Eligible(now, m, r.winner.value) && KeyOf(r.winner.value) == r.key
  {
    hide Active, Conflicted, OutcomeLess, Copies, CandidateWins;
    assert r.winner.value == CandidatesOf(r)[0];
    assert r.winner.value in CandidatesOf(r);
  }

  /** Losing the arbitration order: with an eligible candidate that beats it, a
      submission never proceeds with its own intent. */
  lemma LoserNeverProceeds(now: int, m: multiset<Intent>, results: seq<Arbitration>, a: Intent, b: Intent)
    requires Arbitrated(now, m, results) && Eligible(now, m, b) && KeyOf(b) == KeyOf(a) && CandidateWins(b, a)
    ensures Decide(results, a) != Proceed(a)
  {
    hide Settled, Active, Conflicted, ResultLess, CandidateWins, Decide, Signature;
    if Decide(results, a) == Proceed(a) {
      var r := ProceedHasResult(results, a);
      ArbiterLaws.WinnerBeatsEligible(now, m, r, b);
      if a.idempotencyKey != b.idempotencyKey {
        var c :| Represents(now, m, c) && Signature(c) == Signature(b) && c.idempotencyKey == b.idempotencyKey && CandidateWins(a, c);
        CandidateTransitive(b, a, c);
        RepresentativeIsLeast(now, m, b, c);
        BeatsTwin(b, c);
      }
    }
  }

  lemma RepresentativeIsLeast(now: int, m: multiset<Intent>, b: Intent, c: Intent)
    requires Eligible(now, m, b) && Represents(now, m, c) && b.idempotencyKey == c.idempotencyKey
    ensures !RepresentativeLess(b, c)
  {
    assert !Precedes(now, m, b, c);
  }

  lemma BeatsTwin(b: Intent, c: Intent)
    requires CandidateWins(b, c) && Signature(b) == Signature(c)
    ensures RepresentativeLess(b, c)
  {
    hide Signature, RepresentativeLess;
    SignatureDeterminesIntent(b, c);
  }

  /** The decision follows the one result of the submission's own conflict key. */
  lemma {:induction false} DecideFinds(results: seq<Arbitration>, r: Arbitration, submitted: Intent)
    requires r in results && r.key == KeyOf(submitted) && r.winner.Some?
    requires forall i, j | 0 <= i < j < |results| :: results[i].key != results[j].key
    ensures Decide(results, submitted)
         == if r.winner.value.id == submitted.id then Proceed(r.winner.value) else Yield(r.winner)
  {
    if results[0] != r {
      var k :| 0 <= k < |results| && results[k] == r;
      assert results[1..][k - 1] == r;
      DecideFinds(results[1..], r, submitted);
    }
  }

  /** No other eligible intent of its conflict key stands up to the intent. */
  ghost predicate Best(now: int, m: multiset<Intent>, a: Intent)
  {
    Eligible(now, m, a) && forall x | Eligible(now, m, x) && KeyOf(x) == KeyOf(a) && x != a :: CandidateWins(a, x)
  }

  lemma BestIsRepresented(now: int, m: multiset<Intent>, a: Intent, c: Intent)
    requires Best(now, m, a) && Represents(now, m, c) && c.idempotencyKey == a.idempotencyKey && Signature(c) == Signature(a)
    ensures c == a
  {
    hide Signature, RepresentativeLess, CandidateWins;
    SignatureDeterminesIntent(c, a);
    RepresentativeIsLeast(now, m, a, c);
    if c != a { BeatsTwin(a, c); }
  }

  lemma NeverBothWin(a: Intent, b: Intent)
    ensures !(CandidateWins(a, b) && CandidateWins(b, a))
  {
    if CandidateWins(a, b) && CandidateWins(b, a) {
      CandidateTransitive(a, b, a);
      Text.LessIrreflexive(CanonicalKey(a));
      Text.LessIrreflexive(a.id);
    }
  }

  lemma BestIsWinner(now: int, m: multiset<Intent>, r: Arbitration, a: Intent)
    requires Settled(now, m, r) && Best(now, m, a) && KeyOf(a) == r.key
    ensures r.winner == Some(a)
  {
    ArbiterLaws.WinnerBeatsEligible(now, m, r, a);
    WinnerIsEligible(now, m, r);
    var w := r.winner.value;
    hide Settled, Active, Conflicted, Signature, CandidateWins;
    if w.idempotencyKey != a.idempotencyKey {
      var c :| Represents(now, m, c) && Signature(c) == Signature(a) && c.idempotencyKey == a.idempotencyKey && CandidateWins(w, c);
      BestIsRepresented(now, m, a, c);
      NeverBothWin(w, a);
    }
  }

  /** Winning the arbitration order: the best eligible submission proceeds with
      its own intent. */
  lemma BestProceeds(now: int, m: multiset<Intent>, results: seq<Arbitration>, a: Intent)
    requires Arbitrated(now, m, results) && Best(now, m, a)
    ensures Decide(results, a) == Proceed(a)
  {
    hide Settled, Active, Conflicted, ResultLess, CandidateWins, Decide;
    assert HasIntent(m, KeyOf(a));
    assert HasResult(results, KeyOf(a));
    var r :| r in results && r.key == KeyOf(a);
    BestIsWinner(now, m, r, a);
    DecideFinds(results, r, a);
  }

  lemma {:induction false} DecideFollows(results: seq<Arbitration>, r: Arbitration, submitted: Intent)
    requires r in results && r.key == KeyOf(submitted)
    requires forall i, j | 0 <= i < j < |results| :: results[i].key != results[j].key
    ensures Decide(results, submitted)
         == if r.winner.Some? then (if r.winner.value.id == submitted.id then Proceed(r.winner.value) else Yield(r.winner))
            else if exists o | o in r.ignored :: o.intent.id == submitted.id && o.reason == ExpiredReason then Lapse
            else Yield(None)
  {
    if results[0] != r {
      var k :| 0 <= k < |results| && results[k] == r;
      assert results[1..][k - 1] == r;
      DecideFollows(results[1..], r, submitted);
    } else {
      NoResultYields(results[1..], submitted);
    }
  }

  lemma {:induction false} NoResultYields(results: seq<Arbitration>, submitted: Intent)
    ensures (forall r | r in results :: r.key != KeyOf(submitted)) ==> Decide(results, submitted) == Yield(None)
  {
    if results != [] { NoResultYields(results[1..], submitted); }
  }

  /** A given intent of the resource and operation that is valid, unexpired and
      whose idempotency key has one meaning among such intents. */
  ghost predicate Standing(now: int, m: multiset<Intent>, resource: Resource, operation: Operation, x: Intent)
  {
    && x in m && x.resource == resource && x.operation == operation
    && ValidationError(x).None? && (x.expiresAt.Some? ==> now < x.expiresAt.value)
    && !ArbiterLaws.TwoMeanings(now, m, x.idempotencyKey)
  }

  lemma StandingIsEligible(now: int, m: multiset<Intent>, key: ConflictKey, x: Intent)
    ensures Standing(now, m, key.resource, key.operation, x) <==> Eligible(now, m, x) && KeyOf(x) == key
  {
    hide ValidationError, ArbiterLaws.TwoMeanings, Conflicted;
    ArbiterLaws.TwoMeaningsIsConflict(now, m, x.idempotencyKey);
  }

  /** A submission has a winner to follow exactly when some intent of its resource
      and operation stands. Otherwise it lapses exactly when a valid candidate
      with its ID has expired, and else yields to nobody. */
  lemma LapsesExactly(now: int, m: multiset<Intent>, results: seq<Arbitration>, submitted: Intent)
    requires Arbitrated(now, m, results)
    ensures var d, winnable := Decide(results, submitted), exists x :: Standing(now, m, submitted.resource, submitted.operation, x);
            var late := exists x | x in m && x.resource == submitted.resource && x.operation == submitted.operation ::
                          x.id == submitted.id && ValidationError(x).None? && x.expiresAt.Some? && x.expiresAt.value <= now;
            && (d.Proceed? || (d.Yield? && d.other.Some?) <==> winnable)
            && (d.Lapse? <==> !winnable && late)
            && (d == Yield(None) <==> !winnable && !late)
  {
    hide Arbitrated, Standing, ValidationError, Decide;
    var key := KeyOf(submitted);
    forall x ensures Standing(now, m, key.resource, key.operation, x) <==> Eligible(now, m, x) && KeyOf(x) == key {
      StandingIsEligible(now, m, key, x);
    }
    if HasResult(results, key) {
      var r :| r in results && r.key == key;
      ResultIsSettled(now, m, results, r);
      DecideFollows(results, r, submitted);
      WinnableMeans(now, m, r);
      if r.winner.None? { LateMeans(now, m, r, submitted.id); }
    } else {
      NoResultYields(results, submitted);
      NothingUnderKey(now, m, results, key);
    }
  }

  lemma ResultIsSettled(now: int, m: multiset<Intent>, results: seq<Arbitration>, r: Arbitration)
    requires Arbitrated(now, m, results) && r in results
    ensures Settled(now, m, r) && forall i, j | 0 <= i < j < |results| :: results[i].key != results[j].key
  {
    hide Settled, ResultLess;
  }

  lemma NothingUnderKey(now: int, m: multiset<Intent>, results: seq<Arbitration>, key: ConflictKey)
    requires Arbitrated(now, m, results) && !HasResult(results, key)
    ensures forall x | x in m :: KeyOf(x) != key
    ensures forall x :: !(Eligible(now, m, x) && KeyOf(x) == key)
  {
    hide Settled, ResultLess, Active, Conflicted;
    assert !HasIntent(m, key);
  }

  lemma WinnableMeans(now: int, m: multiset<Intent>, r: Arbitration)
    requires Settled(now, m, r)
    ensures r.winner.Some? <==> exists x :: Eligible(now, m, x) && KeyOf(x) == r.key
  {
    if r.winner.Some? { WinnerIsEligible(now, m, r); }
    if x :| Eligible(now, m, x) && KeyOf(x) == r.key { ArbiterLaws.WinnerBeatsEligible(now, m, r, x); }
  }

  lemma LateMeans(now: int, m: multiset<Intent>, r: Arbitration, id: string)
    requires Settled(now, m, r) && r.winner.None?
    ensures (exists o | o in r.ignored :: o.intent.id == id && o.reason == ExpiredReason) <==>
            exists x | x in m && x.resource == r.key.resource && x.operation == r.key.operation ::
              x.id == id && ValidationError(x).None? && x.expiresAt.Some? && x.expiresAt.value <= now
  {
    ArbiterLaws.FiledIntentsAreGiven(now, m, r);
    forall o | o in r.ignored
      ensures o.reason == ExpiredReason <==> ValidationError(o.intent).None? && o.intent.expiresAt.Some? && o.intent.expiresAt.value <= now
    {
      ArbiterLaws.IgnoredAre(now, m, r, o);
    }
    forall x | x in m && KeyOf(x) == r.key ensures exists o | o in r.ignored :: o.intent == x { FiledAsIgnored(now, m, r, x); }
    hide ValidationError, Settled;
  }

  lemma FiledAsIgnored(now: int, m: multiset<Intent>, r: Arbitration, x: Intent)
    requires Settled(now, m, r) && r.winner.None? && x in m && KeyOf(x) == r.key
    ensures exists o | o in r.ignored :: o.intent == x
  {
    hide CandidatesRight, OutcomeLess, IgnoredReason;
    assert Copies(r, x) == m[x];
    ArbiterLaws.IntentMember(r.ignored, x);
  }

  // -------------------------------------------------------------- competing

  /** The rivals of an entry are the intents of the slot's other entries, except
      retries of the same request. */
  lemma {:induction false} CompetingExactly(items: seq<Entry>, e: Entry, i: Intent)
    ensures i in CompetingIn(items, e) <==>
              exists x | x in items :: x.token != e.token && x.requestKey != e.requestKey && x.intent == i
  {
    if items != [] {
      CompetingExactly(items[1..], e, i);
      assert items == [items[0]] + items[1..];
    }
  }

  /** A finished candidate stays in its slot exactly when it is retained and
      another one there is still incomplete; then it stays as completed. */
  lemma FinishedStaysExactly(q: Queue, key: CandidateKey, token: nat, retain: bool)
    requires QueueOk(q) && Live(q, key, token)
    ensures (exists e | e in Items(FinishIn(q, key, token, retain), key) :: e.token == token)
            <==> retain && exists e | e in Items(q, key) :: e.token != token && !e.completed
    ensures forall e | e in Items(FinishIn(q, key, token, retain), key) && e.token == token :: e.completed
  {
    var items := Items(q, key);
    var k := IndexOf(items, token);
    assert k < |items|;
    FinishEndsOne(q, key, token, retain, key, token);
    if retain && Incomplete(items, token) {
      assert Marked(items, k)[k].token == token;
      assert Marked(items, k)[k] in Items(FinishIn(q, key, token, retain), key);
    } else {
      forall e | e in Items(FinishIn(q, key, token, retain), key) ensures e.token != token { RemovedAt(items, k, e); }
    }
  }
}

/** The deterministic arbiter's vocabulary: semantic signatures, the order that
    decides between candidates, and what a correct arbitration is. */
module Arbiter {
  import opened Options
  import opened Intents
  import Ordering
  import Text

  // ------------------------------------------------------------ signatures

  function ExpiryText(e: Option<int>): string
  {
    match e
    case None => "no_expiration"
    case Some(t) => Text.FormatInt(t - UNIX_EPOCH)
  }

  function SemanticParts(i: Intent): seq<string>
  {
    [ProducerText(i.producer), AuthorityText(i.authority), ResourceText(i.resource), OperationText(i.operation),
     StateText(i.desired), i.actor, i.reason, i.policyVersion, i.snapshotVersion,
     Text.FormatInt(i.createdAt - UNIX_EPOCH), ExpiryText(i.expiresAt)] + CanonicalRefs(i.evidence)
  }

  /** semanticSignature; its SHA-256 digest is taken as collision free. */
  function Signature(i: Intent): string
  {
    Text.Encode(SemanticParts(i))
  }

  function CanonicalKey(i: Intent): string
  {
    Text.Encode([i.id, i.idempotencyKey, Signature(i)])
  }

  lemma ExpiryTextInjective(a: Option<int>, b: Option<int>)
    requires ExpiryText(a) == ExpiryText(b)
    ensures a == b
  {
    assert ExpiryText(a)[0] == ExpiryText(b)[0];
    if a.Some? && b.Some? { Text.FormatIntInjective(a.value - UNIX_EPOCH, b.value - UNIX_EPOCH); }
  }

  /** Intents with one signature differ at most in identity and in how their
      evidence is ordered, repeated or padded. */
  lemma SignatureDeterminesIntent(a: Intent, b: Intent)
    requires Signature(a) == Signature(b)
    ensures a == b.(id := a.id, idempotencyKey := a.idempotencyKey, evidence := a.evidence)
    ensures CanonicalRefs(a.evidence) == CanonicalRefs(b.evidence)
    ensures KeyOf(a) == KeyOf(b)
  {
    hide ProducerText, AuthorityText, ResourceText, OperationText, StateText, ExpiryText, CanonicalRefs, Text.FormatInt, Text.Encode;
    var p, q := SemanticParts(a), SemanticParts(b);
    Text.EncodeInjective(p, q);
    assert p[11..] == CanonicalRefs(a.evidence) && q[11..] == CanonicalRefs(b.evidence);
    assert p[0] == q[0] && p[1] == q[1] && p[2] == q[2] && p[3] == q[3] && p[4] == q[4] && p[5] == q[5];
    assert p[6] == q[6] && p[7] == q[7] && p[8] == q[8] && p[9] == q[9] && p[10] == q[10];
    ProducerTextInjective(a.producer, b.producer);
    AuthorityTextInjective(a.authority, b.authority);
    ResourceTextInjective(a.resource, b.resource);
    OperationTextInjective(a.operation, b.operation);
    StateTextInjective(a.desired, b.desired);
    Text.FormatIntInjective(a.createdAt - UNIX_EPOCH, b.createdAt - UNIX_EPOCH);
    ExpiryTextInjective(a.expiresAt, b.expiresAt);
  }

  /** The form every intent constructor produces. */
  predicate Canonical(i: Intent)
  {
    i.evidence == CanonicalRefs(i.evidence)
  }

  lemma CanonicalKeyParts(a: Intent, b: Intent)
    requires CanonicalKey(a) == CanonicalKey(b)
    ensures a.id == b.id && a.idempotencyKey == b.idempotencyKey && Signature(a) == Signature(b)
  {
    var p, q := [a.id, a.idempotencyKey, Signature(a)], [b.id, b.idempotencyKey, Signature(b)];
    Text.EncodeInjective(p, q);
    assert p[0] == q[0] && p[1] == q[1] && p[2] == q[2];
  }

  lemma CanonicalKeyInjective(a: Intent, b: Intent)
    requires CanonicalKey(a) == CanonicalKey(b) && Canonical(a) && Canonical(b)
    ensures a == b
  {
    CanonicalKeyParts(a, b);
    SignatureDeterminesIntent(a, b);
  }

  // ---------------------------------------------------------------- orders

  predicate CanonicalLess(a: Intent, b: Intent)
  {
    Text.Less(CanonicalKey(a), CanonicalKey(b))
  }

  /** The order inside one idempotency key; its least element represents the key. */
  predicate RepresentativeLess(a: Intent, b: Intent)
  {
    if a.id != b.id then Text.Less(a.id, b.id) else CanonicalLess(a, b)
  }

  /** candidateWins: authority, then the newer, then the smaller identifier. */
  predicate CandidateWins(a: Intent, b: Intent)
  {
    if Rank(a.authority) != Rank(b.authority) then Rank(a.authority) < Rank(b.authority)
    else if a.createdAt != b.createdAt then a.createdAt > b.createdAt
    else RepresentativeLess(a, b)
  }

  lemma TextTrichotomy(a: string, b: string)
    ensures !(Text.Less(a, b) && Text.Less(b, a))
    ensures !Text.Less(a, b) && !Text.Less(b, a) <==> a == b
  {
    Text.LessIrreflexive(a);
    Text.LessTotal(a, b);
    if Text.Less(a, b) && Text.Less(b, a) { Text.LessTransitive(a, b, a); }
  }

  lemma CanonicalLessStrictWeak()
    ensures Ordering.StrictWeak(CanonicalLess)
  {
    StringOrderIsStrictWeak();
    forall x, y, z | CanonicalLess(x, y) && CanonicalLess(y, z) ensures CanonicalLess(x, z) {
      Text.LessTransitive(CanonicalKey(x), CanonicalKey(y), CanonicalKey(z));
    }
    forall x, y, z | !CanonicalLess(x, y) && !CanonicalLess(y, z) ensures !CanonicalLess(x, z) {
      var a, b, c := CanonicalKey(x), CanonicalKey(y), CanonicalKey(z);
      assert !Text.Less(a, b) && !Text.Less(b, c);
    }
  }

  lemma RepresentativeLessStrictWeak()
    ensures Ordering.StrictWeak(RepresentativeLess)
  {
    CanonicalLessStrictWeak();
    forall x ensures !RepresentativeLess(x, x) { assert !CanonicalLess(x, x); }
    forall x, y, z | RepresentativeLess(x, y) && RepresentativeLess(y, z) ensures RepresentativeLess(x, z) {
      RepresentativeTransitive(x, y, z);
    }
    forall x, y, z | !RepresentativeLess(x, y) && !RepresentativeLess(y, z) ensures !RepresentativeLess(x, z) {
      RepresentativeIncomparable(x, y, z);
    }
  }

  lemma RepresentativeTransitive(x: Intent, y: Intent, z: Intent)
    requires RepresentativeLess(x, y) && RepresentativeLess(y, z)
    ensures RepresentativeLess(x, z)
  {
    TextTrichotomy(x.id, y.id);
    TextTrichotomy(y.id, z.id);
    TextTrichotomy(x.id, z.id);
    if x.id == y.id == z.id {
      Text.LessTransitive(CanonicalKey(x), CanonicalKey(y), CanonicalKey(z));
    } else if x.id != y.id && y.id != z.id {
      Text.LessTransitive(x.id, y.id, z.id);
    }
  }

  lemma RepresentativeTotal(x: Intent, y: Intent)
    ensures !(RepresentativeLess(x, y) && RepresentativeLess(y, x))
    ensures !RepresentativeLess(x, y) && !RepresentativeLess(y, x) <==> CanonicalKey(x) == CanonicalKey(y)
  {
    TextTrichotomy(x.id, y.id);
    TextTrichotomy(CanonicalKey(x), CanonicalKey(y));
    if CanonicalKey(x) == CanonicalKey(y) { CanonicalKeyParts(x, y); }
  }

  lemma RepresentativeIncomparable(x: Intent, y: Intent, z: Intent)
    requires !RepresentativeLess(x, y) && !RepresentativeLess(y, z)
    ensures !RepresentativeLess(x, z)
  {
    RepresentativeTotal(x, y);
    RepresentativeTotal(y, z);
    RepresentativeTotal(x, z);
    if RepresentativeLess(x, z) {
      if RepresentativeLess(y, x) {
        RepresentativeTransitive(y, x, z);
      } else {
        CanonicalKeyParts(x, y);
      }
    }
  }

  lemma CandidateTransitive(x: Intent, y: Intent, z: Intent)
    requires CandidateWins(x, y) && CandidateWins(y, z)
    ensures CandidateWins(x, z)
  {
    if Rank(x.authority) == Rank(y.authority) == Rank(z.authority) && x.createdAt == y.createdAt == z.createdAt {
      RepresentativeTransitive(x, y, z);
    }
  }

  /** candidateWins is a strict total order up to the canonical key. */
  lemma CandidateTotal(x: Intent, y: Intent)
    ensures !(CandidateWins(x, y) && CandidateWins(y, x))
    ensures !CandidateWins(x, y) && !CandidateWins(y, x) <==> CanonicalKey(x) == CanonicalKey(y)
  {
    RepresentativeTotal(x, y);
    if CanonicalKey(x) == CanonicalKey(y) {
      CanonicalKeyParts(x, y);
      SignatureDeterminesIntent(x, y);
    }
  }

  lemma CandidateWinsStrictWeak()
    ensures Ordering.StrictWeak(CandidateWins)
  {
    forall x ensures !CandidateWins(x, x) { CandidateTotal(x, x); }
    forall x, y, z | CandidateWins(x, y) && CandidateWins(y, z) ensures CandidateWins(x, z) {
      CandidateTransitive(x, y, z);
    }
    forall x, y, z | !CandidateWins(x, y) && !CandidateWins(y, z) ensures !CandidateWins(x, z) {
      if Rank(x.authority) == Rank(y.authority) == Rank(z.authority) && x.createdAt == y.createdAt == z.createdAt {
        RepresentativeIncomparable(x, y, z);
      }
    }
  }

  // --------------------------------------------------------------- results

  datatype Reason =
    | SelectedReason | ExpiredReason | InvalidReason | LowerAuthority | OlderSameAuthority
    | DuplicateReason | IdempotencyConflict | DeterministicTieBreak

  function ReasonText(r: Reason): string
  {
    match r
    case SelectedReason => "selected"
    case ExpiredReason => "expired"
    case InvalidReason => "invalid"
    case LowerAuthority => "lower_authority"
    case OlderSameAuthority => "older_same_authority"
    case DuplicateReason => "duplicate"
    case IdempotencyConflict => "idempotency_conflict"
    case DeterministicTieBreak => "deterministic_tie_break"
  }

  lemma ReasonTextInjective(a: Reason, b: Reason)
    requires ReasonText(a) == ReasonText(b)
    ensures a == b
  {
    assert ReasonText(a)[0] == ReasonText(b)[0] && ReasonText(a)[1] == ReasonText(b)[1];
    assert |ReasonText(a)| == |ReasonText(b)|;
  }

  datatype Outcome = Outcome(intent: Intent, reason: Reason)

  datatype Arbitration = Arbitration(
    key: ConflictKey,
    winner: Option<Intent>,
    superseded: seq<Outcome>,
    ignored: seq<Outcome>,
    reason: Option<Reason>)

  predicate OutcomeLess(a: Outcome, b: Outcome)
  {
    if a.reason != b.reason then Text.Less(ReasonText(a.reason), ReasonText(b.reason))
    else CanonicalLess(a.intent, b.intent)
  }

  predicate ResultLess(a: Arbitration, b: Arbitration)
  {
    Text.Less(ConflictKeyText(a.key), ConflictKeyText(b.key))
  }

  function SupersededReason(winner: Intent, loser: Intent): Reason
  {
    if Rank(winner.authority) != Rank(loser.authority) then LowerAuthority
    else if winner.createdAt != loser.createdAt then OlderSameAuthority
    else DeterministicTieBreak
  }

  lemma OutcomeTotal(x: Outcome, y: Outcome)
    ensures !(OutcomeLess(x, y) && OutcomeLess(y, x))
    ensures !OutcomeLess(x, y) && !OutcomeLess(y, x)
            <==> x.reason == y.reason && CanonicalKey(x.intent) == CanonicalKey(y.intent)
  {
    TextTrichotomy(ReasonText(x.reason), ReasonText(y.reason));
    TextTrichotomy(CanonicalKey(x.intent), CanonicalKey(y.intent));
    if ReasonText(x.reason) == ReasonText(y.reason) { ReasonTextInjective(x.reason, y.reason); }
  }

  lemma OutcomeTransitive(x: Outcome, y: Outcome, z: Outcome)
    requires OutcomeLess(x, y) && OutcomeLess(y, z)
    ensures OutcomeLess(x, z)
  {
    if x.reason == y.reason == z.reason {
      Text.LessTransitive(CanonicalKey(x.intent), CanonicalKey(y.intent), CanonicalKey(z.intent));
    } else if x.reason != y.reason && y.reason != z.reason {
      Text.LessTransitive(ReasonText(x.reason), ReasonText(y.reason), ReasonText(z.reason));
      if x.reason == z.reason { Text.LessIrreflexive(ReasonText(x.reason)); }
    }
  }

  lemma OutcomeLessStrictWeak()
    ensures Ordering.StrictWeak(OutcomeLess)
  {
    forall x ensures !OutcomeLess(x, x) { OutcomeTotal(x, x); }
    forall x, y, z | OutcomeLess(x, y) && OutcomeLess(y, z) ensures OutcomeLess(x, z) {
      OutcomeTransitive(x, y, z);
    }
    forall x, y, z | !OutcomeLess(x, y) && !OutcomeLess(y, z) ensures !OutcomeLess(x, z) {
      OutcomeTotal(x, y);
      OutcomeTotal(y, z);
      OutcomeTotal(x, z);
      if OutcomeLess(x, z) && OutcomeLess(y, x) { OutcomeTransitive(y, x, z); }
      if OutcomeLess(x, z) && OutcomeLess(z, y) { OutcomeTransitive(x, z, y); }
    }
  }

  lemma ResultLessStrictWeak()
    ensures Ordering.StrictWeak(ResultLess)
  {
    StringOrderIsStrictWeak();
    forall x, y, z | ResultLess(x, y) && ResultLess(y, z) ensures ResultLess(x, z) {
      Text.LessTransitive(ConflictKeyText(x.key), ConflictKeyText(y.key), ConflictKeyText(z.key));
    }
    forall x, y, z | !ResultLess(x, y) && !ResultLess(y, z) ensures !ResultLess(x, z) {
      var a, b, c := ConflictKeyText(x.key), ConflictKeyText(y.key), ConflictKeyText(z.key);
      assert !Text.Less(a, b) && !Text.Less(b, c);
    }
  }

  // --------------------------------------------- what an arbitration must be

  predicate Active(now: int, i: Intent)
  {
    Valid(i) && !Expired(i, now)
  }

  /** Two active intents bind one idempotency key to different meanings. */
  ghost predicate Clash(now: int, m: multiset<Intent>, a: Intent, b: Intent, key: string)
  {
    && a in m && b in m && Active(now, a) && Active(now, b)
    && a.idempotencyKey == key && b.idempotencyKey == key
    && Signature(a) != Signature(b)
  }

  ghost predicate Conflicted(now: int, m: multiset<Intent>, key: string)
  {
    exists a, b :: Clash(now, m, a, b, key)
  }

  ghost predicate Eligible(now: int, m: multiset<Intent>, i: Intent)
  {
    i in m && Active(now, i) && !Conflicted(now, m, i.idempotencyKey)
  }

  ghost function IgnoredReason(now: int, m: multiset<Intent>, i: Intent): Reason
  {
    if !Valid(i) then InvalidReason
    else if Expired(i, now) then ExpiredReason
    else if Conflicted(now, m, i.idempotencyKey) then IdempotencyConflict
    else DuplicateReason
  }

  ghost predicate Precedes(now: int, m: multiset<Intent>, x: Intent, i: Intent)
  {
    x in m && Active(now, x) && x.idempotencyKey == i.idempotencyKey && RepresentativeLess(x, i)
  }

  /** No active intent under the same idempotency key comes before it. */
  ghost predicate Represents(now: int, m: multiset<Intent>, i: Intent)
  {
    Eligible(now, m, i) && forall x :: !Precedes(now, m, x, i)
  }

  function IntentsOf(outcomes: seq<Outcome>): (r: seq<Intent>)
    ensures |r| == |outcomes| && forall k | 0 <= k < |r| :: r[k] == outcomes[k].intent
  {
    seq(|outcomes|, k requires 0 <= k < |outcomes| => outcomes[k].intent)
  }

  function CandidatesOf(r: Arbitration): seq<Intent>
  {
    (if r.winner.Some? then [r.winner.value] else []) + IntentsOf(r.superseded)
  }

  ghost predicate DistinctKeys(s: seq<Intent>)
  {
    forall i, j | 0 <= i < j < |s| :: s[i].idempotencyKey != s[j].idempotencyKey
  }

  ghost predicate HasKey(s: seq<Intent>, key: string)
  {
    exists c | c in s :: c.idempotencyKey == key
  }

  /** One candidate, its least representative, for every eligible idempotency key. */
  ghost predicate CandidatesRight(now: int, m: multiset<Intent>, key: ConflictKey, s: seq<Intent>)
  {
    && (forall c | c in s :: Represents(now, m, c) && KeyOf(c) == key)
    && DistinctKeys(s)
    && (forall x | Eligible(now, m, x) && KeyOf(x) == key :: HasKey(s, x.idempotencyKey))
  }

  /** How often an intent is filed in a result. */
  function Copies(r: Arbitration, x: Intent): nat
  {
    multiset(CandidatesOf(r))[x] + multiset(IntentsOf(r.ignored))[x]
  }

  ghost predicate Settled(now: int, m: multiset<Intent>, r: Arbitration)
  {
    // conservation: every intent under this key is filed exactly as often as it was given
    && (forall x :: Copies(r, x) == if KeyOf(x) == r.key then m[x] else 0)
    && CandidatesRight(now, m, r.key, CandidatesOf(r))
    && (forall o | o in r.ignored :: o.reason == IgnoredReason(now, m, o.intent))
    && (r.winner.None? ==> r.superseded == [])
    && (forall o | o in r.superseded :: CandidateWins(r.winner.value, o.intent) && o.reason == SupersededReason(r.winner.value, o.intent))
    && Ordering.Sorted(OutcomeLess, r.superseded)
    && Ordering.Sorted(OutcomeLess, r.ignored)
    && r.reason == (if r.winner.Some? then Some(SelectedReason) else if r.ignored != [] then Some(r.ignored[0].reason) else None)
  }

  ghost predicate HasIntent(m: multiset<Intent>, key: ConflictKey)
  {
    exists x | x in m :: KeyOf(x) == key
  }

  ghost predicate HasResult(results: seq<Arbitration>, key: ConflictKey)
  {
    exists r | r in results :: r.key == key
  }

  ghost predicate Arbitrated(now: int, m: multiset<Intent>, results: seq<Arbitration>)
  {
    && Ordering.Sorted(ResultLess, results)
    && (forall i, j | 0 <= i < j < |results| :: results[i].key != results[j].key)
    && (forall key :: HasResult(results, key) <==> HasIntent(m, key))
    && (forall r | r in results :: Settled(now, m, r))
  }
}

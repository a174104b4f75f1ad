/** Control-plane intents: who wants which resource in which state, until when.
    Times are nanoseconds since Go's zero time. */
module Intents {
  import opened Options
  import opened Tiers
  import Ordering
  import Text

  // The private fields of Resource and DesiredState can only hold what their
  // constructors build or the zero value, so each is one variant per kind.
  // Unknown names stand for strings outside the declared constants.

  datatype Producer =
    | PolicyScheduler | AgentOperator | AdminUI | FailoverController | CostOptimizer
    | UnknownProducer(name: string)

  datatype Authority =
    | ManualHold | AdministratorCommand | EmergencyAutomation | AutonomousAgent | ActivePolicy | Optimization
    | UnknownAuthority(name: string)

  datatype Operation =
    | SetAccountSchedulable | SetAccountLoadFactor | SetUpstreamKeyGroupTier
    | UnknownOperation(name: string)

  datatype Resource = NoResource | AccountResource(id: int) | UpstreamKeyResource(sourceId: int, keyId: string)

  datatype DesiredState = NoState | Schedulable(value: bool) | LoadFactor(factor: Option<int>) | GroupTier(tier: Tier)

  datatype Intent = Intent(
    id: string,
    idempotencyKey: string,
    producer: Producer,
    authority: Authority,
    resource: Resource,
    operation: Operation,
    desired: DesiredState,
    actor: string,
    reason: string,
    evidence: seq<string>,
    policyVersion: string,
    snapshotVersion: string,
    createdAt: int,
    expiresAt: Option<int>)

  datatype ConflictKey = ConflictKey(resource: Resource, operation: Operation)

  const ZERO_TIME := 0
  const UNIX_EPOCH := 62135596800000000000

  function KeyOf(i: Intent): ConflictKey
  {
    ConflictKey(i.resource, i.operation)
  }

  predicate Expired(i: Intent, now: int)
  {
    i.expiresAt.Some? && now >= i.expiresAt.value
  }

  /** Lower ranks win; unknown authorities report rank zero and are rejected by validation. */
  function Rank(a: Authority): nat
  {
    match a
    case ManualHold => 0
    case AdministratorCommand => 1
    case EmergencyAutomation => 2
    case AutonomousAgent => 3
    case ActivePolicy => 4
    case Optimization => 5
    case UnknownAuthority(_) => 0
  }

  // ----------------------------------------------------------- validation

  datatype Field =
    | IdField | IdempotencyKeyField | ProducerField | AuthorityField | ResourceField | OperationField
    | DesiredStateField | LoadFactorField | ActorField | ReasonField | CreatedAtField | ExpiresAtField
    | SnapshotVersionField | PolicyVersionField | EvidenceField

  predicate Blank(s: string)
  {
    Text.Trim(s) == ""
  }

  predicate ResourceValid(r: Resource)
  {
    match r
    case NoResource => false
    case AccountResource(id) => id > 0
    case UpstreamKeyResource(source, key) => source > 0 && !Blank(key)
  }

  function StateError(state: DesiredState, resource: Resource, operation: Operation): Option<Field>
  {
    match operation
    case SetAccountSchedulable =>
      if !resource.AccountResource? || !state.Schedulable? then Some(DesiredStateField) else None
    case SetAccountLoadFactor =>
      if !resource.AccountResource? || !state.LoadFactor? then Some(DesiredStateField)
      else if state.factor.Some? && state.factor.value < 1 then Some(LoadFactorField)
      else None
    case SetUpstreamKeyGroupTier =>
      if !resource.UpstreamKeyResource? || !state.GroupTier? then Some(DesiredStateField) else None
    case UnknownOperation(_) => Some(OperationField)
  }

  predicate Automation(a: Authority)
  {
    a.EmergencyAutomation? || a.AutonomousAgent? || a.ActivePolicy? || a.Optimization?
  }

  predicate NeedsEvidence(a: Authority)
  {
    a.AutonomousAgent? || a.EmergencyAutomation?
  }

  predicate NeedsExpiry(a: Authority)
  {
    a.AutonomousAgent? || a.Optimization? || a.AdministratorCommand?
  }

  /** The first rule an intent breaks, in the order the rules are checked. */
  function ValidationError(i: Intent): Option<Field>
  {
    if Blank(i.id) then Some(IdField)
    else if Blank(i.idempotencyKey) then Some(IdempotencyKeyField)
    else if i.producer.UnknownProducer? then Some(ProducerField)
    else if i.authority.UnknownAuthority? then Some(AuthorityField)
    else if !ResourceValid(i.resource) then Some(ResourceField)
    else if i.operation.UnknownOperation? then Some(OperationField)
    else if StateError(i.desired, i.resource, i.operation).Some? then StateError(i.desired, i.resource, i.operation)
    else if Blank(i.actor) then Some(ActorField)
    else if Blank(i.reason) then Some(ReasonField)
    else if i.createdAt == ZERO_TIME then Some(CreatedAtField)
    else if i.expiresAt.Some? && i.expiresAt.value <= i.createdAt then Some(ExpiresAtField)
    else if Automation(i.authority) && Blank(i.snapshotVersion) then Some(SnapshotVersionField)
    else if i.authority.ActivePolicy? && Blank(i.policyVersion) then Some(PolicyVersionField)
    else if NeedsEvidence(i.authority) && (i.evidence == [] || HasBlankRef(i.evidence))
    then Some(EvidenceField)
    else if NeedsExpiry(i.authority) && i.expiresAt.None? then Some(ExpiresAtField)
    else None
  }

  predicate HasBlankRef(refs: seq<string>)
  {
    exists k | 0 <= k < |refs| :: Blank(refs[k])
  }

  predicate Valid(i: Intent)
  {
    ValidationError(i).None?
  }

  /** The field each rule is about and what the rule demands, in checking order. */
  ghost function Rules(i: Intent): seq<(Field, bool)>
  {
    [(IdField, Text.Trim(i.id) != ""),
     (IdempotencyKeyField, Text.Trim(i.idempotencyKey) != ""),
     (ProducerField, i.producer in {PolicyScheduler, AgentOperator, AdminUI, FailoverController, CostOptimizer}),
     (AuthorityField, i.authority in {ManualHold, AdministratorCommand, EmergencyAutomation, AutonomousAgent, ActivePolicy, Optimization}),
     (ResourceField, (i.resource.AccountResource? && i.resource.id >= 1)
                     || (i.resource.UpstreamKeyResource? && i.resource.sourceId >= 1 && Text.Trim(i.resource.keyId) != "")),
     (OperationField, i.operation in {SetAccountSchedulable, SetAccountLoadFactor, SetUpstreamKeyGroupTier}),
     (DesiredStateField, (i.operation == SetAccountSchedulable ==> i.resource.AccountResource? && i.desired.Schedulable?)
                         && (i.operation == SetAccountLoadFactor ==> i.resource.AccountResource? && i.desired.LoadFactor?)
                         && (i.operation == SetUpstreamKeyGroupTier ==> i.resource.UpstreamKeyResource? && i.desired.GroupTier?)),
     (LoadFactorField, i.operation == SetAccountLoadFactor && i.desired.LoadFactor? && i.desired.factor.Some? ==> i.desired.factor.value >= 1),
     (ActorField, Text.Trim(i.actor) != ""),
     (ReasonField, Text.Trim(i.reason) != ""),
     (CreatedAtField, i.createdAt != 0),
     (ExpiresAtField, i.expiresAt.Some? ==> i.createdAt < i.expiresAt.value),
     (SnapshotVersionField, i.authority in {EmergencyAutomation, AutonomousAgent, ActivePolicy, Optimization} ==> Text.Trim(i.snapshotVersion) != ""),
     (PolicyVersionField, i.authority == ActivePolicy ==> Text.Trim(i.policyVersion) != ""),
     (EvidenceField, i.authority in {EmergencyAutomation, AutonomousAgent} ==>
                       |i.evidence| >= 1 && forall k | 0 <= k < |i.evidence| :: Text.Trim(i.evidence[k]) != ""),
     (ExpiresAtField, i.authority in {AdministratorCommand, AutonomousAgent, Optimization} ==> i.expiresAt.Some?)]
  }

  /** An intent is valid exactly when it keeps every rule; otherwise the error
      names the field of a broken rule with all earlier rules kept. */
  lemma ValidExactly(i: Intent) returns (k: nat)
    ensures Valid(i) <==> forall n | 0 <= n < |Rules(i)| :: Rules(i)[n].1
    ensures !Valid(i) ==>
              k < |Rules(i)| && ValidationError(i) == Some(Rules(i)[k].0) && !Rules(i)[k].1 && forall n | 0 <= n < k :: Rules(i)[n].1
  {
    hide Text.Trim;
    var rules := Rules(i);
    k := 0;
    while k < |rules| && rules[k].1
      invariant k <= |rules| && forall n | 0 <= n < k :: rules[n].1
    {
      k := k + 1;
    }
    hide *;
    FirstBroken(i, rules, k);
  }

  lemma FirstBroken(i: Intent, rules: seq<(Field, bool)>, k: nat)
    requires rules == Rules(i) && k <= |rules| && (forall n | 0 <= n < k :: rules[n].1) && (k < |rules| ==> !rules[k].1)
    ensures ValidationError(i) == if k < |rules| then Some(rules[k].0) else None
  {
    hide Text.Trim;
    assert rules == [rules[0], rules[1], rules[2], rules[3], rules[4], rules[5], rules[6], rules[7], rules[8], rules[9],
                     rules[10], rules[11], rules[12], rules[13], rules[14], rules[15]];
    assert forall n | 0 <= n < k :: rules[n].1;
  }

  // ------------------------------------------------------------- evidence

  predicate StrictlySorted(s: seq<string>)
  {
    forall i, j | 0 <= i < j < |s| :: Text.Less(s[i], s[j])
  }

  function Trimmed(refs: seq<string>): (r: seq<string>)
    ensures |r| == |refs|
    ensures forall k | 0 <= k < |refs| :: r[k] == Text.Trim(refs[k])
  {
    seq(|refs|, k requires 0 <= k < |refs| => Text.Trim(refs[k]))
  }

  function InsertRef(x: string, s: seq<string>): (r: seq<string>)
    requires StrictlySorted(s)
    ensures StrictlySorted(r)
    ensures forall y :: y in r <==> y == x || y in s
  {
    if s == [] then [x]
    else if x == s[0] then s
    else if Text.Less(x, s[0]) then
      assert forall k | 0 < k < |s| :: Text.Less(x, s[k]) by {
        forall k | 0 < k < |s| ensures Text.Less(x, s[k]) { Text.LessTransitive(x, s[0], s[k]); }
      }
      [x] + s
    else
      var rest := InsertRef(x, s[1..]);
      assert s == [s[0]] + s[1..];
      assert Text.Less(s[0], x) by { Text.LessTotal(s[0], x); }
      assert forall k | 0 <= k < |rest| :: rest[k] in rest;
      [s[0]] + rest
  }

  /** The evidence of an intent as an ordered set: trimmed, sorted, without repeats. */
  function CanonicalRefs(refs: seq<string>): (r: seq<string>)
    ensures StrictlySorted(r)
    ensures forall y :: y in r <==> y in Trimmed(refs)
  {
    if refs == [] then []
    else
      assert Trimmed(refs) == [Text.Trim(refs[0])] + Trimmed(refs[1..]);
      InsertRef(Text.Trim(refs[0]), CanonicalRefs(refs[1..]))
  }

  lemma {:induction false} StrictlySortedUnique(a: seq<string>, b: seq<string>)
    requires StrictlySorted(a) && StrictlySorted(b)
    requires forall y :: y in a <==> y in b
    ensures a == b
  {
    assert b == [] || b[0] in a;
    if a != [] {
      assert a[0] in b && (b == [] || b[0] in a);
      assert a[0] == b[0] by {
        if a[0] != b[0] {
          assert Text.Less(b[0], a[0]) && Text.Less(a[0], b[0]);
          Text.LessTransitive(a[0], b[0], a[0]);
          Text.LessIrreflexive(a[0]);
        }
      }
      forall y ensures y in a[1..] <==> y in b[1..] {
        TailMember(a, y);
        TailMember(b, y);
      }
      StrictlySortedUnique(a[1..], b[1..]);
      assert a == [a[0]] + a[1..] && b == [b[0]] + b[1..];
    }
  }

  lemma TailMember(s: seq<string>, y: string)
    requires StrictlySorted(s) && s != []
    ensures y in s[1..] <==> y in s && y != s[0]
  {
    assert s == [s[0]] + s[1..];
    if y in s[1..] {
      var k :| 0 <= k < |s| - 1 && s[1..][k] == y;
      assert Text.Less(s[0], s[k + 1]);
      Text.LessIrreflexive(y);
    }
  }

  /** Canonical evidence depends only on the set of trimmed references. */
  lemma CanonicalRefsBySet(a: seq<string>, b: seq<string>)
    requires forall y :: y in Trimmed(a) <==> y in Trimmed(b)
    ensures CanonicalRefs(a) == CanonicalRefs(b)
  {
    StrictlySortedUnique(CanonicalRefs(a), CanonicalRefs(b));
  }

  lemma CanonicalRefsIdempotent(refs: seq<string>)
    ensures CanonicalRefs(CanonicalRefs(refs)) == CanonicalRefs(refs)
  {
    var c := CanonicalRefs(refs);
    forall k | 0 <= k < |c| ensures Trimmed(c)[k] == c[k] {
      assert c[k] in Trimmed(refs);
      var n :| 0 <= n < |refs| && Trimmed(refs)[n] == c[k];
      Text.TrimIdempotent(refs[n]);
    }
    assert Trimmed(c) == c;
    StrictlySortedUnique(CanonicalRefs(c), c);
  }

  lemma StringOrderIsStrictWeak()
    ensures Ordering.StrictWeak(Text.Less)
  {
    forall x ensures !Text.Less(x, x) { Text.LessIrreflexive(x); }
    forall x, y, z | Text.Less(x, y) && Text.Less(y, z) ensures Text.Less(x, z) { Text.LessTransitive(x, y, z); }
    forall x, y, z | !Text.Less(x, y) && !Text.Less(y, z) ensures !Text.Less(x, z) {
      Text.LessTotal(x, y);
      Text.LessTotal(y, z);
      if Text.Less(x, z) && x != y && y != z {
        Text.LessTransitive(y, x, z);
        Text.LessTransitive(z, y, x);
      }
    }
  }

  method TrimAll(references: seq<string>) returns (canonical: seq<string>)
    ensures canonical == Trimmed(references)
  {
    canonical := references;
    for index := 0 to |references|
      invariant |canonical| == |references|
      invariant forall k | 0 <= k < index :: canonical[k] == Text.Trim(references[k])
      invariant forall k | index <= k < |references| :: canonical[k] == references[k]
    {
      canonical := canonical[index := Text.Trim(canonical[index])];
    }
  }

  /** Keeps the first of each run of equal strings. */
  method Compact(sorted: seq<string>) returns (unique: seq<string>)
    requires Ordering.Sorted(Text.Less, sorted)
    ensures StrictlySorted(unique)
    ensures forall y :: y in unique <==> y in sorted
  {
    unique := [];
    for k := 0 to |sorted|
      invariant StrictlySorted(unique)
      invariant forall y :: y in unique <==> y in sorted[..k]
      invariant k == 0 ==> unique == []
      invariant k > 0 ==> unique != [] && unique[|unique| - 1] == sorted[k - 1]
    {
      assert sorted[..k + 1] == sorted[..k] + [sorted[k]];
      if unique == [] || sorted[k] != unique[|unique| - 1] {
        if unique != [] {
          Text.LessTotal(sorted[k - 1], sorted[k]);
          forall n | 0 <= n < |unique| - 1 ensures Text.Less(unique[n], sorted[k]) {
            Text.LessTransitive(unique[n], unique[|unique| - 1], sorted[k]);
          }
        }
        unique := unique + [sorted[k]];
      }
    }
    assert sorted[..|sorted|] == sorted;
  }

  /** canonicalEvidenceRefs: trim in place, sort, then compact the repeats. */
  method CanonicalEvidenceRefs(references: seq<string>) returns (unique: seq<string>)
    ensures unique == CanonicalRefs(references)
  {
    var canonical := TrimAll(references);
    StringOrderIsStrictWeak();
    var sorted := Ordering.SortSlice(Text.Less, canonical);
    unique := Compact(sorted);
    forall y ensures y in unique <==> y in CanonicalRefs(references) {
      assert y in sorted <==> y in multiset(sorted);
      assert y in canonical <==> y in multiset(canonical);
    }
    StrictlySortedUnique(unique, CanonicalRefs(references));
  }

  // --------------------------------------------------------- string forms

  function ProducerText(p: Producer): string
  {
    match p
    case PolicyScheduler => "policy_scheduler"
    case AgentOperator => "agent_operator"
    case AdminUI => "admin_ui"
    case FailoverController => "failover_controller"
    case CostOptimizer => "cost_optimizer"
    case UnknownProducer(name) => "unknown_producer(" + Text.Quote(name) + ")"
  }

  function AuthorityText(a: Authority): string
  {
    match a
    case ManualHold => "manual_hold"
    case AdministratorCommand => "administrator_command"
    case EmergencyAutomation => "emergency_automation"
    case AutonomousAgent => "autonomous_agent"
    case ActivePolicy => "active_policy"
    case Optimization => "optimization"
    case UnknownAuthority(name) => "unknown_authority(" + Text.Quote(name) + ")"
  }

  function OperationText(o: Operation): string
  {
    match o
    case SetAccountSchedulable => "set_account_schedulable"
    case SetAccountLoadFactor => "set_account_load_factor"
    case SetUpstreamKeyGroupTier => "set_upstream_key_group_tier"
    case UnknownOperation(name) => "unknown_operation(" + Text.Quote(name) + ")"
  }

  function ResourceText(r: Resource): string
  {
    match r
    case NoResource => "unknown_resource(" + Text.Quote("") + ")"
    case AccountResource(id) => "account:" + Text.FormatInt(id)
    case UpstreamKeyResource(source, key) => "upstream_key:" + (Text.FormatInt(source) + ":" + Text.Quote(key))
  }

  function TierText(t: Tier): string
  {
    match t
    case Main => "main"
    case Backup => "backup"
    case Emergency => "emergency"
  }

  function StateText(s: DesiredState): string
  {
    match s
    case NoState => "invalid_desired_state"
    case Schedulable(value) => "schedulable:" + (if value then "true" else "false")
    case LoadFactor(None) => "load_factor:default"
    case LoadFactor(Some(n)) => "load_factor:" + Text.FormatInt(n)
    case GroupTier(tier) => "group_tier:" + TierText(tier)
  }

  function ConflictKeyText(k: ConflictKey): string
  {
    ResourceText(k.resource) + "#" + OperationText(k.operation)
  }

  lemma SamePrefix(p: string, a: string, b: string)
    requires p + a == p + b
    ensures a == b
  {
    assert a == (p + a)[|p|..] && b == (p + b)[|p|..];
  }

  lemma SameSuffix(a: string, b: string, p: string)
    requires a + p == b + p
    ensures a == b
  {
    assert |a| == |b|;
    assert a == (a + p)[..|a|] && b == (b + p)[..|a|];
  }

  lemma UnknownTextInjective(prefix: string, a: string, b: string)
    requires prefix + Text.Quote(a) + ")" == prefix + Text.Quote(b) + ")"
    ensures a == b
  {
    SameSuffix(prefix + Text.Quote(a), prefix + Text.Quote(b), ")");
    SamePrefix(prefix, Text.Quote(a), Text.Quote(b));
    Text.QuoteInjective(a, b);
  }

  lemma ProducerTextInjective(p: Producer, q: Producer)
    requires ProducerText(p) == ProducerText(q)
    ensures p == q
  {
    var s, t := ProducerText(p), ProducerText(q);
    assert s[0] == t[0] && |s| == |t|;
    if p.UnknownProducer? && q.UnknownProducer? { UnknownTextInjective("unknown_producer(", p.name, q.name); }
  }

  lemma AuthorityTextInjective(p: Authority, q: Authority)
    requires AuthorityText(p) == AuthorityText(q)
    ensures p == q
  {
    var s, t := AuthorityText(p), AuthorityText(q);
    assert s[0] == t[0] && |s| == |t|;
    if p.UnknownAuthority? && q.UnknownAuthority? { UnknownTextInjective("unknown_authority(", p.name, q.name); }
  }

  lemma OperationTextInjective(p: Operation, q: Operation)
    requires OperationText(p) == OperationText(q)
    ensures p == q
  {
    var s, t := OperationText(p), OperationText(q);
    assert s[0] == t[0] && |s| == |t| && s[12] == t[12];
    if p.UnknownOperation? && q.UnknownOperation? { UnknownTextInjective("unknown_operation(", p.name, q.name); }
  }

  lemma NumberHasNoColon(n: int)
    ensures ':' !in Text.FormatInt(n) && '#' !in Text.FormatInt(n)
  {
  }

  lemma UpstreamKeyTextShape(p: Resource, s: string)
    requires p.UpstreamKeyResource?
    ensures ResourceText(p) + s == "upstream_key:" + (Text.FormatInt(p.sourceId) + ([':'] + (Text.Quote(p.keyId) + s)))
  {
    hide Text.Quote, Text.FormatInt;
  }

  lemma UpstreamKeyTextSplits(p: Resource, q: Resource, s: string, t: string)
    requires p.UpstreamKeyResource? && q.UpstreamKeyResource?
    requires ResourceText(p) + s == ResourceText(q) + t
    ensures p == q && s == t
  {
    hide Text.Quote, Text.FormatInt;
    var a, b := Text.FormatInt(p.sourceId), Text.FormatInt(q.sourceId);
    var u, v := Text.Quote(p.keyId) + s, Text.Quote(q.keyId) + t;
    UpstreamKeyTextShape(p, s);
    UpstreamKeyTextShape(q, t);
    hide ResourceText;
    SamePrefix("upstream_key:", a + ([':'] + u), b + ([':'] + v));
    NumberHasNoColon(p.sourceId);
    NumberHasNoColon(q.sourceId);
    Text.FirstMark(':', a, b, u, v);
    Text.FormatIntInjective(p.sourceId, q.sourceId);
    Text.QuotePrefixFree(p.keyId, q.keyId, s, t);
  }

  lemma ResourceTextInjective(p: Resource, q: Resource)
    requires ResourceText(p) == ResourceText(q)
    ensures p == q
  {
    hide Text.Quote, Text.FormatInt;
    var s, t := ResourceText(p), ResourceText(q);
    assert s[0] == t[0] && s[1] == t[1];
    if p.AccountResource? {
      SamePrefix("account:", Text.FormatInt(p.id), Text.FormatInt(q.id));
      Text.FormatIntInjective(p.id, q.id);
    } else if p.UpstreamKeyResource? {
      assert s + "" == s && t + "" == t;
      UpstreamKeyTextSplits(p, q, "", "");
    }
  }

  lemma ResourceTextSplits(p: Resource, q: Resource, s: string, t: string)
    requires ResourceText(p) + (['#'] + s) == ResourceText(q) + (['#'] + t)
    ensures p == q && s == t
  {
    hide Text.Quote, Text.FormatInt;
    var u, v := ResourceText(p) + (['#'] + s), ResourceText(q) + (['#'] + t);
    assert u[0] == v[0] && u[1] == v[1];
    assert u[0] == ResourceText(p)[0] && u[1] == ResourceText(p)[1];
    assert v[0] == ResourceText(q)[0] && v[1] == ResourceText(q)[1];
    if p.UpstreamKeyResource? {
      UpstreamKeyTextSplits(p, q, ['#'] + s, ['#'] + t);
      SamePrefix("#", s, t);
    } else if p.AccountResource? {
      NumberHasNoColon(p.id);
      NumberHasNoColon(q.id);
      assert '#' !in "account:";
      Text.FirstMark('#', ResourceText(p), ResourceText(q), s, t);
      ResourceTextInjective(p, q);
    } else {
      SamePrefix(ResourceText(p), ['#'] + s, ['#'] + t);
      SamePrefix("#", s, t);
    }
  }

  lemma StateTextInjective(p: DesiredState, q: DesiredState)
    requires StateText(p) == StateText(q)
    ensures p == q
  {
    var s, t := StateText(p), StateText(q);
    assert s[0] == t[0] && |s| == |t|;
    if p.LoadFactor? {
      SamePrefix("load_factor:", s[12..], t[12..]);
      var u, v := s[12..], t[12..];
      if p.factor.Some? { assert u == Text.FormatInt(p.factor.value) && u[0] != 'd'; }
      if q.factor.Some? { assert v == Text.FormatInt(q.factor.value) && v[0] != 'd'; }
      if p.factor.None? { assert u == "default"; }
      if q.factor.None? { assert v == "default"; }
      if p.factor.Some? && q.factor.Some? { Text.FormatIntInjective(p.factor.value, q.factor.value); }
    } else if p.GroupTier? {
      assert s[11] == t[11];
    }
  }

  /** Results are ordered by a text that tells conflict keys apart. */
  lemma ConflictKeyTextInjective(p: ConflictKey, q: ConflictKey)
    requires ConflictKeyText(p) == ConflictKeyText(q)
    ensures p == q
  {
    hide ResourceText, OperationText;
    assert ConflictKeyText(p) == ResourceText(p.resource) + (['#'] + OperationText(p.operation));
    assert ConflictKeyText(q) == ResourceText(q.resource) + (['#'] + OperationText(q.operation));
    ResourceTextSplits(p.resource, q.resource, OperationText(p.operation), OperationText(q.operation));
    OperationTextInjective(p.operation, q.operation);
  }
}

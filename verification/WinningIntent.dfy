/** Storing an intent in journal columns or in an override, and rebuilding it.
    Recovery acts on the rebuilt intent, so what survives the trip matters. */
module WinningIntent {
  import opened Options
  import opened Intents
  import Text

  datatype Columns = Columns(
    intentId: string,
    idempotencyKey: string,
    producer: Producer,
    authority: Authority,
    actor: string,
    reason: string,
    evidence: seq<string>,
    policyVersion: string,
    snapshotVersion: string,
    createdAt: int,
    expiresAt: Option<int>,
    schedulable: Option<bool>,
    loadFactor: Option<int>,
    loadSet: bool)

  predicate AccountOperation(o: Operation)
  {
    o.SetAccountSchedulable? || o.SetAccountLoadFactor?
  }

  /** What Submit admits: a valid intent about an account. */
  predicate AccountIntent(i: Intent)
  {
    Valid(i) && i.resource.AccountResource? && AccountOperation(i.operation)
  }

  /** setWinningMutation. */
  function StoreWinning(i: Intent): Columns
  {
    var blank := Columns(i.id, i.idempotencyKey, i.producer, i.authority, i.actor, i.reason, i.evidence,
                         i.policyVersion, i.snapshotVersion, i.createdAt, i.expiresAt, None, None, false);
    match i.desired
    case Schedulable(value) => blank.(schedulable := Some(value))
    case LoadFactor(Some(n)) => blank.(loadFactor := Some(n), loadSet := true)
    case _ => blank
  }

  /** normalizeMetadata, on a whole intent. */
  function Normalized(i: Intent): Intent
  {
    i.(id := Text.Trim(i.id),
       idempotencyKey := Text.Trim(i.idempotencyKey),
       actor := Text.Trim(i.actor),
       reason := Text.Trim(i.reason),
       policyVersion := Text.Trim(i.policyVersion),
       snapshotVersion := Text.Trim(i.snapshotVersion),
       evidence := CanonicalRefs(i.evidence))
  }

  /** newIntent: normalize, then validate. */
  function NewIntent(i: Intent): Option<Intent>
  {
    if Valid(Normalized(i)) then Some(Normalized(i)) else None
  }

  /** intentFromWinningMutation. */
  function RestoreIntent(account: int, c: Columns): Option<Intent>
  {
    var bare := Intent(c.intentId, c.idempotencyKey, c.producer, c.authority, AccountResource(account),
                       SetAccountSchedulable, NoState, c.actor, c.reason, c.evidence, c.policyVersion,
                       c.snapshotVersion, c.createdAt, c.expiresAt);
    if c.schedulable.Some? then NewIntent(bare.(desired := Schedulable(c.schedulable.value)))
    else NewIntent(bare.(operation := SetAccountLoadFactor, desired := LoadFactor(if c.loadSet then c.loadFactor else None)))
  }

  /** An intent whose texts are trimmed and whose evidence is an ordered set. */
  predicate InNormalForm(i: Intent)
  {
    && Text.Trim(i.id) == i.id && Text.Trim(i.idempotencyKey) == i.idempotencyKey
    && Text.Trim(i.actor) == i.actor && Text.Trim(i.reason) == i.reason
    && Text.Trim(i.policyVersion) == i.policyVersion && Text.Trim(i.snapshotVersion) == i.snapshotVersion
    && StrictlySorted(i.evidence) && forall k | 0 <= k < |i.evidence| :: Text.Trim(i.evidence[k]) == i.evidence[k]
  }

  lemma NormalFormIsFixed(i: Intent)
    ensures InNormalForm(i) <==> Normalized(i) == i
  {
    if InNormalForm(i) {
      assert Trimmed(i.evidence) == i.evidence;
      StrictlySortedUnique(CanonicalRefs(i.evidence), i.evidence);
    }
    if Normalized(i) == i {
      forall k | 0 <= k < |i.evidence| ensures Text.Trim(i.evidence[k]) == i.evidence[k] {
        CanonicalRefTrimmed(i.evidence, i.evidence[k]);
      }
    }
  }

  lemma CanonicalRefTrimmed(refs: seq<string>, r: string)
    requires r in CanonicalRefs(refs)
    ensures Text.Trim(r) == r
  {
    assert r in Trimmed(refs);
    var n :| 0 <= n < |refs| && Trimmed(refs)[n] == r;
    Text.TrimIdempotent(refs[n]);
  }

  lemma NormalizedInNormalForm(i: Intent)
    ensures InNormalForm(Normalized(i))
  {
    Text.TrimIdempotent(i.id);
    Text.TrimIdempotent(i.idempotencyKey);
    Text.TrimIdempotent(i.actor);
    Text.TrimIdempotent(i.reason);
    Text.TrimIdempotent(i.policyVersion);
    Text.TrimIdempotent(i.snapshotVersion);
    CanonicalRefsIdempotent(i.evidence);
    NormalFormIsFixed(Normalized(i));
  }

  lemma CanonicalRefsKeepBlanks(refs: seq<string>)
    ensures (CanonicalRefs(refs) == []) <==> refs == []
    ensures HasBlankRef(CanonicalRefs(refs)) <==> HasBlankRef(refs)
  {
    var c := CanonicalRefs(refs);
    if refs != [] { assert Trimmed(refs)[0] in c; }
    if HasBlankRef(refs) {
      var k :| 0 <= k < |refs| && Blank(refs[k]);
      Text.TrimIdempotent(refs[k]);
      assert Trimmed(refs)[k] in c;
      var n :| 0 <= n < |c| && c[n] == Trimmed(refs)[k];
    }
    if HasBlankRef(c) {
      var k :| 0 <= k < |c| && Blank(c[k]);
      assert c[k] in Trimmed(refs);
      var n :| 0 <= n < |refs| && Trimmed(refs)[n] == c[k];
      Text.TrimIdempotent(refs[n]);
    }
  }

  /** Normalizing neither makes nor breaks validity, and fails for the same field. */
  lemma NormalizedValidity(i: Intent)
    ensures ValidationError(Normalized(i)) == ValidationError(i)
  {
    BlankTrimmed(i.id);
    BlankTrimmed(i.idempotencyKey);
    BlankTrimmed(i.actor);
    BlankTrimmed(i.reason);
    BlankTrimmed(i.policyVersion);
    BlankTrimmed(i.snapshotVersion);
    CanonicalRefsKeepBlanks(i.evidence);
    hide Blank, HasBlankRef, CanonicalRefs, Text.Trim, StateError, ResourceValid;
  }

  lemma BlankTrimmed(s: string)
    ensures Blank(Text.Trim(s)) == Blank(s)
  {
    Text.TrimIdempotent(s);
  }

  lemma DesiredFitsOperation(i: Intent)
    requires AccountIntent(i)
    ensures if i.operation.SetAccountSchedulable? then i.desired.Schedulable? else i.desired.LoadFactor?
  {
    hide Blank, Normalized;
    assert StateError(i.desired, i.resource, i.operation).None?;
  }

  /** Rebuilding a stored winner always succeeds and yields its normal form. */
  lemma WinningRoundTrip(i: Intent)
    requires AccountIntent(i)
    ensures RestoreIntent(i.resource.id, StoreWinning(i)) == Some(Normalized(i))
  {
    hide ValidationError, Normalized;
    DesiredFitsOperation(i);
    NormalizedValidity(i);
    var c := StoreWinning(i);
    assert c.schedulable.Some? <==> i.desired.Schedulable?;
  }

  /** The rebuilt intent is the stored one exactly when that was in normal form. */
  lemma WinningRoundTripExact(i: Intent)
    requires AccountIntent(i)
    ensures RestoreIntent(i.resource.id, StoreWinning(i)) == Some(i) <==> InNormalForm(i)
  {
    WinningRoundTrip(i);
    NormalFormIsFixed(i);
  }

  /** Whatever was stored, a rebuilt intent is an admissible account intent, and
      storing it again and rebuilding it changes nothing more. */
  lemma RestoredIsAdmissible(account: int, c: Columns)
    requires RestoreIntent(account, c).Some?
    ensures var i := RestoreIntent(account, c).value;
            AccountIntent(i) && i.resource == AccountResource(account) && RestoreIntent(account, StoreWinning(i)) == Some(i)
  {
    var i := RestoreIntent(account, c).value;
    var bare := Intent(c.intentId, c.idempotencyKey, c.producer, c.authority, AccountResource(account),
                       i.operation, i.desired, c.actor, c.reason, c.evidence, c.policyVersion,
                       c.snapshotVersion, c.createdAt, c.expiresAt);
    assert i == Normalized(bare);
    NormalizedInNormalForm(bare);
    WinningRoundTripExact(i);
  }

  // ------------------------------------------------------------ overrides

  datatype Override = Override(operation: Operation, account: int, columns: Columns)

  /** OverrideFromIntent. */
  function OverrideFromIntent(i: Intent): Option<Override>
  {
    if !Valid(i) || i.authority.ActivePolicy? || !i.resource.AccountResource? then None
    else match i.operation
      case SetAccountSchedulable =>
        if i.desired.Schedulable? then Some(Override(i.operation, i.resource.id, StoreWinning(i))) else None
      case SetAccountLoadFactor =>
        if i.desired.LoadFactor? then Some(Override(i.operation, i.resource.id, StoreWinning(i))) else None
      case _ => None
  }

  /** Override.Intent. Unlike the journal's columns it goes by the operation, and
      rejects a row whose value is missing. */
  function OverrideIntent(o: Override): Option<Intent>
  {
    var c := o.columns;
    var bare := Intent(c.intentId, c.idempotencyKey, c.producer, c.authority, AccountResource(o.account),
                       o.operation, NoState, c.actor, c.reason, c.evidence, c.policyVersion,
                       c.snapshotVersion, c.createdAt, c.expiresAt);
    match o.operation
    case SetAccountSchedulable =>
      if c.schedulable.None? then None else NewIntent(bare.(desired := Schedulable(c.schedulable.value)))
    case SetAccountLoadFactor =>
      if c.loadSet && c.loadFactor.None? then None
      else NewIntent(bare.(desired := LoadFactor(if c.loadSet then c.loadFactor else None)))
    case _ => None
  }

  /** Every account intent except policy can persist, and comes back normalized. */
  lemma OverrideRoundTrip(i: Intent)
    ensures OverrideFromIntent(i).Some? <==> AccountIntent(i) && !i.authority.ActivePolicy?
    ensures OverrideFromIntent(i).Some? ==> OverrideIntent(OverrideFromIntent(i).value) == Some(Normalized(i))
  {
    hide ValidationError, Normalized;
    if AccountIntent(i) { DesiredFitsOperation(i); }
    NormalizedValidity(i);
  }

  /** An override that yields an intent yields an admissible one for its account and
      operation, with the value its row holds; one whose value is missing yields none. */
  lemma OverrideIntentIsAdmissible(o: Override)
    ensures var i, c := OverrideIntent(o), o.columns;
            i.Some? ==>
              && AccountIntent(i.value) && i.value.resource == AccountResource(o.account) && i.value.operation == o.operation
              && (i.value.desired.Schedulable? ==> c.schedulable == Some(i.value.desired.value))
              && (i.value.desired.LoadFactor? ==> if c.loadSet then c.loadFactor.Some? && i.value.desired.factor == c.loadFactor
                                                  else i.value.desired.factor.None?)
  {
    hide ValidationError;
    if OverrideIntent(o).Some? { DesiredFitsOperation(OverrideIntent(o).value); }
  }
}

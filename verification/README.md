# Scheduler protocols: a verified model

The scheduler controls external accounts and token groups that it cannot write
to atomically. This project models the protocols it uses for that and proves
what they promise, for all inputs, all schedules and all crash points. It
can be checked with `dafny verify dfyconfig.toml`.

| files | component |
|---|---|
| Options, Text, Ordering, Tiers, Intents | optional values, encodings, sorting, control-plane intents |
| Arbiter, ArbiterLaws, ArbiterRun, ArbiterTies | the deterministic arbiter: specification, laws, implementation, ties |
| CandidateQueue, WinningIntent | the queue of overlapping commands; storing and rebuilding intents |
| AccountJournal, AccountJournalSafety, AccountJournalOutcomes, AccountOverlap, AccountProgress, AccountEndings, AccountRivals, AccountWitnesses, RecoveryBatches | the account mutation journal with crash recovery |
| KeyedLocks, FreezeBarrier, ReconcileCoordinator | three small concurrent protocols |
| GroupTransitions, GroupTransitionSafety, GroupTransitionFreshness, GroupTransitionProgress | the group transition journal |
| ValidationEvidence, EvidenceRuns, TierFailover, TierFailoverSteps, TierFailoverSafety, TierFailoverCause, TierFailoverPasses, PoolAssessment, TrafficTail | three-tier group failover |
| HealthStages, HealthRecovery | staged account health |
| CostRouting, CostRoutingRules, CostRoutingSafety, BalanceLock | cost routing and the balance lock |
| RateLimiter | the sliding-window limiter |

## How things are modelled

Protocols with interleavings are step systems: a `State`, an `Action` for each
atomic operation of each participant, `Step`, and `Run` over any sequence of
actions. Environment choices (errors, whether a failing update was stored,
whether a write took effect, what another party changed upstream, crashes) are
part of the action, so a statement about `Run` covers all of them. What happened
is kept in a log inside the state, and safety is stated about the log. Loops are
methods with invariants, proved against a specification function or predicate;
mutex-guarded objects are classes whose methods are the critical sections.

The main results speak of fields, columns and numbers of records rather than of
the model's own decision functions: where a program decides by a function such
as an authority rank, a classification or an eligibility test, a lemma says
exactly what that function demands, and the results about whole runs conclude in
those terms.

Times are integer nanoseconds, rates, scores and balances are reals, strings are
sequences of characters that stand for bytes.

The store is taken by its contract: preparing an account mutation inserts only
if its idempotency key is absent, a finalization that reports an error was not
committed, an update that reports an error may or may not have been stored, and
group transitions are completed or failed only while pending.

## What the code does not promise

Some expected properties hold only under a condition. The code is modelled as it
is; the condition is proved exact, and where the failing case is not plain from
it, a concrete input or run is given.

- Arbitration of a multiset has one result exactly when canonical keys tell its
  intents apart, which intents in canonical form guarantee. Two spellings of one
  evidence set share a key (`ArbiterTies.ResultDeterminedExactly`,
  `SpellingExample`).
- A rebuilt winner equals the stored intent only if that was trimmed and its
  evidence an ordered set; otherwise it is its normal form. The desired state
  always survives (`WinningIntent.WinningRoundTripExact`).
- A command that loses the arbitration order never writes its own intent while
  the better one stands, but it does reach the writer exactly when the top
  candidate carries its intent ID (`AccountRivals.ReachesWriterExactly`,
  `AccountWitnesses.SharedIdReachesWriter`). Commands with the same request key
  are not rivals at all: locking first, the loser writes its own intent
  (`AccountWitnesses.SharedRequestReachesWriter`).
- The reconcile pass resolves pending transitions from the rate cache and takes
  no group lock, so it can complete a row on a readback older than the row
  (`GroupTransitionFreshness.StaleExactly`, `StaleCompletionIsReachable`).
- Evidence cursors move back exactly when a writer saves a copy that has been
  overtaken: the compare-and-save looks only at transition, status and target,
  and other writers save unconditionally. Counters move back with them, so no
  row is ever counted twice (`EvidenceRuns.CursorsMoveForward`,
  `StaleSaveIsReachable`).
- The same unconditional save can credit a key with a status it held before its
  last switch, and the next cycle then switches without a cause
  (`TierFailoverCause.SwitchesCausedExactly`,
  `TierFailoverPasses.LateSaveBreaksCause`). Escalation and the bound of two
  switches hold regardless.
- Exhaustion is left again when anything stored or still to be saved disagrees
  with it, and a transition whose recovery finds the write not applied stays in
  transition for good otherwise (`TierFailoverPasses.FinalExactly`,
  `ExhaustedOutOfStep`, `StoppedSwitchSticks`).
- The comments on pool assessment speak of traffic evidence; the verdict depends
  only on whether some binding is schedulable and active
  (`PoolAssessment.AssessPool`).
- A frozen evaluation in quarantine or on trial skips what is left of both
  (`HealthRecovery.BypassedExactly`, `FrozenExample`).
- A serving account is locked exactly when some pool lists it off a target rate
  that already serves, so a pool can lose its only server if an account is
  listed under two sources (`CostRoutingSafety.ServingLockedExactly`,
  `SharedAccountIsLost`).

## Model

| member | source | states |
|---|---|---|
| Text.EncodeInjective | internal/controlplane/arbiter.go:225-230 | The length-prefixed encoding of a list of arbitrary strings is uniquely decodable: equal encodings mean equal lists |
| Text.PartPrefixFree | internal/controlplanebridge/identity.go:26-35 | Two encoded parts that begin the same text are the same part, so fields hashed one after another cannot run into each other |
| Text.QuoteInjective | internal/controlplane/types.go:136-145 | Quoting tells any two strings apart |
| Intents.ResourceTextInjective | internal/controlplane/types.go:136-145 | Resources have different string forms unless they are equal |
| Intents.StateTextInjective | internal/controlplane/types.go:257-271 | Desired states have different canonical forms unless they are equal |
| Intents.ConflictKeyTextInjective | internal/controlplane/types.go:278-280 | The text that orders results tells conflict keys apart, whatever quotes or separators a key ID contains |
| Intents.CanonicalEvidenceRefs | internal/controlplane/intent.go:120-136 | The trim, sort and compact loop yields the strictly ordered set of trimmed references |
| Intents.CanonicalRefsBySet | internal/controlplane/intent.go:120-136 | Canonical evidence depends only on the set of trimmed references |
| Intents.CanonicalRefsIdempotent | internal/controlplane/intent.go:120-136 | Canonicalizing evidence twice changes nothing |
| Intents.ValidExactly | internal/controlplane/intent.go:138-203 | An intent is valid exactly when it keeps each of the sixteen rules listed by field, and otherwise the error names the first one broken |
| Arbiter.SignatureDeterminesIntent | internal/controlplane/arbiter.go:194-215 | Equal semantic signatures mean equal resource, operation, desired state and every other field except ID, idempotency key and evidence spelling |
| Arbiter.CanonicalKeyInjective | internal/controlplane/arbiter.go:217-223 | Intents in canonical form have different canonical keys unless they are equal |
| Arbiter.CandidateTotal | internal/controlplane/arbiter.go:158-171 | Of two intents with different canonical keys exactly one wins |
| Arbiter.CandidateWinsStrictWeak | internal/controlplane/arbiter.go:158-171 | candidateWins meets the ordering contract of sort.Slice on all intents |
| Arbiter.OutcomeLessStrictWeak | internal/controlplane/arbiter.go:185-192 | The outcome order meets the ordering contract of sort.Slice |
| ArbiterRun.Sift | internal/controlplane/arbiter.go:58-69 | The first loop files every invalid or expired intent under its own key and queues every active one under its idempotency key |
| ArbiterRun.DuplicatesShareBucket | internal/controlplane/arbiter.go:84-96 | Every idempotent duplicate has its representative's conflict key, so it lands in the same bucket |
| ArbiterRun.FileConflict | internal/controlplane/arbiter.go:84-90 | Intents that bind one key to different meanings are all ignored, each under its own conflict key |
| ArbiterRun.FileActive | internal/controlplane/arbiter.go:71-96 | After the loop over idempotency keys every bucket holds exactly the representatives and outcomes of its conflict key |
| ArbiterRun.Settle | internal/controlplane/arbiter.go:99-119 | Whatever order ties are sorted in, a bucket yields a settled result: winner, superseded, ignored and reason |
| ArbiterRun.Arbitrate | internal/controlplane/arbiter.go:47-124 | The loops, with map order and sort ties left open, produce a result that meets the arbitration specification for the multiset of intents |
| ArbiterRun.ArbitrateBoth | internal/controlplane/arbiter.go:47-124 | Arbitrating any permutation gives identical results if canonical keys tell the intents apart, in particular for intents in canonical form |
| ArbiterLaws.ArbitrationUnique | internal/controlplane/arbiter.go:47-124 | If canonical keys tell the intents apart, as for canonical intents, the specification has at most one result sequence |
| ArbiterTies.ResultDeterminedExactly | internal/controlplane/arbiter.go:47-124 | Given one admissible result, it is the only one exactly when no two different intents of the multiset share a canonical key |
| ArbiterTies.EvidenceSpellingIsVisible | internal/controlplane/arbiter.go:58-96 | Two spellings of one evidence set have two different admissible results: either wins while the other is dropped as its duplicate |
| ArbiterTies.SpellingExample | internal/controlplane/arbiter.go:58-96 | A concrete pair of intents with two different admissible results |
| ArbiterLaws.ArbitrationConserves | internal/controlplane/arbiter.go:56-124 | Winners, superseded and ignored together are the given multiset of intents, each under its own conflict key, one result per key |
| ArbiterLaws.WinnerBeatsEligible | internal/controlplane/arbiter.go:99-113 | The winner beats every valid, unexpired, non-conflicting intent of its key that is not represented by the winner itself |
| ArbiterLaws.HighestAuthorityWins | internal/controlplane/types.go:48-66 | Against each eligible intent of its resource and operation the winner has an authority no later in the order manual hold, administrator, emergency, agent, policy, optimization; among equals it is not older, then its ID not greater, then its canonical key |
| ArbiterLaws.SupersededAre | internal/controlplane/arbiter.go:173-183 | A superseded intent is marked lower_authority exactly when its authority differs from the winner's, older exactly when it is the same and the winner newer, and a tie break otherwise |
| ArbiterLaws.IgnoredAre | internal/controlplane/arbiter.go:58-96 | An ignored intent is marked invalid or expired exactly when it is; otherwise its idempotency key has two meanings, or a candidate of the same meaning with no greater ID stands for it |
| ArbiterLaws.ReasonWithoutWinner | internal/controlplane/arbiter.go:115-117 | Without a winner the result's reason is expiry if some intent of the key expired, else the conflict if one is valid, else invalidity |
| CandidateQueue.CandidateQueue.Add | internal/accountcontrol/lock.go:89-102 | Adds a fresh token at the end of the slot of the account and operation, leaving every other slot alone |
| CandidateQueue.CandidateQueue.Finish | internal/accountcontrol/lock.go:104-129 | Marks or removes exactly the entry with the token, and drops the slot when only completed entries remain |
| CandidateQueue.CandidateQueue.Competing | internal/accountcontrol/lock.go:149-164 | Lists, in order, the intents of all other entries of the slot except retries of the same request |
| CandidateQueue.FinishKeepsQueueOk | internal/accountcontrol/lock.go:104-129 | Finishing keeps the invariant that every stored key has an incomplete candidate and tokens are unique |
| CandidateQueue.FinishEndsOne | internal/accountcontrol/lock.go:104-129 | Finishing a command ends exactly that command's incomplete entry |
| CandidateQueue.FinishedStaysExactly | internal/accountcontrol/lock.go:104-129 | A finished entry stays, as completed, exactly when it is retained and another one of the slot is incomplete |
| CandidateQueue.FinishKeepsOverlap | internal/accountcontrol/service.go:113-133 | A rival that finishes in a retained status stays visible while the overlapping command is unfinished |
| CandidateQueue.OverlapCompetes | internal/accountcontrol/service.go:290-318 | An overlapping rival is among the competing intents of the other command's arbitration |
| CandidateQueue.CompetingExactly | internal/accountcontrol/lock.go:149-164 | The competing intents are exactly those of other entries of the slot with another request key |
| CandidateQueue.ProceedIsEligible | internal/accountcontrol/service.go:557-578 | A submission proceeds only with a given intent that is valid, unexpired and unconflicted and has its own ID, resource and operation |
| CandidateQueue.LoserNeverProceeds | internal/accountcontrol/service.go:557-578 | With an eligible candidate that beats it, a submission never proceeds with its own intent |
| CandidateQueue.BestProceeds | internal/accountcontrol/service.go:557-578 | The eligible submission that beats every other eligible candidate of its key proceeds with its own intent |
| CandidateQueue.LapsesExactly | internal/accountcontrol/service.go:557-578 | A submission follows a winner exactly when some intent of its resource and operation stands; else it lapses exactly when a valid candidate with its ID has expired, and otherwise yields to nobody |
| WinningIntent.NormalizedValidity | internal/controlplane/intent.go:91-118 | Normalizing neither makes nor breaks validity, and validation names the same field |
| WinningIntent.WinningRoundTrip | internal/accountcontrol/recovery.go:234-250 | Rebuilding any stored account intent succeeds and yields its normal form |
| WinningIntent.WinningRoundTripExact | internal/accountcontrol/service.go:518-545 | The rebuilt intent equals the stored one exactly when its texts are trimmed and its evidence is an ordered set |
| WinningIntent.RestoredIsAdmissible | internal/accountcontrol/recovery.go:234-250 | Whatever columns are stored, a rebuilt intent is valid for the account, and storing and rebuilding it again changes nothing |
| WinningIntent.OverrideRoundTrip | internal/accountcontrol/types.go:120-195 | An intent can become an override exactly when it is an admissible account intent other than policy, and comes back as its normal form |
| WinningIntent.OverrideIntentIsAdmissible | internal/accountcontrol/types.go:170-195 | An override yields only an admissible intent for its account and operation with the value its row holds, and none when that is missing |
| AccountJournalSafety.StepSafe | internal/accountcontrol/service.go:144-288 | Every step of a Submit, a recovery, a crash or the environment keeps the journal invariant |
| AccountJournalSafety.WriteKeeps | internal/accountcontrol/service.go:262-276 | A write made from a writing phase is covered by a raised attempt, a guard pass, a fresh read equal to Before and the arbitration decision |
| AccountJournalSafety.ReadBackKeeps | internal/accountcontrol/service.go:320-363 | Resolving an ambiguous write by readback, with its one controlled retry, keeps the invariant |
| AccountJournalSafety.RecoverKeeps | internal/accountcontrol/recovery.go:110-188 | The decisions of recoverOne before its write keep the invariant |
| AccountJournalSafety.DecisionAdmissible | internal/accountcontrol/service.go:171-182 | Whatever the arbitration decides, the winner stored in the row is an admissible intent for the submitted account |
| AccountJournalSafety.RunSafe | internal/accountcontrol/service.go:92-124 | The invariant holds in every reachable state |
| AccountJournalSafety.AtMostTwoWrites | internal/accountcontrol/service.go:262-343 | Over every run one row is written upstream at most as often as its journaled attempt count, which never exceeds two |
| AccountJournalSafety.RowsEvolve | internal/accountcontrol/types.go:38-45 | Over every continuation a row keeps account and request, attempts never fall, and a terminal row is never changed or written again |
| AccountJournalSafety.EveryWriteIsGuarded | internal/accountcontrol/recovery.go:98-189 | Every write, of a command or a recovery, follows in the same lock section a guard pass and a read equal to the journaled Before state, with no write of the row in between; it asks for what the intent rebuilt from the row asks for, which Before does not have |
| AccountJournalSafety.AppliedRowsAreVerified | internal/accountcontrol/recovery.go:139-212 | Every applied or applied_noop row carries a state read after its last write whose schedulability, or load factor, is the one the intent rebuilt from its winning columns asks for |
| AccountJournalSafety.EveryRowRestores | internal/accountcontrol/recovery.go:105-109 | Recovery can rebuild the winner of every reachable row |
| AccountJournalOutcomes.TerminalRowsAreExplained | internal/accountcontrol/service.go:214-288 | Over every run each terminal row was closed with its final contents for the reason its status names: the section's last read shows the value asked for, or its last act was a refusal, a missing account, a failed read or check, a definitely failed write or an expired winner, or its own arbitration lost or lapsed |
| AccountJournalOutcomes.WritesAreTimely | internal/accountcontrol/recovery.go:110-155 | Every write follows a decision for its intent, by the command's arbitration or by its recovery in the same lock section, at a time before the intent's expiry |
| RecoveryBatches.GroupRecoveryItems | internal/accountcontrol/recovery.go:61-74 | The batches partition the rows by account, one batch per account, each in listed order |
| AccountOverlap.StepOrderly | internal/accountcontrol/service.go:102-124 | Every step keeps tokens distinct and the queue's incomplete entries equal to the unfinished commands |
| AccountOverlap.QueueHoldsUnfinished | internal/accountcontrol/lock.go:76-164 | Over every run the queue holds exactly the unfinished commands, each stored key has one, and it is empty once all have finished |
| AccountOverlap.EndedStaysVisibleExactly | internal/accountcontrol/service.go:126-133 | A command that ends stays visible to its rivals exactly when it ends applied, applied_noop, executing, verifying or uncertain and one of them is unfinished |
| AccountOverlap.LoserNeverWrites | internal/accountcontrol/service.go:92-133 | Of two commands queued before either is arbitrated, the one losing the arbitration order never writes its intent, whichever locks first, in a crash-free run where the better one stands, ends retained and has another request key |
| AccountOverlap.LoserIsSilent | internal/accountcontrol/service.go:290-318 | If in its arbitrations no other candidate carries the loser's intent ID, it does not reach the writer at all |
| AccountRivals.ProceedsExactly | internal/accountcontrol/service.go:557-578 | A command is told to proceed exactly when the top candidate of its conflict key carries its intent ID |
| AccountRivals.ReachesWriterExactly | internal/accountcontrol/service.go:144-288 | With its candidates known, a command can still reach the writer exactly when its request key is free and the top candidate of its conflict key carries its intent ID |
| AccountRivals.ProceedWrites | internal/accountcontrol/service.go:204-268 | A command told to proceed under a free key writes its winner when the account does not match and nothing fails |
| AccountWitnesses.SharedIdReachesWriter | internal/accountcontrol/service.go:564-568 | A run in which the loser reaches the writer because the better command shares its intent ID |
| AccountWitnesses.SharedRequestReachesWriter | internal/accountcontrol/lock.go:155-159 | A run in which the loser writes its own intent because the better command shares its request key and is not seen as a rival |
| AccountProgress.SubmitIsCarriedOut | internal/accountcontrol/service.go:219-288 | Without failures a submission told to proceed on an account without the value asked for writes once, verifies and ends applied: the account has the value, its other field is unchanged, and the row records both states |
| AccountProgress.SubmitIsNoop | internal/accountcontrol/service.go:255-260 | If the account already has the value asked for, the command ends as applied_noop with no write and no attempt counted |
| AccountProgress.RecoveryRetries | internal/accountcontrol/recovery.go:152-212 | An executing row whose write did not reach the account is written once more, verified and applied, leaving the account's other field alone |
| AccountProgress.RecoveryConfirms | internal/accountcontrol/recovery.go:139-151 | A row past its guard whose account has the value asked for is applied without another write |
| AccountEndings.FailureEnds | internal/accountcontrol/service.go:224-248 | A failing read, check, guard or definite write ends the command as failed, a refusal of the guard ends command or recovery as blocked, with the row recording it and the account unchanged |
| AccountEndings.MissingAccountBlocks | internal/accountcontrol/service.go:224-228 | A command whose account is not listed ends as blocked |
| AccountEndings.AmbiguousWriteIsResolved | internal/accountcontrol/service.go:320-361 | A write of unknown result that took effect is applied after one readback with no second write; one that did not is written once more and applied with two attempts |
| AccountEndings.UnsettledStaysOpen | internal/accountcontrol/recovery.go:114-203 | Failing reads, readbacks without the value asked for, a recovery's write that does not answer well, and a recovery that finds a diverged account or no attempt left leave the row uncertain |
| AccountEndings.UncommittedVerdict | internal/accountcontrol/service.go:418-461 | A command's verdict that cannot be committed puts its row back to verifying; a recovery's leaves the row as it was |
| AccountEndings.InterruptedSection | internal/accountcontrol/service.go:219-240 | A failing journal update ends the section at once, and a recovery without controls or guard answer leaves its row to a later one |
| AccountEndings.RecoveryBegins | internal/accountcontrol/recovery.go:98-112 | A recovery leaves closed rows alone, closes an early row whose winner has expired, and reads the account for every other |
| AccountEndings.LateRecoveryExpires | internal/accountcontrol/recovery.go:152-154 | A recovery that finds the winner expired and the account without the value asked for closes the row as expired, with no write |
| AccountEndings.EarlyRecoveryIsGuarded | internal/accountcontrol/recovery.go:125-176 | A row interrupted before its guard is guarded by its recovery first, takes the state read now as Before, and is guarded again before the write |
| AccountEndings.RepeatedRequestIsAnswered | internal/accountcontrol/service.go:159-166 | A submission under a taken journal key gets the row's status if its signature agrees and an error otherwise, and changes nothing |
| AccountEndings.PreparedTooLate | internal/accountcontrol/service.go:204-213 | A command whose journal key was taken meanwhile is answered from that row; one whose insert fails ends, its row stored exactly when the insert was kept |
| AccountEndings.SameRequestExactly | internal/accountcontrol/service.go:147-158 | When two submissions share journal key, queue key and signature, in terms of their trimmed request fields and intents |
| KeyedLocks.GroupResourceKeyInjective | internal/balance/group_lock.go:24-26 | Two keys share a lock exactly when source and trimmed key agree |
| KeyedLocks.LockTable.Register | internal/accountcontrol/lock.go:26-34 | The opening critical section reuses the mapped entry or creates one with its token in place, and counts the reference |
| KeyedLocks.LockTable.ReleaseRef | internal/accountcontrol/lock.go:48-55 | Drops one reference and the map entry exactly when the last reference is gone, the token is back and the entry is still mapped |
| KeyedLocks.StepKeeps | internal/balance/group_lock.go:28-59 | Every step of every process keeps exact counts, unique holders and the map pointing to each referenced entry |
| KeyedLocks.MutualExclusion | internal/accountcontrol/lock.go:25-46 | At most one holder per key over every schedule with cancellation, although entries are deleted and recreated; returning the token never blocks |
| KeyedLocks.ReferencesAreExact | internal/accountcontrol/lock.go:48-55 | The count equals the processes holding a reference; at zero the token is back and the entry unmapped |
| KeyedLocks.NothingLeaks | internal/balance/group_lock.go:52-59 | The map holds exactly the keys somebody waits for or holds, and is empty when nobody does |
| KeyedLocks.FreeLockCanBeTaken | internal/accountcontrol/lock.go:36-41 | When nobody holds its key, a waiter can take the lock |
| KeyedLocks.LockIsHandedOver | internal/accountcontrol/lock.go:36-46 | Once its holder has returned a lock, any waiter of the key can take it |
| KeyedLocks.EveryoneCanLeave | internal/balance/group_lock.go:38-59 | A waiter can give up and a holder can return its lock at any time, is then gone, leaves the others as they were, and what it held is free |
| FreezeBarrier.Barrier.TryMutation | internal/automation/barrier.go:33-48 | A turn enters exactly when no freeze holds or waits, and otherwise hands out the current channel without a change |
| FreezeBarrier.Barrier.TryFreeze | internal/automation/barrier.go:72-89 | A turn turns a waiting freeze into the active one exactly when no mutation and no freeze is active |
| FreezeBarrier.Barrier.LeaveMutation | internal/automation/barrier.go:38-45 | Releasing takes one mutation off the count and closes the current channel |
| FreezeBarrier.StepKeeps | internal/automation/barrier.go:25-107 | Every step keeps the counters exact, exclusion, and false guards for waiters on the current channel |
| FreezeBarrier.CountersAreExact | internal/automation/barrier.go:11-17 | Over every interleaving the counters equal the leases and claims present |
| FreezeBarrier.FreezeExcludes | internal/automation/barrier.go:57-87 | A freeze lease excludes every mutation lease and every other freeze |
| FreezeBarrier.FreezeHasPriority | internal/automation/barrier.go:8-10 | While a freeze waits throughout, active mutations never grow |
| FreezeBarrier.NoLostWakeUp | internal/automation/barrier.go:47-53 | A waiter whose guard holds waits on a closed channel and enters on its next turn |
| FreezeBarrier.ReleaseOnce | internal/automation/barrier.go:37-45 | Releasing a lease again, however late, changes nothing |
| FreezeBarrier.BarrierReopens | internal/automation/barrier.go:79-86 | Once all callers have released, the barrier is open again |
| FreezeBarrier.OpenBarrierAdmits | internal/automation/barrier.go:25-87 | At its first turn a mutation enters when nobody freezes or claims to, and a freeze when nobody holds a lease |
| FreezeBarrier.WaitersCanLeave | internal/automation/barrier.go:47-107 | A waiter can give up at any time; a freeze gives back its claim, and nobody else moves |
| FreezeBarrier.WokenExactly | internal/automation/barrier.go:47-53 | A waiter is woken exactly when the channel it waits on has been closed |
| ReconcileCoordinator.Coordinator.RequestAccounts | internal/reconcile/coordinator.go:80-104 | Adds exactly the positive IDs unless a full pass is pending, in which case it neither changes the set nor signals |
| ReconcileCoordinator.Coordinator.TakePending | internal/reconcile/coordinator.go:207-234 | Empties the box and returns its contents, each account once in increasing order |
| ReconcileCoordinator.StepKeeps | internal/reconcile/coordinator.go:135-205 | Every step of requesters and runner keeps the pending and wake invariants |
| ReconcileCoordinator.PendingIsOwed | internal/reconcile/coordinator.go:80-125 | A pending full request implies an empty set; what is owed is pending and what is pending was asked for |
| ReconcileCoordinator.WorkIsNoticed | internal/reconcile/coordinator.go:135-162 | Pending work implies a buffered token, a requester about to signal, or a runner before its empty take |
| ReconcileCoordinator.WorkCanFinish | internal/reconcile/coordinator.go:182-205 | From any reachable state with a live runner, outstanding signals and runner steps alone lead to nothing pending and nothing owed |
| ReconcileCoordinator.PassesHaveWork | internal/reconcile/coordinator.go:182-205 | Over every run each pass is for a full request or some accounts, and the runner waits again only after an empty take |
| ReconcileCoordinator.RequestsAreCovered | internal/reconcile/coordinator.go:80-234 | Each requested positive account that is no longer pending was covered by a later full pass or a pass naming it |
| GroupTransitionSafety.StepSafe | internal/balance/failover.go:136-448 | Every step of requests, recoveries, refreshes, reconcile passes and crashes keeps the journal invariant |
| GroupTransitionSafety.OneSwitchPerKey | internal/balance/failover.go:379-397 | One idempotency key causes at most one upstream switch call over any mix of calls, crashes and recoveries |
| GroupTransitionSafety.OnePendingPerKey | internal/balance/failover.go:319-325 | Each upstream key has at most one pending row |
| GroupTransitionSafety.AppliedWasRead | internal/balance/failover.go:648-682 | A row is applied only after some readback of the key showed the target group |
| GroupTransitionSafety.CompletionInSectionIsFresh | internal/balance/failover.go:398-436 | A completion by a request or a recovery rests on a readback in the same lock section, after any switch call |
| GroupTransitionSafety.UnknownStaysPending | internal/balance/failover.go:381-388 | Over every run a switch of unknown result leaves its row pending until a reconcile pass or a later lock section of the key resolves it |
| GroupTransitionSafety.FailedRowsAreExplained | internal/balance/failover.go:380-404 | A request fails its row only if it called no switch, the call definitely failed, or the section's readback since did not show the target; a recovery only on reading the old group, a pass only on a cached group other than the target; only dry runs are simulated |
| GroupTransitionSafety.SwitchesAreRequested | internal/balance/failover.go:224-379 | Every switch call is a request's, not a dry run, for the group asked for, after the section read the group the row records as the old one |
| GroupTransitionFreshness.StaleExactly | internal/balance/failover.go:628-652 | A pending row can be applied with no later readback exactly when cache, an unsaved fetch or a reconcile pass already claims its target |
| GroupTransitionFreshness.StaleCompletionIsReachable | internal/balance/failover.go:643-676 | A run from the start in which an automatic request reserves its row, a late refresh is saved and a pass marks the row applied, with no switch called and the key in its old group |
| GroupTransitionFreshness.ReservedIsUnread | internal/balance/failover.go:311-325 | Right after its reservation a row is unread by its section unless the key was already in the target group |
| GroupTransitionProgress.RequestIsCarriedOut | internal/balance/failover.go:124-448 | Without failures a new request for another group switches the key and ends with its row applied |
| GroupTransitionProgress.RecoverySettles | internal/balance/failover.go:490-563 | A recovery marks a pending row applied, failed or still pending by one readback, and calls no switch |
| GroupTransitionProgress.UnknownSwitchIsSettled | internal/balance/failover.go:379-563 | After a switch of unknown result the row is pending; a recovery then ends it applied if the switch took effect and failed if not, with one switch call in all |
| GroupTransitionProgress.RefusedRequest | internal/balance/failover.go:206-322 | An automatic request on a key live in another group than the cached one, and any request beside a pending row, reserves nothing |
| GroupTransitionProgress.DryRunIsSimulated | internal/balance/failover.go:326-333 | A dry run ends with a simulated row and the key in its old group |
| GroupTransitionProgress.CertainFailureIsRecorded | internal/balance/failover.go:334-404 | A store failure before the call, a refused or definitely failed call and a readback off the target fail the row |
| GroupTransitionProgress.InPlaceIsApplied | internal/balance/failover.go:366-377 | A key already in the target group gets its row applied without a switch call |
| GroupTransitionProgress.CrashIsRecovered | internal/balance/failover.go:473-563 | Wherever a crash hits, a recovery afterwards settles the pending row from what it reads, with no further switch call |
| GroupTransitionProgress.FailedReservationEnds | internal/balance/failover.go:322-325 | A request whose reservation fails ends there, with a pending row exactly when the insert was stored all the same |
| GroupTransitionProgress.EndingRecordedExactly | internal/balance/failover.go:326-404 | A failure, or a dry run, is recorded exactly when the store accepts it or keeps it despite its error |
| ValidationEvidence.ProcessEvidence | internal/failover/controller.go:636-683 | The loop over listed rows computes the round that RoundExactly characterizes: cursors, counters, counted rows, status and timeout |
| ValidationEvidence.CountedBeganAfterBoundary | internal/failover/controller.go:727-749 | A row that counts belongs to a request that began at least five seconds after the verified switch and not after now, also when only its completion is stamped |
| ValidationEvidence.BoundaryIsTight | internal/model/types.go:73-77 | Every completion stamp before the 5 s plus 45 s boundary may belong to an earlier request, and is refused |
| ValidationEvidence.RoundSound | internal/failover/controller.go:636-683 | A round keeps the two counters equal to the numbers of distinct confirming and failing rows, by source, status and error class, and moves neither cursors nor counters back |
| ValidationEvidence.RoundExactly | internal/failover/controller.go:636-683 | A round counts exactly the listed rows whose tags, times and columns qualify, and ends failed if the last of them fails at the threshold, else healthy if one confirms, else uncertain past the deadline, else unchanged |
| EvidenceRuns.CountedAtMostOnce | internal/failover/controller.go:620-705 | Over every interleaving with other writers the stored counters are the numbers of distinct recorded rows that confirm and fail by their columns, each past the watermark, of no other transition or target, fresh when counted, and begun five seconds after the verified switch |
| EvidenceRuns.RoundsLeaveSettledKeys | internal/failover/controller.go:620-645 | Rounds alone, however many, never touch a key that was confirmed healthy or failed, or whose switch is not verified |
| EvidenceRuns.CursorsMoveForwardFromStart | internal/store/failover.go:223-264 | In particular for every run from the start |
| EvidenceRuns.CursorsMoveForward | internal/store/failover.go:229-264 | Over a whole run cursors and counters never move back within a transition exactly when no writer saves a copy that has been overtaken |
| EvidenceRuns.StaleSaveMovesBack | internal/store/failover.go:223-227 | A single save moves forward exactly when the copy is not behind what is stored |
| EvidenceRuns.StaleSaveIsReachable | internal/balance/failover.go:643-708 | A concrete run in which a reconcile pass undoes a counted failure together with its cursor |
| TierFailover.NextEnabledTier | internal/failover/controller.go:559-579 | The first enabled tier above the current one, or none when no enabled tier is above |
| TierFailoverSteps.SwitchesExactly | internal/failover/controller.go:459-537 | A ready cycle applies a switch exactly when the key is neither frozen nor settling, has failed or its pool is out, cache and key agree, no row is pending, an enabled tier lies above and the attempt succeeds; the switch goes to the first of them and the key awaits fresh evidence |
| TierFailoverSteps.AttemptLeaves | internal/balance/failover.go:326-404 | What each other outcome leaves: a pending row and an open status when the outcome is not known for sure, a failed key when it is, and no counted switch |
| TierFailoverSteps.RefusedBeforeTheCall | internal/failover/controller.go:504-533 | Cooldown, limits, configuration and refusals before the call leave the key failed, frozen or uncertain, and its tier alone |
| TierFailoverSteps.ExhaustedExactly | internal/failover/controller.go:477-503 | A cycle exhausts and freezes a failed or out key exactly when no enabled tier lies above the cached one |
| TierFailoverSteps.SurprisedCycle | internal/balance/failover.go:240-262 | When the cache does not show the key's real tier a cycle calls no switch and takes the tier over as uncertain |
| TierFailoverSteps.RoundCounts | internal/failover/controller.go:636-683 | An evidence round adds the numbers of its successes and failures and ends failed, healthy, uncertain or as before by the last verdict, the threshold and the deadline |
| TierFailoverSteps.RecoveryExactly | internal/balance/failover.go:490-563 | A recovery resolves the pending row, applying its switch exactly when the key is in the target tier |
| TierFailoverSteps.PassExactly | internal/balance/failover.go:643-708 | A reconcile pass resolves only a row it listed, by the tier it read, and saves its own copy, as uncertain when that is on another tier |
| TierFailoverSafety.CycleKeeps | internal/failover/controller.go:459-537 | A controller cycle keeps the escalation invariant, wherever its switch fails or stops |
| TierFailoverSafety.ResolveKeeps | internal/balance/failover.go:490-563 | Recovery and the writes of a reconcile pass keep the escalation invariant, however late they come |
| TierFailoverSafety.SwitchesEscalate | internal/failover/controller.go:491-534 | Applied switches strictly escalate: each climbs, none starts below the tier an earlier one reached, whatever passes and refreshes interleave |
| TierFailoverSafety.AtMostTwoSwitches | internal/failover/controller.go:491-534 | Without manual, agent or probe action a key sees at most two applied switches |
| TierFailoverSafety.RelapseWitness | internal/failover/controller.go:481-490 | The second cause, as positions: a confirmation, a later outage, and no switch in between |
| TierFailoverCause.GoesWrongExactly | internal/failover/controller.go:477-534 | A key whose switches were caused so far can switch without a cause, with no further pass, exactly when its status or counter is ahead of its history since the last switch and a tier is left |
| TierFailoverCause.SwitchesCausedExactly | internal/failover/controller.go:477-678 | For every run, its switches and those of all pass-free continuations are caused exactly when no reconcile pass writes a copy that leaves the key so exposed |
| TierFailoverCause.SwitchesHaveCause | internal/failover/controller.go:620-678 | Between two applied switches of such a run the key collected the configured number of post-switch failures, or was confirmed healthy and then its pool went out |
| TierFailoverPasses.ExposingIsOvertaken | internal/balance/failover.go:614-708 | A pass exposes a key only by writing a copy that has been overtaken since it was read |
| TierFailoverPasses.UndisturbedRunsAreCaused | internal/balance/failover.go:614-708 | With passes that nothing overtakes, every later switch has its cause |
| TierFailoverPasses.LateSaveBreaksCause | internal/balance/failover.go:643-708 | A run in which a pass saves a copy read before a switch, and the key switches again with no failure and no confirmation |
| TierFailoverPasses.FinalExactly | internal/failover/controller.go:477-503 | Exhaustion, or a transition without a pending row, is final exactly when cache, state, upstream and everything read but not yet saved agree on the tier and on the status |
| TierFailoverPasses.StillForever | internal/failover/controller.go:477-480 | In that case no run changes the status, the tier or the log |
| TierFailoverPasses.StoppedSwitchSticks | internal/balance/failover.go:516-519 | A cycle that stops after announcing its switch leaves the key in transition for good once recovery finds the write not applied |
| TierFailoverPasses.ExhaustedOutOfStep | internal/balance/failover.go:683-708 | A run that reaches an exhausted key whose cache disagrees, so that exhaustion is not final |
| PoolAssessment.AssessPool | internal/failover/controller.go:295-370 | A pool is out exactly when it has bindings and none is both schedulable and active; monitor and traffic evidence only choose the reason, whose conditions are given exactly |
| TrafficTail.HasConsecutiveHardTraffic | internal/failover/controller.go:417-457 | True means a tail of the window holds at least the required number of records, all hard; false means no such tail stays hard when widened by the search's resolution; an error means a query that was made failed |
| HealthStages.MergeObservations | internal/health/health.go:491-509 | The map and sort build the ordered merge that MergedMeans characterizes |
| HealthStages.MergedMeans | internal/health/health.go:491-509 | A merge holds the current observation and, for each other check time of the last day, the latest stored one |
| HealthStages.Normalized | internal/health/health.go:47-110 | Normalized settings have positive periods, a window of at least two and reachable successes |
| HealthStages.NormalizedMeans | internal/health/health.go:47-110 | Settings in range are kept, others replaced by the defaults |
| HealthStages.ClassifyExactly | internal/health/health.go:397-413 | The class of a result by its alarming signs, its score and the number of the day's known samples |
| HealthStages.GoodExactly | internal/health/health.go:223-254 | A result speaks for recovery exactly when the observations show it, in numbers of operational and available ones over the window and the quarter hour |
| HealthRecovery.QuarantineExits | internal/health/health.go:430-435 | From quarantine one evaluation freezes the account, or releases it to the first trial exactly when the observations show recovery, or keeps it, with a new hold on a new alarming result |
| HealthRecovery.TrialExits | internal/health/health.go:436-452 | What one evaluation does to an account on trial: quarantine, restart or fall back, wait, or move on |
| HealthRecovery.ElsewhereByClass | internal/health/health.go:420-458 | Outside quarantine and trials an account takes on the class of the result, and keeps its time when it had it |
| HealthRecovery.TraceProgress | internal/health/health.go:415-458 | Every run is at a well-defined milestone since its last quarantine: held, on a trial, recovered, or escaped through a frozen evaluation |
| HealthRecovery.RecoveryTakesItsTime | internal/health/health.go:151-254 | Unless a frozen evaluation hits it in quarantine or on trial, from quarantined to healthy the account passes recovering_25 then recovering_50; the release and each new observation of the two full trials show recovery in numbers, and it takes at least the quarantine time plus two trials after the hold was last set |
| HealthRecovery.BypassedExactly | internal/health/health.go:158-169 | From quarantined to healthy the trials were skipped exactly when, since the last quarantine, a frozen evaluation hit the account in quarantine or on trial |
| HealthRecovery.FrozenSkipsQuarantine | internal/health/health.go:158-169 | After a frozen evaluation in quarantine the account is healthy at once exactly when the next result is not alarming and scores as healthy |
| HealthRecovery.FrozenExample | internal/health/health.go:158-169 | A concrete case: one frozen evaluation and one good result end a quarantine that has just begun |
| CostRouting.BuildItem | internal/balance/manager.go:574-618 | The loops over accounts compute the item of a source that ItemMeans characterizes |
| CostRouting.BuildPools | internal/balance/manager.go:562-620 | Every enabled routed source is in its pool, in source order |
| CostRouting.TargetRate | internal/balance/manager.go:624-646 | The target is the lowest rate among the pool's candidates, none exactly when there is no candidate |
| CostRouting.RoutePool | internal/balance/manager.go:647-695 | A pool adds exactly the locks its case calls for: kept, kept without the target's accounts, or all off the target rate |
| CostRouting.ReconcileCostRouting | internal/balance/manager.go:541-695 | Exactly the accounts that some pool wants locked, whatever the order in which pools are visited, each under a kept lock of that pool or one naming its source, the pool and the rate |
| CostRoutingRules.ItemMeans | internal/balance/manager.go:574-618 | A source's serving flag, availability, readiness and accounts in terms of its columns, its accounts, their controls and the locks |
| CostRoutingRules.WantsExactly | internal/balance/manager.go:541-695 | An account is wanted locked exactly when some pool asks for it: a current lock while nothing can be chosen, a current one not at the cheapest rate while that does not serve, or fed off the cheapest rate once it serves |
| CostRoutingRules.FitsExactly | internal/balance/manager.go:647-695 | A lock of the pass is a current lock of a pool or names a source feeding the account, the pool and that source's rate |
| CostRoutingSafety.ServingLockedExactly | internal/balance/manager.go:655-694 | An account that takes traffic is locked exactly when a pool whose cheapest rate already serves feeds it from a source off that rate |
| CostRoutingSafety.LastServingAccountStays | internal/balance/manager.go:562-695 | With each account in one source, a pool that had a serving account keeps one of them outside the new lock set |
| CostRoutingSafety.NewLocksOnlyWhenTargetServes | internal/balance/manager.go:655-694 | New locks appear only where the target rate is already serving |
| CostRoutingSafety.SharedAccountIsLost | internal/balance/manager.go:584-598 | The condition is needed: an account listed under two sources of a pool is locked and the pool loses its only server |
| BalanceLock.SourceState.ApplySuccess | internal/balance/manager.go:444-468 | Updates balance, streaks and lock as the streak rule says; a disabled source is cleared |
| BalanceLock.LockedExactly | internal/balance/manager.go:453-468 | After any run of balances a source is locked exactly when two in a row fell below the pause threshold and no two in a row since reached the resume threshold |
| RateLimiter.Limiter.Allow | internal/httpserver/security.go:36-59 | Prunes every list, then admits and records the call or refuses it |
| RateLimiter.Limiter.PruneAll | internal/httpserver/security.go:41-48 | Every list keeps what is after the cutoff and emptied keys are dropped, in whatever order the map is visited |
| RateLimiter.RetainAfterKeeps | internal/httpserver/security.go:61-67 | On an ordered list exactly the times after the cutoff are kept, with their multiplicity |
| RateLimiter.StoredIsRecentHistory | internal/httpserver/security.go:36-59 | After any run with a nondecreasing clock each stored list is the accepted history after the last cutoff, and the map is within capacity |
| RateLimiter.WindowNeverExceeded | internal/httpserver/security.go:36-59 | No interval of the window's length holds more calls of a key that were let through than the limit |
| RateLimiter.AllowedExactly | internal/httpserver/security.go:50-58 | A call is admitted exactly when fewer calls of its key than the limit were let through within the window, and the key is recent or fewer keys than the capacity are |
| RateLimiter.EveryCallIsLogged | internal/httpserver/security.go:36-59 | The history that these results speak of is the list of calls made, in order |

## Left out

- Store, HTTP clients, telemetry, user interface, configuration and process wiring: taken by contract or not part of this model.
- SHA-256, random identifiers and encryption: a digest is identified with the text it is computed from.
- Integer width: accounts, counters and times are unbounded; nanosecond timestamps are assumed to be within the range Go can represent.
- Text.QuoteInjective: `strconv.Quote` is modelled with its backslash escapes, not with its hexadecimal escapes of unprintable and non-ASCII characters, which are foreign to the identifiers it quotes.
- Text.Trim: trimming removes ASCII white space only.
- The safety guard's conditions (`checkSafety`): the guard is a step that passes, blocks or fails; its branches would add only one-line facts.
- The account control record (`updateControl`), results, events and audit details: they do not influence the protocols.
- The life cycle of the overrides table: an arbitration takes any list of overrides.
- The global slot semaphore and the recovery worker pool: a section that gets no slot ends like one whose lookup failed.
- Command ID checks and failures to generate an ID in Submit: they end the section like a failed store operation.
- KeyedLocks.LockTable.Register: channel operations outside the critical sections are steps of the schedule, not methods of the class.
- FreezeBarrier: the nil barrier, which admits everybody, is not modelled.
- ReconcileCoordinator.Coordinator.TakePending: request sources, counts and queue times, which only reach the log line, are not modelled.
- GroupTransitions: settings, policy and balance checks before the reservation are one step that may refuse; the transition limits and cooldown only refuse.
- GroupTransitionSafety.AppliedWasRead: the readback may be older than the row when the reconcile pass completes it; StaleExactly says exactly when.
- ValidationEvidence.ProcessEvidence: text columns are reduced to the values the classification distinguishes, and the tags of a row to transition and target.
- TierFailoverSafety.CycleKeeps: one cycle or evidence round per key is one step; the choice of the active key among a pool's keys, pool grouping and the mutation budget are inputs of a cycle.
- TierFailoverSafety.AtMostTwoSwitches: manual switches, agent actions, active probes and groups outside the policy do not occur.
- PoolAssessment.AssessPool: a failing statistics query, which ends the assessment with an error, is not modelled; neither is how a monitor streak or an allowed hard error is recognised.
- TrafficTail.HasConsecutiveHardTraffic: the records do not change between the queries of one search.
- HealthStages: the score of an observation, the latency baseline and the reason for freezing are inputs of an evaluation; texts are left out.
- CostRouting.ReconcileCostRouting: the creation time of a lock, and `costLocksEqual`, which only skips an unchanged write, are not modelled; of an account listed under several sources it is left open which source its lock names.
- BalanceLock: locking accounts when a source locks, and rotating its access key, are not modelled.
- The agent runtime, natural-language intents, message packets and the second health engine are not modelled.
- RateLimiter.StoredIsRecentHistory: assumes a positive window, as both limiters of the server have (`internal/httpserver/server.go:53`), and a clock that never runs back.
- AccountOverlap.LoserNeverWrites: speaks of the loser's own intent and of rivals with another request key; ReachesWriterExactly says exactly when a command reaches the writer.
- AccountOverlap.LoserIsSilent: a sufficient condition on the arbitrations of a whole run; ProceedsExactly and ReachesWriterExactly are the exact forms for one arbitration.

# Ticket service: gate scans, revocation, outbox and access projection

This project models the stateful core of the ticket service in Dafny and proves what it keeps.

- **Atomic tier.** `Tables` holds the ticket, guard, log, outbox and replay-key tables as one value
  and says what each operation, served alone, makes of them. `TicketStore.Store` is the service as an
  object: its methods go step by step through the checks and writes and are proved to land where
  `Tables` says. `Verdicts` and `Authority` state the exact case of every verdict, answer and column
  change on the columns and the request alone, with their numbers written out. `AtomicRuns` builds runs of
  operations; `Ledger`, `Erasure`, `Progress`, `GuardTimeline`, `Creation`, `Binding` and `Records` prove
  laws of every run; `Service` ties runs to the object.
- **Interleaved tier.** `GateProtocol` splits every request into its database and cache statements.
  A cell is everything about one ticket; a world is any number of cells under one clock, with any
  number of requests in flight, roll-backs at any moment and replay keys that may vanish. Row reads see
  committed data and row writes wait for the row lock (PostgreSQL read committed). Guard writes,
  replay keys and automatic revocations do not take part in the scan's transaction, so they
  survive its roll-back. `GateInvariants`, `GateLaws`, `GateTokens`, `GateLimits`, `GateRevocations` and
  `GateTimes` prove what holds in every interleaving and where the atomic laws stop holding. `BindingRaces` is the
  same for device activations, which span tickets. `SoloScan` proves that a request left
  undisturbed has exactly the effect of the atomic operation, so both tiers describe the same service.
- **Outbox.** `OutboxPublisher.Publisher` is one publisher with its `running` flag and its loop.
  `OutboxLease` is any number of them over the same rows, one statement a step, with crashes;
  `OutboxTiming` proves the retry times and `OutboxOverruns` what late publishers can do. A pass of
  the object, poll included, is a run of the protocol.
- **Access projection.** `AccessProjection` is the last-writer-wins register fed by repeated and
  reordered messages.

## Where the service does less than one may expect

- A revoked ticket can end up inside. Neither the nonce swap nor the manual presence update tests
  `revoked` again, so one scan accepted late (`LateAcceptance`), or a manual entry decided earlier
  (`OvertakenOverrideEndsInside`), puts it there. `RevokedGetsInsideIff` says exactly from which states.
- Overlapping manual presence changes can send two check-ins for one guest
  (`TwoOverridesUpsetTheBalance`, `BalanceKeptIff`). Scans and revocations alone never do
  (`InterleavedLedgerLaw`).
- The outbox claim does not test the retry time, so a second publisher can retry at once
  (`BackoffLost`). `EarlyClaimIff` says when a claim is early, `SpacedIff` and `PunctualLaw` what that costs.
- A publisher that outlives its 60 s lease can be joined on its record by another one; exactly then two
  work on it (`ExclusiveIff`). Failures may then be counted once instead of twice (`OverrunLosesCount`,
  `CountsTrueIff`), dead-lettering may miss the tenth (`DeadAtTenIff`), and a record may be both
  published and dead-lettered (`OverrunMarksBoth`, `BothMarksIff`).
- A creation message repeated after a deletion makes a new ticket (`DeletionBreaksIdempotence`).
  `DroppedCreationsIff` says which messages can be dropped from any run.
- Two overlapping activations can bind one device to two tickets of an event (`OverlapBindsTwice`,
  `OnePerDeviceIff`).
- Two handlers of the access projection running at once can keep the older payload
  (`OverlapIsSerialIff`); with equal times the order of delivery decides (`ConvergenceIff`).
- The repository's README calls a device binding immutable after the first success. The code lets the
  owner replace the key as long as the device stays the same, and takes the device from other
  tickets of the event (`BindingChangesIff`, `KeyReplacedIff`). The same README speaks of DER signatures
  where the code verifies IEEE P1363 ones; signatures are an oracle here. The model follows the code.

## Assumptions

- `DevService.resetTicket` and `DevService.createTicket` (outside production) and
  `TicketWriteService.update` (no caller) do not run; the first and the last would break the order of
  nonces or undo a revocation, the second inserts a ticket without its generated fact.
- A generated uuid is new. A token string that decrypts and verifies is a record with its issue time
  and nonce; whether a signature verifies under a key is an input, and so is a permission.
- Device identifiers are not empty, as the input classes demand, so a set one is a true one.
- One clock serves all processes. Laws that need more say so: presented tokens were generated by
  the service (`Genuine`, `GenuinePlay`), no replay key is lost early and a scan asks for its key within a
  minute (`TimelyPlay`), every claimed record is settled within the lease (`PromptRun`) or at least not
  taken over after it (`TakeoverFree`), one publisher instance (`OnlyBy`), no manual overrides (`OverrideFree`), no deletions (`DeleteFree`).

## Model

| member | source | states |
|---|---|---|
| TicketStore.Store.IsBlocked | src/ticket/service/shareguard.service.ts:48-58 | true exactly while a guard row has a block end in the future |
| TicketStore.Store.ResetShareGuard | src/ticket/service/shareguard.service.ts:30-46 | an existing guard loses its count, block and reason and keeps its last failure time; nothing else changes |
| TicketStore.Store.ApplyDecision | src/ticket/service/shareguard.service.ts:103-163 | the fault is counted, blocks or revokes as `AfterFault` says; the tenth revokes without being stored |
| TicketStore.Store.VerifyToken | src/ticket/service/verify.service.ts:100-413 | the cascade reaches the judgement of `JudgeScan`; only guard, key and revocation effects are visible, the swapped row is handed back unwritten |
| TicketStore.Store.Scan | src/ticket/service/scan.service.ts:47-142 | row, log and facts appear together or, without permission, not at all, while guard, key and revocation effects stay |
| TicketStore.Store.Enqueue | src/analytics/analytics-outbox.service.ts:12-40 | appends one fact and changes nothing else |
| TicketStore.Store.Revoke | src/ticket/service/ticket-write.service.ts:339-396 | first revocation puts the ticket outside, logs and sends; a repeated one changes nothing |
| TicketStore.Store.UpdatePresence | src/ticket/service/ticket-write.service.ts:398-477 | moves an unrevoked ticket with log and fact, setting the check-in time only once; refusals change nothing |
| TicketStore.Store.ActivateDevice | src/ticket/service/ticket-write.service.ts:134-180 | binds key and device for the owner and unbinds the device from the event's other tickets |
| TicketStore.Store.ResetDeviceBinding | src/ticket/service/ticket-write.service.ts:479-524 | clears a binding and logs it; nothing to clear, nothing changes |
| TicketStore.Store.CreateTicket | src/ticket/service/ticket-write.service.ts:52-119 | creates row and generated fact together, finds the matching ticket, or fails on a unique index; indexes stay unique |
| TicketStore.Store.Delete | src/ticket/service/ticket-write.service.ts:210-223 | removes ticket, guard and logs of the ticket and keeps sent facts |
| TicketStore.Store.GenerateToken | src/ticket/service/ticket-write.service.ts:182-208 | the owner gets a token for the row's next nonce, issued now; nothing changes |
| Service.ServeAll | src/ticket/service/scan.service.ts:47-142 | a store that served any operations holds the database of that run and obeys the ledger |
| Domain.LiveIsYoung | src/ticket/service/token.service.ts:128-148 | a token that still verifies is less than 60 s old, although expiry counts whole seconds |
| Verdicts.LiveIff | src/ticket/service/token.service.ts:144-148 | a token is live through the second it was issued in and 59 more |
| Verdicts.LiveBounds | src/ticket/service/token.service.ts:144-148 | up to 59 s old it is live, from 60 s on it is not |
| ShareGuards.RiskThresholds | src/ticket/service/shareguard.service.ts:60-101 | for all 32 inputs, which faults block, which would revoke by score, and which reason is noted |
| ShareGuards.ScanRisksNeverRevoke | src/ticket/service/verify.service.ts:174-252 | no fault the cascade raises revokes by its score, and only a wrong nonce does not block by it |
| Verification.AcceptedIff | src/ticket/service/verify.service.ts:117-354 | a scan is accepted if and only if all conditions on row, guard, signature, nonce, side, event end and key hold |
| Verdicts.TurnedIff | src/ticket/service/verify.service.ts:117-332 | exactly when a scan is turned away uncounted, and with which verdict: revoked, blocked, unbound, wrong side, event over |
| Verdicts.FaultedIff | src/ticket/service/verify.service.ts:174-354 | exactly when a scan is counted as a failure, and with which verdict, score and reason: signature, device, used nonce or held key, wrong nonce |
| Verdicts.ScanAnswers | src/ticket/service/scan.service.ts:55-76 | the verdict or the error that a scan is answered with, by token, ticket, permission and columns |
| Verdicts.OffenceCounts | src/ticket/service/shareguard.service.ts:103-163 | an offence adds exactly one failure, permission or not, and blocks for exactly 300 s from the third on or if grave; the tenth revokes |
| Verdicts.OffenceReason | src/ticket/service/shareguard.service.ts:87-101 | the reason noted is the first thing wrong with the scan |
| Verdicts.ForgeryCounts | src/ticket/service/verify.service.ts:174-176 | a scan signed by another key is counted, blocks for 300 s, and revokes at the tenth failure |
| Verdicts.OthersCountNothing | src/ticket/service/shareguard.service.ts:30-46 | any other scan leaves the guard as it was, or clears it if it passes |
| Authority.StaffAnswers | src/ticket/service/ticket-write.service.ts:349-356 | who is refused, with which error, and what is idle; the database changes if and only if the answer is done |
| Authority.ActivationAnswers | src/ticket/service/ticket-write.service.ts:139-150 | only the guest, with a valid key, while unbound or bound to that device; else the named error and no change |
| Authority.TokenAnswers | src/ticket/service/ticket-write.service.ts:182-207 | only the guest gets a token, for this ticket, its next nonce and this moment |
| Authority.CreationAnswers | src/ticket/service/ticket-write.service.ts:60-82 | which of idle success, wrong invitation, taken seat or place, and creation a message gets |
| Authority.CreationMakes | src/ticket/service/ticket-write.service.ts:84-106 | the new row holds exactly what the message asks for, with first nonce and outside, and one fact is sent |
| Authority.RowBecomes | src/ticket/service/verify.service.ts:356-371 | whatever is served, a row that stays becomes what one of seven events, told from columns and request, makes of it |
| Authority.ColumnsChangeIff | src/ticket/service/ticket-write.service.ts:361-371 | nonces change with admissions only, sides by admission, by hand or by revocation, revocation is final, a check-in time gives way only to an admission |
| Authority.BindingChangesOnlyBy | src/ticket/service/ticket-write.service.ts:144-176 | a binding is left different only by its own guest, by the guest of another ticket of the event taking the device, or by permitted staff |
| Authority.ExistenceIff | src/ticket/service/ticket-write.service.ts:210-223 | a ticket disappears by permitted deletion only and appears by creation only |
| Authority.KeyTakenIff | src/ticket/service/verify.service.ts:334-335 | a replay key is taken exactly by a scan that passes, for exactly 120 s |
| Authority.OthersUntouched | src/ticket/service/verify.service.ts:358-371 | no operation touches another ticket's guard, and only an activation another ticket's row |
| Records.LogGrows | src/ticket/service/scan.service.ts:77-88 | every notable operation appends exactly one log row with its actor, gate, device, nonce and verdict; no other touches the log |
| Records.LogProvenance | src/ticket/service/scan.service.ts:77-88 | in every run each log row goes back to the operation that wrote it |
| Records.OutboxGrows | src/ticket/service/scan.service.ts:89-122 | the outbox grows by exactly the facts an operation has to tell, in order |
| Records.FactProvenance | src/analytics/analytics-outbox.service.ts:12-40 | in every run each fact goes back to the operation that sent it |
| Records.RowProvenance | src/ticket/service/ticket-write.service.ts:357-371 | in every run, identity, binding, check-in time and revocation of a ticket go back to the operation, actor, time and reason they came from |
| Records.DeletionLaw | src/ticket/service/ticket-write.service.ts:218-222 | a deletion takes the rows of its own ticket only: all other log rows stay, in order |
| AtomicRuns.WfKept | src/ticket/service/verify.service.ts:356-371 | every operation keeps nonce columns, bindings, unique rows, guard and key bounds, and no log or guard outlives its ticket |
| Ledger.LedgerLaw | src/ticket/service/scan.service.ts:77-122 | after any run: crossing facts equal OK logs in order, alternate from inside, nonces are 1..k, check-ins minus check-outs is the presence, revoked tickets are outside |
| Ledger.NetOfCrossings | src/ticket/service/ticket-write.service.ts:446-471 | counted facts of the outbox give the same balance as the crossings in order |
| Erasure.ErasureLaw | src/ticket/service/verify.service.ts:276-332 | dropping any set of scans turned away without fault changes no other answer and no ticket, guard or key |
| Erasure.PolicyRejectionsAreTurnedAway | src/ticket/service/verify.service.ts:117-331 | ALREADY_INSIDE, NOT_INSIDE, EXPIRED_EVENT, REVOKED and BLOCKED come only from scans the erasure law covers |
| Progress.OnlyBlocksAndKeysDelay | src/ticket/service/verify.service.ts:140-354 | a right scan with a token for the next nonce, at most 59 s old, is accepted if and only if no block and no replay key stands |
| Progress.ProgressLaw | src/ticket/service/verify.service.ts:140-335 | from every reachable state, after 300 s, any token for the next nonce up to 59 s old and the other gate let an unrevoked bound ticket through |
| GuardTimeline.Timeline | src/ticket/service/shareguard.service.ts:103-163 | in every atomic run the failure times since the last reset explain count, block end and revocation |
| GuardTimeline.TenthFailureLaw | src/ticket/service/shareguard.service.ts:112-130 | a scan revokes if and only if it is the tenth counted failure, at least 7 × 300 s after the third |
| GuardTimeline.IssuedNotAhead | src/ticket/service/ticket-write.service.ts:195-207 | a generated nonce is at least 1 and never beyond the ticket's next nonce |
| GuardTimeline.GenuineRevocationLaw | src/ticket/service/verify.service.ts:226-274 | with generated tokens only, automatic revocation takes at least 9 × 300 s from the first failure |
| Creation.IdempotenceLaw | src/ticket/service/ticket-write.service.ts:60-82 | without deletions, dropping all repeated creation messages leaves the whole database unchanged |
| Creation.CreateIdleIff | src/ticket/service/ticket-write.service.ts:60-82 | serving a creation message changes nothing if and only if an existing ticket holds its invitation, its seat, or its event and guest |
| Creation.DroppedCreationsIff | src/ticket/service/ticket-write.service.ts:60-106 | in any run, deletions included, dropping creation messages changes no state of the run if and only if each asks for something taken at that moment |
| Creation.GeneratedLaw | src/ticket/service/ticket-write.service.ts:84-106 | exactly one generated fact for each ticket ever created; invitation, seat and event with guest are unique |
| Creation.DeletionBreaksIdempotence | src/ticket/service/ticket-write.service.ts:218-222 | after a deletion a repeated message makes a new ticket |
| Binding.OneTicketPerDeviceLaw | src/ticket/service/ticket-write.service.ts:164-176 | with operations served one at a time, a device serves at most one ticket of an event |
| Binding.BindingChangesIff | src/ticket/service/ticket-write.service.ts:144-176 | a binding changes if and only if its guest validly rebinds, the guest of another ticket of the event validly takes the device, or permitted staff reset it |
| Binding.KeyReplacedIff | src/ticket/service/ticket-write.service.ts:144-162 | a bound ticket's key is replaced exactly by its guest with a valid key for the same device |
| BindingRaces.OnePerDeviceIff | src/ticket/service/ticket-write.service.ts:134-180 | however activations overlap, a device always serves one ticket of an event if and only if none commits over a rival its sweep has missed |
| BindingRaces.IsolationLaw | src/ticket/service/ticket-write.service.ts:134-180 | in every run a row written by an activation changes for nobody until that activation commits or is rolled back |
| BindingRaces.ApartLaw | src/ticket/service/ticket-write.service.ts:164-176 | the rule holds wherever no activation commits between the sweep and the commit of another one for the same device and event |
| BindingRaces.OverlapBindsTwice | src/ticket/service/ticket-write.service.ts:134-180 | a run of two activations that binds one device to two tickets of an event |
| BindingRaces.SoloActivationLaw | src/ticket/service/ticket-write.service.ts:134-180 | an activation left alone begins exactly when the atomic one succeeds and has exactly its effect |
| GateInvariants.SoundKept | src/ticket/service/verify.service.ts:356-393 | every step of every request keeps the cell sound and only moves its row on |
| GateLaws.NonceLaw | src/ticket/service/verify.service.ts:334-393 | in every interleaving accepted nonces are 1..k in commit order, the row holds k and k + 1, and the stored count is 0..9 |
| GateLaws.CheckInLaw | src/ticket/service/verify.service.ts:358-371 | in every interleaving a guest inside has a check-in time, which never becomes null again; revocation is never undone |
| GateLaws.RevocationLaw | src/ticket/service/verify.service.ts:110-138 | however many scans are in flight, at most one more is accepted after a revocation has committed |
| GateLaws.AlternationLaw | src/ticket/service/verify.service.ts:282-301 | in every interleaving of scans and revocations OK logs read inside, outside, inside, … although presence is checked on a snapshot |
| GateTimes.TimesLaw | src/ticket/service/shareguard.service.ts:103-144 | in every interleaving a revocation bears time, actor and reason of the request that asked for it, or the time its failure was counted, and a block ends exactly 300 s after a failure was counted |
| GateTokens.NoInvalidNonceLaw | src/ticket/service/verify.service.ts:226-274 | with generated tokens, INVALID_NONCE is neither logged nor due in any interleaving |
| GateTokens.OneKeyPerTokenLaw | src/ticket/service/verify.service.ts:334-335 | a token takes a replay key at most once in its life, roll-backs included |
| GateLimits.FactsMatchLaw | src/ticket/service/scan.service.ts:77-121 | in every interleaving, overrides included, crossing facts and OK logs match one for one and in order |
| GateLimits.InterleavedLedgerLaw | src/ticket/service/verify.service.ts:358-371 | in every interleaving of scans and revocations the balance of an unrevoked ticket is its presence |
| GateLimits.BalanceKeptIff | src/ticket/service/ticket-write.service.ts:431-444 | a step upsets the balance if and only if it commits a crossing to the side the guest is already on |
| GateLimits.TwoOverridesUpsetTheBalance | src/ticket/service/ticket-write.service.ts:407-474 | two overlapping manual entries send two check-ins |
| GateRevocations.RevokedGetsInsideIff | src/ticket/service/verify.service.ts:360-371 | from any reachable state of a revoked ticket outside, some continuation puts it inside if and only if a manual entry, or an entry scan whose snapshot passes and whose nonce is still expected, is in flight |
| GateLimits.OvertakenOverrideEndsInside | src/ticket/service/ticket-write.service.ts:427-444 | a run in which a manual entry does so |
| GateLimits.LateRevocation | src/ticket/service/ticket-write.service.ts:356-371 | a revocation can commit between the checks and the swap of any acceptable scan, guard row or none |
| GateLimits.LateAcceptance | src/ticket/service/verify.service.ts:360-371 | that scan is still accepted, so the bound of the revocation law is reached |
| GateLimits.LateEntryIsReachable | src/ticket/service/verify.service.ts:360-371 | from the creation of a ticket on: a bound device, an issued token and a revocation in between leave the revoked ticket inside |
| SoloScan.SoloScanLaw | src/ticket/service/scan.service.ts:55-124 | an undisturbed interleaved scan, committed or rolled back, has exactly the effect of the atomic one |
| SoloScan.SoloRevokeLaw | src/ticket/service/ticket-write.service.ts:349-391 | so has an undisturbed revocation |
| SoloScan.SoloOverrideLaw | src/ticket/service/ticket-write.service.ts:407-474 | so has an undisturbed manual presence change |
| OutboxRows.NineBackoffs | src/analytics/analytics-outbox.publisher.ts:114-118 | the nine delays before the tenth failure sum up to 810 s |
| OutboxRows.BackoffDoubles | src/analytics/analytics-outbox.publisher.ts:114-118 | the first delay is 2 s, each further one twice the one before up to 300 s |
| OutboxRows.BackoffTable | src/analytics/analytics-outbox.publisher.ts:114-118 | the delays written out: 2, 4, 8, 16, 32, 64, 128, 256 and then 300 s |
| OutboxLease.MarksLaw | src/analytics/analytics-outbox.publisher.ts:37-62 | with crashes and stale leases: published implies accepted by the broker before, marks are never cleared, from any moment on every record is settled or claimable before or once the lease has passed, and an untouched one ready within 300 s |
| OutboxLease.ExclusiveIff | src/analytics/analytics-outbox.publisher.ts:50-66 | in any run, one instance at a time works on a record if and only if nobody claims it from an instance past its lease; then attempts, dead-lettering and marks are right too |
| OutboxLease.LeaseLaw | src/analytics/analytics-outbox.publisher.ts:50-122 | with prompt settlements one instance at a time works on a record, attempts count its failures up to ten, dead-lettered exactly at ten, never also published |
| OutboxLease.LockLaw | src/analytics/analytics-outbox.publisher.ts:50-122 | without crashes and takeovers a record is locked if and only if the instance it names is at work on it since then |
| OutboxLease.SendBoundLaw | src/analytics/analytics-outbox.publisher.ts:72-122 | without crashes and takeovers, at most ten sends of a record, all but one in flight accounted for |
| OutboxTiming.BackoffLaw | src/analytics/analytics-outbox.publisher.ts:104-118 | one instance: failures come at least 2, 4, 8, …, 256 and 300 s apart, the retry time is exactly that long after the last one, and dead-lettering at least 810 s after the first |
| OutboxTiming.SpacedIff | src/analytics/analytics-outbox.publisher.ts:114-118 | with any number of instances and no takeover, failures keep their back-off if and only if none is settled before the retry time |
| OutboxTiming.PunctualLaw | src/analytics/analytics-outbox.publisher.ts:51-62 | with any number of instances, punctual claims and no takeover keep every back-off, and no record is dead-lettered within 810 s |
| OutboxTiming.EarlyClaimIff | src/analytics/analytics-outbox.publisher.ts:51-62 | a claim comes early if and only if the record is claimable, another instance has settled it as failed since this one polled, and the back-off has not passed |
| OutboxTiming.StaleBatchRetriesAtOnce | src/analytics/analytics-outbox.publisher.ts:51-62 | whenever a second instance has a failing record in its batch, both fail at the same moment and the spacing is lost |
| OutboxTiming.BackoffLost | src/analytics/analytics-outbox.publisher.ts:51-62 | a run from the empty outbox in which one record fails twice at once |
| OutboxOverruns.CountsTrueIff | src/analytics/analytics-outbox.publisher.ts:103-108 | in any run, attempts count the failed settlements if and only if none settles a count that has changed since it was read |
| OutboxOverruns.DeadAtTenIff | src/analytics/analytics-outbox.publisher.ts:112-113 | in any run, records are dead-lettered exactly at ten attempts if and only if no failure is settled from ten, or from below nine after the death |
| OutboxOverruns.OverrunLosesCount | src/analytics/analytics-outbox.publisher.ts:72-121 | a run in which two instances work on one record and two failures count as one |
| OutboxOverruns.OverrunMarksBoth | src/analytics/analytics-outbox.publisher.ts:94-120 | a run in which an overdue send leaves a record published and dead-lettered |
| OutboxOverruns.BothMarksIff | src/analytics/analytics-outbox.publisher.ts:94-120 | from any reachable state, a record with one mark can get the other if and only if a late publisher in flight may still succeed, or the counts of those in flight can add up to ten |
| OutboxPublisher.CandidatesAre | src/analytics/analytics-outbox.publisher.ts:37-49 | a batch holds only ready records, oldest first, and misses one only if full of older ones |
| OutboxPublisher.Publisher.FindReady | src/analytics/analytics-outbox.publisher.ts:37-49 | the poll returns that batch |
| OutboxPublisher.Publisher.Publish | src/analytics/analytics-outbox.publisher.ts:72-122 | one send, then the record is published or its failure counted with back-off or dead-lettering |
| OutboxPublisher.Publisher.Handle | src/analytics/analytics-outbox.publisher.ts:51-65 | a claimable record is claimed, sent once and settled without lock; any other is skipped |
| OutboxPublisher.Publisher.PublishReady | src/analytics/analytics-outbox.publisher.ts:31-70 | a pass handles each record of its batch once and touches no other; a running pass shuts out a second |
| OutboxPublisher.PassWorks | src/analytics/analytics-outbox.publisher.ts:103-121 | every send of a pass uses up a unit of ten less attempts over unsettled records |
| OutboxPublisher.Publisher.Drain | src/analytics/analytics-outbox.publisher.ts:21-23 | passes with waits between them settle every record, locks left by dead publishers included, with at most ten sends for each unsettled one |
| OutboxPublisher.ReachableRests | src/analytics/analytics-outbox.publisher.ts:37-66 | every outbox that any number of instances leave behind without takeover, crashes included, is one that can be drained |
| OutboxPublisher.WholePassRuns | src/analytics/analytics-outbox.publisher.ts:37-66 | a whole pass of the object, poll included, is a run of the lease protocol from idle to idle and writes the same rows |
| AccessProjection.Projection.HandleUserAccessChanged | src/handlers/event-role.handler.ts:56-96 | keeps the row for an older message, otherwise writes the payload |
| AccessProjection.Projection.HandleAll | src/handlers/event-role.handler.ts:56-96 | a consumer that works through a delivery ends with the rows of that delivery |
| AccessProjection.LastWriterWins | src/handlers/event-role.handler.ts:61-94 | after any delivery a row is the payload of the last of the latest messages for its key |
| AccessProjection.ConvergenceIff | src/handlers/event-role.handler.ts:69-78 | all orders and repetitions of the same messages agree if and only if the latest messages of each key do |
| AccessProjection.DistinctTimesConverge | src/handlers/event-role.handler.ts:61-94 | with distinct times for distinct payloads the final row is the latest payload, whatever the delivery |
| AccessProjection.OverlapIsSerialIff | src/handlers/event-role.handler.ts:64-94 | two overlapping handlers act as in one of the two serial orders if and only if the older of two new messages for a key does not write last |

## Left out

- JWS, JWE, ECDSA, key parsing, the loading of the key map and fingerprints: library calls; a valid token and a valid signature are inputs.
- Kafka transport, milestone messages, GraphQL resolvers, health, configuration, logging and tracing: no state of their own.
- Deletion in the interleaved tier, and `deleteByEventIds` and `deleteByGuestId`: deletion is an atomic operation here, one ticket at a time.
- The activation time and address columns, `updatedAt` and the stored error text: written and never tested.
- Role and settings projections: they compare message time with local write time, so the code promises no convergence; the end of an event is an input that may change at any time.
- Tenant checks in `enqueue`: assumed to succeed; facts carry ticket, event, subject, verdict and direction only.
- Clock skew between processes, and dates that do not parse: one clock and proper times throughout.
- OneKeyPerTokenLaw: says nothing of a scan that waits longer than a minute between verifying its token and asking for its key, because a key may then have expired.
- VerifyToken: served alone its swap cannot miss; the REPLAY answer of a lost swap is the `Swap` step of the interleaved tier.
- Enqueue: tenant, correlation, actor and time of a fact are not kept, nor is the tenant check.
- ActivateDevice: the activation time and address columns are not kept, because nothing reads them.
- ResetDeviceBinding: the same columns are not kept.
- LeaseLaw: needs prompt settlements; `ExclusiveIff`, `CountsTrueIff`, `DeadAtTenIff` and `BothMarksIff` say exactly when each part fails without them.
- Publish: a failed outcome stands for a refused send and for a lost mark alike; a database error that ends a pass early is only in the lease protocol, as `Crash`.
- Drain: the timer's passes are modelled with a wait of five minutes before each and a clock standing still during one.
- PublishReady: the object works alone and its clock stands still during a pass, other instances being the lease protocol's; the order of creation stands for `createdAt`, so ties between equal times are not modelled.

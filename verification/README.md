# A verified model of the back end's protocols and algorithms

The back end keeps its state in one database and talks to an identity provider and a printer. This
project models the parts where correctness depends on how concurrent calls, crashes and errors
interleave, and the algorithms beside them, and proves what each is for.

A protocol is a state with one action per database statement, timer, provider answer, commit or
crash. `Enabled` says when an action can happen, `Next` what it does, and a run is any sequence of
enabled actions by any number of callers; a theorem about runs therefore speaks of every interleaving.
Uncommitted writes live in the record of their transaction and are seen by nobody else; row locks,
advisory locks and unique indexes are conditions of `Enabled`. Objects whose fields the source updates
in place are classes; loops of the source are loops proved against functions.

| files | what they model |
|---|---|
| `AgendaSchedule`, `AgendaLocks`, `AgendaBooking`, `AgendaTheorems`, `AgendaVersions`, `AgendaService` | pet agenda bookings: advisory locks, conflict search, optimistic versions |
| `PrintQueueModel`, `PrintQueueShape`, `PrintQueueSafety`, `PrintQueueCancel`, `PrintQueueAttempts`, `PrintQueueProgress`, `PrintQueueWrites`, `PrintQueue` | the receipt print queue between its await points, with crash and restart |
| `JsonText`, `StableJson`, `StableOrder`, `AuditRecord`, `WhiteSpace` | the canonical JSON text, when it depends on the order of properties, and what an audit operation records |
| `AuditOutbox`, `AuditTheorems`, `AuditLeases`, `AuditService` | the audit outbox: leases, claim tokens, delivery, retry |
| `Registration`, `RegistrationCore`, `RegistrationCompensation`, `RegistrationTheorems`, `RegistrationLateDelete`, `RegistrationCodes`, `RegistrationClaims`, `RegistrationLone`, `RegistrationIntents` | the registration saga and its compensation |
| `ReceiptLayout`, `ReceiptWrap`, `ReceiptOptimal`, `ReceiptAgain` | receipt text: display width, cutting, wrapping, wrapping again |
| `RateLimit` | fixed-window counting of attempts |
| `MigrationBatch` | paging by signed cursor |
| `StorefrontCleanup`, `StorefrontTheorems`, `StorefrontLone` | expired reservations and their stock |
| `AdminOperation` | administrative operations made once per key |

## Assumptions

- Agenda: an update names a version that a committed row had before the call started (`HonestRun`).
  Lock hashing is injective, and the lock's case folding is the query's. Appointments present at the
  start do not overlap and their attendants' names are stored trimmed, as `create` and `update` store
  them; rows with null dates may be among them and overlap nothing. The names matter, since an update
  that keeps a name searches for its trimmed form: `UntrimmedNameSlips`.
- Print queue: an ordinary error of the transport means that nothing was printed. The bound on prints,
  and nothing else, also takes the transport's query never to report an error for a job it accepted
  (`Reliable`). Replacing the file is atomic.
- Outbox and registration: tokens are fresh, hashes injective. The outbox needs nothing of its clocks:
  each action carries its own reading. Registration has one clock that never goes back; that a
  compensating delete reaches the provider within its lease (`TimelyRun`) is assumed by
  `CompletedKeepsIdentity` alone. A claim's update and the read after it are one step. A failed creation
  is reported under one of the provider's own error codes.
- `stableJson`: numbers are integers; `localeCompare` ranks keys by a function of the key; an object
  lists its properties in any order, each key once.

## What turned out otherwise

- An appointment stored under a name with white space around it slips past the conflict search of an
  update that keeps the name: `UntrimmedNameSlips`.
- The version check ties the two reads of an update together exactly when the version named is not
  later than the row read first: `PinnedExactlyWhenHonest`. A client that guesses the next version can
  double-book: `GuessedVersionDoubleBooks`.
- An operator's `cancel` does not keep a receipt from being printed again, and nothing else exceeds
  the operator's account: `OnlyCancelExceeds`.
- `stableJson` ignores the order of a value's properties if and only if the collation tells the keys of
  each of its objects apart: `OrderIgnoredFor`. Equal texts always mean equal content:
  `StableNeverConfuses`.
- The cutting loop of `wrapText` ends if and only if every character of the word fits the paper:
  `EndsExactlyWhenCharsFit`, so for every text on paper of two columns or more: `PrintableExactlyWhen`.
- Wrapping again gives the same lines if and only if no first part of an overlong word, one column
  short of the paper, follows a word of combining marks that has a line to itself:
  `WrappingAgainJoins`, with such a text for every width from 2 on in `MarksMayMove`.
- A compensating delete that outlives its lease can take the identity of a registration completed in
  the meantime: `LateDeleteOrphans`.
- With a limit below one, an identity is still admitted once per window: `Cap` in `RateLimit`.

## Model

| member | source | states |
|---|---|---|
| AgendaTheorems.NeverDoubleBooked | src/agenda-pet/agenda-pet.service.ts:128-320 | in every state of every interleaving of create, update and remove, no two active appointments of one tenant and branch that share a pet or a case-folded attendant overlap |
| AgendaTheorems.NeverOverCapacity | src/agenda-pet/agenda-pet.service.ts:478-522 | so one pet's active bookings inside any time window never add up to more than the window |
| AgendaTheorems.NoLostUpdate | src/agenda-pet/agenda-pet.service.ts:211-281 | at most one update commits per appointment and version, and what commits is computed from the row as committed just before |
| AgendaTheorems.CommitsWhatWasAsked | src/agenda-pet/agenda-pet.service.ts:128-281 | in every run, what commits has each column from the request where it names one (the attendant trimmed), and otherwise from the row committed just before, or the default of a new one |
| AgendaTheorems.BranchesStayApart | src/agenda-pet/agenda-pet.service.ts:265-320 | in every run, no action changes an appointment of another tenant or branch, or moves one there |
| AgendaVersions.NoLostUpdateWhatever | src/agenda-pet/agenda-pet.service.ts:275-281 | whatever versions clients name, an update replaces a row that is at the version it named and not deleted, and at most one commits for each row and version |
| AgendaTheorems.NoDeadlock | src/agenda-pet/agenda-pet.service.ts:524-540 | no chain of transactions waiting for each other's locks or rows closes to a cycle |
| AgendaTheorems.SomeoneCanGoOn | src/agenda-pet/agenda-pet.service.ts:534-540 | whenever transactions run, one of them waits for nobody |
| AgendaTheorems.NotBlockedMeansReady | src/agenda-pet/agenda-pet.service.ts:534-540 | waiting for nobody means that the next lock, write or commit can happen now |
| AgendaVersions.PinnedExactlyWhenHonest | src/agenda-pet/agenda-pet.service.ts:211-226 | in any run, an update past its version check read the same row before and under its locks if and only if it named a version no later than the one read first |
| AgendaVersions.GuessedVersionDoubleBooks | src/agenda-pet/agenda-pet.service.ts:211-226 | a run in which a client names the version after the current one and a pet is booked twice for one hour |
| AgendaBooking.VersionCheckPins | src/agenda-pet/agenda-pet.service.ts:211-226 | past the check, the held locks cover the row as it is and as it is to be written |
| AgendaBooking.Exclusion | src/agenda-pet/agenda-pet.service.ts:534-540 | two transactions past their lock loops have no lock key in common |
| AgendaBooking.WriteIsAsChecked | src/agenda-pet/agenda-pet.service.ts:275-281 | the conditional update writes exactly the row that was checked for conflicts |
| AgendaBooking.CommitOthers | src/agenda-pet/agenda-pet.service.ts:275-281 | a commit leaves everything other running transactions read or checked valid |
| AgendaBooking.StepKeeps | src/agenda-pet/agenda-pet.service.ts:128-320 | every step keeps the locks, the reads, the checks and the table in order |
| AgendaLocks.LockKeys | src/agenda-pet/agenda-pet.service.ts:524-533 | the lock keys are those of the resources, each once, in strictly ascending order |
| AgendaSchedule.StatusOnlyAdvances | src/agenda-pet/agenda-pet.service.ts:542-551 | along accepted updates the status never goes back, and one that occupies no time is final |
| AgendaService.UntrimmedNameSlips | src/agenda-pet/agenda-pet.service.ts:510-522 | for every stored name that is not trimmed there is an update, accepted by both searches, that double-books its attendant |
| AgendaSchedule.ScheduleChosen | src/agenda-pet/agenda-pet.service.ts:448-476 | which requests are refused, and for each way of naming or leaving out dates which start and end are chosen |
| AgendaSchedule.ScheduleOnlyMovesWhenAsked | src/agenda-pet/agenda-pet.service.ts:452-466 | an update that names no date keeps a well-formed interval; one that names a date but no end lasts an hour |
| AgendaService.AgendaPetService.Create | src/agenda-pet/agenda-pet.service.ts:128-198 | accepted exactly when client with pet, service, attendant and schedule are given and neither search finds a conflict; the new row has the attendant trimmed, the given status or scheduled, and version 1 |
| AgendaService.AgendaPetService.Update | src/agenda-pet/agenda-pet.service.ts:200-293 | not found, blank attendant, version conflict or other refusal, in this order; otherwise each column is the request's, the attendant trimmed, or the old row's, and the version one more |
| AgendaService.AgendaPetService.Remove | src/agenda-pet/agenda-pet.service.ts:295-320 | marks a visible appointment as deleted and changes nothing else |
| AgendaService.AgendaPetService.TimeConflict | src/agenda-pet/agenda-pet.service.ts:478-522 | a conflict is reported exactly when the row takes time and another row of the branch that takes time, of the same pet or under the same name, begins before it ends and ends after it begins |
| AgendaService.LoneCall | src/agenda-pet/agenda-pet.service.ts:128-293 | what a request asks for, from the row there is, is what the interleaved protocol commits for it when nobody else is around |
| PrintQueueSafety.PrintsAreAccountedFor | scripts/printing/print-queue.ts:84-314 | over any interleaving, failed snapshots and restarts, the sends of a job that may have printed are at most one plus its `confirm_not_printed` and `cancel` resolutions |
| PrintQueueSafety.PrintsWithoutCancel | scripts/printing/print-queue.ts:84-314 | without cancellations, at most one plus its `confirm_not_printed` resolutions |
| PrintQueueSafety.StepAccounted | scripts/printing/print-queue.ts:97-314 | unless a query reports an error, every step keeps that neither memory nor a snapshot can resend a job whose budget is spent |
| PrintQueueShape.OneSendAtATime | scripts/printing/print-queue.ts:263-314 | in every run, whatever the transport reports, at most one send of a job is in flight within a process |
| PrintQueueShape.SentIsOnDisk | scripts/printing/print-queue.ts:97-121 | in every run, the file says of a job being sent that it was handed over: a restart watches it and does not send it |
| PrintQueueShape.KeysStayUnique | scripts/printing/print-queue.ts:184-214 | in every run, jobs are one per idempotency key, in memory and in the file |
| PrintQueueShape.StepKeeps | scripts/printing/print-queue.ts:97-314 | every step keeps calls, watches, the active set and the snapshots fitting together |
| PrintQueueCancel.OnlyCancelExceeds | scripts/printing/print-queue.ts:237-261 | with the account used up, the next resolution lets a faultless run exceed it if and only if it is a cancellation |
| PrintQueueProgress.PendingIsNotForgotten | scripts/printing/print-queue.ts:97-314 | in every run, a pending job waits for its `enqueue`, a call or a timer, or the call that has it calls it again at its end |
| PrintQueueProgress.PendingCanBeSent | scripts/printing/print-queue.ts:184-314 | whatever happened before, if no write failed, a faultless continuation sends a pending job |
| PrintQueueProgress.HandedIsWatched | scripts/printing/print-queue.ts:97-181 | in every run that drops no watch of it, a job handed over is in the hands of its call or watched |
| PrintQueueWrites.EveryChangeIsSaved | scripts/printing/print-queue.ts:123-136 | every action that changes a job asks for exactly one snapshot, and none asks for more |
| PrintQueueWrites.AnsweredIsOnFile | scripts/printing/print-queue.ts:207-214 | in every run, when an `enqueue` answers, its job is in the file |
| PrintQueueWrites.AwaitedWasAskedFor | scripts/printing/print-queue.ts:123-136 | in every run, whoever awaits a snapshot awaits one that was asked for |
| PrintQueueWrites.AwaitsWrites | scripts/printing/print-queue.ts:275-296 | a send starts, a call ends and a watch goes on only once the fate of its snapshot is known |
| PrintQueueProgress.StepsInOrder | scripts/printing/print-queue.ts:263-314 | a call saves, sends and saves again in this order, for one job |
| PrintQueueProgress.WatchesInOrder | scripts/printing/print-queue.ts:138-181 | a watch sleeps, asks and saves, round by round |
| PrintQueueAttempts.AttemptsBounded | scripts/printing/print-queue.ts:97-121 | in every run, whatever the transport reports, a job's attempts never exceed the maximum (at least one) plus the client's repeated requests for it |
| PrintQueueObject.PrintQueue.Enqueue | scripts/printing/print-queue.ts:184-214 | the caller gets the one job with its key: a known one is called again exactly if its status allows, a new one is pending and waits for its snapshot |
| PrintQueueObject.PrintQueue.Added | scripts/printing/print-queue.ts:207-214 | once its snapshot is written, the new job is called |
| PrintQueueObject.PrintQueue.Process | scripts/printing/print-queue.ts:263-278 | exactly an idle job of an allowed status is started: handed over, one attempt more, within its allowed attempts, and in no other call's hands |
| PrintQueueObject.PrintQueue.StartSend | scripts/printing/print-queue.ts:277-283 | when a send starts, the file says already that the job was handed over, so no restart sends it, and no other call has it |
| PrintQueueObject.PrintQueue.SendEnds | scripts/printing/print-queue.ts:280-296 | the job has the status of how the send ended and no attempt more, and only an ordinary error takes back that it may have printed |
| PrintQueueObject.PrintQueue.Finish | scripts/printing/print-queue.ts:288-312 | nobody has the job any more; it is watched exactly if it was handed over, gets a timer exactly for an error with attempts left, and is called again exactly if that was asked for meanwhile |
| PrintQueueObject.PrintQueue.SaveFails | scripts/printing/print-queue.ts:123-136 | nobody has the job any more, the file and the number of sends that may have printed stay, and the job is in error unless the rejected snapshot was that of a failure |
| PrintQueueObject.PrintQueue.Monitor | scripts/printing/print-queue.ts:138-146 | however often it is called, a job has at most one watch that may write it |
| PrintQueueObject.PrintQueue.Wake | scripts/printing/print-queue.ts:144-153 | the transport is asked exactly while it can be and the job may still be printing; otherwise the watch ends |
| PrintQueueObject.PrintQueue.QueryEnds | scripts/printing/print-queue.ts:153-170 | only the watched job changes, to what the query reported, while no call has it; no call or timer is started |
| PrintQueueObject.PrintQueue.WatchEnds | scripts/printing/print-queue.ts:159-181 | the watch sleeps for its next round, or after the last of 20 the job handed over becomes unknown while no call has it, or the watch ends |
| PrintQueueObject.PrintQueue.Resolve | scripts/printing/print-queue.ts:237-261 | only an unknown job is resolved, to printed, pending or error; each resolution but `confirm_printed` allows one print more, and `confirm_not_printed` alone asks for one more call |
| PrintQueueObject.PrintQueue.Restart | scripts/printing/print-queue.ts:84-121 | the jobs are those of the file; called once each are exactly those not handed over or done with attempts left, with budget for a print; each job handed over is watched once |
| JsonText.TextDecodes | src/audit/audit-outbox.service.ts:409-417 | the JSON text of a value determines the value and where the text ends |
| JsonText.EscapesOnly | src/audit/audit-outbox.service.ts:416 | exactly quotation marks, backslashes and control characters are escaped |
| StableJson.StableSpells | src/audit/audit-outbox.service.ts:409-417 | `stableJson` is the plain JSON text of the value with every object sorted |
| StableJson.StableDecidesSame | src/audit/audit-outbox.service.ts:409-417 | values whose keys the collation tells apart have the same text exactly when they differ at most in the order of properties, undefined read as null |
| StableJson.StableNeverConfuses | src/audit/audit-outbox.service.ts:409-417 | without any condition, values that differ otherwise have different texts |
| StableOrder.OrderIgnoredFor | src/audit/audit-outbox.service.ts:409-417 | a value has the same text in every order of its properties if and only if the collation tells the keys of each of its objects apart |
| StableOrder.OrderIgnoredExactlyWhen | src/audit/audit-outbox.service.ts:409-417 | the order of properties is ignored for all values if and only if the collation tells all keys apart |
| StableOrder.TiesKeepOrder | src/audit/audit-outbox.service.ts:409-417 | two keys ranked alike keep their order, so swapping them changes the text |
| AuditRecord.HashDecidesContent | src/audit/audit-outbox.service.ts:311-340 | equal payload hashes mean equal content, field by field, and equal content means equal hashes when the collation tells its keys apart |
| AuditRecord.RefusedExactlyWhenDifferent | src/audit/audit-outbox.service.ts:54-86 | after a first call and any others, a call for the same operation is refused exactly when its content differs from the first call's (keys told apart by the collation) |
| AuditRecord.RecordedStays | src/audit/audit-outbox.service.ts:74-85 | no later call changes what is recorded |
| AuditRecord.TextFieldIsClean | src/audit/audit-outbox.service.ts:375-383 | a recorded text is the text on one line, trimmed, then cut to its length; it is null exactly when it is missing or only white space |
| AuditOutbox.EventCarriesCall | src/audit/audit-outbox.service.ts:311-366 | each field of the event is that of the call, cleaned or by default, before and after states included |
| AuditTheorems.DeliveredExactlyOnce | src/audit/audit-outbox.service.ts:229-309 | in every run a row has an authoritative event exactly when it is DELIVERED, never two, with the recorded content |
| AuditTheorems.DeliversWhatWasEnqueued | src/audit/audit-outbox.service.ts:54-86 | the event of an operation is that of the content first enqueued, and of no other content but for empty JSON columns |
| AuditTheorems.SettledForGood | src/audit/audit-outbox.service.ts:202-309 | DELIVERED and FAILED_FINAL rows never change again |
| AuditTheorems.ReplacedClaimIsInert | src/audit/audit-outbox.service.ts:229-309 | a claim whose token was replaced changes nothing, then or at any later time |
| AuditTheorems.AttemptsBounded | src/audit/audit-outbox.service.ts:271-309 | claims number at most the maximum plus those that found the row in delivery, a row is given up only with its attempts used up and retried only with some left, and its delays add up to at most the sum of the backoffs, 127 s with 8 attempts |
| AuditTheorems.SettledWithoutLapses | src/audit/audit-outbox.service.ts:229-309 | without lapsed claims, a row that no delivery has under way is DELIVERED or FAILED_FINAL once it was claimed the maximum of times, and before that delivered or waiting to be claimed |
| AuditLeases.ClaimsRespectLeases | src/audit/audit-outbox.service.ts:202-222 | a claimed row that was neither delivered nor failed can be claimed again exactly from the end of the lease on |
| AuditLeases.RetriesWait | src/audit/audit-outbox.service.ts:271-303 | after its n-th attempt failed, a row can be claimed again exactly when the n-th delay is over and attempts are left |
| AuditLeases.ClaimsFollowEnqueue | src/audit/audit-outbox.service.ts:213-214 | a new row can be claimed from the time of its enqueue on |
| AuditLeases.FindsUnderLease | src/audit/audit-outbox.service.ts:231-240 | a delivery goes on exactly if it looks under its own lease and the row is not delivered |
| AuditLeases.ReplacedFindsNothing | src/audit/audit-outbox.service.ts:231-279 | a delivery whose claim was replaced finds nothing to deliver or to reschedule |
| AuditTheorems.StepsInOrder | src/audit/audit-outbox.service.ts:229-303 | a delivery reads, inserts, updates and commits in this order, and fails only from there |
| AuditTheorems.AttemptsCountClaims | src/audit/audit-outbox.service.ts:219-224 | the attempt count is the number of claims in the run |
| AuditTheorems.NeverStuck | src/audit/audit-outbox.service.ts:202-227 | whatever happened before, a row that is not settled can still be delivered |
| AuditOutbox.StepKeeps | src/audit/audit-outbox.service.ts:202-309 | every step keeps rows, events and deliveries consistent |
| AuditService.AuditOutboxService.Deliver | src/audit/audit-outbox.service.ts:229-309 | what a delivery does to each column of the row and to the events when its transaction commits, fails, or commits unheard |
| AuditService.AuditOutboxService.Fail | src/audit/audit-outbox.service.ts:271-309 | only a row still claimed under the token is rescheduled or given up |
| AuditService.LoneDelivery | src/audit/audit-outbox.service.ts:229-309 | the delivery's steps in the interleaved protocol lead to what the method says |
| RegistrationTheorems.TenantExactlyWhenCompleted | src/auth/auth.service.ts:359-529 | in every run an intent owns a tenant exactly when it is COMPLETED, and each address gets at most one tenant |
| RegistrationTheorems.SettledForGood | src/auth/auth.service.ts:636-855 | COMPLETED and FAILED_FINAL intents never change again |
| RegistrationTheorems.ReplacedTokenIsInert | src/auth/auth.service.ts:271-336 | once a token was replaced, no step under it changes any intent or tenant |
| RegistrationTheorems.CompletedKeepsIdentity | src/auth/auth.service.ts:530-559 | with timely deletes, every completed registration has its identity at the provider, with its address and mark, also after a commit reported as an error |
| RegistrationTheorems.NeverStuck | src/auth/auth.service.ts:733-771 | wherever calls crashed, an unsettled intent can be claimed by a later call with the same data once its lease lapsed |
| RegistrationTheorems.StepsInOrder | src/auth/auth.service.ts:179-559 | the owner of an intent takes its steps in one order, with one identity, and keeps its intent |
| RegistrationClaims.LeasesAreRespected | src/auth/auth.service.ts:715-757 | in every run, a claimed intent is leased, another call gets it only after the lease and unsettled, every claim and renewal lasts a minute, and no change of a row goes unnoticed |
| RegistrationClaims.RecoveryIsOfWhatWasSeen | src/auth/auth.service.ts:715-719 | in every run, a recovery replaces a row only if each of its columns is as the call read it before it asked the provider |
| RegistrationClaims.OtherDataCanRecover | src/auth/auth.service.ts:687-721 | after a safe failure that left nothing behind, a call with other data gets the intent, with its own data and no identity |
| RegistrationClaims.LookMeans | src/auth/auth.service.ts:668-735 | which intent a call may find, and when it goes on to claim or to recover it |
| RegistrationClaims.ProbeMeans | src/auth/auth.service.ts:697-714 | a recovery goes on exactly if no account and no identity of the address or of the intent exists |
| RegistrationClaims.FreshIsCreated | src/auth/auth.service.ts:645-661 | a call whose address and key no intent has gets a new one |
| RegistrationClaims.AccountStops | src/auth/auth.service.ts:225-236 | a call ends before the provider exactly if its address has an account |
| RegistrationClaims.FoundMeans | src/auth/auth.service.ts:242-251 | the identity found is adopted if it is the intent's own, conflicts if not, and only without one the call creates one |
| RegistrationClaims.AuthClaimMeans | src/auth/auth.service.ts:271-336 | the identity is recorded exactly under the current token; an error goes on to release the intent under the code of where it happened |
| RegistrationCodes.CodesTell | src/auth/auth.service.ts:185-559 | in every run, an intent recorded as rolled back has its identity gone, and state and code of each other failure tell where it happened |
| RegistrationCodes.DeleteConcludes | src/auth/auth.service.ts:538-554 | a compensation ends as rolled back exactly if it heard of its delete, and otherwise stays required |
| RegistrationLone.CompletesAlone | src/auth/auth.service.ts:179-529 | undisturbed, a call completes its intent with its own identity, found or created, and one tenant, whatever referral it has unless invalid |
| RegistrationLone.TransactionFailureFails | src/auth/auth.service.ts:530-559 | if the transaction fails, the intent is released as rolled back without identity, or as requiring compensation |
| RegistrationLone.InvalidReferralFails | src/auth/auth.service.ts:183-200 | an invalid referral gives the intent up for good |
| RegistrationLone.ForeignIdentityFails | src/auth/auth.service.ts:300-325 | so does an identity of the address that is not the intent's own |
| RegistrationLone.LookupFailureFails | src/auth/auth.service.ts:326-336 | a failed lookup releases the intent to be retried |
| RegistrationLone.CreationFailureFails | src/auth/auth.service.ts:326-336 | so does a failed creation, under the provider's code |
| RegistrationLateDelete.LateDeleteOrphans | src/auth/auth.service.ts:1863-1875 | for every input there is a run in which a delete after its lease leaves a completed registration without identity |
| RegistrationCore.StepCore | src/auth/auth.service.ts:271-559 | every step keeps intents, tenants, tokens and identities consistent, whatever the timing |
| RegistrationCompensation.DeleteKept | src/auth/auth.service.ts:530-559 | a timely delete takes an identity that no completed intent has and no current owner relies on |
| RegistrationCompensation.StepKept | src/auth/auth.service.ts:271-559 | every timely step keeps completed registrations with their identities |
| RegistrationIntents.RegistrationIntentTable.ClaimRegistrationIntent | src/auth/auth.service.ts:636-771 | which calls get the intent, exactly when each refusal applies, and the row after it |
| RegistrationIntents.RegistrationIntentTable.ClaimRegistrationCompensation | src/auth/auth.service.ts:774-793 | compensation is claimed exactly by the current owner of an AUTH_CREATED intent |
| RegistrationIntents.RegistrationIntentTable.Mark | src/auth/auth.service.ts:795-855 | marks only under the current token, if the call has one, and never over COMPLETED; the claim is released, so the intent can be claimed again at once unless it failed for good, by other data exactly in the known safe cases |
| ReceiptLayout.DisplayWidth | scripts/printing/escpos.ts:102-123 | the loop computes the sum of the characters' widths |
| ReceiptLayout.TakeColumns | scripts/printing/escpos.ts:125-135 | splits the text at the longest prefix that fits |
| ReceiptLayout.FitIsLongest | scripts/printing/escpos.ts:125-135 | a prefix fits exactly when it is no longer than the one taken |
| ReceiptLayout.EndsExactlyWhenCharsFit | scripts/printing/escpos.ts:150-154 | the cutting loop ends if and only if every character fits the paper |
| ReceiptWrap.WrapText | scripts/printing/escpos.ts:137-167 | the loops terminate and compute the lines specified, whenever every character fits |
| ReceiptWrap.LinesFit | scripts/printing/escpos.ts:137-167 | every line's display width is at most the paper's |
| ReceiptWrap.ContentKept | scripts/printing/escpos.ts:137-167 | the characters of the lines other than white space are those of the input, in order |
| ReceiptWrap.PrintableExactlyWhen | scripts/printing/escpos.ts:102-123 | every text can be wrapped if and only if the paper has two columns or more |
| ReceiptWrap.PapersTakeEverything | scripts/printing/escpos.ts:98-167 | on both papers every text is wrapped, every line fits, and nothing but white space is lost or added |
| ReceiptWrap.WordsKeepText | scripts/printing/escpos.ts:138-141 | splitting loses only white space |
| ReceiptOptimal.FewestLines | scripts/printing/escpos.ts:156-165 | when every word fits, no way of breaking the words into fitting lines uses fewer |
| ReceiptAgain.WrappingAgainJoins | scripts/printing/escpos.ts:137-167 | wrapping the lines joined by blanks gives one line fewer for each first part that slips, and the same lines if and only if none does |
| ReceiptAgain.LastSlipsMeans | scripts/printing/escpos.ts:145-165 | a part slips exactly after a word that shows nothing and has a line to itself, with a column to spare |
| ReceiptAgain.WrappingAgainChangesNothing | scripts/printing/escpos.ts:137-167 | so the lines stay the same when every word shows something, overlong words included |
| ReceiptAgain.MarksMayMove | scripts/printing/escpos.ts:106 | for every paper there is a text with a word of combining marks only that loses a line when wrapped again |
| RateLimit.AuthRateLimitStore.Consume | src/auth/auth-rate-limit.store.ts:19-73 | counts the address and the account if one is named, the second also after a refusal of the first, and reports the first refused |
| RateLimit.AuthRateLimitStore.CleanupExpired | src/auth/auth-rate-limit.store.ts:75-86 | removes, up to the limit, the unlocked buckets whose windows ended first, and none whose window is not over |
| RateLimit.SomeSelected | src/auth/auth-rate-limit.store.ts:75-86 | there is always such a choice of buckets |
| RateLimit.AtMostMaxPerWindow | src/auth/auth-rate-limit.store.ts:41-59 | each identity is admitted at most `max` times per aligned window |
| RateLimit.AdmittedExactlyBelowMax | src/auth/auth-rate-limit.store.ts:41-59 | an attempt is admitted exactly while fewer than `max` were admitted in its window |
| RateLimit.AtMostTwiceAnywhere | src/auth/auth-rate-limit.store.ts:27-30 | and at most twice that in any interval as long as a window |
| RateLimit.CleaningChangesNoDecision | src/auth/auth-rate-limit.store.ts:75-86 | a store that never cleans up decides every attempt alike |
| RateLimit.WaitingReachesNextWindow | src/auth/auth-rate-limit.store.ts:68-71 | waiting the announced seconds reaches a later window, and no fewer whole seconds do |
| MigrationBatch.PagesPartition | scripts/auth/auth-migration-batch.ts:51-88 | feeding each cursor back covers every record once, in key order, after exactly n / batchSize calls rounded up; then pages are empty and the cursor stays |
| MigrationBatch.PageAt | scripts/auth/auth-migration-batch.ts:61-65 | which records each call looks at |
| MigrationBatch.InputOrderIrrelevant | scripts/auth/auth-migration-batch.ts:58-60 | no call depends on the order of the input |
| MigrationBatch.AcceptedExactlyWhenOwn | scripts/auth/auth-migration-batch.ts:30-49 | a cursor is accepted exactly when it is the signed cursor of one of the records |
| MigrationBatch.RefusedExactlyWhen | scripts/auth/auth-migration-batch.ts:51-61 | which error is reported when |
| MigrationBatch.PlanCounts | scripts/auth/auth-migration-batch.ts:65-87 | a plan counts the records looked at, those of a known provider with subject and profile, and the others |
| MigrationBatch.EligibleOverall | scripts/auth/auth-migration-batch.ts:65-87 | over all pages each eligible record is counted once, in whatever order the records came |
| MigrationBatch.SortSorts | scripts/auth/auth-migration-batch.ts:58 | the sorted copy is in key order and holds the same records |
| StorefrontCleanup.Cleanup.Expire | scripts/maintenance/storefront-cleanup.ts:19-57 | the loop restores each candidate in turn and counts those it restored; exactly the pending ones not restored before become canceled and restored; a dry run changes nothing |
| StorefrontTheorems.Serializable | scripts/maintenance/storefront-cleanup.ts:21-56 | any interleaving of workers ends as if the restored orders had been restored one after the other |
| StorefrontTheorems.StockIsConserved | scripts/maintenance/storefront-cleanup.ts:44-53 | a product's stock plus what unrestored orders hold of it never changes |
| StorefrontTheorems.RestoredExactlyOnce | scripts/maintenance/storefront-cleanup.ts:30-43 | each order is restored at most once, from pending to canceled, nothing else changes, and a worker that is through leaves no candidate to restore |
| StorefrontTheorems.CommitIsRestore | scripts/maintenance/storefront-cleanup.ts:21-56 | a commit has the effect of the whole transaction on what is committed by then |
| StorefrontTheorems.StepsInOrder | scripts/maintenance/storefront-cleanup.ts:21-56 | a worker reads, cancels, gives back item by item and commits, and changes what is committed only then |
| StorefrontTheorems.WaitsForHolder | scripts/maintenance/storefront-cleanup.ts:31-53 | a worker waits only for one that holds the same order or product |
| StorefrontLone.LoneWorker | scripts/maintenance/storefront-cleanup.ts:19-57 | with nobody else around, a worker of the interleaved protocol does and counts what the loop does |
| AdminOperation.AdminOperationService.Execute | src/admin-operations/admin-operation.service.ts:16-75 | an invalid key is refused, a recorded key is replayed exactly for its own target and refused for another, and any other call runs the action and records it |
| AdminOperation.PerformedAtMostOnce | src/admin-operations/admin-operation.service.ts:16-75 | per key the effects are committed once if recorded and never otherwise, exactly one call performed them, every success returns the recorded result and names the recorded target |
| AdminOperation.RecordedIsReplayed | src/admin-operations/admin-operation.service.ts:23-75 | whatever others do, a call under the recorded target ends with the recorded result as a replay, unless it fails |
| AdminOperation.RecordedCanEnd | src/admin-operations/admin-operation.service.ts:23-75 | and its own steps lead there from wherever it is |
| AdminOperation.ConflictMeans | src/admin-operations/admin-operation.service.ts:23-75 | a conflict is reported only for another target, or after a clash for a slot not recorded |
| AdminOperation.StepsInOrder | src/admin-operations/admin-operation.service.ts:43-69 | a call looks, acts, inserts and commits in this order, and only the last has an effect |
| AdminOperation.KeyPattern | src/admin-operations/admin-operation.service.ts:20 | which keys are valid |
| AdminOperation.RecordedForGood | src/admin-operations/admin-operation.service.ts:59-63 | what is recorded stays, unchanged |
| AdminOperation.LoneCall | src/admin-operations/admin-operation.service.ts:16-75 | undisturbed, a call of the interleaved protocol does what the method does by itself |

## Left out

- AuditTheorems.AttemptsBounded: a claim is of one row; a batch is a series of claims, so the order and limit of the candidates are not modelled, nor is the timing of the worker's timer and shutdown.
- AuditRecord.RefusedExactlyWhenDifferent: sanitized JSON values and fingerprints are inputs; calls for one operation follow one another, since the unique index makes a later one wait for the earlier.
- PrintQueueSafety.PrintsAreAccountedFor: the backup file is never needed, as the rename is atomic; receipt content, error texts and the length of timers do not matter to it.
- RegistrationTheorems.NeverStuck: a call with other data may recover the intent only in the known safe cases; profiles are those of completed registrations.
- ReceiptWrap.WrapText: text is a sequence of code points; HTML, entities and the code-page table come before and after it.
- RateLimit.AuthRateLimitStore.CleanupExpired: which of several buckets that ended together go is up to the database, and a parameter.
- AgendaLocks.LockKeys: letters outside Latin-1 are not folded.
- AgendaService.AgendaPetService.Create: the columns for names, price, description, notes and authors are not modelled; whether client and pet exist is a parameter.
- AgendaService.AgendaPetService.Update: as for `Create`, and so are the columns about a cancellation.
- AgendaBooking.StepKeeps: client, service, names, price and notes of an appointment, and the membership of a pet in its client, are not modelled; a call refused for them stops, like one that crashes. Bookings live in tables, so their steps change one state value; `AgendaPetService` shows each operation over its own table.
- The local credential, branch, membership, referral and trial rows written with a tenant, and the session after registration.
- Retention and anonymization of storefront orders, and how candidates are selected.
- The operational metrics and alerts of the outbox.
- Login, membership choice, formatting, HTTP, guards, payment, migration runs against the provider, and the browser code.

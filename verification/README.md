# Crash-safe trust, delivery, budget and scheduling: a Dafny model

This project models the stateful core of the command-line client in `packages/cli/src` and proves what its
protocols keep over whole runs. `dafny verify dfyconfig.toml` checks the whole project.

| file | what it models |
|---|---|
| `TransportJournal.dfy` | the write-ahead journal that decides which transport certificate is current |
| `JsonText.dfy`, `TransportLimits.dfy`, `TransportChecks.dfy`, `LongJournal.dfy` | the journal's real texts and their lengths: when it fits its limit, and inputs that pass every check of the program and make it too long |
| `KeyRotation.dfy`, `SigningTrust.dfy` | server key rotation, and the protected anchor that follows it |
| `TrustRecovery.dfy` | replacing expired trust by four confirmed writes, and resuming after a crash |
| `SessionLedger.dfy`, `CooperativeSession.dfy` | the question/answer protocol: one computation, resumable delivery |
| `CohortOrder.dfy`, `StudyLedger.dfy`, `StudyRuns.dfy`, `StudyDecisions.dfy`, `StudyStore.dfy` | the finite learning study: sealed cohort, budget, runs, exactly which calls are granted, and the ledger object |
| `Scheduler.dfy`, `Supervisor.dfy` | the bounded round-robin supervisor whose slots outlive timeouts |
| `SequenceReconciliation.dfy` | a device finding its server's next sequence number again |
| `AdmissionFence.dfy` | the serial queue with quiesce, resume and stop |
| `TreeCheck.dfy`, `TreePaths.dfy` | the explicit-stack tree check and what its verdict means path by path |
| `LineFramer.dfy` | the incremental line parser against a batch split |
| `PollLoop.dfy` | the two-phase deadline poll loop |
| `SourceDebounce.dfy` | the debounce machine for local source changes |
| `SecureStorage.dfy`, `Runs.dfy`, `Outcomes.dfy` | the secret store with its failures, linked runs, results |

How the parts are read:

- Signatures, schemas and text formats are predicates passed as parameters; nothing is assumed of them. For the
  transport journal `TransportChecks` writes them out, so that only Ed25519 and the URL parser stay open. Canonical
  JSON and SHA-256 are injective, so a record stands for its own text or hash.
- The program's checks are functions and predicates in the program's own order. Beside each stands what it is for,
  stated without it, and a lemma that the two agree (`VerifiesMeans`, `StepExactly`, `PlanExactly`, `GrantExactly` and
  others); what the calls promise is stated in those terms.
- Time and everything random are inputs or arbitrary choices. A clock is only assumed to move forward where a
  statement says so.
- A crash is an effect that fails and is followed by no other. Every method's contract therefore holds wherever the
  call stops. A `put` into the secret store removes the old credential before it adds the new one, and may stop
  between the two (packages/secure-store/src/index.ts:143-144).
- A closure or class that updates variables is a class with those fields; a callback or a continuation after an
  `await` is a method of its own, so that any order of calls is an interleaving.

## What the proofs found

Three expectations hold only under a condition. Each condition is stated and proved in both directions, with a
concrete input that fails it.

1. *Restoring the transport journal never refuses a reachable store.* Exactly when the two states in the journal,
   each counted once more for its quotes and backslashes, fit the 140,000 bytes under which the journal is read back
   (`TransportLimits.RecoveryProgressByWeight`). The limit is not checked when the journal is written
   (packages/cli/src/demoTransportState.ts:86 and 177-179). Ordinary states always fit: those in which nothing needs
   escaping, and those without control characters whose timestamps are at most a hundred characters
   (`TransportLimits.OrdinaryAlwaysRestores`, and `TransportChecks.ProgramAlwaysRestores` for whatever the program's
   own checks let through). Two inputs pass all those checks, for any server key and its signatures, and are written
   and never read back: twenty key versions of control characters (`LongJournal.LongJournalIsWritten`), and twenty of
   quotes beside a timestamp with a long fraction, which the date-time format admits
   (`LongJournal.LongTimestampsOverflow`).
2. *A trust recovery can be resumed.* Exactly when the anchor or the journal is still there
   (`TrustRecovery.ResumesUnlessLost`). One crash never loses both. Two can: the first in the anchor's `put`, the
   second in the resumed call, which rewrites the confirmed journal although it is already right
   (`TrustRecovery.RecoveryCanBeLost`; packages/cli/src/demoSigningTrust.ts:256-257). A device that never had a
   protected anchor cannot lose anything (`TrustRecovery.LegacyAlwaysResumes`). A device that lost both gets out with
   a later approval exactly when the new trust can replace the keyset on its disk; if the disk was not behind, exactly
   when the disk's signer is the pinned key (`TrustRecovery.FreshApprovalFinishes`).
3. *The anchor is a write-ahead record* (packages/cli/src/demoSigningTrust.ts:261-262). On a store whose `put` removes
   before it adds, a save cut between the two leaves the disk copy as the only record. A successor acceptable before
   is acceptable after exactly when the disk was not behind, no preload was recorded, and the keyset is still valid
   under the enrolment pin (`SigningTrust.CutSaveResumes`); a recorded preload is refused at concrete keysets
   (`SigningTrust.CutSaveRefusesActivation`), and a disk that was behind answers with its older keyset
   (`SigningTrust.CutSaveAnswersFromDisk`).

A further consequence of the code as it stands: an answer quarantined as expired leaves its offer unsettled for good,
so that binding takes no further offer (`SessionLedger.QuarantineBlocks`).

## Model

| member | source | states |
|---|---|---|
| TransportJournal.RestoredState | packages/cli/src/demoTransportState.ts:122-143 | wherever it stops, what the next restore will yield is unchanged; an answer is that state with the journal gone; a second run changes nothing; a healthy host with a valid head never refuses a restorable store |
| TransportJournal.ResolveDemoTransport | packages/cli/src/demoTransportState.ts:145-159 | ready, original or refresh-required is an answer about the decided state, for the right reason, and a ready certificate was checked after the last write |
| TransportJournal.AcceptDemoTransport | packages/cli/src/demoTransportState.ts:161-184 | nothing is accepted or decided but a certificate that answered this request (its nonce, origin, device, keyset, revision and lifetime) under a valid head, and an answer was checked again after the last write; crash atomicity: afterwards the decided state is exactly the old or exactly the new one; duplicate iff the certificate was current already; accepted on a healthy host unless the journal outgrows its limit |
| TransportJournal.VerifiesMeans | packages/cli/src/demoTransportContinuity.ts:61-83 | a certificate verifies exactly when it answers the request: what each field has to be |
| TransportJournal.ReplacingMainKeeps | packages/cli/src/demoTransportState.ts:138 | removing or rewriting the main account under a durable journal decides nothing new |
| TransportJournal.ClearingJournalKeeps | packages/cli/src/demoTransportState.ts:114-118 | clearing the journal after the main account was written decides nothing new |
| TransportJournal.WritingJournalDecides | packages/cli/src/demoTransportState.ts:177-179 | the journal write alone is the commit point: before it the old state is decided, after it the new one |
| TransportJournal.RunStaysConsistent | packages/cli/src/demoTransportState.ts:122-184 | over any run of calls with crashes anywhere, the two accounts stay consistent and what they decide stays authentic |
| TransportJournal.RunNeverGoesBack | packages/cli/src/demoTransportState.ts:105-113 | over any run an accepted state is never lost, revision and generation never fall, equal revision keeps the origin and equal generation the keyset |
| TransportJournal.RecoveryProgress | packages/cli/src/demoTransportState.ts:85-104 | with clock and generation not behind, a consistent store is restorable if and only if its journal fits the read limit |
| JsonText.EscapedSize | packages/contracts/src/index.ts:291-293 | what a string costs inside a JSON string, in bytes and in the quotes and backslashes a second escaping doubles |
| TransportLimits.StateSized | packages/cli/src/demoTransportState.ts:170-172 | the length of a state's canonical text, field by field |
| TransportLimits.JournalLength | packages/cli/src/demoTransportState.ts:177-178 | a journal's length is a fixed part and both states, each with its escapes counted again |
| TransportLimits.RecoveryProgressByWeight | packages/cli/src/demoTransportState.ts:85-104 | a consistent store is restorable if and only if the weights of the journal's two states are within the limit |
| TransportLimits.OrdinaryJournalFits | packages/cli/src/demoTransportState.ts:86 | the journal of two ordinary states always fits |
| TransportLimits.OrdinaryAlwaysRestores | packages/cli/src/demoTransportState.ts:122-143 | with ordinary states no consistent store refuses a restore |
| TransportLimits.OrdinaryAcceptanceFits | packages/cli/src/demoTransportState.ts:161-184 | an ordinary acceptance never writes a journal it could not read back |
| TransportChecks.VouchedKeepsLimits | packages/cli/src/demoTransportState.ts:55-77 | what the schemas and checks let through keeps to the lengths that ordinary states are held to, timestamps aside |
| TransportChecks.ProgramAlwaysRestores | packages/cli/src/demoTransportState.ts:122-143 | under the program's own checks only control characters and long timestamps can make a restore refuse a consistent store |
| LongJournal.LongJournalIsWritten | packages/cli/src/demoTransportState.ts:86 | for any server key, twenty key versions of control characters: a certificate that must be accepted while it lives, and a journal that is written and never read back |
| LongJournal.LongTimestampsOverflow | packages/cli/src/demoTransportState.ts:86 | the same without any control character, by quotes and a long timestamp |
| LongJournal.OddStateIsWithinLimits | schemas/server-signing-keyset.schema.json:12 | the states of control characters keep to every limit: UUIDs, twenty different versions, a signing key that is the one active key, nonempty windows, and spellings that agree with their instants |
| LongJournal.InstantsAre | packages/contracts/src/index.ts:535-540 | the times of those inputs, read from their spelling, and how far apart they are |
| KeyRotation.StepMeans | packages/cli/src/demoSigningTrust.ts:273-306 | every accepted successor preloads exactly one overlap key or activates exactly the recorded one, and touches no other key |
| KeyRotation.PreloadMeans | packages/cli/src/demoSigningTrust.ts:288-296 | a preload adds one key and keeps every other as it was |
| KeyRotation.ActivationMeans | packages/cli/src/demoSigningTrust.ts:297-306 | an activation swaps the roles of two keys and keeps every other as it was |
| KeyRotation.StepExactly | packages/cli/src/demoSigningTrust.ts:273-306 | a step is accepted if and only if it is a signed successor that either adds one overlap key, usable now and for ten minutes, or swaps the recorded preload with the active key; stated on the map of keys |
| KeyRotation.KeysetValidMeans | packages/cli/src/demoSigningTrust.ts:70-82 | a keyset is valid exactly when its one active key signed it, under the pin, with every window and lifetime in order |
| KeyRotation.UpdateMeans | packages/contracts/src/index.ts:580-607 | with windows retained, an update verifies exactly when a usable key of the current keyset signed it and stays usable for ten minutes |
| KeyRotation.HistoryIsRotation | packages/cli/src/demoSigningTrust.ts:263-311 | any accepted history, over any calls and times, is a rotation with exactly one active key in every head |
| KeyRotation.RotationShape | packages/cli/src/demoSigningTrust.ts:263-311 | after k steps: generation up by k, n0 + ceil(k/2) keys, a preload recorded if and only if k is odd |
| KeyRotation.ActivatedKeysWereJustPreloaded | packages/cli/src/demoSigningTrust.ts:285-305 | a key that becomes active was introduced as overlap in the generation just before |
| KeyRotation.KeysNeverChange | packages/cli/src/demoSigningTrust.ts:280-284 | no key is dropped and none changes its public key or window along a history |
| KeyRotation.ChainsCompose | packages/cli/src/demoSigningTrust.ts:270-308 | checking c1 then c2 at one time is checking c1 followed by c2, errors included |
| KeyRotation.ChainPasses | packages/cli/src/demoSigningTrust.ts:270-308 | a successful chain is a linked history; duplicates add nothing to it |
| KeyRotation.ChainShape | packages/cli/src/demoSigningTrust.ts:263-311 | the shape of one accepted chain by the generations it gained |
| KeyRotation.AdvancesAreAccepted | packages/cli/src/demoSigningTrust.ts:270-308 | any row of heads that each advance the one before is accepted as one chain, up to the last |
| KeyRotation.AcceptedAdvances | packages/cli/src/demoSigningTrust.ts:270-308 | every accepted chain is such a row of heads |
| KeyRotation.ChainGrowsKeys | packages/cli/src/demoSigningTrust.ts:280-296 | keys that an accepted chain adds are usable now and for ten minutes, and the others keep their windows |
| SigningTrust.BoundAnchor | packages/cli/src/demoSigningTrust.ts:125-145 | an anchor is used directly, or across an interrupted pin replacement only through the confirmed journal and archive |
| SigningTrust.ResolveDemoSigningTrust | packages/cli/src/demoSigningTrust.ts:147-167 | a present anchor is only read; a missing one is written only for a valid pinned bootstrap |
| SigningTrust.AcceptDemoSigningKeysets | packages/cli/src/demoSigningTrust.ts:263-311 | what is answered is reached from the resolved anchor by signed steps, its new keys usable now and for ten minutes; all or nothing: a failing chain leaves the store as resolving left it, migrated or not, an accepted one leaves its end; from a present or a missing anchor, at most one put is cut |
| SigningTrust.BindExactly | packages/cli/src/demoSigningTrust.ts:125-145 | exactly which anchors a configuration is bound to: its own, or one across a confirmed pin replacement, and with what result |
| SigningTrust.ResolveExactly | packages/cli/src/demoSigningTrust.ts:147-167 | exactly when resolving succeeds, and what it answers and leaves |
| SigningTrust.AcceptedIsReached | packages/cli/src/demoSigningTrust.ts:263-311 | an accepted chain ends in a keyset reached by signed steps from the resolved head |
| SigningTrust.ReachedIsAccepted | packages/cli/src/demoSigningTrust.ts:263-311 | and any such row of up to twenty steps is accepted and left anchored |
| SigningTrust.ChainStaysUsable | packages/cli/src/demoSigningTrust.ts:263-311 | a chain ends in a head that resolving accepts, and keeps the generation only if it moves nothing |
| SigningTrust.AcceptAnchorsTheEnd | packages/cli/src/demoSigningTrust.ts:307-310 | an accepted chain leaves exactly its last head anchored |
| SigningTrust.UsableAnchorResolves | packages/cli/src/demoSigningTrust.ts:107-112 | a disk head behind a usable anchor always resolves to the anchor's head |
| SigningTrust.RestartRepairsDisk | packages/cli/src/demoSigningTrust.ts:261-262 | after an accepted chain a restart with the old disk configuration resolves to the chain's end |
| SigningTrust.AcceptsCompose | packages/cli/src/demoSigningTrust.ts:263-311 | accepting two chains in turn and accepting both at once agree in outcome and store, up to 20 keysets |
| SigningTrust.PreloadDecidesTheStep | packages/cli/src/demoSigningTrust.ts:288-304 | a head with a recorded preload and the same head without it accept no candidate in common |
| SigningTrust.CutSaveAnswersFromDisk | packages/cli/src/demoSigningTrust.ts:84-89 | after a save cut past the removal, resolving answers the disk's keyset exactly when it is valid under the pin; generations the disk had not seen are lost |
| SigningTrust.CutSaveRestartsTheChain | packages/cli/src/demoSigningTrust.ts:154-160 | what a chain does after the cut: it starts over from the disk's keyset with no preload |
| SigningTrust.CutSaveResumes | packages/cli/src/demoSigningTrust.ts:84-89 | an acceptable successor stays acceptable after the cut if and only if the disk was not behind, no preload was recorded, and the keyset is valid under the pin |
| SigningTrust.CutSaveRefusesActivation | packages/cli/src/demoSigningTrust.ts:297-304 | two keysets at which an accepted activation is refused after the cut |
| TrustRecovery.WriteRecovery | packages/cli/src/demoSigningTrust.ts:250-258 | four confirmed writes in order; stopped anywhere, exactly one put is cut |
| TrustRecovery.RecoverDemoSigningEnrollment | packages/cli/src/demoSigningTrust.ts:171-259 | nothing is written or answered but under a good approval, with trust valid under its own pin that follows a head expired before the approval; success leaves the replacement anchor, the archive, the approval and the journal; a healthy host succeeds exactly on what the checks admit |
| TrustRecovery.PlanExactly | packages/cli/src/demoSigningTrust.ts:171-249 | a recovery is planned if and only if the approval is good, the journal readable, and what there is to replace can be replaced by the new trust |
| TrustRecovery.ResumedExactly | packages/cli/src/demoSigningTrust.ts:189-214 | exactly what an earlier journal lets a device without its anchor take up |
| TrustRecovery.ReplacementMeans | packages/cli/src/demoSigningTrust.ts:217-231 | exactly which trust may replace which head |
| TrustRecovery.PlanIsTrusted | packages/cli/src/demoSigningTrust.ts:220-237 | any plan installs trust that is valid under its own pin, of a later generation, after the expiry of what it archives |
| TrustRecovery.AttemptsMovePhases | packages/cli/src/demoSigningTrust.ts:182-258 | which phase an attempt stopped anywhere can leave, by the phase it found; only from an interrupted replacement can it lose the journal |
| TrustRecovery.RunsStayInPhase | packages/cli/src/demoSigningTrust.ts:182-258 | any number of stopped attempts stay in the four phases, and a loss needs an earlier interruption |
| TrustRecovery.ResumesUnlessLost | packages/cli/src/demoSigningTrust.ts:189-214 | with approval and trust still good, repeating the recovery finishes it if and only if the anchor or the journal is present |
| TrustRecovery.StartingCanBeInterrupted | packages/cli/src/demoSigningTrust.ts:257 | an eligible first attempt can be stopped with the old anchor gone and the journal in place |
| TrustRecovery.ResumingCanLose | packages/cli/src/demoSigningTrust.ts:256 | an eligible resumed attempt can be stopped with neither left |
| TrustRecovery.RecoveryCanBeLost | packages/cli/src/demoSigningTrust.ts:189-257 | a concrete device, two stopped attempts, and the same approval refused |
| TrustRecovery.RenewedApprovalFinishes | packages/cli/src/demoSigningTrust.ts:191-212 | a later approval of the same recipient takes over an interrupted recovery whose approval ran out, and ends in its own replacement |
| TrustRecovery.LegacyAlwaysResumes | packages/cli/src/demoSigningTrust.ts:232-237 | a device without a protected anchor can be resumed from every crash, to the planned end |
| TrustRecovery.LegacyStaysOpen | packages/cli/src/demoSigningTrust.ts:243-258 | its attempts, stopped anywhere, leave it resumable or finished |
| TrustRecovery.LostIsRefused | packages/cli/src/demoSigningTrust.ts:238-249 | once both are lost the same approval is refused |
| TrustRecovery.FreshApprovalFinishes | packages/cli/src/demoSigningTrust.ts:217-258 | once both are lost, a later approval and trust finish if and only if they can replace the disk's own keyset, and the end is a legacy recovery's |
| TrustRecovery.DoneIsRefused | packages/cli/src/demoSigningTrust.ts:238-249 | a finished recovery is not run again |
| TrustRecovery.DoneResolves | packages/cli/src/demoSigningTrust.ts:131-144 | with the new anchor in place, the old disk configuration resolves to exactly the replacement |
| TrustRecovery.DoneResolvesWhileAlive | packages/cli/src/demoSigningTrust.ts:131-144 | and does so until the new keyset expires |
| SessionLedger.GrantsSpendClaims | packages/cli/src/cooperativeInboxSession.ts:173-193 | each grant spends a claim of its own and there is one claim, so a question is handed out at most once |
| SessionLedger.RepliesAgree | packages/cli/src/cooperativeInboxSession.ts:200-246 | every answer on the wire was staged first, and all answers to a question are equal |
| SessionLedger.PendingUntilSettled | packages/cli/src/providerSessionReplyRecovery.ts:96-122 | a staged answer is pending exactly until acknowledged on a receipt for that answer or quarantined on an observed expiry, never both |
| SessionLedger.QuarantineBlocks | packages/local-vault/src/index.ts:826-830 | a quarantined answer's offer stays unsettled and keeps every later offer out |
| SessionLedger.ReplyKeeps | packages/local-vault/src/index.ts:994-1019 | staging a first answer keeps tables and history valid |
| SessionLedger.AcknowledgmentKeeps | packages/local-vault/src/index.ts:1090-1103 | acknowledging and settling together keeps tables and history valid |
| CooperativeSession.World.Consume | packages/cli/src/cooperativeInboxSession.ts:173 | the durable replay claim answers true at most once for a question |
| CooperativeSession.World.StageCheckpoint | packages/local-vault/src/index.ts:807-834 | an offer is checkpointed exactly while it is on record unchanged and unsettled, or every other offer is settled |
| CooperativeSession.World.StageReply | packages/local-vault/src/index.ts:994-1019 | the first staged answer stays; a different one is a conflict |
| CooperativeSession.World.AcknowledgeOffer | packages/local-vault/src/index.ts:1090-1103 | reply acknowledged and offer settled, both or neither, only after a receipt |
| CooperativeSession.Reconcile | packages/cli/src/providerSessionReplyRecovery.ts:23-125 | takes up only an answer staged in time, asks about it, sends it if it is still awaited and can still help, and settles it by what was seen last: reconciled on a matching answer, quarantined on expiry, else still pending; hands nothing out; on a healthy world it never refuses an answer staged in time |
| CooperativeSession.SendAndObserve | packages/cli/src/providerSessionReplyRecovery.ts:73-81 | the exchange with the server, effect by effect: a read; and while that shows the answer awaited and in time, the answer, its receipt and a second read; cut short, a first part of it |
| CooperativeSession.Settle | packages/cli/src/providerSessionReplyRecovery.ts:73-125 | success on a healthy world means the exchange ran to its end and its last observation was acted on |
| CooperativeSession.Dispose | packages/cli/src/providerSessionReplyRecovery.ts:96-124 | which observation settles, quarantines or keeps an answer |
| CooperativeSession.Session.Complete | packages/cli/src/cooperativeInboxSession.ts:200-246 | an acceptable answer is staged as the one to this offer and attempt before it is sent, and delivered means acknowledged on its receipt; on a healthy world the answer to an open offer is delivered |
| CooperativeSession.Session.SubmitHeld | packages/cli/src/cooperativeInboxSession.ts:114-131 | only the answer to this session's own open hand-off is taken, and it is the one staged; any other changes nothing; on a healthy world it is delivered |
| CooperativeSession.Session.Admit | packages/cli/src/cooperativeInboxSession.ts:147-175 | a true answer means authorize, reserve, checkpoint, accept and a fresh claim are on record in this order and nothing else, each right after ownership was checked |
| CooperativeSession.Session.Take | packages/cli/src/cooperativeInboxSession.ts:147-193 | a hand-off is of the admitted offer and was never granted before; on a healthy world a new offer is handed off or answered unless content or budget denies it |
| CooperativeSession.Session.Drive | packages/cli/src/cooperativeInboxSession.ts:100-199 | one call hands out at most one question, and none while an answer or an offer is unfinished; a failed call stops the session; on a healthy world a waiting answer is settled first, then an unsettled offer reported, then the inbox served |
| CooperativeSession.RunKeeps | packages/cli/src/cooperativeInboxSession.ts:100-246 | calls that keep a valid record valid keep it valid over any run, and nothing durable is undone |
| CooperativeSession.AnsweredAtMostOnce | packages/cli/src/cooperativeInboxSession.ts:100-246 | over any calls, crashes and restarts: handed out at most once and only in order, only staged answers sent, and what is staged never changes |
| CohortOrder.CohortIgnoresArrival | packages/cli/src/finiteLearningStudy.ts:98-103 | the ordered cohort depends on the records alone, not on their arrival |
| CohortOrder.OrderIsUnique | packages/cli/src/finiteLearningStudy.ts:100 | records ordered by id are determined by which records they are |
| StudyLedger.RecordKeeps | packages/cli/src/finiteLearningStudy.ts:112-145 | recording keeps the ledger invariant |
| StudyLedger.ReserveKeeps | packages/cli/src/finiteLearningStudy.ts:147-172 | reserving keeps the ledger invariant |
| StudyLedger.SettleKeeps | packages/cli/src/finiteLearningStudy.ts:174-194 | settling keeps the ledger invariant |
| StudyLedger.GuardKeeps | packages/cli/src/finiteLearningStudy.ts:82-94 | a guard that lets a call through leaves a live study and moves only its clock |
| StudyRuns.ReachableStates | packages/cli/src/finiteLearningStudy.ts:82-97 | what collecting, ready and complete mean in every state any run can reach |
| StudyRuns.OverIsOver | packages/cli/src/finiteLearningStudy.ts:88-92 | a study that left collecting and ready never returns and grants nothing again |
| StudyRuns.GrantMeans | packages/cli/src/finiteLearningStudy.ts:158-170 | a grant is made in time, of an unused key and phase under the next fence, alone in flight, with liability within the cap |
| StudyRuns.GrantsDiffer | packages/cli/src/finiteLearningStudy.ts:154-170 | any two grants of a run have different keys, different phases and rising fences |
| StudyRuns.SealingIgnoresOrder | packages/cli/src/finiteLearningStudy.ts:122-143 | two runs that sealed the same records in any order with any repeats seal the same window hash |
| StudyDecisions.GuardMeans | packages/cli/src/finiteLearningStudy.ts:82-94 | exactly when a call passes the clock and the state, and that any other ends the study or finds it over |
| StudyDecisions.GrantExactly | packages/cli/src/finiteLearningStudy.ts:147-172 | a reservation is granted if and only if it is valid, the study live and in time, and every limit has room; its row is all it adds |
| StudyDecisions.ReplayExactly | packages/cli/src/finiteLearningStudy.ts:153-156 | a key seen before is answered from its row and never granted again |
| StudyDecisions.RefusalChangesNothing | packages/cli/src/finiteLearningStudy.ts:157-168 | a refused reservation changes nothing but the clock unless the study is over |
| StudyDecisions.RecordExactly | packages/cli/src/finiteLearningStudy.ts:120-144 | what becomes of each record that is looked at |
| StudyDecisions.RecordRefused | packages/cli/src/finiteLearningStudy.ts:112-121 | a record that is invalid or untimely is not taken |
| StudyDecisions.SettleExactly | packages/cli/src/finiteLearningStudy.ts:174-194 | what a settlement makes of its row and of the study: going on, complete or blocked |
| StudyDecisions.SettlementRefused | packages/cli/src/finiteLearningStudy.ts:174-181 | a settlement that names no row under its fence changes nothing |
| StudyDecisions.OutOfTimeIsOver | packages/cli/src/finiteLearningStudy.ts:82-94 | a clock that fails, goes back or reaches the expiry ends the study, and nothing is granted from then on |
| Scheduler.PassingOverComesCloser | packages/cli/src/demoSupervisor.ts:144-153 | a scan that passes over a due registration comes closer to it by at least its launches, and only with all slots taken |
| Scheduler.WaitingIsBounded | packages/cli/src/demoSupervisor.ts:142-153 | with an unchanged list of n, a due registration waits for at most n-1 launches of others |
| Scheduler.PollIsRecorded | packages/cli/src/demoSupervisor.ts:135-153 | pruning and scanning again on a repeated list continues the history of scans, because nothing listed is pruned |
| Supervisor.Supervisor.DueWaits | packages/cli/src/demoSupervisor.ts:111-153 | the same bound for the supervisor's own polls, whatever callbacks come between them |
| Supervisor.LaunchKeeps | packages/cli/src/demoSupervisor.ts:148-149 | launches of a continuously listed key are at least an interval apart |
| Supervisor.ListingKeeps | packages/cli/src/demoSupervisor.ts:135-137 | forgetting the waiting times of unlisted keys keeps that spacing for the listed ones |
| Supervisor.ReportKeeps | packages/cli/src/demoSupervisor.ts:73-80 | an undecided flight's report is its first, and is counted once |
| Supervisor.Supervisor.Finish | packages/cli/src/demoSupervisor.ts:73-80 | a flight is decided once, with one observation and one count |
| Supervisor.Supervisor.OnResult | packages/cli/src/demoSupervisor.ts:90-105 | a result counts only if nothing decided the flight before, and frees no slot |
| Supervisor.Supervisor.OnTimeout | packages/cli/src/demoSupervisor.ts:82-86 | a timeout reports one failure and keeps the slot |
| Supervisor.Supervisor.OnSettled | packages/cli/src/demoSupervisor.ts:106 | only the operation's own end gives its slot back |
| Supervisor.Supervisor.Scan | packages/cli/src/demoSupervisor.ts:142-153 | the launches are the due registrations in cyclic order until the slots are full, the cursor just past the last |
| Supervisor.Supervisor.Refresh | packages/cli/src/demoSupervisor.ts:135-141 | exactly the flights whose registration is gone or changed are told to stop |
| Supervisor.Supervisor.Poll | packages/cli/src/demoSupervisor.ts:111-153 | one turn keeps the slot limit, the spacing and the counts, adds its scan to the history of polls, reports a list it cannot take, tells exactly the flights gone or changed to stop, and fails only and always on a bad clock |
| SequenceReconciliation.Device.Request | packages/cli/src/demoEnrollment.ts:292-297 | the request is on disk before it is sent, and the server moves only for its own next number |
| SequenceReconciliation.Device.FirstRequest | packages/cli/src/demoEnrollment.ts:257-291 | the pending request again while it is fresh and of this generation, else one signed anew for the same number, or the next |
| SequenceReconciliation.Device.TryNeighbours | packages/cli/src/demoEnrollment.ts:305-320 | the neighbours of a refused number are tried, the lower one first, within what is committed; failing leaves the number one higher |
| SequenceReconciliation.Device.Verify | packages/cli/src/demoEnrollment.ts:236-333 | with losses and crashes anywhere the number to try never passes the server; success means both agree; undisturbed, each failing call that searches lowers the lag by exactly one, and one that may not search, for lack of a receipt, leaves its number pending |
| SequenceReconciliation.Device.Commit | packages/cli/src/demoEnrollment.ts:326-333 | the number is saved before anything that may still fail |
| SequenceReconciliation.Device.VerifyUntilDone | packages/cli/src/demoEnrollment.ts:278-320 | undisturbed, it takes exactly as many calls as the lag, at least one, and one more when the receipt was lost |
| AdmissionFence.AppendKeeps | packages/cli/src/namedSessionAdmission.ts:59-89 | between a quiesce and a later start there is a resume under the same fence |
| AdmissionFence.Admission.Enqueue | packages/cli/src/namedSessionAdmission.ts:34-50 | admitted if and only if open, unfenced and under eight pending |
| AdmissionFence.Admission.Reach | packages/cli/src/namedSessionAdmission.ts:39-42 | operations begin in order, one at a time, and not on a stopped service |
| AdmissionFence.Admission.Finish | packages/cli/src/namedSessionAdmission.ts:43-45 | the count falls when the operation ends, before it settles |
| AdmissionFence.Admission.QuiesceBegin | packages/cli/src/namedSessionAdmission.ts:59-63 | the fence is up before anything is awaited |
| AdmissionFence.Admission.QuiesceContinue | packages/cli/src/namedSessionAdmission.ts:64-68 | drained means fenced with nothing queued and nothing running |
| AdmissionFence.Admission.QuiescePersisted | packages/cli/src/namedSessionAdmission.ts:69-72 | a failed persist leaves the service drained and fenced |
| AdmissionFence.Admission.ResumeBegin | packages/cli/src/namedSessionAdmission.ts:75-83 | only the fence's owner, in this generation, of a drained service, with no other transition under way |
| AdmissionFence.Admission.ResumePersisted | packages/cli/src/namedSessionAdmission.ts:84-88 | the fence is lifted only once the resume is durable |
| AdmissionFence.Admission.StopVerified | packages/cli/src/namedSessionAdmission.ts:91-98 | stopping keeps the fence |
| AdmissionFence.Admission.Stop | packages/cli/src/namedSessionAdmission.ts:100-103 | a fenced service cannot be stopped outright |
| TreeCheck.Walk | packages/cli/src/assignedCapture.ts:112-149 | the stack walk ends and accepts if and only if the whole unfolding is allowed, repeats no object and fits the limits |
| TreeCheck.CheckHead | packages/cli/src/assignedCapture.ts:123-133 | the early key-count refusal hits only what the full walk would refuse |
| TreeCheck.PushFields | packages/cli/src/assignedCapture.ts:135-143 | pushed fields come back last first, each exactly once |
| TreePaths.AcceptsExactlyTrees | packages/cli/src/assignedCapture.ts:112-149 | accepted if and only if every object is reached by exactly one path, everything reached is allowed and within the depth, and there are no more paths than the limit |
| TreePaths.PathIsMet | packages/cli/src/assignedCapture.ts:135-143 | every path of an accepted graph is walked |
| TreePaths.VisitIsPath | packages/cli/src/assignedCapture.ts:135-143 | whatever is walked lies at the end of its path |
| TreePaths.VisitsArePaths | packages/cli/src/assignedCapture.ts:120 | the walk never meets more values than there are paths |
| LineFramer.Frames | packages/cli/src/deviceSigningMaintenanceController.ts:36-57 | whatever the chunks, messages and outcome are those of the whole stream up to the first chunk that is too large; what is carried is the unfinished line, at most 512 bytes |
| LineFramer.TakeLines | packages/cli/src/deviceSigningMaintenanceController.ts:41-53 | taking the complete lines of a buffer leaves the batch result unchanged |
| LineFramer.LineComesFirst | packages/cli/src/deviceSigningMaintenanceController.ts:42-45 | a complete line is judged alike whatever follows it |
| LineFramer.TooLongEndsBadly | packages/cli/src/deviceSigningMaintenanceController.ts:54 | refusing an overlong remainder early never refuses a stream that could still be accepted |
| PollLoop.Await | packages/cli/src/codexSetupSessionHandoff.ts:71-173 | the answer is that of a row of polls, each judged on its own, each but the last waiting as long as it should and to before its deadline; it ends on a verdict, at the expiry or with nothing left to wait for; success lies within issue, acceptance, recording and both deadlines; polls per phase are bounded |
| PollLoop.Judge | packages/cli/src/codexSetupSessionHandoff.ts:98-142 | exactly what each observation means; acceptance is fixed once seen, and the second deadline runs from it, not from the poll |
| PollLoop.BudgetIsBounded | packages/cli/src/codexSetupSessionHandoff.ts:146-152 | one poll a second and at most seven for the rest |
| SourceDebounce.StableStoodStill | packages/cli/src/demoSourceBaseline.ts:107-150 | stable means the same source was seen long enough ago and ever since, remote changes aside |
| SourceDebounce.StandingStillGetsStable | packages/cli/src/demoSourceBaseline.ts:143-149 | a source that stands still is debouncing until the time has passed and stable from then on |
| SourceDebounce.ObserveMeans | packages/cli/src/demoSourceBaseline.ts:122-149 | what each observation says of a baseline and makes of it |
| StudyStore.Ledger.Guard | packages/cli/src/finiteLearningStudy.ts:82-94 | passes exactly a live study in time; the object updated in place leaves the tables and denial of `StudyLedger.Guarded` |
| StudyStore.Ledger.RecordCompleted | packages/cli/src/finiteLearningStudy.ts:112-145 | the object updated in place leaves the tables and decision of `StudyLedger.Recorded`, invariant kept |
| StudyStore.Ledger.Reserve | packages/cli/src/finiteLearningStudy.ts:147-172 | may be executed exactly when valid, in time and within every limit, and then is on record; the object updated in place leaves the tables and decision of `StudyLedger.Reserving`, invariant kept |
| StudyStore.Ledger.Settle | packages/cli/src/finiteLearningStudy.ts:174-194 | the object updated in place leaves the tables and decision of `StudyLedger.Settling`, invariant kept |
| StudyStore.Ledger.Stop | packages/cli/src/finiteLearningStudy.ts:195-198 | the object updated in place leaves the tables and decision of `StudyLedger.Stopping`, invariant kept |

## Left out

- Files, sockets, links, modes, processes, platform secret stores and services: operating-system behaviour.
- Cryptography, redaction and URL parsing: parameters or arbitrary checks here; so are base64url and JSON schemas outside `TransportChecks`.
- TransportChecks.Instant: times in UTC written with `T` and `Z`; other spellings the program reads count as no time, so the checks here let through a little less.
- Lone surrogates in text: a string here is a sequence of Unicode scalar values, so the escape JSON gives them does not occur.
- Text that is not in canonical form: taken as unreadable where the program parses it.
- Relay gateway, presence, SDKs, onboarding, autostart and diagnostics: thin or plain plumbing.
- `NamedSessionBudget`: a weaker form of the study ledger's cap.
- The trust recovery's reads before its first write: taken as one read, under the caller's device lock.
- Trust recovery started while the disk configuration has an older pin than the anchor.
- Leases, heartbeats, `close`, `retire` and the release of a cooperative session: a session here may lose its owner at any step.
- Replies of bridge-owned bindings: acknowledged without an offer to settle; a cooperative reply always has one.
- CooperativeSession.World.Read: what the server answers is arbitrary; the server's own state is not modelled.
- SequenceReconciliation.Device.FirstRequest: a pending file the device did not write is not modelled, nor is a swallowed failure to delete it.
- Supervisor.Supervisor.Poll: the `once` mode, the waits between polls and the text of observations are not modelled.
- Supervisor.Supervisor.OnResult: an operation's result and the return of its slot are two events here, however close they are.
- StudyStore.Ledger.RecordCompleted: a second clock reading that is not a safe integer is taken as not a number.
- PollLoop.Judge: a missing timestamp and one that cannot be are told by two reasons in the program and by one here.
- PollLoop.Await: the abort signal, the acknowledgment map and the withdrawal afterwards are not modelled; the clock never goes back.
- LineFramer.Frames: the abort signal and iterator clean-up are not modelled.
- SourceDebounce.Observe: malformed fingerprints and foreign baselines are refused before anything happens.

# Walrus Memory: verified models of its protocols

This project models the parts of Walrus Memory whose correctness is hard to see by reading the code, and proves what they
promise for every input, every run and every reachable state.

**Journaled payout (`scripts/distribute-funds.ts`).** The script signs one transaction that funds a list of wallets, makes it
durable, reconciles its digest with the chain, submits it, records the outcome and can be resumed from its journal.
`JournalDisk.dfy` models a file system with volatile and durable layers and proves the journal write crash-atomic.
`FundingProtocol.dfy` is a state machine of any number of concurrent runs, the signing key, a chain that executes a digest at
most once and RPC nodes that may say nothing, fail, or lose replies; crashes may come between any two steps.
`FundingProgram.dfy` gives the transaction commands a linear semantics (a coin or balance is consumed once),
`FundingValidator.dfy` is the check of signed bytes, and `FundingTheorems.dfy` and `FundingFixture.dfy` prove it sound and
complete against that semantics. `FundingJournal.dfy` models the journal and the live-writer snapshot as JSON values and proves
that what is written can be read back; `FundingRollout.dfy` shows that every rollout has a snapshot that is accepted.
`FundingOutcome.dfy` puts protocol, check and semantics together, `FundingRefinement.dfy` relates the protocol's disk, journal
and snapshot to the file system and the documents, and `FundingProgress.dfy` shows that runs get done what they are for.
`FundingCommands.dfy` and `DocumentAcceptance.dfy` say exactly which programs, snapshots and journals are accepted.

**stdio to SSE bridge (`packages/mcp/src/bridge.ts`).** `Bridge.dfy` holds the variables and what each stretch of code between
two awaits does to them, `BridgeProtocol.dfy` the interleaving of client lines, logins, deliveries and the reconnect body,
`BridgeSafety.dfy` the invariant of every run, `BridgeTheorems.dfy` its consequences, and `BridgeReplay.dfy` what a reconnect
replays and that nothing is waited for in vain. `SseStream.dfy` is the event-stream reader
with its queue and single wake slot; `SseReference.dfy` reads section 9.2.6 of the WHATWG HTML standard frame by frame, and
`SseConformance.dfy` says exactly when the two agree.

**Signing in (`packages/mcp/src/auth-required.ts`, `packages/mcp/src/login.ts`).** `AuthServer.dfy` models line framing over
arbitrary chunks and the handoff of unread lines to the bridge; `LoginListener.dfy` the preflight and callback state machine.

**Finalizing the migration (`scripts/build-finalize-tx.ts`).** `CompletionEvidence.dfy` models the evidence validator, the Seal
committee and the registry check, `EvidenceAcceptance.dfy` exactly what they accept; `Finalization.dfy` states what they say
together.

**Two algorithms.** `RateLimiter.dfy` is the two-key fixed-window limiter of `apps/researcher/lib/ratelimit.ts`;
`MemoryTags.dfy`, `MemorySeams.dfy` and `MemoryCapture.dfy` the escape, wrap, strip and capture functions of
`packages/openclaw-memory-memwal/src/format.ts`.

`Text.dfy` and `Hex.dfy` hold the JavaScript string and buffer operations the components share. Strings are sequences of
UTF-16 code units. Functions of the Sui SDK, hashing, signature checks, `Date.parse` and `JSON.parse` are parameters (fields of
`Platform`, `Setting`, `Env`, or function arguments); a theorem that needs a law of theirs requires it (`Lawful`, `LawfulEnv`).

## Results that a reader of the code might not expect

- The transaction check accepts `MergeCoins` and `SplitCoins` unconditionally. `FundingPrograms.AcceptedCanOverpay` builds, for
  every amount, an accepted program that overpays by it; `FundingSoundness.ExactIffNoDrift` says exactly when the payout is
  right, `FundingSoundness.Undisturbed` is a condition on the program text under which it always is, and `ExactIffUnsplit` reads
  the exact condition off the text of every program that merges nothing into payment coins.
- A request parked while the account changes is answered with the account-changed error and then still posted to the new
  account (`BridgeTheorems.ParkedRequestCrossesAccounts`); its sender was answered first (`LatePostWasAnswered`), and a request
  posted at once, or still in flight when it is posted, stays within its account. Replay never crosses.
- A partial line in the auth-required server's buffer is lost at handoff: `AuthServer.HandoffConservesIff` gives the exact
  condition on the chunk that triggers it.
- Stripping memory tags twice may strip more than once (`MemwalTags.MemwalIsNotIdempotent`); `MemorySeams.StripSettlesIff` says
  for which texts.
- A login that reported a timeout can still save credentials (`LoginListener.SaveAfterReportedFailure`), exactly as long as a
  verified preflight is waiting (`NothingMoreSavedIff`).
- The limiter's bound of twice the limit per minute is sharp (`RateLimiter.BoundIsReached`).
- A supplied journal's status is persisted as it is, so a journal edited to say that it succeeded stays on record although nothing
  executed (`FundingProtocol.EditedStatusIsKept`); `StatusesAgreeIff` gives the exact condition on what is supplied.
- After failed handshakes an adoption of credentials may have no way of its own to return on the current session
  (`BridgeTheorems.FailedAdoptionDisagrees` is such a run). `AdoptionCanReturnIff` says for every reachable state whether its own
  steps can still lead there, and `AdoptionCanBeHelped` that, while stdin is open, those of other tasks always can.
- The bridge's reading of an event stream differs from the standard's; `SseConformance.ReaderConformsIff` and `EndpointConformsIff`
  say on which streams it does not.

## Model

| member | source | states |
|---|---|---|
| `JournalDisk.WriteJournalAtomic` | scripts/distribute-funds.ts:846-873 | whichever system call fails and whenever a crash comes, the path holds what it could have held before or the complete new contents; after a normal return only the new contents can be recovered; it returns normally exactly if no call it needs failed |
| `JournalDisk.StageTemporary` | scripts/distribute-funds.ts:847-859 | up to the flush of the temporary file no crash can change what is recovered at the path |
| `JournalDisk.StagedIsInvisible` | scripts/distribute-funds.ts:851-859 | a file that exists only under its temporary name is invisible at the path after any crash |
| `JournalDisk.RenamedIsOldOrNew` | scripts/distribute-funds.ts:862-863 | after the rename of a flushed file a crash leaves the old or the complete new contents |
| `JournalDisk.SettledAfterSync` | scripts/distribute-funds.ts:864-869 | after the directory flush the new contents are the only ones that can be recovered |
| `FundingProtocol.FundingRun.RecordObserved` | scripts/distribute-funds.ts:1005-1035 | only a definite answer about the journal's own digest is recorded, as the terminal status it says, with bytes, signature and digest untouched; any other answer stops the run with disk and journal as they were |
| `FundingProtocol.FundingRun.LookupAnswered` | scripts/distribute-funds.ts:1047-1083 | the run submits if and only if the answer is an explicit NOT_FOUND, the journal is prepared and the snapshot is fresh and matching; then disk and journal are unchanged; otherwise it records a found transaction or stops |
| `FundingProtocol.FundingRun.SubmissionAnswered` | scripts/distribute-funds.ts:1085-1115 | a submission is never repeated: its outcome is recorded or the run stops with its journal on disk as it was |
| `FundingProtocol.FundingRun.WriteReturned` | scripts/distribute-funds.ts:1335-1347 | after the write the new journal alone is on disk; the run goes on to the lookup exactly if the write was not terminal and the run not prepare-only |
| `FundingProtocol.FundingRun.ReconcileAndExecute` | scripts/distribute-funds.ts:1037-1116 | whatever the answers, and whether or not the write of the outcome throws: it submits exactly under those conditions; every journal that can be recovered afterwards is of the same transaction, the old one or what a definite answer about its digest said, and after a write that returned only the latter |
| `FundingProtocol.Safe` | scripts/distribute-funds.ts:1037-1116 | the protocol invariant (chain, journals on disk, log, every run) holds after every interleaving of runs, crashes, answers and executions |
| `FundingProtocol.ExactlyOnce` | scripts/distribute-funds.ts:1037-1116 | no transaction executes twice, only checked and signed transactions execute, and no more than fresh runs signed |
| `FundingProtocol.OnePreparation` | scripts/distribute-funds.ts:1193-1347 | with one fresh preparation and any resumes from any journals, the ledger holds nothing or exactly one accepted transaction |
| `FundingProgress.SignDecides` | scripts/distribute-funds.ts:1303-1312 | signing goes ahead exactly with a snapshot of the manifest's writers that is at most 15 minutes old and at most one minute ahead, and leads to a journal exactly for bytes that pass the check; otherwise the run stops with nothing submitted |
| `FundingProgress.StartDecides` | scripts/distribute-funds.ts:1163-1166 | a fresh or resumed run goes ahead exactly with such a snapshot; nothing is signed, logged or submitted by starting |
| `FundingProgress.FreshRunSubmits` | scripts/distribute-funds.ts:1037-1089 | a fresh run that is not prepare-only and signs bytes that pass the check ends with the submission of exactly these bytes, signature and digest, its journal alone on disk, whatever others do between its steps, if its snapshot is current when it starts, signs and hears NOT_FOUND |
| `FundingProgress.PrepareOnlyFinishes` | scripts/distribute-funds.ts:1335-1347 | a prepare-only run ends once its journal is durable |
| `FundingProgress.ResumedRunSubmits` | scripts/distribute-funds.ts:1193-1225 | every prepared journal that any run ever wrote can be resumed: the resumed run submits exactly the transaction in it, under the same conditions |
| `FundingProgress.OutcomeIsRecorded` | scripts/distribute-funds.ts:1005-1035 | a run that hears of the outcome, from the lookup or from its own submission, ends with the journal alone on disk that says what the chain says |
| `FundingProgress.EndedIsSilent` | scripts/distribute-funds.ts:1037-1116 | a run that has finished, stopped or crashed never writes, asks or submits anything again |
| `FundingOutcome.NothingOrOnePayout` | scripts/distribute-funds.ts:720-1116 | protocol, the script's own check and program semantics together: with one preparation every address but the sender receives nothing, or exactly one copy of the intended payout, if the transaction that succeeded leaves its payment coins alone |
| `FundingOutcome.OnePayoutIffNoDrift` | scripts/distribute-funds.ts:720-1116 | without that proviso: what the one successful transaction moved is the payout if and only if no payment coin to another address has drifted |
| `FundingOutcome.OnePayoutIffUnsplit` | scripts/distribute-funds.ts:720-1116 | the same read off the program text: if nothing is merged into payment coins, what was moved is the payout if and only if nothing is split from those that go to another address |
| `FundingOutcome.OnlyRecipientsAreMovedTo` | scripts/distribute-funds.ts:720-1116 | over any number of preparations and resumes, an address that is neither recipient nor sender receives nothing |
| `FundingOutcome.TheCheckIsASetting` | scripts/distribute-funds.ts:720-844 | the script's check is an instance of the protocol's parameter, for every intent and decoder |
| `FundingProtocol.WriteAhead` | scripts/distribute-funds.ts:1044-1089 | every submission is preceded by a durable prepared journal of exactly its bytes, signature and digest, alone on disk, by a NOT_FOUND for that digest, and by a snapshot at most 15 minutes old with the manifest's writers |
| `FundingOutcome.SubmissionPaysSnapshot` | scripts/distribute-funds.ts:494-524 | at every submission the live snapshot is at most 15 minutes old and its wallets, in its order, are exactly the addresses the submitted program states payments to, with the intended amounts |
| `FundingProtocol.WrittenStaysResumable` | scripts/distribute-funds.ts:879-981 | every journal any run wrote is accepted by the protocol's parse after any further steps |
| `FundingRefinement.ParsesRefines` | scripts/distribute-funds.ts:879-981 | the document parser accepts what the script writes of a journal if and only if the protocol's parse does |
| `FundingRefinement.ParsedRefines` | scripts/distribute-funds.ts:879-981 | whatever document the parser accepts, the protocol's parse accepts what is kept of it |
| `FundingRefinement.ReconcilesRefines` | scripts/distribute-funds.ts:494-524 | a snapshot document that is fresh and matches reconciles in the protocol |
| `FundingRefinement.WrittenParses` | scripts/distribute-funds.ts:879-981 | a journal any run wrote, as the script builds it, is read back by the document parser after any further steps |
| `FundingRefinement.PersistJournal` | scripts/distribute-funds.ts:1198-1203 | while a run persists its journal, every journal a crash could leave is one the protocol accounts for; afterwards exactly the written one can be recovered |
| `FundingProtocol.StatusesAgreeIff` | scripts/distribute-funds.ts:1193-1206 | the terminal statuses on record are the chain's throughout a run if and only if every supplied journal that was persisted again was prepared or had the chain's status when it was parsed |
| `FundingProtocol.EditedStatusIsKept` | scripts/distribute-funds.ts:1193-1206 | a run in which nothing executed leaves a journal that says it succeeded, because that is what it was supplied |
| `Manifest.NormalizeWritersIdempotent` | scripts/distribute-funds.ts:209-249 | normalizing a manifest twice changes nothing, and every wallet it yields is a canonical address |
| `Manifest.NormalizeWritersIff` | scripts/distribute-funds.ts:209-245 | a manifest is accepted, with this result, if and only if every writer id is not blank and keeps its one or more valid addresses in canonical form, and there are 1 to 500 wallets, no two the same |
| `Manifest.FlattenAt` | scripts/distribute-funds.ts:247-249 | the flattened wallets are those of each writer, together and in order, in the order of the manifest |
| `FundingValidator.ReadPayments` | scripts/distribute-funds.ts:745-813 | the loop over the commands yields the payments they state, in order, or refuses |
| `FundingValidator.SamePayments` | scripts/distribute-funds.ts:827-842 | the entry-by-entry comparison is equality of the two payment lists |
| `FundingValidator.AssertFundingTransaction` | scripts/distribute-funds.ts:720-844 | the check accepts exactly the transactions whose sender, gas and stated payments are those of the intent |
| `FundingCommands.AcceptedIff` | scripts/distribute-funds.ts:657-844 | a transaction is accepted if and only if sender, gas owner and budget are the intent's, every command merges, splits, redeems, converts, returns a coin to the sender or sends a balance, for SUI or WAL, and the balances sent, each backed by a withdrawal of the sender's or a split of that amount, are the intended payments in order |
| `FundingCommands.OnlyPayoutTypesMove` | scripts/distribute-funds.ts:756-782 | whatever an accepted program credits to anyone, the sender included, is SUI or WAL |
| `FundingValidator.PaidAsStated` | scripts/distribute-funds.ts:657-844 | in every successful run of an accepted program, payment k is payment k of the intent plus the net amount merged into or split from its coin |
| `FundingSoundness.ValidatorSound` | scripts/distribute-funds.ts:657-844 | an accepted program that leaves its payment coins alone credits exactly the intended payments, and every address but the sender gets exactly what it is owed |
| `FundingSoundness.NoStrangerIsPaid` | scripts/distribute-funds.ts:783-843 | without that condition: an address that is neither recipient nor sender receives nothing |
| `FundingSoundness.ExactIffNoDrift` | scripts/distribute-funds.ts:759-760 | the payout is exact if and only if merges into and splits from the payment coins cancel out for every recipient but the sender |
| `FundingSoundness.ExactIffUnsplit` | scripts/distribute-funds.ts:759-760 | for a program that merges nothing into payment coins, every successful run pays exactly if and only if its text splits nothing from the payment coins of other addresses than the sender |
| `FundingPrograms.AcceptedCanOverpay` | scripts/distribute-funds.ts:759-760 | for every amount there is an accepted program that runs and pays that much more than the intent says |
| `FundingFixture.ValidatorComplete` | scripts/distribute-funds.ts:1737-1807 | for every intent the program of one redeem and one send per payment is accepted, for any number of recipients |
| `FundingFixture.FundsCheckCoversPayout` | scripts/distribute-funds.ts:1229-1248 | a sender that passes the check before building can run that program: exactly n times each amount leaves it, the gas budget stays, nothing is left over |
| `Documents.ParseDistinctLoop` | scripts/distribute-funds.ts:354-372 | the loop with a set of names seen refuses exactly where the specification does |
| `Documents.ParseDistinctIff` | scripts/distribute-funds.ts:354-372 | such a list parses if and only if every entry parses at its place and no two share a key |
| `Documents.RequireStringIff` | scripts/distribute-funds.ts:267-271 | a required string is accepted exactly if trimming leaves something, and is kept untrimmed |
| `LiveSnapshots.SnapshotRoundTrip` | scripts/distribute-funds.ts:280-491 | a snapshot once accepted is accepted again from what was written of it, unchanged, at any later time |
| `SnapshotAcceptance.SnapshotAcceptedIff` | scripts/distribute-funds.ts:280-491 | a snapshot document is accepted, with this result, if and only if it describes one complete rollout: every field as named, immutable Secrets, providers of known Secrets, one writer per replica in order on distinct pods with the same images and canonical wallets, and a fresh time where freshness is asked for |
| `LiveSnapshots.SnapshotIsOneRollout` | scripts/distribute-funds.ts:280-491 | an accepted snapshot has one pod per replica with consecutive ordinals, distinct names, one set of images, and only verified Secrets |
| `FundingRollout.SnapshotComplete` | scripts/distribute-funds.ts:280-502 | for every manifest of one stateful set, with any number of replicas, there is a snapshot that is accepted and matches it |
| `LiveSnapshots.MatchesIsEquality` | scripts/distribute-funds.ts:504-524 | the live writers pass if and only if they are the manifest: same ids, same wallets, same order |
| `FundingJournals.IntentIsCanonical` | scripts/distribute-funds.ts:590-610 | the intent built by the script is a fixed point of its own normalization |
| `JournalAcceptance.IntentAcceptedIff` | scripts/distribute-funds.ts:590-610 | an intent document gives an intent if and only if that is the canonical form of the non-blank names, positive amounts and wallets it spells out |
| `JournalAcceptance.JournalAcceptedIff` | scripts/distribute-funds.ts:879-981 | a journal document is accepted, with this result, if and only if it is a signed funding journal of exactly this intent, with a snapshot of exactly its writers, and bytes, digest and signature that belong together and pass the check |
| `JournalAcceptance.ReconcilesIff` | scripts/distribute-funds.ts:494-524 | a live snapshot reconciles if and only if it describes a rollout, is fresh now, and lists the manifest's writers with their wallets, in order |
| `JournalAcceptance.PrepareIs` | scripts/distribute-funds.ts:1310-1334 | the first journal says prepared, under the run's intent and snapshot, with exactly the signed bytes, signature and digest |
| `JournalAcceptance.RewritingsShow` | scripts/distribute-funds.ts:1005-1035 | after any rewritings a journal shows the outcome observed last and the snapshot reconciled last, for the same intent and transaction |
| `FundingJournals.JournalRoundTrip` | scripts/distribute-funds.ts:879-981 | a recoverable journal, once written, is accepted under the same intent and gives back itself, bytes and digest included |
| `FundingJournals.ParsedIsRecoverable` | scripts/distribute-funds.ts:879-981 | whatever a parse accepts is recoverable again |
| `FundingJournals.EveryJournalIsResumable` | scripts/distribute-funds.ts:1005-1035 | the prepared journal and every rewriting of it, in any number and order, is accepted later with the identical bytes and digest |
| `Bridge.DefaultNamespaceSettles` | packages/mcp/src/bridge.ts:60-75 | the default namespace is filled in once and for all, changes nothing else, and never replaces one the caller gave |
| `Bridge.BridgeVars.AcceptLine` | packages/mcp/src/bridge.ts:765-780 | a request is tracked under the current account, an id already in flight keeps its place |
| `Bridge.BridgeVars.AdoptCredentials` | packages/mcp/src/bridge.ts:629-659 | a new account answers everything in flight with the error and clears it; the generation advances |
| `Bridge.AnswerAll` | packages/mcp/src/bridge.ts:642-654 | one error per request in flight, in order, and none of their ids stays pending for a tool list |
| `Bridge.BridgeVars.DeliverMessage` | packages/mcp/src/bridge.ts:679-707 | every message is forwarded once, with at most its tool list extended; a response ends the request with its id and no other; a list request stays pending until its result comes, an error does not end it |
| `BridgeSafety.Safe` | packages/mcp/src/bridge.ts:516-799 | the invariant of data and control holds after every interleaving of lines, logins, deliveries, reconnects and failures |
| `BridgeTheorems.ReplayNeverCrossesAccounts` | packages/mcp/src/bridge.ts:590-604 | every replay POST goes to a session of the account its request was accepted under, with the credentials that opened it; everything in flight belongs to the current account |
| `BridgeReplay.ReplaysInOrder` | packages/mcp/src/bridge.ts:590-604 | whatever else goes on: once a reconnect has published its session and k of its POSTs have returned, it has posted the first k + 1 requests that were in flight then, in order, to that session with its credentials, and no other replay; until all are posted it stays with that session |
| `BridgeReplay.ReplayEnds` | packages/mcp/src/bridge.ts:605-613 | when the last POST has returned, all of them have been posted, and the reconnect ends with that session, or opens another one if a login came |
| `BridgeReplay.NothingToReplay` | packages/mcp/src/bridge.ts:590-613 | with nothing in flight a reconnect ends with its session as soon as it has published it |
| `BridgeReplay.LostSessionIsReplayed` | packages/mcp/src/bridge.ts:538-604 | in every reachable state with stdin open and no reconnect running: when the stream ends or a POST is answered 404, a new session is opened with the current credentials and everything in flight is posted to it again, in order |
| `BridgeReplay.ReconnectBeginsIff` | packages/mcp/src/bridge.ts:538-545 | a reconnect begins exactly when none is running, stdin is open, and a lost session, a login or a stale session calls for one |
| `BridgeReplay.AnsweredPostEnds` | packages/mcp/src/bridge.ts:788-794 | a POST answered otherwise than 404 ends its line and does nothing else |
| `BridgeReplay.RunningReconnectCanPublish` | packages/mcp/src/bridge.ts:560-626 | a running reconnect can always end with the session of the current generation in use, while stdin is open |
| `BridgeReplay.PumpCanResume` | packages/mcp/src/bridge.ts:675-718 | a pump that waits for a reconnect can always read again |
| `BridgeReplay.AcceptedLineCanBePosted` | packages/mcp/src/bridge.ts:781-788 | whatever state the bridge is in when it accepts a line, a continuation without a login, a failed handshake or the end of stdin posts it, with the credentials and to the session then in use |
| `BridgeTheorems.MatchedPostUsesSessionKey` | packages/mcp/src/bridge.ts:784-788 | a direct POST that found the generations equal carries the credentials that opened its session |
| `BridgeTheorems.LatePostWasAnswered` | packages/mcp/src/bridge.ts:642-654 | a request posted under another account than it was accepted under is not a replay, and the client had been written an answer for it |
| `BridgeTheorems.ImmediatePostKeepsAccount` | packages/mcp/src/bridge.ts:784-788 | a line posted in the step that accepts it goes out under its account, with the credentials of its session |
| `BridgeTheorems.TrackedPostKeepsAccount` | packages/mcp/src/bridge.ts:784-788 | so does a line that waited, if its own entry is still in flight when it is posted |
| `BridgeTheorems.ParkedRequestCrossesAccounts` | packages/mcp/src/bridge.ts:784-788 | for any two accounts and any request there is a run that answers the parked request with the error and then posts it to the new account |
| `BridgeTheorems.GenerationDiscipline` | packages/mcp/src/bridge.ts:538-627 | at most one reconnect body runs; the active generation never exceeds the current one; the session in use was opened with the credentials of its generation |
| `BridgeTheorems.OnlyCurrentIsPublished` | packages/mcp/src/bridge.ts:561-585 | only the running body publishes a session, and only one opened for the generation that is still current |
| `BridgeTheorems.NoAcceptedRequestForgotten` | packages/mcp/src/bridge.ts:766-797 | whatever happens after a request is accepted, it is still in flight or a response or the error with its id has been written since |
| `BridgeTheorems.ReopeningIsPaidByLogins` | packages/mcp/src/bridge.ts:561-613 | a reconnect opens at most one stream more than there were logins since it began |
| `BridgeTheorems.AdoptionNeverStuck` | packages/mcp/src/bridge.ts:665-670 | an adoption that has not returned always has a possible step of its own or of the reconnect it awaits |
| `BridgeTheorems.AdvanceDescends` | packages/mcp/src/bridge.ts:560-626 | every such step lowers a lexicographic rank, however handshakes and POSTs turn out |
| `BridgeTheorems.OthersLeaveAdoption` | packages/mcp/src/bridge.ts:538-671 | no other step except a login changes that rank |
| `BridgeTheorems.AdoptionReturnsAgreed` | packages/mcp/src/bridge.ts:665-670 | if no handshake failed, stdin is open and no further login came, the adoption returns with the active generation equal to the current one |
| `BridgeTheorems.AdoptionCanReturnIff` | packages/mcp/src/bridge.ts:538-671 | in every reachable state, an unfinished adoption has steps of its own (no failed handshake among them) that lead to its return on the current session, if and only if that session is in use already, or the reconnect it awaits will open it, or, stdin being open, it can still ask for one that will |
| `BridgeTheorems.UndisturbedCanAgree` | packages/mcp/src/bridge.ts:665-670 | that is so as long as no login came and no handshake failed since the adoption began and stdin is open |
| `BridgeTheorems.AdoptionCanBeHelped` | packages/mcp/src/bridge.ts:538-671 | from every reachable state with an unfinished adoption and stdin open, some continuation without a login, a failed handshake or the end of stdin leads to its return on the current session, other tasks helping where its own steps cannot |
| `BridgeTheorems.FailedAdoptionDisagrees` | packages/mcp/src/bridge.ts:614-627 | a run with two failed handshakes and stdin open after which that condition does not hold: the only step of its own is to return on the old session |
| `SseStream.Stream.HandleFrame` | packages/mcp/src/bridge.ts:257-283 | one event announces the endpoint once, pushes its message or does nothing, and wakes the sleeper for what it awaits |
| `SseStream.Stream.OnChunk` | packages/mcp/src/bridge.ts:250-283 | the frames handled and the text kept are those of the text so far; taken plus queued messages stay the messages of all frames in order; no sleeper is lost or left sleeping on something that has happened |
| `SseStream.Stream.OnEnd` | packages/mcp/src/bridge.ts:298-303 | the end of the stream wakes whoever sleeps |
| `SseStream.Stream.RunHandshake` | packages/mcp/src/bridge.ts:307-315 | the handshake returns the first announced endpoint, fails only at the end of the stream, and sleeps otherwise |
| `SseStream.Stream.Next` | packages/mcp/src/bridge.ts:317-326 | messages are yielded in order; the end is reported only when every message was yielded; otherwise the reader sleeps |
| `SseStream.ChunksDoNotMatter` | packages/mcp/src/bridge.ts:250-283 | for every chunking, frames and kept text are those of the concatenated text |
| `SseReference.StandardByFrames` | packages/mcp/src/bridge.ts:257-283 | on every stream with LF line ends, the messages and the endpoint of the standard's line-by-line interpretation can be read off the frames the bridge cuts |
| `SseConformance.HarmlessIff` | packages/mcp/src/bridge.ts:261-275 | bridge and standard read the same text off a frame exactly if they agree whether it is a message and every data field has a colon with no white space but a space behind it, or what they disagree on is empty |
| `SseConformance.ReaderConformsIff` | packages/mcp/src/bridge.ts:257-283 | for every stream: at every moment and for every parser the bridge has read exactly the messages the standard has dispatched, if and only if every frame is of that kind |
| `SseConformance.EndpointConformsIff` | packages/mcp/src/bridge.ts:268-273 | for every stream: at every moment the handshake's endpoint is that of the standard's first endpoint event, if and only if the frame it comes from, and those before it, announce the same to both |
| `SseConformance.PlainIsHarmless` | packages/mcp/src/bridge.ts:257-283 | frames with one event line at most, colons, and at most one space behind them are read alike, endpoint events without data excepted |
| `SseConformance.EventNameIs` | packages/mcp/src/bridge.ts:261-264 | the event name is what follows the first `event:` of a frame, trimmed |
| `SseConformance.DataLinesAre` | packages/mcp/src/bridge.ts:265-267 | the data are what follows each `data:`, less one leading white space, in the order of the lines |
| `StdinLines.TakeLines` | packages/mcp/src/bridge.ts:369-376 | the loop delivers exactly the non-empty lines of the buffer, in order, and keeps what follows the last newline |
| `StdinLines.CleanIff` | packages/mcp/src/bridge.ts:370-372 | a line is delivered without one trailing carriage return, unless nothing is left of it |
| `StdinLines.StdinReader.OnData` | packages/mcp/src/bridge.ts:364-380 | over all chunks the lines delivered are the lines of the whole text |
| `AuthServer.Serve` | packages/mcp/src/auth-required.ts:454-486 | lines before the first triggering one are served here; that one and all complete lines behind it are pending; none is lost or reordered |
| `AuthServer.Server.OnData` | packages/mcp/src/auth-required.ts:450-486 | over all chunks, lines handled plus pending lines are the lines of the whole text; the server settles exactly at the first line that comes after a sign-in and is a request for the tool list or for a tool other than memwal_login |
| `AuthServer.HandoffConservesIff` | packages/mcp/src/auth-required.ts:472-484 | handled, then pending, then the bridge's lines are all lines sent, for every continuation, if and only if the triggering chunk ends at a newline |
| `LoginListener.StateEqualsIsEquality` | packages/mcp/src/login.ts:114-121 | comparing decoded bytes of lower-case hexadecimal texts is comparing the texts |
| `LoginListener.AcceptedIffKnown` | packages/mcp/src/login.ts:96-106 | a preflight is accepted if and only if it presents this token, this public key and this relayer up to trailing slashes |
| `LoginListener.Listener.OnPreflight` | packages/mcp/src/login.ts:334-364 | answered 200 if and only if the body presents this token, key and relayer; nothing is saved; the listener stays consistent |
| `LoginListener.Listener.OnCallback` | packages/mcp/src/login.ts:365-424 | answered 200 if and only if a record was saved, which needs a verified preflight, a callback with the token and a save that works, and 428, 400, 403 or 500 for what is missing first; the record has the callback's account, wallet and package each in its own field and everything else from the listener; the preflight is used up |
| `LoginListener.EachSaveHasItsPreflight` | packages/mcp/src/login.ts:365-406 | every save comes from a callback with the listener's token, after a matching preflight since the previous save, and adds that callback's record |
| `LoginListener.SavesWithinPreflights` | packages/mcp/src/login.ts:245-251 | in every interleaving saves never outnumber accepted preflights |
| `LoginListener.RunsAreConsistent` | packages/mcp/src/login.ts:391-406 | every saved record carries the listener's own keys, relayer and label, and a returned record is on disk |
| `LoginListener.NeverCompletesEmpty` | packages/mcp/src/login.ts:439-443 | a settled flow throws exactly if an error was set, otherwise it returns the record saved last |
| `LoginListener.VerifiedIff` | packages/mcp/src/login.ts:249-251 | a preflight is waiting exactly if one was accepted and no callback has used it up since |
| `LoginListener.FlowOutcomeIff` | packages/mcp/src/login.ts:253-443 | for every run: the flow goes on exactly once a callback made a record or something failed; it throws if and only if a body could not be read, a save failed, or the time ran out before any record; otherwise it returns the record of the last callback that made one |
| `LoginListener.SaveAfterReportedFailure` | packages/mcp/src/login.ts:253-261 | a request under way at the timeout can still save after the flow has thrown |
| `LoginListener.NothingMoreSavedIff` | packages/mcp/src/login.ts:253-261 | after any run, one that reported a failure included, no continuation without a newly accepted preflight saves anything if and only if no verified preflight is waiting |
| `FixedWindow.SameWindow` | apps/researcher/lib/ratelimit.ts:70-86 | another admission in a window with room keeps the window exact and every stretch of one window length below twice the limit |
| `FixedWindow.NextWindow` | apps/researcher/lib/ratelimit.ts:82-86 | so does the admission that opens the next window |
| `RateLimiter.KeysAreDistinct` | apps/researcher/lib/ratelimit.ts:124-127 | no counter is shared between buckets, addresses or the two kinds |
| `RateLimiter.Redis.Eval` | apps/researcher/lib/ratelimit.ts:70-88 | the script answers 1 exactly if both counters are below their limits, raises both and dates new ones; otherwise nothing changes |
| `RateLimiter.AdmittedInAnyMinute` | apps/researcher/lib/ratelimit.ts:61-88 | for every trace, per address and in all: fewer than twice the limit in any half-open minute, at most twice in any closed one |
| `RateLimiter.BoundIsReached` | apps/researcher/lib/ratelimit.ts:61-88 | for each bucket and address there is a trace that admits twice the limit less one within a minute |
| `RateLimiter.CountersStayWithinLimits` | apps/researcher/lib/ratelimit.ts:78-86 | counters never exceed their limits and every stored counter has an expiry |
| `RateLimiter.RefusedLeavesNoTrace` | apps/researcher/lib/ratelimit.ts:79-81 | for every trace, a request answered 429, or for which Redis did not run the script, leaves all that follows as if it had not been made |
| `RateLimiter.StatusIs` | apps/researcher/lib/ratelimit.ts:109-139 | a request passes exactly if Redis answers and counts it, is answered 429 exactly if Redis answers and nothing changes, and 503 exactly if Redis does not answer |
| `RateLimiter.RefusedOnlyAtLimit` | apps/researcher/lib/ratelimit.ts:70-81 | a request is answered 429 only if its address, or all addresses together, have been admitted as often as the limit says within the last minute |
| `MemoryTags.EscapeRoundTrip` | packages/openclaw-memory-memwal/src/format.ts:27-42 | escaping can be undone for every text |
| `MemoryTags.EscapedIsInert` | packages/openclaw-memory-memwal/src/format.ts:27-42 | escaped text holds no angle bracket and no quotation mark |
| `MemwalTags.MemwalBlock` | packages/openclaw-memory-memwal/src/format.ts:54-66 | the block is the opening tag, the introduction, the memories in order, escaped and numbered from 1, and the closing tag, joined by line ends |
| `MemoryTags.InjectionIsInvisible` | packages/openclaw-memory-memwal/src/format.ts:54-72 | stripping the formatted block followed by any prompt equals stripping the prompt |
| `MemwalTags.MemwalFits` | packages/openclaw-memory-memwal/src/format.ts:18-24 | the tags and introduction in use satisfy the conditions of these results |
| `MemorySeams.StripSettlesIff` | packages/openclaw-memory-memwal/src/format.ts:69-72 | stripping again changes nothing if and only if, with the blocks cut out of the text, no opening tag lies across a cut with a closing tag behind it |
| `MemorySeams.CleanCutsSettle` | packages/openclaw-memory-memwal/src/format.ts:69-72 | it is enough that no block is directly preceded by the beginning of an opening tag |
| `MemorySeams.NextPiece` | packages/openclaw-memory-memwal/src/format.ts:20-24 | each match is the leftmost opening tag, the nearest closing tag behind it and all white space after that |
| `MemwalTags.MemwalIsNotIdempotent` | packages/openclaw-memory-memwal/src/format.ts:69-72 | there is a text that stripping twice shortens twice |
| `MemoryCapture.ExtractMessageTexts` | packages/openclaw-memory-memwal/src/format.ts:86-118 | the texts are, in order, the stripped texts of exactly those among the last maxCount messages (all if it is 0) that have a wanted role and more than ten characters left |
| `MemoryCapture.CaptureIgnoresInjection` | packages/openclaw-memory-memwal/src/format.ts:86-118 | whatever memories were injected into whichever messages, as text or as blocks, the same texts are captured |
| `SortedStrings.SortedIsCanonical` | scripts/build-finalize-tx.ts:459-466 | a set of ids has exactly one strictly sorted list |
| `SortedStrings.SameSortedIff` | scripts/build-finalize-tx.ts:162-174 | comparing sorted key lists is comparing multisets |
| `CompletionEvidence.ExactKeysIff` | scripts/build-finalize-tx.ts:162-174 | an object passes if and only if it has every expected field and no other |
| `CompletionEvidence.CommitteeAcceptedIff` | scripts/build-finalize-tx.ts:176-231 | a committee is accepted if and only if its servers are canonical, distinct and weighted and 1 <= threshold <= total weight <= 254; then it has at most 254 servers |
| `CompletionEvidence.AcceptedMatchesReview` | scripts/build-finalize-tx.ts:354-440 | accepted evidence is the reviewed one in digest, route, policies, inventory and manifest, and has exactly the required checks, all true |
| `CompletionEvidence.DeadIdsFitIff` | scripts/build-finalize-tx.ts:453-473 | the dead ids pass if and only if they are the sorted list of a set of non-empty ids with the stated digest |
| `CompletionEvidence.DeadIdsAreCanonical` | scripts/build-finalize-tx.ts:453-473 | one set of dead ids can be committed to in one way only |
| `CompletionEvidence.CompositeOrder` | scripts/build-finalize-tx.ts:504-510 | for owners of one fixed length the order of the composite texts is the lexicographic order of owner and blob, and equal texts are equal pairs |
| `CompletionEvidence.AcceptedListsAreSets` | scripts/build-finalize-tx.ts:453-531 | the dead ids form a set as large as the dead count; the orphans are as many as counted, ascending and pairwise distinct by owner and blob |
| `CompletionEvidence.AcceptedIsFresh` | scripts/build-finalize-tx.ts:363-385 | accepted evidence expires after now and at most sixteen minutes later |
| `CompletionEvidence.ImportsMatchManifest` | scripts/build-finalize-tx.ts:644-683 | with the registry check, imported accounts and delegates on chain are the manifest's counts, and the pinned root is the manifest's 32 bytes |
| `EvidenceAcceptance.EvidenceAcceptedIff` | scripts/build-finalize-tx.ts:279-607 | evidence is accepted if and only if it is canonical text with exactly the expected fields, schema 5, complete, timely, equal to the review, with valid digests and sorted lists, nothing in flight or stray, 1 to 300 quiet seconds, and counts that are decimal numbers and account for every row |
| `EvidenceAcceptance.CompletionIs` | scripts/build-finalize-tx.ts:608-616 | what is kept of it is the digest of the text, its expiry, the root in lower case and the counts of accounts and delegates |
| `EvidenceAcceptance.RegistryPassesIff` | scripts/build-finalize-tx.ts:644-683 | a registry passes if and only if its root and counts are the evidence's, everything expected is imported, and it is not finalized |
| `Finalization.FinalizedIsSound` | scripts/build-finalize-tx.ts:279-683 | evidence accepted under the script's own field and check names, for a registry that passed, is the reviewed one with every required check true, schema 5, complete, with nothing in flight or stray, duplicate-free, for a registry that is fully imported and not finalized, with rows conserved (migration rows = live + drift-swept = done + dead) and imports equal to the manifest's |
| `Finalization.CountsRoundTrip` | scripts/build-finalize-tx.ts:130-148 | counts printed in decimal are read back, and refused exactly when one of the five that must be positive is zero |

## Left out

- Cryptography, the Sui SDK (building, BCS, gRPC, address and type normalization) and the Move contracts: parameters, with the laws the proofs need.
- JSON text: documents are the values that parsing yields; key order of integer-like object keys and duplicate keys in the text are not represented.
- Unknown extra fields of a journal, which the script copies along, are not represented.
- Nested one-element arrays that `String()` flattens into an address or a count are not represented.
- Dry runs and their simulated journals, which no later parse accepts.
- Two runs that share one journal path at the same time: each run of the protocol has its own path.
- A fresh run that replaces an older journal starts a new lineage; exactly-once is per lineage.
- Sponsored withdrawals, and the rule of programmable transactions that unused values fail: the linear semantics allows more runs.
- FundingOutcome.NothingOrOnePayout: requires that the transaction that succeeded leaves its payment coins alone, which the check does not enforce, and that what the chain reports as a success ran to its end there; OnePayoutIffNoDrift drops the first.
- The idle watchdog's real time, backoff delays, logging, and the texts of local tool answers in the bridge.
- The bridge model allows client lines for the two local tools to be forwarded, and steps after the process has exited: more runs than the code has.
- Event streams with CR or CRLF line ends: the comparison with the standard is for LF, which is all the bridge cuts at.
- A line that is the JSON value null makes the auth-required handler throw; it is not represented.
- HTTP headers, CORS, host and origin checks, and the body size limit of the login listener: requests enter the model once they passed them.
- Redis is modelled with a monotone clock; a key is gone from the instant its time to live has elapsed.
- `parseSourceInventory`, `completionPolicy` and the transaction built from accepted evidence: they would only add easy members.
- `checkIpRateLimit` and the remaining helpers of the modelled files, the SDKs, apps and user interfaces.

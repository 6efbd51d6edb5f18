# agent-host, modelled in Dafny

agent-host is a small server that lists coding agents, launches them through providers, retires them, and is
installed by its own release switcher. This project models the parts of it whose correctness is not visible in one
function: durable state that must survive crashes, protocols between stores that can disagree, incremental parsers,
and bounded queues. Each module follows one component.

- **Launch and retirement.** `LaunchProtocol` is one launch as a step relation over its ledger record, its provenance
  record, the external agent and every call in flight; a crash is enabled between any two durable writes, and a call
  may time out first and settle later. `LaunchSafety` proves what holds over every run. `Provenance` is the adapter's
  own store, and `BridgeSends` the client below the adapter, whose answers `not_sent` and `rejected` lift its fences.
  A step of another launch can only make a write of this one fail or a start wait, and both are choices of the relation
  already, so one launch is modelled at a time.
- **The ledger.** `LedgerState` says what each operation decides, `LedgerEncoding` which document is written and what
  is read back, `LedgerSize` how many bytes it takes and what is projected for retirements to come. `LedgerMargin`
  proves exactly when a completion or a cancellation still fits, over sums (`LedgerTotals`), the hundred largest
  tombstones (`LedgerLargest`) and the cleanups that the compact encoding leaves out (`LedgerMatching`);
  `LedgerCapacity` proves where the space reserved is always enough, and `LedgerShortfall` and `LedgerCompactShortfall`
  are ledgers where it is not. `LedgerAdmission` is the loops of `open`, `LedgerOrder` why the order of entries does not
  matter, `LaunchLedger` the object with its rollbacks, `LedgerRuns` whole runs of it with failed writes and restarts,
  `LedgerStages` that they move one launch only along the stages the protocol takes for granted, and `LaunchAdmission`
  idempotent submission.
- **Scheduling.** `CoordinatorLanes` (provider lanes) and `ActionExecutor` (one action at a time for each agent).
- **Installation.** `InstallLock` (the directory lock and its takeover) and `Installer` (the journalled switch).
- **Parsers.** `IncrementalParser` (why chunks do not matter), `WebSocketWire` and `WebSocketFrames` (RFC 6455 sections
  5.2 to 5.5), `ConnectFrames`, and the byte arithmetic in `Bytes`.
- **Discovery.** `Registry` (events and the fence around owned launches), `Listing` (order, pages, counts),
  `Transcripts`, `CanonicalJson` and `JsonText`.

Hashes are their inputs or injective functions, the launch and attempt identities that the source draws at random are
new by assumption (run ids are the provider's, and are not), a timestamp is its parsed value and its length, and a
durable write takes effect whole or not at all. Clocks, randomness, write outcomes, provider answers and the collation
of texts are parameters.

Where the code does less than one might expect, the input that shows it and the exact condition are both stated:

- A run id that the provider repeats while its cancel is unresolved is cancelled twice
  (`LaunchSafety.ProviderMayRepeatAnId`); a commit is safe exactly when it records an id without an unresolved cancel
  (`LaunchSafety.CancelsAreFenced`, `LaunchSafety.RepeatedIdIsCancelledTwice`).
- A ledger that passed both size checks can have a retirement that no longer fits: in the explicit encoding a
  completion, with more than a hundred tombstones kept and to come (`LedgerShortfall.ReservationCanFallShort`), and in
  the compact one, which a host writes after it has read a file without a list of cleanups, a completion and a
  cancellation even without any (`LedgerCompactShortfall.CompactCanFallShort`). A completion fits exactly when the file
  has room for the tombstone once the record and the oldest of a hundred tombstones are gone
  (`LedgerMargin.CompletionFitsExactly`), a cancellation exactly when the projection has room for the owned record once
  the tombstone to come is gone (`LedgerMargin.CancellationFitsExactly`); in the compact encoding beyond a hundred, the
  list of cleanups that may have to be named again is part of it (`LedgerMargin.CompletionFitsBeyond`,
  `LedgerMargin.CancellationFitsBeyond`). Whatever fits in the explicit encoding with at most a hundred of them goes on
  fitting, in either encoding (`LedgerCapacity.ReservationSuffices`).
- Replaying a key is refused while that key still fences an unreleased retirement (`LaunchAdmission.HeldKeyIsReplayed`);
  a retirement and a submission that come under one new key lead there (`LaunchAdmission.FencedWhileHeld`).
- A first-version ledger that carries a list of cleanups is migrated into a file that a second `open` refuses
  (`LedgerEncoding.MigrationCanBreak`), and no other is (`LedgerEncoding.MigrationPreserves`).
- The install lock excludes only as long as an owner that exited cleanly does not read dead
  (`InstallLock.CleanExitBreaksExclusion`), and a lock abandoned before its owner file is complete blocks for ever
  (`InstallLock.AbandonedIsReachable`, `InstallLock.AbandonedBlocks`).
- Evicting an owned agent lets a process agent appear without an event exactly when it alone hid that agent
  (`Registry.EvictionIsTold`); restoring one can make an agent disappear without an event, and can be announced without
  being listed (`Registry.RestoringIsTold`). Both need an owned agent with a process id (`Registry.EvictionCanReveal`).
  The two launch-capable adapters of the repository set none, so an adapter from outside is needed.
- Copies of a transcript that are equally long under keys that collate equal are chosen between by the order in which
  they were found (`Transcripts.TiesFollowTheOrder`), and so are agents whose ids differ only in what normalisation
  removes, in every order but the one by attention (`Listing.TiesFollowTheOrder`).

## Model

| member | source | states |
|---|---|---|
| LaunchSafety.DeletedStaysFenced | src/core/launch-coordinator.js:291-479 | Over every run with crashes, timeouts and late results: once the agent has been deleted its ledger record is retiring or a tombstone for ever, never owned again. |
| LaunchSafety.StoresAgree | src/adapters/cursor-sdk.js:222-317 | Provenance that is retiring or retired has its ledger record fenced under the same key; a tombstone has only retired provenance or none; an owned launch has owned provenance and a living agent. |
| LaunchSafety.DeletesAreRecordedFirst | src/adapters/cursor-sdk.js:260-317 | A delete request leaves only with `deleteAttempted` durable under the ledger's key, no pending run, no attempted cancel and no unresolved prompt. |
| LaunchSafety.DeletionIsNeverForgotten | src/adapters/cursor-sdk.js:222-317 | Whenever a deletion is possible or done, a durable record says so and the launch is not owned. |
| LaunchSafety.LaunchedAtMostOnce | src/core/launch-coordinator.js:566-623 | `registry.launch` is called at most once for a record, and no record returns to `requested` or `creating`. |
| LaunchSafety.FoundCreatingIsOnlyReconciled | src/core/launch-coordinator.js:51-88 | A record that a restart finds past `requested` is never launched again. |
| LaunchSafety.PromptsAreFenced | src/adapters/cursor-sdk.js:449-481 | At most one prompt is unresolved, and each send happens under a durable `runPending`. |
| LaunchSafety.FenceIsLiftedByProof | src/adapters/cursor-sdk.js:842-862 | `runPending` is cleared only by a committed run id or when nothing unresolved was sent. |
| LaunchSafety.CancelsAreFenced | src/adapters/cursor-sdk.js:483-507 | In a run where no commit records an id that still has an unresolved cancel, each run id has at most one CancelRun that was not proved unsent or rejected, and the record remembers the current one. |
| LaunchSafety.FreshIdsAreFenced | src/adapters/cursor-sdk.js:846-854 | That condition holds whenever no id is committed twice. |
| LaunchSafety.RepeatedIdIsCancelledTwice | src/adapters/cursor-sdk.js:846-872 | Every commit that breaks the condition is followed, after three more steps, by a second CancelRun for the same run. |
| LaunchSafety.ProviderMayRepeatAnId | src/adapters/cursor-sdk-transport.js:257-272 | From the initial state there is a run with two unresolved cancels of one run id: a provider that answers two prompts with the same id is enough. |
| LaunchSafety.StepKeeps | src/core/launch-coordinator.js:291-479 | Every step of coordinator, adapter, agent, crash and restart keeps the invariant that ties ledger, provenance, agent and calls in flight. |
| LaunchSafety.StepProgresses | src/core/launch-coordinator.js:566-623 | No step takes a launch back to an earlier stage, revives a deleted agent, launches again, or sends a prompt without its fence. |
| Provenance.MarkOwnedNeverRevives | src/adapters/cursor-sdk.js:823-840 | Marking as owned succeeds exactly for an intent or an owned record, so a late reconciliation cannot revive a retirement. |
| Provenance.RetirementCanBeUndone | src/adapters/cursor-sdk.js:874-950 | Reserving, beginning and marking a deletion can each be undone, giving back the very record. |
| Provenance.RetiredIsFinal | src/adapters/cursor-sdk.js:916-966 | A retired record accepts no transition but removal under its own key. |
| Provenance.ProvenanceStore.Reserve | src/adapters/cursor-sdk.js:806-821 | A new attempt is recorded, a repeated one answered, a conflicting one refused, and a full or failing store left unchanged. |
| Provenance.ProvenanceStore.Apply | src/adapters/cursor-sdk.js:1057-1096 | A transition is saved exactly when the record exists, the transition allows it and the write succeeds; everything saved passes the load checks. |
| Provenance.ProvenanceStore.RemoveRetired | src/adapters/cursor-sdk.js:952-966 | Removal happens exactly for a retired record under its own key. |
| BridgeSends.NotSentIsTrue | src/adapters/cursor-sdk-transport.js:196-293 | Over any history of the client, a prompt is answered once, and one answered as `not_sent` never calls the send method, before or after. |
| BridgeSends.OnePromptAtATime | src/adapters/cursor-sdk-transport.js:202-207 | An agent has at most one prompt that is under way or may have been received unanswered, until the agent has finished or is deleted. |
| BridgeSends.CancelAnswersAreTrue | src/adapters/cursor-sdk-transport.js:333-367 | Over any history of the client, a cancel is answered once, and one answered as `not_sent` never calls the cancel method, before or after. |
| BridgeSends.OneCancelAtATime | src/adapters/cursor-sdk-transport.js:336-366 | The run of a prompt has at most one cancel request that was not proved unsent or rejected, and is marked while it has one. |
| BridgeSends.Bridge.SendLocal | src/adapters/cursor-sdk-transport.js:202-207 | A prompt is refused exactly while the agent has an active run or an unresolved prompt. |
| BridgeSends.Bridge.Fails | src/adapters/cursor-sdk-transport.js:272-291 | Whatever throws, an unanswered prompt is answered: unsent before the call, rejected after it on a definitive error, ambiguous otherwise. |
| BridgeSends.Bridge.Arrives | src/adapters/cursor-sdk-transport.js:244-269 | The first frame that names this agent and a valid run answers the prompt with that run; a frame that names another ends it as ambiguous. |
| BridgeSends.Bridge.StatusRead | src/adapters/cursor-sdk-transport.js:180-187 | Reading the status releases a prompt only of an agent that has finished, and only an answered one. |
| BridgeSends.Bridge.CancelLocal | src/adapters/cursor-sdk-transport.js:333-354 | A cancel of an active run is refused exactly when one was requested already or another run is named; otherwise the run is marked and the method called. |
| BridgeSends.Bridge.CancelAnswered | src/adapters/cursor-sdk-transport.js:354-366 | Only a rejected cancel takes the mark back. |
| LaunchContracts.ReplayResolvesToTheRecord | src/core/launch-coordinator.js:712-729 | Against the capabilities rebuilt from a record, a payload resolves to that very request or fails, and it resolves exactly when it spells the request out. |
| LaunchContracts.ResolutionIsSpelled | src/core/launch-contracts.js:52-86 | Whatever was advertised, a payload spells out the request it resolved to. |
| LedgerState.ReserveKeepsSound | src/core/launch-ledger.js:313-344 | Reserving keeps every check of `open`. |
| LedgerState.TransitionKeepsSound | src/core/launch-ledger.js:346-359 | A state change keeps every check of `open`. |
| LedgerState.BeginRetirementKeepsSound | src/core/launch-ledger.js:204-241 | Fencing a retirement keeps every check of `open`, its key being claimed by nobody else. |
| LedgerState.CancelRetirementKeepsSound | src/core/launch-ledger.js:296-311 | Cancelling keeps every check of `open`. |
| LedgerState.CompleteRetirementKeepsSound | src/core/launch-ledger.js:243-271 | Completing keeps every check of `open`, appends one tombstone, drops the oldest beyond a hundred and adds at most one cleanup. |
| LedgerState.CompleteCleanupKeepsSound | src/core/launch-ledger.js:273-294 | Finishing a cleanup keeps every check of `open` in both encodings. |
| LedgerState.CancelUndoesBegin | src/core/launch-ledger.js:204-311 | Cancelling a begun retirement under its key, and under no other, gives the record back but for its time of update. |
| LedgerState.CompletionAnswersForItsRecord | src/core/launch-ledger.js:424-437 | The tombstone carries the record's launch, attempt, keys and request, and from then on answers for its creation key. |
| LedgerEncoding.RoundTrip | src/core/launch-ledger.js:388-401 | What is written for a sound ledger, explicitly or compactly, is accepted by `open` and gives the same records, tombstones and cleanups. |
| LedgerEncoding.OmittedCleanupsComeBack | src/core/launch-ledger.js:473-479 | When the cleanups are left out because they match the scoped tombstones, deriving them gives exactly those cleanups. |
| LedgerEncoding.FinishedCleanupStaysFinished | src/core/launch-ledger.js:273-293 | The file that records a finished cleanup reads back, in either encoding, without a cleanup for that launch, and with one cleanup fewer. |
| LedgerEncoding.MigrationPreserves | src/core/launch-ledger.js:117-124 | Migration does not change what is read; the migrated file is readable exactly when a first-version file carried no cleanups. |
| LedgerEncoding.MigrationCanBreak | src/core/launch-ledger.js:117-124 | An empty first-version file that names an empty list of cleanups is readable and its migration is not. |
| LedgerTotals.CompletionOutweighsRecord | src/core/launch-ledger.js:403-437 | A tombstone with its cleanup outweighs the retiring record it replaces by at least 22 bytes. |
| LedgerLargest.LargestWithout | src/core/launch-ledger.js:415-421 | When a candidate leaves, the hundred largest lose what it exceeds the hundred-and-first by, which comes in for it, or nothing. |
| LedgerLargest.LargestShrinks | src/core/launch-ledger.js:415-421 | The hundred largest of candidates that have no more above any level do not take more. |
| LedgerMatching.ProjectionMatches | src/core/launch-ledger.js:388-422 | Within a hundred tombstones, the compact encoding leaves the list of cleanups out of the projected ledger exactly when it does so now. |
| LedgerMargin.CompletionFitsExactly | src/core/launch-ledger.js:363-437 | In the explicit encoding, and within a hundred tombstones in the compact one: a completion of a ledger that fits passes both checks exactly when its size, less the record and the oldest of a hundred tombstones, plus the tombstone and where they are named its cleanup, is within the limit. |
| LedgerMargin.CompletionFitsBeyond | src/core/launch-ledger.js:363-437 | The same for either encoding and any number of tombstones, with the lists of cleanups as written before and after; the projection never grows in the explicit encoding, and in the compact one only where it comes to name the cleanups. |
| LedgerMargin.CancellationFitsExactly | src/core/launch-ledger.js:363-422 | In the same cases a cancellation passes both checks exactly when the projection, less the tombstone to come (or what it exceeds the one by that then counts) and where they are named its cleanup, plus the owned record, is within the limit. |
| LedgerMargin.CancellationFitsBeyond | src/core/launch-ledger.js:363-422 | The same for either encoding and any number of tombstones, with the lists of cleanups as the projections before and after write them. |
| LedgerCapacity.SizeBelowPeak | src/core/launch-ledger.js:363-379 | Within a hundred tombstones, a ledger in the explicit encoding is never larger than what it will be with all its retirements completed. |
| LedgerCapacity.StepFits | src/core/launch-ledger.js:363-379 | Within a hundred tombstones, a completion or cancellation of a ledger that passed both size checks in the explicit encoding passes them again. |
| LedgerCapacity.ReservationSuffices | src/core/launch-ledger.js:363-437 | Within a hundred tombstones, once a ledger fits in the explicit encoding, every interleaving of completions and cancellations passes both size checks at every step, in either encoding. |
| LedgerShortfall.ReservationCanFallShort | src/core/launch-ledger.js:363-422 | A sound ledger of 999853 bytes that passes both size checks, with 99 tombstones and two retirements under way, whose first completion needs 1000073 bytes and is refused. |
| LedgerCompactShortfall.CompactCanFallShort | src/core/launch-ledger.js:363-422 | A sound ledger of 999971 bytes without tombstones, which is read back as compact and passes both size checks in that encoding, with two retirements under way: completing the one needs 1000084 bytes, cancelling the other raises the projection to 1000015, and both are refused. |
| LedgerAdmission.ClaimRecords | src/core/launch-ledger.js:64-75 | The first loop accepts exactly records with distinct identities and keys. |
| LedgerAdmission.ClaimRetirements | src/core/launch-ledger.js:77-86 | Going on over the tombstones, it accepts exactly those that share no identity or key with anything before. |
| LedgerAdmission.OwnAttempts | src/core/launch-ledger.js:97-103 | The loop over attempts accepts exactly distinct attempts. |
| LedgerAdmission.OwnCleanups | src/core/launch-ledger.js:104-111 | The loop over cleanups accepts exactly those that are for no recorded launch and share no attempt with another launch. |
| LedgerAdmission.Admit | src/core/launch-ledger.js:47-115 | `open` accepts exactly the documents whose ledger is sound. |
| LaunchLedger.Project | src/core/launch-ledger.js:403-422 | The projection loop computes the ledger with every retirement under way completed. |
| LaunchLedger.LaunchLedger.Open | src/core/launch-ledger.js:31-138 | Opening succeeds exactly for a readable file whose migration can be written, loads what the file says, and leaves an empty closed ledger otherwise. |
| LaunchLedger.LaunchLedger.Persist | src/core/launch-ledger.js:363-379 | The file is replaced exactly when both size checks pass and the write succeeds. |
| LaunchLedger.LaunchLedger.Reserve | src/core/launch-ledger.js:313-344 | Carries out its decision: stored in memory and file together, or neither; the file always reads back as the ledger. |
| LaunchLedger.LaunchLedger.Transition | src/core/launch-ledger.js:346-359 | Carries out its decision, or restores the record when it cannot be persisted. |
| LaunchLedger.LaunchLedger.BeginRetirement | src/core/launch-ledger.js:204-241 | Carries out its decision, or restores the record when it cannot be persisted. |
| LaunchLedger.LaunchLedger.CancelRetirement | src/core/launch-ledger.js:296-311 | Carries out its decision, or restores the record when it cannot be persisted. |
| LaunchLedger.LaunchLedger.CompleteRetirement | src/core/launch-ledger.js:243-271 | Carries out its decision; a failed write puts the same entries back, the record at the end. |
| LaunchLedger.LaunchLedger.CompleteCleanup | src/core/launch-ledger.js:273-294 | Carries out its decision; a failed write puts the same entries back, the cleanup at the end. |
| LedgerOrder.SameEntriesSound | src/core/launch-ledger.js:262-291 | A ledger with the same tombstones and the same records and cleanups in any order satisfies the same checks of `open`. |
| LedgerOrder.ReopenedIsSame | src/core/launch-ledger.js:31-138 | What is written is read back as the same entries, up to the order of the cleanups. |
| LedgerRuns.CarriedIsAStep | src/core/launch-ledger.js:204-359 | Whatever an operation of the object does, including the rollback of a failed write, is a step of a run. |
| LedgerRuns.RestartIsAStep | src/core/launch-ledger.js:31-138 | So is a crash followed by opening the file again. |
| LedgerRuns.ReachableIsSound | src/core/launch-ledger.js:31-138 | Every ledger reachable by its operations, failed writes and restarts satisfies all checks of `open` and reads back the same from either encoding. |
| LedgerRuns.StepKeeps | src/core/launch-ledger.js:204-359 | Every operation, rollback and restart keeps signatures and the holder of a key, unless it drops the oldest of a hundred tombstones. |
| LedgerRuns.HolderStays | src/core/launch-ledger.js:204-359 | A key once held stays held for the same launch and request until its tombstone is evicted. |
| LedgerRuns.ResubmissionIsIdempotent | src/core/launch-coordinator.js:98-153 | After a launch was reserved under a key, every later submission under it, across restarts too, is answered with that launch or refused, whatever is advertised, and none reserves again. |
| LedgerRuns.FinishedCleanupIsFinal | src/core/launch-ledger.js:273-293 | Once a cleanup has been finished, no later ledger of the run awaits it, failed writes and restarts included, unless the random identity of its launch is drawn again. |
| LedgerStages.StepMoves | src/core/launch-ledger.js:204-359 | Every operation moves every launch only along the protocol's stages: forward to `owned`, to `retiring` and back, and from `retiring` to the tombstone of the same key. |
| LedgerStages.StageNeverFallsBack | src/core/launch-ledger.js:204-359 | Over every run a launch never returns to `requested` or `creating`, and its tombstone keeps its key until it is dropped. |
| LaunchAdmission.HeldKeyIsReplayed | src/core/launch-coordinator.js:98-130 | While a record or tombstone holds a key, a submission is replayed exactly when it spells the same request and the key fences no unreleased retirement, and conflicts otherwise. |
| LaunchAdmission.FencedWhileHeld | src/core/launch-coordinator.js:155-362 | When a retirement and a submission are both admitted under one new key and the submission reserves it first, the ledger refuses the retirement, and the submission's own replay conflicts until the provider has released its part, and only until then. |
| LaunchAdmission.KeyCanBeHeldAndFenced | src/core/launch-coordinator.js:155-175 | There is such a ledger, retirement and submission. |
| LaunchAdmission.OvertakenIsReplayed | src/core/launch-coordinator.js:131-153 | A submission overtaken between its checks and its reservation concludes with the same launch exactly when it resolved to the same request, and writes nothing. |
| LaunchAdmission.AcceptedIsHeld | src/core/launch-coordinator.js:131-153 | A submission accepted as new holds its key for a request its payload spells out. |
| LaunchAdmission.OneHolder | src/core/launch-ledger.js:64-86 | A key has one holder. |
| CoordinatorLanes.CallsDoNotOverlap | src/core/launch-coordinator.js:533-562 | Two unsettled create, reconcile or retire calls to one provider are the same call: a job whose deadline has passed keeps its lane until its call settles. |
| CoordinatorLanes.StartInOrder | src/core/launch-coordinator.js:518-529 | Starting the first job whose provider is free overtakes no job of that provider. |
| CoordinatorLanes.Lanes.Enqueue | src/core/launch-coordinator.js:511-516 | A job is queued once, not while it is queued or active, and not while draining. |
| CoordinatorLanes.Lanes.Pump | src/core/launch-coordinator.js:518-543 | Terminates with four lanes in use or every queued job's provider busy; the counters equal the lanes held, at most one for each provider; each provider's jobs start in order. |
| CoordinatorLanes.Lanes.PumpRetirements | src/core/launch-coordinator.js:257-289 | The same for the retirement queue. |
| CoordinatorLanes.Lanes.TrackRetirement | src/core/launch-coordinator.js:239-255 | A retirement is queued behind the earlier ones and started if a lane is free. |
| CoordinatorLanes.Lanes.StartCall | src/core/launch-coordinator.js:566-592 | A job that has just started makes the one call of its life. |
| CoordinatorLanes.Lanes.Deadline | src/core/launch-coordinator.js:642-651 | When the deadline passes the job goes on without the answer, and its call stays unsettled. |
| CoordinatorLanes.Lanes.CallSettles | src/core/launch-coordinator.js:633-641 | A call settles, early or late, and its job is then answered or over. |
| CoordinatorLanes.Lanes.WorkEnds | src/core/launch-coordinator.js:552-563 | A job whose work has ended lingers while its call is unsettled, and is over otherwise. |
| CoordinatorLanes.Lanes.ReleaseLaunch | src/core/launch-coordinator.js:533-541 | A job gives up its lane exactly when it is over; no unsettled call of its is left, and no idle lane could be used by any waiting job. |
| CoordinatorLanes.Lanes.ReleaseRetirement | src/core/launch-coordinator.js:273-287 | The same for a retirement. |
| CoordinatorLanes.Lanes.Stop | src/core/launch-coordinator.js:210-232 | Stopping empties both queues and leaves the lanes in use. |
| InstallLock.MutualExclusion | src/installation.js:344-418 | For any number of processes and any interleaving with crashes, at most one is in the lock and its directory is at the path; a process id reads dead only if its process crashed with its owner file in place. |
| InstallLock.LiveLockIsNeverMoved | src/installation.js:391-416 | No step moves or removes the directory of a process that is in the lock or on its way in or out. |
| InstallLock.TakesKeeps | src/installation.js:391-416 | A takeover moves only the dead owner's own directory; otherwise its quarantine is occupied and the rename fails. |
| InstallLock.CrashedLockIsTakenOver | src/installation.js:383-418 | In every reachable state, the lock of a process that crashed in it can be taken over by any process that comes for it. |
| InstallLock.AbandonedBlocks | src/installation.js:362-376 | A directory whose maker crashed without a complete owner file keeps every process out for ever. |
| InstallLock.AbandonedIsReachable | src/installation.js:362-376 | A process that crashes right after creating the directory abandons it. |
| InstallLock.CleanExitBreaksExclusion | src/installation.js:383-415 | If an owner that released the lock and exited may read dead, two processes can be in the lock. |
| Installer.Disk.RecoverTransaction | src/installation.js:270-289 | Whatever fault strikes, recovery leaves the state alone and can be repeated; completed, no journal is left and pointer, launcher and state agree; without faults it completes unless the launcher is foreign. |
| Installer.Disk.Restore | src/installation.js:299-309 | Undoing an activation ends in the state before, or can be recovered. |
| Installer.Disk.Switch | src/installation.js:47-66 | From a fault at any write of an activation, the state is exactly that before or after it. |
| Installer.Disk.Install | src/installation.js:9-69 | An installation, over whatever an interrupted one left, ends in the state before or after it and can be recovered; done, everything agrees; a release that is there but invalid, or a launcher or its directory that cannot be used, refuses it, and without them it is done unless a fault strikes. |
| Installer.Disk.Rollback | src/installation.js:71-100 | A rollback ends in the state before or with the two releases exchanged, and can be recovered. |
| Installer.Disk.RollBackTwice | src/installation.js:71-100 | Two rollbacks restore the original pair. |
| Installer.Disk.InstallThenRecover | src/installation.js:270-289 | After a faulty installation and any number of faulty recoveries, a completed one leaves no journal, `current` equal to `state.current` or both absent, and the state before or after. |
| Installer.Disk.RollbackThenRecover | src/installation.js:71-100 | After a faulty rollback and any number of faulty recoveries, a completed one leaves no journal, `current` equal to `state.current`, and the two releases exchanged or not. |
| IncrementalParser.DrainAgain | src/adapters/codex-websocket-wire.js:91-100 | Consuming what is there before the rest arrives makes no difference. |
| IncrementalParser.ChunksDoNotMatter | src/adapters/codex-websocket-wire.js:91-100 | State and leftover bytes depend only on all the bytes, not on how they were cut. |
| WebSocketWire.ReaderIsStable | src/adapters/codex-websocket-wire.js:102-168 | Every decision of the handshake and frame readers is final: later bytes do not change it. |
| WebSocketWire.CodexWebSocketWire.ConsumeHandshake | src/adapters/codex-websocket-wire.js:102-134 | Accepts, waits or fails as the bytes up to the first blank line and the size limit say. |
| WebSocketWire.CodexWebSocketWire.HandleFrame | src/adapters/codex-websocket-wire.js:170-204 | Handles one frame as specified, keeping the byte count equal to the fragments kept. |
| WebSocketWire.CodexWebSocketWire.ConsumeFrames | src/adapters/codex-websocket-wire.js:136-168 | The loop takes exactly the steps the bytes allow. |
| WebSocketWire.CodexWebSocketWire.Receive | src/adapters/codex-websocket-wire.js:91-100 | After any chunk the wire is where all bytes so far lead, with nothing readable left. |
| WebSocketFrames.FrameReads | src/adapters/codex-websocket-wire.js:136-168 | An encoded server frame of any length is read as that frame, whatever follows. |
| WebSocketFrames.LegalStreamIsDelivered | src/adapters/codex-websocket-wire.js:170-204 | A legal stream keeps the wire open and delivers each message as the ordered join of its data fragments, control frames removed, with one pong for each ping. |
| WebSocketFrames.ServerIsHeard | src/adapters/codex-websocket-wire.js:91-204 | Handshake and frames in any chunks: nothing is left over, and messages and pongs are exactly those sent. |
| WebSocketFrames.MessagesAreBounded | src/adapters/codex-websocket-wire.js:155-160 | For any bytes at all, every delivered message is within the size limit. |
| WebSocketFrames.SendFrame | src/adapters/codex-websocket-wire.js:206-225 | The masking loop and header cases build the client frame. |
| WebSocketFrames.ClientFrameReadsBack | src/adapters/codex-websocket-wire.js:206-225 | For every mask and length, in all three length encodings, decoding and unmasking gives the opcode and payload back. |
| Bytes.XorUndone | src/adapters/codex-websocket-wire.js:223-224 | Masking twice with the same byte is the identity. |
| Bytes.BigEndianReadsBack | src/adapters/codex-websocket-wire.js:145-153 | A length written big-endian is read back. |
| ConnectFrames.Read | src/adapters/cursor-sdk-transport.js:539-580 | Below the byte cap the loop over any chunks yields what the whole stream says, complete exactly when nothing was refused or left over; above it the stream is refused. |
| ConnectFrames.EnvelopesRead | src/adapters/cursor-sdk-transport.js:551-575 | Well-formed envelopes, only the last flagged as the end, come out as they went in. |
| Registry.Compare | src/core/registry.js:467-480 | The events turn the previous listing into the next one, each tells a change that happened, and there are none exactly when nothing changed. |
| Registry.AgentRegistry.ApplyOutcome | src/core/registry.js:413-480 | The cache becomes the merged one, the events tell the whole change of the listing, and the revision rises by one exactly when it changed. |
| Registry.AgentRegistry.CompleteDiscovery | src/core/registry.js:526-542 | The cache becomes that of the normalised outcome; a discovery of a launch adapter that started before the set of owned launches changed adds no agent and removes none, whatever it found; every result keeps the fence. |
| Registry.AgentRegistry.Activate | src/core/registry.js:325-332 | Activating adds the owned launch and restores at most its own cached agent; the announcement tells the whole change exactly when the agent is listed and hides nothing that was, and the revision rises even when the listing stays as it was. |
| Registry.AgentRegistry.Deactivate | src/core/registry.js:334-338 | Deactivating evicts the agent and supersedes every discovery under way; its events tell the whole change exactly when the agent does not alone hide another, and the revision misses a change exactly when, besides, the agent was not listed. |
| Registry.MergedFenced | src/core/registry.js:526-542 | Every cached agent of a launch-capable adapter belongs to an active owned launch, whatever a discovery brings. |
| Registry.EvictionIsTold | src/core/registry.js:544-576 | The event of an eviction tells the whole change exactly when the evicted agent, with its process id, is not the only one that hides a process agent. |
| Registry.RestoringIsTold | src/core/registry.js:578-604 | The event of a restored agent tells the whole change exactly when it is listed and hides no listed agent. |
| Registry.EvictionCanReveal | src/core/registry.js:544-576 | A registry driven through a scan, a launch, its discovery and its retirement, after which a client that followed every event from the start misses the scanned process. |
| Registry.SameIsShownSame | src/core/discovery.js:4-22 | What is listed does not depend on the fields that do not count as a change. |
| Listing.AttentionIsATotalOrder | src/core/discovery.js:32-60 | `compareAgents` is antisymmetric, transitive, and zero only for equal ids. |
| Listing.CompareIsAnOrder | src/core/contracts.js:221-250 | In every sort and direction the comparison is total up to ties, and agents tie only if their ids agree once normalised, or at all in the order by attention. |
| Listing.SortSorts | src/core/registry.js:172-185 | The sorted list is in order, has the same agents, and keeps ties in the order they came. |
| Listing.ListingIsCanonical | src/core/registry.js:172-185 | Unless agents tie, the listing does not depend on the order in which they were discovered. |
| Listing.DifferentIdsSeparate | src/core/discovery.js:32-44 | By attention different ids are enough for that; the other orders need ids that differ once normalised. |
| Listing.TiesFollowTheOrder | src/core/contracts.js:221-235 | Two agents are listed in an order that depends on how they came exactly when they tie. |
| Listing.FollowCursors | src/core/contracts.js:199-219 | For every limit, sort and direction, following cursors at one revision ends and enumerates the sorted filtered list exactly once. |
| Listing.NextCursorLeadsOn | src/core/contracts.js:199-318 | The cursor a page ends with leads to the agents that follow it in the same list, under any new limit; at another revision it is stale, with another filter or order refused, and there is one exactly when agents are left. |
| Listing.Counts | src/core/contracts.js:262-267 | Exactly the values that occur are counted, each as often as it occurs. |
| Listing.CountsAddUp | src/core/contracts.js:252-260 | With statuses selected, their counts add up to the total of the page. |
| Listing.ProviderCountsAddUp | src/core/contracts.js:252-260 | And so with providers selected. |
| ActionExecutor.ActionExecutor.Execute | src/http/action-executor.js:43-87 | A remembered key is replayed or refused and never accepted again; an action is accepted exactly within both limits and queued last. |
| ActionExecutor.ActionExecutor.Pump | src/http/action-executor.js:123-168 | Only the head of a queue is started, and only once. |
| ActionExecutor.ActionExecutor.Settle | src/http/action-executor.js:128-158 | A running action settles once, and its key starts to expire. |
| ActionExecutor.ActionExecutor.Release | src/http/action-executor.js:159-167 | The settled head leaves, the count goes down by one, and the next starts. |
| ActionExecutor.ActionExecutor.Shutdown | src/http/action-executor.js:89-113 | Everything not started is settled as shut down, earlier settlements stay, what is unsettled is running, and every remembered key stays for the same action. |
| ActionExecutor.AcceptKeeps | src/http/action-executor.js:66-85 | Accepting keeps the queues ordered and bounded, every accepted action waiting or settled, and the waiting tickets counted. |
| ActionExecutor.CutKeeps | src/http/action-executor.js:93-101 | Removing an action keeps the queues in order and takes exactly its ticket from those that wait. |
| CanonicalJson.LexemesRead | src/adapters/cursor-artifacts.js:384-401 | Values with the same canonical form, whatever follows, are equal up to the order of keys. |
| CanonicalJson.SameLexemes | src/adapters/cursor-artifacts.js:384-401 | Values equal up to the order of keys have the same canonical form and size. |
| CanonicalJson.CanonicalDecidesSame | src/adapters/cursor-artifacts.js:384-401 | Two parsed values have the same lexemes exactly when they are equal up to the order of keys. |
| JsonText.TextRead | src/adapters/cursor-artifacts.js:384-401 | A canonical text has one reading: sequences of lexemes with the same text are the same. |
| JsonText.CanonicalTextDecidesSame | src/adapters/cursor-artifacts.js:384-401 | Two parsed values have the same canonical text, escapes included, exactly when they are equal up to the order of keys. |
| Transcripts.BoundMessages | src/adapters/cursor-artifacts.js:417-437 | The newest contiguous messages within all three limits, as many as fit; `truncated` exactly when the output differs from the input. |
| Transcripts.ReadableWhenComparable | src/adapters/cursor-artifacts.js:451-495 | Readable exactly when there are copies, all are valid, and of any two one is a prefix of the other. |
| Transcripts.OrderDoesNotMatter | src/adapters/cursor-artifacts.js:451-495 | So, unless two different copies have equally many records under keys that collate equal, the verdict does not depend on the order of the copies. |
| Transcripts.TiesFollowTheOrder | src/adapters/cursor-artifacts.js:451-495 | For any copies and any collation, the verdict depends on the order in which they were found exactly when they are readable and two different ones are both among the longest and under the least key of those. |

## Left out

- LedgerCapacity.ReservationSuffices: stated for ledgers that fit in the explicit encoding with at most a hundred tombstones kept and to come, and clocks that write timestamps no longer than those recorded, because beyond it fails (`LedgerShortfall.ReservationCanFallShort`, `LedgerCompactShortfall.CompactCanFallShort`); what holds instead is exact for each step (`LedgerMargin`), under the same condition on timestamps.
- LedgerCapacity.StepFits: the one step of the same, under the same conditions.
- LedgerCapacity.SizeBelowPeak: for the explicit encoding with at most a hundred tombstones; the same two ledgers are larger than their projections.
- InstallLock.MutualExclusion: each process makes one acquisition; identities of directories are never reused; other errors of the file system than those the code tells apart end the process.
- ConnectFrames.Read: a stream above the byte cap is refused at the chunk that exceeds it, so what was read before then does depend on the chunks.
- Installer.Disk.Install: a pointer that is no link, which only another program can put there, is not modelled; the activation that installation and rollback share is one method.
- Provenance: time stamps, the byte limit of the state file and the writer lease are not modelled.
- Launch protocol: releasing reservations at start-up may happen at any time, which allows more runs than the code; the bridge client appears through its dispositions, which `BridgeSends` traces to its calls.
- Bridge client: opening and closing it, its other requests, and what counts as a definitive error, which is a parameter.
- Launch submission: on values, the ledger before and after the awaited reservation being two states; the capabilities advertised by adapters are taken as normalised.
- Ledger: patches are those of the coordinator; JSON text, escapes and unknown fields are not modelled, nor the lock that makes one process the only writer.
- WebSocket wire: the HTTP header check and UTF-8 validity are parameters; callbacks that close the wire from within a message, failures of the output stream and the timeout of the handshake are not modelled.
- Registry: history, raw listings, repository contexts, adapter health and the circuit breaker; adapters other than launch adapters are taken to report their own source.
- Listing: text normalisation is a parameter, the search text and the view are one condition each, and a cursor is the value it encodes.
- Uninstalling: not crash-safe, since it removes the releases before the state that names them.
- Approvals of Codex, HTTP, tokens, metrics, logging, file permissions and the desktop adapters.

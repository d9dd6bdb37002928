# Verified models of rekey's crash-safe operator protocols

Rekey keeps its vault and policy engine in Rust crates. Around them stand operator scripts
that move data between machines: an audit delivery outbox, a policy command box, a backup
receiver, a Docker failover controller and an S3 archive. Each of them promises that it can
be killed anywhere, or lose power, or lose a reply, and still not do a thing twice, lose what
was acknowledged, or believe what was not confirmed. This project models those protocols, and
two small pieces of the macOS client, in Dafny 4.11, and proves what every run of them keeps.

`dafny verify dfyconfig.toml` checks the whole project.

## How the protocols are modelled

Every protocol has a world of values (files with what is synced and what is not, containers
and volumes, object versions, requests still under way), the actions that anyone may take on
it, and runs: sequences of worlds in which each step is an action. Lemmas about runs say what
holds at every moment of every run. The scripts' own functions are methods of classes whose
fields hold the world. A method may fail or be killed between any two of its primitive steps,
others act between them, and each of its steps must be proved to be an action that is allowed
at that moment; so the lemmas about runs hold of the methods.

| module | what it models |
|---|---|
| `Decimal` | decimal encodings of integers: canonical, injective, monotone in length |
| `WriteOnceDirectory` | publishing a file by partial file, sync, link, unlink, directory sync; crashes |
| `AuditExport`, `AuditOutbox`, `AuditDelivery`, `AuditRuns`, `AuditSender` | the audit delivery outbox |
| `AuditSearch`, `CommandStore`, `CommandRuns`, `CommandBox` | the policy command box and its paged audit search |
| `BackupStore`, `BackupReceiver` | the backup receivers and the `sync` driver |
| `DockerWorld`, `DockerController` | the Docker failover controller |
| `ArchiveStore`, `ArchiveHolds`, `ArchiveClient` | the S3 archive and legal holds |
| `PresenceContext` | the shared authentication context of the macOS client |
| `Releases` | release ordering and update selection |
| `Outcomes` | optional values, results, and outcomes of operations that may be killed |

Digests are constructors of a datatype, and so injective, or arbitrary functions. JSON values
are datatypes with a case for what the code refuses. Clocks, replies and the answers of
commands are arbitrary, within the bounds stated where they are used.

## Where the code does less than it promises

The model keeps the code as it is. Where a promise does not hold of it, a lemma gives the case
and another the exact condition.

- **Outbox writes under power loss.** A write killed between the unlink of its partial file
  and the directory sync leaves a name that later processes see and that is not durable. A
  power loss during a later write may then keep the newer name and lose the older one, after
  which no journal can be read (`AuditDelivery.AtomicExactlyWhenSettled`: a write is atomic
  exactly when no earlier name waits for its sync). For the same reason power loss can lower
  the cursor that a process reads (`AuditRuns.UnsyncedCursorCanRegress`): it can exactly when
  neither the last acknowledgement nor any file of the batch above it is durable
  (`AuditRuns.CursorHoldsExactly`), and without power loss the cursor never falls
  (`AuditRuns.CursorNeverFallsWithoutPowerLoss`).
- **Failure records under power loss.** In the same way a failure that is on record and not
  synced makes `send` refuse, until power loss takes the record and the batch can be sent again
  (`AuditSender.UnsyncedFailureCanBeSent`). A record ends transmission for good exactly when it
  is durable (`AuditSender.FailureHoldsExactly`), or as long as power is not lost
  (`AuditSender.FailureEndsTransmission`).
- **Legal holds under power loss.** `Journal.write` is killed in the same gap, and later calls go
  by a name that is not durable: they send the hold that the intent asks for, or return the
  receipt. Power loss then takes both names, and the same operation is carried out again with the
  other status (`ArchiveHolds.OperationCanRunTwice`). An intent that a call can see binds all later
  holds of its operation exactly when its name is durable, or that of the operation's receipt
  (`ArchiveHolds.IntentBindsExactly`); any file of the journal stays exactly when its name is
  durable (`ArchiveStore.StaysExactly`). If power loss takes the intent alone, another may be
  recorded beside the old receipt, which a finished operation then returns for the other status
  (`ArchiveHolds.ReceiptCanDisagree`); the two go on to agree exactly when the intent is durable
  (`ArchiveHolds.AgreeExactly`). Without power loss a visible name is enough
  (`ArchiveHolds.HoldsFollowAVisibleIntent`, `ArchiveStore.VisibleIsWrittenOnce`).
- **Legal holds and late requests.** A request whose reply was lost may arrive after another
  operation has read its own hold back and stored its receipt, and undo it
  (`ArchiveHolds.LateHoldUndoes`). A hold stands until another is asked for exactly when no
  request under way would change it (`ArchiveHolds.HoldStandsExactly`).
- **At most one dispatch.** `Box.__init__` syncs a parent directory only when it has just made
  a child. If it is killed between the two, no later process syncs that entry, and power loss
  can take the whole box with the intents in it, after which a command may be published and
  dispatched again (`CommandStore.PowerLossCanRepeat`). At the end of any run that has dispatched,
  and none twice, no sequence of calls and power losses dispatches a command twice exactly when the
  directories down to the commands are synced and each dispatched command either has an intent
  whose entry is synced, or has its directory, synced, without the two files to dispatch it
  (`CommandRuns.DispatchedOnceExactly`). If power was lost only before the first dispatch or while
  those directories were synced, no command is ever dispatched twice
  (`CommandStore.DispatchedAtMostOnce`).
- **`rejected`.** `execute` answers `rejected` only if it dispatched nothing. The last time
  check of `main` turns any finished answer except `unknown` into `rejected`. A call that
  dispatched, saw its policy live and found its audit event prints `rejected` if it is late
  (`CommandBox.LateRejection`). The printed word can hide a dispatch exactly for a late `apply` that
  found no intent (`CommandBox.RejectionIsHonestExactly`).
- **Backups before the root is synced.** A receiver makes an object visible and then syncs the
  root. Power loss in between can take the object, and its name then go to another
  (`BackupStore.AnotherTakesItsPlace`); a visible object stays exactly when its entry is on disk
  (`BackupStore.PublishedStaysExactly`), and no receiver says that it is verified before.
- **Release ordering.** `Int` reads `-5` as a number, which section 11 of Semantic Versioning
  2.0.0 calls alphanumeric, and does not read a numeric identifier of more than 64 bits. The
  comparator ranks a version as the standard does exactly when it has neither
  (`Releases.AgreesExactly`).
- **The order of the feed.** The comparator leaves `01` and `1` unordered
  (`Releases.UnorderedExactly`), and "unordered" is not transitive
  (`Releases.UnorderedIsNotTransitive`). The release offered is never below another
  (`Releases.Newest`), but of `1.0.0-1.7` and `1.0.0-01.9` it is the one that comes first
  (`Releases.OrderCanMatter`), and of three it can be the last although the second is not below
  any other (`Releases.FirstBestCanBePassedOver`). The order of the feed does not matter exactly
  when all releases that no other exceeds have the same tag (`Releases.OrderIndependentExactly`).

## Model

| member | source | states |
|---|---|---|
| `Decimal.DigitsOfValue` | scripts/rekey-audit-delivery.py:41-43 | a canonical numeral is the encoding of its value, so encoding and reading are inverse |
| `Decimal.LengthIsMonotone` | scripts/rekey-audit-delivery.py:302-306 | a larger number never has a shorter encoding, which is why reserving for 2^63-1 is enough |
| `WriteOnceDirectory.KilledAt` | scripts/rekey-audit-delivery.py:175-190 | after a kill at any step of `write` the documents are those before or after it, and reopening is refused exactly while the partial file is there |
| `WriteOnceDirectory.CrashIsAtomic` | scripts/rekey-audit-delivery.py:175-190 | after power loss at any step, the documents are those of some crash just before the write, with or without the new one; after the last step the new one is there |
| `WriteOnceDirectory.DurableExactly` | scripts/rekey-audit-delivery.py:184-188 | a visible name survives every power loss if and only if it is durable |
| `WriteOnceDirectory.Store.Write` | scripts/rekey-audit-delivery.py:175-190 | the disk is the one after some number of the six steps, all six when it returns; a taken name is never replaced |
| `AuditExport.ScanRows` | scripts/rekey-audit-delivery.py:255-264 | the scanning loop accepts rows exactly when they descend strictly and hold every sequence above the cursor up to the maximum; rows at or below the cursor may be missing |
| `AuditExport.ExportInfo` | scripts/rekey-audit-delivery.py:242-265 | the result, or which error, is the one that the definition of a complete export gives |
| `AuditExport.WindowExactlyOnce` | scripts/rekey-audit-delivery.py:255-265 | an accepted export holds each sequence of its window in exactly one row |
| `AuditExport.ValidateBatch` | scripts/rekey-audit-delivery.py:268-278 | a batch passes exactly when it is valid for the source and vault |
| `AuditOutbox.AckFitsReserve` | scripts/rekey-audit-delivery.py:302-306 | an acknowledgement with any timestamp up to 2^63-1 is no longer than the reserved receipt |
| `AuditOutbox.FailureFitsExactly` | scripts/rekey-audit-delivery.py:405-421 | a failure record with any timestamp is no longer than the reserved receipt if and only if its label fits in what that leaves |
| `AuditOutbox.DeliveredExactlyOnce` | scripts/rekey-audit-delivery.py:208-230 | in documents that the journal accepts, every sequence from 1 to the cursor, and no other, was acknowledged in exactly one batch and stands in exactly one row of it |
| `AuditOutbox.JournalIsDetermined` | scripts/rekey-audit-delivery.py:192-230 | the files determine the cursor and the pending batch |
| `AuditOutbox.Journal` | scripts/rekey-audit-delivery.py:192-230 | the journal reads exactly when acknowledged windows tile 1 to the cursor, at most one batch is pending just above it and no result is an orphan; it returns that cursor, that batch and the bytes in use |
| `AuditDelivery.WriteAdvances` | scripts/rekey-audit-delivery.py:292-307 | each write of `enqueue` and `send` takes a consistent outbox to a consistent one with the cursor and pending batch it stands for |
| `AuditDelivery.CapacityOverEveryRun` | scripts/rekey-audit-delivery.py:302-306 | over every run with crashes at every step the outbox stays within its limit, and recording a pending batch's result keeps it so |
| `AuditDelivery.WriteIsAtomic` | scripts/rekey-audit-delivery.py:130-137 | power loss at any step of a write to a synced outbox leaves the journal before or after it |
| `AuditDelivery.KillIsAtomic` | scripts/rekey-audit-delivery.py:130-137 | a kill at any step leaves the journal before it, the journal after it, or a partial file that makes opening refuse |
| `AuditDelivery.AtomicExactlyWhenSettled` | scripts/rekey-audit-delivery.py:175-190 | power loss during a write always leaves the journal before it or the journal after it if and only if no earlier name waits for its directory sync |
| `AuditRuns.DeliveredOverEveryKilledRun` | scripts/rekey-audit-delivery.py:192-230 | over every run of `enqueue` and `send`, killed at any step, also after an `init` that was killed before its directory sync, the journal can be read, the acknowledged windows partition 1 to the cursor with each sequence in one row of one batch, and at most one batch is pending |
| `AuditRuns.DeliveredOverEverySettledRun` | scripts/rekey-audit-delivery.py:192-230 | the same over every run with power losses, and after any further one, if the run and each write begin with a synced directory |
| `AuditRuns.CursorHoldsExactly` | scripts/rekey-audit-delivery.py:192-230 | no power loss lowers the cursor if and only if the last acknowledgement, or a file of the batch above it, is durable |
| `AuditRuns.CursorNeverDecreases` | scripts/rekey-audit-delivery.py:192-230 | from such a cursor no later step of any run, with any power losses, lowers it |
| `AuditRuns.SettledCursorNeverDecreases` | scripts/rekey-audit-delivery.py:192-230 | so from a synced directory |
| `AuditRuns.CursorNeverFallsWithoutPowerLoss` | scripts/rekey-audit-delivery.py:192-230 | between any two states of a run with no power loss between them the cursor does not fall, synced or not |
| `AuditRuns.UnsyncedCursorCanRegress` | scripts/rekey-audit-delivery.py:184-188 | an acknowledgement that is linked but not synced shows a cursor that power loss takes back |
| `AuditSender.Outbox.Enqueue` | scripts/rekey-audit-delivery.py:292-307 | on success the new batch is pending on a synced disk, above the cursor read before; each refusal has its reason in the outbox or the export and changes nothing |
| `AuditSender.Outbox.Handle` | scripts/rekey-audit-delivery.py:393-421 | what each reply leads to: a sequence only for a valid acknowledgement that is written, a recorded failure, or a retry that changes nothing |
| `AuditSender.Outbox.Attempts` | scripts/rekey-audit-delivery.py:391-427 | at most three calls with the same batch, each started after the loop was entered and before the deadline with a timeout that ends by it, and every pause over before it |
| `AuditSender.Outbox.Send` | scripts/rekey-audit-delivery.py:386-427 | nothing is sent unless a batch is pending without a failure on record; all calls start within the 35 seconds before the deadline and end by it; a sequence is returned only with its acknowledgement written and synced |
| `AuditSender.FailureEndsTransmission` | scripts/rekey-audit-delivery.py:389-390 | once a failure is on record, synced or not, no later state of a run lets `send` transmit anything as long as power is not lost |
| `AuditSender.DurableFailureEndsTransmission` | scripts/rekey-audit-delivery.py:389-390 | once the record is durable, no later state of any run does, with any power losses |
| `AuditSender.FailureHoldsExactly` | scripts/rekey-audit-delivery.py:389-390 | no power loss makes a batch with a failure on record sendable if and only if the record is durable |
| `AuditSender.UnsyncedFailureCanBeSent` | scripts/rekey-audit-delivery.py:184-188 | a failure that is linked but not synced stops `send`, and power loss makes the batch sendable again |
| `AuditSearch.AuditEvidence` | scripts/rekey-controlplane.py:559-595 | over any pager, at most ten calls, each with an accepted page except the last of a search that fails, under one snapshot with falling cursors; it returns the last match of the first page that has one, and fails only when what it accepted holds none and it cannot go on |
| `AuditSearch.SearchIsDetermined` | scripts/rekey-controlplane.py:559-595 | the pager's answers determine the pages accepted and the result |
| `AuditSearch.AcceptedRowsFall` | scripts/rekey-controlplane.py:573-583 | over any pager the accepted rows fall strictly across all pages: none is taken twice or out of order |
| `AuditSearch.FaithfulSearch` | scripts/rekey-controlplane.py:559-595 | over a pager that serves one log 25 rows at a time, the search succeeds exactly when a match is among the newest 250 rows |
| `CommandStore.Wrote` | scripts/rekey-controlplane.py:329-361 | a write, complete or killed, changes nothing else; complete, the file and its name are synced |
| `CommandStore.DispatchedAtMostOnce` | scripts/rekey-controlplane.py:644-672 | over every run of calls, killed anywhere, each command is dispatched at most once; also under power loss while the box's directories are synced |
| `CommandStore.IntentSurvives` | scripts/rekey-controlplane.py:223-242 | an intent survives every power loss if and only if the directories above its command's are synced |
| `CommandStore.PowerLossCanRepeat` | scripts/rekey-controlplane.py:223-242 | the run, call by call, in which an opening killed before its sync and a power loss let a command be dispatched twice |
| `CommandRuns.DispatchedOnceExactly` | scripts/rekey-controlplane.py:223-242 | at the end of every run with a dispatch and none repeated, no sequence of calls, killed anywhere, and power losses dispatches a command twice if and only if the directories down to the commands are synced and every dispatched command has a synced intent, or a synced directory without the files to dispatch it |
| `CommandStore.EveryDispatchIsBound` | scripts/rekey-controlplane.py:420-425 | in every run each dispatch follows a preflight of its target, uses the file whose digest its command names, and was within its lifetime and its node's registration when these were last checked |
| `CommandStore.ReceiptsStayGood` | scripts/rekey-controlplane.py:598-621 | every receipt that can be read, after any crashes, passes the checks on stored receipts and was witnessed by an exact live status and a matching audit event when it was stored |
| `CommandBox.Box.Open` | scripts/rekey-controlplane.py:212-246 | opening only adds directories, and leaves all of them there and synced unless it found one that was not synced |
| `CommandBox.Box.Publish` | scripts/rekey-controlplane.py:399-417 | it succeeds only with exactly this artifact and its bindings in the box; an existing command directory is not touched |
| `CommandBox.Box.ReadCommand` | scripts/rekey-controlplane.py:420-425 | the command returned is the bindings of the artifact that is on disk |
| `CommandBox.Box.HistoricalReceipt` | scripts/rekey-controlplane.py:598-621 | a stored receipt is used only if valid for the command, and then it and its name are synced |
| `CommandBox.Box.Observe` | scripts/rekey-controlplane.py:624-641 | it dispatches and stores nothing, and confirms only by a receipt witnessed in this call or by a valid stored one |
| `CommandBox.Box.Execute` | scripts/rekey-controlplane.py:644-692 | each call does only what the run lemmas allow; `applied` rests on evidence of this call, or on a stored receipt that was witnessed; `rejected` means that this call dispatched nothing; with an intent present nothing is dispatched |
| `CommandBox.Box.Invoke` | scripts/rekey-controlplane.py:695-733 | a whole invocation is an allowed call that dispatches only its own command, and only to apply it without an intent there; it prints `rejected` without a dispatch, or its justified answer, rewritten if late |
| `CommandBox.RejectionIsHonestExactly` | scripts/rekey-controlplane.py:719-731 | over all invocations and answers, a printed rejection can hide a dispatch if and only if it comes late, of an `apply` that found no intent |
| `CommandBox.LateRejection` | scripts/rekey-controlplane.py:719-731 | a call that dispatched and confirmed its command prints `rejected` when it is late |
| `BackupStore.VisibleIsComplete` | scripts/rekey-backup-sync.py:117-159 | at every moment of every run, after any power loss, a visible object is complete, synced, and its artifact is the one its receipt names |
| `BackupStore.FirstPublishedStays` | scripts/rekey-backup-sync.py:153-158 | the first object published under a name is never replaced or changed by any receiver; only power loss before its entry is on disk can take it |
| `BackupStore.PublishedStaysExactly` | scripts/rekey-backup-sync.py:153-158 | a visible object stays, through everything that receivers, uploads and power loss may do, if and only if its entry is on disk |
| `BackupStore.AnotherTakesItsPlace` | scripts/rekey-backup-sync.py:153-158 | otherwise it can be lost, and its name be taken by any other object |
| `BackupStore.VerifiedSurvives` | scripts/rekey-backup-sync.py:145-161 | an object that was verified survives every later crash with the expected receipt and its artifact |
| `BackupStore.VerifiersAgree` | scripts/rekey-backup-sync.py:169-182 | any two receivers that verify one name expected equal receipts |
| `BackupStore.SafeToRenameExactlyWhenSynced` | scripts/rekey-backup-sync.py:147-156 | renaming a directory into view is safe from power loss if and only if its files and their entries are synced first |
| `BackupReceiver.ReadReceipt` | scripts/rekey-backup-sync.py:136-141 | the reading loop, with reads of any length, returns the whole file, or nothing if it exceeds 64 KiB |
| `BackupReceiver.Remote.DurableObject` | scripts/rekey-backup-sync.py:117-164 | among others' uploads it verifies only an object that is then visible, durable and matches the expected receipt |
| `BackupReceiver.Remote.Receive` | scripts/rekey-backup-sync.py:165-183 | the receiver asks for an upload only when the name is free, and says verified only when the object is |
| `BackupReceiver.Remote.CheckObject` | scripts/rekey-backup-sync.py:117-146 | among others' uploads the object that passes has exactly the two files, the expected receipt within 64 KiB and the artifact that it names |
| `BackupReceiver.Remote.Sync` | scripts/rekey-backup-sync.py:186-218 | a driver that ends well has counted the entries that do not begin with a dot, and all of them are verified at its end |
| `DockerWorld.AtMostOneBroker` | scripts/rekey-docker-ha.py:185-234 | in every reachable state, with commands carried out late, at most one container runs a broker |
| `DockerWorld.OldPrimaryStaysAway` | scripts/rekey-docker-ha.py:185-234 | when a broker is started on another container than before, the old one is gone, and it never comes back |
| `DockerWorld.BrokerIsPrimary` | scripts/rekey-docker-ha.py:217-234 | a broker that runs while the phase is `ready` is the recorded primary's, on its volume |
| `DockerWorld.AcknowledgedWritesSurvive` | scripts/rekey-docker-ha.py:194-234 | every write ever acknowledged is in the recorded primary's volume whenever the phase is `ready` |
| `DockerWorld.ReadyIsWellFormed` | scripts/rekey-docker-ha.py:100-107 | whenever the saved phase is `ready` the nodes and volumes differ and the generation is one plus the completed promotions |
| `DockerWorld.PointerIsVerified` | scripts/rekey-docker-ha.py:158-183 | a saved replica pointer always leads to a snapshot with the recorded digest and to its receipt, both synced, that nothing will remove, though containers that die may lose what was not synced |
| `DockerController.Controller.NewNode` | scripts/rekey-docker-ha.py:100-118 | the saved state gains exactly the name of the new node's volume; the node is new and so is its volume |
| `DockerController.Controller.Fence` | scripts/rekey-docker-ha.py:185-192 | it succeeds only when the old primary is absent and its volume attached nowhere, and then no broker can be running |
| `DockerController.Controller.CopyFinalState` | scripts/rekey-docker-ha.py:194-215 | the standby's volume becomes what the fenced volume holds, with every acknowledged write |
| `DockerController.Controller.Promote` | scripts/rekey-docker-ha.py:217-234 | when it comes off, the former standby is the primary, the generation is one more and the cluster is `ready`; it starts only right after a health check that returned false, and its broker only after the fence |
| `DockerController.Controller.Replicate` | scripts/rekey-docker-ha.py:142-183 | it succeeds with a verified replica on the standby under a new name; an error leaves the cluster as remembered with that replica or the previous one |
| `DockerController.Controller.Healthy` | scripts/rekey-docker-ha.py:236-246 | well means that the broker answered that it is unlocked; a broker that answers that it is locked is an error, not a reason to promote; anything else is noted as unhealthy |
| `DockerController.Controller.Tick` | scripts/rekey-docker-ha.py:248-259 | every promotion follows a health check that returned false, also after a failed replication, which otherwise ends the tick |
| `DockerController.Controller.Supervise` | scripts/rekey-docker-ha.py:328-352 | it does nothing unless the saved phase is `ready` |
| `DockerController.Controller.Create` | scripts/rekey-docker-ha.py:262-285 | a created cluster is `ready` at generation one with no replica |
| `ArchiveStore.AtMostOneVersion` | scripts/rekey-audit-archive.py:377-386 | over any number of runs, crashes, lost replies and late requests the object never has two versions |
| `ArchiveStore.UploadsAreIdentical` | scripts/rekey-audit-archive.py:363-386 | every upload of every run is conditional and the same in bytes, mode, date and hold |
| `ArchiveStore.PinnedVersionIsFixed` | scripts/rekey-audit-archive.py:321-323 | whenever a version is pinned it is the same one, even if power loss made it be pinned again |
| `ArchiveStore.WrittenAtMostOnce` | scripts/rekey-audit-archive.py:246-264 | a durable journal file keeps its contents through every later step, with power losses, and is never written again |
| `ArchiveStore.VisibleIsWrittenOnce` | scripts/rekey-audit-archive.py:246-264 | so does a file that a call can see, synced or not, as long as power is not lost |
| `ArchiveStore.StaysExactly` | scripts/rekey-audit-archive.py:246-264 | a file that a call can see stays as it is, whatever follows, if and only if its name is durable |
| `ArchiveStore.ReceiptIsVerified` | scripts/rekey-audit-archive.py:388-398 | a receipt has the stored plan's terms and names the only version, whose checksum and retention are as planned and were read back, as was the hold |
| `ArchiveHolds.EveryHoldIsJustified` | scripts/rekey-audit-archive.py:429-440 | in every run a hold is sent only by a call that finds its operation's intent and no receipt of it, and has just read, of the intent's version, the hold that the intent recorded, which is not the one it wants |
| `ArchiveHolds.HoldsFollowTheIntent` | scripts/rekey-audit-archive.py:413-440 | once an intent is durable, every hold that its operation sends in any later state has the intent's version and status and directly follows a read of the recorded hold; with a durable receipt it sends none |
| `ArchiveHolds.HoldsFollowAVisibleIntent` | scripts/rekey-audit-archive.py:413-440 | as long as power is not lost, so it is from the moment that a call can see the intent, and a visible receipt ends the operation |
| `ArchiveHolds.IntentBindsExactly` | scripts/rekey-audit-archive.py:413-440 | a visible intent fixes every hold that its operation ever sends if and only if its name, or that of the operation's receipt, is durable |
| `ArchiveHolds.OperationCanRunTwice` | scripts/rekey-audit-archive.py:258-264 | from any open journal, the run in which one operation stores an intent and a receipt, killed before each directory sync, and after power loss sends and records the opposite |
| `ArchiveHolds.AgreeExactly` | scripts/rekey-audit-archive.py:421-437 | the receipt of an operation goes on to have its intent's status if and only if the intent is durable |
| `ArchiveHolds.ReceiptCanDisagree` | scripts/rekey-audit-archive.py:421-437 | otherwise a journal can come to hold, durably, a receipt of one status and an intent of the other |
| `ArchiveHolds.HoldStandsExactly` | scripts/rekey-audit-archive.py:432-440 | the version's hold stays until another is asked for if and only if no request under way would change it |
| `ArchiveHolds.LateHoldUndoes` | scripts/rekey-audit-archive.py:432-440 | a request of one operation that arrives late undoes the hold of another that has its receipt |
| `ArchiveStore.AdmissionLeavesRoom` | scripts/rekey-audit-archive.py:246-250 | every admitted intent leaves room for its receipt if and only if the two together fit in 64 KiB |
| `ArchiveClient.Archiver.WriteDoc` | scripts/rekey-audit-archive.py:246-264 | it refuses exactly when there is no room, and on success adds one synced document |
| `ArchiveClient.Archiver.Observed` | scripts/rekey-audit-archive.py:311-337 | it succeeds only after checksum and retention were read back as planned and the hold was read, for the pinned version or the one it pins |
| `ArchiveClient.Archiver.Archive` | scripts/rekey-audit-archive.py:349-398 | the receipt returned is the one stored, verified against the only version; an earlier receipt is returned unchanged |
| `ArchiveClient.Archiver.LegalHold` | scripts/rekey-audit-archive.py:413-451 | a finished operation returns its original receipt, of the status asked for if it agrees with the intent, sends nothing and syncs nothing, so its receipt is as durable as it was found; a new one ends with the hold read back as asked and everything durable, and lacks room only if its two records exceed 64 KiB |
| `PresenceContext.EveryStateIsConsistent` | apps/macos/PresenceKey.swift:10-42 | in every interleaving the cached context is not an invalidated one |
| `PresenceContext.DroppedForGood` | apps/macos/PresenceKey.swift:25-37 | a dropped context is never cached again, whatever succeeds late |
| `PresenceContext.OneVault` | apps/macos/PresenceKey.swift:12-16 | a context serves one vault only |
| `PresenceContext.ExpiryIsSetOnce` | apps/macos/PresenceKey.swift:25-28 | an expiry, once set, is neither changed nor extended |
| `PresenceContext.ExpiryIsFirstSuccess` | apps/macos/PresenceKey.swift:25-28 | it is ten seconds after the first success with that context |
| `PresenceContext.TenSecondLimit` | apps/macos/PresenceKey.swift:12-22 | a read that starts ten seconds or more after that success gets a new context |
| `PresenceContext.ReusedExactly` | apps/macos/PresenceKey.swift:10-42 | over every run, a read reuses an earlier read's context if and only if it is for the same vault, nothing between them took the context's place, and no success with it is ten seconds old |
| `PresenceContext.PresenceReadContext.Read` | apps/macos/PresenceKey.swift:10-38 | a read, with others' sections between its own, takes the steps of the state machine that the lemmas above are about |
| `PresenceContext.PresenceReadContext.Invalidate` | apps/macos/PresenceKey.swift:40-42 | so does an invalidation |
| `Releases.LessIsStrictOrder` | apps/macos/Updater.swift:18-30 | `<` is irreflexive, asymmetric and transitive on everything `init` accepts |
| `Releases.UnorderedExactly` | apps/macos/Updater.swift:18-30 | which pairs it leaves unordered |
| `Releases.Trichotomy` | apps/macos/Updater.swift:18-30 | on canonical identifiers it orders any two different versions |
| `Releases.AgreesExactly` | apps/macos/Updater.swift:18-30 | a version is ranked as section 11 of Semantic Versioning 2.0.0 ranks it, against all conforming ones, if and only if `Int` reads exactly its numeric identifiers |
| `Releases.NegativeNumberDisagrees` | apps/macos/Updater.swift:22-27 | `1.0.0--5` is below `1.0.0-1` for the comparator and above it for the standard |
| `Releases.ParseRender` | apps/macos/Updater.swift:8-17 | reading a rendered version yields it, whatever build metadata follows |
| `Releases.ParseImage` | apps/macos/Updater.swift:8-17 | exactly the well-formed versions can be read |
| `Releases.Newest` | apps/macos/Updater.swift:55-67 | what is offered is eligible, above the installed version, and no eligible release exceeds it; nothing is offered exactly when none is eligible |
| `Releases.OrderIndependentExactly` | apps/macos/Updater.swift:55-67 | every order of a feed leads to the same offer if and only if all its releases that no other exceeds have the same tag |
| `Releases.OrderCanMatter` | apps/macos/Updater.swift:62-63 | of `v1.0.0-1.7` and `v1.0.0-01.9` the one that comes first is offered |
| `Releases.FirstBestCanBePassedOver` | apps/macos/Updater.swift:62-63 | nor is it always the first release that no other exceeds that is offered, by three releases |
| `Releases.OfferIsGreatest` | apps/macos/Updater.swift:55-67 | if every number in the eligible versions is spelled canonically, the version offered is the greatest, whatever the order |

## Left out

- AuditSender.Outbox.Handle: the labels of the transport's errors are taken to have at most 240 characters; the scripts' own labels are far shorter.
- AuditSearch.FaithfulSearch: pages are full; the audit service may end a page early when its bytes run out, and then fewer than 250 rows are reached.
- CommandBox.Box.Write: the box's byte and count limits are modelled as failures that may happen at any write, not as arithmetic; that every published command can later store its receipt is not claimed.
- CommandBox.Box.Execute: the CLI's exit code and error code, which are copied into the answer, are not modelled.
- BackupStore.VerifiedSurvives: the root directory itself is taken to be durable, as its parent is never synced.
- BackupReceiver.Remote.Upload: an upload is taken to be over when its driver asks to publish, and stages to have distinct names, as the drivers' random identifiers make them.
- DockerWorld.AtMostOneBroker: containers of other tools are taken not to run brokers on the cluster's volumes.
- DockerController.Controller.WriteCluster: `cluster.json` is replaced at once or the controller dies; power loss on the controller's host is not modelled.
- Releases.LessIsStrictOrder: text is compared by character; Swift's ordering of text outside ASCII is not modelled.
- Ownership, permission, inode and symbolic link checks are not modelled, nor replacement of paths by others.
- Network transport, TLS, signing, terminals and child processes are arbitrary replies with arbitrary delays.
- `destroy` of the Docker controller, `verify` of the archive and `export` of the backup script only add straight-line steps.
- Credential reflection checks and profile loading are not part of the models.
- Presence prompts, Keychain and the views around them are not part of the models.

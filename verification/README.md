# ComposeBastion protocols in Dafny

Models of the protocols, codecs and scanners at the heart of ComposeBastion, with proofs of what they
promise. Each module models one component. Where the program changes state step by step, the model
does: a class or a method with loops, proved against a function or a state machine whose properties
are then proved as lemmas over all inputs, all runs and all reachable states. In the state machines
every database statement, transaction, remote call and system call is one step; a call may take effect
and lose its reply, a process may stop before any step, and everybody else may act between two steps.

- **Encrypted backups** (`Bytes`, `Chunking`, `BackupFormat`, `BackupEncrypt`, `BackupDecrypt`,
  `BackupCodecTheorems`, `BackupKeyring`). The byte framing is concrete; the authenticated cipher
  (interface of section 2 of RFC 5116), the JSON text of the header, base64url and the digest are
  functions with stated laws. `BackupPlain` has functions that meet the laws, with a sealer and a keyring
  for every key the parser makes. The other modules that state a law have a lemma that it can be met.
- **Capture of a backup** (`CaptureProtocol`, `CaptureFencing`, `CaptureConservation`, `CaptureLosses`,
  `CaptureDurability`, `CaptureRun`). Attempts, the orphan reconciler, the deleter and the job layer with its
  lease share a record, a ledger of write intents and orphans, and the remote store. An upload request whose
  call failed and a commit whose reply was lost may still take effect.
- **Deletion of a backup** (`DeletionProtocol`, `DeletionRun`). The first deleter and the reconcilers
  that take over from it, against the admission of jobs and against captures.
- **Restore into a volume** (`RestoreOwnership`). The attempt, its own cleanup and the deferred one of the
  restore ledger, against whoever else uses the name, with a clock.
- **Docker commands** (`JsText`, `ShellTokens`, `DockerCommands`, `DockerActions`). The manager's
  printer, the agent's tokenizer and parser.
- **Deployment intents** (`DeploymentIntent`).
- **The agent** (`AgentLedger`, `EventStream`). The operation ledger behind a lossy link, and the
  incremental line and event parsers.
- **Diagnostic texts** (`DiagnosticText`, `DiagnosticSchemes`, `FieldRewrite`).
- **Ownership walk** (`OwnershipWalk`), **migration runner** (`MigrationRunner`), **scheduler**
  (`Scheduler`).

`Runs` has the runs of a state machine given by a step function, `Wrappers` the result types.

## What does not hold

Five promises turned out to need a condition. Each has lemmas with concrete runs or values that break it,
and a lemma that says exactly when it holds.

- An uploaded object can be left without a ledger row and without the record's name. From every state that
  careful steps lead to, a step makes this possible exactly when it is not careful
  (`CaptureLosses.LosesExactly`), and a run is safe exactly when all of its steps are careful
  (`CaptureLosses.RunIsSafeExactly`). A step is not careful in three cases.
  - It commits over the locator of an object that is still stored, unless a ledger row that nobody is about
    to drop keeps it: a second committed capture of one record loses the first capture's object
    (`CaptureLosses.SecondCommitLosesTheFirstObject`).
  - It claims a ledger row while the upload that the row stands for is outstanding. A backup capture never
    renews the claim made with its write intent (`apps/api/src/services/backups.ts:2006-2024`;
    `renewRemoteArtifactWriteIntent` is called only at `apps/api/src/services/recoveryCenter.ts:336`), so an
    upload may outlive the five minutes of that claim (`CaptureLosses.LateUploadLosesTheObject`).
  - The deletion that answers a failed upload call is confirmed while the request is still on its way; the
    row is then cleared and the object appears afterwards (`CaptureLosses.FailedUploadLosesTheObject`).

  The step at which the object is lost is told by `CaptureConservation.StepConservesExactly`.
  `CaptureConservation.Timely` is a bound on the upload request that rules the last two cases out.
- A record that is not being deleted can name an object that is not there, and an answer "not committed" can
  be overturned. Reading the record back takes no lock, so it may come before a commit whose reply was lost;
  the compensation then deletes the object, and the commit names it
  (`CaptureDurability.LateCommitNamesADeletedObject`). The answer stays true exactly unless that transaction
  may still commit (`CaptureDurability.VerdictStaysExactly`), and committed objects last exactly in runs in
  which no attempt takes the answer while it may (`CaptureDurability.VanishesExactly`,
  `CaptureDurability.RunIsDurableExactly`).
- A listed scheme name with its colon can be left unsanitized. The names are joined into a regular expression
  as they are, so that the plus sign of `mongodb+srv` repeats the letter before it: the text
  `mongodb+srv:u:p@h` comes back with its password (`DiagnosticSchemes.MongoSrvIsMissed`), and
  `mongodbsrv:` is matched although it is not listed (`DiagnosticSchemes.UnlistedNameIsMatched`). Every listed
  name with its colon is matched, this one exactly when two slashes follow
  (`DiagnosticSchemes.ListedNameMatchesExactly`); `DiagnosticSchemes.ListedNameIsRewrittenExactly` says when
  one is rewritten all the same.
- `sanitizeGitRepositoryUrlFields` replaces an array or object under a repository or source-locator
  key by null (`FieldRewrite.NestedLocatorIsLost`); it keeps every array length and entry count exactly
  when there is none (`FieldRewrite.ShapeIsKeptExactly`).
- A restore can extract into, or its cleanup remove, a volume that is not its own. From every state that
  settled steps lead to, a step makes this possible exactly when it starts a cleanup while the extraction or an
  earlier removal may still act: outside the restore ledger at a lost reply, with the ledger when the deferred
  cleanup comes up or a failed one is taken up again (`RestoreOwnership.EscapesExactly`,
  `RestoreOwnership.RestoreIsSafeExactly`). The ledger cannot see whether a command is over; it waits eleven
  minutes from the lost reply, or from the attempt's heartbeat when nobody noted the lost reply. A command that
  acts after that escapes too (`RestoreOwnership.LateExtractionEscapes`,
  `RestoreOwnership.OverlongExtractionEscapes`, `RestoreOwnership.LateRemovalEscapes`).

Two further observations. An intent whose ciphertext is longer than 4 MiB is stored but cannot be read
back (`DeploymentIntent.StoredIntentIsReadBack`). `runVolumeBackup` and `runHostPathBackup` return
`completeBackupAfterCapture(...)` without awaiting it (`apps/api/src/services/backups.ts:2927`, `:3077`), so
that neither their failure handler nor their clean-up of the attempt directory waits for it: the directory goes
while it may be the only place that has the archive (`CaptureRun.RunBackupUnawaited`,
`CaptureLosses.OnlyTheDirectoryHasTheArchive`). `CaptureRun.RunBackup` has the awaited order.

## Model

| member | source | states |
|---|---|---|
| BackupEncrypt.Sealer.SealFrame | apps/api/src/services/backupEncryption.ts:178-206 | a sealed frame opens under the same session, index and final flag to its plaintext |
| BackupEncrypt.Sealer.EncryptedIsHeaderAndFrames | apps/api/src/services/backupEncryption.ts:119-133 | the ciphertext is one header and max(1, ceil(n/65536)) numbered frames, all full except possibly the last, whose plaintexts concatenate to the input |
| BackupEncrypt.BackupEncryptTransform.Transform | apps/api/src/services/backupEncryption.ts:256-269 | a write emits exactly the frames that the bytes written so far force out, below 2^32 frames |
| BackupEncrypt.BackupEncryptTransform.Flush | apps/api/src/services/backupEncryption.ts:271-280 | flushing completes the output to the unbuffered description of the whole stream |
| BackupEncrypt.EncryptWrites | apps/api/src/services/backupEncryption.ts:229-281 | every split of the plaintext into writes yields the same encryption of the whole |
| BackupDecrypt.NextIgnoresTail | apps/api/src/services/backupEncryption.ts:319-372 | a decoder step that takes or refuses something does not depend on bytes behind it |
| BackupDecrypt.ChunkInvariance | apps/api/src/services/backupEncryption.ts:296-305 | output and verdict of feeding chunks are those of the concatenated input |
| BackupDecrypt.BackupDecryptTransform.DrainFrames | apps/api/src/services/backupEncryption.ts:319-372 | the buffering loop emits and refuses exactly what the step-by-step reader does |
| BackupDecrypt.BackupDecryptTransform.Flush | apps/api/src/services/backupEncryption.ts:307-317 | end of input is accepted exactly after a header, whole frames and a final frame |
| BackupDecrypt.DecryptChunks | apps/api/src/services/backupEncryption.ts:283-373 | the pipeline's verdict and output are those of decoding the concatenated input |
| BackupCodecTheorems.AcceptedLanguage | apps/api/src/services/backupEncryption.ts:319-372 | an input is accepted with a plaintext exactly when it is a header and an authentic body of that plaintext |
| BackupCodecTheorems.RoundTrip | apps/api/src/services/backupEncryption.ts:229-373 | decrypting an encryption under any keyring that still has the key gives the plaintext |
| BackupCodecTheorems.EncryptThenDecrypt | apps/api/src/services/backupEncryption.ts:229-373 | the same through both transforms, for every split of the plaintext and every re-split of the ciphertext |
| BackupCodecTheorems.TrailingBytesAreRejected | apps/api/src/services/backupEncryption.ts:337-340 | an accepted stream with anything behind it is rejected |
| BackupCodecTheorems.StrictPrefixesAreRejected | apps/api/src/services/backupEncryption.ts:307-317 | every strict prefix of an accepted stream is rejected |
| BackupCodecTheorems.OnlyTheOriginalOrderIsAccepted | apps/api/src/services/backupEncryption.ts:348-350 | of all ways to drop, repeat and reorder the frames of a stream only the original order is accepted |
| BackupKeyring.PiecesOfJoined | apps/api/src/services/backupEncryption.ts:81-85 | cutting the setting at its commas undoes joining pieces with commas |
| BackupKeyring.ParseBackupEncryptionKeyring | apps/api/src/services/backupEncryption.ts:53-108 | succeeds exactly when every entry is well formed, ids and fingerprints are distinct and the active id is configured; the ring then holds exactly those keys under both names |
| ShellTokens.Tokenize | apps/agent/src/security.ts:24-89 | the index loop accepts and yields exactly what the grammar does |
| ShellTokens.ScanQuoted | apps/api/src/services/commands.ts:3-5 | a quoted value of any characters is read back as itself |
| ShellTokens.PrintParse | apps/agent/src/security.ts:24-89 | a printed list of words, operators and blanks tokenizes to what it stands for, refused exactly for an empty quoted word |
| ShellTokens.QuotedWordsComeBack | apps/api/src/services/commands.ts:3-5 | space-joined quoted non-empty words come back as those words with no operator among them |
| DockerCommands.ParsePermittedDockerCommand | apps/agent/src/security.ts:131-148 | the parser computes the permitted command |
| DockerCommands.ParseIsCanonical | apps/agent/src/security.ts:91-129 | the parser accepts exactly one token sequence for each well-formed command |
| DockerCommands.PermittedExactly | apps/agent/src/security.ts:131-148 | a text is executed as a command exactly when the command is well formed and the text has its tokens |
| DockerCommands.ReprintIsStable | apps/agent/src/security.ts:95-148 | printing an accepted command with every value quoted is accepted as the same command |
| DockerActions.BuildDockerActionCommand | apps/api/src/services/commands.ts:38-111 | every mapped action is printed as text that the agent runs with exactly the intended arguments, refused exactly when a value is empty |
| DockerActions.ComposeCommandIsPermitted | apps/api/src/services/commands.ts:113-137 | the same for every compose command with an environment file given by path |
| CaptureFencing.OneAttemptOwnsTheCommit | apps/api/src/services/backups.ts:2501-2528 | size, checksum, locator and committed token of the record always come from the last commit |
| CaptureFencing.VerdictIsExact | apps/api/src/services/backups.ts:2551-2645 | reading the record back answers "committed" exactly when the attempt's publish is the last one committed by then |
| CaptureFencing.EachAttemptCommitsOnce | apps/api/src/services/backups.ts:2457-2549 | no attempt commits twice |
| CaptureFencing.SupersededChangesNothing | apps/api/src/services/backups.ts:2469-2486 | no step of an attempt that does not own the record changes the record |
| CaptureFencing.SupersededForever | apps/api/src/services/backups.ts:2414-2455 | a superseded attempt stays superseded: it never publishes and never marks anything failed |
| CaptureFencing.FencedHolds | apps/api/src/services/backups.ts:2757-2832 | an attempt that reports success is in the list of commits with what it reports |
| CaptureConservation.Conservation | apps/api/src/services/backups.ts:1983-2145 | in a run of careful steps every object is at every moment absent, in the ledger, or the committed locator |
| CaptureConservation.ConservationOfOneCommit | apps/api/src/services/backups.ts:2278-2329 | the same for a record whose captures commit at most once, assuming only uploads that are over within the claim and by the time a failed one is deleted |
| CaptureConservation.StepKeepsInv | apps/api/src/services/recoveryRemoteOrphans.ts:159-371 | every careful step of captures, reconcilers and deleters keeps the invariant behind conservation |
| CaptureConservation.StepKeepsLocators | apps/api/src/services/backups.ts:2457-2549 | in every run, careful or not, a locator that is committed, or may yet be by a transaction without reply, is its attempt's own |
| CaptureConservation.TimelyStepWaits | apps/api/src/services/recoveryRemoteOrphans.ts:372-409 | with timely uploads no row is claimed and no deletion confirmed while its upload is outstanding |
| CaptureConservation.StepConservesExactly | apps/api/src/services/recoveryRemoteOrphans.ts:498-561 | which landings, commits and removals of rows conserve, for every step from a conserved state |
| CaptureConservation.RunConservesExactly | apps/api/src/services/recoveryRemoteOrphans.ts:510-561 | a run conserves at every moment exactly when each of its steps meets that condition |
| CaptureConservation.PublishConservesExactly | apps/api/src/services/backups.ts:2501-2543 | when a commit conserves |
| CaptureConservation.CleanerConservesExactly | apps/api/src/services/recoveryRemoteOrphans.ts:498-508 | when a reconciler's removal of a ledger row conserves |
| CaptureLosses.LosesExactly | apps/api/src/services/recoveryRemoteOrphans.ts:372-409 | from every state that careful steps lead to, a step lets careful steps of everybody lose an object exactly when it commits over a stored object's locator that no lasting row keeps, or claims a row or confirms a deletion while the upload is outstanding |
| CaptureLosses.RunIsSafeExactly | apps/api/src/services/backups.ts:1983-2145 | no careful continuation of a run loses an object exactly when all of its steps are careful |
| CaptureLosses.SecondCommitLosesTheFirstObject | apps/api/src/services/backups.ts:2430-2447 | a run in which a second capture loses the first object |
| CaptureLosses.LateUploadLosesTheObject | apps/api/src/services/recoveryRemoteOrphans.ts:510-561 | a run in which a late upload loses its object |
| CaptureLosses.FailedUploadLosesTheObject | apps/api/src/services/recoveryRemoteStorage.ts:64-105 | a run in which an upload whose call failed lands after its compensation and loses its object |
| CaptureLosses.OnlyTheDirectoryHasTheArchive | apps/api/src/services/backups.ts:2757-2832 | a run of a local capture after which nothing but the attempt's directory has the archive |
| CaptureDurability.CommittedObjectLasts | apps/api/src/services/backups.ts:2501-2545 | in every run of patient steps the object that a record names is there until the record is being deleted, whatever reconcilers, lost leases and lost replies do |
| CaptureDurability.StepKeepsDurable | apps/api/src/services/jobs.ts:1496-1516 | every patient step keeps the invariant behind that, which rests on the lease that publishing needs and a failed job takes away |
| CaptureDurability.VanishesExactly | apps/api/src/services/backups.ts:2551-2645 | from every state that patient steps lead to, a step lets patient steps take a committed object away exactly when it takes a commit for failed that may still publish an object |
| CaptureDurability.RunIsDurableExactly | apps/api/src/services/backups.ts:2278-2329 | no patient continuation of a run takes a committed object away exactly when all of its steps are patient |
| CaptureDurability.VerdictStaysExactly | apps/api/src/services/backups.ts:2551-2645 | in every run an answer "not committed" can be overturned exactly when the transaction without reply was not aborted and its attempt still owns the record and holds its lease |
| CaptureDurability.LateCommitNamesADeletedObject | apps/api/src/services/backups.ts:2757-2832 | a run in which a commit without reply names the object that the compensation deleted |
| CaptureRun.UploadBackupArtifactToRemote | apps/api/src/services/backups.ts:1983-2145 | intent, upload, verification and their clean-ups follow the machine and leave the attempt where the returned result says |
| CaptureRun.CompensateAmbiguousUpload | apps/api/src/services/recoveryRemoteStorage.ts:64-105 | a failed upload call is answered by deletion and clearing, or leaves its row to the ledger |
| CaptureRun.CompensateUncommittedRemoteBackup | apps/api/src/services/backups.ts:2278-2329 | compensation follows the machine to the failure marking |
| CaptureRun.CommitOrCompensate | apps/api/src/services/backups.ts:2757-2832 | publish, reconcile and compensate follow the machine to the outcome they report |
| CaptureRun.CompleteBackupAfterCapture | apps/api/src/services/backups.ts:2647-2883 | the local flags are at every point what the machine publishes, reconciles and compensates |
| CaptureRun.RunBackup | apps/api/src/services/backups.ts:2895-2911 | with the completion awaited, success means a commit with that result; the attempt directory is kept exactly when a publishing transaction was issued and success is not reported; "not committed" means that the record was gone or its last commit another one when it was read back |
| CaptureRun.RunBackupUnawaited | apps/api/src/services/backups.ts:2912-3013 | with the completion not awaited the directory is removed whatever the outcome, and the capture marks no failure of its completion |
| DeletionProtocol.DeletionExcludesWork | apps/api/src/services/backups.ts:1486-1563 | a claimed record has no queued or running job, no pending restore and no capture under way |
| DeletionProtocol.SingleOwner | apps/api/src/services/backups.ts:1370-1396 | at most one run holds the current pair of tokens |
| DeletionProtocol.OwnershipEndsByTakeOver | apps/api/src/services/backups.ts:1576-1664 | ownership is lost only with the record or to a takeover after eleven quiet minutes |
| DeletionProtocol.TakeOverNeedsSilence | apps/api/src/services/backups.ts:1353-1362 | a takeover is at least eleven minutes after every heartbeat of the replaced owner |
| DeletionProtocol.DeletedOnce | apps/api/src/services/backups.ts:1408-1473 | the record is deleted exactly once, by its owner |
| DeletionProtocol.VanishesAfterCleanUp | apps/api/src/services/backups.ts:1401-1474 | it goes only after the run removed the remote keys it read and the local archive, with no work admitted |
| DeletionRun.FinishClaimedBackupDeletion | apps/api/src/services/backups.ts:1364-1477 | the loop over the keys, the unlink and the closing transaction follow the machine; success means the record and the archive are gone |
| DeletionRun.DeleteBackup | apps/api/src/services/backups.ts:1479-1574 | claim and finish |
| DeletionRun.ReconcileClaimedBackupDeletion | apps/api/src/services/backups.ts:1576-1686 | take over and finish |
| RestoreOwnership.DurableRestoreTouchesOnlyItsOwn | apps/api/src/services/backups.ts:3496-3680 | a restore in the ledger whose commands are over before the ledger's time for the next cleanup extracts only into, and removes only, a volume with its token and scope, whoever takes the name when |
| RestoreOwnership.BriefCommandsQuiesce | apps/api/src/services/recoveryRestoreAttempts.ts:206-225 | with every lost reply noted in the ledger, commands that act or die within eleven minutes of their sending are over in time |
| RestoreOwnership.SettledRestoreTouchesOnlyItsOwn | apps/api/src/services/backups.ts:3466-3494 | every attempt, in the ledger or not, touches only its own volume if each cleanup waits for its earlier commands |
| RestoreOwnership.EscapesExactly | apps/api/src/services/backups.ts:3273-3301 | from every state that settled steps lead to, a step lets settled steps touch a foreign volume exactly when it starts a cleanup while an extraction or removal without reply may still act |
| RestoreOwnership.RestoreIsSafeExactly | apps/api/src/services/recoveryRestoreAttempts.ts:693-799 | no settled continuation of a restore touches a foreign volume exactly when no cleanup of it starts while one of its commands may still act |
| RestoreOwnership.LateExtractionEscapes | apps/api/src/services/backups.ts:3273-3301 | a run outside the ledger in which it does not |
| RestoreOwnership.OverlongExtractionEscapes | apps/api/src/services/recoveryRestoreAttempts.ts:206-225 | a run with the ledger in which the command begins after the eleven minutes and lands in a foreign volume |
| RestoreOwnership.LateRemovalEscapes | apps/api/src/services/recoveryRestoreAttempts.ts:386-448 | a run with the ledger in which a removal without reply hits a foreign volume after a second cleanup |
| RestoreOwnership.CleanupLegacyRestoreVolume | apps/api/src/services/backups.ts:3333-3387 | with no earlier removal outstanding, a volume is removed only after exactly two inspections, both of which reported the attempt's labels |
| RestoreOwnership.ReconcileRestoreAttempt | apps/api/src/services/recoveryRestoreAttempts.ts:386-448 | the deferred or repeated cleanup starts no earlier than its time, removes after two matching inspections, and is unsettled exactly when a command of the attempt may still act |
| RestoreOwnership.RestoreVolumeBackupArtifact | apps/api/src/services/backups.ts:3496-3680 | the restore with its own cleanup touches only its own volume unless an attempt outside the ledger loses the reply to a pending extraction; success leaves the volume there |
| DeploymentIntent.FinalizeKeepsValid | apps/api/src/services/composeStackDeploymentIntent.ts:334-494 | version numbers stay distinct within a stack, stack ids distinct, and every stack's YAML and environment those of its current version |
| DeploymentIntent.NewNumberIsNext | apps/api/src/services/composeStackDeploymentIntent.ts:438-472 | a new version is numbered one above all earlier ones of its stack |
| DeploymentIntent.ReplayFailsClosed | apps/api/src/services/composeStackDeploymentIntent.ts:305-327 | with the version there, finalization succeeds exactly when the row matches, adding nothing |
| DeploymentIntent.FinalizeTwice | apps/api/src/services/composeStackDeploymentIntent.ts:280-303 | finalizing twice is finalizing once, stored ciphertext included |
| DeploymentIntent.RunKeepsValid | apps/api/src/services/composeStackDeploymentIntent.ts:334-494 | over any run of finalizations and replays the tables stay valid and no version is changed or removed |
| DeploymentIntent.ReplayAfterAnyRun | apps/api/src/services/composeStackDeploymentIntent.ts:423-437 | a replay after any such run adds no version and returns the original number |
| DeploymentIntent.StackDatabase.FinalizeIntent | apps/api/src/services/composeStackDeploymentIntent.ts:334-494 | the statements one by one, rolled back on any error, amount to the transaction |
| DeploymentIntent.StoredIntentIsReadBack | apps/api/src/services/composeStackDeploymentIntent.ts:149-257 | a stored intent is read back exactly by its own job, attempt and host, and exactly when its ciphertext is not too long |
| DeploymentIntent.DiscardUndoesPersist | apps/api/src/services/composeStackDeploymentIntent.ts:496-528 | discarding removes the intent and nothing else |
| AgentLedger.AgentOperations.CleanupAgentOperations | apps/agent/src/server.ts:186-196 | exactly the finished operations older than a day are dropped |
| AgentLedger.AgentOperations.RunTracked | apps/agent/src/server.ts:208-250 | a request joins, is refused by, or starts an operation |
| AgentLedger.AtMostOnceWhileRetained | apps/agent/src/server.ts:208-250 | however requests are lost, retried or duplicated, an id runs again only after more than a day |
| AgentLedger.ExecutionsAreStarts | apps/agent/src/server.ts:226-249 | nothing but a start executes anything, and it executes what was asked |
| AgentLedger.StatusLeavesRunningOnce | apps/agent/src/server.ts:226-249 | a finished operation keeps its status while retained |
| AgentLedger.RepliesAreReadAsMeant | apps/api/src/services/agent.ts:164-193 | the manager records exactly the outcome the agent reports, whatever the exit or error code |
| AgentLedger.RecordsEqualTheLedger | apps/api/src/services/agent.ts:164-193 | a recorded terminal state is how the execution ended, and the ledger's state |
| AgentLedger.InspectionsAreTrue | apps/api/src/services/agent.ts:216-271 | so is an inspected one |
| AgentLedger.OneDay | apps/agent/src/server.ts:186-250 | within a day each operation runs at most once and every record is the ledger's state |
| EventStream.ChunksDoNotMatter | apps/api/src/services/agent.ts:447-460 | pieces and residue of a chunked text are those of the whole |
| EventStream.EventStreamRoundTrip | apps/agent/src/server.ts:110-113 | any list of written events, chunked in any way, is emitted as exactly that list with an empty buffer |
| EventStream.LinesOfChunks | apps/agent/src/server.ts:115-120 | the lines emitted plus the residue are one split of the whole text |
| EventStream.LineBuffer.Push | apps/agent/src/server.ts:115-120 | the incremental line splitter |
| EventStream.EventBuffer.Consume | apps/api/src/services/agent.ts:447-460 | the incremental event parser |
| EventStream.LogArrives | apps/agent/src/server.ts:770-791 | a container's output arrives line by line as printed, and the error lines that are not blank likewise, for every chunking of all streams, every interleaving and any pings |
| DiagnosticText.SpanPartition | packages/shared/src/gitUrls.ts:458-495 | the rewritten spans are non-empty, disjoint and increasing and every scheme match lies inside one |
| DiagnosticSchemes.ListedNameMatchesExactly | packages/shared/src/gitUrls.ts:6-31 | every listed name with its colon lies inside a match, `mongodb+srv` exactly when two slashes follow |
| DiagnosticSchemes.ListedNameIsRewrittenExactly | packages/shared/src/gitUrls.ts:458-495 | it begins inside a rewritten span exactly if it is matched, a match begins before it in its token, or a span runs over it from an earlier token |
| DiagnosticSchemes.MongoSrvIsMissed | packages/shared/src/gitUrls.ts:27-31 | a text with a listed scheme and a password that is returned as it is |
| DiagnosticSchemes.UnlistedNameIsMatched | packages/shared/src/gitUrls.ts:27-31 | names that are not listed are matched, for any number of repeated letters |
| DiagnosticText.SpanEndIsClean | packages/shared/src/gitUrls.ts:372-407 | a span holds its whole match and cuts through no other |
| DiagnosticText.OnlySpansChange | packages/shared/src/gitUrls.ts:470-494 | for every sanitizer the text is its gaps and spans in turn, and the result the same gaps with each span sanitized in its place |
| DiagnosticText.PlainTextIsKept | packages/shared/src/gitUrls.ts:458-461 | a text without a scheme is returned as it is |
| DiagnosticText.SchemeStartFallsInsideUserInfo | packages/shared/src/gitUrls.ts:409-433 | the nested-scheme test, loop by loop |
| DiagnosticText.DiagnosticSensitiveContinuationEnd | packages/shared/src/gitUrls.ts:372-407 | how far a candidate goes on behind whitespace |
| DiagnosticText.SanitizeUrlDiagnosticText | packages/shared/src/gitUrls.ts:458-495 | the scanning loop terminates and produces the rewriting of exactly those spans |
| FieldRewrite.ShapeIsKeptExactly | packages/shared/src/gitUrls.ts:504-535 | array lengths and entry counts are kept at every depth exactly when no locator value is an array or object |
| FieldRewrite.NestedLocatorIsLost | packages/shared/src/gitUrls.ts:525-528 | a value that loses entries |
| FieldRewrite.RewrittenKeysAreDistinct | packages/shared/src/gitUrls.ts:513-522 | all objects at every depth have pairwise distinct keys, even when sanitized keys collide |
| FieldRewrite.UniqueKey | packages/shared/src/gitUrls.ts:518-522 | the suffix search finds the first free key within one more try than there are used keys |
| FieldRewrite.SanitizeFields | packages/shared/src/gitUrls.ts:504-535 | the recursion with its loops computes the rewriting |
| OwnershipWalk.Walk.Run | scripts/prepare-backup-storage.c:239-273 | on a still tree, system calls permitting and with enough descriptors for every level, a file and the look-up of its mount, a run succeeds exactly when nothing special or on another device or mount is met; a successful run leaves everything reached with the target owner and nothing else changed, counts the inodes that differed and the links skipped; beside renames every change is the root's or goes to the inode that an inspection during the run had found under a name in a held directory |
| OwnershipWalk.Walk.AttemptEntry | scripts/prepare-backup-storage.c:116-207 | every change that an attempt at an entry makes goes back to an inspection made during that attempt, and to the very inode it had found |
| OwnershipWalk.Walk.OpenObserved | scripts/prepare-backup-storage.c:138-200 | whatever the name leads to by the time it is opened, only the inode observed before is gone on with |
| OwnershipWalk.Walk.ChangeOpenedOwnership | scripts/prepare-backup-storage.c:95-105 | a change goes to a checked inode on the root's device and mount, is logged with its inspection, and is counted when the owner differed |
| OwnershipWalk.Walk.PrepareDirectory | scripts/prepare-backup-storage.c:209-237 | the entries of a directory in order |
| OwnershipWalk.DirectoryIsClosed | scripts/prepare-backup-storage.c:116-237 | what is reached holds every directory and regular file below it, and nothing else |
| OwnershipWalk.ReachedIsLeast | scripts/prepare-backup-storage.c:116-237 | and is the least such set |
| MigrationRunner.CommittedOnceInOrder | apps/api/src/db/migrate.ts:49-75 | with any replicas and any failures the committed files are a prefix of the sorted list, each once, with exactly their ledger rows |
| MigrationRunner.NothingIsReturnedHeld | apps/api/src/db/migrate.ts:77-115 | a connection goes back to the pool only without the lock and without an open transaction |
| MigrationRunner.SuccessCommitsEverything | apps/api/src/db/migrate.ts:49-75 | a run that reports success leaves every file committed |
| MigrationRunner.StepKeepsInv | apps/api/src/db/migrate.ts:29-115 | what every query, failure and end of a session keeps |
| MigrationRunner.RunMigrations | apps/api/src/db/migrate.ts:29-115 | the runner with its flags releases its connection exactly once |
| Scheduler.OneBackupPerVersion | apps/api/src/services/backupSchedules.ts:166-178 | each row version enqueues at most one backup |
| Scheduler.PreparedFromTheLockedRow | apps/api/src/services/backupSchedules.ts:157-194 | the enqueued backup was prepared from the configuration locked at commit, and the next run moves strictly forward |
| Scheduler.EnqueuesAddOne | apps/api/src/services/backupSchedules.ts:166-192 | enqueuing happens exactly when the snapshot is still current, and enters the locked row |
| Scheduler.EnqueuesAreSpaced | apps/api/src/services/backupSchedules.ts:180-187 | two enqueuings of an unedited schedule are at least its interval apart |
| Scheduler.EnqueueOne | apps/api/src/services/backupSchedules.ts:157-195 | snapshot, preparation, lock and re-check |
| Scheduler.RunDueBackupSchedules | apps/api/src/services/backupSchedules.ts:147-204 | a pass puts at most one backup on the queue for each row due at its query and none for any other, and reports exactly those |

## Left out

- The cipher, digests, JSON and base64url texts, UTF-8 decoding and the WHATWG URL parser: functions with the laws they are used for. Texts are sequences of characters; ECMAScript's are UTF-16 units.
- The compose command that takes its environment file from a shell variable, `withDockerEnv`, and the inventory commands.
- Remote storage, SSH and Docker: steps with or without effect and reply. An upload returns the locator it was asked for; a deletion, a statement on the ledger, and an upload call that was answered other than by a failure, has no later effect.
- More than one job on one backup record: a failed job takes the lease of every attempt on it.
- The canonical local copy that a publish makes before its commit: an aborted commit can leave it ahead of the record.
- Retention, schedule results, audit rows and notifications after a commit.
- The orphan keys in a record's metadata during a capture: the ledger is authoritative for them. In the deletion model a key appended while a run is under way is `late` and left to the ledger.
- The limit and order in which reconcilers and the scheduler select rows; candidates are handled one at a time.
- A volume creation whose reply was lost has taken effect or not by the next step. A deferred cleanup that loses its claim is one whose removal got no reply and is not noted.
- Restores into directories, demo hosts, and backups of recovery points.
- An administrator's deletion that clears `created_by` of a version, and other writers of the stack tables.
- Timestamps of stacks and versions.
- Agent restarts, rate limits and authentication; replies of agents older than this one appear only in the manager's reading of a reply.
- The rewriting of a single URL-shaped candidate: a parameter of the scanner.
- Reordering of integer-like keys by `Object.fromEntries`: entries are a sequence.
- Owners changed by others during the walk, inode numbers that are used again while it runs, and descriptor limits other than a budget that every level of the walk draws on.
- Migration files that differ between replicas or end their own transaction, and client-side query time-outs, which the pool does not set.
- Wrap-around of row versions; clocks of different workers are one clock.
- BackupKeyring.ParseBackupEncryptionKeyring: does not say which error is reported first when several apply.

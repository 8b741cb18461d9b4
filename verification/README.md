# OpenDeploy: model and properties

OpenDeploy manages Linux servers: a Core talks to an Agent on each server over one long-lived stream,
and the Agent changes files and services. This project models the parts whose correctness depends on
interleavings, on where a step fails, and on what is put back afterwards, and states what they keep.

`dafny verify dfyconfig.toml` checks everything.

| part | modules |
|---|---|
| control plane: sessions, Dispatch, Subscribe, the Agent's end of the stream | `Sessions`, `SessionSafety`, `ControlPlane`, `Dispatches`, `SessionObject` |
| backup archives and restore | `Paths`, `BackupArchive`, `BackupRestore` |
| self-update of the three binaries | `UpdateEngine` |
| nginx directive editor | `BraceScan`, `NginxDirectives` |
| fail2ban jails and protection presets | `JailLines`, `Jail`, `Presets`, `PresetFiles`, `ShippedPresets` |
| cron jobs | `CronJobs`, `CronStore`, `CronFile` |
| nginx sites of the Agent | `NginxSite` |
| enrolment of servers | `Enrolment` |
| streaming command output | `StreamLines` |
| shared | `Options`, `Files`, `Text` |

## How the parts are modelled

**Control plane.** A step is one critical section or one channel operation. `Sessions` has the steps inside one
connection: every Dispatch and Subscribe call that holds the session, the receive loop, both directions of the
network and the Agent. `ControlPlane` adds the manager over all connections with an explicit manager lock, since
register closes the session it replaces while it holds the lock and unregister and Disconnect close after
releasing it. A run is any sequence of possible events from the empty system, so a lemma about runs covers every
interleaving. The outbound channel, the stream and the receive channel are one queue per direction without a
bound, which only adds behaviours; a subscription's chunk channel keeps its capacity of 64, so delivering a chunk
may wait. Identifiers are fresh, as UUIDs are. `SessionObject` has the session and the manager as objects updated in
place, including the loop of close.

**Files.** A file operation may succeed, be refused, or (for the Agent's file write, whose directory sync comes
after the rename) report an error after the file was replaced. The answers to all operations of a call are a plan
that is a parameter, so statements hold for every combination of failures, and a status is given as an
if-and-only-if over the plan.

**Readers.** What a written file means is said by a reader that is defined apart from the writer: `Paths` cleans
slash paths segment by segment, `CronFile` reads a crontab line by line, and the jail parser and the directive reader
are the program's own.

**Editors.** `BraceScan` and `JailLines` hold the search and rewrite loops for any notion of line;
`NginxDirectives` and `Jail` instantiate them with the two file formats.

## Findings

Properties that do not hold of the code without a condition; each has the exact condition and a family of inputs.

- A written archive fails its own verification when its manifest's text is over 16 MiB, a required source has no
  collectable file or some path holds a backslash (`BackupArchive.WrittenIsAccepted`,
  `BackupArchive.GatheredIsWellformed`, `BackupArchive.BackslashIsRejected`). So no backup of more than 2^18 files can be made, although a
  million entries are allowed by default (`BackupArchive.ManyFilesAreRejected`), and none while a required directory
  is empty (`BackupArchive.EmptySourceIsRejected`).
- A file is restored where it was collected exactly when its source is marked as a file or database if and only if
  collecting found no directory there (`BackupRestore.RestoredThereIff`). A single file without the mark is restored
  into a directory of its own name, and the files of a marked directory all at the directory's path
  (`BackupRestore.MismarkedMoves`).
- A restore that is rolled back loses a symbolic link's file when an earlier entry overwrote a file on the link's way
  (`BackupRestore.RollbackRestores`, `BackupRestore.LinkedSiteIsLost`).
- Failures while a target is inspected or snapshotted are not rolled back: every file is as before exactly when all
  entries written so far were there already (`BackupRestore.AbortKeepsFilesIff`, `BackupRestore.DanglingLinkAborts`).
- A snapshot copy that fails half way leaves a torn file. The automatic restore of Apply makes it live exactly when
  every binary that is put back first was copied before it (`UpdateEngine.Engine.Apply`,
  `UpdateEngine.TornHarmlessIff`, `UpdateEngine.TornSnapshotReachesLive`).
- Replacing a directive in a block rewrites the first occurrence at any depth, while reading looks at the outermost
  depth only (`NginxDirectives.RewriteLaws`, `NginxDirectives.NestedOccurrenceIsMissed`).
- Enabling a preset again reproduces its jail exactly when the jail is a rendering with validated settings and
  enabling goes by a text with the same settings (`PresetFiles.DisableThenEnable`). Only the raw text that Reset writes
  can be anything but a rendering, and the shipped texts are not (`ShippedPresets.ShippedIsSelfRendered`). A jail that
  cannot be read while it is disabled is deleted and not kept, and its settings are lost
  (`PresetFiles.UnreadableJailIsLost`).
- The Agent's file write can fail after the rename; the site manager then reports an error and leaves the two files
  different (`NginxSite.ErrorsKeepFilesIff`, `NginxSite.UnsyncedWriteSplitsPair`), and saving a preset leaves the new
  jail (`PresetFiles.ApplyKeepsFilesIff`, `PresetFiles.DisableKeepsFilesIff`, `PresetFiles.UnsyncedJailStays`).
- Cron compensation writes the rendering of the old state, not the old bytes, so it restores the cron file exactly
  when the two files were in step (`CronStore.TakenBackIff`); they are not before the first request
  (`CronStore.FirstFailureLeavesFile`).
- A cron expression that starts with `#` or holds a newline passes validation, and its job is not read from the cron
  file. The file lists exactly the enabled jobs if and only if no enabled one has such an expression
  (`CronFile.CronReadsIff`, `CronFile.RunRuns`, `CronFile.CommentedJobIsNotListed`).
- Creating a server and registering one are two transactions each. Over a run every server has at most one usable
  token, and a registered one none, exactly when no second transaction comes after a token issued in between
  (`Enrolment.RunSingleIff`, `Enrolment.DisturbedCreation`, `Enrolment.DisturbedRegistration`,
  `Enrolment.LateFirstToken`).
- Output is lost without the truncation mark exactly when the stream exceeds the limit and its ended lines, each
  clipped, do not (`StreamLines.SilentLossIff`): a line over the limit is clipped silently
  (`StreamLines.ClippedLineIsSilent`), and a last line without a newline that does not fit is dropped silently
  (`StreamLines.UnendedLineIsSilent`).

One condition cannot fail in the program as shipped: a rendered jail drops a mandatory key that its base does not have
(`Jail.RenderReadsBack`), and every base that is passed is a shipped text, which has them all.

## Model

| member | source | states |
|---|---|---|
| `SessionSafety.StepKeepsInv` | internal/core/controlplane/manager.go:145-354 | every critical section of every Dispatch, Subscribe, receive-loop and Agent goroutine keeps the invariant that ties waiters, streams, results and chunks in flight to the calls that own them |
| `SessionSafety.CloseKeepsInv` | internal/core/controlplane/manager.go:145-165 | closing a session at any moment keeps that invariant |
| `SessionSafety.CallActKeepsDesk` | internal/core/controlplane/manager.go:293-341 | each step of a Dispatch keeps every call's account of its own ID, waiter and outcome (`Dispatches.TakenIsReturned` says which outcome) |
| `SessionSafety.DeliverKeepsDesk` | internal/core/controlplane/manager.go:343-354 | offering a result to a waiter keeps it, whatever the waiter already holds |
| `SessionSafety.CloseKeepsDesk` | internal/core/controlplane/manager.go:145-160 | waking all waiters and emptying the map keeps it |
| `SessionSafety.SubActKeepsPipes` | internal/core/controlplane/manager.go:167-236 | each step of a subscription keeps taken, held, buffered and travelling chunks in wire order without a gap |
| `SessionSafety.ForwardKeepsPipes` | internal/core/controlplane/manager.go:238-248 | putting a chunk in the stream's buffer keeps that order |
| `SessionSafety.DropKeepsPipes` | internal/core/controlplane/manager.go:238-248 | a chunk dropped because the session closed is never followed by a later one |
| `SessionSafety.AgentActKeepsFeeds` | internal/agent/remote/stream.go:194-217 | every Agent step keeps each stream's chunks numbered from 1 until cancellation, end of stream last |
| `SessionSafety.AgentActKeepsTraffic` | internal/agent/remote/stream.go:219-254 | every result on the way answers a command that was sent, with the reply its handler produced |
| `SessionSafety.LoopStepKeepsInv` | internal/core/controlplane/server.go:134-186 | every step of the receive loop keeps the invariant |
| `ControlPlane.EventKeepsSafe` | internal/core/controlplane/manager.go:79-165 | every event of the whole system, in any interleaving, keeps the global invariant |
| `ControlPlane.HelloKeepsManager` | internal/core/controlplane/manager.go:79-82 | closing the previous session under the lock keeps map, tasks and open sessions accounted for |
| `ControlPlane.PublishKeepsManager` | internal/core/controlplane/manager.go:83-84 | publishing the new session keeps them |
| `ControlPlane.RemovalKeepsManager` | internal/core/controlplane/manager.go:126-143 | unlisting in unregister or Disconnect keeps them |
| `ControlPlane.RunIsSafe` | internal/core/controlplane/manager.go:55-165 | every state of every run satisfies the global invariant |
| `ControlPlane.VisibleSessionsAreOpen` | internal/core/controlplane/manager.go:79-85 | under the manager lock every listed session is open and under its own server; in every state every other open session is the one being registered or has a goroutine whose next step closes it |
| `ControlPlane.OnlyOwnerUnlists` | internal/core/controlplane/manager.go:126-143 | a session leaves the map only by its own unregister, Disconnect of its server, or a newer session that closed it first; a stale unregister never removes the replacement |
| `ControlPlane.DispatchReturnsOwnResult` | internal/core/controlplane/manager.go:293-341 | a returned payload is the first result the session received for the call's own ID and is what the Agent's handler produced for that very command |
| `ControlPlane.AgentAnswersOnce` | internal/agent/remote/stream.go:219-254 | a reply, once produced for an ID, is never replaced |
| `ControlPlane.DeliveryNeverBlocks` | internal/core/controlplane/manager.go:343-354 | delivering a result is possible in every reachable state and returns the loop to reading |
| `ControlPlane.SubscriberSeesPrefix` | internal/core/controlplane/manager.go:195-236 | in every state of every run the caller has been handed a gap-free prefix of the Agent's chunks; up to cancellation they are numbered 1, 2, 3, and end of stream comes last |
| `ControlPlane.RegisteredStreamLosesNothing` | internal/core/controlplane/manager.go:238-248 | while registered, what arrived and what still travels add up to everything on the wire |
| `ControlPlane.ClosedForGood` | internal/core/controlplane/manager.go:180-193 | a closed session stays closed, has no stream and never gains one |
| `ControlPlane.MapsDrain` | internal/core/controlplane/manager.go:304-312 | every pending ID belongs to exactly one in-flight Dispatch; when all calls and subscriptions ended both maps are empty |
| `Dispatches.ErrorsHaveReasons` | internal/core/controlplane/manager.go:293-341 | in every state of every run a returned remote error is the failure received first for the call's own ID, a returned ConnectionClosed means the session is done, and a missing capability is one the Agent did not announce |
| `Dispatches.TakenIsReturned` | internal/core/controlplane/manager.go:327-341 | over every run: a call that takes a success returns its payload, one that takes a failure its message, one that is woken by close ConnectionClosed, and nothing that happens later changes that |
| `Dispatches.SettledForGood` | internal/core/controlplane/manager.go:327-341 | an outcome, once a call has it, is never replaced |
| `Dispatches.SettledCanReturn` | internal/core/controlplane/manager.go:307-312 | a call that has its outcome can return it at once, in every reachable state |
| `Dispatches.AnswerComesBack` | internal/core/controlplane/manager.go:293-354 | on a quiet connection an allowed command reaches the Agent as given and whatever reply the handler gives is what Dispatch returns, in eight steps that are each possible |
| `Dispatches.CommandGoesOut` | internal/core/controlplane/manager.go:303-321 | registering the waiter and sending puts exactly this command with its ID on the way down |
| `Dispatches.CommandIsAnswered` | internal/agent/remote/stream.go:219-254 | the handler's reply goes up under the command's own ID |
| `Dispatches.ResultArrives` | internal/core/controlplane/manager.go:343-354 | a result that arrives is in the waiter of the call that owns its ID |
| `Dispatches.CallCanBeGivenUp` | internal/core/controlplane/manager.go:336-340 | a waiting call can be given up at any time, returns that its context is done and leaves no pending entry |
| `Dispatches.SubscriptionGoesOut` | internal/core/controlplane/manager.go:167-207 | a subscription registers its stream before it asks the Agent for it |
| `Dispatches.DataIsSent` | internal/agent/remote/stream.go:194-217 | what the Agent's handler emits goes on the wire as it is, under the next number |
| `Dispatches.EndIsSent` | internal/agent/remote/stream.go:194-217 | the end of a stream is a chunk of its own, and nothing can be emitted after it |
| `Dispatches.ChunkArrives` | internal/core/controlplane/manager.go:238-248 | a chunk that arrives while there is room is at the end of its subscription's buffer |
| `Dispatches.ChunkIsHanded` | internal/core/controlplane/manager.go:208-236 | a running subscription hands over exactly the first buffered chunk's data and runs on |
| `Dispatches.SubscriptionCanBeLeft` | internal/core/controlplane/manager.go:208-236 | a subscription can be left at any time: it is out of the map and the Agent's feed is cancelled |
| `Dispatches.AgentRegisters` | internal/core/controlplane/manager.go:55-85 | whenever the manager lock is free an Agent can register; its session is then listed and open, the one before closed, every other server as it was |
| `Dispatches.ServerDisconnects` | internal/core/controlplane/manager.go:135-143 | disconnecting takes the session out of the map and can close it at once |
| `Dispatches.ListedServerIsReached` | internal/core/controlplane/manager.go:293-302 | a call or a subscription for a listed server starts on that server's session with nothing done yet |
| `SessionObject.Session.Close` | internal/core/controlplane/manager.go:145-165 | idempotent; wakes exactly the waiters that hold nothing, in any iteration order, and empties both maps |
| `SessionObject.Waiter.Offer` | internal/core/controlplane/manager.go:347-353 | a send that never blocks and leaves a full channel as it is |
| `SessionObject.Session.Resolve` | internal/core/controlplane/manager.go:343-354 | lookup and send with nothing in between: the first result stays in the waiter, later ones are dropped, other waiters are untouched |
| `SessionSafety.CallActKeepsPending` | internal/core/controlplane/manager.go:303-312 | registering and removing a waiter keep every pending ID owned by the one in-flight call that has it |
| `SessionObject.Session.AddStream` | internal/core/controlplane/manager.go:180-193 | a closed session refuses a stream |
| `SessionObject.Manager.Register` | internal/core/controlplane/manager.go:79-85 | the new session is listed and the one it replaces is closed |
| `SessionObject.Manager.Unregister` | internal/core/controlplane/manager.go:126-133 | only the session itself is unlisted; it is closed either way |
| `SessionObject.Manager.Disconnect` | internal/core/controlplane/manager.go:135-143 | the listed session is unlisted and closed |
| `BackupArchive.Validate` | internal/backup/types.go:94-109 | accepts exactly the configurations with absolute directories, safe distinct source IDs and positive limits |
| `BackupArchive.DefaultIdsAreSafe` | internal/backup/types.go:94-109 | the source IDs of the default configuration pass |
| `BackupArchive.UnsafeIds` | internal/backup/types.go:94-109 | an ID with a separator, a dot, a capital or a blank does not |
| `Paths.OrdinaryIsClean` | internal/backup/restore.go:261-267 | a path of ordinary names is relative and its own cleaning |
| `Paths.CleanIsOrdinary` | internal/backup/restore.go:261-267 | a relative path that is its own cleaning and does not begin by climbing has ordinary names only, `.` aside |
| `Paths.ClimbCancels` | internal/backup/restore.go:265 | cleaning cancels a name with the `..` after it; the root cannot be left |
| `Paths.JoinedSegments` | internal/backup/restore.go:112-115 | joining a path of ordinary names to a directory adds exactly its segments |
| `Paths.CleanDetermined` | internal/backup/restore.go:112-115 | clean absolute paths are told apart by their segments |
| `BackupArchive.SafeRelativeIff` | internal/backup/restore.go:261-267 | the accepted paths are exactly `.` and the paths whose segments are all ordinary names without a backslash |
| `BackupArchive.NamesAreSafe` | internal/backup/restore.go:261-267 | any nonempty list of ordinary names, joined by slashes, is accepted |
| `BackupArchive.SafePathStays` | internal/backup/restore.go:261-267 | an accepted path joined to any absolute directory is the directory or stays below it, with exactly its own segments added |
| `BackupArchive.KeyInjective` | internal/backup/types.go:111-125 | a key determines its source and its path |
| `BackupArchive.KeyMeetsSnapshotIff` | internal/backup/restore.go:126 | an extracted file is where a rollback snapshot goes if and only if its source is called rollback and its path is the snapshot's number |
| `BackupArchive.KeyOutsideRollback` | internal/backup/restore.go:126 | so a file of any other source never collides with a rollback snapshot |
| `BackupArchive.IndexEntries` | internal/backup/restore.go:182-197 | accepts exactly the well-formed entry lists within MaxBytes; the running 64-bit sum stays in 0..MaxBytes |
| `BackupArchive.CheckManifest` | internal/backup/restore.go:175-210 | accepts exactly the valid manifests and indexes their entries by key |
| `BackupArchive.ReadData` | internal/backup/restore.go:211-255 | the data loop stops early only at an entry where it is told to; otherwise it ends complete exactly when data and manifest entries correspond one to one, and then holds the digested bytes of each |
| `BackupArchive.ExtractVerified` | internal/backup/restore.go:153-259 | an extracted archive is an acceptable one with its own manifest; a rejected one is not acceptable, be it for its manifest's size; an interrupted one was stopped from outside |
| `BackupArchive.WrittenIsAccepted` | internal/backup/engine.go:233-282 | for every list of described files the written archive is accepted if and only if its entries have valid distinct keys, its manifest's text, its number of entries and its bytes are within their limits and every required source has a file |
| `BackupArchive.GatheredIsWellformed` | internal/backup/engine.go:116-231 | the entries of collected files have valid distinct keys if and only if no path holds a backslash |
| `BackupArchive.GatheredKeysDiffer` | internal/backup/engine.go:116-231 | collected files from different places have different keys |
| `BackupArchive.BackslashIsRejected` | internal/backup/restore.go:261-264 | an archive with a backslash in a path is never accepted |
| `BackupArchive.EmptySourceIsRejected` | internal/backup/restore.go:199-203 | an archive without a file of some required source is never accepted |
| `BackupArchive.ManyFilesAreRejected` | internal/backup/restore.go:169-171 | with at least a digest of text per entry, an archive of more than 2^18 files is never accepted |
| `BackupArchive.ChangedFileIsRejected` | internal/backup/engine.go:265-282 | a file that changed between hashing and writing makes the archive unacceptable |
| `BackupArchive.ExtractedIsCollected` | internal/backup/engine.go:84-113 | what extraction holds for a key is the collected content |
| `BackupRestore.Restorer.Install` | internal/backup/restore.go:269-300 | all or nothing, permission bits only |
| `BackupRestore.Restorer.RemoveRegular` | internal/backup/restore.go:302-314 | success exactly when the path was absent or a regular file that can be removed, and then it is absent; otherwise it is left |
| `BackupRestore.Restorer.Prepare` | internal/backup/restore.go:117-133 | succeeds exactly when an existing target can be read; the snapshot then holds what the target read as |
| `BackupRestore.Restorer.Rollback` | internal/backup/restore.go:95-106 | clean when every undo step succeeds, and then the disk is the changes reverted newest first; otherwise each path is as before or as one of its own undo steps leaves it |
| `BackupRestore.Restorer.Apply` | internal/backup/restore.go:107-147 | restored if and only if every target can be read when its turn comes, every copy succeeds and the services are healthy; the disk for every outcome: all entries written, the entries before an early return, the reverted disk, or what an unclean rollback leaves |
| `BackupRestore.Restorer.CopyAll` | internal/backup/restore.go:107-139 | the loop writes all entries if and only if every target can be read and every copy succeeds; otherwise it says where it stopped and what the disk is |
| `BackupRestore.PlainIsReadable` | internal/backup/restore.go:117-123 | targets that are regular files or missing can all be restored |
| `BackupRestore.RestoredWhereCollected` | internal/backup/restore.go:112-115 | a file of a source whose marks are right is restored at exactly the path it was collected from |
| `BackupRestore.RestoredThereIff` | internal/backup/restore.go:112-115 | a collected file is restored where it was if and only if its source is marked as a file or database exactly when there was no directory |
| `BackupRestore.MismarkedMoves` | internal/backup/restore.go:112-115 | an unmarked single file goes into a directory of its own name, the files of a marked directory to the directory's path |
| `BackupRestore.TargetsDiffer` | internal/backup/restore.go:112-115 | two different accepted paths of a directory source have different targets, at or below the directory |
| `BackupRestore.SourceOf` | internal/backup/restore.go:68-71 | the source found is in the configuration and has the entry's ID; none is found only if none has it |
| `BackupRestore.FoundSource` | internal/backup/restore.go:68-76 | the source found for a collected file is the one it was collected from |
| `BackupRestore.PlanExists` | internal/backup/restore.go:72-76 | every entry has a target if and only if every entry's source is configured |
| `BackupRestore.Restorer.Restore` | internal/backup/restore.go:40-151 | refuses exactly the manifests with an unconfigured source; nothing is touched then or when the services do not stop; restored if and only if every step of the plan is fine; otherwise as `Apply` |
| `BackupRestore.InstalledIsLast` | internal/backup/restore.go:107-139 | each target has content and mode of the last entry mapped to it, every other path its old node |
| `BackupRestore.RevertedIsFirst` | internal/backup/restore.go:95-106 | reverting newest first leaves at each path what the first change found there |
| `BackupRestore.RollbackRestores` | internal/backup/restore.go:95-147 | on every disk: after a clean rollback every path whose link chain ends reads as before, also with several entries for one target, if and only if no restored link leads to a file an earlier entry overwrote with something else |
| `BackupRestore.AliasedIsLost` | internal/backup/restore.go:117-139 | every such link reads differently after the rollback, on any disk |
| `BackupRestore.FollowInstalled` | internal/backup/restore.go:117-139 | what a path reads as after some entries: the first one written on its way through the links, or what it read as |
| `BackupRestore.UncleanRollback` | internal/backup/restore.go:95-106 | after a rollback that is not clean, paths no entry named are untouched and a target has what was written last or what one of its entries had found |
| `BackupRestore.RollbackWithoutLinks` | internal/backup/restore.go:95-147 | without links among the targets every path whose link chain ends is restored |
| `BackupRestore.LinkedSiteIsLost` | internal/backup/restore.go:95-147 | the enabled-to-available link of an nginx tree is such a case, for all contents |
| `BackupRestore.AbortKeepsFilesIff` | internal/backup/restore.go:121-132 | on every disk: after an early return every path whose link chain ends reads as before if and only if everything written so far was there already |
| `BackupRestore.AbortKeepsEarlierEntries` | internal/backup/restore.go:121-132 | after an early return the entries already written stay written |
| `BackupRestore.DanglingLinkAborts` | internal/backup/restore.go:118-123 | a dangling link after a changed file, for all contents: the restore cannot pass the link and the file has the archived content |
| `BackupRestore.BackupRoundTrip` | internal/backup/restore.go:107-139 | restoring what was collected always has a plan and puts each file back at the path it was collected from, with its content and mode, unless a later one was collected there; all other nodes stay |
| `UpdateEngine.FindHistory` | internal/update/engine.go:429-440 | the last matching entry, or none if no entry matches |
| `UpdateEngine.Engine.AppendHistory` | internal/update/engine.go:413-427 | success records the entry; a failure leaves the history or has recorded it all the same; the attempt is counted |
| `UpdateEngine.Engine.CopyFile` | internal/update/engine.go:550-567 | a failed copy leaves everything, or its own file with other content and nothing else changed |
| `UpdateEngine.Engine.SnapshotForInstall` | internal/update/engine.go:353-373 | success means a complete copy of the live binaries, in every iteration order; a missing live binary is an error; a torn copy leaves exactly the earlier copies and the torn one |
| `UpdateEngine.Engine.ReplaceAll` | internal/update/engine.go:374-386 | every binary is old or new at any failure; all new on success, in every iteration order |
| `UpdateEngine.Engine.Reinstate` | internal/update/engine.go:388-399 | success means all three binaries are the snapshot's; when no copy fails the binaries are exactly what `Reinstated` says, up to the first missing one |
| `UpdateEngine.Engine.Install` | internal/update/engine.go:353-386 | no live binary changes before the snapshot is complete |
| `UpdateEngine.Engine.Recover` | internal/update/engine.go:191-215 | the inner restore after each kind of failure, a torn snapshot included; each binary is as before or the snapshot's in any case |
| `UpdateEngine.Engine.Apply` | internal/update/engine.go:83-222 | recorded as succeeded if and only if every step of the plan is fine, and then all new; otherwise all old if the restore succeeded or nothing was replaced, and the restore succeeds if its copies do; each binary old or new if the restore fails; after a torn copy all old or one torn binary, decided by iteration order and failing position; exactly one history append is attempted; earlier snapshots are kept |
| `UpdateEngine.Engine.SnapshotLive` | internal/update/engine.go:401-411 | success means a complete safety copy; other snapshots are kept |
| `UpdateEngine.Engine.Switch` | internal/update/engine.go:252-273 | success means the wanted snapshot is live; recovery means the binaries are what they were; each is one of the two in any case |
| `UpdateEngine.Engine.Rollback` | internal/update/engine.go:224-276 | there is an entry if and only if the wanted transaction has a snapshot; it is a manual rollback if and only if every step of the plan is fine, and then that snapshot is live; a failed one that could not take its safety copy, or recovered, changes no binary; one that stops half way leaves each binary as it was or as the snapshot has it |
| `UpdateEngine.SnapshotsLast` | internal/update/engine.go:190-222 | in every serial run the snapshot of a succeeded update holds for ever the binaries live just before it |
| `UpdateEngine.RollbackYieldsPreceding` | internal/update/engine.go:224-276 | a successful rollback to the latest yields the binaries preceding the latest succeeded update |
| `UpdateEngine.LatestStable` | internal/update/engine.go:413-440 | without a newly recorded success the latest entry stays the same |
| `UpdateEngine.RollbackIdempotent` | internal/update/engine.go:224-276 | rolling back again with no success recorded in between gives the same binaries |
| `UpdateEngine.TornOutcome` | internal/update/engine.go:388-399 | restoring a torn snapshot makes the torn file live exactly when every name put back before it was copied before it |
| `UpdateEngine.TornHarmlessIff` | internal/update/engine.go:191-193 | so a torn copy is harmless if and only if it is not reached or is intact after all, for every order and position |
| `UpdateEngine.RestoreHarmlessIffIntact` | internal/update/engine.go:388-399 | for any snapshot, putting it back leaves the live binaries alone if and only if every file it reaches is intact |
| `UpdateEngine.TornSnapshotReachesLive` | internal/update/engine.go:191-193 | a core binary torn in the first iteration always becomes the live one |
| `BraceScan.FindIsFirst` | modules/nginx/settings.go:204-214 | the search returns line i if and only if i is the first marked line at the target depth |
| `BraceScan.FindAtDepth` | modules/nginx/settings.go:204-238 | the depth-counting loop computes that search |
| `BraceScan.FindBlock` | modules/nginx/settings.go:259-277 | the nested loops return the first opening line that is closed again, with its closing line |
| `BraceScan.CloserIsFirst` | modules/nginx/settings.go:266-272 | a line closes the block if and only if it is the first after which the depth is below the depth inside |
| `BraceScan.BlockIsFirst` | modules/nginx/settings.go:259-277 | a block is found if and only if it is the first matching one that is closed again |
| `BraceScan.BlockInserted` | modules/nginx/settings.go:255-256 | a balanced line inserted at the top of the found block moves only its end |
| `BraceScan.BlockReplaced` | modules/nginx/settings.go:246-253 | replacing a line of the block by one with the same braces moves neither end |
| `BraceScan.HitReplaced` | modules/nginx/settings.go:246-253 | whatever braces the old and the new line hold, later lines are found at a depth shifted by the difference |
| `BraceScan.FindShiftedIff` | modules/nginx/settings.go:246-253 | so the line found after such a replacement is the first shifted hit |
| `BraceScan.RewriteFirst` | modules/nginx/settings.go:246-253 | rewriting the first occurrence is seen by the depth search if and only if it lies at the target depth |
| `NginxDirectives.SettingReads` | modules/nginx/settings.go:207-209 | a written line sets its directive and reads back as its value |
| `NginxDirectives.CommentIsIgnored` | modules/nginx/settings.go:207-211 | text after a hash sign changes neither what is read nor the depth |
| `NginxDirectives.LongerNameIsNotRead` | modules/nginx/settings.go:208 | a directive whose name only begins like another is not read as that one |
| `Text.CountIsSplit` | modules/nginx/settings.go:206-211 | a text splits into one piece more than it has separators |
| `NginxDirectives.DirectiveAtDepth` | modules/nginx/settings.go:204-214 | reads the first setting at the depth, or nothing |
| `NginxDirectives.ReplaceDirectiveAtDepth` | modules/nginx/settings.go:225-238 | rewrites that line with its indentation, or reports that there is none |
| `NginxDirectives.ReplaceLaws` | modules/nginx/settings.go:225-238 | reading gives the new value, a second replace overrides the first, every other line is unchanged |
| `NginxDirectives.EditReadsBack` | modules/nginx/settings.go:225-238 | the same for whole texts: the edited text splits into the edited lines |
| `NginxDirectives.DirectiveInBlock` | modules/nginx/settings.go:216-223 | reads the directive at the outermost depth of the block's body |
| `NginxDirectives.ReplaceDirectiveInBlock` | modules/nginx/settings.go:240-257 | rewrites the first occurrence in the block or inserts one at its top |
| `NginxDirectives.InsertLaws` | modules/nginx/settings.go:255-256 | an inserted directive reads back in any block, and a second replace overrides it |
| `NginxDirectives.RewriteLaws` | modules/nginx/settings.go:246-253 | after rewriting, the block reads as the new value if the line is at the body's outermost depth and as before if not; only that line changes |
| `NginxDirectives.BlockLaws` | modules/nginx/settings.go:240-257 | for an editable block: reads back, and the last replace wins |
| `NginxDirectives.FlatIsEditable` | modules/nginx/settings.go:240-257 | a block body without braces is editable for every directive |
| `NginxDirectives.BlockEditKeepsOthers` | modules/nginx/settings.go:240-257 | with a balanced line, or an insertion, no other directive reads differently at any depth |
| `NginxDirectives.BlockEditShiftsOthers` | modules/nginx/settings.go:246-253 | with any line, balanced or not, exactly which line another directive is then read from |
| `NginxDirectives.BlockEditSplits` | modules/nginx/settings.go:240-257 | the edited text splits into the edited lines |
| `NginxDirectives.EditMain` | modules/nginx/settings.go:87-94 | the two edits of the main file, or not found if either fails |
| `NginxDirectives.BothReadBack` | modules/nginx/settings.go:87-94 | after both edits both directives read back |
| `NginxDirectives.NestedOccurrenceIsMissed` | modules/nginx/settings.go:246-253 | for all values: with a nested occurrence first, the replace succeeds and the reader still sees the other value |
| `JailLines.Parse` | modules/fail2ban/preset_api.go:78-95 | the last header and the last value of every key |
| `JailLines.Render` | modules/fail2ban/preset_api.go:213-248 | the rewrite, append and compaction loops compute the specified lines |
| `JailLines.RenderedValues` | modules/fail2ban/preset_api.go:213-248 | reading rendered lines gives the base's settings with the updates made, for any agreeing lexer |
| `JailLines.RenderedTwice` | modules/fail2ban/preset_api.go:213-248 | rendering rendered lines changes nothing |
| `JailLines.OthersStay` | modules/fail2ban/preset_api.go:213-248 | rendering keeps every line it does not manage, in order |
| `JailLines.UpdatedIsWanted` | modules/fail2ban/preset_api.go:231-235 | nothing is dropped if and only if every non-empty new key may be appended |
| `Jail.AgreeOnLine` | modules/fail2ban/preset_api.go:82-92 | parser and renderer see the same key in every line whose key starts with a letter |
| `Jail.JailLawful` | modules/fail2ban/preset_api.go:213-230 | both agree on every line and on everything that is written |
| `Jail.CommentsMeanNothing` | modules/fail2ban/preset_api.go:82-86 | comments and blank lines set nothing and name nothing |
| `Jail.HeaderIsName` | modules/fail2ban/preset_api.go:86-89 | a name in brackets is the jail's name |
| `Jail.ParseJail` | modules/fail2ban/preset_api.go:78-95 | name and settings of a jail text |
| `Jail.RenderPresetJail` | modules/fail2ban/preset_api.go:213-248 | the rendered text |
| `Jail.ParsedRendered` | modules/fail2ban/preset_api.go:213-248 | parsing a rendered jail gives the base's name, its unmanaged keys and the managed settings |
| `Jail.RenderReadsBack` | modules/fail2ban/preset_api.go:213-248 | exactly the wanted settings come back if and only if the base has each mandatory key that is set |
| `Jail.RenderTwice` | modules/fail2ban/preset_api.go:213-248 | rendering is idempotent on texts |
| `Presets.NormalIsStable` | modules/fail2ban/preset_api.go:142-211 | a validated value is trimmed, on one line and validates to itself |
| `Presets.NormalizedIsStable` | modules/fail2ban/preset_api.go:121-140 | so are all settings that normalisation returns |
| `Presets.NormalizedGiven` | modules/fail2ban/preset_api.go:121-140 | settings are refused if and only if one is not valid; otherwise each is the validated form of what the caller gave, or else of what the text has |
| `Presets.DurationIff` | modules/fail2ban/preset_api.go:142-149 | a time is a positive number with or without a unit, or -1 |
| `Presets.RetryIff` | modules/fail2ban/preset_api.go:150-154 | a retry count is accepted if and only if it is between 1 and 1000 |
| `Presets.PortIff` | modules/fail2ban/preset_api.go:186-198 | a port number is accepted if and only if it is at most 65535 |
| `Presets.LogFileStays` | modules/fail2ban/preset_api.go:160-164 | an accepted log path is, after cleaning, below /var/log |
| `Presets.AtoiDecimal` | modules/fail2ban/preset_api.go:150-154 | a number reads back from its decimal form |
| `Presets.FieldsJoin` | modules/fail2ban/preset_api.go:200-211 | splitting joined addresses gives the addresses |
| `Presets.NormalizedRendered` | modules/fail2ban/preset_api.go:121-140 | the settings of a jail rendered from validated settings are those settings |
| `Presets.ReenabledIsKept` | modules/fail2ban/preset_api.go:397-402 | enabling writes the kept text again if and only if it is the preset rendered with validated settings |
| `Presets.ReenabledIff` | modules/fail2ban/preset_api.go:397-402 | enabling from one text writes another if and only if that one is such a rendering and both have the same settings |
| `PresetFiles.Store.ApplyFiles` | modules/fail2ban/preset_api.go:407-443 | all three files and the result, for every combination of answers, unreadable files included |
| `PresetFiles.Store.Disable` | modules/fail2ban/presets.go:179-203 | likewise for disabling |
| `PresetFiles.Store.Handle` | modules/fail2ban/preset_api.go:361-405 | save, reset, enable and disable as one step function; a jail that cannot be read makes the preset look disabled |
| `PresetFiles.SaveSaves` | modules/fail2ban/preset_api.go:361-375 | after a save that succeeds the file it writes parses to the validated form of each given setting, to what it was for every other managed key, and to the preset's for the rest; the other file stays; a save with an invalid setting is refused and changes nothing |
| `PresetFiles.FineSucceeds` | modules/fail2ban/preset_api.go:361-405 | with every answer fine each request succeeds, a reset writes the preset's own text, and enabling and disabling leave the jail there and gone |
| `PresetFiles.AppliedOrKept` | modules/fail2ban/preset_api.go:407-443 | success writes filter and target; an error under those answers leaves everything |
| `PresetFiles.DisabledOrKept` | modules/fail2ban/presets.go:179-203 | success moves the jail aside, or deletes it if it could not be read; an error under those answers leaves everything |
| `PresetFiles.ApplyKeepsFilesIff` | modules/fail2ban/preset_api.go:407-443 | an error while applying leaves all files, whatever they hold, if and only if the answers are of the stated kind, branch by branch |
| `PresetFiles.DisableKeepsFilesIff` | modules/fail2ban/presets.go:179-203 | likewise for disabling |
| `PresetFiles.ErrorKeepsFiles` | modules/fail2ban/preset_api.go:361-405 | a request that fails under those answers leaves all three files as they were |
| `PresetFiles.UnsyncedJailStays` | modules/fail2ban/preset_api.go:415-418 | for all texts: a jail write that fails after the rename leaves the new jail and puts only the filter back |
| `PresetFiles.StepKeepsOurs` | modules/fail2ban/preset_api.go:361-443 | whatever is answered, every jail file stays the preset's own text or a rendering of the preset with validated settings |
| `PresetFiles.RunKeepsOurs` | modules/fail2ban/preset_api.go:361-443 | for every preset, over every run of requests and answers |
| `PresetFiles.DisableThenEnable` | modules/fail2ban/presets.go:179-203 | after any run, disabling and enabling again reproduces the jail text if and only if it is a rendering with validated settings and enabling goes by a text with the same settings; only the preset's own text can be anything but a rendering |
| `PresetFiles.UnreadableJailIsLost` | modules/fail2ban/presets.go:185-192 | for all texts: a jail that cannot be read while disabling is deleted, not kept, and success is reported |
| `ShippedPresets.WellWrittenIsFromSettings` | modules/fail2ban/preset_api.go:213-248 | a text of well-written lines with distinct keys and the mandatory ones is a rendering of its own settings |
| `ShippedPresets.ShippedIsSelfRendered` | modules/fail2ban/presets.go:35-118 | each shipped preset text is one |
| `ShippedPresets.ShippedReenables` | modules/fail2ban/preset_api.go:389-405 | for the shipped presets, after any run, the jail text comes back if and only if enabling goes by a text with the same settings, and always when the files could be read |
| `CronJobs.SortOrdered` | internal/agent/cron/manager.go:314 | sorting distinct IDs gives strictly ascending IDs |
| `CronJobs.OrderedUnique` | internal/agent/cron/manager.go:314 | there is only one such order, whatever the sorting algorithm |
| `CronJobs.LessMeans` | internal/agent/cron/manager.go:314 | an ID is less than another if and only if it is a beginning of it or smaller where they first differ |
| `CronFile.CronReadsIff` | internal/agent/cron/manager.go:311-333 | a reader of the lines finds exactly the enabled jobs, in order, each with its expression, its ID and its timezone and assignments, if and only if every enabled job's expression is on one line and starts no comment |
| `CronFile.ListedAscends` | internal/agent/cron/manager.go:314-317 | the listed IDs are strictly ascending, so each job is listed once |
| `CronFile.ListedFrom` | internal/agent/cron/manager.go:315-318 | every listed entry is that of an enabled job |
| `CronFile.ReadIsPlain` | internal/agent/cron/manager.go:331 | no reader of lines finds an expression with a newline or one that starts a comment |
| `CronFile.CommentedJobIsNotListed` | internal/agent/cron/validate.go:13-17 | for all such jobs: an enabled job whose expression starts with a hash sign is not in the file that lists it |
| `CronFile.RunRuns` | internal/agent/cron/manager.go:86-191 | over every run with working compensation the cron file, read line by line, lists the enabled persisted jobs in ID order if and only if their expressions are such |
| `CronStore.CommitOutcome` | internal/agent/cron/manager.go:269-278 | success leaves the cron file the rendering of the persisted jobs in ID order; failure leaves the state |
| `CronStore.TakenBackIff` | internal/agent/cron/manager.go:273-276 | compensation puts the files in step, and gives back both files if and only if they were in step |
| `CronStore.FirstFailureLeavesFile` | internal/agent/cron/manager.go:273-276 | for all jobs: the first request ever, when its state cannot be written, leaves a cron file where there was none |
| `CronStore.NotTakenBack` | internal/agent/cron/manager.go:273-276 | without compensation the cron file shows jobs that were not persisted, unless they render alike |
| `CronStore.ErrorKeepsFiles` | internal/agent/cron/manager.go:86-191 | a failed request leaves both files, if compensation works when needed |
| `CronStore.WithoutMembers` | internal/agent/cron/manager.go:174-184 | the delete filter keeps exactly the jobs with another ID |
| `CronStore.CreateAdds` | internal/agent/cron/manager.go:104-119 | a create that succeeds persists the job sent, with both times now, and keeps every other job |
| `CronStore.UpdateReplaces` | internal/agent/cron/manager.go:147-158 | an update that succeeds persists the new fields with the old creation time, and keeps every other job |
| `CronStore.DeleteRemoves` | internal/agent/cron/manager.go:174-191 | a delete that succeeds removes that job and no other |
| `CronStore.FineSucceeds` | internal/agent/cron/manager.go:86-191 | with every answer fine a create succeeds exactly for a new ID, an update and a delete exactly for a job that is there and not locked |
| `CronStore.StepDistinct` | internal/agent/cron/manager.go:86-191 | create, update and delete keep IDs unique |
| `CronStore.StepKeepsLocked` | internal/agent/cron/manager.go:143-145 | a protected or OpenDeploy job survives every request unchanged |
| `CronStore.HistoryIsLast` | internal/agent/cron/manager.go:255-267 | over every run the stored history is the last `retention` entries of the full log |
| `CronStore.RunDistinct` | internal/agent/cron/manager.go:86-191 | over every run IDs are unique |
| `CronStore.RunSound` | internal/agent/cron/manager.go:86-191 | over every run with working compensation the cron file is the rendering of the persisted jobs, or nothing was written yet |
| `CronStore.RunKeepsLocked` | internal/agent/cron/manager.go:121-191 | over every run protected jobs are neither changed nor removed |
| `CronStore.Manager.Render` | internal/agent/cron/manager.go:311-334 | the text of the enabled jobs, or nothing if one of them is invalid |
| `CronStore.Manager.CommitJobs` | internal/agent/cron/manager.go:269-286 | both files and the result for every combination of answers |
| `CronStore.Manager.CreateJob` | internal/agent/cron/manager.go:86-119 | as the step function; refuses an ID in use |
| `CronStore.Manager.UpdateJob` | internal/agent/cron/manager.go:121-160 | as the step function; refuses protected jobs, keeps creation time and type |
| `CronStore.Manager.DeleteJob` | internal/agent/cron/manager.go:162-191 | as the step function; refuses protected jobs |
| `CronStore.FilterInPlace` | internal/agent/cron/manager.go:174-188 | the filter that overwrites its own array leaves the other jobs in order and tells removed, missing and protected apart |
| `CronStore.Manager.AppendHistory` | internal/agent/cron/manager.go:255-267 | appends and cuts to the retention |
| `CronStore.Manager.History` | internal/agent/cron/manager.go:236-253 | the first `limit` entries of the reversed and filtered history, 100 for a limit out of range |
| `NginxSite.Manager.Apply` | internal/agent/nginxsite/manager.go:32-86 | both files of the domain and the result for every combination of answers; no other domain's files change |
| `NginxSite.SuccessLeaves` | internal/agent/nginxsite/manager.go:46-79 | upsert leaves both files with the content, enable the enabled file equal to the available one, disable removes the enabled file only, delete both |
| `NginxSite.FineSucceeds` | internal/agent/nginxsite/manager.go:46-86 | with every answer fine an action succeeds exactly when it is known and has its content or its file |
| `NginxSite.DomainIsFileName` | internal/agent/nginxsite/manager.go:88-92 | an accepted domain is a plain file name |
| `NginxSite.CarefulKeepsFiles` | internal/agent/nginxsite/manager.go:32-105 | under the stated answers an error leaves both files as they were |
| `NginxSite.ErrorsKeepFilesIff` | internal/agent/nginxsite/manager.go:32-105 | an error leaves both files for all contents if and only if the answers are of that kind, action by action |
| `NginxSite.StepConsistent` | internal/agent/nginxsite/manager.go:32-86 | every such action keeps: an enabled file is an available one with equal content |
| `NginxSite.RunConsistent` | internal/agent/nginxsite/manager.go:32-86 | over every run of such actions |
| `NginxSite.UnsyncedWriteSplitsPair` | internal/agent/nginxsite/manager.go:51-53 | an upsert whose first write fails after the rename leaves two different files, for all contents |
| `Enrolment.TokensAcceptedOnce` | internal/core/remote/repository.go:156-181 | in every run each token is accepted at most once and only before it expires |
| `Enrolment.NeverPendingAgain` | internal/core/remote/repository.go:401-406 | a server that left the pending state, or was deleted, is never pending again |
| `Enrolment.StatusAfter` | internal/core/remote/repository.go:65-257 | a created server is pending, a registered or heard one online, with a certificate only by registration; other servers stay as they are |
| `Enrolment.StaleAfter` | internal/core/remote/repository.go:401-406 | a late server gets the status it is late for unless it is pending; nothing else changes |
| `Enrolment.DeletedIsGone` | internal/core/remote/repository.go:306-309 | a deleted server is gone with its certificate and exactly its own tokens |
| `Enrolment.NewTokenWorks` | internal/core/remote/repository.go:126-154 | a saved or reissued token is usable for its server until it expires |
| `Enrolment.StepSingleIff` | internal/core/remote/repository.go:126-208 | from a state with at most one usable token per server and none for registered ones, a transaction keeps that if and only if it is not a late second half |
| `Enrolment.RunSingleIff` | internal/core/remote/service.go:80-188 | over a whole run every server has at most one usable token and a registered one none, if and only if no second half of a creation or a registration came late |
| `Enrolment.UndisturbedIsExclusive` | internal/core/remote/service.go:80-188 | in particular with creation and registration each as one step |
| `Enrolment.LateBreaks` | internal/core/remote/repository.go:126-208 | every late second half leaves two usable tokens or a registered server with one |
| `Enrolment.ConsumedIsLast` | internal/core/remote/repository.go:156-181 | accepting a token leaves its server without an unused one |
| `Enrolment.DisturbedRegistration` | internal/core/remote/service.go:168-177 | from every state, a reissue between accepting the token and writing the registration leaves a registered server with a usable token |
| `Enrolment.DisturbedCreation` | internal/core/remote/service.go:99-106 | from every state, a reissue before the first token is saved gives the server two unused tokens |
| `Enrolment.LateFirstToken` | internal/core/remote/service.go:99-106 | from every state, a server enrolled with such a reissued token gets its first token after it is registered |
| `Enrolment.RunLinked` | internal/core/remote/repository.go:183-208 | in every run a server has a certificate exactly when it is no longer pending, and every token belongs to a server |
| `Enrolment.Repository.InsertToken` | internal/core/remote/repository.go:126-129 | the tables after saving a token, or unchanged on a duplicate or unknown server |
| `Enrolment.Repository.ReplaceTokens` | internal/core/remote/repository.go:131-154 | pending servers only; older tokens are used up in the same transaction |
| `Enrolment.Repository.ConsumeToken` | internal/core/remote/repository.go:156-181 | the server of a usable token, which is then used; nothing otherwise |
| `Enrolment.Repository.WriteRegistration` | internal/core/remote/repository.go:183-208 | online with a certificate, once |
| `Enrolment.Repository.DeleteServer` | internal/core/remote/repository.go:306-309 | tokens and certificate go with the server |
| `StreamLines.Stream` | internal/agent/executor/shell.go:338-374 | however the reader cuts the bytes, the messages are those of the whole stream; a call cancelled at some message sent exactly those before it |
| `StreamLines.RestIsSent` | internal/agent/executor/shell.go:344-364 | the byte-by-byte machine sends the newline split with each line clipped |
| `StreamLines.SentIsBounded` | internal/agent/executor/shell.go:345-360 | emitted lines never exceed the limit together and nothing follows the truncation mark |
| `StreamLines.TruncatedIff` | internal/agent/executor/shell.go:346-352 | the mark is sent if and only if the ended lines exceed the limit |
| `StreamLines.WithinLimit` | internal/agent/executor/shell.go:338-374 | everything is sent, unclipped and with nothing added, if and only if it is within the limit |
| `StreamLines.SilentLossIff` | internal/agent/executor/shell.go:345-370 | something is lost without the mark if and only if the stream exceeds the limit and its ended lines, each clipped, do not |
| `StreamLines.ClippedLineIsSilent` | internal/agent/executor/shell.go:346-362 | every line over the limit is clipped to exactly the limit and sent without the mark |
| `StreamLines.UnendedLineIsSilent` | internal/agent/executor/shell.go:364-371 | every last line without a newline that does not fit is dropped without the mark |
| `StreamLines.OutputIsBounded` | internal/agent/executor/shell.go:338-374 | these together, for every stream |

## Left out

- Time, timeouts, backoff, heartbeats' contents and liveness of the control plane; that delivering a chunk may wait for a full buffer is in the model, that it ends is not claimed.
- The Agent's stream sequence counter is unbounded; its 64-bit wrap-around is not modelled.
- Cryptography, signatures, certificates, bcrypt and JWT: a digest is any function with 64 hex digits, a verified release is a parameter, an authenticated Agent is one with a certificate row.
- Tar, gzip, JSON and SQL formats: archives are sequences of entries, the state files are values, tables are maps with transactions as steps.
- Walking the source directories when a backup is collected (a collected file has the place where it was found, which for a link is the link's), SQLite snapshots and the backup history.
- BackupRestore.RollbackRestores: nothing is claimed for a path whose links form a cycle or a chain of more than 40, because replacing a link in the middle makes the rest readable; other paths of such a disk are covered.
- BackupRestore: extracted files and rollback snapshots are two stores, which is right unless a source is called rollback; the configuration check allows that name, and BackupArchive.KeyMeetsSnapshotIff says which files then collide.
- The setuid and sticky bits that a restore drops.
- `current.json` of the updater: a rollback does not rewrite it.
- UpdateEngine: transaction IDs are distinct, as the nanosecond timestamps are meant to be; a history file with half a line, which no later call can read, is not modelled.
- Jail: lower-casing of keys covers ASCII letters.
- Presets: the boolean settings ipv6 and auto_reload, which no jail file shows; auto_reload is a parameter of saving.
- NginxDirectives.RewriteLaws: the line that is replaced has balanced braces; for any other line BraceScan.HitReplaced gives the shift of everything after it, but not where the block then ends.
- NginxDirectives.BlockEditKeepsOthers: for a line with balanced braces, since any other one shifts the depth of the lines after it; NginxDirectives.BlockEditShiftsOthers covers that case.
- The managed nginx settings file, its validation and reload, and the remaining modules (apache, certbot, git, mysql, nodejs, php, postgresql), which are thin wrappers.
- SessionObject.Session.Resolve: lookup and delivery follow each other here; their interleaving with other steps is in Sessions and ControlPlane.
- CronStore: cron runs of another process and SetEnabled, which is a Get followed by an Update; what makes a job valid is a parameter.
- CronFile: of validation only what the reader needs (no equals sign in an expression, no newline in the other fields); the settings of earlier entries, which crond keeps in force for later ones.
- Enrolment: random tokens and UUIDs are never drawn twice; heartbeat contents, tasks and events.
- StreamLines: the two readers of one command sharing a channel, and the prefix of a line.
- HTTP handlers, the user interface, local and remote routing, module installation jobs, UFW rules and statistics.

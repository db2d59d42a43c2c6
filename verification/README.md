# The directory backup engine, modelled and proved in Dafny

This project models the engine that backs up directories and streams to Proxmox Backup
Server (`directorybackup/main.go`), with the chunker, the retries and the small string
functions it relies on, and proves what its comments and documentation promise.

There are three layers.

* **One stream, in order.** `Buzhash` is the content-defined chunker: `Chunker.Scan`
  with its window and rolling hash is proved against an automaton that takes one byte at
  a time, and `Content` proves the automaton against the bytes alone: its hash is that
  of the last 64 bytes, and it ends a chunk exactly where that hash, or the size, says
  so. `Walk` is the reference for what a stream is cut into (natural, suggested and
  forced boundaries, reused chunks), and `Boundary` says where the boundaries asked for
  end up. `Index` is the index: entries, checksum, and the batches it is assigned in.
* **The upload pool and the session, concurrent.** `Pool` is one stream's pool as a
  transition system: the channel of 16, eight workers with a step for every point
  between two atomic actions, the list of known chunks, the first failure, the
  cancellation, and uploads that fail for good, fail in a way that passes, or fail after
  the chunk has reached the server. `Session` puts the single walk, the pools of all
  streams and the server together, through the Eofs, the manifest, the deferred stops
  and Finish. All interleavings and all patterns of failures are runs of it.
  `PoolProofs`, `SessionInv` and `SessionSteps` prove its invariant, `PoolSteps` and
  `SessionTurns` say what a single step may do, and `Runs`, `Progress`, `Success`,
  `Reach`, `Failures` and `Backup` hold the results about whole runs. `Program` makes
  the session's program from the archive writer's calls.
* **The methods and the drivers, imperative.** `ChunkState` has the methods of that name
  over mutable state, with a pool whose workers take any number of steps wherever the
  walk looks at shared state or blocks; they are proved against `Walk`, `Index` and the
  pool's invariant. `Stream` is backup_stream with backupStreamOnce, and the archive
  writer's calls on one stream; `Drivers` is backupWithRerun over runs of the session,
  backup_many and Config.Dirs; `Retry` is retry.Do and withRetryCtx. `SnapPath`,
  `BackupId` and `Strings` are the string functions.

What is taken for granted is written as a parameter or a condition: the digest is an
arbitrary function, assumed free of collisions only over the contents a backup handles
and only where a stream is read back; a server keeps a chunk under its own digest and
still has the chunks of the previous index; an index request that fails leaves no
effect, while a chunk upload that fails may or may not have reached the server; every
upload returns; a refusal for a second already taken is the answer to a session's first
request; the atomic actions are the mutex-protected look at the failure, the channel
send and receive, GetOrSet, and the context's state, where retry.Do's look and the start
of its attempt are one moment.

Three promises do not hold of the code as they stand, and are proved with the exact
condition under which they do:

* The comment on GenerateBackupID says its result always matches PBS's rule. It does
  exactly when the base does, or is empty with a part to follow (`BackupId.ValidIff`). A
  host name with a space in it, say, gives an id PBS refuses, for a root as for any
  other directory (`BackupId.BadBaseStays`).
* InjectKnownChunk is to take only chunks of the previous index, but looks a digest up
  in the list that also holds the chunks marked in this run. Where the walk gets to ask,
  some run takes the digest exactly when it is in the previous index or is that of a
  chunk cut from the same stream earlier on (`Reach.InjectionAcceptedIff`);
  `Reach.ReusesItsOwn` is a run that reuses its own chunk with an empty previous index.
  Neither safety nor fidelity needs the promise: such a chunk is on the server when the
  index is closed (`Runs.ClosedIndexIsSafe`), and reads back as the content with its
  digest (`Backups.CommittedReadsBack`).
* Unmapping a snapshot path is to give the user's path. A message that mentions an
  ordinary folder any number of times comes out with the user's path in each place, and
  otherwise as it was, exactly when the snapshot's folder is found in no other place
  (`SnapPath.FolderMentions`; `/s/s/x` becomes `/d/d/x`, `SnapPath.FolderMessages`). A
  message about a root, naming the root itself and its children any number of times,
  comes out rightly exactly when the snapshot's folder is found in no other place once
  the children are told (`SnapPath.RootMentions`, `SnapPath.NamedLikeTheSnapshot`).

`dafny verify dfyconfig.toml` checks the whole project.

## Model

| member | source | states |
|---|---|---|
| Buzhash.Step | pbscommon/buzhash.go:88-152 | a byte keeps the window and size coupling and the size below the maximum; a break comes only at or above the minimum, and resets; what the hash is and when it breaks is `Content.RollingHash` and `Content.CutsWhereItEnds` |
| Buzhash.Chunker.New | pbscommon/buzhash.go:56-74 | a new chunker has the bounds of a quarter and four times the average, an empty window and no bytes seen |
| Buzhash.Chunker.Reset | pbscommon/buzhash.go:78-82 | the rolling state is forgotten; only the window's bytes stay |
| Buzhash.Chunker.FillByte | pbscommon/buzhash.go:103-111 | a byte while the window fills is one step of the automaton |
| Buzhash.Chunker.RollByte | pbscommon/buzhash.go:120-136 | a byte once the window rolls is one step of the automaton, and says whether the chunk ends |
| Buzhash.Chunker.Scan | pbscommon/buzhash.go:88-140 | returns the position of the first break and the state just after it, or 0 and the state after all bytes |
| Buzhash.AlikeStep | pbscommon/buzhash.go:76-82 | bytes a reset leaves in the window never influence a later step |
| Content.RollingHash | pbscommon/buzhash.go:103-128 | for any average and table, the hash is the exclusive or of the table values of the last 64 bytes since the reset, each rotated by its distance from the end, also while the window fills |
| Content.CutsWhereItEnds | pbscommon/buzhash.go:120-153 | with the average of 4 MiB, Scan breaks exactly at 16 MiB, or from 1 MiB on where the low 23 bits of that hash are at least 0x7ffffd |
| Content.ChunksByContent | directorybackup/main.go:210-252 | whatever the calls and the splitting, a chunk is cut as natural exactly when its content ends it there, and no chunk reaches beyond a place where its content does |
| Walk.FeedConcat | directorybackup/main.go:210-227 | taking in a and then b leaves the same chunks, rest and chunker as taking in both at once |
| Walk.SplitIndependence | directorybackup/main.go:762-778 | any two ways of splitting the same bytes over writes leave the same walk |
| Walk.FeedBreak | directorybackup/main.go:214-225 | one Scan with a break is one natural chunk of normal size, made of the pending bytes and those up to the break |
| Walk.AllSizes | directorybackup/main.go:229-252 | whatever the calls, natural and suggested chunks lie within the bounds, and no chunk is empty or too large |
| Walk.FeedForgets | pbscommon/buzhash.go:128-133 | the chunks after a boundary depend only on the bytes after it |
| Walk.ChunksAreTheStream | directorybackup/main.go:197-294 | the chunks, laid end to end, are the data written with the reused chunks in place: nothing lost, doubled or moved |
| Boundary.BoundaryIsKept | directorybackup/main.go:229-272 | in the whole stream, the bytes written before a suggestion within the bounds, a forced boundary or a reused chunk end with a chunk, that which was in progress, and a reused chunk comes next with the digest and size asked for |
| Boundary.CutsHaveCauses | directorybackup/main.go:229-252 | a chunk cut by a suggestion or by force ends where there was such a call, and holds what was in progress |
| Index.SerialIndexAt | directorybackup/main.go:34-42 | each entry of the reference index has the sum of the sizes before it as its offset, and its own chunk's size and digest |
| Index.SerialIndexTiles | directorybackup/main.go:193-208 | each entry starts where the one before ends, the first at 0, and the last ends at the total |
| Index.ChecksumInputIsInjective | directorybackup/main.go:296-311 | as long as offsets fit 64 bits, what the checksum is taken over determines every entry's place, size and digest |
| Index.ChecksumByPosition | directorybackup/main.go:300-311 | the checksum is taken over 40 bytes an entry: its end in eight bytes, lowest first, then its digest |
| Index.AllBatches | directorybackup/main.go:315-327 | the batches are the whole list in order; there is none exactly for an empty index |
| Index.BatchesCover | directorybackup/main.go:315-321 | each batch has 128 entries, the last 1 to 128, and together they are the prefix |
| PoolProofs.WorkerInv | directorybackup/main.go:127-155 | any step of any worker, with any outcome, keeps the pool's invariant: where each job is, digests written at most once and rightly, who marked and who sent each digest, the counts |
| PoolProofs.AppendInv | directorybackup/main.go:197-205 | adding a chunk to the index keeps it |
| PoolProofs.PushInv | directorybackup/main.go:205-207 | sending the chunk's job keeps it |
| PoolProofs.AbandonInv | directorybackup/main.go:181-190 | abandoning the pool keeps it |
| PoolProofs.StoreInv | directorybackup/main.go:885-890 | uploads of other pools keep it |
| PoolResults.NothingLeft | directorybackup/main.go:129-155 | when the workers are gone and nothing failed, no job was skipped, lost or left |
| PoolResults.IndexIsSerial | directorybackup/main.go:34-42 | the index comes out as if the walk had hashed each chunk: every digest written once, and none still zero |
| PoolResults.WrittenByItsHolder | directorybackup/main.go:119-134 | a worker's step changes an entry only if the worker holds that entry's job, and then writes its chunk's digest |
| PoolResults.EveryChunkIsStored | directorybackup/main.go:135-143 | every chunk named is in the previous index or was sent by this pool, although digests are marked as known before they are sent |
| PoolResults.SentAreTheNewNames | directorybackup/main.go:135-153 | the digests sent are those of the queued chunks outside the previous index |
| PoolResults.CountsAreSettled | directorybackup/main.go:139-153 | the new count is the number of distinct queued digests outside the previous index, each sent once; new and reused make up the entries |
| PoolResults.FewBuffers | directorybackup/main.go:77-118 | the buffers of the channel, of the workers and of the walk are at most 16, 8 and 1 |
| PoolSteps.WorkerTurns | directorybackup/main.go:124-155 | a worker's step changes no other entry's place, never a kept failure, never shrinks the known list or the store |
| PoolSteps.WorkerDescends | directorybackup/main.go:124-155 | each step uses up a job, an attempt or a point of the worker's round |
| SessionTurns.DriveTurns | directorybackup/main.go:959-1041 | where each step of the walk may lead, and that it touches only its own stream's pool |
| SessionSteps.NextInv | directorybackup/main.go:878-1041 | every step, of the walk or of any worker of any stream, keeps the session's invariant |
| SessionSteps.BeginInv | directorybackup/main.go:881-904 | a session starts in it |
| Runs.ClosedIndexIsSafe | directorybackup/main.go:135-143 | in every run an index is closed only as the serial index of its stream, and only with each chunk on the server, from its own previous index or sent by its own pool, also while other pools still send |
| Runs.FinishComesLast | directorybackup/main.go:1100-1106 | Finish is reached only after every index is closed and the manifest uploaded, with every chunk they name on the server |
| Runs.CommittedCounts | directorybackup/main.go:139-153 | what the counts are on any run that commits |
| Runs.CommitsAgree | directorybackup/main.go:116-157 | two runs of the same backup that commit have the same indexes and counts, whatever their schedules and passing failures |
| Runs.QuietAtTheEnd | directorybackup/main.go:177-191 | when a backup returns, on success or error, no worker of any pool is alive |
| Runs.OnlyTheHolderWrites | directorybackup/main.go:119-134 | on every run an entry is changed only by the worker of its own stream that holds its job, and only by writing the digest |
| Runs.ChannelIsOpen | directorybackup/main.go:188-205 | a job is never sent on a closed channel |
| Runs.FewBuffersLive | directorybackup/main.go:77-118 | in every reachable state at most 25 chunk buffers of a stream are live, counting the channel's, the workers' and the walk's own, also while it is blocked at the send |
| Runs.NothingSentLate | directorybackup/main.go:130-132 | a job received after the cancellation is never sent |
| Runs.CancelledForAReason | directorybackup/main.go:145-191 | with workers alive, the context has ended only for a kept failure or on the way out |
| Runs.FailureIsKept | directorybackup/main.go:159-175 | the first failure of a stream is never replaced |
| Runs.FailureForbidsCommit | directorybackup/main.go:281-285 | after an upload has failed for good the run never commits |
| Failures.KeptFailureHappened | directorybackup/main.go:145-175 | on every run the failure kept is that of a chunk whose attempts all failed in a way that passes, but for the last, which was refused with the code kept or was the fifth and failed with it; the context has ended, or that chunk's worker is about to end it |
| Failures.ErrorWasGiven | directorybackup/main.go:989-1106 | the error a backup returns is the one its walk left with, and every kind of error has its own cause in the step it was left at |
| Failures.UploadErrorHappened | directorybackup/main.go:159-175 | an upload failure returned is the one kept in one of the pools, and that chunk's attempts came to it |
| Failures.NextLookLeaves | directorybackup/main.go:197-213 | with a failure kept, the walk leaves with that very failure at its next look |
| Progress.NeverStuck | directorybackup/main.go:124-156 | no reachable state before the end is stuck: a blocked walk always has a worker that can go on |
| Progress.EveryStepDescends | directorybackup/main.go:124-191 | every step lowers one measure over jobs, attempts and what is left of the walk |
| Progress.RunsAreBounded | directorybackup/main.go:181-191 | every run is finite, with a bound known from the start |
| Progress.RunsEndProperly | directorybackup/main.go:1100-1106 | a run that cannot go on has committed or failed, with every worker gone |
| Success.SmoothRunsCommit | directorybackup/main.go:989-1041 | when nothing fails for good the backup commits, whatever the schedule; side-car uploads and failures that pass do not stand in its way |
| Success.GoesOnSmoothly | directorybackup/main.go:989-1041 | and until then it can always go on so |
| Reach.ReachableIff | directorybackup/main.go:254-272 | some run gets the walk to an instruction exactly when no injection before it has bytes pending or a digest neither of the previous index nor of its own stream before it |
| Reach.InjectionAcceptedIff | directorybackup/main.go:254-272 | where the walk gets to ask, some run takes an injected digest exactly when it is in the previous index or is that of a chunk cut from its stream before |
| Reach.ReusesItsOwn | directorybackup/main.go:254-266 | a run, for any chunk, that reuses a chunk of its own with an empty previous index |
| Reach.CommitsIff | directorybackup/main.go:254-286 | some run of a backup commits exactly when none of its injections is refused for good |
| Programs.ProgramChunks | directorybackup/main.go:197-294 | the chunks a session makes of a stream are those of the walk of its own calls |
| Programs.ProgramShape | directorybackup/main.go:981-991 | each stream has one Eof, after all its calls |
| Programs.WalkOfItsOwn | directorybackup/main.go:908-954 | the walk of a stream does not depend on what is written to other streams in between |
| Backups.CommittedWithoutStrays | directorybackup/main.go:260-262 | a run in which a chunk was injected with bytes pending never commits |
| Backups.RunFromPlan | directorybackup/main.go:145-147 | what the server holds was there before or is a chunk of the backup |
| Backups.StoreFollowsBook | directorybackup/main.go:135-147 | at every point of every run the server keeps under a digest the one content of the backup, or of the server it found, with that digest |
| Backups.ClosedIsOfItsCalls | directorybackup/main.go:274-286 | every index closed, on any run, is that of its stream's calls taken one by one |
| Backups.ClosedIndexReadsBack | directorybackup/main.go:300-335 | every index closed reads back, from the server's chunks, as its stream, also where a chunk marked in this run was reused |
| Backups.CommittedReadsBack | directorybackup/main.go:197-294 | from any sequence of the archive writer's calls to the committed snapshot: each stream reads back as its logical bytes, reused digests standing for the content with that digest |
| Backups.CommittedKeepsPrevious | directorybackup/main.go:254-272 | chunks reused from the previous index read back as they were on the server before |
| Backups.SlotsArePositions | directorybackup/main.go:300-309 | each offset in the index is where its chunk stands in what is read back |
| Backups.ClosedByPosition | directorybackup/main.go:300-335 | all of what a closed index says, against what reads back: size, count, each offset and digest, and each byte its checksum is taken over |
| SharedList.OneListIsUnsafe | directorybackup/main.go:885-887 | with one list for two streams there is a run that closes the archive's index with its chunk not on the server, for any chunk |
| ChunkStates.Server.Assign | directorybackup/main.go:322-326 | one batch is added, or nothing |
| ChunkStates.Server.Close | directorybackup/main.go:329-333 | the server closes exactly what it was assigned, with the checksum and totals of the request, or nothing |
| ChunkStates.ChunkState.constructor | directorybackup/main.go:95-114 | a new stream has an empty index, the previous index as its known chunks and a fresh chunker |
| ChunkStates.ChunkState.Queue | directorybackup/main.go:193-208 | the pending bytes become the next chunk and the next chunk starts empty, or the first failure is returned and nothing changes |
| ChunkStates.ChunkState.HandleData | directorybackup/main.go:210-227 | exactly the chunks and the rest that the bytes make one by one; otherwise the first upload failure, at once if there was one |
| ChunkStates.ChunkState.SuggestBoundary | directorybackup/main.go:229-242 | pending bytes within the bounds become a suggested chunk, with nothing pending and the chunker reset; outside the bounds nothing changes and there is no error |
| ChunkStates.ChunkState.ForceBoundary | directorybackup/main.go:244-252 | pending bytes of any size become a chunk, none when there are none, and the chunker is reset |
| ChunkStates.ChunkState.InjectKnownChunk | directorybackup/main.go:254-272 | appends the chunk only with nothing pending and its digest known, and says which check failed otherwise, the first failure before the others |
| ChunkStates.ChunkState.EmitCurrent | directorybackup/main.go:288-294 | publishes the pending bytes as one chunk, nothing when there are none |
| ChunkStates.ChunkState.StopUploads | directorybackup/main.go:177-191 | every worker is gone, the channel was closed exactly once in all, the context is ended and a failure kept |
| ChunkStates.ChunkState.Listed | directorybackup/main.go:300-309 | the list and what its checksum is taken over are those of the entries |
| ChunkStates.ChunkState.IndexList | directorybackup/main.go:296-311 | the same with 64-bit ends, hashed |
| ChunkStates.ChunkState.CloseIndex | directorybackup/main.go:313-335 | the requests are all the batches in order and the close carries the checksum of what was assigned; a batch that fails leaves the index open |
| ChunkStates.ChunkState.Eof | directorybackup/main.go:274-286 | the index is closed only as the serial index of the stream, the last bytes included, with every chunk on the server |
| StreamBackup.ReadAll | directorybackup/main.go:762-778 | takes in all input, also bytes that come together with its end, or returns a read error or the first upload failure |
| StreamBackup.InputIsAllReads | directorybackup/main.go:762-778 | the input is the bytes of every read up to the first that ends it, and of that one |
| StreamBackup.BackupStream | directorybackup/main.go:752-791 | finished exactly when no error is returned, with the index of all the input however the reads split it; no worker is left in any case |
| StreamBackup.StreamTry | directorybackup/main.go:729-791 | a session starts with nobody sending through the client and ends so; one refused for the second taken has read none of the input; one without an error holds all of it |
| StreamBackup.BackupStreamOnce | directorybackup/main.go:716-727 | a second try exactly after a refusal for the second taken; a success on either try holds all of the input; no worker is alive when the client is closed or the second session starts |
| StreamBackup.Archive | directorybackup/main.go:908-991 | the index closed for a stream is that of the archive writer's calls taken one by one |
| Retry.Do | pkg/retry/retry.go:76-124 | no attempt begins with the context done, so none at all when it is done on entry; none after a success or an error that does not pass; the result is that of the last attempt, and gives up on a passing one only after all attempts |
| Retry.WithRetry | directorybackup/main.go:358-393 | at most five attempts, and five unless there was a success, an error that does not pass or the end of the context; success exactly when the last succeeded; otherwise the last attempt's own error, and the count of attempts |
| Retry.WorkerRetriesAlike | directorybackup/main.go:145-152 | a worker of the pool, replaying looks at the context and attempts as its own steps, comes to what withRetryCtx returns |
| Drivers.BackupWithRerun | directorybackup/main.go:677-703 | at most three backups; all but the last ended in a lost session or the one refusal for the second taken; the client is closed in between; the result is the last one's; no worker is alive when a session starts or the client is closed |
| Drivers.SeriesIsShort | directorybackup/main.go:683-703 | any series in which each outcome but the last is a reason to run again has at most three |
| Drivers.WhenItRunsAgain | directorybackup/main.go:683-703 | a lost session is run again once and a taken second waited out once, in either order, and nothing else is |
| Drivers.OutcomeTells | directorybackup/main.go:683-694 | the outcome is the session's own error, read errors and reasons to run again |
| Drivers.NoErrorIsCommitted | directorybackup/main.go:683-694 | a backup that returns no error is a run of a session that has committed |
| Drivers.FindSameId | directorybackup/main.go:638-645 | finds two directories with one id exactly when there are, and names the first such pair |
| Drivers.BackupMany | directorybackup/main.go:626-671 | rejected before anything is done, or each directory tried once in order, its client released, with its failure or its client in the result |
| Drivers.EachDirectoryOnce | directorybackup/main.go:647-669 | successes and failures part the list between them, in its order |
| Drivers.ReadErrorsStay | directorybackup/main.go:659-663 | a directory's read errors are all in the list at their place, whether its backup failed or not |
| Drivers.ErrorIff | directorybackup/main.go:670-670 | no failure is reported exactly when all succeeded |
| Drivers.BackupConfigured | directorybackup/main.go:633-671 | over Config.Dirs with GenerateBackupID, the groups are pairwise distinct |
| Drivers.DirsAreFirsts | directorybackup/config.go:111-124 | every directory given, once, in the order of first places, none empty |
| Drivers.Dirs | directorybackup/config.go:114-124 | the loop computes that list |
| BackupId.GenerateBackupID | clientcommon/backupid.go:16-35 | the stages and the loop come to the id that the lemmas below are about |
| BackupId.StagesAreOnePass | clientcommon/backupid.go:17-28 | the four replacements and the filter over the whole path are one pass over its chars |
| BackupId.PartIsClean | clientcommon/backupid.go:23-29 | the path's part has only allowed chars, neither starts nor ends with _, and is what lies between the runs of _ |
| BackupId.DriveFolder | clientcommon/backupid.go:9-35 | a folder on a drive gives base, drive and names with _ between, all allowed chars kept |
| BackupId.ValidIff | clientcommon/backupid.go:9-35 | the id is one PBS accepts exactly when the base is, or is empty with a part to follow |
| BackupId.BadBaseStays | clientcommon/backupid.go:12-35 | a base with a space gives an id PBS refuses, for the root and for every folder in it |
| BackupId.IdsCollide | directorybackup/main.go:638-645 | directories that differ in a char with the same letters share an id |
| Strings.UnchangedIff | directorybackup/snappath.go:15-17 | replacing leaves exactly the strings without the old part unchanged |
| Strings.ReplaceFirst | directorybackup/snappath.go:15-17 | the leftmost occurrence is replaced and the search goes on behind it |
| Strings.ToldIff | directorybackup/snappath.go:15-17 | replacing a name gives the other in each place it was meant, and changes nothing else, exactly when the name is found in no other place, for names that do not begin alike or a name that does not overlap itself |
| Strings.TrimSplit | clientcommon/backupid.go:29-29 | trimming takes off the runs at both ends, all of them, and nothing else |
| SnapPath.FolderMentions | directorybackup/snappath.go:5-18 | a message with any number of mentions of an ordinary folder comes out about the user's exactly when the snapshot's folder is found nowhere else, for folders that do not begin alike or a snapshot's that does not overlap itself |
| SnapPath.FolderReading | directorybackup/snappath.go:5-18 | every message, whatever the two folders, comes out as it reads from the left |
| SnapPath.FolderMessages | directorybackup/snappath.go:5-18 | two mentions that come out rightly, a folder named like the snapshot's that does not, and folders that begin alike with a message right by chance |
| SnapPath.OrdinaryFolder | directorybackup/snappath.go:5-18 | whatever the two folders, a message that mentions the snapshot's once comes out right exactly when the rest does not have it again |
| SnapPath.RootChild | directorybackup/snappath.go:12-17 | whatever the root, a message that mentions one child once comes out right, with one separator, exactly when the snapshot is found neither further on nor in the result |
| SnapPath.RootsAre | directorybackup/snappath.go:10-17 | so for each drive root and for / |
| SnapPath.RootItself | directorybackup/snappath.go:12-17 | whatever the root, so does one that mentions the root itself once and no child, exactly when the rest does not have it again |
| SnapPath.RootMessage | directorybackup/snappath.go:12-17 | whatever the root, a message with any mentions of it and of its children comes out right when each pass finds only what is meant for it |
| SnapPath.RootMentions | directorybackup/snappath.go:12-17 | such a message comes out right exactly when the snapshot's folder is found in no other place once the children are told, for a root with the shorter path and a snapshot's path that does not overlap itself |
| SnapPath.DrivePath | snapshot/win_snapshot.go:254-260 | the path of a shadow copy's link does not overlap itself |
| SnapPath.NamedLikeTheSnapshot | directorybackup/snappath.go:12-17 | a message for which the second pass takes the first one's result apart |
| SnapPath.ByRealPath | directorybackup/snappath.go:20-33 | each message unmapped in a new list, the given list as it was; without a snapshot the given list |
| SnapPath.UnmapError | directorybackup/snappath.go:35-53 | the message is unmapped and everything the error wraps can still be found; an error with nothing to unmap is handed on |

## Left out

- Retry.Do: the lengths of the waits and the jitter are not modelled, since time is not; the time limit is the context ending at any moment.
- ChunkStates.ChunkState.constructor: the average size is the source's 4 MiB; the byte table is a parameter, so nothing depends on its entries.
- ChunkStates.ChunkState.StopUploads: a ChunkState that was never started has no pool to stop, and is not modelled.
- SnapPath.RootMentions: the snapshot's path is longer than the root's and does not overlap itself, as is so of the link to a shadow copy of a drive (`SnapPath.DrivePath`); `SnapPath.RootMessage` and `SnapPath.RootChild` hold for any paths, in one direction or for one mention.
- SnapPath.FolderMentions: the two folders do not begin alike, or the snapshot's does not overlap itself; without that a message can be right by chance, and `SnapPath.FolderReading` says what any message becomes.
- StreamBackup.StreamTry: an index that cannot be created is one of the declined first requests.
- Drivers.NoErrorIsCommitted: which files could not be read is a parameter of each backup; what it is taken from is not part of this model.
- Drivers.FindSameId: the map keeps places in the list instead of the directories at them.
- The workers' sharing of index entries with the index is modelled by the entry's place in the index.
- pos and chunkcount are natural numbers; only the checksum's 64-bit ends wrap as in the source.
- Digests are bytes; their hexadecimal spelling is left out.
- Each pool counts its own share of the run's new and reused counters, which are their sums.
- The walk's look at the failure and the append after it are one step, as the append is the walk's own; a failure in between is seen at the next look, as in the source.
- Failures before the first chunk is written (the previous index, CreateDynamicIndex, pxar output) end the backup before there is anything to close, and are left out.
- In BackupStream the server's requests are single calls; their retries are `Retry.WithRetry`.
- What the archive writer writes, the file walk, encryption, compression and the side-car blobs' content are not part of this model; the calls they make are arbitrary.
- The snapshot that backup takes of a volume, its error messages and the note on administrator rights are left out.
- Command line, configuration file, prompts, mail, shutdown, process locks, console output, exit codes and the debug copy of the archive are left out.
- SessionLost, IsBackupTimeTaken and DefaultRetryable match texts of errors; here an error says itself which of them it meets.
- The GUI, the installer and the machine backup are not part of this model.

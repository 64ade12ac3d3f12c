# A verified model of MiniDrive's synchronisation core

MiniDrive keeps a local folder and a folder on a server equal. `SYNC` compares a
scan of the local folder, the server's listing and the baseline recorded by the
previous `SYNC`, plans a list of single requests, and runs them one at a time over a
connection that carries both JSON messages and binary chunks. The server checks each
request on its own, guards each user with a busy flag, keeps unfinished transfers for
resumption and can move a user between storage tiers.

This project models that core in Dafny and proves what it guarantees over all inputs,
all runs and all failures. Where the code falls short of a promise, the code is
modelled as it is, and the exact condition under which the promise holds is proved,
with a concrete counterexample. Check everything with `dafny verify dfyconfig.toml`.

## How the pieces fit

| files | content |
|---|---|
| `Paths`, `Trees`, `Keys`, `Induction` | path keys, folders as maps, the three-way merge, ordered keys, runs of n steps |
| `Plans`, `Requests`, `Execution` | what a plan is, the same spelled out path by path, and what each request does on the server and to the baseline |
| `Classifier`, `Matching`, `Renames`, `Planner`, `Assembly` | the planner itself, pass by pass, up to `ComputeSyncPlan` |
| `Refinement`, `Progress`, `Convergence`, `Necessity` | running a plan computes the merge, and exactly when |
| `Resync`, `Interruptions`, `Accounting`, `Honesty`, `Survival`, `Witnesses` | interruptions, failures, baseline honesty, no lost version, counterexamples |
| `RemotePaths`, `Wire` | from relative keys to paths on the user's whole tree |
| `Batch` | the queue drainer and its accounting |
| `Chunks`, `Transfer` | 32-bit chunk arithmetic, the resumable transfer |
| `Framing`, `Commands`, `Outcomes` | the two framings on one connection, when a command may be given, and how each transfer ended |
| `Locks`, `Migration`, `PartMeta` | per-user lock, tier migration with crashes, transfer ids |

The planner side is layered. `Plans.PlanFor` says what a plan for given scans is.
`Assembly.ComputeSyncPlan`, an imperative program with the loops of the original, is
proved to return such a plan for every input. `Requests.SpelledOut` says the same without
the planner's decisions, in terms of the scans and the baseline alone. Every theorem about running a plan holds
for all plans of that kind, so it holds for the ones the program returns.

## Modelling decisions

- Keys are relative to the synchronised folders. `RemotePaths` and `Wire` prove that
  prefixing them with the remote directory changes nothing and touches nothing else.
- Equal hashes stand for equal contents. Sizes and modification times are stored but
  never compared by the planner, so they are not modelled.
- `conflict_copy_path` is a function `copyOf` that gives each conflict a name beside the
  original that is not among the keys, different for different conflicts.
- The server's checks are those of its handlers: MKDIR, MOVE, COPY and UPLOAD refuse an
  existing destination, DELETE wants a file, RMDIR is recursive, empty transfers are
  refused. The final move of an upload ignores its own result, so an upload below a
  server file is reported as done although nothing is stored; the model does the same.
- An operation that passes the checks goes through, fails, or fails halfway: MKDIR, MOVE
  and COPY may leave the directories made on the way to the new path, RMDIR any part of the
  directory. A failed download has made the local directories for its target.
- MOVE and COPY of directories are accepted by the server but never planned; the model
  refuses them. Local deletions made before the queue starts are taken to succeed.
- Where documentation and code differ, the code is followed: a deletion against an edit
  is settled by transferring the edit again, without a conflict copy
  (`client/src/sync_diff.cpp:218-230`), and a directory deleted on the server is made
  again rather than deleted locally (`client/src/sync_diff.cpp:157-164`).

## What was found

- `SYNC` computes the merge if and only if (a) below a directory it removes the server
  holds nothing new, (b) the baseline is not wrong about the kind of a path in two
  specific ways, (c) it need not transfer an empty file.
- A `SYNC` may be stopped anywhere, after any failures, without changing what the next one
  aims at, if and only if (a) holds, no unedited local file faces a server directory, no
  COPY reads a path that is being replaced and no upload goes below a server file. An
  unedited file facing a directory is deleted locally by the next `SYNC` when this one
  stops after its RMDIR. Where the goal is kept, it is also kept when the client stops
  between an operation's effect and its baseline entry.
- With no condition on the scans, the baseline stays honest under all failures if and
  only if five things are absent: a file dropped from the baseline because the baseline
  calls it a directory; a server entry to be fetched below a local file; a server entry to
  be fetched below a directory that is removed, which makes that directory again locally;
  a COPY from a path that is being replaced; an upload below a server file.
- With no condition on the scans, and conflict downloads that do not fail, no version is
  lost at any moment if and only if no edited server file faces a local directory, none
  lies below a directory that is removed, and no conflict has an empty server version.
- The two framings stay in step in every run, with any number of commands at any time, as
  long as each command is careful: none while a resumed transfer is about to start, and an
  upload or download only where the resume list will refuse it or when no answer is under
  way or due. The rule is exact: every other command can be continued to a misread frame.
  After the last resumed transfer the server says "Ready." unasked, and a single `SYNC`
  given then takes it for its listing and lets the batch engine break the rule.
- A client can take a foreign answer for its own if and only if something was still owed
  when it gave the command.
- A sender falls silent if and only if its file now ends before the next chunk. A chunk
  that changed at its source ends the transfer at the receiver only: the sender takes no
  notice of the answer, and neither ends nor gives up from then on.
- In every careful run both sides agree on how each transfer ended, and never wait for each
  other. Over any interruptions a transfer of an unmodified file can still be ended on both
  sides if and only if no connection went down with DONE on its way: then the receiver has
  the file and the sender stays unfinished.
- A ready session gets the busy flag if and only if no session of its user owns it.
  `finish_exit` releases the flag even when a sibling session owns it.
- `chunk_count` wraps to 0 for sizes above 2^32 - 2^18; such an upload never ends.
- A restart after a crash during tier migration finds the files unless the old directory
  is partly removed, or it is gone and a third tier has a directory, left there by an
  earlier crash or by an undo that failed.
- Deleting a transfer id twice makes two later transfers share an id; two sessions of one
  user that decline to resume the same transfer do so. Free ids are forgotten by a restart.
- A remote directory written as slashes only is resolved against the current directory.

## Model

| member | source | states |
|---|---|---|
| Assembly.ComputeSyncPlan | client/src/sync_diff.cpp:58-387 | For every triple of scans and baseline the planner returns a plan: each operation justified by its path's decision, every decision carried out, phases in order, parents before children, no path created or vacated twice; renames maximal and no redundant upload; and which requests, local work, baseline work, reports and skips it holds is spelled out in terms of the three pictures alone |
| Assembly.QueueOps | client/src/sync_diff.cpp:238-384 | The passes after classification produce an operation list with all those properties |
| Assembly.PhasesArePlan | client/src/sync_diff.cpp:377-384 | Concatenating the eight phases gives an ordered, exclusive, justified and complete operation list |
| Assembly.PhasesAreEconomical | client/src/sync_diff.cpp:328-367 | A new file is uploaded only when no kept, moved or uploaded path supplies its content, and no possible rename is missed |
| Requests.PlanIsSpelledOut | client/src/sync_diff.cpp:134-384 | Every such plan, without the decisions: for each kind of request the paths it is queued for, if and only if; a new file and a removed file of equal content are never both left without a rename; a new file is uploaded only if no kept, moved or other uploaded path supplies its content; local work, baseline work, conflicts and skip count exact and without repeats |
| Requests.RenamesPerContent | client/src/sync_diff.cpp:241-271 | For each content the plan renames as many files as the smaller of the new files and the files gone that hold it |
| Requests.OneUploadPerContent | client/src/sync_diff.cpp:348-367 | At most one new file of each content is uploaded, and none if a kept or moved path supplies it |
| Requests.DecisionMeans | client/src/sync_diff.cpp:189-232 | Each decision on files, as a condition on what the two scans and the baseline hold |
| Requests.DirectoryMeans | client/src/sync_diff.cpp:142-187 | Each decision that involves a directory, likewise |
| Assembly.SortByDepth | client/src/sync_diff.cpp:369-374 | Depth sort: same operations, ordered by depth in the wanted direction, operations of equal depth in their old order |
| Classifier.Classify | client/src/sync_diff.cpp:129-236 | After the walk over all keys each bucket holds exactly what the decisions push into it, once each |
| Keys.AnyUnder | client/src/sync_diff.cpp:24-28 | The single lower-bound lookup is true if and only if some key lies inside the directory |
| Keys.PrefixInterval | client/src/sync_diff.cpp:24-28 | Keys with a common prefix form an interval of the key order, which is why one lookup suffices |
| Paths.UnderIsDeeper | client/src/sync_diff.cpp:369-374 | A path is strictly deeper than every directory above it, so depth order is parent order |
| Matching.Match | client/src/sync_diff.cpp:241-271 | Rename detection is injective on both sides, pairs only equal contents, and is maximal |
| Matching.MovesPerContent | client/src/sync_diff.cpp:249-271 | Per content, moves number the smaller of new local files and removed remote files |
| Planner.DetectMoves | client/src/sync_diff.cpp:238-280 | Detected moves, left-over new files and left-over removals partition the candidates, and no pair of leftovers matches |
| Planner.NoEdges | client/src/sync_diff.cpp:286-298 | Among detected moves nobody waits for anybody: destinations are absent remotely, sources present |
| Planner.OrderMoves | client/src/sync_diff.cpp:303-325 | The ordered moves are the emitted ones, each after what it waits for; the stuck ones are exactly those on cycles; together they are all moves; without edges nothing is stuck |
| Planner.PlanCopies | client/src/sync_diff.cpp:330-367 | Remaining new files are split into uploads and copies, each copy has a source that will hold the content, uploads are pairwise different and supplied by nothing else |
| Renames.Graph | client/src/sync_diff.cpp:286-298 | Successor lists and indegrees describe exactly the relation "vacates the path the other wants" |
| Renames.Schedule | client/src/sync_diff.cpp:286-313 | Kahn's loop ends, emits each rename at most once after everything it waits for, and whatever is left waits for something left |
| Renames.LeftoverIsCycles | client/src/sync_diff.cpp:282-285 | A rename is left over if and only if it lies on a cycle |
| Renames.EmittedOrderIsSimultaneous | client/src/sync_diff.cpp:282-313 | Running the emitted renames one at a time equals renaming all at once, and none lands on an occupied path |
| Renames.NoEdgesNoLeftover | client/src/sync_diff.cpp:300-313 | Without edges everything is emitted |
| Convergence.RunFollowsPlan | client/src/client.cpp:1306-1332 | After any number of operations the local folder, the server folder and the baseline are the predicted ones |
| Convergence.EveryOpEnabled | client/src/sync_diff.cpp:65-78 | Every operation is accepted and finds what it counts on: destination free with its parents there, source file with the wanted content, removed directory already empty |
| Convergence.GoodConverges | client/src/sync_diff.cpp:134-384 | Under the three conditions a complete run ends with server and baseline equal to the merge and the local folder equal to it plus the conflict copies |
| Necessity.SyncIsMergeExactlyWhen | client/src/sync_diff.cpp:134-384 | For all scans of real trees and any baseline: the run computes the merge if and only if the three conditions hold |
| Necessity.NoisyDiverges | client/src/sync_diff.cpp:174-180 | Something new below a removed directory is gone from the server at the end |
| Necessity.StaleDiverges | client/src/sync_diff.cpp:165-187 | A stale kind in the baseline leaves the baseline different from the merge |
| Necessity.BlockedUpload | client/src/sync_diff.cpp:173-173 | A file on both sides under a baseline directory: the upload is refused throughout and the server's file stays |
| Necessity.EmptyDiverges | client/src/client.cpp:855-859 | An empty file that has to be transferred keeps the run from the merge |
| Necessity.RemoteIsTree | shared/src/filesystem/utils.cpp:117-133 | The server's folder stays tree-shaped after any prefix of any plan under any failures, removals that stop halfway included |
| Necessity.NothingOverwritten | server/src/session.cpp:1325-1378 | In any state and whatever fails, no request overwrites a server entry: a creating request on an existing target is refused, and an entry goes only by a request to remove or move it or a directory above it |
| Necessity.FailureLeaves | client/src/client.cpp:894-899 | In any state a failed operation leaves the baseline as it was; a failed download has made exactly the local directories above its target, a creating request that fails halfway exactly those on the server, any other plain failure nothing |
| Necessity.AnyPartCanRemain | shared/src/filesystem/utils.cpp:117-133 | A removal that fails may leave any tree-shaped part of the directory |
| Resync.GoalStable | client/src/client.cpp:1405-1432 | After any failures, stopping after any number of operations leaves the merge of a path unchanged, when nothing new lies below a removed directory, the path is no unedited file facing a server directory, and no operation copies from a replaced path or uploads below a server file |
| Resync.GoalStableUnrecorded | client/src/client.cpp:1405-1413 | The same when the last operation took effect and its baseline entry was not saved |
| Resync.InterruptSafeExactlyWhen | client/src/client.cpp:1405-1432 | For all scans and any baseline: every failure pattern and every stopping point keeps the goal of every path if and only if nothing new lies below a removed directory, no unedited local file faces a server directory, no COPY reads a replaced path and no upload goes below a server file |
| Resync.RevertedIsLost | client/src/sync_diff.cpp:165-173 | An unedited file facing a server directory: stopped after its RMDIR, the next merge drops the local file, for all scans |
| Resync.CalmAgain | client/src/client.cpp:1299-1332 | What an interrupted run with any failures leaves is again two trees with nothing new below a removed directory and no stale kind |
| Resync.ResyncReachesMerge | client/src/sync_diff.cpp:214-221 | Stop anywhere after any failures, plan again and run: every original path ends at the first merge on both sides and in the baseline, if the second plan transfers no empty file |
| Resync.SyncTwiceIsSyncOnce | client/src/sync_diff.cpp:142-196 | After a complete run without conflict copies the next plan is empty and skips exactly the files |
| Interruptions.GoalStableThroughout | client/src/client.cpp:1405-1432 | Any number of interrupted runs with any failures, each planned from what is there, keeps the conditions on the scans and the goal |
| Interruptions.InterruptedSyncsReachMerge | client/src/client.cpp:1299-1332 | After any number of interrupted runs with any failures a complete one reaches the merge of the very first scans |
| Accounting.AlwaysSteady | client/src/client.cpp:1416-1432 | For all scans, any baseline, any failures and any moment: each local path holds its scanned entry, the server file that was to arrive, or a directory made for an arrival that no local file blocks; a path to be pulled holds the listed file or nothing on the server |
| Accounting.LocalIsTree | client/src/client.cpp:894-899 | The local folder stays tree-shaped at every moment under any failures |
| Honesty.BaselineHonest | client/src/client.cpp:1390-1414 | If none of the five ways to lie is open, every baseline entry is honest at every moment of every run |
| Honesty.HonestExactlyWhen | client/src/client.cpp:1390-1432 | For all scans and any baseline: under every failure pattern and at every moment each baseline entry is the old one or what both folders hold, if and only if none of the five ways to lie is open |
| Honesty.ForgottenLies | client/src/sync_diff.cpp:185-187 | A server file under a baseline directory entry with nothing local: the entry is dropped although the server holds the file |
| Honesty.StrandedDirLies | client/src/sync_diff.cpp:181-184 | A server directory below a local file is recorded as mirrored and is not there |
| Honesty.StrandedFileLies | client/src/client.cpp:1664-1675 | A download below a local file is reported as done and recorded, and nothing arrives |
| Honesty.ReopenedByFileLies | client/src/client.cpp:894-899 | A removed and forgotten directory is made again locally by a download below it, even a refused one |
| Honesty.ReopenedByDirLies | client/src/client.cpp:1312-1315 | The same by a directory to be mirrored below it |
| Honesty.ReplacedSourceLies | client/src/sync_diff.cpp:344-346 | If replacing the source fails and the COPY goes through, the baseline records content the server never got |
| Honesty.UploadBelowClashLies | server/src/session.cpp:1841-1853 | An upload below an undeleted server file is recorded but not stored |
| Survival.NoVersionLostExactlyWhen | client/src/sync_diff.cpp:115-127 | For all scans and any baseline: all edits of both sides survive at every moment and under every failure that spares the conflict downloads, if and only if no edited server file faces a local directory or lies below a removed one and no conflict has an empty server version |
| Survival.LocalEditStays | client/src/sync_diff.cpp:191-232 | A local edit stays in place at every moment of every run, for all scans |
| Survival.ServerEditStays | client/src/sync_diff.cpp:377-384 | A server edit that is in none of the three cases is on the server, at its local path or in its conflict copy |
| Survival.EditClashLoses | client/src/sync_diff.cpp:145-156 | A server edit facing a local directory is deleted without a copy, for all scans |
| Survival.EditBelowRemovedLoses | client/src/sync_diff.cpp:382-383 | A server edit below a removed directory is gone before it can be downloaded |
| Survival.EmptyConflictLoses | server/src/session.cpp:1048-1058 | An empty server version is refused as a conflict copy and then replaced |
| Witnesses.NewFileRemoved | client/src/sync_diff.cpp:174-180 | Concrete folders: a new server file below a locally deleted directory disappears |
| Witnesses.NewFileLost | client/src/sync_diff.cpp:174-180 | On the same folders that version is lost, with no failure and no directory facing a file |
| Witnesses.ReopenedDirLies | client/src/client.cpp:894-899 | On the same folders the baseline forgets a directory that exists locally |
| Witnesses.WrongKindStays | client/src/sync_diff.cpp:165-173 | Concrete folders: two files under a baseline directory never come together |
| Witnesses.EmptyFileStaysHere | client/src/client.cpp:855-859 | Concrete folders: a new empty file never reaches the server |
| Witnesses.StoppedSyncDeletes | client/src/sync_diff.cpp:165-173 | Concrete folders: stopped at the wrong moment, the next goal is to delete the local file |
| Witnesses.ServerFileLost | client/src/sync_diff.cpp:145-156 | Concrete folders: a server file facing a local directory is kept nowhere |
| Witnesses.BaselineLies | client/src/sync_diff.cpp:344-363 | Concrete folders: the planner copies from an edited path, and if only the copy goes through the baseline lies |
| RemotePaths.JoinRemote | client/src/sync_diff.cpp:32-39 | The trimming loop computes the joined path |
| RemotePaths.JoinFaithful | client/src/sync_diff.cpp:32-39 | Joining is injective and keeps the "inside" relation in both directions |
| RemotePaths.JoinResolvesExactlyWhen | shared/src/filesystem/utils.cpp:23-31 | The server resolves a joined path to the entry below the listed directory if and only if the directory is not slashes only, or the session is at the user's root |
| RemotePaths.DownAndUp | shared/src/filesystem/utils.cpp:23-31 | One more name resolves to the entry below, and `..` after it leads back |
| Wire.WholeRun | server/src/session.cpp:1504-1560 | On the user's whole tree every run shows in the folder exactly the relative run, and nothing outside the folder changes |
| Wire.SameAnswer | server/src/session.cpp:1325-1346 | The checks on the whole tree accept exactly the requests accepted in the folder |
| Batch.Engine.constructor | client/src/client.cpp:1335-1350 | A fresh engine is inactive with empty queue and zero counters |
| Batch.Engine.BeginBatch | client/src/client.cpp:1335-1350 | The queue is loaded, counters are reset, the stored baseline is kept |
| Batch.Engine.CountLocalWork | client/src/client.cpp:1312-1319 | Directories and removals done locally are counted, failed removals as failures |
| Batch.Engine.AdvanceBatchQueue | client/src/client.cpp:1352-1388 | A nested call leaves a note; an outer call drains to the next operation in flight or closes the batch |
| Batch.Engine.CommandFinished | client/src/client.cpp:1416-1432 | The outcome is counted and recorded once, then the queue moves on |
| Batch.Engine.RecordOpResult | client/src/client.cpp:1390-1414 | A success is counted under its kind, which SummaryMeans spells out, and the baseline drops the old and records the new key |
| Batch.Engine.FinishBatch | client/src/client.cpp:1434-1465 | The batch is closed and the queue emptied |
| Batch.DrainStops | client/src/client.cpp:1363-1387 | Draining ends at an operation in flight or closes the batch once with everything dispatched in order |
| Batch.RunBatch | client/src/client.cpp:1355-1465 | For every mix of immediate failures and answers each operation is dispatched once and in order, one at a time, and the batch is closed exactly once |
| Batch.SummaryAddsUp | client/src/client.cpp:1449-1459 | Final counters plus failed MKDIRs equal the operations plus the local work |
| Batch.SummaryMeans | client/src/client.cpp:1394-1459 | Each number of the summary: successful uploads, downloads with conflict downloads, removals with the local ones, moves, copies, MKDIRs with the local directories; failures other than MKDIRs with the failed local removals |
| Batch.StoredBaseline | client/src/client.cpp:1405-1413 | The engine's stored baseline is that of the execution model after every operation |
| Chunks.ChunkCountExactlyWhen | shared/src/filesystem/utils.cpp:400-403 | The count is the ceiling if and only if the size is at most 2^32 - 2^18; above, it is 0 |
| Chunks.ComputeChunks | shared/src/filesystem/utils.cpp:405-435 | The list is the consecutive slices of the file; the error value appears if and only if some chunk reads as empty |
| Chunks.NoOverflow | shared/src/filesystem/utils.cpp:411-413 | No offset and no remainder wraps for any index below the count |
| Chunks.SliceOf | shared/src/filesystem/utils.cpp:411-415 | For an unmodified file each listed chunk is the slice at its index, with the slice's length |
| Chunks.ChunksPartition | shared/src/filesystem/utils.cpp:405-435 | Chunk sizes are positive, at most one chunk size, and add up to the file |
| Chunks.AnyOrderRebuilds | shared/src/filesystem/utils.cpp:228-245 | Writing all chunks in any order, with repeats, into an empty file rebuilds it |
| Transfer.FindPending | client/src/client.cpp:1476-1485 | The search finds the first unacknowledged chunk |
| Transfer.EveryRunSafe | server/src/session.cpp:1805-1839 | Over all interruptions, resumes, failed writes and source modifications of any kind: acknowledged chunks are a prefix the receiver has, the partial file agrees with what was negotiated, a delivered file is exactly it, at most one frame in flight |
| Transfer.UnmodifiedNeverAborts | client/src/client.cpp:1629-1662 | With an unmodified source and no failed write no chunk check and no whole-file check ever fails |
| Transfer.LastCompletes | server/src/session.cpp:1817-1839 | When LAST arrives, writing it completes the file |
| Transfer.SafeMeans | client/src/client.cpp:544-582 | LAST is on its way only when every other chunk has been received; a sender that has ended has every chunk acknowledged and the file delivered; once delivered, or failed, over a live connection, the sender knows or the answer is on its way; frames sent are bounded by chunks and interruptions |
| Transfer.NeverStuck | client/src/client.cpp:634-693 | While receiving over a live connection some handler can run, if no modification cut off a chunk |
| Transfer.StallsExactlyWhen | client/src/client.cpp:1501-1505 | A sender that is to go on sends nothing if and only if its file now ends before the next chunk |
| Transfer.Completes | client/src/client.cpp:1473-1519 | From every reachable state with an unmodified source, one data frame and one answer per missing chunk, counted exactly, end the transfer on both sides: the file is delivered, every chunk is acknowledged and the sender has read DONE |
| Transfer.FinishesExactlyWhen | client/src/client.cpp:544-582 | After any run with an unmodified source and any interruptions the transfer can still be brought to its end on both sides, with a new connection where there is none, if and only if DONE was not lost with a connection |
| Transfer.ResentOnlyAfterInterruption | client/src/client.cpp:1473-1507 | Over every run the data frames sent exceed the chunks by at most one more than the interruptions |
| Transfer.MismatchExactlyWhen | server/src/session.cpp:260-284 | The receiver gives up if and only if the chunk read is not the negotiated one |
| Transfer.MismatchUnheard | client/src/client.cpp:634-660 | After that the sender neither ends nor gives up in any continuation |
| Transfer.OversizedNeverStarts | client/src/client.cpp:1482-1485 | Above the 32-bit bound no run sends a single chunk |
| Commands.CarefulRunsFit | client/src/client.cpp:457-464 | In every run from login whose commands are careful, any number at any time, each frame is read in the framing it was sent in, in both directions, also when a request follows DONE at once |
| Outcomes.OutcomesAgree | server/src/session.cpp:1817-1853 | In every careful run both sides record the same transfers with the same directions and the same outcomes, in order; one side is ahead by one exactly when its end frame is on its way |
| Outcomes.GoesOnExactlyWhen | client/src/client.cpp:634-693 | In every careful run a transfer goes on after a frame, on either side, if and only if the frame asks for more and nothing fails |
| Outcomes.StartsExactlyWhen | server/src/session.cpp:585-624 | In every careful run the server starts a transfer if and only if one is asked for, or an offered one accepted, and no check fails |
| Outcomes.OffersInOrder | server/src/session.cpp:317-349 | In every careful run, after n answers the first n interrupted transfers are settled and the others still to be offered in order |
| Outcomes.AnswersArrive | client/src/client.cpp:725-745 | In every careful run the answers the server has read and those on their way are the ones the user gave, in order |
| Outcomes.NeverWaiting | client/src/client.cpp:457-464 | In every careful run the client is with its user or a frame is under way: the two sides never wait for each other |
| Commands.CommandFitsExactlyWhen | server/src/session.cpp:224-231 | In every state of such a run with a ready client, and for every command: all frames of all careful continuations fit if and only if giving the command is careful |
| Commands.CarefulWhereAgreed | server/src/session.cpp:317-349 | Where both sides agree, careful means no transfer while an unasked "Ready." is under way or due |
| Commands.BehindBreaks | client/src/client.cpp:525-528 | A transfer behind other requests or answers can be continued to a JSON message before a reader that expects a chunk |
| Commands.YesBreaks | server/src/session.cpp:585-624 | So can any command behind an accepted resume offer |
| Commands.MistakenExactlyWhen | client/src/client.cpp:525-528 | A ready client can take a foreign answer for the answer to its next command if and only if something is still owed when it gives it |
| Commands.UnaskedReadyOccurs | server/src/session.cpp:327-337 | From login with one upload to resume a run leads to a ready client with the unasked answer on its way |
| Commands.UnaskedReadyDueOccurs | server/src/session.cpp:1957-1967 | From login with one download to resume a run leads to a ready client before the server has heard of the end |
| Commands.BatchRunsAhead | client/src/client.cpp:1363-1386 | In the first of these states one plain command, and the upload the batch engine sends after the stray answer, end in a misread frame |
| Commands.PlainCommandsBreak | server/src/session.cpp:585-624 | From login with two uploads to resume, two plain commands end in a misread frame |
| Locks.LockTable.TryAcquire | server/src/storage.cpp:103-123 | The flag is taken if and only if it is not set and the user has an entry, is public or is registered |
| Locks.LockTable.Release | server/src/storage.cpp:125-130 | The flag is cleared if there is one |
| Locks.StartInStep | server/src/storage.cpp:103-123 | A server without sessions starts with flags and states in step |
| Locks.HandlerInStep | server/src/session.cpp:891-976 | Every handler of any session keeps flags and session states in step |
| Locks.InterleavingsInStep | server/src/session.cpp:585-668 | Over every interleaving of any number of sessions a user's flag is set if and only if exactly one of its sessions is in an owning state |
| Locks.GrantedExactlyWhen | server/src/session.cpp:891-1103 | In every state reached from server start a ready session's transfer, or tier change, starts if and only if no session of its user owns the flag, and then it owns it |
| Locks.ResumedExactlyWhen | server/src/session.cpp:585-641 | The same for an accepted resume offer, which is off the list in any case |
| Locks.FreedAfterwards | server/src/session.cpp:1851-1852 | After the end of a transfer or a tier change no session of the user owns the flag, and the session asks its next question or is ready |
| Locks.AnyoneGetsIn | server/src/session.cpp:351-413 | A new connection of any user gets in whatever the server is doing, and disturbs nobody |
| Locks.LoginExactlyWhen | server/src/session.cpp:473-546 | Logging in succeeds if and only if the user is public, is new or gives the right password; a new user is registered |
| Locks.ExitSafeExactlyWhen | server/src/session.cpp:710-721 | Ending a session keeps that if and only if no sibling owns the flag |
| Locks.ExitBreaksExclusion | server/src/session.cpp:710-721 | Otherwise a third session can start a transfer beside the running one |
| Migration.Store.GetUserTier | server/src/storage.cpp:147-184 | The loop over tiers returns the recorded tier, or the only other one with a directory and corrects the record, or fails closed |
| Migration.Store.MigrateUser | server/src/storage.cpp:199-259 | Whatever fails, the attempt is one of the step-by-step runs; it succeeds if and only if the target is free, the copy goes through and reads back equal; a success with a complete removal has moved the directory, a failure with a complete undo has changed nothing |
| Migration.Store.MoveTo | server/src/session.cpp:1710-1776 | Confirmation runs one attempt from the resolved tier and records the target only after it |
| Migration.EveryCrashPointComplete | server/src/storage.cpp:199-259 | At every crash point one of the two tiers holds all files, the record names one of them and other tiers are untouched |
| Migration.RestartFindsExactlyWhen | server/src/storage.cpp:160-183 | A restart finds the files if and only if the record was updated, the old directory is whole, or it is gone and no third tier has one |
| Migration.AtomicRemovalRestarts | server/src/storage.cpp:169-181 | With data on one tier and atomic removal every restart finds the files and the record is correct afterwards |
| Migration.PartialRemovalHides | server/src/storage.cpp:249-254 | Stopped during removal, the server returns to the remains of the old directory |
| Migration.TwoCrashesHide | server/src/storage.cpp:169-183 | Two crashes hide the files even with atomic removal |
| Migration.LeftoverBlocks | server/src/storage.cpp:214-218 | A directory on the target makes the attempt fail and change nothing |
| Migration.UndoRestores | server/src/storage.cpp:228-247 | A failed copy that is cleaned up to the end leaves every tier and the record as they were |
| Migration.FailureHarmlessExactlyWhen | server/src/storage.cpp:199-259 | A failed attempt has changed nothing if and only if it leaves no new directory on the target |
| Migration.SuccessMeansMoved | server/src/session.cpp:1735-1749 | A reported success has all files on the target and the record naming it |
| PartMeta.Store.constructor | shared/src/filesystem/partmeta.cpp:13-18 | A store starts from the file's entries minus the expired ones |
| PartMeta.Store.GenerateId | shared/src/filesystem/partmeta.cpp:29-36 | The oldest free id, or else the counter, which wraps |
| PartMeta.Store.Add | shared/src/filesystem/partmeta.cpp:38-58 | A new entry under a generated id, or under the given id unless it is taken |
| PartMeta.Store.Delete | shared/src/filesystem/partmeta.cpp:60-68 | The entry goes, its id becomes free and the file lists what is left |
| PartMeta.Store.MarkChunkReceived | shared/src/filesystem/partmeta.cpp:70-79 | Exactly that chunk of that live entry is marked and its activity time set; every other entry is as it was |
| PartMeta.Store.Save | shared/src/filesystem/partmeta.cpp:92-121 | The file lists every entry exactly once |
| PartMeta.Store.Load | shared/src/filesystem/partmeta.cpp:145-180 | Entries of the file with the counter above them, in 32-bit arithmetic |
| PartMeta.Store.CleanupExpired | shared/src/filesystem/partmeta.cpp:123-143 | An entry stays, unchanged, if and only if its last activity is no longer ago than the timeout; the rest is deleted and the file saved |
| PartMeta.GeneratedIsFresh | shared/src/filesystem/partmeta.cpp:29-36 | A sound store never hands out a live id, and stays sound if and only if the counter did not wrap |
| PartMeta.DeleteSoundExactlyWhen | shared/src/filesystem/partmeta.cpp:60-68 | Deleting keeps the store sound if and only if the id is live, or known and neither live nor free |
| PartMeta.FreedComeBackInOrder | shared/src/filesystem/partmeta.cpp:29-36 | Freed ids are handed out again in the order in which they were freed, and only then the counter goes on |
| PartMeta.DoubleDeleteCollides | shared/src/filesystem/partmeta.cpp:60-68 | One deletion too many gives two transfers one id and loses the second record |
| PartMeta.SaveLoadRoundTrip | shared/src/filesystem/partmeta.cpp:92-180 | Loading what was saved, in any order, gives the same entries |
| PartMeta.FirstListedWins | shared/src/filesystem/partmeta.cpp:161-177 | Should the file list an id twice, the first entry is loaded |
| PartMeta.RestartSoundExactlyWhen | shared/src/filesystem/partmeta.cpp:161-177 | A restart is sound if and only if the highest id is not in the file |
| PartMeta.EmptyIsHealthy | shared/src/filesystem/partmeta.cpp:13-18 | A new store is sound and has handed out no id |
| PartMeta.EveryRunFresh | shared/src/filesystem/partmeta.cpp:29-68 | Over every run of additions, deletions of live ids, expiry, saves and restarts the store is sound and the next id is not live |
| PartMeta.IdsConserved | shared/src/filesystem/partmeta.cpp:29-68 | Between restarts live and free ids add up to the counter |
| PartMeta.RestartForgetsFreeIds | shared/src/filesystem/partmeta.cpp:145-180 | After a restart the counter stands above the highest live id and the free ids below are lost |

## Left out

- Sockets, asynchronous reads and writes, threads and signals: handlers are atomic steps and channels are sequences.
- Terminal input, prompts, printing, logging, version reporting and the text of messages.
- Hashing, password hashing, JSON encoding of requests and responses.
- Path canonicalisation through symbolic links and the scanning of directories; the model starts from the scanned maps.
- The time stamp in conflict copy names: two conflicts get different fresh names.
- Single commands outside a batch (LIST, CD, UPLOAD_DIR, DOWNLOAD_DIR, TIERS): they would only add easy members.
- Order of local directory creation (`client/src/sync_diff.cpp:375`): creating a directory also makes its parents, so the order does not matter.
- Local deletions that fail: the baseline entry is dropped all the same, so honesty is stated for runs in which they succeed.
- File system errors in the final move of a finished transfer: the code reports success without looking, so such an error makes the baseline lie; only the case that a file stands in the way is modelled.
- EXIT and CHUNK_MISMATCH frames, and resumed transfers without a client record, in the framing model.
- Collisions of client-chosen and server-chosen transfer ids in one store; a run uses generated ids only.
- A session whose socket is already closed during a transfer: its flag and its state both stay, and it never runs again.
- The `.partial` directory during a migration: a tier change is refused while unfinished transfers exist.
- The skip counter and the label in the batch summary.
- The removal of `.part` files on expiry.
- Wire.WholeRun: takes the remote directory by its resolved path; RemotePaths states when the joined path resolves to it.
- Batch.RunBatch: states the SYNC batch; other batches run the same engine without a baseline.

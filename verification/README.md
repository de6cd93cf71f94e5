# NASBox: a model of the synchronisation core

NASBox keeps one folder on several PCs equal to one folder on a NAS. Each client holds, per path, a *base*
(the content last known common to both sides), an *observation* of its own disk with a vector clock, and a
durable queue of paths still to push. A push compares base, disk and live NAS state path by path, carries out
one action per path under the NAS lease, and records what it confirmed as the new base. A pull fetches what
the NAS manifest lists and the base does not. Everything the product promises (convergence, nothing
concurrent lost, restart at any moment) rests on how these few branches interact with what is recorded.

The model follows the code function by function and states what those branches add up to.

| file | models |
|---|---|
| `CausalVersions`, `CausalCodec` | the vector clock value, its order and its text form |
| `SyncState`, `CausalHistory` | the tables of one client; every multi-device run of observing and recording |
| `Reconcile` | the per-path planner, against a three-way merge |
| `Chunk`, `Repository`, `PushChunk` | a push chunk: per path, over a whole tree, and as the worker runs it |
| `Recovery`, `PushRename` | crashes and retries of chunks with renames; the chunk with its renames |
| `Pull` | the pull round |
| `Convergence`, `Safety` | a fleet of clients: convergence by rounds; safety over every run, effect by effect |
| `Rename`, `Staging`, `PushTick`, `Sweep` | rename plans, the two-lease publish, chunking with delete budget and pending journal, the full scan |
| `Scheduler` | the fair gate between local workers |
| `FingerprintCache`, `ConflictNames`, `Selective`, `ManifestPath`, `Text` | the stat-to-digest cache and the small printers, parsers and reductions |

Pure code (the planner, the clock value) is written as functions. Code that updates state is written as classes
and loops, each proved against the functions the lemmas are about: `PushChunk.PushWorker.RunChunk` against
`Repository.ChunkEffect`, `Pull.PullWorker.Tick` against `Pull.PullEffect`, and so on.

## How the NAS, the disk and failures appear

* NAS operations are steps with the contracts of `server/sync-daemon-server.sh`: the lease is exclusive, a
  checked delete and a rename are atomic with their journal record, a staged publish is all or nothing.
* The disk is a map from paths to fingerprints; digests stand for contents (hashes are taken as injective).
* A crash, a lost connection or a refused transfer is an `if *` in a method, or a *cut*: the phase each path
  had reached when the chunk stopped. Between a chunk and its restart every path may have its own cut.
* Clocks are parameters. One reading of the monotonic clock serves one selection of the scheduler's minimum.
* Conflict names come from a function of path and digest. They are assumed free on the NAS or already holding
  that same content (`Repository.SafeNames`, `Safety.FreeName`).
* What a pull takes for queued (`Safety.Enabled`) is the durable queue or, when that is empty, what a scan reports;
  a client with something to push is taken to have at least one such path.

## Where the code does less than its documentation or comments say

These are results of the proofs; the code is modelled as it is. For each the exact condition is proved, with a
concrete state where the condition alone does not show one.

* Recording re-labels an observation with the recorded version and drops the old one
  (`client/sync_client/sync_state.py:553-576`). A device can then reuse a change number, and a later version
  dominates a change it never included: `CausalHistory.GuardIsExact`, with a two-device run in
  `CausalHistory.ReplacingAVersionCanForgetAChange`.
* A local edit of a known file whose NAS file and record are both gone (a deletion old enough to have left the
  journal) plans a NAS win that can never be adopted, so the chunk fails every time: `Chunk.ObstructedExactly`,
  `Chunk.ObstructionStays`, `Chunk.ObstructedExample`.
* A file created between the journal list and the read-back of a path adopted as absent is recorded as the base
  although it was never sent (`client/sync_client/push_worker.py:556-560` and `751-752`); the next full pull
  removes it. Of all effects of a chunk exactly this one breaks the safety invariant:
  `Safety.LateFileBreaksInvExactly`, `Safety.LateFileExample`.
* Pulls can replace unpushed content. A targeted round does not look at the queue and fetches over a file without
  a live base; a full round does not look at it either when deletions are off, and its whole-tree transfer takes
  an edit for the older file before anything looks for edits: `Pull.PullReplacesUnpushedExactly`, with
  `Pull.TargetedPullReplacesNewFileExample` and `Pull.FullPullReplacesEditExample`. (The transfer itself leaves
  what it replaces in the local trash, which is not modelled.)
* Repairing a stale manifest entry forgets the base of an unchanged local file. Unless the round is full and may
  delete, the file stays and an old version is uploaded again: `Pull.RepairedFileComesBack`,
  `Pull.RepairedFileExample`.
* An edit that lands during a finished chunk keeps its entry in the durable queue only if the chunk recorded the
  path; where the plan was a plain NAS win or nothing to do, the entry is cleared
  (`client/sync_client/push_worker.py:579-588`): `Chunk.LateEditStaysQueuedExactly`,
  `Chunk.LateEditIsForgottenExample`. A staged publish clears the entries of its whole batch in any case
  (`Staging.StagingWorker.Run`). Such an edit is found again by a full scan, under `Sweep.MissedExactly`.
* A conflict copy made by a chunk that dies between sending the path and the journal is never journaled:
  `Repository.CopyIsListedExactly`. The same holds for a NAS file that wins a conflict while its last record
  describes something else, unless a chunk dies at the right moment: `Recovery.CrashRecovery`.
* The journal gets the local time of an uploaded file in full, the NAS file has whole seconds, and the server
  reports a clock only where record and file agree to the nanosecond
  (`client/sync_client/rsync_ops.py:2227-2240`, `server/sync-daemon-server.sh:651-657`). The clock of a directly
  uploaded file can therefore be seen exactly when its time is a whole second: `Chunk.UploadedClockIsSeenExactly`.
  A staged publish cuts the time before it journals and is not affected: `Staging.PublishExactly`.
* A file that is adopted, also one that a crash left sent but not journaled, is journaled without a clock:
  `Chunk.FinishedAdoption`.
* A rename runs although deletions are disabled, or although a deletion of the destination is on record:
  `Rename.RenameIsPlainExactly` says for which moves it agrees with plain planning.
* The full scan hashes files whose metadata moved, but compares the hash together with that metadata, so hashing
  never takes a file off the list: `Sweep.MetadataDecides`.
* A stored exclude entry is cleaned a second time when it is applied; a folder name with outer whitespace then
  excludes another folder: `Selective.StoredListIsExact`, `Selective.TrailingSpaceExample`.
* Acquiring a permit that is already held never succeeds: refused, the permit forgets that it holds the gate;
  without a timeout it waits for itself: `Scheduler.TransferPermit.Acquire`.
* A server without the journal command makes an append count as delivered; what was to be appended is given up:
  `PushTick.PushLoop.AppendJournal`, `PushTick.PushLoop.RetryPending`.

Two smaller ones need no proof: a delete limit of 0 means 1000 (`PushTick.MaxDeletes`), and the mark for a full
scan is not durable because empty paths are filtered out (`SyncState.Queued`).

## Model

| member | source | states |
|---|---|---|
| CausalVersions.DominatesIsStrictInclusion | client/sync_client/sync_state.py:96-105 | dominance, as decided, is exactly "every counter at least as large, and a different clock" |
| CausalVersions.DominanceIsStrictOrder | client/sync_client/sync_state.py:96-105 | never both ways; transitive |
| CausalVersions.MergeIsLeastUpperBound | client/sync_client/sync_state.py:83-89 | the merge is the least clock that includes both |
| CausalVersions.NewVersionDominates | client/sync_client/sync_state.py:602 | a new change's version dominates the base and the previous version |
| CausalCodec.ParseVersion | client/sync_client/sync_state.py:60-75 | the component loop with its rejections computes the parse function on every text |
| CausalCodec.ParsedDevicesArePlain | client/sync_client/sync_state.py:60-75 | whatever parses is not empty and has no separator in a device name |
| CausalCodec.RoundTripExactly | client/sync_client/sync_state.py:60-78 | writing and reading a clock gives it back iff it is not empty and no device name contains a separator |
| CausalCodec.ParseEncodeParse | client/sync_client/sync_state.py:60-78 | for any accepted text, one more round of writing and reading changes nothing |
| CausalCodec.TwoDevices | client/sync_client/sync_state.py:77-78 | the text of a clock: devices in order, colon, decimal counter, comma |
| SyncState.SyncStateStore.LocalFingerprint | client/sync_client/sync_state.py:578-622 | an unchanged observation keeps its version, a changed one gets base merged with previous plus one own change; only that row changes |
| SyncState.SyncStateStore.RecordFingerprints | client/sync_client/sync_state.py:519-576 | the whole new state of both tables after a batch: which entry, which clock, which observations are re-labelled |
| SyncState.SyncStateStore.MarkPending | client/sync_client/sync_state.py:652-667 | the queue gains the given paths except the empty one, loses none, and never gains the empty one |
| SyncState.SyncStateStore.ClearPending | client/sync_client/sync_state.py:669-678 | the queue loses the given paths except the empty one |
| SyncState.ObservationIsStable | client/sync_client/sync_state.py:578-622 | looking again at the same content gives the same version, whatever the base is by then |
| SyncState.EntryExactly | client/sync_client/sync_state.py:519-551 | a recorded entry holds the content as given and the clock of the fingerprint itself before the supplied one |
| SyncState.VersionExactly | client/sync_client/sync_state.py:590-606 | the version of a new observation, counter by counter: the larger of base and last observation, plus one for the own device |
| SyncState.RelabelExactly | client/sync_client/sync_state.py:553-576 | an observation is relabelled iff a clock is given and the recorded content is the observed one by digest, size and time |
| CausalHistory.RunKeepsInv | client/sync_client/sync_state.py:519-622 | along every run that takes back no own change, clocks summarise causal pasts exactly and own counters count changes |
| CausalHistory.DominanceIsCausality | client/sync_client/sync_state.py:96-105 | in every such run one version dominates another iff the other's change is in its causal past, and no identifier is used twice |
| CausalHistory.IdentifiersAreUnique | client/sync_client/sync_state.py:578-622 | a (device, counter) pair names one change |
| CausalHistory.EveryNumberIsUsed | client/sync_client/sync_state.py:578-622 | every number up to a device's count names a change of it |
| CausalHistory.NewChangeIsSummarised | client/sync_client/sync_state.py:602 | a new change's clock covers an earlier change iff that change is in its past, and then includes its whole clock |
| CausalHistory.ObserveFollowsStore | client/sync_client/sync_state.py:578-622 | the machine's observation row changes exactly as the store's |
| CausalHistory.RecordFollowsStore | client/sync_client/sync_state.py:519-576 | a record changes the machine's row and base exactly as the store's |
| CausalHistory.GuardIsExact | client/sync_client/sync_state.py:553-576 | after a re-labelling record the next change reuses an identifier iff the record took back an own change |
| CausalHistory.ReplacingAVersionCanForgetAChange | client/sync_client/sync_state.py:553-576 | a reachable two-device state in which a version dominates a change that is not in its past |
| Reconcile.PlanIsThreeWayMerge | client/sync_client/reconcile.py:76-186 | the planner carries out the three-way merge of the contents iff none of the listed departures applies; clocks enter by dominance |
| Reconcile.LaterVersionWins | client/sync_client/reconcile.py:120-130 | with both sides changed and a file on the NAS the dominating version wins, and of two unordered ones the later whole second, a tie going to the NAS |
| Reconcile.ActionsExactly | client/sync_client/reconcile.py:76-186 | when each action is planned, over all inputs: three contents, delete switch, dominance of the clocks and whole seconds |
| Reconcile.PlanRetiresOnlyKnownContent | client/sync_client/reconcile.py:98-186 | what each action may replace: uploads and deletes only the common base or content older by its clock, conflicts only two different versions, blocks exactly non-files |
| Reconcile.CleanPathIsInert | client/sync_client/reconcile.py:98-186 | a path equal to its base never plans a change on the NAS |
| Reconcile.AgreementIsAdopted | client/sync_client/reconcile.py:108-170 | ADOPT is planned iff both sides hold the same content and the path is known |
| Reconcile.ConcurrentTieGoesToNas | client/sync_client/reconcile.py:52-60 | of two unordered versions the local one wins iff it is a later whole second |
| Chunk.ObstructedExactly | client/sync_client/push_worker.py:812-820 | which stored states make a chunk fail for good: non-files where a file is expected, and edits whose NAS trace is gone |
| Chunk.ObstructionStays | client/sync_client/push_worker.py:812-820 | no phase changes such a path, so every later plan is obstructed again |
| Chunk.ObstructedExample | client/sync_client/push_worker.py:812-820 | such a state, with an edit newer by its clock |
| Chunk.FinishedPathIsClean | client/sync_client/push_worker.py:484-590 | a finished path is clean, and unless the NAS side had moved all three contents agree |
| Chunk.FinishedPathLosesNothing | client/sync_client/push_worker.py:967-1022 | at every phase: live content on either side is still live, copied, the left-behind base, or older than the deletion by its clock |
| Chunk.CleanPathKeepsNas | client/sync_client/push_worker.py:967-1022 | in no phase does a clean path change the NAS file, the contents or need a copy |
| Chunk.ReplanAfterCrash | client/sync_client/push_worker.py:506-590 | interrupted after any phase, re-planning and finishing gives the disk, base and NAS contents of the uninterrupted path and no new conflict copy; the recorded content too, iff no NAS win over an inaccurate record had been taken over |
| Chunk.SentIsAdopted | client/sync_client/push_worker.py:548-560 | an upload that was sent but not recorded plans ADOPT |
| Chunk.SettledIsAdopted | client/sync_client/push_worker.py:770-842 | an adopted NAS win that was not recorded plans ADOPT, ends with the same contents, and gets its record corrected |
| Chunk.RemovedIsAdopted | client/sync_client/push_worker.py:525-532 | a checked delete that was not recorded plans ADOPT |
| Chunk.CopyIsPlannedAgain | client/sync_client/push_worker.py:994-1015 | after a crash the conflict copy is planned again iff the path was not yet sent or taken over |
| Chunk.LateEditStaysQueuedExactly | client/sync_client/push_worker.py:579-588 | an edit that landed during a finished chunk stays queued iff the plan was not a plain NAS win or nothing |
| Chunk.RecordedExactly | client/sync_client/push_worker.py:561-588 | which finished paths are recorded, and that the new base is what was read back |
| Chunk.LateEditIsForgottenExample | client/sync_client/push_worker.py:579-588 | a path changed on the NAS only, edited before the queue is cleared |
| Chunk.ReportedExactly | server/sync-daemon-server.sh:645-695 | what the NAS reports of a path; a clock comes with a file iff it was journaled for this content, size and time |
| Chunk.FinishedUpload | client/sync_client/push_worker.py:486-577 | a finished upload: file in whole seconds on the NAS, record with local size, time and clock, base with the same clock, nothing else changed |
| Chunk.FinishedDelete | client/sync_client/push_worker.py:983-990 | a finished delete: no file, a deletion on record, a base with the clock of the local deletion |
| Chunk.FinishedNasWin | client/sync_client/push_worker.py:730-742 | a finished NAS win: file, time and reported clock of the NAS on the disk and in the base, or its deletion |
| Chunk.FinishedAdoption | client/sync_client/push_worker.py:548-577 | a finished agreement: the base takes content and clock of the local file; what is journaled has no clock |
| Chunk.FinishedByNas | client/sync_client/push_worker.py:476-484 | everything else is unchanged, but an overruled local deletion is recorded with the clock of the NAS |
| Chunk.UploadKeepsHistory | client/sync_client/push_worker.py:977-979 | the record of a finished upload includes every clock the file's version included |
| Chunk.UploadedClockIsSeenExactly | server/sync-daemon-server.sh:651-657 | the NAS reports the clock of a finished upload iff there is none or the file's time is a whole second |
| Chunk.CopyExactly | client/sync_client/push_worker.py:985-1015 | which version is stored beside a path, with which size and time |
| Chunk.RemoveSparesChanges | server/sync-daemon-server.sh:1196-1201 | the conditional delete removes iff content and whole second are still those planned for |
| Chunk.EffectsInOrder | client/sync_client/push_worker.py:476-577 | at every phase: contents reach the NAS before the disk is touched, the journal follows, the base comes last |
| Chunk.ReadBackExactly | client/sync_client/push_worker.py:725-768 | the read-back of any path, also one edited meanwhile: the local file only if the NAS still has its content, an unlisted agreement as the disk has it, a delete only if the file is gone |
| Chunk.ConfirmedExactly | client/sync_client/push_worker.py:725-768 | what the read-back takes for the state of a path, by its plan |
| Repository.ChunkLosesNothing | client/sync_client/push_worker.py:932-1022 | for a whole chunk stopped anywhere: every content live before is kept on the NAS or on the disk, or was the base both had, or older than the deletion |
| Repository.AttemptKeepsOutcome | client/sync_client/push_worker.py:484-590 | a chunk cut at any phase of any path leaves a state whose own chunk ends with the same live contents; which records may differ is said exactly |
| Repository.CopyIsListedExactly | client/sync_client/push_worker.py:543-577 | a conflict copy of a chunk that died stays on the NAS, and is in the journal at the end iff the chunk died before the path was sent or after the journal |
| Repository.CopyCarriesLosingSide | client/sync_client/push_worker.py:985-1015 | the conflict copy of a path: named for the losing content, with the losing side's bytes and clock |
| Repository.FinishedChunkClocks | client/sync_client/push_worker.py:570-577 | in a finished chunk uploads are journaled with the file's clock, deletes recorded with the deletion's, NAS wins with the NAS's, conflict copies journaled with the loser's |
| Repository.ChunkSparesTheRest | client/sync_client/push_worker.py:506-590 | outside its paths a chunk, finished or cut short, changes nothing but the targets of its conflict copies, and no deletion clock anywhere |
| Repository.CleanPathsAddNothing | client/sync_client/push_worker.py:967-1022 | planning clean paths as well has the same effect on every content as leaving them out |
| Recovery.RenamesKeepFuture | client/sync_client/push_worker.py:1142-1202 | renames carried out on the NAS, recorded or not, leave a state with the same outcome for every path |
| Recovery.CrashRecovery | client/sync_client/push_worker.py:476-590 | any number of attempts, each with renames done, half done or not tried and every path cut at any phase, then a finished one: disk, base and NAS contents of every path are those of a chunk that never crashed nor renamed; recorded contents too, iff no attempt had taken over a NAS win over an inaccurate record, and then the record is correct |
| PushChunk.PushWorker.RunChunk | client/sync_client/push_worker.py:440-603 | wherever it stops the state is the chunk effect for a cut; only an interruption, an obstructed path or the limit stops it; success means finished and nothing obstructed; `deleted` is exactly the NAS files gone; the budget holds; the limit is reported only when planned deletes exceed it; which paths leave the durable queue: in a chunk that stops only overruled deletions, and only once they are the base |
| PushChunk.PushWorker.BuildPlan | client/sync_client/push_worker.py:932-1022 | every path sorted under its action, conflict copies made first, stopping at the first blocked path |
| PushChunk.PushWorker.Settle | client/sync_client/push_worker.py:770-842 | the NAS side replaces the local one for all conflicts, or for none when one of them cannot be read; then no path of the chunk was obstructed |
| PushChunk.PushWorker.Remove | client/sync_client/push_worker.py:525-532 | completed deletes are exactly those carried out |
| PushChunk.PushWorker.Confirm | client/sync_client/push_worker.py:548-590 | read-back, journal and record leave the committed phase, or a cut between them; what was read back is each path's confirmation |
| PushChunk.PushWorker.ClearDone | client/sync_client/push_worker.py:579-588 | the queue loses the chunk's paths, all but those recorded as something else than what is on the disk |
| PushChunk.ReadBackIsRight | client/sync_client/push_worker.py:725-768 | the order in which the four sets are consulted gives each path its authoritative state |
| PushChunk.NothingIsMissing | client/sync_client/push_worker.py:735-756 | with no obstructed path the read-back under the lease finds every uploaded or agreed file on the NAS, and every winning version as a file or a recorded deletion |
| PushChunk.LostPaths | client/sync_client/push_worker.py:525-532 | the NAS files gone when a chunk stops are those of its executed deletes |
| PushRename.ChunkRunner.Run | client/sync_client/push_worker.py:462-590 | renames first, then the phases for everything else, failed renames included: recognised moves only, the chunk effect on the rest, the budget; a finished run whose moves are harmless ends as planned without renames |
| PushRename.HarmlessRunIsAsPlanned | client/sync_client/push_worker.py:959-990 | every path, moved or not, has the contents its own plan at the start gives it |
| Pull.PullWorker.Preflight | client/sync_client/pull_worker.py:283-304 | the fetch set and the number of unseen deletions, against the base |
| Pull.PullWorker.Repair | client/sync_client/pull_worker.py:334-406 | stale entries are journaled as deletions and recorded unless the local file is a change of its own; fails iff a listed path is no regular file |
| Pull.PullWorker.FindEdit | client/sync_client/pull_worker.py:407-428 | found iff some file to fetch has a local content that is neither base nor NAS |
| Pull.PullWorker.Tick | client/sync_client/pull_worker.py:283-508 | when a round runs, its whole effect on tree, bases and records, targeted or full, called off or not; with deletions on and something queued a round that could delete is put off and changes nothing, and one that runs removes no local file |
| Pull.RoundRunsExactly | client/sync_client/pull_worker.py:108-130 | a round runs iff not (it may delete, something is queued, and it is a full one or an unseen deletion is on record) and no listed, changed path is a non-file |
| Pull.FetchExactly | client/sync_client/pull_worker.py:283-304 | which paths are fetched by name, which edits stop them, which entries are stale |
| Pull.SweepExactly | client/sync_client/rsync_ops.py:1908-1947 | the whole-tree transfer path by path: missing and older-looking files taken, files gone on the NAS removed if allowed |
| Pull.PulledExactly | client/sync_client/pull_worker.py:334-508 | what a round leaves on the disk, in the base (with which clock) and on record at each path |
| Pull.CleanPullReachesExactly | client/sync_client/pull_worker.py:283-508 | on a clean path, whatever manifest, file and base are, a round with deletions ends with the NAS content on disk and in the base iff the path is one it reaches |
| Pull.CleanPullMirrorsExactly | client/sync_client/pull_worker.py:283-508 | a clean client becomes a mirror iff the round reaches every path |
| Pull.CleanPullMirrors | client/sync_client/pull_worker.py:283-508 | where manifest and files agree every round on a clean client, with deletions allowed, runs, leaves exactly the NAS contents and no NAS change; a base without a NAS trace takes a full round |
| Pull.PullReplacesUnpushedExactly | client/sync_client/pull_worker.py:407-470 | which unpushed local content a round replaces, targeted or full, deletions on or off, called off or not, from what is stored |
| Pull.FullPullReplacesEditExample | client/sync_client/pull_worker.py:441-470 | a full round with deletions off that runs although an edit is queued, and replaces it on disk and in the base |
| Pull.TargetedPullReplacesNewFileExample | client/sync_client/pull_worker.py:407-440 | a targeted round that fetches over a queued new file |
| Pull.RepairedFileComesBack | client/sync_client/pull_worker.py:360-406 | a clean file whose stale entry was repaired is planned as an upload iff it is on the disk and the round is targeted or may not delete |
| Pull.RepairedFileExample | client/sync_client/pull_worker.py:360-406 | a stored state in which an old version comes back |
| Convergence.PushCleans | client/sync_client/push_worker.py:483-590 | a finished chunk cleans its paths, touches no other client's state and keeps the fleet in order: unlisted files keep an uploader, edits keep their NAS trace |
| Convergence.CleanPushKeepsNas | client/sync_client/reconcile.py:98-186 | a clean client's push changes no NAS file |
| Convergence.TracedIsPushable | client/sync_client/push_worker.py:812-820 | with every edited base traced on the NAS no chunk is obstructed |
| Convergence.PullSettles | client/sync_client/pull_worker.py:479-508 | a clean client's pull keeps it clean and leaves the NAS alone; it makes it a mirror where no file is unlisted and its bases are traced or the round is full |
| Convergence.PushRoundCleans | client/sync_client/push_worker.py:326-353 | chunks of all clients in any order: a path once covered stays clean |
| Convergence.FleetConverges | client/sync_client/push_worker.py:483-590 | from a fleet that may hold crashed, unjournaled uploads: every changed path pushed by its client in any interleaving of chunks, then every client pulled in any order, by a full round or with its bases traced: all trees equal the NAS |
| Convergence.PushReducesDirtyClients | client/sync_client/push_worker.py:483-590 | no chunk makes a client dirty; one fewer is dirty iff the chunk covers all its client had to push |
| Convergence.ConvergedIsQuiet | client/sync_client/reconcile.py:98-186 | after convergence no push changes anything |
| Safety.NothingIsLost | client/sync_client/push_worker.py:605-1022 | in every run of edits, NAS changes, chunk effects, renames, staged publishes, stops and pulls of any client, clean or not, every content ever written at a path is, under that path or a conflict name derived from it, on the NAS, waiting on a client, replaced by a user, or outdated by a deletion's clock |
| Safety.RunKeepsInv | client/sync_client/push_worker.py:407-705 | the invariant behind it, with edits allowed in the middle of a chunk, a rename or a publish |
| Safety.EffectsArePhases | client/sync_client/push_worker.py:476-590 | without interference an unobstructed path can always take its next effect, and effect by effect it goes through the phases of the chunk |
| Safety.PlanIsThePlanners | client/sync_client/push_worker.py:967-976 | the machine's plan of an unchanged path is the planner's |
| Safety.EffectOnPath | client/sync_client/push_worker.py:506-590 | each effect keeps what the plan relies on, and removes only NAS content that is accounted for |
| Safety.NewPlanHolds | client/sync_client/push_worker.py:967-1022 | a fresh plan has everything it will replace accounted for |
| Safety.PullKeepsContents | client/sync_client/pull_worker.py:82-130 | a fair pull round of any client, targeted or full, repaired or called off, with whatever is queued, endangers no content |
| Safety.PullFairnessIsExact | client/sync_client/pull_worker.py:407-470 | a round leaves all unpushed content on the disk iff it is fair, as decided from what is stored |
| Safety.MoveKeepsContents | client/sync_client/push_worker.py:1142-1202 | a rename on the NAS, recorded later or never, endangers no content |
| Safety.PublishKeepsContents | client/sync_client/push_worker.py:667-705 | a publish of a batch staged earlier, accepted or refused, endangers no content |
| Safety.RecordKeepsContents | client/sync_client/push_worker.py:688-705 | recording what a rename or a publish has done keeps every base safe, whatever was edited meanwhile |
| Safety.LateFileBreaksInvExactly | client/sync_client/push_worker.py:751-752 | of all effects of a chunk exactly the read-back of an adopted, unlisted path with new content on the disk breaks the invariant |
| Safety.LateFileIsRecordedAsPushed | client/sync_client/push_worker.py:751-752 | the recorded base of an unlisted adopted path is on the NAS iff the path is still absent or holds the NAS content |
| Safety.LateFileExample | client/sync_client/push_worker.py:548-560 | such a chunk, step by step |
| Rename.FindPlans | client/sync_client/push_worker.py:1108-1140 | the file plans are exactly the unambiguous moves with unchanged NAS source and free destination; no path is in two |
| Rename.MovableExactly | client/sync_client/push_worker.py:1108-1140 | what an unambiguous move is: same content, size and time, one file gone and one without base, no third candidate, NAS source unchanged, NAS destination free |
| Rename.FreshPlanIsRunnable | client/sync_client/push_worker.py:1119-1139 | a plan just made can be carried out, and carries the clock of the local deletion |
| Rename.MovedExactly | client/sync_client/push_worker.py:1166-1180 | what a rename leaves at source and destination: file, journal records, bases and their clocks |
| Rename.RenameWorker.RunRenames | client/sync_client/push_worker.py:1142-1202 | carried out are exactly the plans whose disk and NAS state still allow it and which the NAS does not refuse; nothing else changes |
| Rename.RenameIsPlainExactly | client/sync_client/push_worker.py:1123-1139 | a rename leaves the contents of upload plus delete iff deletions are allowed, no deletion of the destination is on record and the NAS source does not dominate |
| Rename.RenamesPreserveChunk | client/sync_client/push_worker.py:959-990 | such renames followed by the rest of the plan equal a chunk planned without renames, on every path |
| Rename.HalfRenameIsAdopted | client/sync_client/push_worker.py:1166-1188 | a rename that was not recorded plans ADOPT on both paths and ends the same |
| Rename.RecognisedMovesCanMove | client/sync_client/push_worker.py:1119-1139 | what is recognised and carried out is of the kind compared |
| Rename.DirectoryRenameIsExact | client/sync_client/push_worker.py:1052-1105 | a directory rename touches only its listed files iff the NAS directory holds no other file |
| Rename.DirectoryRenameIsFileRenames | client/sync_client/push_worker.py:1052-1105 | then it is the renames of its files |
| Staging.StageableExactly | client/sync_client/push_worker.py:979-981 | staged are exactly files without live base, NAS file or NAS record |
| Staging.PublishExactly | server/sync-daemon-server.sh:1043-1142 | accepted iff the private tree holds what was announced and the destinations are all free or all there already; with free ones every path gets its file and its journal record with content, whole seconds, stamp and clock; otherwise nothing changes |
| Staging.PublishIsAllOrNothing | server/sync-daemon-server.sh:1043-1142 | accepted: every path holds the announced bytes; refused: nothing changed; existing entries are never touched |
| Staging.PublishedViewIsReached | client/sync_client/push_worker.py:682-705 | publish and record together leave the published view of a path |
| Staging.StagingWorker.Run | client/sync_client/push_worker.py:605-705 | a source that changed during the upload stops the batch; refused iff the server cannot publish it as found; else published with files and journal records, recorded and off the queue, or, if the reply was lost, published only |
| Staging.PublishIsUpload | client/sync_client/push_worker.py:682-705 | a published path ends like a direct upload of the same plan |
| Staging.LostReplyIsAdopted | client/sync_client/push_worker.py:682-705 | after a lost reply the next plan adopts without a transfer |
| Staging.FrameIsInjective | client/sync_client/push_worker.py:707-723 | NUL-terminated fields determine the list of fields |
| Staging.TransactionNamesOneBatch | client/sync_client/push_worker.py:707-723 | identifiers are equal iff the batches have the same paths, contents, sizes and times |
| PushTick.Chunked | client/sync_client/push_worker.py:86-88 | chunks are full but for the last, not empty, and join to the list |
| PushTick.SplitIsPartition | client/sync_client/push_worker.py:308-316 | every path is a staging candidate or not, exactly once |
| PushTick.SortedAgain | client/sync_client/push_worker.py:431 | sorting the set of a chunk's paths gives the chunk back |
| PushTick.ParseReply | client/sync_client/rsync_ops.py:946-960 | accepted iff every status is known; completed are the paths not reported stale |
| PushTick.PushLoop.CheckedDelete | client/sync_client/rsync_ops.py:910-960 | for every reply of a truthful server: it succeeds iff every request is answered with a known status; at most the requested files are gone, and on success only completed ones |
| PushTick.PushLoop.RetryPending | client/sync_client/rsync_ops.py:2293-2320 | it fails only for a failure outside, never with nothing waiting; on success nothing undelivered waits, and the file is gone unless it cannot be removed; order and durability of saved payloads kept; only a server without the command makes it give one up |
| PushTick.PushLoop.AppendJournal | client/sync_client/rsync_ops.py:2243-2292 | success means the journal has the payload, or the server has no such command; a failed one is saved unless the process dies or no payload could be built, and only into a free slot |
| PushTick.PushLoop.RunChunk | client/sync_client/push_worker.py:407-492 | staged, cut again or run under the lease: covers its paths, keeps budget and slot; it ends whole, at the limit, or by a failure outside |
| PushTick.PushLoop.RunFallback | client/sync_client/push_worker.py:426-441 | the second cut covers the chunk and never runs more than 100 paths under a lease |
| PushTick.PushLoop.Tick | client/sync_client/push_worker.py:271-354 | actual deletions never exceed the limit, 1000 when unset or 0, none when negative; staging is tried for the candidates and only for them, at most 500 paths together, at most 100 under a lease; a successful tick handled every path exactly once; one that fails met a failure outside or the limit, and never the limit with no more paths than that; no saved payload lost or overtaken, by a server that knows the journal command |
| Sweep.ChangedPaths | client/sync_client/sync_state.py:813-880 | the two-stage scan reports a file both sides know iff size or time has moved, new files always, missing ones iff the base is a file |
| Sweep.MissedExactly | client/sync_client/sync_state.py:843-859 | it misses a change iff both sides have the file with equal size, equal time and different content |
| Sweep.MetadataDecides | client/sync_client/sync_state.py:843-877 | when a path is reported, by size, time and presence on either side, hashed or not |
| Sweep.SweepRefinesFullReconciliation | client/sync_client/sync_state.py:813-880 | if content changes show in metadata, pushing the reported paths equals pushing all known paths, on every content |
| Scheduler.AgeingKeepsOrder | client/sync_client/transfer_scheduler.py:96-99 | at every moment the sort key orders two waiting requests by 30 s per priority step plus queue time |
| Scheduler.OvertakingExactly | client/sync_client/transfer_scheduler.py:66-72 | a later request goes first iff its priority head start exceeds its delay; never after 90 s |
| Scheduler.KindsInOrder | client/sync_client/transfer_scheduler.py:10-21 | push, pull, mirror, preview: each kind overtakes the next iff it is less than 30 s late, the one after within 60 s, push a preview within 90 s, and never the other way |
| Scheduler.KeyExactly | client/sync_client/transfer_scheduler.py:96-99 | the sort key of each kind at one reading of the clock |
| Scheduler.NinetySecondsIsTight | client/sync_client/transfer_scheduler.py:10-21 | any shorter delay can overtake |
| Scheduler.QueuePositionImproves | client/sync_client/transfer_scheduler.py:66-72 | each grant moves a waiting request up by one, a 90 s later arrival never moves it back |
| Scheduler.First | client/sync_client/transfer_scheduler.py:66 | the scan for the minimum finds the one that precedes all others |
| Scheduler.TransferScheduler.Grant | client/sync_client/transfer_scheduler.py:67-72 | one holder, first in line, nobody passed over who waited 90 s longer |
| Scheduler.TransferScheduler.Acquire | client/sync_client/transfer_scheduler.py:52-86 | a non-blocking request is answered at once and granted iff the gate and the queue are empty; one holder; no lost wake-up |
| Scheduler.TransferScheduler.Recheck | client/sync_client/transfer_scheduler.py:66-86 | a woken request is granted iff it is first in a free gate, leaves only on its deadline |
| Scheduler.TransferScheduler.Release | client/sync_client/transfer_scheduler.py:88-94 | fails iff nobody holds; otherwise everybody is awake |
| Scheduler.TransferPermit.Acquire | client/sync_client/transfer_scheduler.py:147-149 | blocking, timed or neither: granted iff the scheduler grants; on a held permit never, and the gate stays taken |
| Scheduler.TransferPermit.Resume | client/sync_client/transfer_scheduler.py:147-149 | a waiting permit holds the gate iff it comes to be first in a free one; not while it holds it itself |
| Scheduler.TransferPermit.Release | client/sync_client/transfer_scheduler.py:151-154 | frees the gate iff the permit holds it |
| FingerprintCache.Cache.Fingerprint | client/sync_client/sync_state.py:383-416 | against any writer: the digest returned is that of the whole content at the final stat; without one the path is no file at the end or changed twice |
| FingerprintCache.Cache.Attempt | client/sync_client/sync_state.py:385-415 | one look gives the fingerprint, or the path is no file at the end, or it changed |
| FingerprintCache.Cache.ReadAll | client/sync_client/sync_state.py:401-402 | block-wise reading yields the content if it did not change meanwhile |
| FingerprintCache.Cache.Store | client/sync_client/sync_state.py:409-412 | never more than 50000 entries, each with its true digest; all others are forgotten at 50000 and not before |
| FingerprintCache.UntornRead | client/sync_client/sync_state.py:403-408 | equal stats before and after mean one unchanged file throughout |
| ConflictNames.Print | client/sync_client/push_worker.py:1210-1228 | the shortening loop computes the longest fitting stem |
| ConflictNames.NameFits | client/sync_client/push_worker.py:1218-1227 | at most 240 bytes, 243 when nothing of the stem fits |
| ConflictNames.RoundTripExactly | client/sync_client/conflicts.py:14-31 | the reader recovers the name iff it has at most 207 bytes, no newline before its suffix and no conflict tag in its suffix |
| ConflictNames.NoMatchInsideTag | client/sync_client/conflicts.py:14-16 | no other reading starts inside the printed tag |
| ConflictNames.OriginIsDevice | client/sync_client/conflicts.py:14-16 | wherever the tag can be read it names the device that lost |
| ConflictNames.NamesAreApart | client/sync_client/push_worker.py:1210-1228 | copies of one name differ iff device or content token differ |
| ConflictNames.SuffixExactly | client/sync_client/push_worker.py:1217-1223 | the suffix starts at the last dot unless that begins or ends the name |
| Selective.MinimizeExcluded | client/sync_client/selective.py:54-67 | one pass over the sorted list keeps exactly the entries no other covers |
| Selective.MinimizedIsEquivalent | client/sync_client/rsync_ops.py:1552-1555 | same exclusions as the input, no entry covers another, none can be dropped |
| Selective.StoredListIsExact | client/sync_client/rsync_ops.py:1552-1555 | applied as stored, the list excludes the same paths iff no kept entry begins or ends with whitespace |
| Selective.CoversExactly | client/sync_client/selective.py:54-67 | an entry covers its own path and what lies below it as a folder |
| Selective.MinimizingIsIdempotent | client/sync_client/selective.py:54-67 | under the same condition minimizing again changes nothing |
| Selective.TrailingSpaceExample | client/sync_client/selective.py:61 | an entry for which it does not |
| ManifestPath.EncodeIsPiecewise | server/sync-daemon-server.sh:369-376 | four whole-text replacements escape each character on its own |
| ManifestPath.DecodeUndoesEncode | client/sync_client/rsync_ops.py:1296-1301 | decoding undoes encoding for every path |
| ManifestPath.Decode | client/sync_client/rsync_ops.py:1296-1301 | the loop over the four pairs is the four replacements in order |
| ManifestPath.EscapedExactly | server/sync-daemon-server.sh:369-376 | the four escapes as written, every other character unchanged |
| ManifestPath.PercentFirstIsWrong | client/sync_client/rsync_ops.py:1297-1299 | undoing the percent sign first would corrupt the name "%0A" |

## Left out

- Safety.NothingIsLost: assumes free conflict names, no file with new content appearing at an adopted absence between the journal list and its read-back (the case `Safety.LateFileExample` shows), and no pull that replaces unpushed content (exactly the case of `Pull.PullReplacesUnpushedExactly`). A pull round is one step, a check and the effect it guards are one step, and a directory rename that moves unlisted files is not a step.
- Convergence.FleetConverges: no edits during the rounds, no special NAS entries, no record of a file that is gone. A file without a record of it is allowed where its uploader still has to push it; a conflict copy left without one by a crash is not, see `Repository.CopyIsListedExactly`.
- Convergence.PushCleans: the same fleets; an edit whose NAS trace is gone is excluded, because its chunk never finishes (`Chunk.ObstructedExactly`).
- Recovery.CrashRecovery: the renames of an attempt are harmless ones (`Rename.RenameIsPlainExactly`); the records of conflict copies are the subject of `Repository.CopyIsListedExactly`, for one crash.
- PushChunk.PushWorker.RunChunk: no edits while it runs, only before the queue is cleared; `Safety` has edits between any two effects. Renames are in `PushRename.ChunkRunner.Run`.
- PushChunk.PushWorker.BuildPlan: plans no renames; the paths they take out of the plan are withdrawn by `PushRename.ChunkRunner.Run`, which renames before it plans the rest where the code plans first.
- PushChunk.PushWorker.Settle: the check that the local file is still the one planned for, which cannot fail without edits; `Safety.MayAdvance` has it.
- PushChunk.PushWorker.Confirm: no edit during the read-back; `Safety.LateFileBreaksInvExactly` has it.
- PushRename.ChunkRunner.Run: the queue entries of renamed paths, which the code clears when disk and plan still agree.
- Chunk.ReportedExactly: the server trusts a record whose size and time match the file and reports its digest without hashing; a NAS file changed behind the journal with size and second unchanged is therefore reported as it was, which the model does not show.
- Rename.RenameWorker.RunRenames: file plans only; a directory plan is the renames of its files where `Rename.DirectoryRenameIsFileRenames` says so.
- Pull.PullWorker.Repair: nobody changes the NAS between the live check and the repair, so the server never answers that the file is back.
- Pull.PullWorker.Tick: transfers that fail or are cancelled half way, the pull-only mode, and the manifest cursor, which advances on rounds that were called off.
- PushTick.PushLoop.Tick: one server per loop, with or without the journal command; no change of server between two ticks.
- CausalCodec.ParseVersion: digits are ASCII, and numbers have no length limit.
- ConflictNames.Print: names are Unicode text; bytes that are not valid UTF-8 have no model, and the parent folder is left aside.
- Scheduler.TransferPermit.Acquire: permits of one owner thread; a permit shared by threads breaks even the contract shown.
- FingerprintCache.Cache.Fingerprint: a stat result never returns after the file was changed, and never stands for two contents.
- Selection of a directory rename (one matching pair of folders); only its effect is modelled.
- The conflict copies a speculative staging plan may make before falling back: the fallback is an attempt that stopped after planning, which `Recovery.CrashRecovery` covers.
- The stability wait, and the resolution of directory events into files.
- The NAS lease, rsync and SSH processes, host keys, the SQLite layer, and the legacy protocol versions that carry no clocks.
- The user interface, mirrors, history retention, conflict resolution by the user, and the folder watcher.

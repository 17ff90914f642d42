# ObSink: verified model of the sync protocol

ObSink keeps vaults (directories of notes) in step across devices through one server. A device
syncs in *cycles*: it walks its disk, adds a tombstone for every base entry it no longer finds,
fetches the server's manifest, and makes a three-way diff against its last checkpoint (the
*base*). It downloads, resolves conflicts as the user chose, uploads in batches, fetches the
manifest again and writes it as the new base. Paths that failed or stayed in conflict are *held
back*: they keep their old base entry. The server accepts a write only when the parent hash it
carries is the hash of the row it has.

This project models that protocol and the parts around it, and proves what they guarantee. A
file's content is stood for by its hash; a side's version of a path is `Gone` or `Present(hash)`.

## How it is laid out

| files | what they hold |
|---|---|
| `types`, `manifest`, `sync_rules`, `local_state` | records, three-way diff, checkpoint merge, batching, conflict rules, working manifest |
| `server_gate`, `transactions` | the parent-hash gate, and rows and blobs changing together |
| `protocol`, `no_lost_update`, `limits`, `edit_limits` | any number of devices, steps interleaving freely; safety over whole runs; where safety ends, on the server and on a device's own disk |
| `solo_cycle`, `resume`, `resolution`, `carrying_out`, `copy_limits`, `convergence` | one device's cycle undisturbed: exact resume, faithful resolution and its limits, convergence |
| `uploads`, `downloads`, `complete`, `rounds` | the loops of a cycle, with every failure path, and what one or two rounds of them amount to |
| `refinement`, `whole_cycle` | those loops, with other devices in between, are runs of the protocol: the round, the preparation, the whole cycle |
| `debouncer` | the daemon's timed batching of file events |
| `hash_cache`, `manifest_cache` | the hash memo and the ETag cache, each against the slow thing it replaces |
| `sorting`, `history_names`, `blob_store`, `retention` | blob history: names, order, undo, pruning |
| `item_rows`, `item_store`, `item_tree`, `change_feed`, `reconcile`, `mirror` | the iOS item table: tree, change feed, mirroring the disk |

Code that changes things step by step is a class or a method with loops, proved against a function
or predicate; the properties that span calls are lemmas about those. In `protocol` a cycle is not
atomic: the snapshot, each transfer, each resolution and the checkpoint are separate steps of a
state machine, in any interleaving with other devices, with user edits, failures and lost replies.

## Properties that do not hold of the code as written

Each of these is stated exactly: the member below says when the property holds and when it does not.

- A checkpoint takes over rows another device wrote after the snapshot. The next cycle deletes or
  overwrites such a version unseen (`Limits.AbsorbedWriteIsLost`, and a whole run in
  `Limits.AnUpdateIsLost`). `Protocol.Undisturbed` is the hypothesis that excludes it.
- The gate compares hashes only, so a tombstone's hash admits a write over a file re-created with
  the same content (`Limits.StaleParentLosesIff`, and a whole run in `Limits.ATombstoneLosesAnUpdate`).
- Un-ignoring a path can delete it remotely (`Limits.UnignoringDeletes`, a concrete case in
  `Limits.AnUnignoredFileIsDeleted`).
- What a cycle writes on disk it writes without looking, so a file edited after the walk is lost when
  something else is written at its path (`EditLimits.EditStaysIff`, a concrete case in
  `EditLimits.AnEditIsLost`).
- A second round after late conflicts forgets the failed downloads of the first and turns them
  into uploads of the stale file (`Rounds.EverySecondRoundTurnsAroundIff`, and a concrete round in
  `Rounds.AStaleFileGoesUp`).
- `KeepBoth` sends its copy without a parent, so a tombstone at the copy path (an earlier copy that
  was deleted) makes the server refuse it: the other version then is on this disk only, until the
  next cycle sends it (`Resolution.ChoicesAreCarriedOut`, `SoloCycle.CopyIsAcceptedIff`, a concrete
  cycle in `CopyLimits.ACopyIsRefused`). The copy is also written over whatever file is at its path
  (`CopyLimits.CopyDestroysIff`, a concrete case in `CopyLimits.ACopyDestroys`).
- The comment at server/src/routes/files.rs:182-184 promises that row and file never disagree. They do
  after a blob write that fails over a live file, a crash between the change of the blobs and the commit,
  a commit that the database applied although it reported a failure, and an undo whose own file operations
  fail: `Transactions.AgreementIsKeptIff` says exactly when, and `Transactions.ARequestTears` gives an
  upload that does in each of the four ways.
- Undo does not bring back a live blob that was written over unarchived (`BlobStorage.UndoRestoresIff`,
  a concrete case in `BlobStorage.AnOverwrittenBlobIsGone`).
- Retention sorts by the second alone, so when its cut falls within one second it may drop the newest
  (`Retention.KeepsTheHeadIff`, a concrete case in `Retention.SameSecondMayLoseTheNewest`), and a gap it
  leaves makes the next entry of that second list as older (`HistoryNames.NewEntryListsFirstIff`, a
  concrete case in `HistoryNames.ANewEntryListsLast`).
- The highest row version falls when rows are hard-deleted, and later changes are then missed
  (`ChangeFeed.HardDeleteMissesIff`, `ChangeFeed.CreatedAfterDrainIsMissed`).
- A revived item row keeps its pending deletion, so draining removes the row of a file that is on
  disk (`Mirror.DrainRemovesRevivedIff`, a concrete case in `Mirror.ARevivedFileIsDrained`).

## Model

| member | source | states |
|---|---|---|
| `Manifests.DecideIsThreeWayMerge` | core/src/manifest.rs:33-47 | carrying out the decision for a path gives the textbook three-way merge on both sides; a clash is exactly a merge without a result; exchanging the sides exchanges the directions |
| `Manifests.DiffManifests` | core/src/manifest.rs:48-103 | the loop lists, once each, exactly the actions and conflicts the decision table plans; a path is mentioned if and only if the two sides hold different versions |
| `Manifests.MentionedIffDifferent` | core/src/manifest.rs:48-103 | any listing of the plan mentions a path exactly when the sides differ there |
| `Manifests.CheckpointManifest` | core/src/manifest.rs:108-125 | the next base is the re-fetched manifest outside the hold-back set and the old entry, or absence, inside it |
| `Manifests.NextBaseAt` | core/src/manifest.rs:105-125 | the same, path by path |
| `SyncRules.ChunkUploads` | core/src/sync_rules.rs:22-40 | batches are non-empty consecutive ranges covering each index once, each within 64 operations and 32 MiB or a single file; no such split has fewer batches; with sizes below 2^63 every sum the loop forms for a batch, the one that closes it included, fits 64 bits |
| `SyncRules.GreedyIsShortest` | core/src/sync_rules.rs:17-40 | a split whose every batch is full is no longer than any split within the limits |
| `SyncRules.GreedyStaysAhead` | core/src/sync_rules.rs:22-40 | the k-th greedy batch ends no earlier than the k-th batch of any other split |
| `SyncRules.CopyPathInjective` | core/src/sync_rules.rs:84-103 | a conflict copy never lands on its original, and two originals never share a copy path |
| `LocalState.BuildWorkingManifest` | core/src/sync_engine.rs:656-684 | the walk plus a tombstone with the base hash for every live base entry not on disk, and nothing else |
| `LocalState.DiffLocalAndRemote` | core/src/sync_engine.rs:168-182 | an ignored path is never mentioned; any other exactly when the sides differ, once, in one list, with the entries the diff plans |
| `LocalState.WorkingShowsDisk` | core/src/sync_engine.rs:656-684 | outside ignored paths, the working manifest's version is what is on disk |
| `ServerGate.VaultServer.Apply` | server/src/routes/files.rs:122-281 | a missing row takes any write, an existing row only one that names its hash; a retried upload whose content is live is answered Ok without a write; otherwise a conflict with the current row; every change bumps the revision once |
| `ServerGate.RetryIsHarmless` | server/src/routes/files.rs:161-173 | repeating an accepted request changes no version, and is answered Ok except for a delete of a never-seen path sent with a parent |
| `Protocol.StepKeepsInv` | core/src/sync_engine.rs:285-368 | every step of every device keeps the protocol invariant: bases and working manifests show only versions the device had, and rows no other device touched are the snapshot's or the device's own |
| `Protocol.CheckpointKeepsInv` | core/src/sync_engine.rs:614-631 | a checkpoint whose foreign writes are all held back puts only versions the device had into its base |
| `Protocol.ExecuteKeepsInv` | server/src/routes/files.rs:122-281 | a request executed for one device keeps the invariant of all devices |
| `Protocol.BeginKeepsInv` | core/src/sync_engine.rs:226-262 | taking a snapshot keeps the invariant |
| `NoLostUpdate.RunsLoseNothing` | core/src/sync_engine.rs:285-368 | in every undisturbed run of any number of devices, a live version replaced by an accepted plain upload or remote delete was on that device's own disk during one of its cycles |
| `NoLostUpdate.RunKeepsInv` | core/src/sync_engine.rs:285-368 | the invariant holds in every state of every undisturbed run |
| `NoLostUpdate.ReplacesWhatItHad` | core/src/manifest.rs:48-125 | one accepted upload replaces a version its sender had |
| `NoLostUpdate.HadWasOnDisk` | core/src/sync_engine.rs:656-684 | what a device is recorded to have had was on its disk in some cycle of the run |
| `Limits.AdoptedRowIsPushedBack` | core/src/sync_engine.rs:620-626 | a row taken into the base from the server is pushed back, stale, exactly when the disk does not hold it |
| `Limits.AbsorbedWriteIsLost` | core/src/sync_engine.rs:614-684 | after a checkpoint the next cycle overwrites a version the device never had exactly when the row taken over is unseen and not on disk, and only a foreign write can leave one |
| `Limits.GateIgnoresTombstones` | server/src/routes/files.rs:161-173 | a planned upload replaces a live version exactly when the live row has the hash of the row the diff saw, tombstone or not |
| `Limits.StaleParentLosesIff` | server/src/routes/files.rs:161-173 | a send overwrites a version its device never had exactly when the diff saw a tombstone, the file came back under that hash, and the device never had it; only another device can have brought it back |
| `Limits.ATombstoneLosesAnUpdate` | server/src/routes/files.rs:161-173 | a concrete run without checkpoints in which device 0 replaces a version that never was on its disk |
| `Limits.UnignoringDeletes` | core/src/sync_engine.rs:168-182 | un-ignoring a checkpointed path plans a remote delete exactly when it is live there and not on disk |
| `Limits.AnUnignoredFileIsDeleted` | core/src/sync_engine.rs:168-182 | a concrete checkpoint after which the cycle without the rule plans to delete a file the device never had |
| `Limits.AnUpdateIsLost` | core/src/sync_engine.rs:614-684 | a concrete two-device run in which device 0 deletes a file that never was on its disk |
| `Limits.AnUpdateIsReplaced` | core/src/sync_engine.rs:285-368 | a concrete run that meets the hypotheses of the safety theorem and does replace a live version |
| `EditLimits.EditStaysIff` | core/src/sync_engine.rs:935-965 | in any run, after a version was put on a device's disk and while the user leaves the file alone: some cycle of the device has seen or written that version, or it is still there exactly when no download, local delete, remote side or copy was written over it |
| `EditLimits.LostEditIsLaterThanTheWalk` | core/src/sync_engine.rs:656-684 | a version no cycle ever saw that a step writes over is not the one the cycle's walk shows |
| `EditLimits.AnEditIsLost` | core/src/sync_engine.rs:935-950 | a concrete edit between plan and download that ends up neither on disk nor on the server nor seen by any cycle |
| `SoloCycle.StepKeepsSolo` | core/src/sync_engine.rs:285-451 | while nobody else writes, each path is untouched on both sides or has reached the version its plan aims at on both sides; a copy is on disk and, unless a row refused it, the same on the server |
| `SoloCycle.SoloServe` | server/src/routes/files.rs:122-281 | then the server accepts every first send and knows every repeated one |
| `SoloCycle.CopyIsAcceptedIff` | core/src/sync_engine.rs:909-932 | the upload of a conflict copy, which carries no parent, is accepted exactly when its path has no row with a hash or already holds the copy |
| `Resume.ResumesExactly` | core/src/sync_engine.rs:299-359 | after any part of the plan, any failures and lost replies, with or without a checkpoint, the next cycle plans exactly what did not take effect: the same decision, sent as the same request, and an upload for every copy that has not arrived |
| `Resolution.ChoicesAreCarriedOut` | core/src/sync_engine.rs:381-451 | with transfers answered, each conflict shows the chosen version on both sides, a KeepBoth copy the other one on both sides, a deferred one is as it was, if and only if no hashed tombstone stands at the copy path; there the copy stays on this disk; the next plan is exactly the deferred conflicts and the refused copies |
| `Resolution.RefusedCopyIsSentAgain` | core/src/sync_engine.rs:656-684 | a copy that did not arrive is planned as an upload by the next cycle and then accepted |
| `CopyLimits.CopyDestroysIff` | core/src/sync_engine.rs:867-869 | writing the copy destroys the file at its path exactly when that holds something else, and loses it exactly when the server does not have it there either |
| `CopyLimits.ACopyDestroys` | core/src/sync_engine.rs:867-869 | a concrete conflict whose copy goes over a file that exists nowhere else |
| `CopyLimits.ACopyIsRefused` | core/src/sync_engine.rs:867-932 | a concrete cycle, everything answered, in which KeepBoth does not leave both versions on both sides |
| `CarryingOut.ChoicesCanBeCarriedOut` | core/src/sync_engine.rs:285-451 | whatever the diff shows and the user answers, with nothing at the copy paths, there is a cycle that carries the answers out and writes its checkpoint |
| `Convergence.CleanCycleSyncs` | core/src/sync_engine.rs:285-368 | a clean cycle leaves every non-ignored path at the three-way merge, on disk, on the server and in the base, and no other device notices |
| `Convergence.TwoPassesConverge` | core/src/manifest.rs:48-103 | a round-robin pass of clean cycles, then one in which no transfer fails, leave every device's disk equal to the server and every later diff empty |
| `Convergence.SecondPassIsClean` | core/src/manifest.rs:48-103 | after a clean first pass no device of the second finds a conflict, whatever it would answer: its cycle is clean |
| `Convergence.CleanCycleExists` | core/src/sync_engine.rs:285-368 | whenever the diff shows no conflict, a cycle in which nothing fails reaches its checkpoint |
| `Uploads.RunUploads` | core/src/sync_engine.rs:466-608 | for any actions and answers each upload ends succeeded, failed, in late conflict or untouched, as its batch's answer dictates, tallied once; the hold-back set grows by exactly the failed and late paths; untouched implies a recorded fatal failure |
| `Uploads.RunBatch` | core/src/sync_engine.rs:502-605 | one batch gives each of its uploads the fate its answer dictates and stops exactly on a fatal one |
| `Uploads.PrepareBatch` | core/src/sync_engine.rs:503-529 | an unreadable file fails alone, a kind the endpoint does not carry counts as done, the rest are sent in order |
| `Uploads.RecordBatch` | core/src/sync_engine.rs:534-601 | answers are matched to the sent operations one to one; a fatal one asks to stop |
| `Uploads.FatalIsRecorded` | core/src/sync_engine.rs:480-497 | an upload that failed fatally has its failure in the result |
| `Downloads.DeleteLocally` | core/src/sync_engine.rs:698-708 | every planned local delete is gone or a recorded, non-fatal failure; no other file changes |
| `Downloads.RunKeepsInv` | core/src/sync_engine.rs:710-795 | over every interleaving of up to eight fetches, the stop flag is up exactly when a fatal failure is recorded, and a skipped fetch implies it |
| `Downloads.FetchesAreAccountedFor` | core/src/sync_engine.rs:686-795 | an unattempted fetch implies a recorded fatal failure; without one each download is on disk as fetched or a recorded failure |
| `Complete.DeferTheRest` | core/src/daemon.rs:506-525 | given answers stay, every other conflict is answered Defer, and nothing else is |
| `Complete.ApplyResolutions` | core/src/sync_engine.rs:381-451 | uploads queued, conflicts deferred and files written are exactly those of the effective choices, in order, every version that was needed was fetched and every file written, removed and hashed; otherwise the first conflict without an answer or a fetch, or with a file that cannot be written, removed or hashed, is the error, the ones before it have taken effect, and of it at most a copy that was written and could not be hashed |
| `Complete.Deferred` | core/src/sync_engine.rs:406-409 | the deferred conflicts are exactly those whose effective choice is Defer |
| `Complete.CompleteSync` | core/src/sync_engine.rs:285-368 | the choices are carried out, every upload has the fate its batch's answer dictates, failures and late conflicts are exactly the plan's and those fates', and the base moves only without a fatal failure and with a second fetch, to the merge outside what is held back |
| `Complete.HeldIsReported` | core/src/sync_engine.rs:299-330 | the hold-back set is exactly what the result reports as failed or still in conflict |
| `Complete.CheckpointedMeansSentOrHeld` | core/src/sync_engine.rs:352-359 | when the base moves, every upload succeeded as its answer says or is held back |
| `Refinement.RoundIsARun` | core/src/sync_engine.rs:285-368 | a completion round whose fetches and answers are those of the modelled server at the time, with any steps of other devices before, between and after its own, is a run of the protocol's steps: same disk, same hold-back set, the fatal flag exactly when the result has a fatal failure, and, when the round writes its checkpoint over the rows it then finds, a protocol checkpoint that is enabled and gives the same base |
| `Refinement.ARoundIsARun` | core/src/sync_engine.rs:285-368 | a concrete round that meets those hypotheses, uploads a file and writes its checkpoint |
| `WholeCycle.PreparationIsARun` | core/src/sync_engine.rs:242-283 | a preparation, over every interleaving of its fetches and with any steps of other devices in between, is a run of the protocol from the idle device: it ends on the same disk, with every planned download settled or a failure of the plan unless one was fatal, in the state the round theorem starts from |
| `WholeCycle.CycleIsARun` | core/src/sync_engine.rs:242-368 | so is the whole cycle, snapshot, downloads, conflicts, uploads and checkpoint |
| `WholeCycle.AFileArrives` | core/src/sync_engine.rs:686-795 | a concrete preparation that meets those hypotheses and fetches a file |
| `Rounds.CheckpointedMeansAppliedOrHeld` | core/src/sync_engine.rs:242-368 | over every interleaving of the fetches and any completion after it: if the base moved, each planned download and local delete was applied, and is still there unless a conflict copy went over it, or its path kept its old base entry; a fetch never attempted means the base did not move |
| `Rounds.SkippedIsFatal` | core/src/sync_engine.rs:745-795 | a fetch never attempted means a fatal failure in the plan |
| `Rounds.FailedDownloadWaits` | core/src/sync_engine.rs:299-313 | the round that was told of a failed download keeps it waiting, checkpoint or not |
| `Rounds.SecondRoundTurnsDownloadsAround` | core/src/types.rs:241-248 | a download that failed in the first round, at a path no reported conflict reaches, is turned into an upload of the stale file by every second round that writes its checkpoint |
| `Rounds.EverySecondRoundTurnsAroundIff` | core/src/types.rs:241-248 | every second round that writes its checkpoint does so if and only if the path is neither a reported conflict's nor the copy path of one with two live sides |
| `Rounds.AStaleFileGoesUp` | core/src/types.rs:241-248 | a concrete disk, base and server, a first round with a failed download and a deferred conflict, and a second round on what the first reports, after which the next cycle uploads the old file over the new one |
| `Rounds.DeferAll` | core/src/daemon.rs:506-525 | with nothing to upload and no fatal failure, deferring every conflict always checks in, changes no file and holds back exactly the paths of the conflicts and of the plan's failures |
| `Debouncing.Debouncer.NextDeadline` | core/src/daemon.rs:198-202 | the earlier of the window's end and the last path's quiet end, exactly while something is pending |
| `Debouncing.Debouncer.Due` | core/src/daemon.rs:206-229 | releases everything when the window is over or all are calm, and otherwise re-arms exactly the quiet paths whose stat moved |
| `Debouncing.PendingIsUnreleased` | core/src/daemon.rs:188-234 | in any interleaving the pending paths are exactly those edited since the last release, and the window is open exactly while there are any |
| `Debouncing.LookReleasesTheUnreleased` | core/src/daemon.rs:206-229 | a release hands out exactly those; at or past first + batch it always happens; before that only with every path quiet and unmoved |
| `Debouncing.DeadlineIsExact` | core/src/daemon.rs:198-229 | before the deadline nothing is released; a look at or after it that releases nothing moves the deadline strictly past now |
| `Debouncing.PutOffIsBounded` | core/src/daemon.rs:198-229 | without new events, the number of late looks that release nothing times quiet stays below batch |
| `HashMemo.HashFile` | core/src/hasher.rs:87-94 | the hash from the memo or by reading; the memo then holds it |
| `HashMemo.BuildManifestWithCache` | core/src/hasher.rs:53-111 | in any walk order the manifest and the memo left are those of the memoized hashes of all non-ignored files; it fails if and only if a file that missed cannot be read |
| `HashMemo.WarmIsColdIff` | core/src/hasher.rs:39-111 | a warm walk is a full rehash exactly when no hit serves another content's hash; the memo's paths are the manifest's |
| `HashMemo.SavedIsTruthful` | core/src/hash_cache.rs:102-133 | through any run every saved entry is the hash, under the saved key, of the content its stat identifies |
| `HashMemo.EveryWalkIsARehash` | core/src/hasher.rs:47-111 | over any edits, key changes, walks and lost caches in which equal path and stat mean equal content, every walk returns what a full rehash would |
| `ManifestCache.CacheFile.FetchRemoteManifest` | core/src/sync_engine.rs:124-159 | the server's current manifest, from the wire or the cache, and a cache that stays coherent |
| `ManifestCache.CacheFile.RemoteChanged` | core/src/sync_engine.rs:187-216 | answers false only when the cached copy is the server's manifest |
| `ManifestCache.FetchIsNeverStale` | core/src/sync_engine.rs:107-216 | in any interleaving of writes, fetches, polls, lost caches and failed saves each fetch hands out the current manifest |
| `HistoryNames.NameReadsBack` | server/src/blobs.rs:331-342 | a written name parses back to the second and attempt it was written at |
| `HistoryNames.NamesApart` | server/src/blobs.rs:164-169 | two attempts in one second have different names |
| `HistoryNames.WrittenNamesAreValid` | server/src/blobs.rs:314-319 | every name a 64-bit second and a 32-bit counter produce passes the name check |
| `HistoryNames.LaterSortsHigher` | server/src/blobs.rs:243-245 | of two entries the later one sorts higher, also within one second |
| `HistoryNames.ListsReverseChronologically` | server/src/blobs.rs:233-247 | whatever order the directory yields, the listing is the log backwards |
| `HistoryNames.NewEntryListsFirstIff` | server/src/blobs.rs:164-169 | after pruning, the next entry of a second lists first exactly when no entry of that second stands above a free name |
| `HistoryNames.ANewEntryListsLast` | server/src/blobs.rs:164-169 | a concrete directory whose next entry lists below an older one |
| `BlobStorage.TakenNamesFit` | server/src/blobs.rs:164-169 | the name search ends: a directory with the first n names of a second has n entries |
| `BlobStorage.BlobStore.MoveLiveReturning` | server/src/blobs.rs:151-172 | the live blob goes to the first free name of its second, nothing else changes; no live blob, no change |
| `BlobStorage.BlobStore.ReplaceLive` | server/src/blobs.rs:177-196 | archives if asked, writes the new blob and returns where the old one went; a failed write leaves the archived blob archived |
| `BlobStorage.BlobStore.TrashLive` | server/src/blobs.rs:199-206 | the live blob goes to trash, with a token |
| `BlobStorage.UndoRestoresIff` | server/src/blobs.rs:177-223 | undo restores live blobs, versions and trash exactly when the change wrote over no unarchived live blob; other paths and the history always come back |
| `BlobStorage.AnOverwrittenBlobIsGone` | server/src/blobs.rs:177-223 | a concrete change whose undo does not restore the store |
| `BlobStorage.UndoInReverseRestores` | server/src/blobs.rs:151-223 | undoing any sequence of such changes in reverse restores the whole store |
| `BlobStorage.HistoryIsTheLog` | server/src/blobs.rs:151-223 | through any run of committed and rolled-back changes each directory holds exactly the blobs filed there, under their names |
| `BlobStorage.RunListsReverseChronologically` | server/src/blobs.rs:233-247 | with a clock that never goes back and no pruning, the listing after any run is reverse chronological |
| `BlobStorage.FiledNamesAreValid` | server/src/blobs.rs:314-319 | every name a run files under can be asked for again |
| `Transactions.RollBackRestores` | server/src/routes/files.rs:182-219 | while rows and blobs agree, a commit that was rolled back, with an undo whose file operations work, leaves the vault exactly as it was |
| `Transactions.AgreementIsKeptIff` | server/src/routes/files.rs:122-281 | a request keeps rows and blobs in agreement, unless and only unless it is accepted and the version its end leaves as the blob is not the one its row shows: a failed blob write over a live file, a crash before the commit, a commit applied but reported as failed, an undo that fails |
| `Transactions.ARequestTears` | server/src/routes/files.rs:122-281 | one upload over a live file that ends with row and blob apart in each of these ways |
| `Transactions.RowAndFileAgree` | server/src/routes/files.rs:182-184 | over any run in which no request tears them apart in one of those ways, each live row has its blob, with its content, and no other path has one |
| `Sorting.SortSorts` | server/src/blobs.rs:243-245 | the stable sort yields the same entries, newest first |
| `Sorting.OneOrder` | server/src/blobs.rs:243-245 | entries with distinct keys have only one order |
| `Retention.PruneKeepsTheNewest` | server/src/retention.rs:96-108 | a prune keeps exactly the newest min(10, fresh) timestamps of versions, and all fresh ones of trash |
| `Retention.PruningComposes` | server/src/retention.rs:68-122 | pruning at t1 and at t2 >= t1 leaves the timestamps one prune at t2 would, whatever order each pass reads in |
| `Retention.KeepsTheHeadIff` | server/src/retention.rs:68-108 | a prune keeps exactly the head of the listing in every read order if and only if its cut does not fall between two entries of one second |
| `Retention.TrashKeepsTheHead` | server/src/retention.rs:110-122 | the trash always keeps the head of its listing |
| `Retention.SameSecondMayLoseTheNewest` | server/src/retention.rs:79-79 | a concrete case: of eleven versions of one second, read oldest first, the newest is removed |
| `Retention.PruneDir` | server/src/retention.rs:98-104 | one directory keeps its survivors with their blobs, nothing else in the history changes, and the count of removals is right |
| `Retention.PruneTier` | server/src/retention.rs:96-122 | every directory of the tier pruned, the other tier untouched, removals counted |
| `Retention.PassesCompose` | server/src/retention.rs:96-122 | two passes over a store leave each directory the timestamps one later pass would |
| `ItemRows.MaxOf` | ios/DB/ItemStore.swift:462-464 | the highest row version, 0 for an empty table |
| `ItemRows.LikeIsUnder` | ios/DB/ItemStore.swift:466-477 | the escaped pattern finds exactly the paths below the directory, ignoring ASCII case, whatever characters the directory's name holds |
| `Items.ItemStore.MaxRowVersion` | ios/DB/ItemStore.swift:462-464 | the maximum of all rows, tombstones included |
| `Items.ItemStore.Changes` | ios/DB/ItemStore.swift:160-168 | the rows past the anchor in version order, and none missing unless the limit cut off higher ones |
| `Items.ItemStore.Insert` | ios/DB/ItemStore.swift:196-203 | the row stored under the next version |
| `Items.ItemStore.UpdateContent` | ios/DB/ItemStore.swift:205-220 | size and time replaced under the next version; an unknown item changes nothing |
| `Items.ItemStore.Rename` | ios/DB/ItemStore.swift:228-250 | the item moved under the next version, and every row below a renamed directory carried along with its version kept |
| `Items.ItemStore.SetPending` | ios/DB/ItemStore.swift:257-275 | the item flagged; on a folder deletion exactly the live rows below it tombstoned too, each with its own higher version |
| `Items.ItemStore.DrainPendingAfterSync` | ios/DB/ItemStore.swift:290-296 | upload flags cleared and pending deletions removed, only after a completed sync |
| `ItemTree.MoveKeepsTreeIff` | ios/DB/ItemStore.swift:228-250 | moving a live item keeps the tree if and only if the destination is consistent, free up to case, and outside the item |
| `ItemTree.MoveKeepsTheRest` | ios/DB/ItemStore.swift:222-250 | every other item keeps name, parent and version; what was below the item is below its new path |
| `ItemTree.PendingKeepsTree` | ios/DB/ItemStore.swift:257-275 | flagging or deleting keeps the tree |
| `ItemTree.FolderDeletionTakesAll` | ios/DB/ItemStore.swift:252-275 | nothing live remains below a deleted folder; each row it took has its own version above all earlier ones |
| `ItemTree.InsertKeepsTree` | ios/DB/ItemStore.swift:196-203 | a create in a free place keeps the tree |
| `ItemTree.RunsKeepTree` | ios/DB/ItemStore.swift:196-275 | any run of creates, updates, moves, marks and folder deletions keeps it |
| `ItemTree.AncestorAt` | ios/DB/ItemStore.swift:466-477 | a live row below a path has a live ancestor at that path, up to case |
| `ChangeFeed.WriteKeepsApart` | ios/DB/ItemStore.swift:196-275 | every write that removes no row leaves versions pairwise distinct and touched rows past all earlier ones |
| `ChangeFeed.RunsKeepApart` | ios/DB/ItemStore.swift:196-275 | the same over any run |
| `ChangeFeed.EnumerateChanges` | ios/FileProvider/FileProviderEnumerator.swift:46-78 | a page split into updates and deletes by tombstone, the next anchor its last row's version, more exactly when the page is full |
| `ChangeFeed.PageIsComplete` | ios/FileProvider/FileProviderEnumerator.swift:70-77 | a page holds exactly the rows between the two anchors, a short page everything |
| `ChangeFeed.FeedIsComplete` | ios/FileProvider/FileProviderEnumerator.swift:46-78 | paging from any anchor with writes between pages: when a page reports no more, every row whose latest version exceeds the first anchor was handed over at that version |
| `ChangeFeed.PagesRunOut` | ios/FileProvider/FileProviderEnumerator.swift:70-77 | without writes in between each page takes itself off what remains |
| `ChangeFeed.HardDeleteMissesIff` | ios/DB/ItemStore.swift:290-303 | an item written after removals is missed exactly when every row of the highest version was removed |
| `ChangeFeed.CreatedAfterDrainIsMissed` | ios/DB/ItemStore.swift:286-296 | an item created after a reported deletion was drained is not in the feed |
| `Reconciling.MatchPaths` | ios/DB/ItemStore.swift:326-329 | one row per path, a live one where there is one, in any fetch order |
| `Reconciling.UpsertEntry` | ios/DB/ItemStore.swift:400-455 | a fitting row is left alone, a tombstone revived, a changed row refreshed, a new one minted; a version is spent only on a write |
| `Reconciling.UpsertAll` | ios/DB/ItemStore.swift:333-353 | parents first, every scanned path's row is right, every other row as it was |
| `Reconciling.TombstoneRest` | ios/DB/ItemStore.swift:355-362 | matched rows off the disk are tombstoned unless pending or gone already |
| `Reconciling.Reconcile` | ios/DB/ItemStore.swift:319-364 | the whole pass: stale tombstones dropped, scanned paths right, leftovers tombstoned, no other row, versions still distinct |
| `Mirror.ReconcileMirrorsDisk` | ios/DB/ItemStore.swift:319-364 | each scanned path has exactly one live row with the scanned metadata and its parent's identifier; a known path keeps an identifier it had; live rows off the disk are pending ones, untouched |
| `Mirror.SecondPassChangesNothing` | ios/DB/ItemStore.swift:315-364 | a second pass over the same disk changes no row |
| `Mirror.ReconcileMakesTree` | ios/DB/ItemStore.swift:319-364 | with nothing pending off the disk, a pass leaves a tree whatever the table was |
| `Mirror.DrainRemovesRevivedIff` | ios/DB/ItemStore.swift:406-424 | draining after a pass removes the row of a scanned path exactly when its match was marked for deletion |
| `Mirror.ARevivedFileIsDrained` | ios/DB/ItemStore.swift:406-424 | a concrete pass that revives a row the drain then removes |

## Left out

- HTTP, retries, JSON and multipart encoding, authentication, SQL: requests and answers are values, and their failures are parameters.
- Cryptography: the content hash is an opaque value and encryption the identity; `encPath` is carried but not interpreted, and hash headers are not trimmed.
- Size and quota checks of the upload handler: their refusal is the parameter `room` of `ServerGate.VaultServer.Apply`; the path check is not modelled.
- Clocks, stats, UUIDs and directory order: parameters, or any order.
- Path normalisation: the copy name is computed on plain `/`-separated paths; `.`/`..` components and trailing separators are not modelled, nor is a backslash in a walked path.
- Sorted iteration: manifests are visited in any order, so the order of the plan's lists is not stated; neither is the order in which a folder deletion hands out its versions.
- Races within one file operation, partial writes, temporary files, fsync and case-insensitive filesystems.
- An upload whose file changes between the walk and the read: the model sends the content whose hash it planned.
- Progress events, the `Done` counters, `report_checkpoint` and the checkpoint error's text: reporting only.
- The rest of the daemon (poll pacing, back-off, self-writes, command channel): short, and would only add easy members.
- Ignore-pattern parsing: an ignore rule is any fixed predicate on paths.
- The removal of empty directories, orphan sweeps and session clean-up of the retention pass, and an I/O error that ends a pass early.
- 64-bit overflow of row versions, the anchor and page codecs, and `enumerateItems` paging by offset.
- Grapheme clusters: a Swift string's length counts characters here.
- Command line, desktop, web and SwiftUI front ends and their bindings.
- Limits.AnUpdateIsLost: a single run, as a witness; the general condition is `Limits.AbsorbedWriteIsLost`.
- Limits.ATombstoneLosesAnUpdate: a single run, as a witness; the general condition is `Limits.StaleParentLosesIff`.
- CopyLimits.ACopyIsRefused: a single run, as a witness; the general condition is in `Resolution.ChoicesAreCarriedOut`.
- Rounds.AStaleFileGoesUp: a single round, as a witness; the general condition is `Rounds.EverySecondRoundTurnsAroundIff`.
- Retention.SameSecondMayLoseTheNewest: a single directory, as a witness; the general condition is `Retention.KeepsTheHeadIff`.
- Limits.AnUpdateIsReplaced: a single run, as a witness that the theorem's hypotheses can be met.
- ManifestCache.CacheFile.FetchRemoteManifest: the second, unconditional request after a 304 without a cache is unreachable under the server's contract and not issued.
- Transactions.RowAndFileAgree: requires that no request tears rows and blobs apart, because `Transactions.AgreementIsKeptIff` shows exactly which do.
- Refinement.ARoundIsARun: a single round, as a witness that the theorem's hypotheses can be met.
- Refinement.RoundIsARun: nothing but a download is planned at the copy path of a conflict of which both sides are kept; anywhere else the copy replaces a file that is itself to be uploaded or in conflict, what is then sent is not the content its plan hashed, and the model has no such upload.
- WholeCycle.CycleIsARun: the same, and the device's own user edits no file while the cycle runs; such edits are steps of the protocol, and `EditLimits.EditStaysIff` says what becomes of them.
- WholeCycle.AFileArrives: a single preparation, as a witness that the theorem's hypotheses can be met.
- EditLimits.AnEditIsLost: a single pair of steps, as a witness; the general condition is `EditLimits.EditStaysIff`.
- Limits.AnUnignoredFileIsDeleted: a single case, as a witness; the general condition is `Limits.UnignoringDeletes`.
- CopyLimits.ACopyDestroys: a single case, as a witness; the general condition is `CopyLimits.CopyDestroysIff`.
- Transactions.ARequestTears: a single upload, as a witness; the general condition is `Transactions.AgreementIsKeptIff`.
- BlobStorage.AnOverwrittenBlobIsGone: a single change, as a witness; the general condition is `BlobStorage.UndoRestoresIff`.
- HistoryNames.ANewEntryListsLast: a single directory, as a witness; the general condition is `HistoryNames.NewEntryListsFirstIff`.
- Mirror.ARevivedFileIsDrained: a single pass, as a witness; the general condition is `Mirror.DrainRemovesRevivedIff`.
- NoLostUpdate.RunsLoseNothing: requires that foreign writes during a cycle are held back by it and that no tombstone it uploads over is touched, because `Limits.AbsorbedWriteIsLost` and `Limits.GateIgnoresTombstones` show what happens otherwise.

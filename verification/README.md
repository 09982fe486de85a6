# TR Driver: a verified model of its transactional core

TR Driver is a self-hosted file server. This project models its transactional core in Dafny and
proves what every run of it keeps.

## What is modelled

`Model.dfy` describes the server's tables and its disk as one value, `State`, and each service
operation as a function on it (`AfterMove`, `Appended`, `AfterComplete`, ...). `Step` lists the
operations with their arguments and faults, `Apply` performs one, `Run` a sequence. An operation
that is refused changes nothing. `Server.dfy` holds the same operations as methods of one object
that updates its tables and its disk in place, as the services do; each method is proved to produce
exactly the state the function describes. The invariants are proved about the functions and so hold
of the methods.

`Effects.dfy` states what each operation does without those functions: when it succeeds, which columns
of which rows and which files it writes, and that everything else stays. `EffectProofs.dfy` and
`BatchProofs.dfy` prove it of the functions, and every method of the object promises it as well.
`Minting.dfy` keeps identifiers new.

- `FolderTree`: the folder tree with trash, move check, trash round trip, purge.
- `Ledger`: reservations at the levels of user, batch and session, used bytes, quota.
- `Replay`: the change log replayed by a client equals the live view.
- `Updates`: content versions and optimistic replacement.
- `Blobs`: reference safety of blobs and immutable version history.
- `Shelter`: where live rows hang, files included.
- `Uploads`: the resumable chunk protocol on the server, `UploadQueue`: the browser's loop against it,
  `Retries`: what becomes of a failed completion.
- `Queries`, `FolderPath`, `Storage`, `Names`, `PathNames`, `Manifests`: recursive queries, the folder-path
  cache, the byte-level file operations, and the names and paths all of it rests on.
- `SyncApi`: cursor paging over a pruned log and the engine's pull, `SyncRuns`: pulls while the log grows.
- `Limiters`, `Totp`, `SecondFactor`, `Pace`, `Roles`, `ZipNames`: the small concurrent and windowed
  controllers and the archive names.
- `Guarantees`: what these add up to for every drive from its registration on.
- `Failures`: runs from a new drive on which the stronger promises fail.

## Where the code does less than it seems to promise

Each of these is stated as an exact condition and, where a run is needed to reach the failure, with such a run.

- A completion that fails after moving the file deletes the data; the session keeps its reservation
  and can be completed later only if the file is empty and the batch not overdue (`Retries.LostExact`,
  `Retries.RetryExact`, `Failures.NameTakenLoses`).
- Folders made on the way to an uploaded file are not logged, and a version restore of a live file is not
  either (`Replay.StepFaithful`, `Failures.BatchFolderUnlogged`, `Failures.RestoreUnlogged`).
- Overwriting a file deletes its blob even when a version shares it; restoring a version prunes before it
  uses the chosen blob (`Blobs.StepKeepsBlobs`, `Failures.OverwriteBreaksVersions`,
  `Failures.RestorePrunesItsOwn`).
- A replacement may name a folder as its target, which unbalances used bytes and the version history
  (`Ledger.StepKeepsUsed`, `Blobs.StepKeepsBlobs`, `Failures.FolderReplaced`).
- Restoring a version bills nothing (`Ledger.RestoreVersionBills`, `Failures.RestoreUnlogged`).
- Direct uploads ignore reservations: the bound is twice the quota, and it is reached
  (`Ledger.TwiceIsReached`).
- Restoring a folder also restores what was trashed inside it earlier, and an entry whose parent is
  trashed cannot come back (`FolderTree.TrashRoundTrip`, `Failures.NestedTrashComesBack`).
- After a reset the client keeps rows that no longer exist (`SyncApi.Engine.Pull`,
  `SyncRuns.StaleAfterReset`).
- Completion does not look at its parent again, so a live file can lie in a trashed folder or hang from
  nothing (`Shelter.StepShelters`, `Shelter.StepRoots`, `Failures.FileInTrashedFolder`,
  `Failures.FileWithoutFolder`).
- Concurrent logins can exceed the limit of five wrong codes by one less than the number of logins under
  way at once (`SecondFactor.FiveExactly`, `SecondFactor.GuessBoundReached`).
- The upload counter is no bound on the slots in use (`Pace.CounterUnbounded`), and archive names can
  collide beyond 9999 files (`ZipNames.DistinctExact`, `ZipNames.LargeArchiveCollides`).
- The path check refuses any path that merely starts with two dots, although the parts were checked
  one by one before (`Manifests.NormalizedExact`).

## Model

| member | source | states |
|---|---|---|
| Guarantees.EveryRun | internal/uploads/service.go:78-638 | From registration on, after any operations in any order: the tree is sound and reservations balance at all three levels |
| Minting.CreateBatchMints | internal/uploads/service.go:147-200 | Nothing is numbered at or beyond the next identifier, so new rows and keys meet no old ones |
| Minting.CompleteMints | internal/uploads/service.go:428-475 | A completion keeps that |
| Minting.UploadMints | internal/files/service.go:203-242 | So does a direct upload |
| Guarantees.EveryBilledRun | internal/uploads/service.go:124-134 | After runs that meet the billing condition used bytes are the stored sizes; used + reserved is within twice the quota, and within the quota without direct uploads |
| Guarantees.EveryBlobRun | internal/blobgc/blobgc.go:16-75 | After runs that meet the blob condition every file and retained version has its content |
| Guarantees.EveryLoggedRun | internal/changelog/changelog.go:10-23 | After runs that meet the logging condition the whole log, replayed on the bare root, gives exactly the live entries with name, parent, kind, size, version and hash |
| Guarantees.EveryUpload | internal/uploads/service.go:236-489 | After honest traffic of any kind and any other operations, a completed upload is the client's file, byte for byte |
| Guarantees.EveryRootedRun | internal/uploads/service.go:443-450 | After runs in which new files complete into live folders only, every live row climbs to the root through live rows |
| Guarantees.EveryFailedCompletion | internal/uploads/service.go:428-483 | After any run, a completion that passed its checks and failed can be made good, from a given time on, if and only if the file is empty and its batch is not overdue |
| FolderTree.MoveCheckExact | internal/files/service.go:427-443 | Moving a live entry under a live folder keeps the parent links acyclic if and only if the descendant check passes, although the check follows live links only: every live folder's ancestors are live, so it misses nothing |
| FolderTree.StepKeepsTree | internal/files/service.go:420-770 | Every operation of the drive keeps: parent links acyclic, every parent an existing folder, every live folder below a live folder, sibling names unique up to case, identifiers fresh |
| FolderTree.MoveKeeps | internal/files/service.go:420-471 | A move keeps the whole tree invariant, acyclicity and live ancestors together |
| FolderTree.DeleteKeeps | internal/files/service.go:506-571 | Trashing a live subtree leaves no live folder below a trashed one |
| FolderTree.RestoreKeeps | internal/files/service.go:612-679 | So does restoring a trashed subtree under a live parent |
| FolderTree.PurgeKeeps | internal/files/service.go:681-770 | Purging keeps the tree invariant of what remains, sessions' parents included |
| FolderTree.CompleteKeeps | internal/uploads/service.go:443-450 | Completing a file keeps it although the parent's liveness is not looked at again: only folders are promised live ancestors |
| FolderTree.CreateBatchKeeps | internal/uploads/service.go:136-191 | A batch's folders and sessions keep it |
| FolderTree.TreeOverRuns | internal/files/service.go:130-770 | The same over runs of any operations in any order |
| FolderTree.LiveAncestors | internal/files/service.go:427-443 | Above a live folder every ancestor, at any height, is a live folder |
| FolderTree.NoCycle | internal/files/service.go:420-471 | No entry is its own ancestor, whatever the chain's length |
| FolderTree.SubtreeClosed | internal/files/service.go:509-524 | The rows a recursive query collects are its start and everything selected below it: closed downward, and with nothing outside reached |
| FolderTree.SubtreeLeast | internal/files/service.go:509-524 | They are the least such set |
| FolderTree.PurgeLeavesNoOrphan | internal/files/service.go:681-770 | Purging removes the whole subtree: no row that remains had a purged parent, so ON DELETE SET NULL never fires |
| FolderTree.TrashRoundTrip | internal/files/service.go:506-679 | Delete then Restore gives every row back, parent, name, size and key unchanged and content_version two higher on exactly the subtree, if and only if nothing trashed earlier hangs below it and its parent is live |
| Shelter.StepShelters | internal/uploads/service.go:443-450 | Every live row with a parent has a live one; each operation keeps that if and only if it does not complete a new file into a folder that has been trashed |
| Shelter.SheltersOverRuns | internal/uploads/service.go:443-450 | The same over runs that meet the condition |
| Shelter.RootedExact | internal/files/service.go:420-770 | Every live row climbs to the root through live rows, and only the root hangs free, if and only if every live row has a live parent or none and only the root has none |
| Shelter.StepRoots | internal/uploads/service.go:443-450 | Each operation keeps that if and only if it does not complete a new file whose folder has been trashed or purged |
| Shelter.RootsOverRuns | internal/uploads/service.go:443-450 | The same over runs that meet the condition |
| Shelter.CompleteShelters | internal/uploads/service.go:443-450 | A completion is the operation that decides both, by the folder its session names |
| Shelter.DeleteShelters | internal/files/service.go:506-571 | Trashing leaves nothing live below what it trashes |
| Shelter.RestoreShelters | internal/files/service.go:612-679 | What comes back hangs below what comes back or below a live row |
| Shelter.PurgeShelters | internal/files/service.go:681-770 | Purging takes everything below with it, so nothing that stays loses its parent |
| Failures.FileInTrashedFolder | internal/uploads/service.go:443-450 | Counterexample: batch into a folder, trash the folder, complete: a live file in a trashed folder |
| Failures.FileWithoutFolder | internal/uploads/service.go:443-450 | Counterexample: purge the folder as well before completing: a live file that hangs from nothing |
| Failures.NestedTrashComesBack | internal/files/service.go:506-679 | Counterexample: with a folder trashed first, trashing and restoring its parent does not give the rows back |
| FolderTree.BatchForest | internal/uploads/service.go:136-145 | The folders a batch makes keep every tree invariant and change no existing row |
| FolderTree.WalkKeeps | internal/uploads/service.go:739-792 | Walking a path adds only live empty folders under new identifiers and ends in a live folder |
| Queries.RecursiveQuery | internal/files/service.go:509-524 | A recursive UNION ALL query ends and yields each row of the subtree once, because the links are acyclic |
| Server.Service.CreateFolder | internal/files/service.go:130-165 | Succeeds exactly when the sanitised name is not empty, the parent is a live folder and no live row in it has the name up to case; then exactly that row is added and logged with every column, otherwise nothing changes |
| Server.Service.Move | internal/files/service.go:420-471 | Succeeds exactly when the row is live and not the root, the target folder is live, no cycle would arise and the name is free there; then exactly its parent changes and its version rises, and one change carries the row |
| Server.Service.Rename | internal/files/service.go:473-504 | Succeeds exactly when the sanitised name is not empty and free and the row is live and not the root; then exactly its name changes and its version rises, and one change carries the row |
| Server.Service.Delete | internal/files/service.go:506-571 | Exactly the rows reached through live rows are trashed with the next version, one change each with every column; refuses the root and what is not live |
| Server.Service.Restore | internal/files/service.go:612-679 | Succeeds exactly when the row is trashed, its parent is live or absent and no name would be taken twice; then exactly the rows reached through trashed rows come back with the next version, one change each |
| Server.Service.Purge | internal/files/service.go:681-770 | Exactly the subtree and its versions go, its sessions lose their parent, used bytes drop by its file sizes, one change each, and of the blobs offered exactly those nobody needs are deleted |
| Server.Service.PurgeTally | internal/files/service.go:708-763 | The loop's total is the sum of the file sizes of the purged rows |
| Server.Service.PurgeRows | internal/files/service.go:749-763 | Rows, versions, session links, log and used bytes after a purge, before any blob is deleted |
| Server.Service.PurgeCandidates | internal/files/service.go:712-748 | The candidates are exactly the blobs of the purged files and of their versions |
| Server.Service.LogTargets | internal/changelog/changelog.go:10-23 | One change per target in query order, each with the id and every column of the row |
| EffectProofs.CreateFolderEffect | internal/files/service.go:130-165 | The state machine's step does what the row of Server.Service.CreateFolder says, column by column |
| EffectProofs.MoveEffect | internal/files/service.go:420-471 | The same for a move |
| EffectProofs.RenameEffect | internal/files/service.go:473-504 | The same for a rename |
| EffectProofs.DeleteEffect | internal/files/service.go:506-571 | The same for trashing |
| EffectProofs.RestoreEffect | internal/files/service.go:612-679 | The same for restoring |
| EffectProofs.PurgeEffect | internal/files/service.go:681-770 | The same for a purge with the collection that follows |
| EffectProofs.AdmittedWhenFree | internal/store/postgres.go:81-83 | The unique index admits a row exactly when no other live row in the folder has its name up to case |
| EffectProofs.CrowdedExact | internal/store/postgres.go:81-83 | It admits restored rows exactly when none of them gets a name twice |
| EffectProofs.RowsLogged | internal/changelog/changelog.go:10-23 | Each appended change carries operation, id and every column of its row |
| Ledger.StepKeepsReserve | internal/uploads/service.go:124-631 | Every operation keeps: user's reserved is the sum over open batches, each batch's reserved the sum of its open sessions' expected sizes, and a batch is open exactly while a session of it is open |
| Ledger.ReserveOverRuns | internal/uploads/service.go:78-638 | The same over all runs, with direct uploads, tree operations and version restores mixed in |
| Ledger.CreateBatchReserves | internal/uploads/service.go:124-205 | A new batch reserves exactly what its sessions expect |
| Ledger.CompleteReleases | internal/uploads/service.go:456-475 | A completion releases the session's share at all three levels and closes the batch with its last open session |
| Ledger.CloseReleases | internal/uploads/service.go:503-549 | Aborting or expiring releases exactly what the batch still held |
| Ledger.ClampsIdle | internal/uploads/service.go:460-475 | The reservations under greatest(0, ...) never go below zero: an open session needs no more than its batch holds, and that no more than the user holds |
| Ledger.UsedClampsIdle | internal/uploads/service.go:460 | Nor do the used bytes: what replacing a file or purging takes off is contained in them |
| Ledger.TotalIsSum | internal/uploads/service.go:82-110 | The total checked against the quota is what the new sessions expect together |
| Ledger.StepKeepsUsed | internal/files/service.go:220-228 | used_bytes is the sum of the sizes of all file rows, live and trashed; each operation keeps that if and only if it neither completes over a folder of another size nor restores a version of another size |
| Ledger.PurgeRefunds | internal/files/service.go:752-763 | Purge lowers used_bytes by exactly the sizes of the files it removes |
| Ledger.CompleteBills | internal/uploads/service.go:454-475 | Completion bills the new size less the replaced one, exactly when the target is a file or the size is unchanged |
| Ledger.RestoreVersionBills | internal/collab/service.go:320-352 | Restoring a version keeps the books if and only if the sizes agree, because it bills nothing |
| Failures.FolderReplaced | internal/uploads/service.go:401-460 | Counterexample: a replacement that names a folder bills a byte to no file and files a version that has no blob |
| Ledger.StepKeepsQuota | internal/uploads/service.go:124-134 | Without direct uploads used + reserved stays within the quota; with them it stays within twice the quota |
| Ledger.CompleteMovesBytes | internal/uploads/service.go:456-475 | Reserved bytes become used bytes: the sum does not grow |
| Ledger.CreateBatchAdmission | internal/uploads/service.go:124-134 | The admission check keeps both bounds |
| Ledger.LedgerOverRuns | internal/uploads/service.go:124-134 | Both bounds and both sums over all runs whose steps meet the billing condition |
| Ledger.TwiceIsReached | internal/files/service.go:220-228 | The factor two is exact: a run of one reservation and one direct upload reaches it, so the single bound fails with direct uploads |
| Ledger.InitLedger | internal/auth/service.go:94-115 | A new user starts balanced and within quota |
| Replay.StepFaithful | internal/changelog/changelog.go:10-23 | Applying an operation's log rows to any mirror that agrees with the live rows in every column gives one that agrees afterwards, if and only if the operation is neither a batch that makes folders nor a version restore of a live file |
| Replay.TracksExact | internal/syncapi/service.go:23-60 | Reading rows as snapshots do is agreeing with them in every column |
| Replay.ReplayEqualsState | internal/syncapi/service.go:23-95 | Over any run of such operations: replaying what was logged since takes any mirror of the live entries, in name, parent, kind, size, version and hash, to one of the current live entries |
| Replay.ReplayRemovals | internal/files/service.go:540-566 | Replaying trash or purge rows removes exactly the listed entries, in any order of rows |
| Replay.ReplayRows | internal/files/service.go:655-676 | Replaying restore rows puts exactly the listed rows back |
| Replay.CreateBatchLogs | internal/uploads/service.go:136-145 | A batch logs faithfully if and only if every folder its paths need exists already |
| Replay.RestoreVersionLogs | internal/collab/service.go:320-352 | A version restore logs faithfully if and only if the file is trashed |
| Failures.RestoreUnlogged | internal/collab/service.go:320-352 | Counterexample: after one replacement, restoring the first version of the live file logs nothing and bills nothing |
| Failures.BatchFolderUnlogged | internal/uploads/service.go:779-784 | Counterexample: one upload into a new folder already breaks the replay, because the folder is not logged |
| Updates.StepAges | internal/files/service.go:420-679 | content_version never falls, and rises on every change of an entry's row |
| Updates.RunAges | internal/files/service.go:420-679 | The same over runs |
| Updates.AtMostOneCompletes | internal/uploads/service.go:401-441 | Among all sessions with the same target and expected version at most one ever completes, over every run |
| Updates.NoInterveningChange | internal/uploads/service.go:401-441 | A replacement that completes saw its target unchanged since it had the expected version: no rename, move, trash, restore or overwrite in between |
| Blobs.StepKeepsBlobs | internal/blobgc/blobgc.go:16-75 | Every key of a file or a retained version exists on disk with the recorded size; each operation keeps that if and only if it neither completes over a folder, nor overwrites a blob that another row shares, nor restores a version whose blob its own pruning removes |
| Blobs.BlobsOverRuns | internal/blobgc/blobgc.go:16-75 | The same over runs that meet the condition |
| Blobs.InitBlobs | internal/auth/service.go:94-152 | A new drive refers to no blob |
| Blobs.PruneKeeps | internal/blobgc/blobgc.go:16-46 | Pruning versions never takes a blob that an entry or a remaining version needs |
| Blobs.PurgeKeepsBlobs | internal/files/service.go:736-768 | Nor does a purge |
| Blobs.CompleteKeepsBlobs | internal/uploads/service.go:401-441 | A completed replacement files the old content as a version with its blob, if and only if the target is a file |
| Blobs.OverwriteKeepsBlobs | internal/files/service.go:919-942 | A direct overwrite keeps every other row's blob if and only if no other row shares the old one |
| Blobs.RetainedVersionImmutable | internal/collab/service.go:281-352 | A retained version (entry, v) holds at any later time the bytes the entry had at content_version v |
| Blobs.RestoreVersionKeeps | internal/collab/service.go:343-348 | Restoring a version keeps every blob if and only if the chosen version or its blob survives the pruning that the preceding snapshot triggers |
| Server.Service.DeleteUnreferenced | internal/blobgc/blobgc.go:48-75 | A candidate key is deleted exactly when no entry has it, no version has it and no open session writes to it; all other blobs keep their bytes |
| Server.Service.PruneVersions | internal/blobgc/blobgc.go:16-46 | A row of the entry stays exactly when fewer than keep newer ones exist, all others' rows stay, and the blobs left unneeded go |
| Server.Service.SnapshotVersion | internal/collab/service.go:281-295 | A file's key, size and hash are filed under its version unless that is filed already, then the newest twenty are kept; nothing else changes |
| Server.Service.RestoreVersion | internal/collab/service.go:320-352 | Snapshot and pruning first; then the entry has the chosen version's key, size and hash and the next version, and no other row changes |
| EffectProofs.CollectEffect | internal/blobgc/blobgc.go:48-75 | The collector deletes exactly the offered keys that no row needs |
| EffectProofs.PruneEffect | internal/blobgc/blobgc.go:16-46 | Pruning keeps exactly the newest rows and the blobs that are needed |
| EffectProofs.RestoreVersionEffect | internal/collab/service.go:320-352 | Restoring gives the entry exactly the version's key, size and hash |
| Failures.OverwriteBreaksVersions | internal/files/service.go:919-942 | Counterexample: upload, replace through a batch, restore the first version, upload over it: the retained version's blob is gone, and restoring that version again leaves a file without content |
| Failures.RestorePrunesItsOwn | internal/collab/service.go:343-348 | Counterexample: after twenty replacements, restoring the first version prunes the blob it is about to use |
| Uploads.StepKeepsUploads | internal/uploads/service.go:236-430 | For any honest message, in any order, repeated, cut short or interrupted by a crash: each open session keeps received <= expected, at least that much on disk, and the received bytes are the source's |
| Uploads.UploadsOverRuns | internal/uploads/service.go:236-430 | The same over all runs of honest messages and every other operation |
| Uploads.InitUploads | internal/auth/service.go:94-152 | A new drive has no session to keep in agreement |
| Uploads.ChunkOutcome | internal/uploads/service.go:236-340 | What each reply means: accepted only at the exact offset with the file then being the source's prefix, a conflict names the true offset, anything else changes no row |
| Uploads.AppendKeepsUploads | internal/uploads/service.go:236-340 | A chunk for one session keeps the two records of progress of all sessions in agreement |
| Uploads.CompleteKeepsUploads | internal/uploads/service.go:342-489 | So does a completion, succeeding, failing or crashing |
| Uploads.CompletedIsSource | internal/uploads/service.go:342-489 | Whenever a completion succeeds after such a run, the entry's blob is the whole source, byte for byte |
| Retries.LostExact | internal/uploads/service.go:428-483 | A session loses its data exactly by a completion that passes its checks and then fails, unless the file is empty; a completion refused by its checks changes nothing |
| Retries.StepStranded | internal/uploads/service.go:236-340 | A session whose file is gone stays so under every operation: a chunk cannot bring it back once bytes were received or its batch is overdue |
| Retries.LostForever | internal/uploads/service.go:428-483 | A session that lost its data never completes, whatever is sent to it at whatever time |
| Retries.RetryExact | internal/uploads/service.go:428-483 | A completion that passed its checks and failed can be made good by some later run, at times from the given one on, if and only if the file is empty and the batch is not overdue |
| Retries.RoomCanBeMade | internal/uploads/service.go:433-455 | The name index never stands in the way for good: trashing the row that has the name, which is never the root, makes room |
| Retries.NamesOverRuns | internal/uploads/service.go:676-721 | Over runs of sanitised manifests no session's name has a slash, so none can clash with the root's |
| Failures.NameTakenLoses | internal/uploads/service.go:428-455 | Counterexample: a folder takes the name between upload and completion: the completion fails and the data is lost |
| Server.Service.Normalize | internal/uploads/service.go:78-115 | The loop accepts exactly the manifests with allowed count, sizes and total whose files are all well formed and whose paths differ up to case, and carries each file's path, name, size, target, version and hash as sent |
| Server.Service.TakeFile | internal/uploads/service.go:92-108 | Each file is taken exactly when no check refuses it, and one refusal refuses the manifest |
| Server.Service.CreateBatch | internal/uploads/service.go:78-205 | Opens a batch exactly when the manifest as sent is allowed, the quota suffices, the folder is live and the directories can be walked or made; then it holds the sum of the sent sizes until expires, session k asks for what file k says under the folder its directory leads to, each has an empty file, and every new folder is needed by some file |
| BatchProofs.CreateBatchEffect | internal/uploads/service.go:78-205 | The state machine's step does this in terms of the manifest as it was sent |
| BatchProofs.AllowedExact | internal/uploads/service.go:78-145 | A batch is opened exactly when nothing in what was sent is refused |
| BatchProofs.ManifestExact | internal/uploads/service.go:78-115 | The same for the checks on the manifest alone |
| BatchProofs.ClearWalkAll | internal/uploads/service.go:739-792 | All directories can be walked exactly when each meets folders only and what is missing has a free name |
| BatchProofs.WalkAllLeads | internal/uploads/service.go:739-792 | Afterwards every directory leads to a folder |
| BatchProofs.WalkAllMakesPaths | internal/uploads/service.go:739-792 | And every folder made lies on one of them |
| Server.Service.SessionRows | internal/uploads/service.go:154-190 | One session per file in manifest order under the folder cached for its directory; fails exactly when a directory part does not survive sanitising |
| Server.Service.EmptyTemps | internal/uploads/service.go:160-163 | One empty temporary file per session and no other change on disk |
| Server.Service.CommitBatch | internal/uploads/service.go:147-200 | Batch, sessions, folders, files and reservation together |
| Server.Service.AppendChunk | internal/uploads/service.go:236-340 | Accepts exactly a complete chunk at the exact offset of an open session in time, and then the file is its repaired beginning followed by the body; a conflict names the true offset; nothing else changes, for every fault and crash point |
| EffectProofs.AppendEffect | internal/uploads/service.go:236-340 | The state machine's step does this column by column |
| Server.Service.StoreChunk | internal/uploads/service.go:308-339 | Writes the admitted chunk after the repaired prefix and commits the new offset last |
| Server.Service.CheckComplete | internal/uploads/service.go:342-427 | The checks pass exactly when session and batch are open, everything was received, the file is there in full, and the digest and the target's version are as announced |
| Server.Service.CommitCompletion | internal/uploads/service.go:433-480 | The rows a completion writes: entry, version, session, batch, user and log |
| Server.Service.FinalizeAndCommit | internal/uploads/service.go:428-483 | The file is moved first; the rows follow, or the moved blob is deleted again |
| Server.Service.CompleteFile | internal/uploads/service.go:342-491 | Completes exactly when the checks pass, nothing fails and the name is free; the row has the session's name, parent, size and the digest, which is the declared hash if one was declared; version, session, batch, bytes, blob and log as stated column by column, and in every failing case what is left |
| EffectProofs.CompleteEffect | internal/uploads/service.go:342-491 | The state machine's step does this column by column |
| EffectProofs.CompleteExact | internal/uploads/service.go:342-427 | The checks of a completion, written out |
| EffectProofs.NameDecides | internal/uploads/service.go:433-455 | What passes the checks and does not fail completes exactly when a new file's name is free |
| Server.Service.CloseBatch | internal/uploads/service.go:503-549 | The batch holds nothing and has the given status, exactly its open sessions are closed and exactly their files are deleted |
| EffectProofs.CloseEffect | internal/uploads/service.go:503-549 | The state machine's step does this column by column |
| Server.Service.DeleteTemps | internal/uploads/service.go:550-557 | Exactly the listed temporary files go |
| Server.Service.ExpireOne | internal/uploads/service.go:600-638 | One overdue batch is closed as expired in this way |
| Server.Service.AbortBatch | internal/uploads/service.go:493-557 | An open batch is closed as aborted in this way; otherwise nothing |
| Server.Service.CleanupExpired | internal/uploads/service.go:572-638 | The sweep is a run of expiries after which exactly the batches that were open and due have expired, and no other batch changed |
| Server.Service.Upload | internal/files/service.go:167-242 | Succeeds exactly when size and quota allow it and the mode settles on a name; then the entry has that name, the size and a blob with exactly the bytes sent, inserted or overwritten; every other row is unchanged |
| EffectProofs.UploadEffect | internal/files/service.go:167-242 | The state machine's step does this, for insertion and overwriting alike |
| EffectProofs.SettleExact | internal/files/service.go:887-948 | The search ends at the one attempt before which files have all names tried, if the mode lets it get there |
| Server.Service.SettleName | internal/files/service.go:883-949 | The name tried at each of at most thirty attempts, as the mode demands |
| Server.Service.InsertFile | internal/files/service.go:896-915 | A new row, a blob with exactly the bytes sent, their size billed and one change; refused exactly when a folder has the name |
| Server.Service.OverwriteFile | internal/files/service.go:919-942 | The row with new key, size and version, a blob with exactly the bytes sent, the difference billed, the old blob deleted and one change |
| Server.Service.Register | internal/auth/service.go:94-152 | An empty drive: its root folder, no bytes, no log |
| Storage.LocalDisk.Truncate | internal/storage/local.go:145-154 | Cuts the file or extends it with zero bytes; fails when it is missing |
| Storage.LocalDisk.CopyWithContext | internal/storage/local.go:221-248 | The copy loop delivers exactly the bytes read before it stops |
| Storage.LocalDisk.AppendAt | internal/storage/local.go:156-187 | The file becomes its first offset bytes followed by what was copied, also when the copy breaks off |
| Storage.LocalDisk.Finalize | internal/storage/local.go:189-219 | The bytes move to the final key and leave the temporary one |
| UploadQueue.ChunkProgress | internal/uploads/service.go:297-339 | A chunk cut from the source, arriving at any time, moves the session forward or leaves it, and without a fault is accepted or answered with the true offset |
| UploadQueue.Queue.PutChunk | web/src/uploadQueue.ts:568-601 | An answered offset lies strictly ahead of the one sent and is never beyond the server's received bytes, although stale copies of chunks may arrive in between |
| UploadQueue.Queue.Send | web/src/uploadQueue.ts:577-596 | A request that reaches the server is answered by an offset strictly ahead and within the server's bytes, always so without a fault |
| UploadQueue.Queue.PutChunkWithRetry | web/src/uploadQueue.ts:549-566 | Gives up only after nine failures in a row |
| UploadQueue.Queue.SendPass | web/src/uploadQueue.ts:533-544 | One pass advances and saves an offset the server has, or fails nine times and saves nothing |
| UploadQueue.Queue.UploadFile | web/src/uploadQueue.ts:520-547 | The offsets strictly increase and stay within the file, so the loop ends; success means the server's blob is the file; giving up before everything arrived means some chunk failed nine times; saved progress never exceeds the server's |
| UploadQueue.Queue.Finish | web/src/uploadQueue.ts:546 | After a successful answer the entry's blob is the file; after a failed one the session rows are unchanged |
| Manifests.NormalizedExact | internal/uploads/service.go:676-721 | Exactly which manifest entries are refused; a first path part starting with two dots is, the same part further down is not |
| Manifests.NormalizedSafe | internal/uploads/service.go:676-721 | An accepted path is relative and plain and spells what was sent; the name is the sanitised given name or last part; size, target, version and hash are those sent |
| Names.SanitizeSafe | internal/uploads/service.go:794-808 | A sanitised name has no separator, control character or quote and at most 255 characters |
| Names.SanitizeIdempotent | internal/uploads/service.go:794-808 | Sanitising twice is sanitising once |
| Names.NumberedInjective | internal/files/service.go:862-873 | Different attempts give different names |
| Names.SanitizeExact | internal/uploads/service.go:794-808 | Exactly the clean, trimmed names of at most 255 characters are left as they are |
| Names.ScrubSlashes | internal/uploads/service.go:794-808 | Slashes become underscores where nothing has to be dropped |
| Names.TrimExact | internal/uploads/service.go:794-808 | Trimming takes off space at both ends and nothing else |
| Names.LowerExact | internal/store/postgres.go:81-83 | Two names fold to one exactly when they differ in letter case only |
| Names.ExtExact | internal/files/service.go:862-873 | The extension starts at the last dot of the last part; stem and extension make the name |
| Names.NextUniqueNameExact | internal/files/service.go:862-873 | From the second attempt on the number stands in brackets before the extension |
| FolderPath.EnsureFolderPath | internal/uploads/service.go:739-792 | With any coherent cache the result is that of the uncached case-insensitive walk: same folder, same table, same new rows |
| FolderPath.MakeFolders | internal/uploads/service.go:747-790 | The same for the part loop, which keeps every cached path leading where the walk leads |
| FolderPath.NextFolder | internal/uploads/service.go:753-790 | Each part, by cache, by lookup or by creation, advances as the walk does |
| FolderPath.SelectChild | internal/uploads/service.go:767-778 | The live child of that name up to case, if any; it is unique |
| FolderPath.EnsureFolders | internal/uploads/service.go:136-145 | One cache for the whole manifest gives what walking every directory without a cache gives |
| FolderPath.WalkUnique | internal/uploads/service.go:739-792 | A batch leaves no two live siblings equal up to case |
| FolderPath.WalkCached | internal/uploads/service.go:739-792 | An existing path is found and nothing is created |
| PathNames.CleanNeverClimbs | internal/files/zipdownload.go:169-176 | A cleaned path that is neither '..' nor starts with '../' has no '..' part anywhere |
| PathNames.CleanPlain | internal/uploads/service.go:690-693 | Cleaning a path of plain parts changes nothing |
| PathNames.JoinSplit | internal/uploads/service.go:685-689 | Joining the parts of a path gives the path |
| PathNames.SplitJoin | internal/uploads/service.go:685-689 | Splitting joined parts gives the parts |
| PathNames.ResolvedLaws | internal/files/zipdownload.go:169-176 | Empty parts and dots add nothing, a plain part is kept, and '..' takes it back |
| PathNames.SlashedExact | internal/uploads/service.go:676-684 | Backslashes become slashes and nothing else changes |
| PathNames.TrimSlashesExact | internal/uploads/service.go:680-684 | Only slashes at the end go |
| SyncApi.Changes | internal/syncapi/service.go:62-95 | A page holds visible rows after the cursor in order, at most the limit (500 by default, 2000 at most); a row is missing only when the page is full and ends before it; the next cursor is its last id, and a reset is reported exactly when the cursor lies before the retained rows |
| SyncApi.PageExact | internal/syncapi/service.go:62-95 | The longest allowed prefix of the visible rows after the cursor is such a page |
| SyncApi.PageThenRest | internal/syncapi/service.go:62-95 | What remains after a page is the old remainder without it: no gap, no repeat |
| SyncApi.FetchAll | internal/syncclient/client.go:193-202 | Asking again from each returned cursor, with any limits, ends with exactly the visible suffix |
| SyncApi.NoResetNoLoss | internal/syncapi/service.go:62-95 | If retention removed the oldest rows and a positive cursor gets no reset, nothing after that cursor was removed and the pruned table answers as the full history |
| SyncApi.Engine.ApplyPage | internal/syncclient/client.go:82-103 | Rows are applied in order, trash and purge as removals |
| SyncApi.Engine.Pull | internal/syncengine/engine.go:386-419 | A client in step stays in step and its cursor never goes back; caught up, its mirror is the server's view; after a bootstrap, whose cursor is the greatest visible id, it is that view if and only if it held nothing that has since gone, and is then in step |
| SyncRuns.InStepGrows | internal/syncapi/service.go:62-95 | A client in step stays in step while the log grows |
| SyncRuns.EventSound | internal/syncengine/engine.go:386-431 | Logging, retention and pulls keep a client with a cursor in step, unless a bootstrap finds rows the server no longer has |
| SyncRuns.AlwaysInStep | internal/syncengine/engine.go:386-431 | Over every run of such events the client has exactly what was visible up to its cursor, and with nothing newer retained it has the server's view |
| SyncRuns.NewClient | internal/syncengine/engine.go:386-393 | A new client starts in step, and its first bootstrap finds nothing stale |
| SyncRuns.StaleAfterReset | internal/syncengine/engine.go:421-431 | Counterexample: a purge whose row is removed before the next pull: after the reset the client keeps the entry |
| SyncApi.PullPage | internal/syncengine/engine.go:395-418 | The mirror after a page is the base view with all visible changes up to the new cursor applied |
| SyncApi.HistoryTellsView | internal/syncapi/service.go:23-95 | Over logged runs the history replayed from the bare root gives exactly the live entries with every column |
| Limiters.PruneInPlace | internal/auth/service.go:472-480 | Filtering over its own backing array keeps exactly the later times in order |
| Limiters.Limiter.Allow | internal/shares/handler.go:38-61 | Admits exactly when fewer than ten admissions of the full history lie in the last ten minutes, and records exactly what it admits |
| Limiters.Limiter.Blocked | internal/auth/service.go:435-444 | True exactly when at least ten adds of the full history lie in the window |
| Limiters.Limiter.Add | internal/auth/service.go:446-454 | Records the time and changes no other key's answer |
| Limiters.Limiter.SweepLocked | internal/auth/service.go:456-470 | The sweep drops and prunes keys without changing any answer |
| Limiters.Limiter.PruneAll | internal/auth/service.go:462-469 | The loop over all keys leaves none empty and changes no answer |
| Limiters.AgreePruned | internal/shares/handler.go:43-56 | Pruning a key, or dropping it once empty, leaves the table telling what the history tells |
| Limiters.KeptExact | internal/auth/service.go:472-480 | Exactly the times after the bound are kept, each as often as recorded |
| Limiters.WithinExact | internal/shares/handler.go:38-61 | Exactly the times of the ten minutes up to t are counted |
| Limiters.AtMostTenPerWindow | internal/shares/handler.go:38-61 | A record in which each admission saw fewer than ten in its window has at most ten in every interval (t - 10 min, t] |
| Limiters.RateBound | internal/shares/handler.go:38-61 | Over any calls with a clock that never goes back, no such interval admits more than ten of a key |
| Totp.Code | internal/totp/totp.go:34-50 | The code of a counter, or an error when the secret does not decode |
| Totp.WordTruncates | internal/totp/totp.go:44-45 | The shifted and masked word is the value of section 5.3 of RFC 4226: four bytes at the offset in the last nibble, without the top bit |
| Totp.SixDigits | internal/totp/totp.go:46-50 | A code is always six digits, and they spell the truncated value modulo a million |
| Totp.CodeFromBytes | internal/totp/totp.go:34-50 | The six digits spell the four bytes at the last nibble's offset, without the top bit, modulo a million |
| Totp.PeriodBounds | internal/totp/totp.go:55-60 | Counters number periods of thirty seconds |
| Totp.PaddedSpells | internal/totp/totp.go:50 | A number below 10^width becomes exactly width digits that spell it |
| Totp.Match | internal/totp/totp.go:55-74 | Finds the earliest counter adjacent to now, later than the last one used, whose code is the given one, whenever there is one |
| Totp.FirstFitExact | internal/totp/totp.go:55-74 | The matching used in the login model is that counter |
| SecondFactor.EveryRunOneTime | internal/auth/security.go:518-564 | Under every interleaving of the statements of concurrent logins: accepted counters strictly increase above the enrolment's, each claimed counter is accepted once, each challenge is consumed once |
| SecondFactor.SwapKeeps | internal/auth/security.go:555-558 | The conditional update of the last counter keeps this, however stale the value the login had read |
| SecondFactor.ConsumeKeeps | internal/auth/security.go:559-563 | So does the conditional update of the challenge |
| SecondFactor.SuccessIsOneTime | internal/auth/security.go:530-564 | A successful login gave the code of a counter later than the enrolment's, and two successful logins used different counters and different challenges (section 5.2 of RFC 6238) |
| SecondFactor.LoginAlone | internal/auth/security.go:530-564 | Undisturbed, a login wins exactly when its challenge is pending with attempts left and the code is that of an unused adjacent counter; then that counter is the last one used and the challenge is spent |
| SecondFactor.FailureAlone | internal/auth/security.go:550-554 | A code that does not fit counts as one more attempt |
| SecondFactor.ExhaustedAlone | internal/auth/security.go:537-540 | With five attempts counted a login spends the challenge |
| SecondFactor.OfferAlone | internal/auth/security.go:518-528 | A new challenge is pending and every earlier one is spent |
| SecondFactor.GuessBound | internal/auth/security.go:537-554 | If at most w logins on a challenge are ever under way at once, at most four plus w wrong codes are counted on it |
| SecondFactor.GuessBoundReached | internal/auth/security.go:537-554 | For every w of at least one some run counts four plus w |
| SecondFactor.FiveExactly | internal/auth/security.go:537-554 | All runs with at most w logins at once stay within five wrong codes if and only if w is at most one |
| Pace.EveryRunCounted | internal/loadpace/controller.go:109-146 | Under every interleaving of send, increment, receive and decrement: at most max slots are held, the counter is the holders plus those that returned their slot and have not counted down, never negative and zero when idle; a holder can always return its slot |
| Pace.CycleAlone | internal/loadpace/controller.go:109-146 | A goroutine by itself gets a free slot, holds it counted, and leaves no trace |
| Pace.CounterUnbounded | internal/loadpace/controller.go:122-130 | Counterexample for every number of slots: the counter itself reaches any value, through goroutines slow to count down |
| Pace.CounterCanPassMax | internal/loadpace/controller.go:122-130 | In particular it passes the number of slots |
| Pace.AdviceMonotone | internal/loadpace/controller.go:59-106 | More load or more uploads never shorten the delay, enlarge the batch or reopen admission |
| Pace.AdviceBands | internal/loadpace/controller.go:59-106 | The bands of load and of slots in use, counted in whole slots |
| Pace.Sampler.Sample | internal/loadpace/controller.go:154-193 | The whole new sample state; the smoothed value stays within 0..100 |
| Pace.SmoothedStays | internal/loadpace/controller.go:176-186 | Whatever is sampled, the smoothed value stays between the bounds of its start and its samples |
| Pace.SteadyConverges | internal/loadpace/controller.go:176-186 | Under steady load the distance to it shrinks by the factor 0.6 at every sample |
| Pace.UsageExact | internal/loadpace/controller.go:168-176 | Usage is the share of the interval that was not idle, in percent |
| Roles.AlwaysAnAdmin | internal/admin/service.go:251-288 | Over every interleaving of the statements of Register and SetRole transactions, with row and advisory locks, every committed state that has a user has an administrator |
| Roles.StepKeeps | internal/admin/service.go:262-283 | Each statement keeps what every transaction's progress says about locks and committed roles |
| Roles.CommitKeeps | internal/admin/service.go:284-287 | So does each commit, although others have counted before it |
| Roles.OnlyFirstRegistersAsAdmin | internal/auth/service.go:94-115 | A registration makes an administrator exactly of the first user, however registrations overlap |
| Roles.CommitGivesRole | internal/admin/service.go:251-288 | However others interleave, a change of role that commits gives the named user the role asked for and changes no one else |
| Roles.SetRoleAlone | internal/admin/service.go:251-288 | Undisturbed, it succeeds exactly when the user exists and is neither the last administrator nor the actor losing the role |
| Roles.RegisterAlone | internal/auth/service.go:94-115 | Undisturbed, a registration adds its user, as administrator exactly when there is none |
| ZipNames.Pigeonhole | internal/files/zipdownload.go:178-188 | With at most 9998 used names, one of them the base, some numbered candidate is free |
| ZipNames.DedupedExact | internal/files/zipdownload.go:178-188 | The search ends on a used name exactly when every candidate and the clock's name are used |
| ZipNames.DedupedFirst | internal/files/zipdownload.go:178-188 | The search takes the first free number, and the clock's name only when none is free |
| ZipNames.DedupeZipPath | internal/files/zipdownload.go:178-188 | The first free candidate, or the clock's name; free whenever at most 9998 names are used |
| ZipNames.DistinctExact | internal/files/zipdownload.go:121-167 | Emitted names are pairwise distinct if and only if no row finds its name, all candidates and the clock's name used |
| ZipNames.SmallArchiveDistinct | internal/files/zipdownload.go:121-167 | Up to 9999 files they are pairwise distinct |
| ZipNames.NothingRenamed | internal/files/zipdownload.go:150-165 | Where no two cleaned paths agree nothing is renamed |
| ZipNames.LargeArchiveCollides | internal/files/zipdownload.go:178-188 | Counterexample beyond that: 10001 files of which two get one name, whatever the clock shows |
| ZipNames.ArchiveInside | internal/files/zipdownload.go:169-176 | No emitted name has a '..' part |
| ZipNames.ContentsKept | internal/files/zipdownload.go:150-165 | Every usable file is emitted once, in order, with its own content |
| ZipNames.CollectZipFiles | internal/files/zipdownload.go:121-167 | The loop emits exactly that archive |

## Left out

- HTTP, JSON, cookies, CSRF, mail, update manifests, search, stars, comments, notifications, plans: plumbing and single-row writes.
- Desktop, Android and React views: user interface.
- HMAC, SHA-256, password hashing and random tokens: uninterpreted. The digest of a completed file and the HMAC sums are parameters.
- Access control and shared drives: one user with one personal drive, whose fixed quota, configuration and root are constants of the state.
- Row timestamps, mime types, device ids and activity rows: they take part in no decision modelled here. Clock readings are parameters.
- 64-bit overflow of byte counters: sizes are unbounded integers. The CPU sampler's wrap-around is modelled.
- Floating point: load and smoothing are real numbers, and the rounding of the reported value is not modelled.
- Unicode: names and codes are sequences of characters; case folding and trimming cover ASCII, and the 255-character cut counts characters.
- UUIDs: one counter that never repeats stands for the generator, and a temporary key is named by its session.
- Overwrite and insert paths of streamed and WebDAV uploads (internal/files/service.go:244-346): they repeat the direct upload without conflict modes.
- A batch whose temporary files cannot be created, or whose commit fails: it leaves empty files behind and no rows.
- A direct upload whose commit fails: in overwrite mode the old blob is deleted before the commit, so the data is lost.
- An ambiguous commit, reported failed but applied, and a disk that loses committed bytes.
- Interleaving inside one service method: each method is one atomic step. The chunk protocol's crash point between write and commit is modelled, and logins, slots and roles are modelled statement by statement.
- CleanupExpired reads the reservation of a batch outside its transaction: a batch that closes between the read and the update is not modelled.
- Move's check and update, and the snapshot's two reads, are not in one transaction in the code: each is one step here.
- A log row committed after a row with a higher id: rows appear in id order.
- Retention by age: modelled as the removal of a prefix of ids.
- Cleanup of old trash (internal/files/service.go:772-802): a loop of purges.
- The second upload loop of the desktop client (internal/syncclient/client.go:307-362) and the browser's pause and progress display.
- Local files in the sync engine: only the cursor, the reset and the mirror of server rows are modelled.
- The unparsable 200 answer of a chunk, which the browser reads as its own offset plus length: that is the offset the server then has.
- Shelter.SheltersOverRuns: covers runs that meet ShelterGuard, because completion breaks it otherwise; StepShelters shows the guard is exact, and RootsOverRuns likewise with StepRoots.
- SyncRuns.AlwaysInStep: covers runs whose bootstraps find nothing stale, because the engine removes nothing then; Pull shows the condition is exact.
- The limiters' tables hold values instead of slices over shared arrays; PruneInPlace is the proof that the in-place filter computes them.
- Opening a sealed TOTP secret: it always succeeds here; a secret that does not decode is modelled.
- Expiry of login challenges: whether a challenge has expired is a parameter of the lookup.
- Disabling and enrolling again: the one-time property is about one enrolment.
- The gate that refuses an upload before it takes a slot, and its waiting time: they only add refusals.
- License limits on registration: the free edition makes them constant.
- Uploads.StepKeepsUploads: covers sessions whose target sizes are announced truthfully, as Honest says; a client that lies about its own file gets what it sent.
- Blobs.BlobsOverRuns: states reference safety for runs that meet BlobGuard, because the code breaks it otherwise; StepKeepsBlobs shows the guard is exact.
- Replay.ReplayEqualsState: states the replay for runs that meet LogGuard, because the code breaks it otherwise; StepFaithful shows the guard is exact.
- Ledger.LedgerOverRuns: states used bytes for runs that meet UsedGuard, because the code breaks it otherwise; StepKeepsUsed shows the guard is exact.

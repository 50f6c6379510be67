# NppS3: models and proofs

NppS3 carries an edited file to S3-compatible storage: it plans a multipart upload, keeps a journal so that an
interrupted upload can go on, queues transfers on two worker lanes, and starts an upload after every save of a tracked
document. These Dafny files model that path and prove what it promises over every run. `dafny verify dfyconfig.toml`
checks all of it.

## What is modelled

**Resumable upload** (`PartPlan`, `Decimal`, `StorageTypes`, `UploadJournal`, `UploadProtocol`, `UploadSafety`,
`UploadGuard`, `FreshStamps`, `StampReuse`, `UploadLeaks`, `ResumeProgress`, `UploadCalls`, `SentRequests`,
`MultipartUploader`).
`UploadProtocol` is a state machine of one client, its journal in memory and on disk, the local files and the server.
Every storage call is split into a request and a reply, so crashes, lost replies, requests that land late, aborts from
elsewhere, clean-ups, and edited, copied and restored files can fall between any two steps. `UploadSafety` proves over
all runs that an upload which succeeds stores the file its attempt found, unless a part of it was hashed when that file
had already changed (the upload is then called stale). `UploadGuard` proves that a look at the file's stamp when a part
is hashed would rule that out, and that without it wrong bytes can always be driven into a successful upload of a file
that looks unchanged; `StampReuse` has two such runs, and `FreshStamps` shows that they need a stamp that is used twice.
`UploadLeaks` charges every live upload that the journal does not name to one event of its own, a restart that cannot
read the journal file included, and finds the step that forgot it. `ResumeProgress` proves that after a failed attempt
nothing recorded is sent again. `SentRequests` proves of every upload ever finished, with or without a reply, that it
was put together from a whole list. `MultipartUploader` is the uploader written as a class that
changes a journal object in place; every step it takes is a step of the machine, with everything else free to happen in
between.

**Transfer queue** (`TransferQueue`, `TransferManagers`). A step for every locked region and every event emitted, in any
interleaving of callers and two workers; and the class whose methods are those regions.

**Saves** (`SaveRounds`, `SaveSafety`, `LastSaveWins`, `SaveSystem`, `SaveRefinement`, `SavePlugins`). The handlers of
the user-interface thread composed with the queue machine, the local files and the remote objects. A modal dialog is a
state in which other messages are handled. `SaveRounds` takes an upload call for one step that may land, and
`LastSaveWins` is proved over it. `SaveSystem` puts the uploader's machine in place of that step: a session of the plugin
over whatever earlier sessions left in journal and service. `SaveRefinement` proves that each run of the whole is a run
of both parts, so that the last save wins from the notification down to the parts on the server.

**Bulk operations** (`BulkFanout`). Shared counters of folder downloads and bulk aborts, as a machine and as the class
the handlers change, with the message box that a failed page may open.

**Requests and texts** (`StorageErrors`, `Requests`, `PartListing`, `UriQuery`, `CompleteXml`, `StringUtil`,
`CachePaths`, `CacheSweep`). The retry loop, paging, percent-encoding and the canonical query, the Complete body,
key-to-path mapping and the cache sweep, each loop proved against a specification and the specification against what it
is for.

## Assumptions

- For one upload and part number, equal etags mean equal bytes; the server keeps a body only if it matches the payload
  hash sent with it.
- A stamp (size and time) stands for one content. It may come back: a file may be restored with its old time, or copied
  with it. Only `FreshStamps` assumes of a run that stamps are new and not shared, and says so in its `requires`.
- While a file is hashed nobody can write, rename or delete it: it is opened with sharing for reading only
  (src/util/Hash.cpp:92, 123). So a hash is one step, and a look at the file's stamp anywhere while it is open is a look
  at the state that is hashed.
- A request that takes effect after its call has returned counts as another writer of the object. The panel window
  exists, the queue is not shut down while saves are handled, and a session is not cut short: what a crash leaves is
  what the next session starts over. Paths are in normalised form.
- Counters that the source keeps in 64 bits and that only grow by one (job ids) do not overflow.

## Findings

- src/storage/MultipartUpload.cpp:36: the rounding additions of the planner wrap for sizes near 2^64. Such a size is
  accepted and laid out in no parts (`PartPlan.HugeSizePlannedAsNothing`); with a cap of one part line 39 makes the part
  size zero and line 52 divides by it (`PartPlan.OnePartDividesByZero`). `PartPlan.PlanExactIff` says for every part cap
  when the plan is the intended one; every size a file can have is far inside.
- src/storage/MultipartUpload.cpp:85-86 and 202-208: a part is recorded under the stamp taken before the upload even if
  the file was replaced meanwhile, and resuming compares size, time and part size, but neither content nor path. So a
  successful upload may store something else than its file: after the file was restored with its old time
  (`StampReuse.RestoredStampCorrupts`), or when a copy that kept the time is uploaded to the same key
  (`StampReuse.CopiedStampCorrupts`). What decides is the moment of hashing: `UploadGuard.SafeExactlyIfRight`. Hashing a
  part only while the file has the size and time the attempt found would make every run safe
  (`UploadGuard.GuardedUploadStoresFile`).
- src/storage/UploadJournal.cpp:34-35, 41-43 and 84-89: a journal file that cannot be opened, read or parsed at start
  is taken for no journal, and the next flush replaces it. All live uploads it named are forgotten, one restart of a
  locked file as many as it holds; none is if and only if the file can be read (`UploadLeaks.RestartForgetsIff`).
- src/storage/MultipartUpload.cpp:94-98: a failed listing of parts drops the journal entry whatever the failure was, a
  cancel or a lost connection included, so an upload that is still alive is forgotten. `UploadLeaks.LeakAccounting`
  charges it to that event, and `UploadLeaks.LeakHasCause` finds the step.
- src/plugin/NppS3Plugin.cpp:1808-1815: a save round can also wait on the message box about credentials. `ShowError` is
  modal, and until it is closed the round is in flight with neither a job nor a conflict dialog.
  `SaveSafety.OneRoundEach` counts that dialog in.
- src/plugin/NppS3Plugin.cpp:1660-1663: a folder download may log its summary twice. When a page fails for credentials,
  the listing is marked as over and a modal message box opens before the check whether all is over; if the last item
  finishes behind the box, its handler logs the summary, and closing the box logs it again
  (`BulkFanout.SummaryIsLoggedTwice`). `BulkFanout.DownloadAddsUp` says exactly how often it is logged.
- src/plugin/NppS3Plugin.cpp:843: a bulk abort takes the journal's entries by bucket and prefix and ignores their scope,
  so it also sends aborts for uploads of another endpoint or account that has a bucket of this name
  (`BulkFanout.JournalledIff`).
- src/transfer/TransferManager.cpp:138-151: the Pending event of a job may follow its Finished event
  (`TransferQueue.PendingMayComeLast`), exactly if the call that queued it has not emitted it by then
  (`TransferQueue.PendingFirstIff`).
- src/storage/S3Client.cpp:720: a listing of more than 200 pages is cut without an error
  (`PartListing.SteadyCompleteIff`).
- src/cache/CacheManager.cpp:54-64: truncation can leave a trailing dot or space, and below a limit of 3 even a dot
  entry (`CachePaths.TruncatedTrailsIff`, `CachePaths.PlainExactlyFromThree`); no caller uses such a limit.
- src/cache/CacheManager.cpp:180: with more days than have passed since 1601 the cutoff wraps round
  (`CacheSweep.CutoffIsDaysAgoIff`).
- src/plugin/NppS3Plugin.cpp:1689: an upload id with a line break can be taken for another upload and be left out
  (`BulkFanout.LineBreakHidesUpload`); `BulkFanout.TokenTellsApart` and `BulkFanout.LeftOutIff` say exactly when.

## Model

| member | source | states |
|---|---|---|
| PartPlan.PlanNeverWraps | src/storage/MultipartUpload.cpp:24-54 | for every size below 2^63 the 64-bit planner computes the plan of unbounded arithmetic |
| PartPlan.PlanExactIff | src/storage/MultipartUpload.cpp:24-54 | for all 64-bit sizes and every part cap, exactly when the planner agrees with unbounded arithmetic |
| PartPlan.OnePartDividesByZero | src/storage/MultipartUpload.cpp:36-52 | with a cap of one part and a size within a MiB of 2^64 the part size wraps to zero |
| PartPlan.HugeSizePlannedAsNothing | src/storage/MultipartUpload.cpp:36-53 | a concrete size for which it does not: accepted with no parts |
| PartPlan.PlanComplete | src/storage/MultipartUpload.cpp:29-49 | planning succeeds exactly for non-empty files of at most maxParts parts of 5 GiB |
| PartPlan.PlanMinimal | src/storage/MultipartUpload.cpp:33-39 | the desired part size is kept if it fits the cap, otherwise the least whole MiB that does is chosen |
| PartPlan.PlanFitsOneRequest | src/storage/HttpClient.cpp:241-249 | every part stays below the single-request limit exactly for sizes of at most cap parts of 4 GiB - 1 MiB |
| PartPlan.PlanIsValid | src/storage/MultipartUpload.cpp:50-53 | a plan has parts of 5 MiB to 5 GiB, as many as cover the file, within the cap |
| PartPlan.OffsetExact | src/storage/MultipartUpload.cpp:56-59 | offsets never wrap for a planned part size |
| PartPlan.PartsTile | src/storage/MultipartUpload.cpp:56-67 | the ranges of parts 1..partCount tile the file with no gap or overlap, none of them empty |
| UploadJournal.FoundIsMapLookup | src/storage/UploadJournal.cpp:145-165 | looking up the vector is looking up the map by (scope, bucket, key) |
| UploadJournal.RecordedRefines | src/storage/UploadJournal.cpp:177-191 | recording a part replaces the record of its number in the target's entry and nothing else |
| UploadJournal.RemovedRefines | src/storage/UploadJournal.cpp:193-206 | removing takes the key out of the map and keeps one entry per key |
| UploadJournal.JournalIsMap | src/storage/UploadJournal.cpp:167-206 | after any sequence of operations there is one entry per key and one record per part number, and the vector is the map |
| UploadJournal.ReloadedIff | src/storage/UploadJournal.cpp:48-121 | a written journal is read back as it was exactly if every entry is named and every part number positive |
| UploadJournal.FileUploadJournal.SetFile | src/storage/UploadJournal.cpp:24-46 | loading starts from what the file holds, or empty |
| UploadJournal.FileUploadJournal.SerializeToXml | src/storage/UploadJournal.cpp:48-80 | the loops build the record of all entries and parts in order |
| UploadJournal.FileUploadJournal.DeserializeFromXml | src/storage/UploadJournal.cpp:82-121 | reading keeps exactly the named entries and positive parts, or changes nothing |
| UploadJournal.FileUploadJournal.SaveLocked | src/storage/UploadJournal.cpp:123-143 | the file is replaced as a whole or stays as it was |
| UploadJournal.FileUploadJournal.FindLocked | src/storage/UploadJournal.cpp:145-154 | the first entry of the key, by position |
| UploadJournal.FileUploadJournal.Find | src/storage/UploadJournal.cpp:156-165 | the entry of the key, or none |
| UploadJournal.FileUploadJournal.Begin | src/storage/UploadJournal.cpp:167-175 | the entry replaces the key's old one in place, or is added |
| UploadJournal.FileUploadJournal.RecordPart | src/storage/UploadJournal.cpp:177-191 | the nested part vector of the key's entry is updated in place |
| UploadJournal.FileUploadJournal.Remove | src/storage/UploadJournal.cpp:193-206 | all entries of the key go, the others stay in order |
| UploadSafety.RunKeepsInv | src/storage/MultipartUpload.cpp:69-218 | every reachable state keeps the invariant, whatever happens to files and stamps: requests, records, the list and what is to be taken over agree with the upload's plan, and their bytes are the planned ranges unless the upload is stale |
| UploadSafety.UploadStoresFile | src/storage/MultipartUpload.cpp:119-218 | resume safety over all runs: an upload that succeeds and is not stale stored the file its attempt found, byte for byte, and any file that has its stamp |
| UploadSafety.FinishingStoresFile | src/storage/MultipartUpload.cpp:211-217 | in any state of the invariant the completed object has the file's size, and is the file if every part was sent right |
| UploadSafety.JournalledPartIsFileRange | src/storage/MultipartUpload.cpp:82-115 | number and size of a journalled part are true of what the service holds, which is the range of any file with the entry's stamp unless the upload is stale |
| UploadSafety.CompleteListIsWholeFile | src/storage/MultipartUpload.cpp:162-211 | Complete is only sent with parts 1..partCount in order, sizes adding up to the file; what was sent is exactly what was not taken over, and both add up to the file |
| UploadSafety.TakenOverIsAgreement | src/storage/MultipartUpload.cpp:101-115 | a part is taken over exactly if journal and service agree on number, size and etag: the comparison with the planned length rejects nothing |
| UploadSafety.ProgressWithinFile | src/storage/MultipartUpload.cpp:173-206 | progress never exceeds the file while a part reports at most its length |
| UploadSafety.HashedRange | src/storage/S3Client.cpp:609-640 | what is hashed and sent has the planned length, and is the planned range if the file still has the attempt's stamp |
| UploadSafety.MatchedEntry | src/storage/MultipartUpload.cpp:85-93 | an entry that passes the comparison names an upload created for exactly this plan |
| UploadSafety.SizesAddUp | src/storage/MultipartUpload.cpp:162-209 | sizes listed so far end where the last listed part ends, split into taken over and sent |
| UploadCalls.UntouchedFileIsStored | src/storage/S3Client.cpp:419-449 | a call that begins on an idle client and succeeds while nobody touches its file stores what the file held when it began, unless it went on with a stale upload |
| UploadCalls.StepKeepsWork | src/storage/S3Client.cpp:425-447 | size and time are read once, when a call starts, and stand for the whole call |
| UploadLeaks.LeakAccounting | src/storage/MultipartUpload.cpp:78-160 | over all runs, restarts that cannot read the journal included, every live upload outside the journal is charged to an event of its own, so leaks never outnumber those events, and uploads never outnumber attempts |
| UploadLeaks.LeakHasCause | src/storage/MultipartUpload.cpp:78-160 | a leaked upload was forgotten by a step of the run that concerned it: a Create given up on, a crash before it was journalled, an unread journal that named it, its entry dropped alive, its flush lost, or its clean-up |
| UploadLeaks.EventsHappened | src/storage/MultipartUpload.cpp:85-99 | every event charged in a run was put there by a step of its kind |
| UploadLeaks.RestartForgetsIff | src/storage/UploadJournal.cpp:24-46 | in every state a restart keeps all live uploads its file names if and only if it can read the file; otherwise it forgets them all, each charged by itself |
| UploadLeaks.RunBounded | src/storage/S3Client.cpp:591-593 | each attempt brings at most one upload into being |
| MultipartUploader.MultipartUploader.Upload | src/storage/MultipartUpload.cpp:119-218 | on success the whole file was listed and completed, the entry is gone, resumed bytes are those taken over, and the object is the file if its stamp is unchanged and the upload is not stale |
| MultipartUploader.FreshDelivery | src/storage/MultipartUpload.cpp:119-218 | where stamps are new, what it delivered is the file whenever that has not changed since |
| MultipartUploader.MultipartUploader.ResolveResume | src/storage/MultipartUpload.cpp:69-117 | the id to resume and exactly the trusted parts, or none with the target not journalled |
| MultipartUploader.MultipartUploader.Agreed | src/storage/MultipartUpload.cpp:101-115 | the loop keeps the parts that journal and service agree on, each once |
| MultipartUploader.MultipartUploader.SendParts | src/storage/MultipartUpload.cpp:162-209 | the loop over part numbers ends with every part listed, or the attempt is given up |
| MultipartUploader.MultipartUploader.OnePart | src/storage/MultipartUpload.cpp:168-208 | one turn takes the part over or sends it, and the list grows by it |
| MultipartUploader.MultipartUploader.TakeOver | src/storage/MultipartUpload.cpp:173-187 | a confirmed part is listed without being sent |
| MultipartUploader.MultipartUploader.UploadPart | src/storage/S3Client.cpp:609-658 | the part's bytes are hashed, sent and answered with a non-empty etag, or the attempt is given up |
| MultipartUploader.MultipartUploader.RecordPart | src/storage/MultipartUpload.cpp:202-208 | the part is listed and recorded in the journal object |
| MultipartUploader.MultipartUploader.CreateMultipartUpload | src/storage/S3Client.cpp:579-607 | an id is in hand, or the attempt is over whatever the server did |
| MultipartUploader.MultipartUploader.BeginEntry | src/storage/MultipartUpload.cpp:147-159 | the new upload is journalled with the attempt's stamp and part size |
| MultipartUploader.MultipartUploader.ListParts | src/storage/MultipartUpload.cpp:93-99 | the parts listed by the service, or the entry is to be dropped |
| MultipartUploader.MultipartUploader.RemoveEntry | src/storage/MultipartUpload.cpp:89-98 | the entry is gone from the journal object and a new upload is to be made |
| MultipartUploader.MultipartUploader.FindEntry | src/storage/MultipartUpload.cpp:78-93 | the entry decides between a new upload, abort and resume |
| MultipartUploader.MultipartUploader.AbortMultipartUpload | src/storage/MultipartUpload.cpp:88-88 | whether or not the abort worked the entry is dropped next |
| MultipartUploader.MultipartUploader.CompleteMultipartUpload | src/storage/MultipartUpload.cpp:211-213 | the list is sent once; a reply means the object is on record with this list |
| MultipartUploader.MultipartUploader.Done | src/storage/MultipartUpload.cpp:215-217 | after success the entry is removed |
| MultipartUploader.MultipartUploader.CountResumed | src/storage/MultipartUpload.cpp:133-138 | resumed bytes are the sizes of the parts taken over |
| MultipartUploader.MultipartUploader.CleanUp | src/plugin/NppS3Plugin.cpp:1722-1728 | the clean-up command removes by key, whatever upload the entry names |
| UploadGuard.GuardedUploadStoresFile | src/storage/MultipartUpload.cpp:189-208 | with a look at the stamp at every hash, every upload that succeeds stores its file, however files are edited, copied and restored |
| UploadGuard.KeptFilesAreGuarded | src/storage/MultipartUpload.cpp:189-208 | so does every run in which a file keeps its stamp while a call works on it |
| UploadGuard.WrongBytesCorrupt | src/storage/MultipartUpload.cpp:82-116 | wherever a loop whose listed parts are held has sent wrong bytes, a guarded way on lets the upload succeed for a file that looks unchanged with another object |
| UploadGuard.SafeExactlyIfRight | src/storage/MultipartUpload.cpp:69-218 | at that moment every guarded way on is safe if and only if the bytes are right |
| UploadGuard.CanFinish | src/storage/MultipartUpload.cpp:162-217 | with the planned file in place and the listed parts held, the attempt can always go on to success |
| SentRequests.FinishedUploadIsFile | src/storage/S3Client.cpp:660-699 | every upload ever finished, whichever attempt's Complete got there and whether or not its reply did, has the size of the file it was made for and is that file unless it is stale |
| FreshStamps.FreshUploadStoresFile | src/storage/MultipartUpload.cpp:82-116 | if stamps are never used again and not shared, every upload that succeeds for a file with the attempt's stamp stored it |
| FreshStamps.FreshFileIsStored | src/storage/S3Client.cpp:419-449 | then a call over an untouched file stores that file |
| StampReuse.RestoredStampCorrupts | src/storage/MultipartUpload.cpp:82-116 | a run in which a file restored with its stamp makes a successful resume store something else than the file |
| StampReuse.CopiedStampCorrupts | src/storage/MultipartUpload.cpp:82-116 | a run with only new stamps in which a copy with the same stamp does |
| ResumeProgress.ResumeTakesOverAll | src/storage/MultipartUpload.cpp:69-117 | after a failed attempt, and anything that leaves target, upload and file alone, restarts that read the journal file included, the next attempt takes over every recorded part, all that the failed one had listed |
| ResumeProgress.TakenOverIsNotSent | src/storage/MultipartUpload.cpp:173-187 | until another call starts, an attempt sends no part that it set out to take over |
| ResumeProgress.TakesOverCurrentParts | src/storage/MultipartUpload.cpp:101-115 | given the whole listing, an attempt takes over exactly the recorded parts that the service still holds |
| ResumeProgress.ListedIsRecorded | src/storage/MultipartUpload.cpp:202-208 | everything an attempt has listed is in the journal entry of its target |
| TransferQueue.LaneOrder | src/transfer/TransferManager.cpp:179-201 | jobs of a lane finish in enqueue order: finished, held and queued jobs in a row are those issued to it |
| TransferQueue.UploadsNeverOverlap | src/transfer/TransferManager.cpp:89-99 | at most one job of a lane runs, hence no two uploads at a time |
| TransferQueue.ExactlyOnce | src/transfer/TransferManager.cpp:126-201 | every id returned is in exactly one of queued, active and finished, and no other id anywhere |
| TransferQueue.EnqueueIssuesFreshId | src/transfer/TransferManager.cpp:126-138 | 0 exactly when stopping and then nothing changes; otherwise an id nobody had, queued on its lane |
| TransferQueue.DrainBounded | src/transfer/TransferManager.cpp:65-87 | once stopping, the workers can make at most as many steps as the load allows |
| TransferQueue.DrainNeverBlocks | src/transfer/TransferManager.cpp:179-201 | while stopping, a worker that has not left can always lower the load |
| TransferQueue.ShutdownDrains | src/transfer/TransferManager.cpp:65-87 | when the effective shutdown has returned, both queues are empty and every id has exactly one Finished event |
| TransferQueue.ShutdownCancelsQueued | src/transfer/TransferManager.cpp:74-81 | no job still queued at shutdown makes a storage call afterwards; it can only finish as cancelled |
| TransferQueue.CancelledBeforeStart | src/transfer/TransferManager.cpp:214-221 | a job cancelled before its start check never runs and can only finish as cancelled |
| TransferQueue.FlaggedNeverFails | src/transfer/TransferManager.cpp:350-366 | a job flagged before its outcome is decided never ends Failed |
| TransferQueue.PendingMayComeLast | src/transfer/TransferManager.cpp:139-152 | a run in which the Pending event follows the Finished event |
| TransferQueue.PendingFirstIff | src/transfer/TransferManager.cpp:139-152 | Pending precedes Finished exactly if it was emitted before the worker reports; it is never emitted twice |
| TransferQueue.WorkKeepsInv | src/transfer/TransferManager.cpp:179-222 | every worker step keeps both lanes in line and its events on its own lane |
| TransferManagers.TransferManager.Start | src/transfer/TransferManager.cpp:55-63 | starts both workers once, and not after a shutdown |
| TransferManagers.TransferManager.RequestShutdown | src/transfer/TransferManager.cpp:65-82 | flags every queued and active job, or only marks the queue as stopping |
| TransferManagers.TransferManager.Enqueue | src/transfer/TransferManager.cpp:126-137 | the job goes to the end of its lane under the next id, or 0 |
| TransferManagers.TransferManager.AnnounceQueued | src/transfer/TransferManager.cpp:140-151 | the Pending event, outside the mutex |
| TransferManagers.TransferManager.Cancel | src/transfer/TransferManager.cpp:154-165 | sets the flag of the job with this id if it is queued or active, and no other |
| TransferManagers.TransferManager.FlagLane | src/transfer/TransferManager.cpp:74-81 | the loop flags exactly the lane's queued jobs and its active one |
| TransferManagers.TransferManager.FlagMatching | src/transfer/TransferManager.cpp:157-164 | the loop flags exactly the job with this id |
| TransferManagers.TransferManager.HasActiveWork | src/transfer/TransferManager.cpp:167-171 | true exactly if a lane has a queued or an active job |
| TransferManagers.TransferManager.TakeNext | src/transfer/TransferManager.cpp:184-192 | the first queued job becomes active, or the worker leaves an empty lane |
| TransferManagers.TransferManager.PassesStartCheck | src/transfer/TransferManager.cpp:214-221 | the call is made exactly if the flag is clear |
| TransferManagers.TransferManager.AnnounceRunning | src/transfer/TransferManager.cpp:223-228 | the Running event before the call |
| TransferManagers.TransferManager.Decide | src/transfer/TransferManager.cpp:350-366 | the outcome from the reply and the flag at that moment |
| TransferManagers.TransferManager.EmitFinished | src/transfer/TransferManager.cpp:350-367 | the Finished event with that outcome |
| TransferManagers.TransferManager.ClearActive | src/transfer/TransferManager.cpp:196-199 | the lane is no longer active |
| SaveSafety.CompletionFindsAction | src/plugin/NppS3Plugin.cpp:1216-1232 | when a Finished message is handled its action is stored, it is consumed, and no other message finishes that job |
| SaveSafety.OneRoundEach | src/plugin/NppS3Plugin.cpp:1134-1201 | a path is in flight exactly while one job, one handler or one dialog of its round is outstanding, never two |
| SaveSafety.SavesAddUp | src/plugin/NppS3Plugin.cpp:1134-1145 | every notified save started a round, waits, was merged or was dropped, so rounds never outnumber saves |
| SaveSafety.DropsOnlyWithoutUpload | src/plugin/NppS3Plugin.cpp:1187-1201 | a waiting save is dropped only by a step that ends its round without an upload |
| SaveSafety.HandleKeepsRounds | src/plugin/NppS3Plugin.cpp:1337-1450 | every branch of the Head and Upload completions passes the round on or ends it |
| SaveSafety.AnswerKeepsRounds | src/plugin/NppS3Plugin.cpp:1350-1395 | every answer to a dialog passes the round on or ends it |
| SaveSafety.StepKeepsPaired | src/plugin/NppS3Plugin.cpp:601-609 | stored actions and the call under way are exactly the jobs not yet handled as finished |
| LastSaveWins.LastSaveWins | src/plugin/NppS3Plugin.cpp:1125-1201 | a path that is idle after a successful upload, with no change since its last notified save and no other writer, has its content in the object |
| LastSaveWins.LandKeeps | src/storage/S3Client.cpp:419-449 | an upload that lands for a file unchanged since its call began stores that file |
| LastSaveWins.WorkKeeps | src/transfer/TransferManager.cpp:203-367 | worker steps keep what is known of a fresh path's upload |
| LastSaveWins.UiKeeps | src/plugin/NppS3Plugin.cpp:1337-1450 | handlers keep it, and a path that becomes fresh has no earlier upload left |
| SaveRefinement.SystemRefines | src/transfer/TransferManager.cpp:203-367 | every run of plugin, queue, uploader and server together is a run of the save rounds in one view and of the uploader in the other |
| SaveRefinement.SavedFileIsStored | src/plugin/NppS3Plugin.cpp:1125-1201 | the last save wins over the uploader as it is: once a path is idle after a successful upload, with no change since its last notified save and no other writer, the object holds the file, in every session over whatever earlier ones left |
| SaveRefinement.CallsAreNotBlocked | src/transfer/TransferManager.cpp:223-230 | a worker about to upload finds the uploader idle, and one whose uploader is through can report success |
| SavePlugins.NppS3Plugin.HandleFileSaved | src/plugin/NppS3Plugin.cpp:1125-1146 | starts a round, or marks that another is wanted |
| SavePlugins.NppS3Plugin.StartSaveUpload | src/plugin/NppS3Plugin.cpp:1148-1185 | queues the Head request, or ends the round if the document or its configuration is missing |
| SavePlugins.NppS3Plugin.FinishSave | src/plugin/NppS3Plugin.cpp:1187-1201 | ends the round and starts another if one is wanted |
| SavePlugins.NppS3Plugin.DropSave | src/plugin/NppS3Plugin.cpp:1187-1195 | ends the round for good |
| SavePlugins.NppS3Plugin.Enqueue | src/plugin/NppS3Plugin.cpp:601-609 | the action is stored under the id the queue gave, unless it refused |
| SavePlugins.NppS3Plugin.HeadForSaveDone | src/plugin/NppS3Plugin.cpp:1337-1434 | upload, dialog or end of the round, by document, etags and error |
| SavePlugins.NppS3Plugin.EnqueueUpload | src/plugin/NppS3Plugin.cpp:1401-1428 | queues the upload of the document's file to its object |
| SavePlugins.NppS3Plugin.ConflictAnswered | src/plugin/NppS3Plugin.cpp:1353-1395 | overwrite, download and drop, or drop |
| SavePlugins.NppS3Plugin.UploadSaveDone | src/plugin/NppS3Plugin.cpp:1436-1450 | remembers the etag and ends the round, restarting it if wanted |
| SavePlugins.NppS3Plugin.HandleTransferEventUi | src/plugin/NppS3Plugin.cpp:1216-1237 | consumes the action of a Finished message and carries it out |
| SavePlugins.NppS3Plugin.CloseDialog | src/plugin/NppS3Plugin.cpp:1808-1815 | the handler behind the innermost dialog goes on |
| BulkFanout.DownloadAddsUp | src/plugin/NppS3Plugin.cpp:1594-1680 | pending is the number of item jobs, listing says whether a page is outstanding; a summary is only logged when neither is left, with done and failed adding up to the eligible keys; at the end it was logged once, or twice exactly if the box about a failed page outlived the last item |
| BulkFanout.SummaryIsLoggedTwice | src/plugin/NppS3Plugin.cpp:1658-1664 | a run in which it is logged twice |
| BulkFanout.BulkState.PageFailed | src/plugin/NppS3Plugin.cpp:1658-1664 | the listing is over; either the box opens, or it is checked at once whether all is over |
| BulkFanout.BulkState.BoxClosed | src/plugin/NppS3Plugin.cpp:1661-1663 | closing the box checks whether all is over |
| BulkFanout.BulkState.UploadsNotListed | src/plugin/NppS3Plugin.cpp:1709-1716 | a failed listing of uploads only ends the listing |
| BulkFanout.AbortsAddUp | src/plugin/NppS3Plugin.cpp:1682-1736 | the same for a bulk abort, where done, failed and cancelled add up to the uploads sent |
| BulkFanout.AbortsAreSentOnce | src/plugin/NppS3Plugin.cpp:1687-1707 | over a journal without duplicates no (key, upload id) is sent twice |
| BulkFanout.TokenTellsApart | src/plugin/NppS3Plugin.cpp:1689-1690 | two uploads have the same claimed text exactly if they are equal or one's key goes on into the other's id behind a line break |
| BulkFanout.LeftOutIff | src/plugin/NppS3Plugin.cpp:1687-1707 | a listed upload that the journal did not name is left out exactly if an upload sent overlaps with it so |
| BulkFanout.JournalledIff | src/plugin/NppS3Plugin.cpp:841-861 | exactly the journal's entries in the bucket below the prefix are aborted, whatever their scope |
| BulkFanout.EveryListedUploadIsSent | src/plugin/NppS3Plugin.cpp:1687-1707 | then every listed upload is aborted |
| BulkFanout.LineBreakHidesUpload | src/plugin/NppS3Plugin.cpp:1689-1690 | with a line break one may be left out |
| BulkFanout.BulkState.AbortEntries | src/plugin/NppS3Plugin.cpp:841-861 | the loop claims and sends every entry of the bucket below the prefix, in order |
| BulkFanout.BulkState.UploadsListed | src/plugin/NppS3Plugin.cpp:1685-1716 | the loop sends what is not claimed and ends the listing |
| BulkFanout.BulkState.DownloadObjects | src/plugin/NppS3Plugin.cpp:1599-1638 | the loop over a page's objects |
| BulkFanout.BulkState.DownloadOne | src/plugin/NppS3Plugin.cpp:1599-1637 | skipped, failed or queued |
| BulkFanout.BulkState.PageListed | src/plugin/NppS3Plugin.cpp:1597-1656 | another page or the end of the listing |
| BulkFanout.BulkState.ItemFinished | src/plugin/NppS3Plugin.cpp:1667-1736 | counts the item's outcome and takes it off pending |
| BulkFanout.BulkState.FinishBulkIfDone | src/plugin/NppS3Plugin.cpp:1787-1806 | logs the summary exactly if nothing is outstanding |
| Requests.SendWithRetry | src/storage/S3Client.cpp:247-284 | how often a request is sent, that only repeatable failures are repeated, which outcome is returned, and that Create and Complete are sent once and report what came back |
| PartListing.ListParts | src/storage/S3Client.cpp:714-751 | the loop's requests and replies form a listing that ends as the code says |
| PartListing.MarkersIncrease | src/storage/S3Client.cpp:745-747 | whatever the server answers, the markers sent strictly increase |
| PartListing.ListingIsComplete | src/storage/S3Client.cpp:719-750 | a correct server with at least 50 parts on truncated pages and at most 10,000 parts is listed completely, once each, in order |
| PartListing.SteadyCompleteIff | src/storage/S3Client.cpp:719-750 | with steady pages the listing is complete exactly if 200 pages hold everything |
| UriQuery.UriEncode | src/util/StringUtil.cpp:54-78 | the loop computes the encoding |
| UriQuery.DecodeEncoded | src/util/StringUtil.cpp:54-78 | percent-decoding undoes it in both slash modes (sections 2.1 and 2.3 of RFC 3986) |
| UriQuery.EncodedAlphabet | src/util/StringUtil.cpp:62-75 | only unreserved characters and percent signs are left, and slashes if kept |
| UriQuery.SortedIsOrdered | src/storage/SigV4.cpp:26-26 | sorting orders the same pairs by encoded name, then value |
| UriQuery.OrderIsUnique | src/storage/SigV4.cpp:26-26 | there is only one such order |
| UriQuery.CanonicalQuery | src/storage/SigV4.cpp:21-35 | the loops compute the canonical query |
| UriQuery.WireQuery | src/storage/S3Client.cpp:211-222 | the wire query is the canonical query behind a question mark, or empty |
| UriQuery.CanonicalIffSamePairs | src/storage/SigV4.cpp:21-35 | two queries have the same canonical form exactly if they are the same multiset of pairs |
| CompleteXml.XmlEscape | src/storage/S3Xml.cpp:34-51 | the loop computes the escaped text |
| CompleteXml.UnescapeEscaped | src/storage/S3Xml.cpp:34-51 | reading the predefined entities undoes escaping |
| CompleteXml.EtagComesBack | src/storage/S3Xml.cpp:11-16 | a quoted, escaped etag read and stripped of quotes is the etag |
| CompleteXml.EscapedIsText | src/storage/S3Xml.cpp:34-51 | no markup or quote is left in escaped text |
| CompleteXml.BuildCompleteMultipartUploadXml | src/storage/S3Xml.cpp:224-237 | the loop writes the body |
| CompleteXml.BodyTellsParts | src/storage/S3Xml.cpp:224-237 | two lists give the same body exactly if they agree in every number and etag |
| StringUtil.SplitKey | src/util/StringUtil.cpp:93-111 | the loop returns the non-empty fields in order |
| StringUtil.FieldsJoin | src/util/StringUtil.cpp:93-111 | the fields joined by separators are the text |
| StringUtil.JoinFields | src/util/StringUtil.cpp:93-111 | and no other texts without separators are |
| CachePaths.SanitizeComponent | src/cache/CacheManager.cpp:32-66 | the loops compute the sanitized name |
| CachePaths.SanitizedIsPlain | src/cache/CacheManager.cpp:32-66 | for limits from 3 on a component is non-empty, within the limit, no dot entry, and holds no control character and none of nine special ones |
| CachePaths.PlainExactlyFromThree | src/cache/CacheManager.cpp:54-64 | and exactly from 3 on |
| CachePaths.ReservedIff | src/cache/CacheManager.cpp:17-28 | exactly these 22 device names are reserved, in any case |
| CachePaths.GoodNameIsKept | src/cache/CacheManager.cpp:32-66 | a name with nothing wrong about it is kept as it is |
| CachePaths.FittingNameIsStable | src/cache/CacheManager.cpp:45-52 | a cleaned name that fits is stable, ends in neither dot nor space and is no device name |
| CachePaths.TruncatedTrailsIff | src/cache/CacheManager.cpp:54-64 | a truncated name ends in a dot or space exactly if no extension is kept and the cut is behind one |
| CachePaths.TruncationKeepsExtension | src/cache/CacheManager.cpp:56-63 | a kept extension stays the extension |
| CachePaths.RelativePathForKey | src/cache/CacheManager.cpp:148-160 | the loop joins the sanitized segments |
| CachePaths.NoKeyEscapes | src/cache/CacheManager.cpp:148-160 | the path of any key has one plain component of at most 100 characters for each non-empty segment |
| CachePaths.PathIsEmptyIff | src/cache/CacheManager.cpp:148-160 | a key has no path exactly if it is all slashes |
| CacheSweep.Sweep | src/cache/CacheManager.cpp:189-228 | the worklist ends, removes exactly the stale files of the tree that can be deleted and returns their number |
| CacheSweep.SweepEntry | src/cache/CacheManager.cpp:208-224 | a directory goes on the worklist, a stale file goes |
| CacheSweep.StaleFilesIff | src/cache/CacheManager.cpp:217-223 | a path is removed exactly if it is that of an old file the predicate does not protect, so never a directory |
| CacheSweep.CutoffIsDaysAgoIff | src/cache/CacheManager.cpp:171-182 | the cutoff is that many days ago exactly if they fit between 1601 and now |

## Left out

- WinHTTP, CNG, the credential store, file handles and the XML library: storage calls are steps that may succeed, fail
  or lose their reply; XML is a tree of elements; hashes and decoding of UTF-8 are arbitrary functions.
- SHA-256, HMAC and the signature value, canonical headers and URIs: only the canonical query is modelled.
- An uploader without a journal: the plugin always sets one.
- `_strtoui64` on text with blanks or signs: the journal reader is modelled on runs of digits, which is all it writes.
- MultipartUploader.MultipartUploader.Upload: the journal object is not reloaded from disk inside the class, so a crash
  in the middle of the method is covered by the machine only.
- Backoff delays in `SendWithRetry`: only whether the flag was seen set during a pause matters.
- Progress events and their throttling; a retried request restarts its count, so progress is not monotone.
- TransferQueue.DrainBounded: that a storage call returns at all is assumed, so draining is a bound and the absence of
  blocking, not a time.
- Wake-ups of the condition variable: a worker's step is possible whenever its wait condition holds.
- SavePlugins.NppS3Plugin.ConflictAnswered: looks the document up again after the dialog, where the source uses
  what it had found; documents stay where they are in the source's map and are only removed at start-up, so both find the
  same. For a document unregistered meanwhile, which the machine also allows, the round ends.
- LastSaveWins.LastSaveWins: takes an upload for one step that lands what the file holds; `SaveRefinement.SavedFileIsStored`
  has the uploader in its place.
- SaveRefinement.SavedFileIsStored: a request that takes effect after its call has returned counts as another writer of
  the object, and runs that hash a changed file while stamps are used again are shut out, since
  `StampReuse.RestoredStampCorrupts` is one of them.
- Path normalisation, the completion of a download chosen in a conflict dialog (an edit of the file and of the
  document's etag), and all actions of the plugin that are not saves or bulk operations.
- BulkFanout: folder deletion has no counters, and refreshing the tree is user interface.
- `ListMultipartUploads` paging: it has the same loop without a numeric marker to compare.
- CacheSweep: the entries "." and ".." of a listing are skipped by the source and not part of the tree; links that make
  a directory contain itself are not modelled.
- MIME types, profiles, language detection, endpoint parsing, menus, dialogs and the dock panel.

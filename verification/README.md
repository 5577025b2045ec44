# flob, verified

flob is a content-addressed blob store with three backends: memory, a filesystem and
S3. Blobs are shared between namespaces, can be uploaded in resumable stages, are swept
when nothing references them, and can be read through a cache. This project models the
protocols behind that and proves what they keep.

`dafny verify dfyconfig.toml` checks all of it.

## How it is modelled

Protocols whose correctness is about interleavings are transition systems: one step is
one bucket request, one filesystem call or one operation under a lock, any number of
calls are at any point of their code, and a call may stop anywhere. The theorems are
about every state of every run. Code whose state belongs to one caller at a time is a
class with the source's fields, and its methods are proved against abstract state. Pure
code is functions and lemmas.

| file | what |
|---|---|
| Basics, Hashing, Streams, Text | results and errors; bytes, digests and a checkpointed hash; stream endings and 64-bit offsets; cutting strings |
| S3Reclaim, S3Markers | the two-phase sweep of the bucket against in-flight Adds; which markers and bytes each step takes and writes |
| StageSpec | the stage record, its checks, and the one upload machine |
| S3Stage, S3StageSafety | staged uploads on S3: compare-and-swap manifests, leases, immutable chunks, assembly, cleanup |
| S3StageCalls, S3StageOutcomes | what the calls on such a stage do, when they may, and who decides its outcome |
| Chunking | regrouping appended bytes into parts; the ranges of a large copy |
| OsStage | staged uploads on a filesystem, with failing calls, crashes and power loss |
| MemStage | staged uploads in memory, and pruning |
| MemRefs, MemCalls | reference counts of the memory store at lock and map-operation grain; whose entry each call makes or takes |
| OsLinks, OsCalls | hard-link deduplication at the grain of filesystem calls; whose entry each call makes or takes, and with which labels |
| Fill, Cache | a blob followed while it is written; the cache's tap and its followers |
| RangeReader | a remote blob put together from ranged responses |
| Namespaces, Keys, Query | namespace segments, bucket keys, percent-encoding and the canonical query |

What is outside is a parameter: the clock is an integer that does not go back, SHA-2 is
any hash whose checkpoints can be continued (`Hasher.Lawful`), a nonce is one not used
before, an ETag of a manifest is its content, and whether a call works, fails or is where
the process dies is chosen for it. Requests take effect in the step that makes them, a
save may take effect and still report an error.

## What the code does and its comments do not say

- The grace of a sweep has to cover an Add (from its look at the blob to its marker)
  *and* a put-aside (from the trash copy's timestamp to the delete of the blob), where
  the comments (reclaim.go:148-158) speak of the Add alone. `ReclaimSafeIff` is the exact
  condition; `ReclaimLoses` gives the run that loses a referenced blob without it.
- Whether a second sweep finishes a blob depends on when the first one made the trash
  copy, not on when it ended, and the comparison is strict: "at least grace apart"
  (reclaim.go:136-137) is not far enough for a copy made in the moment the first sweep
  ended. `SweepCompletenessIff` is the exact condition, `GraceApartIsNotEnough` the run.
- The filesystem stage's recovery truncates a published inode if, and only if, a power
  loss can leave it longer than what is frozen, or it is already; that is, unless the
  file is synced and of the frozen length (`Sound`). A Commit publishes it like that
  unless the file was left truncated without a sync (`Steady` says so before the call),
  which an Append that fails and then dies, or a recovery that dies, can do. `SoundIff`
  is the condition, `Drive` keeps it, `CutPublished` is the run in which a published
  inode is truncated. It is cut to exactly the frozen bytes.
- A filesystem Commit that finds the receipt of an earlier attempt hands it out without
  syncing it (os.go:1574-1579). `CommitReceipt` says when a receipt can still be lost: a
  power loss can bring back a manifest without it exactly if the stage was committed
  already by an attempt that could not sync its last manifest. `LoseReceipt` is the run.
  Accepted input, and a receipt that is durable, are never lost (`Drive`).
- A Read of a cache follower after its Close goes on from the origin: the closed fill
  answers with an error like any other (cache.go:426-447). `Follower.Read` states it.
- The sum of offset and part in a multipart copy wraps around for sizes within one part
  of 2^63 (reclaim.go:306-307). `CopyRanges` says for which sizes it does not.
- `namespaceID` reads more segments than `namespaceSegment` writes: "CON" is read as
  itself. `NamespaceIDIsNotInjective` shows it, `NamespaceIDExact` says for which
  segments, and reference keys do not accept them (`RefNamespaceExact`).

## Model

| member | source | states |
|---|---|---|
| S3Reclaim.ReclaimSafe | reclaim.go:159-227 | In every reachable state of Adds, Erases and one sweeper that may stop after any request, every reference has its bytes under blob/ or trash/, if Add time plus put-aside time is at most the grace |
| S3Reclaim.ReclaimLoses | reclaim.go:178-224 | Otherwise a reachable state has a reference whose bytes are gone |
| S3Reclaim.ReclaimSafeIff | reclaim.go:136-158 | The grace argument as an if-and-only-if on the three times |
| S3Reclaim.DropIsSafe | reclaim.go:178-206 | When a sweep removes the last copy in trash/, no marker names it, and no Add that counts on it is still in time to write one |
| S3Reclaim.InvStep | s3.go:447-601 | Every step of an Add (marker check, HEAD, verified upload, marker), an Erase or the sweeper keeps: contents match digests, claims have bytes, and whoever counts on a blob in trash/ alone asked before blob/ went |
| S3Reclaim.RunInv | reclaim.go:159-227 | That invariant holds along every run |
| S3Reclaim.SweepTakesBlob | reclaim.go:208-224 | A full sweep leaves no blob/ object of a digest that stays unreferenced and was old when it started |
| S3Reclaim.SweepTakesTrash | reclaim.go:178-206 | A full sweep leaves no trash/ object of such a digest that was put aside more than the grace before |
| S3Reclaim.SweepCompleteness | reclaim.go:159-227 | Two full sweeps more than the grace apart leave no copy of a digest without references and Adds, whatever else runs and whatever sweeps stop in between |
| S3Reclaim.SweepTrashIff | reclaim.go:178-206 | A full sweep removes the trash copy of such a digest exactly if the copy is more than the grace older than the sweep's start |
| S3Reclaim.SweepCompletenessIff | reclaim.go:136-158 | Two full sweeps finish such a digest exactly if the second starts more than the grace after the trash copy was made |
| S3Reclaim.GraceApartIsNotEnough | reclaim.go:136-137 | A run of two full sweeps exactly the grace apart that leaves the copy |
| S3Markers.MarkerTaken | s3.go:851-878 | A marker goes only by an Erase of its digest from its namespace |
| S3Markers.EraseTakesOne | s3.go:851-878 | An Erase takes exactly that marker and leaves every other marker and every byte alone |
| S3Markers.MarkerMade | s3.go:447-601 | In every run, a marker is written by an Add that was begun for that digest and namespace with an input that hashes to the digest, and during which the bytes were under blob/ |
| S3Markers.AddEnds | s3.go:447-601 | An Add that ends has its marker, was given other bytes, or has failed |
| S3Markers.ClientBytes | s3.go:447-601 | Nothing a client does changes bytes, but an upload of an Add's own input, which hashes to the digest |
| S3Markers.SweeperBytes | reclaim.go:178-224 | The sweeper changes only the bytes of the digest it is at: a copy of what is there, or a delete |
| S3Markers.ListingExact | reclaim.go:166-175 | A listing of the references has to find exactly the markers that were there all the time since it began, and can find exactly those that were there at some time |
| StageSpec.PrepareCommitExact | store.go:425-447 | For a record of some bytes, freezing succeeds exactly if the caller names no digest or theirs, and freezes their digest and size with the caller's labels |
| StageSpec.PreparedAgain | store.go:448-450 | What is prepared again equals what was frozen exactly for the same labels and the same digest or none |
| StageSpec.RunConsistent | store.go:472-505 | In every run of the machine, parameters exist exactly from freezing on, a receipt exactly once committed, and both name the accepted bytes |
| StageSpec.RunKeeps | store.go:425-450 | Along every run inputs only grow and only while active, the phases move only forwards, parameters and receipt never change |
| StageSpec.CommittedIsExact | store.go:425-505 | A committed upload's parameters and receipt are the digest and size of exactly the inputs accepted before it froze, in order |
| S3StageSafety.StepInv | s3.go:1240-1745 | Every request of every operation keeps the protocol's invariant, up to the deletion of the manifest |
| S3StageSafety.TraceInv | s3.go:1390-1943 | So does every run, with saves that land and report errors, crashes, expiry and takeovers |
| S3StageSafety.ChunksExist | s3.go:1808-1943 | In every state of every run, every chunk of a manifest that is committing, or active and unexpired, is in the bucket, and the chunks' bytes are the accepted inputs in order |
| S3StageSafety.OvertakenStep | s3.go:1325-1344 | A holder whose manifest was replaced stays overtaken in every step |
| S3StageSafety.Fenced | s3.go:1292-1344 | Once another operation has replaced the manifest, no save of the earlier holder can land for the rest of the run |
| S3StageSafety.KnownSince | s3.go:1240-1344 | The content an operation would replace is what it read or wrote in a step of its own, and it has held on to it since |
| S3StageSafety.OneChain | s3.go:1292-1324 | In every run, whatever replaces the manifest is saved by an operation that read or wrote exactly the content it replaces in an earlier step, and has held on to it since |
| S3StageSafety.StepRefines | s3.go:1390-1745 | Every step is a move of the upload machine, or none |
| S3StageSafety.Refines | s3.go:1390-1745 | Every run of the S3 protocol is a run of the upload machine, with the receipt taken from the marker that is there |
| S3StageSafety.PublishedIsAppended | s3.go:1561-1708 | From freezing on, the object at the frozen digest, if there is one, has the digest of exactly the accepted inputs |
| S3StageSafety.AssembledOk | s3.go:1606-1708 | The parts of a completed assembly join to the accepted inputs |
| S3StageSafety.TakeOver | s3.go:1418-1446 | The chunks an Append keeps and the tail it reads back are the bytes it found |
| S3StageSafety.FillAfterPut | s3.go:1449-1488 | Writing a chunk moves its bytes from the rest of the input to the chunk list and keeps all but the last chunk full |
| S3StageSafety.ChunksAreCanonical | s3.go:1390-1503 | Any two uploads of the same bytes have the same chunks, whatever Appends and takeovers they came through |
| S3StageCalls.BytesBeforeEntry | s3.go:1561-1580 | In every run, whoever is about to write the entry was there when the object at the frozen digest was there, with the digest of the accepted inputs |
| S3StageCalls.EntryFilled | s3.go:1581-1605 | An empty entry is filled by such a commit, with the frozen parameters, or by another call |
| S3StageCalls.CommittedHasEntry | s3.go:1561-1605 | Unless somebody erases, a committed stage has its entry |
| S3StageCalls.OwnEntryHasBytes | s3.go:1561-1605 | And if its commit went on to write the entry itself, the object too, with the digest of the accepted inputs |
| S3StageCalls.AcceptedInTime | s3.go:1390-1503 | In every run, input is accepted only for an Append that found the very manifest it replaces active, unexpired and at the offset it expected; the stage lives on for the time to live |
| S3StageCalls.FrozenInTime | s3.go:1505-1548 | A stage freezes only for a Commit that found it active and unexpired, with the parameters prepared from what that Commit was given |
| S3StageCalls.DeletedOnlyExpired | s3.go:1842-1895 | A manifest is deleted only when expired, and never with a commit to finish |
| S3StageOutcomes.ClosedBy | s3.go:1505-1745 | A stage is aborted only by an Abort, and committed only by an Abort that found it frozen or a Commit that asked for what is frozen; the outcome is kept for the retention time |
| S3StageOutcomes.CommitAsked | s3.go:1516-1548 | A Commit touches object and entry only for its own labels, and no digest or the frozen one |
| S3StageOutcomes.LeaseExcludes | s3.go:1325-1344 | While a lease runs, nobody but its one holder replaces or deletes the manifest |
| S3StageOutcomes.EndsUnleased | s3.go:1339-1344 | Whoever's last save succeeds has given the lease back |
| S3StageOutcomes.DeletedIsClean | s3.go:2046-2065 | When a stage is pruned, no chunk that was listed for it is left |
| Chunking.GroupingIsUnique | s3.go:1273-1285 | A chunk list that a manifest may have is determined by its bytes |
| Chunking.WellSizedCount | s3.go:1273-1285 | It has as many chunks as its bytes need and no more |
| Chunking.Regroup | s3.go:1418-1497 | Old chunks plus input give chunks that join to old bytes plus input, all but the last full, at most 10000, kept chunks in front, offset their total without 64-bit overflow; it succeeds exactly if the input ends cleanly, the parts suffice and no chunk write fails |
| Chunking.CutParts | s3.go:1447-1488 | The loop of it: full parts until the input ends |
| Chunking.CopyRanges | reclaim.go:306-307 | The ranges of a multipart copy follow each other from byte 0 to the end, all but the last full, exactly if the size is at most one part below 2^63; else a range is not within the object |
| Chunking.CopyIsWhole | reclaim.go:293-336 | The parts those ranges copy join to the object, and part i starts at i full parts |
| OsStage.Stage.constructor | os.go:1100-1165 | A new stage is an empty active upload that is durable and has not expired |
| OsStage.Stage.RecoverTail | os.go:1445-1483 | Afterwards the file holds exactly the accepted bytes; a published inode is cut exactly if it is longer than what is frozen, and never under an active upload |
| OsStage.Stage.WriteRecord | os.go:1362-1399 | The manifest is the old one or the new one wherever the process dies, the flag says which, and success is durable |
| OsStage.Stage.Append | os.go:1499-1557 | Success means an active, unexpired upload, the right offset, the input accepted and durable and a new time to live, and undisturbed these suffice; an expired upload and a wrong offset are refused and change nothing; one move of the machine or none |
| OsStage.Stage.Extend | os.go:1529-1557 | Wherever the copy, its sync or the manifest's replacement stops, the manifest covers old or new bytes that are in the file and durable |
| OsStage.Stage.Freeze | os.go:1570-1588 | Freezing records the digest and size of the accepted bytes and the caller's labels, durably |
| OsStage.Stage.PublishEntry | os.go:1653-1723 | The entry gets the frozen labels and the inode at the share path, which is the stage's own only if there was none |
| OsStage.Stage.RecoverCommit | os.go:1593-1758 | From any interruption: an entry that is there stays and gives the receipt its labels, otherwise one with the frozen labels appears; run without disturbance it always finishes; a synced inode of the frozen length is left as it is |
| OsStage.Stage.Commit | os.go:1558-1592 | At most two moves of the machine; it succeeds only, and undisturbed exactly, for an unexpired or frozen upload and parameters that can be or are frozen; then the entry is in place and the receipt's digest and size are those of the accepted bytes; an expired upload is refused untouched; an inode that is not left truncated unsynced is published synced |
| OsStage.ReceiptIff | os.go:1362-1399 | Every manifest a power loss may leave of a committed stage has its receipt exactly if no rename can be undone |
| OsStage.CommitReceipt | os.go:1574-1579 | A receipt that a Commit hands out survives every power loss, except exactly if the stage was committed before with a rename that is not synced |
| OsStage.Stage.Look | os.go:1485-1498 | Resume and Stat refuse an expired upload and otherwise leave exactly the accepted bytes; a published inode that is synced and of the frozen length is not touched |
| OsStage.Stage.Abort | os.go:1759-1790 | Closes an active upload for the retention time and touches no entry; a frozen one is carried through and never aborted |
| OsStage.Stage.PowerLoss | os.go:1362-1399 | After losing everything unsynced, the manifest on disk still covers bytes in the file that hash to its checkpoint, input accepted with success is still covered, and a manifest that comes back is an open one |
| OsStage.Drive | os.go:1166-1790 | Any sequence of Resumes, Stats, Appends, Commits and Aborts, with calls failing, the process dying anywhere, power lost and others publishing, erasing and cleaning up the digest, is a run of the upload machine unless a power loss undoes a rename; in any case accepted input and durable receipts stay, and a published inode that is synced and of the frozen length is never truncated |
| OsStage.SoundIff | os.go:1445-1483 | Every outcome of a power loss leaves a published inode at the frozen length exactly if it is synced and of that length |
| OsStage.CutIfUnsound | os.go:1445-1483 | Otherwise a power loss, if one is needed, and the next call truncate it |
| OsStage.TearPublished | os.go:1529-1557 | An Append and a Commit, each dying at a sync, after which a published inode is not synced |
| OsStage.CutPublished | os.go:1445-1483 | The whole run in which a published inode is truncated: a failed Append, a Commit, a power loss, an Abort |
| OsStage.CutFromBeginning | os.go:1445-1483 | The same as a closed run from a new stage |
| OsStage.LoseReceipt | os.go:1574-1579 | Two Commits and a power loss after which a receipt that was handed out is gone |
| OsStage.LoseFromBeginning | os.go:1574-1579 | The same as a closed run from a new stage |
| MemStage.Store.Publish | mem.go:162-208 | An entry or a blob that is there stays; otherwise the namespace gets the entry with its labels, and the digest the bytes |
| MemStage.Store.Erase | mem.go:262-281 | The entry goes, and the blob with its last entry |
| MemStage.Stage.Append | mem.go:504-539 | Succeeds exactly for an active, unexpired stage, the right offset and an input that ends; then one input more, otherwise nothing changed |
| MemStage.Stage.Complete | mem.go:571-591 | Publishes the frozen parameters once; the receipt carries the labels of the entry that is there; a failure leaves the stage frozen |
| MemStage.Stage.Commit | mem.go:540-570 | Succeeds exactly for an unexpired or frozen upload and parameters that can be or are frozen, unless stopped; the entry and the blob are published with them and the receipt has the entry's labels; asking again, or being refused, changes nothing; at most two moves of the machine |
| MemStage.Stage.Abort | mem.go:592-614 | Aborted afterwards exactly if it was active or aborted before; the store is touched exactly as by a commit, and only for a frozen one |
| MemStage.Stages.Prune | mem.go:615-660 | Over the stages of every namespace: one in use stays as it is; any other one is dropped exactly if it has expired with no commit left to finish, and a frozen commit is finished first |
| MemStage.Stages.Begin | mem.go:435-448 | A new stage under an id nobody has, or a conflict |
| MemStage.Drive | mem.go:504-614 | Any sequence of operations, with others adding, linking and erasing blobs in any namespace, is a run of the upload machine |
| MemRefs.StepInv | mem.go:162-208 | Every map operation, lock and count change of publish, Link and Erase keeps the counting invariant |
| MemRefs.RunInv | mem.go:162-358 | It holds in every interleaving |
| MemRefs.CountsAreExact | mem.go:262-281 | The count is the entries plus erasers yet to count out less the holder yet to count in; all entries are of the blob in the table; it is positive whenever it is decremented |
| MemRefs.RetriesAreBounded | mem.go:166-192 | An unlocked blob in the table has a reference; a publisher that retries found a blob an Erase had already deleted, a different one each time |
| MemRefs.LastOut | mem.go:272-279 | When the last reference goes, there is no entry, and nobody is on the way in or out |
| MemCalls.CallOf | mem.go:162-358 | Every call under way was begun for the namespaces it is at work on |
| MemCalls.EntryMade | mem.go:162-208 | In every run, an entry appears only in a call begun to publish or link into that namespace |
| MemCalls.EntryTaken | mem.go:262-281 | An entry disappears only in a call begun to erase it |
| MemCalls.LinkCopies | mem.go:311-358 | What a Link stores is the blob that its source's entry, in the namespace it was given, had when it was looked at again during the call |
| MemCalls.CallEnds | mem.go:162-358 | When a call ends, its namespace had the entry at a moment of the call, or an erased one had none; a Link ends without only if its source had no entry or another one meanwhile |
| OsLinks.StepInv | os.go:153-249 | Every filesystem call of Add, Link, Adopt, staged commit, Label, Erase, cleanup and Reclaim, and a crash at any of them, keeps the invariant |
| OsLinks.RunInv | os.go:153-914 | It holds in every interleaving under the digest's lock |
| OsLinks.OneInode | os.go:670-766 | Every namespace's entry is a hard link of the one inode at the share path, which holds the digest's bytes |
| OsLinks.CleanupTakesNothing | os.go:468-502 | Cleanup removes the share path only as the inode's last name, with no entry of the digest left |
| OsLinks.PublishIsExact | os.go:334-350 | What a publisher clears away has no blob; what it renames into place is an entry of the shared inode with its own labels |
| OsLinks.OneLink | reclaim.go:47-112 | A link count of one means no other name |
| OsCalls.EntryMade | os.go:153-249 | In every run, an entry appears only in a call begun for that namespace, with the inode and the labels it staged |
| OsCalls.EntryTaken | os.go:447-466 | An entry disappears only in a call begun to erase it |
| OsCalls.EntryLabels | os.go:670-766 | An entry that appears has the labels its call was given, or for a Link those its source had at a moment of the call |
| OsCalls.CallEnds | os.go:447-502 | When a publication releases the lock, its namespace had the entry at a moment of the call or something else in its place; an erased one had neither entry nor labels, and after an Erase or a Reclaim the share path was gone or not the only name |
| Fill.Tracker.Store | fill.go:98-117 | Bytes are stored in order, up to the size, and not after the fill has settled |
| Fill.Tracker.Settle | fill.go:118-142 | Readers see what was stored; at the full size the state is the verdict on the digest; a new wake channel |
| Fill.Tracker.Commit | fill.go:144-179 | Succeeds exactly if every byte is there and matches the digest |
| Fill.Tracker.Abort | fill.go:158-170 | Fails a fill that still expects bytes, and no other |
| Fill.Tracker.Follow | fill.go:190-198 | Refused exactly once the fill has ended with no reader |
| Fill.Tracker.Act | fill.go:209-248 | A reader gets only written bytes, those at its offset, as many as there is room for; the end only, and always, at the end of a blob whose digest matched, and who has read from its start to there has got that blob; a broken fill's error; it waits on an open channel only if there is nothing for it, and gives up instead of waiting if cancelled or closed |
| Fill.DecideOk | fill.go:209-248 | The same of the decision itself, for any reader and any fill |
| Fill.Tracker.Close | fill.go:267-277 | Closing twice is closing once; the release runs at most once, exactly when the fill has ended with no open reader |
| Cache.BlobTap.Read | cache.go:510-552 | The sink has exactly the first `forwarded` bytes of the source, ends cleanly only with all of them, and gets everything when reading from within the prefix goes undisturbed |
| Cache.BlobTap.Seek | cache.go:554-565 | A seek that works changes nothing for the sink; one that fails ends it |
| Cache.BlobTap.Interrupt | cache.go:567-584 | A stop from outside cuts the sink's stream, if it has not ended |
| Cache.Follower.Read | cache.go:426-447 | The caller gets the blob's bytes at its own offset, also across the switch to the origin, which happens at most once, for a failure of the fill other than a mismatch, or after Close, and does happen if the origin can be used |
| Cache.Follower.Seek | cache.go:449-455 | The offset moves with the reader that is in use |
| RangeReader.StrongETag | http.go:527-537 | A tag is taken exactly if it is a quoted text of allowed characters |
| RangeReader.ContentRangeExact | http.go:653-685 | A Content-Range header is accepted exactly if it reads "bytes first-last/total" with first <= last < total in 64 bits, and for those numbers |
| RangeReader.Reader.UsableExact | http.go:567-652 | Which responses give the bytes from the offset on, in the response's own fields: its status, its range and total, and its length |
| RangeReader.Reader.Open | http.go:567-652 | A response is used exactly if it starts at the offset, ends within the size and is of the pinned URL and strong tag |
| RangeReader.Reader.Read | http.go:686-751 | The bytes are the pinned representation's at the offset; end of file exactly at or past the size; a response that is used up has moved the offset; an error stays |
| RangeReader.Reader.Take | http.go:712-750 | What is read from a body, however short the reads, is what the representation has there; no slice is negative and nothing overflows |
| RangeReader.Reader.Settle | http.go:716-749 | A body that ends before, or goes on after, the last advertised byte is an error |
| RangeReader.ReadOn | http.go:567-751 | If responses with one URL and strong tag hold one representation, any run of short reads over short responses gives a contiguous piece of it, and end of file only after every byte up to the size |
| RangeReader.ReadAndSeek | http.go:567-778 | In any run of reads and seeks, through errors, every read gives that representation's bytes at the offset it was made at, and end of file only at or past the size |
| RangeReader.Reader.Seek | http.go:752-778 | Succeeds exactly if the position is representable; moving drops the response and its error, staying keeps both |
| Namespaces.DecodeEncode | namespace.go:11-16 | Strict base64url decoding undoes the encoding of every byte string |
| Namespaces.SegmentBack | namespace.go:11-51 | namespaceID undoes namespaceSegment for every byte string |
| Namespaces.SegmentsDiffer | namespace.go:9-16 | Different namespaces have different segments |
| Namespaces.SegmentIsSafe | namespace.go:18-37 | A segment is not empty, not dot or dot-dot, has no slash, and is no device name, with or without an extension |
| Namespaces.DigitExact | namespace.go:11-16 | The digits are the 64 characters of RFC 4648 section 5, in its order |
| Namespaces.SplitExact | namespace.go:11-16 | Three bytes and their four digits are the same 24-bit number |
| Namespaces.PlainExact | namespace.go:18-37 | The characters of a segment that is left as it is |
| Namespaces.NamespaceIDExact | namespace.go:39-51 | Which segments namespaceID accepts, and for which ids |
| Namespaces.NamespaceIDIsNotInjective | namespace.go:39-51 | Two segments are read as the same id |
| Namespaces.RefNamespaceExact | s3.go:1118-1123 | A reference's segment is accepted exactly if it is its id's own |
| Keys.ParseKeyExact | reclaim.go:114-134 | A key under blob/ or trash/ is read as a digest exactly if it is that digest's key |
| Keys.ParseRefKeyExact | s3.go:1098-1116 | A key is read as a reference exactly if it is that reference's key |
| Keys.KeysDiffer | s3.go:237-248 | Different references, and different digests, have different keys |
| Query.UriEncode | sigv4.go:289-312 | The loop computes the percent-encoding that `EscapedBack` inverts |
| Query.EscapedBack | sigv4.go:289-312 | Percent-decoding undoes the encoding, with or without slashes encoded |
| Query.EncodeCharExact | sigv4.go:289-312 | A byte of the unreserved set of RFC 3986 section 2.3, or a slash on demand, is left plain; any other becomes '%' and its two upper-case hexadecimal digits |
| Query.EscapedJoins | sigv4.go:289-312 | A text is encoded byte by byte, in order |
| Query.SortedIsUnique | s3.go:926-931 | The order leaves one sorted list, so how it is sorted does not matter |
| Query.JoinIsInjective | s3.go:932-941 | The query text of encoded pairs can be read in one way only |
| Query.CanonicalIff | s3.go:918-942 | Two lists of entries have the same canonical query exactly if they are the same multiset |
| Query.QueryIff | s3.go:918-942 | Two queries have the same canonical text exactly if every key has the same values equally often, whatever order the maps are gone over in |
| Query.AtMostInOrder | s3.go:926-931 | The order of texts: one is a beginning of the other, or at the first difference its byte is the smaller one |
| Query.CanonicalIs | s3.go:918-942 | The canonical text, cut at '&' and '=', is the encoded entries, all of them, ascending by key and then by value |
| Query.CanonicalQuery | s3.go:918-942 | For any order of the map's keys, the loops compute the text whose pairs, cut at '&' and '=', are the encoded entries in ascending order of key, then value |

## Left out

- OsStage.Stage.constructor: a stage begins complete; what a process that dies within Begin leaves behind is not modelled.
- OsStage.Stage.PublishEntry: the staged entry's own link to the inode, which nobody reads, is not counted as a name; only an active stage looks at the link count, and it has none.
- OsStage.Stage.PowerLoss: falls back to the contents and manifests that may be on disk; removal of a closed stage's private file counts from the directory's sync, and the entry and the share path are not undone.
- MemStage.Store.Publish: one step without the count and the retry, which MemRefs models for every interleaving.
- OsStage.Stage.RecoverCommit: takes an entry that is there to hold the digest's bytes, which OsLinks.OneInode proves, so the comparison of its size never fails.
- Fill.Tracker.Act: a reader is a value the tracker holds rather than an object of its own, so two goroutines sharing one reader's offset are not modelled.
- S3StageSafety.Refines: runs end when the manifest is deleted; after a failed save the deferred release would create a manifest anew.
- S3StageSafety.ChunksExist: rests on no request taking effect after its operation's timeout, which is also the lease, and on one clock.
- S3Reclaim.ReclaimSafe: one sweeper, and no Link or Label, which write a marker after looking only at a marker; stated on bucket states, not on a reader's two HEADs.
- Services that ignore the upload's checksum header.
- PruneStages of the filesystem store, and pruning of abandoned stage directories there.
- The registry of flights, the copy loop that writes a fill, and the timer that ends an idle one.
- HTTP transport, request building and signing, XML and JSON, SHA-2 and HMAC.
- Authorization, configuration, the command line and telemetry.
- Link counts on systems without them, and Adopt without verification.
- Label files' syntax, Info, Walk and Namespaces.
- MemRefs models one digest, and a publisher's own lock and its offer as one step, since nobody sees the blob before.

# Whispr media service: a verified model of upload, delete, quota and read access

The media service stores encrypted blobs for many users at once. An upload takes a slot of a per-user counter in
Redis, is checked against a cached copy of the user's quota row, is deduplicated by content, is written to an object
store, gets a row in the media table, is entered into the dedup index, and is finally charged to the quota row. A
delete, a share, a metadata read, a URL grant, a quota alert and a nightly reset work on the same seven stores. Each
step is a separate command or transaction, so no single function gives the guarantees. This project states them for
whole runs and proves them.

There are two layers.

* **A step machine** (`Protocol.dfy`). Every Redis command, cache call, S3 call and transaction callback is one atomic
  step of one request. Any number of requests run at once; steps, clock ticks and key expiries interleave freely; a
  request that stops moving stands for one that crashed or whose command threw. A run is a sequence of events, and the
  theorems hold of the state after every run from an empty service. Where a guarantee needs a command to land in a
  certain state, that is a condition on the run (`SemClean`, `SetClean`, `ChargeFlushed`, `MetaClean`, `AclClean`,
  `NotEarly`, `RecordsGoThrough`), shown to be exact or necessary by a lemma or by a concrete run. `AtomicSections.dfy` derives the
  conditions on commands each from its own section alone: DECR and DEL, a quota read (by an upload or by an alert) and
  its cache SET, a metadata read and its cache SET, or a merge's read and write not being disturbed.
* **Two classes** (`QuotaService.dfy`, `MediaService.dfy`) with the stores as fields and methods that follow the code.
  Each method is proved to leave the stores, and to answer, exactly as the machine's own steps of that call do when it
  runs alone (`Sequential.dfy`); a call alone is itself a run of the machine. `RoundTrips.dfy` then proves what calls do
  to one another.

| file | content |
|---|---|
| `Base`, `Sums`, `Decimal` | shared types, sums over maps, decimal text |
| `Paths`, `Admission`, `MagicTable`, `Acl`, `SignedUrls`, `Quota`, `Alerts`, `ShareList`, `Texts`, `Paging` | the pieces without concurrency |
| `Protocol`, `Frames` | the machine, and which stores a step leaves alone |
| `Invariant`, `StoreChanges`, `UploadSteps`, `OtherSteps`, `Integrity` | the store invariant, carried by rely/guarantee |
| `Gates` | what the outside world refuses stays refused |
| `Semaphore`, `Overshoot`, `Conservation`, `StoredBytes`, `DailyUploads`, `QuotaCache`, `MetaCache`, `RowRuns`, `AlertRuns`, `AtomicSections` | theorems over whole runs |
| `Witnesses`, `Anomalies` | runs that reach the bound, and runs that break each condition |
| `Sequential`, `AloneSteps`, `Outcomes`, `RoundTrips` | one call running alone, and calls one after the other |
| `QuotaService`, `MediaService` | the two services as classes |

What the proofs show about the code, beyond what it promises:

* The three-slot limit does not hold for the code as written: another upload's INCR can fall between a release's DECR
  and its DEL, and the DEL then wipes it (`Witnesses.SplitReleaseLetsFourIn`). As long as no DEL and no expiry hits a
  counter that is not zero it holds (`Semaphore.AtMostThreeInside`). One that does leaves the counter short of its
  holders. While it is short the limit may go on holding by chance, but the uploads that follow can put four inside,
  every further release in order, and only then can they (`Semaphore.LimitSecureExact`). So the limit is secure
  throughout a run exactly when every DEL and expiry in it finds zero (`Semaphore.AlwaysSecureExact`). Without that the
  storage bound can fail too (`Anomalies.SplitReleaseLiftsBound`): with n uploads inside it is the limit plus n - 1
  maximal uploads (`Overshoot.OvershootByCrowd`).
* A quota alert that reads a row before three uploads and caches it after them lets a fourth in
  (`Anomalies.LateSetLiftsBound`). A cache SET is harmless exactly when the row is still the one that was read
  (`QuotaCache.SetExact`), and the same holds for metadata (`MetaCache.MetaSetExact`).
* A media deleted between its save and its `recordUpload` can leave its charge behind: if the refund finds less than it
  gives back it is clamped, and the charge comes afterwards (`Anomalies.EarlyDeleteLeaks`). Usage and table agree
  throughout exactly when no refund is clamped (`Conservation.BalancedExact`).
* A dedup SET or a `recordUpload` that throws after the save leaves an active media that is never charged. Nothing limits
  how many: with room for one upload, a user can keep any number of 100 MB media while nothing counts as used
  (`Anomalies.UnpaidWithoutEnd`). Such rows are all that is stored above the bound (`StoredBytes.StoredWithin`).
* Two dedup merges that both read before either writes lose a reader (`Anomalies.StaleMergeLosesReader`).
* Media created at the same instant have no settled order (`Paging.OrderSettled`). When two of them meet where a page
  ends, the next request may show the one again and then no page shows the other (`Paging.TiedTurn`); otherwise turning
  the page is safe (`Paging.PageTurnExact`).

## Model

| member | source | states |
|---|---|---|
| Overshoot.OvershootBound | src/modules/media/media.service.ts:241-402 | after every run, whatever uploads, deletes, alerts and resets interleaved, a user's storage is at most the limit plus 200 MB, files and daily uploads at most the limit plus two, if no quota-cache SET is late, no invalidation after a recorded upload fails, and DEL or expiry only meet a zero counter |
| Overshoot.OvershootByCrowd | src/modules/media/media.service.ts:241-402 | whatever becomes of the counters: with never more than n uploads of a user inside at once, no late SET and no failed invalidation, each dimension stays within the limit plus n - 1 maximal uploads |
| Overshoot.CacheLag | src/modules/media/quota.service.ts:142-171 | in every run in which no quota-cache SET is late and no invalidation after a recorded upload fails, whatever becomes of the slot counters, a cached quota lags behind its row by no more than the recorded uploads whose invalidation is still to come, in each dimension |
| Overshoot.RoomForOthers | src/modules/media/media.service.ts:241-257 | with n uploads of a user inside, one of which weighs nothing, the admitted-but-unrecorded and the recorded-but-unflushed uploads of that user together weigh at most n - 1 maximal uploads |
| Witnesses.BoundReached | src/modules/media/quota.service.ts:101-110 | the bound is tight: some run meeting all those conditions ends exactly two uploads above the limit in storage, files and daily uploads at once |
| Anomalies.LateSetLiftsBound | src/modules/media/quota.service.ts:331-332 | without the late-SET condition the bound is false: some run that keeps the other two ends three uploads above the storage limit |
| Anomalies.SplitReleaseLiftsBound | src/modules/media/media.service.ts:839-841 | nor does it hold when only the condition on DEL is dropped: four uploads of 100 MB get inside at once and end three uploads above |
| Anomalies.FailedFlushLiftsBound | src/modules/media/quota.service.ts:235-243 | nor when only a swallowed invalidation failure leaves the old row cached: again three uploads above |
| Semaphore.AtMostThreeInside | src/modules/media/media.service.ts:821-843 | if no DEL or expiry meets a counter that is not zero, the counter equals the number of uploads between INCR and DECR, and at most three uploads of a user are past `acquireSemaphore` |
| Semaphore.AlwaysAgreeExact | src/modules/media/media.service.ts:837-843 | the counters agree with the slot holders throughout a run if and only if no DEL and no expiry ever meets a counter that is not zero |
| Semaphore.AgreementStepExact | src/modules/media/media.service.ts:837-843 | one event keeps that agreement if and only if it is not such a DEL or expiry |
| Semaphore.NoSlotLeaks | src/modules/media/media.service.ts:821-843 | in every run at all the counter is at most the number of slot holders, so when no upload of a user is left the next one is admitted |
| Semaphore.LimitSecureExact | src/modules/media/media.service.ts:821-843 | in every reachable state, clean or not: every continuation whose own DELs and expiries meet zero keeps at most three uploads of a user inside, if and only if the counter equals its holders |
| Semaphore.AlwaysSecureExact | src/modules/media/media.service.ts:821-843 | the limit is secure for everybody at every moment of a run if and only if no DEL and no expiry in it meets a counter that is not zero |
| Witnesses.SplitReleaseLetsFourIn | src/modules/media/media.service.ts:839-841 | with DECR and DEL as two commands some run, from any empty service, has four uploads of one user past `acquireSemaphore` |
| AtomicSections.ReleaseMeansClean | src/modules/media/media.service.ts:837-843 | if no INCR of the user falls between a DECR and its DEL and a counter expires only at zero, no DEL or expiry meets a counter in use, with nothing else assumed |
| AtomicSections.ReadMeansClean | src/modules/media/quota.service.ts:245-321 | if no charge, no refund and no reset of the row falls between its read and the cache SET, whatever else the same requests do there, no SET is late |
| AtomicSections.LoadMeansClean | src/modules/media/media.service.ts:422-444 | if no merge's write and no transaction of a share or a delete of the media falls between a metadata read and its cache SET, and a merge's invalidation succeeds, the metadata cache is clean |
| AtomicSections.MergeMeansClean | src/modules/media/media.service.ts:275-291 | if no other merge's write and no transaction of a share of the media falls between a merge's read and its write, no merge is stale |
| AtomicSections.OrderlyMeansClean | src/modules/media/media.service.ts:233-404 | a run in which all of this holds and no invalidation fails is clean in every sense the run theorems ask for |
| AtomicSections.OrderlyGuarantees | src/modules/media/media.service.ts:233-404 | in such a run the storage, file and daily bounds, the three-slot limit and the agreement of both caches with their tables hold together, and between any two of its moments every stored list keeps its old entries as a prefix |
| Conservation.UsageCoversTable | src/modules/media/quota.service.ts:142-196 | in every reachable state counted usage is at least active media minus saved-but-unrecorded plus deleted-but-unreleased, in bytes and in files |
| Conservation.BalanceStep | src/modules/media/quota.service.ts:177-196 | one event never shrinks the difference between counted usage and the table, and leaves it equal if and only if the clamp at zero does not bite |
| Conservation.BalancedExact | src/modules/media/quota.service.ts:184-185 | usage equals the table's account throughout a run if and only if the clamp never bites in it |
| Conservation.NoClampWhenRecorded | src/modules/media/quota.service.ts:184-185 | in a reachable state in which every deleted media was recorded, no refund meets the clamp |
| Conservation.UsageEqualsTable | src/modules/media/media.service.ts:640-671 | when no media is deleted before its own `recordUpload`, usage equals the table's account in every reachable state |
| StoredBytes.StoredWithin | src/modules/media/media.service.ts:354-378 | with never more than n uploads inside, no late SET and no failed invalidation, the active media of a user exceed the limit, in bytes and in number, by at most n - 1 maximal uploads and the rows, active or deleted, that no upload has recorded or will record |
| StoredBytes.StoredBound | src/modules/media/media.service.ts:354-378 | in a clean run in which no upload fails between its save and its `recordUpload`, the active media of a user sum up to at most the storage limit plus 200 MB, and number at most the file limit plus two |
| Anomalies.EarlyDeleteLeaks | src/modules/media/media.service.ts:354-378 | in a run clean for counters and quota cache, a delete between save and `recordUpload` ends with no active media and 100 MB and one file charged |
| Anomalies.UnpaidWithoutEnd | src/modules/media/media.service.ts:374-378 | for any list of distinct UUIDs some run, clean for counters and quota cache, ends idle with exactly these as active media of 100 MB each, nothing counted as used and a limit of 100 MB: each dedup SET threw after the save |
| Integrity.ActiveMeansStored | src/modules/media/media.service.ts:300-372 | at every step of every interleaving each active media's blob is in the object store, and a thumbnail exactly when one was uploaded with it, both byte for byte as uploaded |
| Integrity.DeleteSparesOthers | src/modules/media/media.service.ts:661-665 | no step of a delete adds, changes or removes an object of another media |
| Integrity.CleanedMeansGone | src/modules/media/media.service.ts:354-372 | after a failed save whose cleanup deletes succeeded there is no row and no object of that id, then or later |
| Integrity.UnissuedMeansAbsent | src/modules/media/media.service.ts:300-306 | before an id is generated no object of it exists, so the cleaned upload left the store as it was |
| Integrity.DedupHitIsIdentical | src/modules/media/media.service.ts:270-298 | in every run a dedup hit names a row of the same owner and context; if it is active its stored blob is byte for byte the new upload's and it is reused, if not the upload goes on afresh |
| Integrity.UploadedMeansOwnContent | src/modules/media/media.service.ts:233-404 | every id an upload reports, deduplicated or not, is a row of its own owner and context with the bytes it sent |
| Integrity.SavedMeansAdmitted | src/modules/media/media.service.ts:248-355 | every row ever saved has a size within its context's limit, an allowlisted type, content matching a signature of that type unless it is octet-stream, and exactly for a message an expiry: one message lifetime after a moment between the generation of its id and the creation of the row, so at most a lifetime after that creation |
| Gates.SavedWasAnswered | src/modules/media/media.service.ts:243-268 | in every run every row ever saved belongs to an upload that was authorised, if it is a group icon, and whose bytes the content-safety checks passed |
| Gates.ReusedWasAnswered | src/modules/media/media.service.ts:265-298 | nor is a stored media reused or reported for an upload that was not given both answers |
| Gates.DeniedMeansNothing | src/modules/media/media.service.ts:243-268 | an upload denied either answer ends with that error whatever follows, and no id is ever generated for it |
| RowRuns.OnlyTheOwnerChanges | src/modules/media/media.service.ts:604-659 | at every step only the owner's delete ends a media, none makes one active again, and only the owner's share or repeated upload changes its list |
| RowRuns.ListsWellFormed | src/modules/media/media.service.ts:346-352 | over any run no stored list names anybody twice, the owner, or the empty name |
| RowRuns.ListsOnlyGrow | src/modules/media/media.service.ts:282-294 | over any run without a stale merge each stored list keeps its old entries as a prefix |
| RowRuns.StepColumns | src/modules/media/media.service.ts:282-294 | from any reachable state an event lets every URL expiry advance, and lets every list grow if and only if it is not a merge writing over a newer list |
| RowRuns.UnchangedListIsClean | src/modules/media/media.service.ts:275-291 | a merge whose row still carries the list it read is never stale |
| Anomalies.StaleMergeLosesReader | src/modules/media/media.service.ts:275-291 | two merges that both read first leave only the second one's reader on the list, the readers being two UUIDs |
| RowRuns.GrantsInRun | src/modules/media/media.service.ts:452-485 | in every run a URL is granted only on an active media whose blob is stored and which the requester may read, announces an expiry after now and within the configured lifetime, and ends strictly within one second of it |
| RowRuns.GrantedExactly | src/modules/media/media.service.ts:458-472 | a grant step answers not found exactly without an active row, grants exactly for the image of a profile or a group, to the owner and to the users listed, denies all others, and hands out a stored expiry while it is still to come |
| RowRuns.ExpiriesNeverGoBack | src/modules/media/media.service.ts:882-888 | over any run a stored URL expiry never decreases |
| SignedUrls.GrantLifetime | src/modules/media/media.service.ts:868-890 | one grant ends after now and within the lifetime, its URL within one second of that, the `max(1, floor)` case included |
| SignedUrls.GrantExact | src/modules/media/media.service.ts:873-880 | the URL ends exactly at the announced moment if and only if it is freshly signed or a whole number of seconds is left |
| QuotaCache.CacheDecidesLikeTable | src/modules/media/quota.service.ts:235-321 | with no invalidation outstanding a cached quota is the row, and the check decides for every size as from the table |
| QuotaCache.SetExact | src/modules/media/quota.service.ts:300-319 | with no invalidation outstanding a cache SET keeps cache and table in agreement if and only if the row has not changed since it was read |
| MetaCache.CacheAnswersLikeTable | src/modules/media/media.service.ts:410-446 | with no invalidation outstanding data, absence and denial are the same with the metadata cache as without it, for every id and requester |
| MetaCache.UninterruptedMeta | src/modules/media/media.service.ts:410-446 | a metadata request that is not interrupted returns that outcome |
| MetaCache.GetBlobMeta | src/modules/media/media.service.ts:885-888 | storing a new URL expiry changes nothing the metadata cache holds, so it needs no invalidation |
| MetaCache.MetaSetExact | src/modules/media/media.service.ts:443-444 | with no invalidation outstanding a metadata SET keeps the cache right if and only if the media still reads as it did when loaded |
| Anomalies.LateMetaServesDeleted | src/modules/media/media.service.ts:443-444 | a metadata SET after a delete makes a later request find a media the table says is gone |
| DailyUploads.DailyCountsCommits | src/modules/media/quota.service.ts:144-155 | in every run `dailyUploads` is the number of recorded uploads since the row was created or last reset |
| Quota.ResetTwice | src/config/migrations/1742800000000-AddResetDailyUploadsFunction.ts:19-24 | a second reset on the same date changes no row and returns no user |
| Quota.ResetExact | src/config/migrations/1742800000000-AddResetDailyUploadsFunction.ts:19-24 | a row of an earlier date gets no daily uploads and the new date, nothing else changes, and the users returned are those of an earlier date |
| DailyUploads.ResetStepExact | src/modules/media/quota.service.ts:210-225 | so does the reset step of the machine, and exactly these users are to lose their cached copy |
| Quota.ResetUsersExact | src/config/migrations/1742800000000-AddResetDailyUploadsFunction.ts:19-24 | the users returned are exactly those whose row the reset changed |
| Quota.RehydrateDehydrate | src/modules/media/quota.service.ts:255-312 | a quota row read back from its cached form is the row that was written, for every size of the two big integers |
| Quota.DehydrateInjective | src/modules/media/quota.service.ts:300-312 | two rows have the same cached form if and only if they are equal |
| Decimal.ParsePrint | src/modules/media/quota.service.ts:259-306 | printing a natural number in decimal and parsing the text gives it back |
| Decimal.PrintParse | src/modules/media/quota.service.ts:259-260 | parsing digits without a leading zero and printing the number gives the text back |
| Decimal.ParseIsPositional | src/modules/media/quota.service.ts:259-260 | the number of a text put together is that of its parts by place value, and a digit counts what it shows |
| Quota.RefundCharge | src/modules/media/quota.service.ts:148-185 | a refund undoes a charge on storage and files, and a charge undoes a refund if and only if the clamp did not bite |
| Quota.PercentExact | src/modules/media/quota.service.ts:337-340 | the truncated percentage reaches a threshold if and only if 100 times the usage is at least the threshold times the limit |
| Quota.AlertsNested | src/modules/media/quota.service.ts:339-342 | usage that alerts at 95 also passes the test at 80 |
| Alerts.AttemptKeeps | src/modules/media/quota.service.ts:356-366 | one SET NX of any check, whatever came before it, keeps acquisitions an hour apart and leaves its key acquired within the last hour |
| AlertRuns.AcquisitionsAreSpaced | src/modules/media/quota.service.ts:339-377 | over every run, the commands of concurrent checks interleaved in any way, two cooldown acquisitions for one user and threshold are at least an hour apart, and each tells of usage really at its threshold |
| AlertRuns.CrossingIsAnnounced | src/modules/media/quota.service.ts:331-344 | over every run, when a check is done each threshold its row reaches, and 80 with it, was acquired less than an hour before the check had its row, or since |
| AlertRuns.CheckAlone | src/modules/media/quota.service.ts:331-344 | the machine's steps of a check alone come to a read-through and the loop over the thresholds |
| Paths.BuildPathInjective | src/modules/media/storage.service.ts:39-62 | two successful calls give the same key if and only if family and object id agree and, thumbnails aside, the owner too |
| Paths.PathNamesObject | src/modules/media/storage.service.ts:39-62 | every key determines its object id |
| Texts.PathSegments | src/modules/media/storage.service.ts:39-62 | split at the slash, a key is its family, its owner and its object, a thumbnail's its family and object |
| Texts.KeysOfContexts | src/modules/media/media.service.ts:900-910 | the blob of a message, of a profile image and of a group image goes to its own family under its owner, a thumbnail to the family of thumbnails |
| Texts.UuidExact | src/modules/media/storage.service.ts:10 | a text is a UUID if and only if, split at the hyphen, it is five groups of 8, 4, 4, 4 and 12 hex digits with version 1 to 5 and the right variant |
| Admission.HeaderDecides | src/modules/media/magic-bytes.validator.ts:81-110 | for any signatures that fit in 16 bytes, matching the header is matching the whole buffer |
| Admission.WebpIsNotWav | src/modules/media/magic-bytes.validator.ts:25-62 | no buffer passes as both WebP and WAV, however the two types are decorated |
| Admission.AdmissibleMeans | src/modules/media/media.service.ts:51-124 | a file that passes all checks is within 100 MB and its context's limit, has an allowlisted type, and its whole content matches a signature of exactly that type; octet-stream only as a message |
| MagicTable.PhotosCarry | src/modules/media/magic-bytes.validator.ts:21-30 | bytes pass as JPEG, PNG, GIF or WebP if and only if they start with these leading bytes |
| MagicTable.HeifCarry | src/modules/media/magic-bytes.validator.ts:31-42 | and as HEIC or HEIF if and only if they carry one of the three, or two, brands |
| MagicTable.VideosCarry | src/modules/media/magic-bytes.validator.ts:43-47 | the same for the four types of video |
| MagicTable.SoundsCarry | src/modules/media/magic-bytes.validator.ts:55-64 | for Ogg, WAV, MP4 and AAC sound |
| MagicTable.MpegCarries | src/modules/media/magic-bytes.validator.ts:49-54 | for MPEG sound, by any of four leading sequences |
| MagicTable.DocumentsCarry | src/modules/media/magic-bytes.validator.ts:65-77 | for PDF, Word and ZIP |
| MagicTable.OfficeCarries | src/modules/media/magic-bytes.validator.ts:68-76 | and for the three office formats, which are ZIP archives |
| MagicTable.ImageTypes | src/modules/media/media.service.ts:66-122 | a profile or group image, and a thumbnail, is one of exactly six image types |
| MagicTable.MessageTypes | src/modules/media/media.service.ts:77-105 | a message is one of exactly these types: images, videos, sounds, documents, archives, opaque blobs |
| Texts.DressedType | src/modules/media/magic-bytes.validator.ts:97-99 | a declared type may be padded, in capitals and carry parameters: it is checked as its plain form |
| Acl.UnionProps | src/modules/media/media.service.ts:614-619 | the set loop yields a duplicate-free list that starts with the old entries and holds exactly the old and the eligible new ones |
| Acl.UnionGrows | src/modules/media/media.service.ts:614-619 | the union lists the users in the order they are named: that of fewer users is a prefix |
| Acl.GrowthTests | src/modules/media/media.service.ts:282-294 | comparing set sizes detects growth always, comparing list lengths does when the stored list has no duplicates |
| Acl.LengthTestExact | src/modules/media/media.service.ts:287-288 | the length comparison is right for every non-empty request if and only if the stored list has no duplicates |
| Acl.ShareAdmits | src/modules/media/media.service.ts:809-819 | after a union exactly the former readers and the named users may read |
| ShareList.JoinThenParse | src/modules/media/dto/upload-media.dto.ts:14-34 | a list joined with commas parses back to itself if and only if it is non-empty, all entries are trimmed, non-empty and comma-free, and the first does not open a bracket |
| ShareList.CsvEntriesAreNeat | src/modules/media/dto/upload-media.dto.ts:28-31 | whatever the text, the comma branch yields only trimmed, non-empty, comma-free entries |
| ShareList.PaddedListParses | src/modules/media/dto/upload-media.dto.ts:14-34 | a comma-separated text whose entries are padded or left out parses to exactly the texts between, in order |
| ShareList.OtherFields | src/modules/media/dto/upload-media.dto.ts:14-27 | nothing, an empty text, an array and a JSON text become nothing, nothing, the array and the parsed array, or a text to refuse |
| ShareList.TrimExact | src/modules/media/dto/upload-media.dto.ts:18-30 | trimming takes off exactly the white space around a trimmed text |
| ShareList.ParseIsStable | src/modules/media/dto/upload-media.dto.ts:14-34 | a non-empty parsed list can be written and read again if and only if its first entry does not open a bracket |
| Paging.ClampPage | src/modules/media/media.controller.ts:191 | a page of at least one is taken as it is; an absent, zero or negative one is page 1 |
| Paging.ClampLimit | src/modules/media/media.controller.ts:192 | a limit from 1 to 100 is taken as it is; an absent or zero one is 20, a negative one 1, a larger one 100 |
| Paging.PagesCoverList | src/modules/media/media.service.ts:740-763 | pages 1 to `totalPages` put together are the whole ordered list, every row once |
| Paging.PageSizes | src/modules/media/media.service.ts:745-761 | every page but the last is full, the last is not empty, later pages are |
| Paging.RowIsOn | src/modules/media/media.service.ts:745-746 | a row is on exactly one page, at one place |
| Paging.OrderSettled | src/modules/media/media.service.ts:744 | the descending order by creation time is unique if and only if no two rows were created at the same time |
| Paging.PageTurnExact | src/modules/media/media.service.ts:744-746 | reading the later pages from another listing than the earlier ones shows every row once, whichever listings, if and only if the rows on either side of the turn were created at different times |
| Paging.TiedTurn | src/modules/media/media.service.ts:744-746 | if the rows on either side of a page turn were created at the same time, two listings exist whose consecutive pages both show the one, while the other is on no page up to that of the first and on none after that of the second |
| Sequential.UploadRunsOnMachine | src/modules/media/media.service.ts:233-404 | an upload running alone, with any answers of the outside world, is a run of the machine |
| Sequential.DeleteRunsOnMachine | src/modules/media/media.service.ts:644-671 | and so is a delete running alone |
| RoundTrips.SlotsRestored | src/modules/media/media.service.ts:240-403 | however an upload alone ends, refusals included, everybody's slot count is what it was, exactly when the uploader's was not negative |
| Outcomes.OutcomeExact | src/modules/media/media.service.ts:233-404 | for every state of the stores and every choice of failing commands the answer of an upload is that of the table of checks in the order of the code |
| Outcomes.RefusedExact | src/modules/media/media.service.ts:241-268 | an upload refused before the dedup lookup answers with the first check that failed, and objects, rows, dedup index and metadata cache are as they were |
| RoundTrips.UploadStores | src/modules/media/media.service.ts:300-378 | an admitted upload of new bytes leaves exactly its blob and thumbnail, one recorded row, one index entry, one charge, and no cached quota |
| RoundTrips.DeleteUndoesUpload | src/modules/media/media.service.ts:644-671 | uploading new bytes and deleting the media restores the object store, everyone's storage and file count and all other rows; the daily count stays, and nobody finds the media any more |
| RoundTrips.UploadThenRead | src/modules/media/media.service.ts:336-352 | after an upload exactly its owner, the users named and, for the image of a profile or a group, everyone can read the metadata, which tell the uploaded type, size, owner, context and whether there is a thumbnail |
| RoundTrips.AbsentIsNotFound | src/modules/media/media.service.ts:422-426 | with nothing cached a media is not found exactly when it has no active row |
| RoundTrips.ReadersExact | src/modules/media/media.service.ts:803-819 | the metadata of an active media whose cached entry agrees with its row are found exactly for the image of a profile or a group, by its owner and by the users listed, and denied to all others; they are the columns of the row |
| RoundTrips.WelcomeIsPossible | src/modules/media/media.service.ts:233-404 | the conditions of these lemmas are met by the first upload of an empty service |
| RoundTrips.SecondUploadReuses | src/modules/media/media.service.ts:270-298 | uploading known bytes stores nothing, charges nothing and answers with the existing media, whose list becomes the union |
| RoundTrips.CleanedUploadLeavesNothing | src/modules/media/media.service.ts:354-372 | an upload whose row is not saved and whose cleanup succeeds leaves objects, rows, index and metadata cache as they were |
| RoundTrips.ShareThenRead | src/modules/media/media.service.ts:604-638 | after its owner shares a media a metadata read finds it exactly for those who could read it before and those just named |
| MediaServices.MediaService.Upload | src/modules/media/media.service.ts:233-404 | the method leaves every store, and answers, exactly as the machine's steps of that upload alone; the answer is that of the table of checks, and a refused upload has stored nothing |
| MediaServices.MediaService.Admit | src/modules/media/media.service.ts:245-263 | authorisation, quota, size, magic bytes and allowlist refuse in that order, or nothing but the quota read happens |
| MediaServices.MediaService.Deduplicate | src/modules/media/media.service.ts:273-298 | unsafe bytes are refused and change nothing; otherwise the dedup branch reuses, merges or falls through as the steps do |
| MediaServices.MediaService.MergeAcl | src/modules/media/media.service.ts:614-619 | the loop over the set computes the union, old entries first |
| MediaServices.MediaService.StoreObjects | src/modules/media/media.service.ts:300-334 | blob, then validated thumbnail, under one fresh id; a thumbnail that is refused leaves the blob, a refused PUT of the blob nothing |
| MediaServices.MediaService.ValidateFile | src/modules/media/media.service.ts:251-263 | a file passes if and only if it is within the context's size (100 MB, 5 MB for the image of a profile or a group), its bytes match its type and the type is allowed; too large is one error, the wrong type the other |
| MediaServices.MediaService.ValidateThumbnail | src/modules/media/media.service.ts:313-323 | a thumbnail passes if and only if its bytes match its type, the type is an image type and it is within 5 MB; the wrong type is one error, too large the other |
| MediaServices.MediaService.Save | src/modules/media/media.service.ts:336-372 | the row is saved and the objects stay, or the row is not saved and the objects are deleted again |
| MediaServices.MediaService.BuildRow | src/modules/media/media.service.ts:336-352 | every column of the new row; its list names each user given once, without the owner and empty names, and is null rather than empty |
| MediaServices.MediaService.CleanUp | src/modules/media/media.service.ts:356-371 | of the two objects exactly those whose delete succeeds are gone, and the error tells whether that is all of them |
| MediaServices.MediaService.IndexAndRecord | src/modules/media/media.service.ts:374-378 | index entry, charge and invalidation, in that order; the upload is reported exactly if both commands succeed and there is a row to charge |
| MediaServices.MediaService.AcquireSemaphore | src/modules/media/media.service.ts:821-835 | admitted if and only if the incremented count is at most three, otherwise the count is restored |
| MediaServices.MediaService.ReleaseSemaphore | src/modules/media/media.service.ts:837-843 | the count drops by one and the key disappears when nothing is left |
| MediaServices.MediaService.Delete | src/modules/media/media.service.ts:644-671 | not found exactly without an active row, forbidden exactly for others than the owner, both changing nothing; otherwise the row is inactive, exactly its objects and its cached metadata are gone; stores and answer are those of the machine's steps of that delete alone |
| MediaServices.MediaService.Share | src/modules/media/media.service.ts:604-638 | not found and forbidden as for a delete; otherwise the answer is the old list and the eligible users named, each once, the row lists exactly these, and the cached metadata are dropped if the row changed; stores and answer are those of the machine |
| MediaServices.MediaService.GetMetadata | src/modules/media/media.service.ts:410-446 | the cached entry or the active row is found exactly for the image of a profile or a group, for the owner and for the users listed, and is denied to all others; what is found are the columns of the row, which are then cached; stores and answer are those of the machine |
| MediaServices.MediaService.GetBlob | src/modules/media/media.service.ts:452-485 | not found exactly without an active row; otherwise a URL is granted exactly for the image of a profile or a group, to the owner and to the users listed; a stored expiry still to come is handed out with the seconds left, at least one, otherwise a new one is stored; stores and answer are those of the machine |
| MediaServices.MediaService.FindActive | src/modules/media/media.service.ts:741-748 | every active media of the user once and no other, none before one created later |
| MediaServices.MediaService.GetUserMedia | src/modules/media/media.service.ts:740-763 | the items tell id, type, size, context and creation time of the requested page of such a list, with the right total and page count |
| QuotaServices.QuotaService.CheckQuota | src/modules/media/quota.service.ts:87-113 | allowed if and only if storage, files and daily uploads all leave room; otherwise the first broken limit is the reason, and all six figures are those of the row |
| QuotaServices.QuotaService.GetOrCreateQuota | src/modules/media/quota.service.ts:245-321 | the row comes from the cache, from the table, or is created with 1 GB, 1000 files and 100 uploads a day, and what that leaves in table and cache |
| QuotaServices.QuotaService.RecordUpload | src/modules/media/quota.service.ts:142-171 | size, one file and one daily upload are added to the row and its cached copy is dropped, or nothing changes when there is no row or the size is no safe integer |
| QuotaServices.QuotaService.RecordDelete | src/modules/media/quota.service.ts:177-196 | size and one file are taken from the row, neither below zero, and its cached copy is dropped, or nothing changes |
| QuotaServices.QuotaService.ResetFunction | src/config/migrations/1742800000000-AddResetDailyUploadsFunction.ts:19-24 | a row of an earlier date has no daily uploads and today's date, all other rows and columns are as they were, and exactly the users of an earlier date are returned, each once |
| QuotaServices.QuotaService.ResetDailyUploads | src/modules/media/quota.service.ts:210-225 | the table as after that function; for any number of users the chunked loop drops the cached copy of exactly the users of an earlier date whose DEL succeeds |
| QuotaServices.QuotaService.CheckAndPublishQuotaAlert | src/modules/media/quota.service.ts:331-344 | exactly one alert for each of 80 and 95 percent that the exact ratio of the row read reaches and that is not cooling down |
| QuotaServices.QuotaService.PublishQuotaAlert | src/modules/media/quota.service.ts:350-377 | takes the cooldown of an hour and publishes if and only if none is running |

## Left out

- `authorizeGroupIconUpload`, the content-safety checks (image dimensions, PDF scripts, ClamAV) and every command that can fail are nondeterministic answers of the outside world; the calls themselves are not modelled.
- SHA-256: equal digests are taken to mean equal bytes, so a dedup key holds the bytes themselves.
- Fresh ids: `randomUUID` never returns an id seen before.
- Crashes and thrown commands: a request may stop anywhere. A throw inside a delete, a share or a read is such a stop; a throw inside an upload runs the release. Failing INCR, EXPIRE, DECR and DEL commands are not modelled.
- Expiry times: counters, cached quotas, cached metadata and dedup entries may expire at any moment, so their TTL values and the TTL refresh timer play no part. The alert cooldown's hour is modelled.
- The find and the soft delete of a delete, the find and the update of a share, the find, the signing and the expiry update of a URL grant, and the find-or-insert of a quota row are one step each, as they share one transaction callback.
- RowRuns.ExpiriesNeverGoBack: two URL grants of one media whose transactions overlap are not covered, since a grant is one step; there the grant that found the row first may store its earlier expiry last.
- The application, the database and Redis read one clock, which never goes back; a row's `createdAt` is the moment of its save. The configured URL lifetime is at least a second, as the environment schema demands.
- Publishing an alert follows the acquisition of its cooldown at once; delivery is not modelled.
- A quota alert may start at any moment and for any user, not only after a recorded upload; the methods of the class do not start one by themselves.
- Orphaned objects: no claim that every object has a row. A blob stays behind when thumbnail validation fails, by design of the code; only the cleaned failed save is claimed.
- Lifecycle expiry of stored objects, and with it objects disappearing under active media.
- `getThumbnail`, `streamBlob`, `streamThumbnail`, `getUserQuota` and the floating-point `usagePercent`: reads that would only add easy members.
- `buildUploadResponse`: presigned URLs in the answer of an upload; it changes no store, and if it throws the upload answers with an error instead of an id.
- `parseStringArray`: what the JSON library makes of a text that opens a bracket is a parameter, and so is `Number.parseInt` for page and limit.
- Lower-casing of declared types covers ASCII letters; a declared type that names a property every JavaScript object has is refused by the allowlist here and by a type error there.
- Integer widths: storage counts are unbounded as in `bigint`; the limits of the database columns are not modelled.
- Dates are numbers of milliseconds throughout; that a date read back from the metadata cache is a text is not modelled. The database's current date is the UTC day of the clock.
- Columns that no branch reads (`id` and `updatedAt` of rows, `id` and `userId` of quota rows) and the E2EE content-type check of the controller, which precedes `upload`.
- Row-level security, access logs, metrics, pub/sub delivery, HTTP, JWT and S3 signing.

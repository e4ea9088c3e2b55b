/**
 * The media service, call by call.
 *
 * The object holds the stores and its methods follow the code; each is proved to leave the stores, and to answer,
 * exactly as the steps of that call run alone. `now` is the clock, `rid` names the request, and a `Fate` or a flag
 * tells which commands succeed.
 */
module MediaServices {
  import opened Base
  import opened Paths
  import opened Quota
  import opened Acl
  import opened Admission
  import opened SignedUrls
  import opened Protocol
  import opened Sequential
  import opened AloneSteps
  import opened Outcomes
  import opened QuotaServices
  import opened Paging

  /** What the listing tells of a media. */
  datatype MediaItem = MediaItem(id: MediaId, contentType: string, blobSize: int, context: Context, createdAt: int)

  function ItemOf(id: MediaId, row: Media): MediaItem {
    MediaItem(id, row.contentType, row.blobSize, row.context, row.createdAt)
  }

  /** The active media of a user and when they were created. */
  function CreationTimes(media: map<MediaId, Media>, user: UserId): map<MediaId, int> {
    map id | id in media && media[id].isActive && media[id].ownerId == user :: media[id].createdAt
  }

  lemma PageIsPart(rows: seq<MediaId>, page: int, limit: int)
    requires page >= 1 && limit >= 1
    ensures forall i :: 0 <= i < |Page(rows, page, limit)| ==> Page(rows, page, limit)[i] in rows
  {}

  // The list a new row starts with: the users named, each once, without the owner and empty names.
  lemma FirstList(a: UploadArgs, users: seq<UserId>, column: Option<seq<UserId>>)
    requires users == Union([], a.sharedWith, a.owner) && column == if users == [] then None else Some(users)
    ensures column == InitialAcl(a) && column != Some([]) && NoDuplicates(Listed(column))
    ensures forall uid :: uid in Listed(column) <==> uid in a.sharedWith && uid != "" && uid != a.owner
  {
    UnionProps([], a.sharedWith, a.owner);
  }

  lemma NothingAdded(listed: seq<UserId>, owner: UserId)
    ensures Union(listed, [], owner) == Distinct(listed)
  {}

  class MediaService {
    const config: Config
    const quotas: QuotaService
    var sem: map<UserId, int>
    var media: map<MediaId, Media>
    var objects: map<Path, Bytes>
    var dedup: map<DedupKey, MediaId>
    var meta: map<MediaId, CachedMeta>
    /** Ids generated so far (bookkeeping). */
    ghost var issued: map<MediaId, Origin>

    constructor (config: Config)
      ensures this.config == config && fresh(quotas)
      ensures sem == map[] && media == map[] && objects == map[] && dedup == map[] && meta == map[] && issued == map[]
      ensures quotas.quota == map[] && quotas.quotaCache == map[] && quotas.log == [] && quotas.board == Alerts.EMPTY
    {
      this.config := config;
      quotas := new QuotaService();
      sem, media, objects, dedup, meta, issued := map[], map[], map[], map[], map[], map[];
    }

    ghost function View(now: int): World
      reads this, quotas
    {
      World(now, config, sem, quotas.quota, quotas.quotaCache, media, objects, dedup, meta, issued, quotas.log,
            quotas.board)
    }

    // ----- semaphore -----

    /** INCR, and DECR again when that is one too many. */
    method AcquireSemaphore(user: UserId) returns (admitted: bool)
      modifies this`sem
      ensures var count := (if user in old(sem) then old(sem)[user] else 0) + 1;
        && admitted == (count <= 3)
        && sem == old(sem)[user := if admitted then count else count - 1]
    {
      var count := (if user in sem then sem[user] else 0) + 1;
      sem := sem[user := count];
      if count > MAX_CONCURRENT_UPLOADS {
        sem := sem[user := count - 1];
        return false;
      }
      admitted := true;
    }

    /** DECR, and DEL when nothing is left. */
    method ReleaseSemaphore(user: UserId)
      modifies this`sem
      ensures var remaining := (if user in old(sem) then old(sem)[user] else 0) - 1;
        sem == if remaining <= 0 then old(sem) - {user} else old(sem)[user := remaining]
    {
      var remaining := (if user in sem then sem[user] else 0) - 1;
      sem := sem[user := remaining];
      if remaining <= 0 {
        sem := sem - {user};
      }
    }

    // ----- upload -----

    method Upload(rid: ReqId, a: UploadArgs, f: Fate, now: int) returns (result: UploadResult)
      modifies this, quotas
      ensures (View(now), result) == UploadAlone(old(View(now)), rid, a, Arriving, f)
      ensures result == Outcome(old(View(now)), a, f)
      ensures Refusal(old(View(now)), a, f).Some? ==> NothingStored(old(View(now)), View(now), a.owner)
    {
      hide UploadAlone, Outcome, Refusal, NothingStored;
      ghost var w0 := View(now);
      UploadAnswers(w0, rid, a, f);
      var admitted := AcquireSemaphore(a.owner);
      if !admitted {
        result := UploadFailed(TooManyRequests);
        AcquireAlone(w0, View(now), rid, a, f);
        return;
      }
      AcquireAlone(w0, View(now), rid, a, f);
      result := UploadWithSlot(rid, a, f, now);
      ghost var w1 := View(now);
      ReleaseSemaphore(a.owner);
      ReleaseAlone(w1, View(now), rid, a, f, result);
    }

    /** The body of the try block. What is left to do when it ends is the release. */
    method UploadWithSlot(rid: ReqId, a: UploadArgs, f: Fate, now: int) returns (result: UploadResult)
      modifies this, quotas
      ensures UploadAlone(old(View(now)), rid, a, Admitted, f) == UploadAlone(View(now), rid, a, Releasing(result), f)
    {
      hide UploadAlone;
      var error := Admit(rid, a, f, now);
      if error.Some? {
        return UploadFailed(error.value);
      }
      var reused := Deduplicate(rid, a, f, now);
      if reused.Some? {
        return reused.value;
      }
      error := StoreObjects(rid, a, f, now);
      if error.Some? {
        return UploadFailed(error.value);
      }
      var expiresAt := if a.context == Message then Some(now + config.messageTtlDays * DAY_MS) else None;
      error := Save(rid, a, f, expiresAt, now);
      if error.Some? {
        return UploadFailed(error.value);
      }
      result := IndexAndRecord(rid, a, f, now);
    }

    method Admit(rid: ReqId, a: UploadArgs, f: Fate, now: int) returns (error: Option<UploadError>)
      modifies quotas
      ensures UploadAlone(old(View(now)), rid, a, Admitted, f)
           == UploadAlone(View(now), rid, a, Onward(error, Checked), f)
    {
      hide UploadAlone, UploadStep, Verdict, Decide, FileError, Admissible;
      ghost var w := View(now);
      if a.context == GroupIcon && !f.authorised {
        NotAdmittedAlone(w, rid, a, f);
        return Some(NotAuthorized);
      }
      ghost var row: Option<QuotaRow>;
      error, row := EnforceQuota(rid, a, f, now);
      if error.None? {
        error := ValidateFile(a);
      }
      if row.Some? {
        DecideIs(a, row.value, error);
      }
    }

    /** The quota check: refused, or what is left is the decision on the row that was read. */
    method EnforceQuota(rid: ReqId, a: UploadArgs, f: Fate, now: int)
      returns (error: Option<UploadError>, ghost row: Option<QuotaRow>)
      requires a.context == GroupIcon ==> f.authorised
      modifies quotas
      ensures row.None? ==>
        && error.Some?
        && UploadAlone(old(View(now)), rid, a, Admitted, f)
             == UploadAlone(View(now), rid, a, Releasing(UploadFailed(error.value)), f)
      ensures row.Some? ==>
        && error == (var v := Verdict(row.value, a.file.size); if v == Allowed then None else Some(QuotaExceeded(v)))
        && UploadAlone(old(View(now)), rid, a, Admitted, f) == UploadAlone(View(now), rid, a, Decide(a, row.value), f)
    {
      hide UploadAlone, UploadStep, ReadThrough, Verdict, Decide;
      ghost var w := View(now);
      var outcome, read := quotas.CheckQuota(a.owner, a.file.size, now, f.quotaHit, f.quotaTableOk, f.quotaSetOk);
      if outcome.InvalidBlobSize? {
        NotAdmittedAlone(w, rid, a, f);
        return Some(InvalidSize), None;
      }
      AdmissionAlone(w, View(now), rid, a, f, read);
      if outcome.ReadFailed? {
        return Some(CommandFailed), None;
      }
      error := if outcome.result.allowed then None else Some(QuotaExceeded(outcome.result.reason));
      row := read;
    }

    /** Size limit, then magic bytes, then allowlist of the context. */
    method ValidateFile(a: UploadArgs) returns (error: Option<UploadError>)
      ensures error == FileError(a)
      ensures error.None? <==> Admissible(a.file, a.context)
      ensures error == Some(TooLarge) <==> a.file.size > if a.context == Message then 104_857_600 else 5_242_880
      ensures error.Some? && error != Some(TooLarge) ==> error == Some(UnsupportedType)
    {
      if a.file.size > SizeLimit(a.context) {
        return Some(TooLarge);
      }
      if !MagicOk(a.file.content, a.file.mime) {
        return Some(UnsupportedType);
      }
      if a.file.mime !in Allowlist(a.context) {
        return Some(UnsupportedType);
      }
      error := None;
    }

    /** The list a dedup hit or a share leads to: old entries first, new ones added to a set. */
    method MergeAcl(listed: seq<UserId>, users: seq<UserId>, owner: UserId) returns (next: seq<UserId>)
      ensures next == Union(listed, users, owner)
    {
      next := [];
      for i := 0 to |listed|
        invariant next == Distinct(listed[..i])
      {
        assert listed[..i + 1][..i] == listed[..i];
        if listed[i] !in next {
          next := next + [listed[i]];
        }
      }
      assert listed[..|listed|] == listed;
      for i := 0 to |users|
        invariant next == AddAll(Distinct(listed), users[..i], owner)
      {
        assert users[..i + 1][..i] == users[..i];
        if users[i] != "" && users[i] != owner && users[i] !in next {
          next := next + [users[i]];
        }
      }
      assert users[..|users|] == users;
    }

    /** The answer when the same bytes are already stored; None when a fresh upload is needed. */
    method Deduplicate(rid: ReqId, a: UploadArgs, f: Fate, now: int) returns (reused: Option<UploadResult>)
      modifies this`media, this`meta
      ensures UploadAlone(old(View(now)), rid, a, Checked, f)
           == UploadAlone(View(now), rid, a, if reused.None? then Fresh else Releasing(reused.value), f)
      ensures !f.safe <==> reused == Some(UploadFailed(Unsafe))
      ensures !f.safe || reused.None? ==> media == old(media) && meta == old(meta)
    {
      hide UploadAlone, Union, Rehydrate;
      ghost var w := View(now);
      if !f.safe {
        Unfold(w, rid, a, Checked, f, w, Releasing(UploadFailed(Unsafe)));
        return Some(UploadFailed(Unsafe));
      }
      var key := DedupKey(a.owner, a.context, a.file.content);
      if !(key in dedup && f.dedupHit) {
        Unfold(w, rid, a, Checked, f, w, Fresh);
        return None;
      }
      var id := dedup[key];
      Unfold(w, rid, a, Checked, f, w, DedupHit(id));
      if !f.findOk {
        Unfold(w, rid, a, DedupHit(id), f, w, Releasing(UploadFailed(CommandFailed)));
        return Some(UploadFailed(CommandFailed));
      }
      if !(id in media && media[id].isActive) {
        Unfold(w, rid, a, DedupHit(id), f, w, Fresh);
        return None;
      }
      var existing := media[id];
      if a.sharedWith != [] {
        var next := MergeAcl(Listed(existing.sharedWith), a.sharedWith, existing.ownerId);
        if |next| != |Listed(existing.sharedWith)| {
          Unfold(w, rid, a, DedupHit(id), f, w, MergeWrite(id, next));
          reused := WriteMerge(rid, a, f, now, id, next);
          return;
        }
      }
      Unfold(w, rid, a, DedupHit(id), f, w, Releasing(Uploaded(id)));
      reused := Some(Uploaded(id));
    }

    method WriteMerge(rid: ReqId, a: UploadArgs, f: Fate, now: int, id: MediaId, next: seq<UserId>)
      returns (reused: Option<UploadResult>)
      requires id in media
      modifies this`media, this`meta
      ensures reused.Some? && reused != Some(UploadFailed(Unsafe))
      ensures UploadAlone(old(View(now)), rid, a, MergeWrite(id, next), f)
           == UploadAlone(View(now), rid, a, Releasing(reused.value), f)
    {
      hide UploadAlone;
      ghost var w := View(now);
      if !f.mergeOk {
        Unfold(w, rid, a, MergeWrite(id, next), f, w, Releasing(UploadFailed(CommandFailed)));
        return Some(UploadFailed(CommandFailed));
      }
      media := media[id := media[id].(sharedWith := Some(next))];
      ghost var w1 := View(now);
      Unfold(w, rid, a, MergeWrite(id, next), f, w1, MergeUncache(id));
      if !f.uncacheOk {
        Unfold(w1, rid, a, MergeUncache(id), f, w1, Releasing(UploadFailed(CommandFailed)));
        return Some(UploadFailed(CommandFailed));
      }
      meta := meta - {id};
      Unfold(w1, rid, a, MergeUncache(id), f, View(now), Releasing(Uploaded(id)));
      reused := Some(Uploaded(id));
    }

    /** The blob and the thumbnail, under a fresh id. */
    method StoreObjects(rid: ReqId, a: UploadArgs, f: Fate, now: int) returns (error: Option<UploadError>)
      modifies this`objects, this`issued
      ensures UploadAlone(old(View(now)), rid, a, Fresh, f)
           == UploadAlone(View(now), rid, a, Onward(error, ReadyToSave(f.id, ExpiryOf(old(View(now)), a))), f)
      ensures error.None? ==> UuidsOk(a, f.id)
      ensures !(f.putOk && IsUuid(a.owner) && IsUuid(f.id)) ==>
        error == Some(CommandFailed) && objects == old(objects) && issued == old(issued)
      ensures f.putOk && IsUuid(a.owner) && IsUuid(f.id) ==>
        var blob := BlobPath(a.context, a.owner, f.id);
        && blob in objects && f.id in issued && issued == old(issued)[f.id := issued[f.id]]
        && if error.Some? || a.thumb.None? then objects == old(objects)[blob := a.file.content]
           else objects == old(objects)[blob := a.file.content][ThumbPath(a.owner, f.id) := a.thumb.value.content]
    {
      UuidsOkExact(a, f.id);
      hide UploadAlone, UuidsOk, BlobPath, ThumbPath, IsUuid, ThumbnailError;
      ghost var w := View(now);
      if !f.putOk || !UuidsOk(a, f.id) {
        Unfold(w, rid, a, Fresh, f, w, Releasing(UploadFailed(CommandFailed)));
        return Some(CommandFailed);
      }
      UuidsOkExact(a, f.id);
      objects := objects[BlobPath(a.context, a.owner, f.id) := a.file.content];
      issued := issued[f.id := OriginOf(w, rid, a)];
      ghost var w1 := View(now);
      Unfold(w, rid, a, Fresh, f, w1, BlobPut(f.id));
      error := StoreThumbnail(rid, a, f, now);
    }

    method StoreThumbnail(rid: ReqId, a: UploadArgs, f: Fate, now: int) returns (error: Option<UploadError>)
      requires UuidsOk(a, f.id)
      modifies this`objects
      ensures UploadAlone(old(View(now)), rid, a, BlobPut(f.id), f)
           == UploadAlone(View(now), rid, a, Onward(error, ReadyToSave(f.id, ExpiryOf(old(View(now)), a))), f)
      ensures objects == if error.Some? || a.thumb.None? then old(objects)
                         else old(objects)[ThumbPath(a.owner, f.id) := a.thumb.value.content]
    {
      hide UploadAlone, UploadStep, UuidsOk, ThumbPath, IsUuid, ThumbnailError;
      UuidsOkExact(a, f.id);
      ghost var w := View(now);
      if a.thumb.None? {
        NoThumbnailAlone(w, rid, a, f);
        return None;
      }
      error := ValidateThumbnail(a.thumb.value);
      if error.None? && !f.thumbPutOk {
        error := Some(CommandFailed);
      }
      if error.None? {
        objects := objects[ThumbPath(a.owner, f.id) := a.thumb.value.content];
      }
      ThumbnailAlone(w, View(now), rid, a, f, error);
    }

    method ValidateThumbnail(thumb: File) returns (error: Option<UploadError>)
      ensures error == ThumbnailError(thumb)
      ensures error.None? <==>
        MagicOk(thumb.content, thumb.mime) && thumb.mime in IMAGE_TYPES && thumb.size <= 5_242_880
      ensures error == Some(UnsupportedType) <==> !MagicOk(thumb.content, thumb.mime) || thumb.mime !in IMAGE_TYPES
      ensures error.Some? && error != Some(UnsupportedType) ==> error == Some(TooLarge)
    {
      if !MagicOk(thumb.content, thumb.mime) {
        return Some(UnsupportedType);
      }
      if thumb.mime !in IMAGE_TYPES {
        return Some(UnsupportedType);
      }
      if thumb.size > THUMBNAIL_MAX_BYTES {
        return Some(TooLarge);
      }
      error := None;
    }

    /** The row; if it cannot be saved the objects are deleted again. */
    method Save(rid: ReqId, a: UploadArgs, f: Fate, expiresAt: Option<int>, now: int)
      returns (error: Option<UploadError>)
      requires UuidsOk(a, f.id)
      modifies this`media, this`objects
      ensures UploadAlone(old(View(now)), rid, a, ReadyToSave(f.id, expiresAt), f)
           == UploadAlone(View(now), rid, a, Onward(error, Saved(f.id)), f)
      ensures error.None? <==> f.saveOk
      ensures error.Some? ==> media == old(media)
      ensures error.None? ==> f.id in media && media == old(media)[f.id := media[f.id]] && objects == old(objects)
    {
      hide UploadAlone, UploadStep, UuidsOk, NewRow, BlobPath, ThumbPath, IsUuid, Union;
      UuidsOkExact(a, f.id);
      ghost var w := View(now);
      if !f.saveOk {
        NotSavedAlone(w, rid, a, f, expiresAt);
        error := CleanUp(rid, a, f, now);
        return;
      }
      var row := BuildRow(a, f.id, expiresAt, now);
      media := media[f.id := row];
      NewRowIs(w, a, f.id, expiresAt, Union([], a.sharedWith, a.owner));
      SaveAlone(w, View(now), rid, a, f, expiresAt);
      error := None;
    }

    /** The row of a new media; the users it is shared with are deduplicated, without the owner. */
    method BuildRow(a: UploadArgs, id: MediaId, expiresAt: Option<int>, now: int) returns (row: Media)
      requires UuidsOk(a, id)
      ensures UuidsOk(a, id) && IsUuid(a.owner) && IsUuid(id)
      ensures row.ownerId == a.owner && row.context == a.context && row.contentType == a.file.mime
      ensures row.blobSize == a.file.size && row.isActive && row.createdAt == now && row.expiresAt == expiresAt
      ensures row.signedUrlExpiresAt == None && row.storagePath == BlobPath(a.context, a.owner, id)
      ensures row.thumbnailPath == if a.thumb.Some? then Some(ThumbPath(a.owner, id)) else None
      ensures row.sharedWith != Some([]) && NoDuplicates(Listed(row.sharedWith))
      ensures forall uid :: uid in Listed(row.sharedWith) <==> uid in a.sharedWith && uid != "" && uid != a.owner
      ensures row.sharedWith == InitialAcl(a) && row.history == History(false, None, false)
    {
      UuidsOkExact(a, id);
      hide UuidsOk, BlobPath, ThumbPath, IsUuid, Union, NoDuplicates, Listed, InitialAcl;
      var users := MergeAcl([], a.sharedWith, a.owner);
      var listed := if users == [] then None else Some(users);
      FirstList(a, users, listed);
      row := Media(
        a.owner, a.context, BlobPath(a.context, a.owner, id),
        if a.thumb.Some? then Some(ThumbPath(a.owner, id)) else None,
        a.file.mime, a.file.size, expiresAt, None,
        true, listed, now, History(false, None, false));
      assert row.sharedWith == listed;
    }

    /** Deletes the objects of an upload whose row was not saved. */
    method CleanUp(rid: ReqId, a: UploadArgs, f: Fate, now: int) returns (error: Option<UploadError>)
      requires UuidsOk(a, f.id)
      modifies this`objects
      ensures error.Some?
      ensures UploadAlone(old(View(now)), rid, a, CleanBlob(f.id), f)
           == UploadAlone(View(now), rid, a, Releasing(UploadFailed(error.value)), f)
      ensures error == Some(SaveFailed(f.id, f.blobCleanOk && (a.thumb.Some? ==> f.thumbCleanOk)))
      ensures objects == old(objects)
        - (if f.blobCleanOk then {BlobPath(a.context, a.owner, f.id)} else {})
        - (if a.thumb.Some? && f.thumbCleanOk then {ThumbPath(a.owner, f.id)} else {})
    {
      hide UploadAlone, BlobPath, ThumbPath, IsUuid, UuidsOk;
      UuidsOkExact(a, f.id);
      ghost var w := View(now);
      if f.blobCleanOk {
        objects := objects - {BlobPath(a.context, a.owner, f.id)};
      }
      ghost var w1 := View(now);
      if a.thumb.None? {
        Unfold(w, rid, a, CleanBlob(f.id), f, w1, Releasing(UploadFailed(SaveFailed(f.id, f.blobCleanOk))));
        return Some(SaveFailed(f.id, f.blobCleanOk));
      }
      Unfold(w, rid, a, CleanBlob(f.id), f, w1, CleanThumb(f.id, f.blobCleanOk));
      if f.thumbCleanOk {
        objects := objects - {ThumbPath(a.owner, f.id)};
      }
      Unfold(w1, rid, a, CleanThumb(f.id, f.blobCleanOk), f, View(now),
             Releasing(UploadFailed(SaveFailed(f.id, f.blobCleanOk && f.thumbCleanOk))));
      error := Some(SaveFailed(f.id, f.blobCleanOk && f.thumbCleanOk));
    }

    /** Dedup entry, quota charge, quota-cache invalidation. */
    method IndexAndRecord(rid: ReqId, a: UploadArgs, f: Fate, now: int) returns (result: UploadResult)
      requires f.id in media
      modifies this`media, this`dedup, quotas
      ensures UploadAlone(old(View(now)), rid, a, Saved(f.id), f)
           == UploadAlone(View(now), rid, a, Releasing(result), f)
      ensures dedup == if f.indexOk then old(dedup)[DedupKey(a.owner, a.context, a.file.content) := f.id]
                       else old(dedup)
      ensures f.id in media && media == old(media)[f.id := old(media)[f.id].(history := media[f.id].history)]
      ensures
        if f.indexOk && f.recordOk && 0 <= a.file.size <= 9_007_199_254_740_991 && a.owner in old(quotas.quota) then
          && result == Uploaded(f.id)
          && var row := old(quotas.quota)[a.owner];
             quotas.quota == old(quotas.quota)[a.owner :=
               row.(storageUsed := row.storageUsed + a.file.size, filesCount := row.filesCount + 1,
                    dailyUploads := row.dailyUploads + 1)]
        else result == UploadFailed(CommandFailed) && quotas.quota == old(quotas.quota)
    {
      hide UploadAlone, UuidsOk, Charge;
      ghost var w := View(now);
      if !f.indexOk {
        Unfold(w, rid, a, Saved(f.id), f, w, Releasing(UploadFailed(CommandFailed)));
        return UploadFailed(CommandFailed);
      }
      dedup := dedup[DedupKey(a.owner, a.context, a.file.content) := f.id];
      ghost var w1 := View(now);
      IndexAlone(w, w1, rid, a, f);
      var recorded := false;
      if f.recordOk {
        recorded := quotas.RecordUpload(a.owner, a.file.size, f.flushOk);
      }
      if !recorded {
        NotRecordedAlone(w1, rid, a, f);
        return UploadFailed(CommandFailed);
      }
      media := media[f.id := media[f.id].(history := media[f.id].history.(recorded := true))];
      RecordAlone(w1, View(now), rid, a, f);
      result := Uploaded(f.id);
    }

    // ----- delete, share, read -----

    method Delete(rid: ReqId, id: MediaId, requester: UserId, flushOk: bool, now: int) returns (result: DeleteResult)
      modifies this`media, this`objects, this`meta, quotas
      ensures (View(now), result) == DeleteAlone(old(View(now)), rid, id, requester, Finding, flushOk)
      ensures result == DeleteNotFound <==> !(id in old(media) && old(media)[id].isActive)
      ensures result == DeleteForbidden <==>
        id in old(media) && old(media)[id].isActive && old(media)[id].ownerId != requester
      ensures result == DeleteNotFound || result == DeleteForbidden ==>
        && media == old(media) && objects == old(objects) && meta == old(meta)
        && quotas.quota == old(quotas.quota) && quotas.quotaCache == old(quotas.quotaCache)
      ensures result == Deleted || result == DeleteThrew ==>
        var row := old(media)[id];
        && id in media && !media[id].isActive && media == old(media)[id := media[id]]
        && media[id] == row.(isActive := false, history := media[id].history)
        && meta == old(meta) - {id}
        && objects == old(objects) - (if row.thumbnailPath.Some? then {row.storagePath, row.thumbnailPath.value}
                                      else {row.storagePath})
        && (result == Deleted <==> 0 <= row.blobSize <= 9_007_199_254_740_991 && requester in old(quotas.quota))
    {
      hide DeleteAlone, DeleteStep, WithoutObjects;
      ghost var w := View(now);
      if !(id in media && media[id].isActive) {
        NotDeletedAlone(w, rid, id, requester, flushOk);
        return DeleteNotFound;
      }
      var row := media[id];
      if row.ownerId != requester {
        NotDeletedAlone(w, rid, id, requester, flushOk);
        return DeleteForbidden;
      }
      media := media[id := row.(isActive := false, history := row.history.(deletedBy := Some(rid)))];
      ghost var w1 := View(now);
      SoftDeleteAlone(w, w1, rid, id, requester, flushOk);
      RemoveObjects(row);
      meta := meta - {id};
      RemoveAlone(w1, View(now), rid, id, requester, row, flushOk);
      result := ReleaseQuota(rid, id, requester, row, flushOk, now);
    }

    method RemoveObjects(row: Media)
      modifies this`objects
      ensures objects == WithoutObjects(old(objects), row)
      ensures objects == old(objects) - (if row.thumbnailPath.Some? then {row.storagePath, row.thumbnailPath.value}
                                         else {row.storagePath})
    {
      objects := objects - {row.storagePath};
      if row.thumbnailPath.Some? {
        objects := objects - {row.thumbnailPath.value};
      }
    }

    method ReleaseQuota(rid: ReqId, id: MediaId, requester: UserId, row: Media, flushOk: bool, now: int)
      returns (result: DeleteResult)
      requires id in media
      modifies this`media, quotas
      ensures (View(now), result) == DeleteAlone(old(View(now)), rid, id, requester, Refunding(row), flushOk)
      ensures result == if 0 <= row.blobSize <= 9_007_199_254_740_991 && requester in old(quotas.quota)
                        then Deleted else DeleteThrew
      ensures id in media && media == old(media)[id := old(media)[id].(history := media[id].history)]
    {
      hide DeleteAlone, DeleteStep, Refund;
      ghost var w := View(now);
      var released := quotas.RecordDelete(requester, row.blobSize, flushOk);
      if !released {
        ThrewAlone(w, rid, id, requester, row, flushOk);
        return DeleteThrew;
      }
      media := media[id := media[id].(history := media[id].history.(released := true))];
      RefundAlone(w, View(now), rid, id, requester, row, flushOk);
      result := Deleted;
    }

    method Share(id: MediaId, requester: UserId, users: seq<UserId>, now: int) returns (result: ShareResult)
      modifies this`media, this`meta
      ensures (View(now), result) == ShareAlone(old(View(now)), id, requester, users)
      ensures result == ShareNotFound <==> !(id in old(media) && old(media)[id].isActive)
      ensures result == ShareForbidden <==>
        id in old(media) && old(media)[id].isActive && old(media)[id].ownerId != requester
      ensures !result.Shared? ==> media == old(media) && meta == old(meta)
      ensures result.Shared? ==>
        var row, next := old(media)[id], result.users;
        && NoDuplicates(next)
        && (forall uid :: uid in next <==>
              || (row.sharedWith.Some? && uid in row.sharedWith.value)
              || (uid in users && uid != "" && uid != row.ownerId))
        && id in media && media == old(media)[id := row.(sharedWith := media[id].sharedWith)]
        && ((media == old(media) && meta == old(meta))
            || (meta == old(meta) - {id} && media[id].sharedWith == if next == [] then None else Some(next)))
        && (forall uid :: uid in next <==> media[id].sharedWith.Some? && uid in media[id].sharedWith.value)
    {
      hide Union, Distinct;
      if !(id in media && media[id].isActive) {
        return ShareNotFound;
      }
      var row := media[id];
      if row.ownerId != requester {
        return ShareForbidden;
      }
      var existing := MergeAcl(Listed(row.sharedWith), [], row.ownerId);
      NothingAdded(Listed(row.sharedWith), row.ownerId);
      var next := MergeAcl(Listed(row.sharedWith), users, row.ownerId);
      if |next| != |existing| {
        media := media[id := row.(sharedWith := if next == [] then None else Some(next))];
        meta := meta - {id};
      }
      UnionProps(Listed(row.sharedWith), users, row.ownerId);
      GrowthTests(Listed(row.sharedWith), users, row.ownerId);
      result := Shared(next);
    }

    method GetMetadata(id: MediaId, requester: UserId, now: int) returns (result: MetaResult)
      modifies this`meta
      ensures (View(now), result) == MetaAlone(old(View(now)), id, requester)
      ensures id in old(meta) ==>
        var e := old(meta)[id];
        && meta == old(meta)
        && result == if e.dto.context == Avatar || e.dto.context == GroupIcon || requester == e.dto.ownerId
                        || (e.sharedWith.Some? && requester in e.sharedWith.value)
                     then Found(e.dto) else MetaDenied
      ensures id !in old(meta) && !(id in media && media[id].isActive) ==> result == MetaNotFound && meta == old(meta)
      ensures id !in old(meta) && id in media && media[id].isActive ==>
        var row := media[id];
        if row.context == Avatar || row.context == GroupIcon || requester == row.ownerId
           || (row.sharedWith.Some? && requester in row.sharedWith.value) then
          && result == Found(MetaDto(id, row.ownerId, row.context, row.contentType, row.blobSize, row.expiresAt,
                                     true, row.createdAt, row.thumbnailPath.Some?))
          && meta == old(meta)[id := CachedMeta(result.dto, row.sharedWith)]
        else result == MetaDenied && meta == old(meta)
      ensures id in media && media[id].isActive && (id in old(meta) ==> old(meta)[id] == EntryOf(id, media[id])) ==>
        var row := media[id];
        && (result.Found? <==> row.context in {Avatar, GroupIcon} || requester == row.ownerId
                               || requester in Listed(row.sharedWith))
        && (result.Found? || result == MetaDenied)
    {
      if id in meta {
        var cached := meta[id];
        if !MayRead(PublicReadable(cached.dto.context), cached.dto.ownerId, cached.sharedWith, requester) {
          return MetaDenied;
        }
        return Found(cached.dto);
      }
      if !(id in media && media[id].isActive) {
        return MetaNotFound;
      }
      var row := media[id];
      if !MayRead(PublicReadable(row.context), row.ownerId, row.sharedWith, requester) {
        return MetaDenied;
      }
      var dto := MetaDto(id, row.ownerId, row.context, row.contentType, row.blobSize, row.expiresAt, row.isActive,
                         row.createdAt, row.thumbnailPath.Some?);
      meta := meta[id := CachedMeta(dto, row.sharedWith)];
      result := Found(dto);
    }

    method GetBlob(id: MediaId, requester: UserId, now: int) returns (result: BlobResult)
      modifies this`media
      ensures (View(now), BlobDone(result)) == BlobStep(old(View(now)), id, requester, BlobStart)
      ensures result == BlobNotFound <==> !(id in old(media) && old(media)[id].isActive)
      ensures id in old(media) && old(media)[id].isActive ==>
        var row := old(media)[id];
        && (result.Granted? <==> row.context in {Avatar, GroupIcon} || requester == row.ownerId
                                 || (row.sharedWith.Some? && requester in row.sharedWith.value))
        && (result.Granted? || result == BlobDenied)
      ensures !result.Granted? ==> media == old(media)
      ensures result.Granted? ==>
        var row, g := old(media)[id], result.grant;
        && g.url.path == row.storagePath && g.url.signedAt == now
        && if row.signedUrlExpiresAt.Some? && row.signedUrlExpiresAt.value > now then
             && g.expiresAt == row.signedUrlExpiresAt.value && media == old(media)
             && g.url.expiresIn == Max(1, (g.expiresAt - now) / 1000)
           else
             && g.expiresAt == now + config.signedUrlExpirySeconds * 1000
             && g.url.expiresIn == config.signedUrlExpirySeconds
             && media == old(media)[id := row.(signedUrlExpiresAt := Some(g.expiresAt))]
    {
      if !(id in media && media[id].isActive) {
        return BlobNotFound;
      }
      var row := media[id];
      if !MayRead(PublicReadable(row.context), row.ownerId, row.sharedWith, requester) {
        return BlobDenied;
      }
      if row.signedUrlExpiresAt.Some? && row.signedUrlExpiresAt.value > now {
        var seconds := (row.signedUrlExpiresAt.value - now) / 1000;
        var remaining := if seconds >= 1 then seconds else 1;
        return Granted(UrlGrant(SignedUrl(row.storagePath, now, remaining), row.signedUrlExpiresAt.value));
      }
      var expiresAt := now + config.signedUrlExpirySeconds * 1000;
      media := media[id := row.(signedUrlExpiresAt := Some(expiresAt))];
      result := Granted(UrlGrant(SignedUrl(row.storagePath, now, config.signedUrlExpirySeconds), expiresAt));
    }

    /** The query: the user's active media, latest first. */
    method FindActive(user: UserId) returns (rows: seq<MediaId>)
      ensures Listing(CreationTimes(media, user), rows)
      ensures NoDuplicates(rows)
      ensures forall id :: id in rows <==> id in media && media[id].isActive && media[id].ownerId == user
      ensures forall i, j :: 0 <= i < j < |rows| ==>
        rows[i] in media && rows[j] in media && media[rows[i]].createdAt >= media[rows[j]].createdAt
    {
      var created := CreationTimes(media, user);
      var pending := created.Keys;
      rows := [];
      while pending != {}
        invariant pending <= created.Keys
        invariant multiset(rows) == multiset(created.Keys - pending)
        invariant Descending(created, rows)
        decreases |pending|
      {
        var id :| id in pending;
        InsertDescending(created, rows, id);
        rows := Insert(created, rows, id);
        assert created.Keys - (pending - {id}) == created.Keys - pending + {id};
        pending := pending - {id};
      }
      assert created.Keys - {} == created.Keys;
      DescendingIsListing(created, rows);
    }

    /** `rows` is what the query returned. */
    method GetUserMedia(user: UserId, page: int, limit: int)
      returns (items: seq<MediaItem>, total: nat, totalPages: nat, ghost rows: seq<MediaId>)
      requires page >= 1 && limit >= 1
      ensures NoDuplicates(rows)
      ensures forall id :: id in rows <==> id in media && media[id].isActive && media[id].ownerId == user
      ensures forall i, j :: 0 <= i < j < |rows| ==>
        rows[i] in media && rows[j] in media && media[rows[i]].createdAt >= media[rows[j]].createdAt
      ensures total == |rows| && totalPages == TotalPages(total, limit)
      ensures |items| == |Page(rows, page, limit)|
      ensures forall i :: 0 <= i < |items| ==>
        var id := Page(rows, page, limit)[i];
        && id in media && items[i].id == id && items[i].contentType == media[id].contentType
        && items[i].blobSize == media[id].blobSize && items[i].context == media[id].context
        && items[i].createdAt == media[id].createdAt
    {
      var found := FindActive(user);
      rows := found;
      var selected := Page(found, page, limit);
      PageIsPart(found, page, limit);
      items := [];
      for i := 0 to |selected|
        invariant |items| == i
        invariant forall j :: 0 <= j < i ==> selected[j] in media && items[j] == ItemOf(selected[j], media[selected[j]])
      {
        items := items + [ItemOf(selected[i], media[selected[i]])];
      }
      total, totalPages := |found|, TotalPages(|found|, limit);
    }
  }
}

/**
 * One call running alone, several steps at a time: what each part of a call comes to.
 */
module AloneSteps {
  import opened Base
  import opened Paths
  import opened Quota
  import opened Acl
  import opened Admission
  import opened Protocol
  import opened Sequential

  // ----- upload -----

  /** A part of an upload either lets it go on at `next` or ends it with an error. */
  function Onward(error: Option<UploadError>, next: UploadPc): UploadPc {
    if error.None? then next else Releasing(UploadFailed(error.value))
  }

  lemma Unfold(w: World, rid: ReqId, a: UploadArgs, pc: UploadPc, f: Fate, w': World, pc': UploadPc)
    requires !pc.UploadDone? && UploadStep(w, rid, a, pc, ChoiceAt(f, pc)) == (w', pc')
    ensures UploadAlone(w, rid, a, pc, f) == UploadAlone(w', rid, a, pc', f)
  {
    hide UploadStep, ChoiceAt;
  }

  lemma DecideIs(a: UploadArgs, row: QuotaRow, error: Option<UploadError>)
    requires var v := Verdict(row, a.file.size); error == if v != Allowed then Some(QuotaExceeded(v)) else FileError(a)
    ensures Decide(a, row) == Onward(error, Checked)
  {
    hide Verdict, FileError;
  }

  lemma NotAdmittedAlone(w: World, rid: ReqId, a: UploadArgs, f: Fate)
    requires (a.context == GroupIcon && !f.authorised) || !ValidBlobSize(a.file.size)
    ensures UploadAlone(w, rid, a, Admitted, f) == UploadAlone(w, rid, a,
      Releasing(UploadFailed(if a.context == GroupIcon && !f.authorised then NotAuthorized else InvalidSize)), f)
  {
    hide UploadAlone, ValidBlobSize, Decide;
    Unfold(w, rid, a, Admitted, f, w,
           Releasing(UploadFailed(if a.context == GroupIcon && !f.authorised then NotAuthorized else InvalidSize)));
  }

  // Authorised, of a valid size, and the row read: the decision is what is left of the checks.
  lemma AdmissionAlone(w: World, w': World, rid: ReqId, a: UploadArgs, f: Fate, row: Option<QuotaRow>)
    requires a.context == GroupIcon ==> f.authorised
    requires ValidBlobSize(a.file.size)
    requires ReadThrough(w.quota, w.quotaCache, w'.quota, w'.quotaCache, a.owner, Today(w),
                         f.quotaHit, f.quotaTableOk, f.quotaSetOk, row)
    requires w' == w.(quota := w'.quota, quotaCache := w'.quotaCache)
    ensures UploadAlone(w, rid, a, Admitted, f)
         == UploadAlone(w', rid, a,
                        if row.None? then Releasing(UploadFailed(CommandFailed)) else Decide(a, row.value), f)
  {
    hide UploadAlone, Decide, FreshRow, Rehydrate, Dehydrate;
    if a.owner in w.quotaCache && f.quotaHit {
      Unfold(w, rid, a, Admitted, f, w', Decide(a, row.value));
    } else {
      Unfold(w, rid, a, Admitted, f, w, QuotaMiss);
      if !f.quotaTableOk {
        Unfold(w, rid, a, QuotaMiss, f, w', Releasing(UploadFailed(CommandFailed)));
      } else {
        var read := w.(quota := w'.quota);
        Unfold(w, rid, a, QuotaMiss, f, read, QuotaRead(row.value));
        Unfold(read, rid, a, QuotaRead(row.value), f, w', Decide(a, row.value));
      }
    }
  }

  lemma AcquireAlone(w: World, w': World, rid: ReqId, a: UploadArgs, f: Fate)
    requires var count := Counter(w, a.owner) + 1;
      w' == w.(sem := w.sem[a.owner := if count <= MAX_CONCURRENT_UPLOADS then count else count - 1])
    ensures UploadAlone(w, rid, a, Arriving, f)
         == if Counter(w, a.owner) < MAX_CONCURRENT_UPLOADS then UploadAlone(w', rid, a, Admitted, f)
            else (w', UploadFailed(TooManyRequests))
  {
    hide UploadAlone;
    var count := Counter(w, a.owner) + 1;
    if count <= MAX_CONCURRENT_UPLOADS {
      Unfold(w, rid, a, Arriving, f, w', Admitted);
    } else {
      var full := w.(sem := w.sem[a.owner := count]);
      Unfold(w, rid, a, Arriving, f, full, Rejecting);
      assert w'.sem == full.sem[a.owner := Counter(full, a.owner) - 1];
      Unfold(full, rid, a, Rejecting, f, w', UploadDone(UploadFailed(TooManyRequests)));
      Finish(w', rid, a, f, UploadFailed(TooManyRequests));
    }
  }

  lemma Finish(w: World, rid: ReqId, a: UploadArgs, f: Fate, result: UploadResult)
    ensures UploadAlone(w, rid, a, UploadDone(result), f) == (w, result)
  {}

  lemma ReleaseAlone(w: World, w': World, rid: ReqId, a: UploadArgs, f: Fate, result: UploadResult)
    requires var remaining := Counter(w, a.owner) - 1;
      w' == w.(sem := if remaining <= 0 then w.sem - {a.owner} else w.sem[a.owner := remaining])
    ensures UploadAlone(w, rid, a, Releasing(result), f) == (w', result)
  {
    hide UploadAlone;
    var remaining := Counter(w, a.owner) - 1;
    var less := w.(sem := w.sem[a.owner := remaining]);
    if remaining <= 0 {
      Unfold(w, rid, a, Releasing(result), f, less, DroppingKey(result));
      assert w'.sem == less.sem - {a.owner};
      Unfold(less, rid, a, DroppingKey(result), f, w', UploadDone(result));
    } else {
      Unfold(w, rid, a, Releasing(result), f, w', UploadDone(result));
    }
    Finish(w', rid, a, f, result);
  }

  lemma UuidsOkExact(a: UploadArgs, id: MediaId)
    ensures UuidsOk(a, id) <==> IsUuid(a.owner) && IsUuid(id)
  {}

  lemma NewRowIs(w: World, a: UploadArgs, id: MediaId, expiresAt: Option<int>, users: seq<UserId>)
    requires UuidsOk(a, id) && users == Union([], a.sharedWith, a.owner)
    ensures NewRow(w, a, id, expiresAt) == Media(
      a.owner, a.context, BlobPath(a.context, a.owner, id),
      if a.thumb.Some? then Some(ThumbPath(a.owner, id)) else None,
      a.file.mime, a.file.size, expiresAt, None,
      true, if users == [] then None else Some(users), w.now, History(false, None, false))
  {}

  lemma NoThumbnailAlone(w: World, rid: ReqId, a: UploadArgs, f: Fate)
    requires a.thumb.None?
    ensures UploadAlone(w, rid, a, BlobPut(f.id), f) == UploadAlone(w, rid, a, ReadyToSave(f.id, ExpiryOf(w, a)), f)
  {
    hide UploadAlone;
    Unfold(w, rid, a, BlobPut(f.id), f, w, ReadyToSave(f.id, ExpiryOf(w, a)));
  }

  lemma ThumbnailAlone(w: World, w': World, rid: ReqId, a: UploadArgs, f: Fate, error: Option<UploadError>)
    requires a.thumb.Some? && UuidsOk(a, f.id)
    requires var invalid := ThumbnailError(a.thumb.value);
      error == if invalid.None? && !f.thumbPutOk then Some(CommandFailed) else invalid
    requires w' == if error.Some? then w
        else w.(objects := w.objects[ThumbPath(a.owner, f.id) := a.thumb.value.content])
    ensures UploadAlone(w, rid, a, BlobPut(f.id), f)
         == UploadAlone(w', rid, a, Onward(error, ReadyToSave(f.id, ExpiryOf(w, a))), f)
  {
    hide UploadAlone, ThumbnailError, IsUuid, ThumbPath;
    Unfold(w, rid, a, BlobPut(f.id), f, w', Onward(error, ReadyToSave(f.id, ExpiryOf(w, a))));
  }

  lemma NotSavedAlone(w: World, rid: ReqId, a: UploadArgs, f: Fate, expiresAt: Option<int>)
    requires !f.saveOk
    ensures UploadAlone(w, rid, a, ReadyToSave(f.id, expiresAt), f) == UploadAlone(w, rid, a, CleanBlob(f.id), f)
  {
    hide UploadAlone, UuidsOk;
    Unfold(w, rid, a, ReadyToSave(f.id, expiresAt), f, w, CleanBlob(f.id));
  }

  lemma SaveAlone(w: World, w': World, rid: ReqId, a: UploadArgs, f: Fate, expiresAt: Option<int>)
    requires f.saveOk && UuidsOk(a, f.id) && w' == w.(media := w.media[f.id := NewRow(w, a, f.id, expiresAt)])
    ensures UploadAlone(w, rid, a, ReadyToSave(f.id, expiresAt), f) == UploadAlone(w', rid, a, Saved(f.id), f)
  {
    hide UploadAlone, UuidsOk, NewRow;
    Unfold(w, rid, a, ReadyToSave(f.id, expiresAt), f, w', Saved(f.id));
  }

  lemma IndexAlone(w: World, w': World, rid: ReqId, a: UploadArgs, f: Fate)
    requires f.indexOk && w' == w.(dedup := w.dedup[KeyOf(a) := f.id])
    ensures UploadAlone(w, rid, a, Saved(f.id), f) == UploadAlone(w', rid, a, Indexed(f.id), f)
  {
    hide UploadAlone, KeyOf;
    Unfold(w, rid, a, Saved(f.id), f, w', Indexed(f.id));
  }

  lemma NotRecordedAlone(w: World, rid: ReqId, a: UploadArgs, f: Fate)
    requires !(f.recordOk && ValidBlobSize(a.file.size) && a.owner in w.quota)
    ensures UploadAlone(w, rid, a, Indexed(f.id), f)
         == UploadAlone(w, rid, a, Releasing(UploadFailed(CommandFailed)), f)
  {
    hide UploadAlone, ValidBlobSize;
    Unfold(w, rid, a, Indexed(f.id), f, w, Releasing(UploadFailed(CommandFailed)));
  }

  lemma RecordAlone(w: World, w': World, rid: ReqId, a: UploadArgs, f: Fate)
    requires f.recordOk && ValidBlobSize(a.file.size) && a.owner in w.quota && f.id in w.media
    requires w' == w.(
      quota := w.quota[a.owner := Charge(w.quota[a.owner], a.file.size)],
      quotaCache := if f.flushOk then w.quotaCache - {a.owner} else w.quotaCache,
      media := w.media[f.id := w.media[f.id].(history := w.media[f.id].history.(recorded := true))],
      log := w.log + [UploadCommit(a.owner)])
    ensures UploadAlone(w, rid, a, Indexed(f.id), f) == UploadAlone(w', rid, a, Releasing(Uploaded(f.id)), f)
  {
    hide UploadAlone, Charge;
    var charged := w'.(quotaCache := w.quotaCache);
    Unfold(w, rid, a, Indexed(f.id), f, charged, Recorded(f.id));
    Unfold(charged, rid, a, Recorded(f.id), f, w', Releasing(Uploaded(f.id)));
  }

  // ----- delete -----

  lemma UnfoldDelete(w: World, rid: ReqId, id: MediaId, requester: UserId, pc: DeletePc,
                     flushOk: bool, w': World, pc': DeletePc)
    requires !pc.DeleteDone? && DeleteStep(w, rid, id, requester, pc, Answer(flushOk)) == (w', pc')
    ensures DeleteAlone(w, rid, id, requester, pc, flushOk) == DeleteAlone(w', rid, id, requester, pc', flushOk)
    ensures pc'.DeleteDone? ==> DeleteAlone(w, rid, id, requester, pc, flushOk) == (w', pc'.result)
  {}

  lemma NotDeletedAlone(w: World, rid: ReqId, id: MediaId, requester: UserId, flushOk: bool)
    requires ActiveRow(w, id).Some? ==> ActiveRow(w, id).value.ownerId != requester
    ensures DeleteAlone(w, rid, id, requester, Finding, flushOk)
         == (w, if ActiveRow(w, id).None? then DeleteNotFound else DeleteForbidden)
  {
    hide DeleteAlone;
    UnfoldDelete(w, rid, id, requester, Finding, flushOk, w,
                 DeleteDone(if ActiveRow(w, id).None? then DeleteNotFound else DeleteForbidden));
  }

  lemma SoftDeleteAlone(w: World, w': World, rid: ReqId, id: MediaId, requester: UserId, flushOk: bool)
    requires ActiveRow(w, id).Some? && ActiveRow(w, id).value.ownerId == requester
    requires var row := w.media[id];
      w' == w.(media := w.media[id := row.(isActive := false, history := row.history.(deletedBy := Some(rid)))])
    ensures DeleteAlone(w, rid, id, requester, Finding, flushOk)
         == DeleteAlone(w', rid, id, requester, RemovingBlob(w.media[id]), flushOk)
  {
    hide DeleteAlone;
    UnfoldDelete(w, rid, id, requester, Finding, flushOk, w', RemovingBlob(w.media[id]));
  }

  /** The object store once a row's objects are deleted. */
  function WithoutObjects(objects: map<Path, Bytes>, row: Media): map<Path, Bytes> {
    if row.thumbnailPath.Some? then objects - {row.storagePath} - {row.thumbnailPath.value}
    else objects - {row.storagePath}
  }

  lemma RemoveAlone(w: World, w': World, rid: ReqId, id: MediaId, requester: UserId, row: Media, flushOk: bool)
    requires w' == w.(objects := WithoutObjects(w.objects, row), meta := w.meta - {id})
    ensures DeleteAlone(w, rid, id, requester, RemovingBlob(row), flushOk)
         == DeleteAlone(w', rid, id, requester, Refunding(row), flushOk)
  {
    hide DeleteAlone;
    var w1 := w.(objects := w.objects - {row.storagePath});
    var w2 := w.(objects := WithoutObjects(w.objects, row));
    if row.thumbnailPath.Some? {
      UnfoldDelete(w, rid, id, requester, RemovingBlob(row), flushOk, w1, RemovingThumb(row));
      UnfoldDelete(w1, rid, id, requester, RemovingThumb(row), flushOk, w2, DroppingMeta(row));
    } else {
      UnfoldDelete(w, rid, id, requester, RemovingBlob(row), flushOk, w2, DroppingMeta(row));
    }
    UnfoldDelete(w2, rid, id, requester, DroppingMeta(row), flushOk, w', Refunding(row));
  }

  lemma ThrewAlone(w: World, rid: ReqId, id: MediaId, requester: UserId, row: Media, flushOk: bool)
    requires !ValidBlobSize(row.blobSize) || requester !in w.quota
    ensures DeleteAlone(w, rid, id, requester, Refunding(row), flushOk) == (w, DeleteThrew)
  {
    hide DeleteAlone, ValidBlobSize;
    UnfoldDelete(w, rid, id, requester, Refunding(row), flushOk, w, DeleteDone(DeleteThrew));
  }

  lemma RefundAlone(w: World, w': World, rid: ReqId, id: MediaId, requester: UserId, row: Media, flushOk: bool)
    requires ValidBlobSize(row.blobSize) && requester in w.quota && id in w.media
    requires w' == w.(
      quota := w.quota[requester := Refund(w.quota[requester], row.blobSize)],
      quotaCache := if flushOk then w.quotaCache - {requester} else w.quotaCache,
      media := w.media[id := w.media[id].(history := w.media[id].history.(released := true))])
    ensures DeleteAlone(w, rid, id, requester, Refunding(row), flushOk) == (w', Deleted)
  {
    hide DeleteAlone, Refund;
    var refunded := w'.(quotaCache := w.quotaCache);
    UnfoldDelete(w, rid, id, requester, Refunding(row), flushOk, refunded, Uncaching(row));
    UnfoldDelete(refunded, rid, id, requester, Uncaching(row), flushOk, w', DeleteDone(Deleted));
  }
}

/**
 * What whole calls do to each other when they run one after the other: a delete undoes an upload, a second upload
 * of the same bytes reuses the first, a failed save leaves no trace, a share lets exactly the named users read.
 */
module RoundTrips {
  import opened Base
  import opened Paths
  import opened Quota
  import opened Acl
  import opened Admission
  import opened Protocol
  import opened Sequential
  import opened AloneSteps
  import opened Witnesses

  // ----- the slot is given back -----

  predicate HoldsSlot(pc: UploadPc) {
    !(pc.Arriving? || pc.Rejecting? || pc.DroppingKey? || pc.UploadDone?)
  }

  lemma SlotStep(w: World, rid: ReqId, a: UploadArgs, pc: UploadPc, ch: Choice)
    requires HoldsSlot(pc) && !pc.Releasing?
    ensures var (w', pc') := UploadStep(w, rid, a, pc, ch); HoldsSlot(pc') && w'.sem == w.sem
  {
    hide AdmissionError, ThumbnailError, UuidsOk, ActiveRow, Union, IsUuid;
  }

  lemma {:induction false} SlotGivenBack(w: World, rid: ReqId, a: UploadArgs, pc: UploadPc, f: Fate)
    requires HoldsSlot(pc)
    ensures var remaining := Counter(w, a.owner) - 1;
      UploadAlone(w, rid, a, pc, f).0.sem == if remaining <= 0 then w.sem - {a.owner} else w.sem[a.owner := remaining]
    decreases Rank(pc)
  {
    hide UploadStep, UploadAlone;
    if pc.Releasing? {
      var remaining := Counter(w, a.owner) - 1;
      var w' := w.(sem := if remaining <= 0 then w.sem - {a.owner} else w.sem[a.owner := remaining]);
      ReleaseAlone(w, w', rid, a, f, pc.result);
    } else {
      var (w', pc') := UploadStep(w, rid, a, pc, ChoiceAt(f, pc));
      SlotStep(w, rid, a, pc, ChoiceAt(f, pc));
      RankDrops(w, rid, a, pc, ChoiceAt(f, pc));
      Unfold(w, rid, a, pc, f, w', pc');
      SlotGivenBack(w', rid, a, pc', f);
    }
  }

  // However an upload ends, admitted or refused, every user's count of slots is what it was: exactly when the
  // uploader's was not negative before.
  lemma SlotsRestored(w: World, rid: ReqId, a: UploadArgs, f: Fate, u: UserId)
    ensures u != a.owner || Counter(w, u) >= 0 <==> Counter(UploadAlone(w, rid, a, Arriving, f).0, u) == Counter(w, u)
  {
    hide UploadAlone;
    var count := Counter(w, a.owner) + 1;
    var w1 := w.(sem := w.sem[a.owner := if count <= MAX_CONCURRENT_UPLOADS then count else count - 1]);
    AcquireAlone(w, w1, rid, a, f);
    if count <= MAX_CONCURRENT_UPLOADS {
      SlotGivenBack(w1, rid, a, Admitted, f);
    }
  }

  // ----- a fresh upload, start to end -----

  /** Every command succeeds, the save of the row left open, and the group service agrees. */
  predicate AllGood(f: Fate) {
    && f.authorised && f.quotaTableOk && f.safe && f.findOk && f.mergeOk && f.uncacheOk && f.putOk && f.thumbPutOk
    && f.indexOk && f.recordOk && f.flushOk
  }

  /** The row the quota check decides on. */
  function Seen(w: World, a: UploadArgs, f: Fate): QuotaRow {
    if a.owner in w.quotaCache && f.quotaHit then Rehydrate(w.quotaCache[a.owner]) else RowOrFresh(w, a.owner)
  }

  /** There is a slot, a row behind every cached one, and room for the upload, which is well formed. */
  ghost predicate Welcome(w: World, a: UploadArgs, f: Fate) {
    && AllGood(f) && 0 <= Counter(w, a.owner) < MAX_CONCURRENT_UPLOADS
    && (a.owner in w.quotaCache ==> a.owner in w.quota)
    && ValidBlobSize(a.file.size) && AdmissionError(a, Seen(w, a, f)).None?
  }

  /** Nothing but the slots, the user's quota row and its cached copy has changed. */
  ghost predicate OnlyQuotaRead(w: World, w': World, u: UserId) {
    && w' == w.(sem := w'.sem, quota := w.quota[u := RowOrFresh(w, u)], quotaCache := w'.quotaCache)
    && w'.quotaCache - {u} == w.quotaCache - {u}
  }

  lemma EnterAlone(w: World, rid: ReqId, a: UploadArgs, f: Fate) returns (w': World)
    requires Welcome(w, a, f)
    ensures UploadAlone(w, rid, a, Arriving, f) == UploadAlone(w', rid, a, Checked, f)
    ensures OnlyQuotaRead(w, w', a.owner)
  {
    hide UploadAlone, UploadStep, AdmissionError, Rehydrate, Dehydrate, FreshRow, ValidBlobSize;
    var u := a.owner;
    var w1 := w.(sem := w.sem[u := Counter(w, u) + 1]);
    AcquireAlone(w, w1, rid, a, f);
    var hit := u in w.quotaCache && f.quotaHit;
    var row := Seen(w, a, f);
    w' := w1.(quota := w.quota[u := RowOrFresh(w, u)],
              quotaCache := if hit || !f.quotaSetOk then w.quotaCache else w.quotaCache[u := Dehydrate(row)]);
    assert hit ==> w'.quota == w.quota;
    AdmissionAlone(w1, w', rid, a, f, Some(row));
  }

  /** The dedup index has no entry for these bytes, or does not answer. */
  predicate NoHit(w: World, a: UploadArgs, f: Fate) {
    KeyOf(a) !in w.dedup || !f.dedupHit
  }

  /** The object store with the blob and the thumbnail in it. */
  function Stored(objects: map<Path, Bytes>, a: UploadArgs, id: MediaId): map<Path, Bytes>
    requires UuidsOk(a, id)
  {
    var withBlob := objects[BlobPath(a.context, a.owner, id) := a.file.content];
    if a.thumb.None? then withBlob else withBlob[ThumbPath(a.owner, id) := a.thumb.value.content]
  }

  lemma StoreAlone(w: World, w': World, rid: ReqId, a: UploadArgs, f: Fate)
    requires AllGood(f) && NoHit(w, a, f) && UuidsOk(a, f.id)
    requires a.thumb.Some? ==> ThumbnailError(a.thumb.value).None?
    requires w' == w.(objects := Stored(w.objects, a, f.id), issued := w.issued[f.id := OriginOf(w, rid, a)])
    ensures UploadAlone(w, rid, a, Checked, f) == UploadAlone(w', rid, a, ReadyToSave(f.id, ExpiryOf(w, a)), f)
  {
    hide UploadAlone, ThumbnailError, BlobPath, ThumbPath, IsUuid;
    var blob := w.(objects := w.objects[BlobPath(a.context, a.owner, f.id) := a.file.content],
                   issued := w.issued[f.id := OriginOf(w, rid, a)]);
    Unfold(w, rid, a, Checked, f, w, Fresh);
    Unfold(w, rid, a, Fresh, f, blob, BlobPut(f.id));
    if a.thumb.None? {
      NoThumbnailAlone(blob, rid, a, f);
    } else {
      ThumbnailAlone(blob, w', rid, a, f, None);
    }
  }

  /** The row of a fresh upload, recorded. */
  function RecordedRow(w: World, a: UploadArgs, id: MediaId): Media
    requires UuidsOk(a, id)
  {
    NewRow(w, a, id, ExpiryOf(w, a)).(history := History(true, None, false))
  }

  /** What a successful upload of new bytes leaves behind. */
  ghost predicate StoredAs(w: World, w': World, a: UploadArgs, id: MediaId)
    requires UuidsOk(a, id)
  {
    && w'.now == w.now && w'.config == w.config && w'.meta == w.meta
    && w'.objects == Stored(w.objects, a, id)
    && w'.media == w.media[id := RecordedRow(w, a, id)]
    && w'.dedup == w.dedup[KeyOf(a) := id]
    && ValidBlobSize(a.file.size)
    && w'.quota == w.quota[a.owner := Charge(RowOrFresh(w, a.owner), a.file.size)]
    && w'.quotaCache == w.quotaCache - {a.owner}
  }

  lemma RecordAndRelease(w: World, rid: ReqId, a: UploadArgs, f: Fate) returns (w': World)
    requires AllGood(f) && f.saveOk && UuidsOk(a, f.id) && ValidBlobSize(a.file.size) && a.owner in w.quota
    ensures UploadAlone(w, rid, a, ReadyToSave(f.id, ExpiryOf(w, a)), f) == (w', Uploaded(f.id))
    ensures w' == w.(
      sem := w'.sem,
      media := w.media[f.id := RecordedRow(w, a, f.id)],
      dedup := w.dedup[KeyOf(a) := f.id],
      quota := w.quota[a.owner := Charge(w.quota[a.owner], a.file.size)],
      quotaCache := w.quotaCache - {a.owner},
      log := w'.log)
  {
    hide UploadAlone, UploadStep, UuidsOk, NewRow, KeyOf, Charge;
    var w1 := w.(media := w.media[f.id := NewRow(w, a, f.id, ExpiryOf(w, a))]);
    SaveAlone(w, w1, rid, a, f, ExpiryOf(w, a));
    var w2 := w1.(dedup := w1.dedup[KeyOf(a) := f.id]);
    IndexAlone(w1, w2, rid, a, f);
    NewRowIs(w, a, f.id, ExpiryOf(w, a), Union([], a.sharedWith, a.owner));
    var w3 := w2.(
      quota := w.quota[a.owner := Charge(w.quota[a.owner], a.file.size)],
      quotaCache := w.quotaCache - {a.owner},
      media := w.media[f.id := RecordedRow(w, a, f.id)],
      log := w.log + [UploadCommit(a.owner)]);
    assert w3.media == w2.media[f.id := w2.media[f.id].(history := w2.media[f.id].history.(recorded := true))];
    RecordAlone(w2, w3, rid, a, f);
    var remaining := Counter(w3, a.owner) - 1;
    w' := w3.(sem := if remaining <= 0 then w3.sem - {a.owner} else w3.sem[a.owner := remaining]);
    ReleaseAlone(w3, w', rid, a, f, Uploaded(f.id));
  }

  // An upload of bytes the index does not know, every command succeeding: one row, its objects, one charge.
  lemma UploadStores(w: World, rid: ReqId, a: UploadArgs, f: Fate)
    requires Welcome(w, a, f) && f.saveOk && NoHit(w, a, f) && UuidsOk(a, f.id)
    requires a.thumb.Some? ==> ThumbnailError(a.thumb.value).None?
    ensures var (w', result) := UploadAlone(w, rid, a, Arriving, f);
      result == Uploaded(f.id) && StoredAs(w, w', a, f.id)
  {
    hide UploadAlone, UploadStep, AdmissionError, ThumbnailError, KeyOf, Charge, FreshRow, Stored, NewRow;
    var w1 := EnterAlone(w, rid, a, f);
    var w2 := w1.(objects := Stored(w1.objects, a, f.id), issued := w1.issued[f.id := OriginOf(w1, rid, a)]);
    StoreAlone(w1, w2, rid, a, f);
    var w3 := RecordAndRelease(w2, rid, a, f);
    SameNewRow(w, w2, a, f.id);
    assert w3.quota == w.quota[a.owner := Charge(RowOrFresh(w, a.owner), a.file.size)];
  }

  lemma SameNewRow(w: World, w': World, a: UploadArgs, id: MediaId)
    requires UuidsOk(a, id) && w'.now == w.now && w'.config == w.config
    ensures ExpiryOf(w', a) == ExpiryOf(w, a)
    ensures NewRow(w', a, id, ExpiryOf(w, a)) == NewRow(w, a, id, ExpiryOf(w, a))
  {}

  // ----- delete undoes upload -----

  /** The keys a new upload would use are free. */
  predicate KeysFree(objects: map<Path, Bytes>, a: UploadArgs, id: MediaId)
    requires UuidsOk(a, id)
  {
    BlobPath(a.context, a.owner, id) !in objects && ThumbPath(a.owner, id) !in objects
  }

  lemma RemoveUndoesStore(objects: map<Path, Bytes>, w: World, a: UploadArgs, id: MediaId)
    requires UuidsOk(a, id) && KeysFree(objects, a, id)
    ensures WithoutObjects(Stored(objects, a, id), RecordedRow(w, a, id)) == objects
  {
    hide BlobPath, ThumbPath, IsUuid, InitialAcl;
  }

  lemma DeleteAfter(w: World, rid: ReqId, id: MediaId, row: Media) returns (w': World)
    requires id in w.media && w.media[id] == row && row.isActive && row.ownerId in w.quota
        && ValidBlobSize(row.blobSize)
    ensures DeleteAlone(w, rid, id, row.ownerId, Finding, true) == (w', Deleted)
    ensures w' == w.(
      media := w.media[id := row.(isActive := false, history := History(row.history.recorded, Some(rid), true))],
      objects := WithoutObjects(w.objects, row),
      meta := w.meta - {id},
      quota := w.quota[row.ownerId := Refund(w.quota[row.ownerId], row.blobSize)],
      quotaCache := w.quotaCache - {row.ownerId})
  {
    hide DeleteAlone, DeleteStep, WithoutObjects, Refund;
    var requester := row.ownerId;
    var gone := row.(isActive := false, history := row.history.(deletedBy := Some(rid)));
    var w1 := w.(media := w.media[id := gone]);
    SoftDeleteAlone(w, w1, rid, id, requester, true);
    var w2 := w1.(objects := WithoutObjects(w.objects, row), meta := w.meta - {id});
    RemoveAlone(w1, w2, rid, id, requester, row, true);
    w' := w2.(
      quota := w.quota[requester := Refund(w.quota[requester], row.blobSize)],
      quotaCache := w.quotaCache - {requester},
      media := w.media[id := gone.(history := gone.history.(released := true))]);
    assert w'.media == w2.media[id := w2.media[id].(history := w2.media[id].history.(released := true))];
    RefundAlone(w2, w', rid, id, requester, row, true);
  }

  // Uploading new bytes and deleting the media again leaves the object store, everyone's storage and file count
  // and every other row as they were; the day's upload stays counted, and the bytes can be uploaded afresh.
  lemma DeleteUndoesUpload(w: World, rid: ReqId, a: UploadArgs, f: Fate, deleter: ReqId)
    requires Welcome(w, a, f) && f.saveOk && NoHit(w, a, f) && UuidsOk(a, f.id) && KeysFree(w.objects, a, f.id)
    requires a.thumb.Some? ==> ThumbnailError(a.thumb.value).None?
    ensures var (w1, uploaded) := UploadAlone(w, rid, a, Arriving, f);
      var (w2, deleted) := DeleteAlone(w1, deleter, f.id, a.owner, Finding, true);
      && uploaded == Uploaded(f.id) && deleted == Deleted
      && w2.objects == w.objects
      && w2.quota == w.quota[a.owner :=
                            RowOrFresh(w, a.owner).(dailyUploads := RowOrFresh(w, a.owner).dailyUploads + 1)]
      && w2.quotaCache == w.quotaCache - {a.owner} && w2.meta == w.meta - {f.id}
      && w2.media - {f.id} == w.media - {f.id} && ActiveRow(w2, f.id) == None
      && w2.dedup == w.dedup[KeyOf(a) := f.id]
      && forall reader :: MetaAlone(w2, f.id, reader).1 == MetaNotFound
  {
    hide UploadAlone, DeleteAlone, MetaAlone, Welcome, NoHit, KeysFree, UuidsOk, Stored, WithoutObjects, NewRow,
      Charge, Refund, RowOrFresh, KeyOf, ThumbnailError;
    UploadStores(w, rid, a, f);
    var w1 := UploadAlone(w, rid, a, Arriving, f).0;
    var row := RecordedRow(w, a, f.id);
    NewRowFields(w, a, f.id);
    var w2 := DeleteAfter(w1, deleter, f.id, row);
    RemoveUndoesStore(w.objects, w, a, f.id);
    RefundCharge(RowOrFresh(w, a.owner), a.file.size);
    forall reader ensures MetaAlone(w2, f.id, reader).1 == MetaNotFound {
      GoneIsNotFound(w2, f.id, reader);
    }
  }

  lemma GoneIsNotFound(w: World, id: MediaId, reader: UserId)
    requires id !in w.meta && ActiveRow(w, id) == None
    ensures MetaAlone(w, id, reader).1 == MetaNotFound
  {}

  lemma NewRowFields(w: World, a: UploadArgs, id: MediaId)
    requires UuidsOk(a, id)
    ensures var row := NewRow(w, a, id, ExpiryOf(w, a));
      row.isActive && row.ownerId == a.owner && row.blobSize == a.file.size
  {}

  // ----- a second upload of the same bytes -----

  /** The index leads these bytes to an active media with a well-formed list. */
  ghost predicate Hit(w: World, a: UploadArgs, f: Fate, id: MediaId) {
    && f.dedupHit && KeyOf(a) in w.dedup && w.dedup[KeyOf(a)] == id
    && ActiveRow(w, id).Some? && ActiveRow(w, id).value.ownerId == a.owner
    && NoDuplicates(Listed(ActiveRow(w, id).value.sharedWith))
  }

  lemma HitAlone(w: World, rid: ReqId, a: UploadArgs, f: Fate, id: MediaId) returns (w': World)
    requires AllGood(f) && Hit(w, a, f, id)
    ensures UploadAlone(w, rid, a, Checked, f) == UploadAlone(w', rid, a, Releasing(Uploaded(id)), f)
    ensures id in w'.media && w' == w.(media := w.media[id := w'.media[id]], meta := w'.meta)
    ensures w'.media[id] == w.media[id].(sharedWith := w'.media[id].sharedWith)
    ensures Listed(w'.media[id].sharedWith) == Union(Listed(w.media[id].sharedWith), a.sharedWith, a.owner)
  {
    hide UploadAlone, KeyOf, Union, NoDuplicates, Distinct;
    var row := w.media[id];
    var listed := Listed(row.sharedWith);
    var next := Union(listed, a.sharedWith, a.owner);
    SameLengthSameList(listed, a.sharedWith, a.owner);
    Unfold(w, rid, a, Checked, f, w, DedupHit(id));
    if a.sharedWith != [] && |next| != |listed| {
      var w1 := w.(media := w.media[id := row.(sharedWith := Some(next))]);
      w' := w1.(meta := w.meta - {id});
      Unfold(w, rid, a, DedupHit(id), f, w, MergeWrite(id, next));
      Unfold(w, rid, a, MergeWrite(id, next), f, w1, MergeUncache(id));
      Unfold(w1, rid, a, MergeUncache(id), f, w', Releasing(Uploaded(id)));
    } else {
      w' := w;
      Unfold(w, rid, a, DedupHit(id), f, w, Releasing(Uploaded(id)));
    }
  }

  // On a list without duplicates the merge's cheap test, and an empty request, mean that nothing changes.
  lemma SameLengthSameList(listed: seq<UserId>, users: seq<UserId>, owner: UserId)
    requires NoDuplicates(listed)
    ensures |Union(listed, users, owner)| == |listed| || users == [] ==> Union(listed, users, owner) == listed
  {
    UnionProps(listed, users, owner);
    DistinctProps(listed);
    var next := Union(listed, users, owner);
    if |next| == |listed| {
      assert next[..|listed|] == listed;
    }
  }

  // Uploading bytes that the index knows stores nothing and charges nothing: the answer is the media already
  // there, its list now the union of the two.
  lemma SecondUploadReuses(w: World, rid: ReqId, a: UploadArgs, f: Fate, id: MediaId)
    requires Welcome(w, a, f) && Hit(w, a, f, id)
    ensures var (w', result) := UploadAlone(w, rid, a, Arriving, f);
      && result == Uploaded(id)
      && w'.objects == w.objects && w'.dedup == w.dedup && w'.issued == w.issued
      && w'.quota == w.quota[a.owner := RowOrFresh(w, a.owner)]
      && id in w'.media && w'.media == w.media[id := w.media[id].(sharedWith := w'.media[id].sharedWith)]
      && Listed(w'.media[id].sharedWith) == Union(Listed(w.media[id].sharedWith), a.sharedWith, a.owner)
  {
    hide UploadAlone, UploadStep, AdmissionError, KeyOf, FreshRow, Union, NoDuplicates, Rehydrate;
    var w1 := EnterAlone(w, rid, a, f);
    var w2 := HitAlone(w1, rid, a, f, id);
    var remaining := Counter(w2, a.owner) - 1;
    var w3 := w2.(sem := if remaining <= 0 then w2.sem - {a.owner} else w2.sem[a.owner := remaining]);
    ReleaseAlone(w2, w3, rid, a, f, Uploaded(id));
  }

  // ----- a save that fails -----

  lemma CleanAlone(w: World, w': World, rid: ReqId, a: UploadArgs, f: Fate)
    requires f.blobCleanOk && f.thumbCleanOk && UuidsOk(a, f.id)
    requires w' == w.(objects := if a.thumb.None? then w.objects - {BlobPath(a.context, a.owner, f.id)}
                                 else w.objects - {BlobPath(a.context, a.owner, f.id)} - {ThumbPath(a.owner, f.id)})
    ensures UploadAlone(w, rid, a, CleanBlob(f.id), f)
         == UploadAlone(w', rid, a, Releasing(UploadFailed(SaveFailed(f.id, true))), f)
  {
    hide UploadAlone, BlobPath, ThumbPath, IsUuid;
    var w1 := w.(objects := w.objects - {BlobPath(a.context, a.owner, f.id)});
    if a.thumb.None? {
      Unfold(w, rid, a, CleanBlob(f.id), f, w', Releasing(UploadFailed(SaveFailed(f.id, true))));
    } else {
      Unfold(w, rid, a, CleanBlob(f.id), f, w1, CleanThumb(f.id, true));
      Unfold(w1, rid, a, CleanThumb(f.id, true), f, w', Releasing(UploadFailed(SaveFailed(f.id, true))));
    }
  }

  lemma CleanUndoesStore(objects: map<Path, Bytes>, a: UploadArgs, id: MediaId)
    requires UuidsOk(a, id) && KeysFree(objects, a, id)
    ensures objects == if a.thumb.None? then Stored(objects, a, id) - {BlobPath(a.context, a.owner, id)}
                       else Stored(objects, a, id) - {BlobPath(a.context, a.owner, id)} - {ThumbPath(a.owner, id)}
  {
    hide BlobPath, ThumbPath, IsUuid;
  }

  // When the row cannot be saved and both cleanup deletes succeed, the upload leaves no object and no row.
  lemma CleanedUploadLeavesNothing(w: World, rid: ReqId, a: UploadArgs, f: Fate)
    requires Welcome(w, a, f) && !f.saveOk && f.blobCleanOk && f.thumbCleanOk
    requires NoHit(w, a, f) && UuidsOk(a, f.id) && KeysFree(w.objects, a, f.id)
    requires a.thumb.Some? ==> ThumbnailError(a.thumb.value).None?
    ensures var (w', result) := UploadAlone(w, rid, a, Arriving, f);
      && result == UploadFailed(SaveFailed(f.id, true))
      && w'.objects == w.objects && w'.media == w.media && w'.dedup == w.dedup && w'.meta == w.meta
      && w'.quota == w.quota[a.owner := RowOrFresh(w, a.owner)]
  {
    hide UploadAlone, UploadStep, AdmissionError, ThumbnailError, KeyOf, FreshRow, Stored, KeysFree, UuidsOk;
    var w1 := EnterAlone(w, rid, a, f);
    var w2 := w1.(objects := Stored(w1.objects, a, f.id), issued := w1.issued[f.id := OriginOf(w1, rid, a)]);
    StoreAlone(w1, w2, rid, a, f);
    NotSavedAlone(w2, rid, a, f, ExpiryOf(w1, a));
    CleanUndoesStore(w.objects, a, f.id);
    var w3 := w2.(objects := w.objects);
    CleanAlone(w2, w3, rid, a, f);
    var remaining := Counter(w3, a.owner) - 1;
    var w4 := w3.(sem := if remaining <= 0 then w3.sem - {a.owner} else w3.sem[a.owner := remaining]);
    ReleaseAlone(w3, w4, rid, a, f, UploadFailed(SaveFailed(f.id, true)));
  }

  // ----- sharing, then reading -----

  /** The cached metadata of this media, if any, is what the table says. */
  predicate MetaAgrees(w: World, id: MediaId) {
    id in w.meta && id in w.media ==> w.meta[id] == EntryOf(id, w.media[id])
  }

  lemma ReadExact(w: World, id: MediaId, reader: UserId)
    requires ActiveRow(w, id).Some? && MetaAgrees(w, id)
    ensures var (w', read) := MetaAlone(w, id, reader);
      (read.Found? <==> RowReadable(w.media[id], reader)) && (read.Found? || read == MetaDenied) && MetaAgrees(w', id)
  {
    hide MayRead;
  }

  // Who finds the metadata of an active media: everybody for the image of a profile or a group, otherwise its owner and
  // the users on its list; all others are denied.
  lemma ReadersExact(w: World, id: MediaId, reader: UserId)
    requires id in w.media && w.media[id].isActive && (id in w.meta ==> w.meta[id] == EntryOf(id, w.media[id]))
    ensures var row, read := w.media[id], MetaAlone(w, id, reader).1;
      && (read.Found? <==> row.context in {Avatar, GroupIcon} || reader == row.ownerId
                           || (row.sharedWith.Some? && reader in row.sharedWith.value))
      && (!read.Found? <==> read == MetaDenied)
      && (read.Found? ==>
            read.dto == MetaDto(id, row.ownerId, row.context, row.contentType, row.blobSize, row.expiresAt,
                                true, row.createdAt, row.thumbnailPath.Some?))
  {}

  // And nobody finds one that is not there.
  lemma AbsentIsNotFound(w: World, id: MediaId, reader: UserId)
    requires id !in w.meta
    ensures MetaAlone(w, id, reader).1 == MetaNotFound <==> !(id in w.media && w.media[id].isActive)
  {}

  /** The column after a share. */
  function WrittenList(before: Option<seq<UserId>>, users: seq<UserId>, owner: UserId): Option<seq<UserId>> {
    var next := Union(Listed(before), users, owner);
    if |next| == |Distinct(Listed(before))| then before else if next == [] then None else Some(next)
  }

  lemma ShareAloneIs(w: World, id: MediaId, owner: UserId, users: seq<UserId>)
    requires ActiveRow(w, id).Some? && ActiveRow(w, id).value.ownerId == owner
    ensures var (w', shared) := ShareAlone(w, id, owner, users);
      && shared == Shared(Union(Listed(w.media[id].sharedWith), users, owner))
      && id in w'.media
      && w'.media[id] == w.media[id].(sharedWith := WrittenList(w.media[id].sharedWith, users, owner))
      && (w'.meta == w.meta - {id} || (w'.meta == w.meta && w'.media == w.media))
  {
    hide Union, Distinct, Listed;
    if |Union(Listed(w.media[id].sharedWith), users, owner)| == |Distinct(Listed(w.media[id].sharedWith))| {
      assert ShareAlone(w, id, owner, users).0 == w;
    }
  }

  lemma WrittenListAdmits(public: bool, owner: UserId, before: Option<seq<UserId>>, users: seq<UserId>, reader: UserId)
    requires reader != ""
    ensures MayRead(public, owner, WrittenList(before, users, owner), reader)
       <==> MayRead(public, owner, before, reader) || reader in users
  {
    hide Union, Distinct;
    ShareAdmits(public, owner, before, users, reader);
    UnionProps(Listed(before), users, owner);
    GrowthTests(Listed(before), users, owner);
  }

  // The share writes the union, or nothing when nobody is new; either way the readers are the same.
  lemma ShareExact(w: World, id: MediaId, owner: UserId, users: seq<UserId>, reader: UserId)
    requires ActiveRow(w, id).Some? && ActiveRow(w, id).value.ownerId == owner && MetaAgrees(w, id) && reader != ""
    ensures var (w', shared) := ShareAlone(w, id, owner, users);
      && shared == Shared(Union(Listed(w.media[id].sharedWith), users, owner))
      && ActiveRow(w', id).Some? && MetaAgrees(w', id)
      && (RowReadable(w'.media[id], reader) <==> RowReadable(w.media[id], reader) || reader in users)
  {
    hide Union, Distinct, EntryOf, MayRead, WrittenList, ShareAlone;
    var row := w.media[id];
    WrittenListAdmits(PublicReadable(row.context), owner, row.sharedWith, users, reader);
    ShareAloneIs(w, id, owner, users);
  }

  // After its owner shares a media, a metadata read finds it exactly for those who could read it before and
  // those just named.
  lemma ShareThenRead(w: World, id: MediaId, owner: UserId, users: seq<UserId>, reader: UserId)
    requires ActiveRow(w, id).Some? && ActiveRow(w, id).value.ownerId == owner && MetaAgrees(w, id) && reader != ""
    ensures var (w1, shared) := ShareAlone(w, id, owner, users);
      var (w2, read) := MetaAlone(w1, id, reader);
      && shared == Shared(Union(Listed(w.media[id].sharedWith), users, owner))
      && (read.Found? <==> MetaAlone(w, id, reader).1.Found? || reader in users)
      && (read.Found? || read == MetaDenied)
  {
    hide Union, ShareAlone, MetaAlone, RowReadable, MetaAgrees;
    ShareExact(w, id, owner, users, reader);
    ReadExact(w, id, reader);
    ReadExact(ShareAlone(w, id, owner, users).0, id, reader);
  }

  // ----- uploading, then reading -----

  lemma NewRowReaders(w: World, a: UploadArgs, id: MediaId, reader: UserId)
    requires UuidsOk(a, id) && reader != ""
    ensures RowReadable(RecordedRow(w, a, id), reader)
       <==> a.context != Message || reader == a.owner || reader in a.sharedWith
    ensures EntryOf(id, RecordedRow(w, a, id)).dto
         == MetaDto(id, a.owner, a.context, a.file.mime, a.file.size, RecordedRow(w, a, id).expiresAt, true, w.now,
                    a.thumb.Some?)
  {
    UnionProps([], a.sharedWith, a.owner);
    hide Union, BlobPath, ThumbPath, UuidsOk;
  }

  // After an upload of new bytes the media can be read exactly by its owner, the users named and, for the public
  // contexts, everyone; what they read is what was uploaded.
  lemma UploadThenRead(w: World, rid: ReqId, a: UploadArgs, f: Fate, reader: UserId)
    requires Welcome(w, a, f) && f.saveOk && NoHit(w, a, f) && UuidsOk(a, f.id) && f.id !in w.meta && reader != ""
    requires a.thumb.Some? ==> ThumbnailError(a.thumb.value).None?
    ensures var (w1, uploaded) := UploadAlone(w, rid, a, Arriving, f);
      var read := MetaAlone(w1, f.id, reader).1;
      && (read.Found? <==> a.context in {Avatar, GroupIcon} || reader == a.owner || reader in a.sharedWith)
      && (read.Found? || read == MetaDenied)
      && (read.Found? ==>
            && read.dto.id == f.id && read.dto.ownerId == a.owner && read.dto.context == a.context
            && read.dto.contentType == a.file.mime && read.dto.blobSize == a.file.size
            && read.dto.hasThumbnail == a.thumb.Some? && read.dto.createdAt == w.now)
  {
    hide UploadAlone, Welcome, NoHit, UuidsOk, Stored, NewRow, Charge, RowOrFresh, KeyOf, ThumbnailError,
      RowReadable, EntryOf;
    UploadStores(w, rid, a, f);
    NewRowFields(w, a, f.id);
    NewRowReaders(w, a, f.id, reader);
    TableRead(UploadAlone(w, rid, a, Arriving, f).0, f.id, reader);
  }

  // A read that misses the cache answers from the row.
  lemma TableRead(w: World, id: MediaId, reader: UserId)
    requires id !in w.meta && ActiveRow(w, id).Some?
    ensures MetaAlone(w, id, reader).1
         == if RowReadable(w.media[id], reader) then Found(EntryOf(id, w.media[id]).dto) else MetaDenied
  {
    hide RowReadable, EntryOf;
  }

  // The conditions of these lemmas can be met: the first upload of an empty service.
  lemma WelcomeIsPossible() returns (w: World, a: UploadArgs, f: Fate)
    ensures Welcome(w, a, f) && f.saveOk && NoHit(w, a, f) && UuidsOk(a, f.id) && KeysFree(w.objects, a, f.id)
    ensures a.thumb.None? && f.id !in w.meta
  {
    IdIsUuid('0');
    IdIsUuid('1');
    assert OWNER == Id('0');
    w, a := START.w, BigArgs(0, []);
    f := Fate(true, true, true, true, true, true, true, true, true,
              Id('1'), true, true, true, true, true, true, true, true);
    hide IsUuid, BigArgs, Verdict, MagicOk, Allowlist, BlobPath, ThumbPath;
    BigFacts(a);
    BigPasses(a, ONE_UPLOAD);
    assert Seen(w, a, f) == ONE_UPLOAD;
    assert Verdict(ONE_UPLOAD, UPLOAD_MAX_BYTES) == Allowed;
  }
}

/**
 * What an upload answers, told check by check in the order of the code, against the steps of an upload alone.
 *
 * `Refusal` is the first check to fail before the dedup lookup and `StoreAnswer` the fate of new bytes. Together they
 * give the answer of every upload, and an upload refused by a check has stored nothing.
 */
module Outcomes {
  import opened Base
  import opened Paths
  import opened Quota
  import opened Acl
  import opened Admission
  import opened Protocol
  import opened Sequential
  import opened AloneSteps
  import opened RoundTrips

  function QuotaRefusal(q: QuotaRow, size: int): Option<UploadError> {
    if q.storageUsed + size > q.storageLimit then Some(QuotaExceeded(StorageExceeded))
    else if q.filesLimit <= q.filesCount then Some(QuotaExceeded(FilesExceeded))
    else if q.dailyUploadLimit <= q.dailyUploads then Some(QuotaExceeded(DailyExceeded))
    else None
  }

  /** A message may have 100 MB, the image of a profile or a group 5 MB. */
  function FileRefusal(a: UploadArgs): Option<UploadError> {
    if a.file.size > (if a.context == Message then 104_857_600 else 5_242_880) then Some(TooLarge)
    else if !MagicOk(a.file.content, a.file.mime) || a.file.mime !in Allowlist(a.context) then Some(UnsupportedType)
    else None
  }

  /** The first check that refuses the upload before its bytes are looked up; None when it passes them all. */
  function Refusal(w: World, a: UploadArgs, f: Fate): Option<UploadError> {
    if Counter(w, a.owner) >= 3 then Some(TooManyRequests) else GateRefusal(w, a, f)
  }

  /** The checks that follow once the upload has its slot. */
  function GateRefusal(w: World, a: UploadArgs, f: Fate): Option<UploadError> {
    if a.context == GroupIcon && !f.authorised then Some(NotAuthorized)
    else if !(0 <= a.file.size <= 9_007_199_254_740_991) then Some(InvalidSize)
    else if !(a.owner in w.quotaCache && f.quotaHit) && !f.quotaTableOk then Some(CommandFailed)
    else if QuotaRefusal(Seen(w, a, f), a.file.size).Some? then QuotaRefusal(Seen(w, a, f), a.file.size)
    else if FileRefusal(a).Some? then FileRefusal(a)
    else if !f.safe then Some(Unsafe)
    else None
  }

  function ThumbnailRefusal(t: File): Option<UploadError> {
    if MagicOk(t.content, t.mime) && t.mime in IMAGE_TYPES then if t.size <= 5_242_880 then None else Some(TooLarge)
    else Some(UnsupportedType)
  }

  /** The answer for bytes that are to be stored afresh; `charged`: the user has a row to charge. */
  function StoreAnswer(a: UploadArgs, f: Fate, charged: bool): UploadResult {
    if !(f.putOk && IsUuid(a.owner) && IsUuid(f.id)) then UploadFailed(CommandFailed)
    else if a.thumb.Some? && ThumbnailRefusal(a.thumb.value).Some? then
      UploadFailed(ThumbnailRefusal(a.thumb.value).value)
    else if a.thumb.Some? && !f.thumbPutOk then UploadFailed(CommandFailed)
    else if !f.saveOk then UploadFailed(SaveFailed(f.id, f.blobCleanOk && (a.thumb.Some? ==> f.thumbCleanOk)))
    else if f.indexOk && f.recordOk && charged then Uploaded(f.id)
    else UploadFailed(CommandFailed)
  }

  /** The upload finds its bytes in the index. */
  predicate Finds(w: World, a: UploadArgs, f: Fate) {
    f.dedupHit && DedupKey(a.owner, a.context, a.file.content) in w.dedup
  }

  function Outcome(w: World, a: UploadArgs, f: Fate): UploadResult {
    var charged := a.owner in w.quota || !(a.owner in w.quotaCache && f.quotaHit);
    if Refusal(w, a, f).Some? then UploadFailed(Refusal(w, a, f).value)
    else if !Finds(w, a, f) then StoreAnswer(a, f, charged)
    else
      var id := w.dedup[DedupKey(a.owner, a.context, a.file.content)];
      if !f.findOk then UploadFailed(CommandFailed)
      else if !(id in w.media && w.media[id].isActive) then StoreAnswer(a, f, charged)
      else
        var listed := Listed(w.media[id].sharedWith);
        if a.sharedWith != [] && |Union(listed, a.sharedWith, w.media[id].ownerId)| != |listed|
           && !(f.mergeOk && f.uncacheOk)
        then UploadFailed(CommandFailed) else Uploaded(id)
  }

  /** Nothing but slots, the user's quota row, created at most, and its cached copy has changed. */
  ghost predicate NothingStored(w: World, w': World, u: UserId) {
    && w'.objects == w.objects && w'.media == w.media && w'.dedup == w.dedup && w'.meta == w.meta
    && w'.issued == w.issued && w'.log == w.log
    && (w'.quota == w.quota || (u !in w.quota && w'.quota == w.quota[u := FreshRow(Today(w))]))
  }

  // ----- the parts -----

  lemma Ends(w: World, rid: ReqId, a: UploadArgs, f: Fate, result: UploadResult)
    ensures var (w', r) := UploadAlone(w, rid, a, Releasing(result), f); r == result && w' == w.(sem := w'.sem)
  {
    hide UploadAlone;
    var remaining := Counter(w, a.owner) - 1;
    ReleaseAlone(w, w.(sem := if remaining <= 0 then w.sem - {a.owner} else w.sem[a.owner := remaining]),
                 rid, a, f, result);
  }

  lemma DecidesSo(a: UploadArgs, q: QuotaRow)
    ensures Decide(a, q) == Onward(if QuotaRefusal(q, a.file.size).Some? then QuotaRefusal(q, a.file.size)
                                   else FileRefusal(a), Checked)
  {
    hide MagicOk, Allowlist;
  }

  /** How far an upload gets before its bytes are looked up. */
  function Before(error: Option<UploadError>, safe: bool): UploadPc {
    if error.Some? && (error.value != Unsafe || safe) then Releasing(UploadFailed(error.value)) else Checked
  }

  // The quota read of an authorised upload of a valid size, and the decision on the row.
  lemma ReadAlone(w: World, rid: ReqId, a: UploadArgs, f: Fate) returns (w': World)
    requires (a.context == GroupIcon ==> f.authorised) && ValidBlobSize(a.file.size)
    requires (a.owner in w.quotaCache && f.quotaHit) || f.quotaTableOk
    ensures var row := Seen(w, a, f);
      UploadAlone(w, rid, a, Admitted, f)
      == UploadAlone(w', rid, a, Onward(if QuotaRefusal(row, a.file.size).Some? then QuotaRefusal(row, a.file.size)
                                        else FileRefusal(a), Checked), f)
    ensures w' == w.(quota := w'.quota, quotaCache := w'.quotaCache)
    ensures w'.quota == w.quota || (a.owner !in w.quota && w'.quota == w.quota[a.owner := FreshRow(Today(w))])
    ensures a.owner in w'.quota <==> a.owner in w.quota || !(a.owner in w.quotaCache && f.quotaHit)
  {
    hide UploadAlone, UploadStep, Decide, QuotaRefusal, FileRefusal, FreshRow, Rehydrate, Dehydrate, ValidBlobSize;
    var u, row := a.owner, Seen(w, a, f);
    w' := if u in w.quotaCache && f.quotaHit then w else
      w.(quota := w.quota[u := row],
         quotaCache := if f.quotaSetOk then w.quotaCache[u := Dehydrate(row)] else w.quotaCache);
    AdmissionAlone(w, w', rid, a, f, Some(row));
    DecidesSo(a, row);
  }

  // From the slot to the content-safety checks.
  lemma GateAlone(w: World, rid: ReqId, a: UploadArgs, f: Fate) returns (w': World)
    ensures UploadAlone(w, rid, a, Admitted, f) == UploadAlone(w', rid, a, Before(GateRefusal(w, a, f), f.safe), f)
    ensures w' == w.(quota := w'.quota, quotaCache := w'.quotaCache)
    ensures w'.quota == w.quota || (a.owner !in w.quota && w'.quota == w.quota[a.owner := FreshRow(Today(w))])
    ensures Before(GateRefusal(w, a, f), f.safe).Checked? ==>
      (a.owner in w'.quota <==> a.owner in w.quota || !(a.owner in w.quotaCache && f.quotaHit))
  {
    hide UploadAlone, UploadStep, Decide, QuotaRefusal, FileRefusal, FreshRow, Seen, Dehydrate;
    if (a.context == GroupIcon && !f.authorised) || !ValidBlobSize(a.file.size) {
      NotAdmittedAlone(w, rid, a, f);
      w' := w;
    } else if !(a.owner in w.quotaCache && f.quotaHit) && !f.quotaTableOk {
      AdmissionAlone(w, w, rid, a, f, None);
      w' := w;
    } else {
      w' := ReadAlone(w, rid, a, f);
      NeverUnsafe(Seen(w, a, f), a);
    }
  }

  lemma SameGate(w: World, w': World, a: UploadArgs, f: Fate)
    requires w' == w.(sem := w'.sem)
    ensures GateRefusal(w', a, f) == GateRefusal(w, a, f)
  {
    hide QuotaRefusal, FileRefusal, FreshRow, Rehydrate;
  }

  lemma ChecksAlone(w: World, rid: ReqId, a: UploadArgs, f: Fate) returns (w': World)
    requires Counter(w, a.owner) < 3
    ensures UploadAlone(w, rid, a, Arriving, f) == UploadAlone(w', rid, a, Before(Refusal(w, a, f), f.safe), f)
    ensures NothingStored(w, w', a.owner)
    ensures Before(Refusal(w, a, f), f.safe).Checked? ==>
      (a.owner in w'.quota <==> a.owner in w.quota || !(a.owner in w.quotaCache && f.quotaHit))
  {
    hide UploadAlone, UploadStep, GateRefusal, FreshRow;
    var w1 := w.(sem := w.sem[a.owner := Counter(w, a.owner) + 1]);
    AcquireAlone(w, w1, rid, a, f);
    SameGate(w, w1, a, f);
    w' := GateAlone(w1, rid, a, f);
  }

  lemma NeverUnsafe(q: QuotaRow, a: UploadArgs)
    ensures QuotaRefusal(q, a.file.size) != Some(Unsafe) && FileRefusal(a) != Some(Unsafe)
  {}

  lemma ThumbnailSo(t: File)
    ensures ThumbnailError(t) == ThumbnailRefusal(t)
  {
    hide MagicOk;
  }

  lemma UnsavedAlone(w: World, rid: ReqId, a: UploadArgs, f: Fate, expiresAt: Option<int>)
    requires !f.saveOk && UuidsOk(a, f.id)
    ensures UploadAlone(w, rid, a, ReadyToSave(f.id, expiresAt), f).1
         == UploadFailed(SaveFailed(f.id, f.blobCleanOk && (a.thumb.Some? ==> f.thumbCleanOk)))
  {
    hide UploadAlone, BlobPath, ThumbPath, IsUuid;
    UuidsOkExact(a, f.id);
    NotSavedAlone(w, rid, a, f, expiresAt);
    var w1 := if f.blobCleanOk then w.(objects := w.objects - {BlobPath(a.context, a.owner, f.id)}) else w;
    var cleaned := f.blobCleanOk && (a.thumb.Some? ==> f.thumbCleanOk);
    if a.thumb.None? {
      Unfold(w, rid, a, CleanBlob(f.id), f, w1, Releasing(UploadFailed(SaveFailed(f.id, cleaned))));
      Ends(w1, rid, a, f, UploadFailed(SaveFailed(f.id, cleaned)));
    } else {
      var w2 := if f.thumbCleanOk then w1.(objects := w1.objects - {ThumbPath(a.owner, f.id)}) else w1;
      Unfold(w, rid, a, CleanBlob(f.id), f, w1, CleanThumb(f.id, f.blobCleanOk));
      Unfold(w1, rid, a, CleanThumb(f.id, f.blobCleanOk), f, w2, Releasing(UploadFailed(SaveFailed(f.id, cleaned))));
      Ends(w2, rid, a, f, UploadFailed(SaveFailed(f.id, cleaned)));
    }
  }

  lemma SavedAlone(w: World, rid: ReqId, a: UploadArgs, f: Fate, expiresAt: Option<int>)
    requires f.saveOk && UuidsOk(a, f.id) && ValidBlobSize(a.file.size)
    ensures UploadAlone(w, rid, a, ReadyToSave(f.id, expiresAt), f).1
         == if f.indexOk && f.recordOk && a.owner in w.quota then Uploaded(f.id) else UploadFailed(CommandFailed)
  {
    hide UploadAlone, UploadStep, UuidsOk, NewRow, KeyOf, Charge;
    var w1 := w.(media := w.media[f.id := NewRow(w, a, f.id, expiresAt)]);
    SaveAlone(w, w1, rid, a, f, expiresAt);
    if !f.indexOk {
      IndexFails(w1, rid, a, f);
      Ends(w1, rid, a, f, UploadFailed(CommandFailed));
    } else {
      var w2 := w1.(dedup := w1.dedup[KeyOf(a) := f.id]);
      IndexAlone(w1, w2, rid, a, f);
      if f.recordOk && a.owner in w.quota {
        var w3 := w2.(
          quota := w2.quota[a.owner := Charge(w2.quota[a.owner], a.file.size)],
          quotaCache := if f.flushOk then w2.quotaCache - {a.owner} else w2.quotaCache,
          media := w2.media[f.id := w2.media[f.id].(history := w2.media[f.id].history.(recorded := true))],
          log := w2.log + [UploadCommit(a.owner)]);
        RecordAlone(w2, w3, rid, a, f);
        Ends(w3, rid, a, f, Uploaded(f.id));
      } else {
        NotRecordedAlone(w2, rid, a, f);
        Ends(w2, rid, a, f, UploadFailed(CommandFailed));
      }
    }
  }

  lemma IndexFails(w: World, rid: ReqId, a: UploadArgs, f: Fate)
    requires !f.indexOk
    ensures UploadAlone(w, rid, a, Saved(f.id), f)
         == UploadAlone(w, rid, a, Releasing(UploadFailed(CommandFailed)), f)
  {
    hide UploadAlone;
    Unfold(w, rid, a, Saved(f.id), f, w, Releasing(UploadFailed(CommandFailed)));
  }

  lemma ReadyAlone(w: World, rid: ReqId, a: UploadArgs, f: Fate, expiresAt: Option<int>)
    requires UuidsOk(a, f.id) && ValidBlobSize(a.file.size)
    ensures UploadAlone(w, rid, a, ReadyToSave(f.id, expiresAt), f).1
         == if !f.saveOk then UploadFailed(SaveFailed(f.id, f.blobCleanOk && (a.thumb.Some? ==> f.thumbCleanOk)))
            else if f.indexOk && f.recordOk && a.owner in w.quota then Uploaded(f.id)
            else UploadFailed(CommandFailed)
  {
    hide UploadAlone, ValidBlobSize, UuidsOk;
    if f.saveOk {
      SavedAlone(w, rid, a, f, expiresAt);
    } else {
      UnsavedAlone(w, rid, a, f, expiresAt);
    }
  }

  lemma StoreAnswered(w: World, rid: ReqId, a: UploadArgs, f: Fate)
    requires ValidBlobSize(a.file.size)
    ensures UploadAlone(w, rid, a, Fresh, f).1 == StoreAnswer(a, f, a.owner in w.quota)
  {
    UuidsOkExact(a, f.id);
    hide UploadAlone, UuidsOk, BlobPath, ThumbPath, IsUuid, ThumbnailError, ThumbnailRefusal, ValidBlobSize;
    if !f.putOk || !UuidsOk(a, f.id) {
      Unfold(w, rid, a, Fresh, f, w, Releasing(UploadFailed(CommandFailed)));
      Ends(w, rid, a, f, UploadFailed(CommandFailed));
    } else {
      var w1 := w.(objects := w.objects[BlobPath(a.context, a.owner, f.id) := a.file.content],
                   issued := w.issued[f.id := OriginOf(w, rid, a)]);
      Unfold(w, rid, a, Fresh, f, w1, BlobPut(f.id));
      ThumbnailAnswered(w1, rid, a, f);
    }
  }

  lemma ThumbnailAnswered(w: World, rid: ReqId, a: UploadArgs, f: Fate)
    requires ValidBlobSize(a.file.size) && UuidsOk(a, f.id) && f.putOk
    ensures UploadAlone(w, rid, a, BlobPut(f.id), f).1 == StoreAnswer(a, f, a.owner in w.quota)
  {
    UuidsOkExact(a, f.id);
    hide UploadAlone, UploadStep, UuidsOk, ThumbPath, IsUuid, ThumbnailError, ThumbnailRefusal, ValidBlobSize;
    if a.thumb.None? {
      NoThumbnailAlone(w, rid, a, f);
      ReadyAlone(w, rid, a, f, ExpiryOf(w, a));
    } else {
      ThumbnailSo(a.thumb.value);
      var invalid := ThumbnailError(a.thumb.value);
      var error := if invalid.None? && !f.thumbPutOk then Some(CommandFailed) else invalid;
      var w1 := if error.Some? then w else w.(objects := w.objects[ThumbPath(a.owner, f.id) := a.thumb.value.content]);
      ThumbnailAlone(w, w1, rid, a, f, error);
      if error.Some? {
        Ends(w1, rid, a, f, UploadFailed(error.value));
      } else {
        ReadyAlone(w1, rid, a, f, ExpiryOf(w, a));
      }
    }
  }

  // ----- the answer -----

  // An upload refused by a check answers with the first check that failed and has stored nothing.
  lemma RefusedExact(w: World, rid: ReqId, a: UploadArgs, f: Fate)
    requires Refusal(w, a, f).Some?
    ensures var (w', result) := UploadAlone(w, rid, a, Arriving, f);
      result == UploadFailed(Refusal(w, a, f).value) && NothingStored(w, w', a.owner)
  {
    hide UploadAlone, UploadStep, QuotaRefusal, FileRefusal, FreshRow, Rehydrate;
    if Counter(w, a.owner) >= 3 {
      AcquireAlone(w, w.(sem := w.sem[a.owner := Counter(w, a.owner)]), rid, a, f);
    } else {
      NeverUnsafe(Seen(w, a, f), a);
      var w1 := ChecksAlone(w, rid, a, f);
      if Before(Refusal(w, a, f), f.safe).Checked? {
        UnsafeAlone(w1, rid, a, f);
      }
      Ends(w1, rid, a, f, UploadFailed(Refusal(w, a, f).value));
    }
  }

  lemma UnsafeAlone(w: World, rid: ReqId, a: UploadArgs, f: Fate)
    requires !f.safe
    ensures UploadAlone(w, rid, a, Checked, f) == UploadAlone(w, rid, a, Releasing(UploadFailed(Unsafe)), f)
  {
    hide UploadAlone;
    Unfold(w, rid, a, Checked, f, w, Releasing(UploadFailed(Unsafe)));
  }

  // Past the checks: reuse of what the index finds, or storing afresh.
  lemma LookupAnswered(w: World, rid: ReqId, a: UploadArgs, f: Fate)
    requires ValidBlobSize(a.file.size) && f.safe
    ensures var stored := StoreAnswer(a, f, a.owner in w.quota);
      UploadAlone(w, rid, a, Checked, f).1 ==
        if !Finds(w, a, f) then stored
        else
          var id := w.dedup[DedupKey(a.owner, a.context, a.file.content)];
          if !f.findOk then UploadFailed(CommandFailed)
          else if !(id in w.media && w.media[id].isActive) then stored
          else
            var listed := Listed(w.media[id].sharedWith);
            if a.sharedWith != [] && |Union(listed, a.sharedWith, w.media[id].ownerId)| != |listed|
               && !(f.mergeOk && f.uncacheOk)
            then UploadFailed(CommandFailed) else Uploaded(id)
  {
    hide UploadAlone, Union, StoreAnswer, ValidBlobSize;
    StoreAnswered(w, rid, a, f);
    if !Finds(w, a, f) {
      Unfold(w, rid, a, Checked, f, w, Fresh);
      return;
    }
    var id := w.dedup[KeyOf(a)];
    Unfold(w, rid, a, Checked, f, w, DedupHit(id));
    if !f.findOk {
      Unfold(w, rid, a, DedupHit(id), f, w, Releasing(UploadFailed(CommandFailed)));
      Ends(w, rid, a, f, UploadFailed(CommandFailed));
    } else if !(id in w.media && w.media[id].isActive) {
      Unfold(w, rid, a, DedupHit(id), f, w, Fresh);
    } else {
      var listed := Listed(w.media[id].sharedWith);
      var next := Union(listed, a.sharedWith, w.media[id].ownerId);
      if a.sharedWith != [] && |next| != |listed| {
        Unfold(w, rid, a, DedupHit(id), f, w, MergeWrite(id, next));
        MergeAnswered(w, rid, a, f, id, next);
      } else {
        Unfold(w, rid, a, DedupHit(id), f, w, Releasing(Uploaded(id)));
        Ends(w, rid, a, f, Uploaded(id));
      }
    }
  }

  lemma MergeAnswered(w: World, rid: ReqId, a: UploadArgs, f: Fate, id: MediaId, next: seq<UserId>)
    requires id in w.media
    ensures UploadAlone(w, rid, a, MergeWrite(id, next), f).1
         == if f.mergeOk && f.uncacheOk then Uploaded(id) else UploadFailed(CommandFailed)
  {
    hide UploadAlone;
    var failed := Releasing(UploadFailed(CommandFailed));
    if !f.mergeOk {
      Unfold(w, rid, a, MergeWrite(id, next), f, w, failed);
      Ends(w, rid, a, f, UploadFailed(CommandFailed));
      return;
    }
    var w1 := w.(media := w.media[id := w.media[id].(sharedWith := Some(next))]);
    Unfold(w, rid, a, MergeWrite(id, next), f, w1, MergeUncache(id));
    if !f.uncacheOk {
      Unfold(w1, rid, a, MergeUncache(id), f, w1, failed);
      Ends(w1, rid, a, f, UploadFailed(CommandFailed));
    } else {
      var w2 := w1.(meta := w1.meta - {id});
      Unfold(w1, rid, a, MergeUncache(id), f, w2, Releasing(Uploaded(id)));
      Ends(w2, rid, a, f, Uploaded(id));
    }
  }

  // Both at once, for a caller.
  lemma UploadAnswers(w: World, rid: ReqId, a: UploadArgs, f: Fate)
    ensures var (w', result) := UploadAlone(w, rid, a, Arriving, f);
      result == Outcome(w, a, f) && (Refusal(w, a, f).Some? ==> NothingStored(w, w', a.owner))
  {
    hide UploadAlone, Outcome, Refusal, NothingStored;
    OutcomeExact(w, rid, a, f);
    if Refusal(w, a, f).Some? {
      RefusedExact(w, rid, a, f);
    }
  }

  // Every upload answers as the table of checks says, whatever the stores hold and whichever commands fail.
  lemma OutcomeExact(w: World, rid: ReqId, a: UploadArgs, f: Fate)
    ensures UploadAlone(w, rid, a, Arriving, f).1 == Outcome(w, a, f)
  {
    hide UploadAlone, UploadStep, QuotaRefusal, FileRefusal, FreshRow, Rehydrate, Union, StoreAnswer;
    if Refusal(w, a, f).Some? {
      RefusedExact(w, rid, a, f);
    } else {
      var w1 := ChecksAlone(w, rid, a, f);
      LookupAnswered(w1, rid, a, f);
    }
  }
}

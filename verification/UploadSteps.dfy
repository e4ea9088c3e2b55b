/** Every step of an upload keeps the invariant and the guarantee. */
module UploadSteps {
  import opened Base
  import opened Paths
  import opened Quota
  import opened Acl
  import opened Admission
  import opened SignedUrls
  import opened Protocol
  import opened Invariant
  import opened StoreChanges

  predicate QuietPc(pc: UploadPc) {
    || pc.Arriving? || pc.Rejecting? || pc.Admitted? || pc.QuotaRead? || pc.Checked? || pc.DedupHit?
    || pc.MergeUncache? || pc.Recorded? || pc.Releasing? || pc.DroppingKey? || pc.UploadDone?
  }

  lemma QuietStores(w: World, rid: ReqId, a: UploadArgs, pc: UploadPc, ch: Choice)
    requires QuietPc(pc)
    requires CacheHasRows(w) && (pc.QuotaRead? ==> a.owner in w.quota)
    ensures SameStores(w, UploadStep(w, rid, a, pc, ch).0)
    ensures CacheHasRows(UploadStep(w, rid, a, pc, ch).0)
  {
    hide AdmissionError, ThumbnailError, UuidsOk, NewRow, BlobPath, ThumbPath, KeyOf,
      FreshRow, Dehydrate, Rehydrate, Union;
  }

  lemma AdmissionPasses(a: UploadArgs, q: QuotaRow)
    requires ValidBlobSize(a.file.size)
    ensures Decide(a, q) == Checked ==> PassedChecks(a)
    ensures Decide(a, q) != Checked ==> Decide(a, q).Releasing? && Decide(a, q).result.UploadFailed?
                                        && !Decide(a, q).result.error.SaveFailed?
  {}

  lemma LocalCarries(w: World, w': World, rid: ReqId, a: UploadArgs, pc: UploadPc)
    requires SameStores(w, w') && UploadLocal(w, rid, a, pc)
    ensures UploadLocal(w', rid, a, pc)
  {}

  lemma CheckLocal(w: World, rid: ReqId, a: UploadArgs, pc: UploadPc, ch: Choice)
    requires pc.Admitted? || pc.QuotaRead?
    requires StoreInv(w) && UploadLocal(w, rid, a, pc)
    ensures UploadLocal(w, rid, a, UploadStep(w, rid, a, pc, ch).1)
  {
    if pc.QuotaRead? {
      AdmissionPasses(a, pc.row);
    } else if ValidBlobSize(a.file.size) && a.owner in w.quotaCache {
      AdmissionPasses(a, Rehydrate(w.quotaCache[a.owner]));
    }
  }

  lemma DedupLocal(w: World, rid: ReqId, a: UploadArgs, pc: UploadPc, ch: Choice)
    requires pc.Checked? || pc.DedupHit?
    requires StoreInv(w) && UploadLocal(w, rid, a, pc)
    ensures UploadLocal(w, rid, a, UploadStep(w, rid, a, pc, ch).1)
  {
    if pc.Checked? {
      if KeyOf(a) in w.dedup {
        assert Matches(w, w.dedup[KeyOf(a)], KeyOf(a));
      }
    } else {
      UnionWellFormed(Listed(w.media[pc.id].sharedWith), a.sharedWith, a.owner);
    }
  }

  lemma TailLocal(w: World, rid: ReqId, a: UploadArgs, pc: UploadPc, ch: Choice)
    requires QuietPc(pc) && !pc.Admitted? && !pc.QuotaRead? && !pc.Checked? && !pc.DedupHit?
    requires StoreInv(w) && UploadLocal(w, rid, a, pc)
    ensures UploadLocal(w, rid, a, UploadStep(w, rid, a, pc, ch).1)
  {
    hide StoreInv, Guarantee, ObjectIdOf, BlobPath, ThumbPath, IsUuid, ThumbnailError, Admissible, Dated;
  }

  lemma QuietStep(w: World, rid: ReqId, a: UploadArgs, pc: UploadPc, ch: Choice)
    requires QuietPc(pc) && StoreInv(w) && UploadLocal(w, rid, a, pc)
    ensures var (w', pc') := UploadStep(w, rid, a, pc, ch); StepFine(w, w', rid, Upload(a, pc'))
  {
    hide StoreInv, Guarantee, ObjectIdOf, BlobPath, ThumbPath, IsUuid, ThumbnailError, Admissible, Dated;
    var (w', pc') := UploadStep(w, rid, a, pc, ch);
    CacheRows(w);
    QuietStores(w, rid, a, pc, ch);
    SameStoresKeep(w, w');
    SameStoresGuarantee(w, w', rid);
    if pc.Admitted? || pc.QuotaRead? {
      CheckLocal(w, rid, a, pc, ch);
    } else if pc.Checked? || pc.DedupHit? {
      DedupLocal(w, rid, a, pc, ch);
    } else {
      TailLocal(w, rid, a, pc, ch);
    }
    LocalCarries(w, w', rid, a, pc');
  }

  lemma QuotaMissStep(w: World, rid: ReqId, a: UploadArgs, ch: Choice)
    requires StoreInv(w) && UploadLocal(w, rid, a, QuotaMiss)
    ensures var (w', pc') := UploadStep(w, rid, a, QuotaMiss, ch); StepFine(w, w', rid, Upload(a, pc'))
  {
    var (w', pc') := UploadStep(w, rid, a, QuotaMiss, ch);
    assert w' == w.(quota := w'.quota);
    MoreQuotaRows(w, w');
    QuotaGuarantee(w, w', rid);
    hide StoreInv, Guarantee, FreshRow;
  }

  lemma MergeWriteStep(w: World, rid: ReqId, a: UploadArgs, pc: UploadPc, ch: Choice)
    requires pc.MergeWrite? && StoreInv(w) && UploadLocal(w, rid, a, pc)
    ensures var (w', pc') := UploadStep(w, rid, a, pc, ch); StepFine(w, w', rid, Upload(a, pc'))
  {
    hide StoreInv, Guarantee, WellFormed, ExpiryBounded, RowShape, Backed, PassedChecks, ObjectIdOf;
    var (w', pc') := UploadStep(w, rid, a, pc, ch);
    if ch.ok {
      var row := w.media[pc.id].(sharedWith := Some(pc.next));
      RowFacts(w, pc.id);
      RowRewritten(w, w', pc.id, row);
      RewriteGuarantee(w, w', rid, pc.id, row);
      assert pc' == MergeUncache(pc.id);
      assert Matches(w', pc.id, KeyOf(a));
      assert UploadLocal(w', rid, a, pc');
    } else {
      SameStoresGuarantee(w, w', rid);
      assert pc' == Releasing(UploadFailed(CommandFailed));
      assert UploadLocal(w', rid, a, pc');
    }
  }

  lemma FreshStep(w: World, rid: ReqId, a: UploadArgs, ch: Choice)
    requires StoreInv(w) && UploadLocal(w, rid, a, Fresh)
    requires IsUuid(ch.id) && ch.id !in w.issued
    ensures var (w', pc') := UploadStep(w, rid, a, Fresh, ch); StepFine(w, w', rid, Upload(a, pc'))
  {
    hide StoreInv, Guarantee, ObjectIdOf, BlobPath, ThumbPath, IsUuid, ThumbnailError, Admissible, Dated;
    var (w', pc') := UploadStep(w, rid, a, Fresh, ch);
    if ch.ok && IsUuid(a.owner) {
      NoRowUnissued(w, ch.id);
      PathIds(a.context, a.owner, ch.id);
      assert TouchesObjectsOf(w, w', rid, ch.id);
      ObjectsTouched(w, w', rid, ch.id);
      TouchGuarantee(w, w', rid, ch.id);
      assert pc' == BlobPut(ch.id);
      assert UploadLocal(w', rid, a, pc');
    } else {
      SameStoresGuarantee(w, w', rid);
      assert pc' == Releasing(UploadFailed(CommandFailed));
      assert UploadLocal(w', rid, a, pc');
    }
  }

  lemma NoRowUnissued(w: World, id: MediaId)
    requires StoreInv(w) && id !in w.issued
    ensures id !in w.media
  {}

  lemma ThumbnailErrorKind(t: File)
    ensures ThumbnailError(t).Some? ==> !ThumbnailError(t).value.SaveFailed?
  {}

  lemma BlobPutStep(w: World, rid: ReqId, a: UploadArgs, pc: UploadPc, ch: Choice)
    requires pc.BlobPut? && StoreInv(w) && UploadLocal(w, rid, a, pc)
    ensures var (w', pc') := UploadStep(w, rid, a, pc, ch); StepFine(w, w', rid, Upload(a, pc'))
  {
    hide StoreInv, Guarantee, ObjectIdOf, BlobPath, ThumbPath, IsUuid, ThumbnailError, Admissible, Dated;
    var (w', pc') := UploadStep(w, rid, a, pc, ch);
    if a.thumb.Some? && ThumbnailError(a.thumb.value).None? && ch.ok {
      PathIds(a.context, a.owner, pc.id);
      assert TouchesObjectsOf(w, w', rid, pc.id);
      ObjectsTouched(w, w', rid, pc.id);
      TouchGuarantee(w, w', rid, pc.id);
      assert pc' == ReadyToSave(pc.id, ExpiryOf(w, a));
      assert UploadLocal(w', rid, a, pc');
    } else {
      SameStoresGuarantee(w, w', rid);
      if a.thumb.Some? {
        ThumbnailErrorKind(a.thumb.value);
      }
      assert w' == w;
      assert pc' == ReadyToSave(pc.id, ExpiryOf(w, a))
          || (pc'.Releasing? && pc'.result.UploadFailed? && !pc'.result.error.SaveFailed?);
      assert UploadLocal(w', rid, a, pc');
    }
  }

  lemma CleanBlobStep(w: World, rid: ReqId, a: UploadArgs, pc: UploadPc, ch: Choice)
    requires pc.CleanBlob? && StoreInv(w) && UploadLocal(w, rid, a, pc)
    ensures var (w', pc') := UploadStep(w, rid, a, pc, ch); StepFine(w, w', rid, Upload(a, pc'))
  {
    hide StoreInv, Guarantee, ObjectIdOf, BlobPath, ThumbPath, IsUuid, ThumbnailError, Admissible, Dated;
    var (w', pc') := UploadStep(w, rid, a, pc, ch);
    PathIds(a.context, a.owner, pc.id);
    assert TouchesObjectsOf(w, w', rid, pc.id);
    ObjectsTouched(w, w', rid, pc.id);
    TouchGuarantee(w, w', rid, pc.id);
    if a.thumb.Some? {
      assert pc' == CleanThumb(pc.id, ch.ok);
      assert UploadLocal(w', rid, a, pc');
    } else {
      assert pc' == Releasing(UploadFailed(SaveFailed(pc.id, ch.ok)));
      assert UploadLocal(w', rid, a, pc');
    }
  }

  lemma CleanThumbStep(w: World, rid: ReqId, a: UploadArgs, pc: UploadPc, ch: Choice)
    requires pc.CleanThumb? && StoreInv(w) && UploadLocal(w, rid, a, pc)
    ensures var (w', pc') := UploadStep(w, rid, a, pc, ch); StepFine(w, w', rid, Upload(a, pc'))
  {
    hide StoreInv, Guarantee, ObjectIdOf, BlobPath, ThumbPath, IsUuid, ThumbnailError, Admissible, Dated;
    var (w', pc') := UploadStep(w, rid, a, pc, ch);
    PathIds(a.context, a.owner, pc.id);
    assert TouchesObjectsOf(w, w', rid, pc.id);
    ObjectsTouched(w, w', rid, pc.id);
    TouchGuarantee(w, w', rid, pc.id);
    assert pc' == Releasing(UploadFailed(SaveFailed(pc.id, pc.cleaned && ch.ok)));
    assert UploadLocal(w', rid, a, pc');
  }

  lemma InitialAclWellFormed(a: UploadArgs)
    ensures WellFormed(Listed(InitialAcl(a)), a.owner)
  {
    assert WellFormed([], a.owner);
    UnionWellFormed([], a.sharedWith, a.owner);
  }

  // The new row fits its id, its owner and its blob.
  lemma NewRowFits(w: World, w': World, rid: ReqId, a: UploadArgs, id: MediaId, expiresAt: Option<int>)
    requires UploadLocal(w, rid, a, ReadyToSave(id, expiresAt))
    requires w' == w.(media := w.media[id := NewRow(w, a, id, expiresAt)])
    ensures var row := NewRow(w, a, id, expiresAt);
      && RowShape(w', id, row) && Backed(w', id, row)
      && WellFormed(Listed(row.sharedWith), row.ownerId)
      && ExpiryBounded(row.signedUrlExpiresAt, w.now, w.config.signedUrlExpirySeconds)
      && Matches(w', id, KeyOf(a)) && !row.history.recorded && row.blobSize == a.file.size
  {
    hide StoreInv, ObjectIdOf, BlobPath, ThumbPath, IsUuid, Admissible, WellFormed;
    InitialAclWellFormed(a);
    assert File(w.issued[id].content, a.file.size, a.file.mime) == a.file;
  }

  lemma SaveStep(w: World, rid: ReqId, a: UploadArgs, pc: UploadPc, ch: Choice)
    requires pc.ReadyToSave? && StoreInv(w) && UploadLocal(w, rid, a, pc)
    ensures var (w', pc') := UploadStep(w, rid, a, pc, ch); StepFine(w, w', rid, Upload(a, pc'))
  {
    hide StoreInv, Guarantee, ObjectIdOf, BlobPath, ThumbPath, IsUuid, Admissible, Dated, RowShape, Backed,
      WellFormed, NewRow, ExpiryBounded;
    var (w', pc') := UploadStep(w, rid, a, pc, ch);
    if ch.ok {
      var row := NewRow(w, a, pc.id, pc.expiresAt);
      NewRowFits(w, w', rid, a, pc.id, pc.expiresAt);
      RowAdded(w, w', pc.id, row);
      RowAddedGuarantee(w, w', rid, pc.id, row);
      assert pc' == Saved(pc.id);
      assert UploadLocal(w', rid, a, pc');
    } else {
      SameStoresGuarantee(w, w', rid);
      assert pc' == CleanBlob(pc.id);
      assert UploadLocal(w', rid, a, pc');
    }
  }

  lemma SavedStep(w: World, rid: ReqId, a: UploadArgs, pc: UploadPc, ch: Choice)
    requires pc.Saved? && StoreInv(w) && UploadLocal(w, rid, a, pc)
    ensures var (w', pc') := UploadStep(w, rid, a, pc, ch); StepFine(w, w', rid, Upload(a, pc'))
  {
    hide StoreInv, ObjectIdOf, BlobPath, ThumbPath, IsUuid, Admissible, Dated;
    var (w', pc') := UploadStep(w, rid, a, pc, ch);
    if ch.ok {
      DedupAdded(w, w', KeyOf(a), pc.id);
      assert Guarantee(w, w', rid);
      assert pc' == Indexed(pc.id);
      assert UploadLocal(w', rid, a, pc');
    } else {
      SameStoresGuarantee(w, w', rid);
      assert pc' == Releasing(UploadFailed(CommandFailed));
      assert UploadLocal(w', rid, a, pc');
    }
  }

  lemma IndexedStep(w: World, rid: ReqId, a: UploadArgs, pc: UploadPc, ch: Choice)
    requires pc.Indexed? && StoreInv(w) && UploadLocal(w, rid, a, pc)
    ensures var (w', pc') := UploadStep(w, rid, a, pc, ch); StepFine(w, w', rid, Upload(a, pc'))
    ensures ch.ok ==> UploadStep(w, rid, a, pc, ch).1 == Recorded(pc.id)
  {
    hide StoreInv, Guarantee, ObjectIdOf, BlobPath, ThumbPath, IsUuid, Admissible, Dated, RowShape, Backed,
      WellFormed, ExpiryBounded, Charge;
    var (w', pc') := UploadStep(w, rid, a, pc, ch);
    if ch.ok {
      var row := w.media[pc.id].(history := w.media[pc.id].history.(recorded := true));
      var mid := w.(media := w.media[pc.id := row]);
      RowFacts(w, pc.id);
      RowRewritten(w, mid, pc.id, row);
      RewriteGuarantee(w, mid, rid, pc.id, row);
      CacheRows(w);
      assert w' == mid.(quota := w'.quota, log := w'.log);
      MoreQuotaRows(mid, w');
      QuotaGuarantee(mid, w', rid);
      GuaranteeCompose(w, mid, w', rid);
      assert pc' == Recorded(pc.id);
      assert UploadLocal(w', rid, a, pc');
    } else {
      SameStoresGuarantee(w, w', rid);
      assert pc' == Releasing(UploadFailed(CommandFailed));
      assert UploadLocal(w', rid, a, pc');
    }
  }

  lemma UploadFine(w: World, rid: ReqId, a: UploadArgs, pc: UploadPc, ch: Choice)
    requires StoreInv(w) && UploadLocal(w, rid, a, pc) && ChoiceOk(w, Upload(a, pc), ch)
    ensures var (w', pc') := UploadStep(w, rid, a, pc, ch); StepFine(w, w', rid, Upload(a, pc'))
  {
    hide UploadStep, StepFine, StoreInv, UploadLocal;
    if QuietPc(pc) {
      QuietStep(w, rid, a, pc, ch);
    } else {
      match pc
      case QuotaMiss => QuotaMissStep(w, rid, a, ch);
      case MergeWrite(_, _) => MergeWriteStep(w, rid, a, pc, ch);
      case Fresh => FreshStep(w, rid, a, ch);
      case BlobPut(_) => BlobPutStep(w, rid, a, pc, ch);
      case ReadyToSave(_, _) => SaveStep(w, rid, a, pc, ch);
      case CleanBlob(_) => CleanBlobStep(w, rid, a, pc, ch);
      case CleanThumb(_, _) => CleanThumbStep(w, rid, a, pc, ch);
      case Saved(_) => SavedStep(w, rid, a, pc, ch);
      case Indexed(_) => IndexedStep(w, rid, a, pc, ch);
    }
  }
}

/** Every step of the other requests, and so of any request, keeps the invariant and the guarantee. */
module OtherSteps {
  import opened Base
  import opened Paths
  import opened Quota
  import opened Acl
  import opened Admission
  import opened SignedUrls
  import opened Protocol
  import opened Frames
  import opened Invariant
  import opened StoreChanges
  import opened UploadSteps

  lemma FindingStep(w: World, rid: ReqId, id: MediaId, requester: UserId, ch: Choice)
    requires StoreInv(w)
    ensures var (w', pc') := DeleteStep(w, rid, id, requester, Finding, ch);
      StepFine(w, w', rid, Delete(id, requester, pc'))
  {
    hide StoreInv, Guarantee, ObjectIdOf, BlobPath, ThumbPath, IsUuid, Admissible, Dated, WellFormed, ExpiryBounded;
    var (w', pc') := DeleteStep(w, rid, id, requester, Finding, ch);
    if id in w.media && w.media[id].isActive && w.media[id].ownerId == requester {
      var row := w.media[id].(isActive := false, history := w.media[id].history.(deletedBy := Some(rid)));
      RowFacts(w, id);
      RowRewritten(w, w', id, row);
      RewriteGuarantee(w, w', rid, id, row);
      assert pc' == RemovingBlob(w.media[id]);
      assert Local(w', rid, Delete(id, requester, pc'));
    } else {
      SameStoresGuarantee(w, w', rid);
    }
  }

  lemma RemovalStep(w: World, rid: ReqId, id: MediaId, requester: UserId, pc: DeletePc, ch: Choice)
    requires pc.RemovingBlob? || pc.RemovingThumb?
    requires StoreInv(w) && DeleteLocal(w, rid, id, requester, pc)
    ensures var (w', pc') := DeleteStep(w, rid, id, requester, pc, ch);
      StepFine(w, w', rid, Delete(id, requester, pc'))
  {
    hide StoreInv, Guarantee, ObjectIdOf, BlobPath, ThumbPath, IsUuid, Admissible, Dated, WellFormed, ExpiryBounded;
    var (w', pc') := DeleteStep(w, rid, id, requester, pc, ch);
    RowFacts(w, id);
    PathIds(pc.row.context, pc.row.ownerId, id);
    ObjectsRemoved(w, w', id);
    RemovalGuarantee(w, w', rid, id);
    assert Deleting(w', rid, id, requester, pc.row);
  }

  lemma RefundStep(w: World, rid: ReqId, id: MediaId, requester: UserId, pc: DeletePc, ch: Choice)
    requires pc.Refunding? && StoreInv(w) && DeleteLocal(w, rid, id, requester, pc)
    ensures var (w', pc') := DeleteStep(w, rid, id, requester, pc, ch);
      StepFine(w, w', rid, Delete(id, requester, pc')) && pc' == Uncaching(pc.row)
  {
    hide StoreInv, Guarantee, ObjectIdOf, BlobPath, ThumbPath, IsUuid, Admissible, Dated, RowShape, Backed,
      WellFormed, ExpiryBounded, Refund;
    var (w', pc') := DeleteStep(w, rid, id, requester, pc, ch);
    var row := w.media[id].(history := w.media[id].history.(released := true));
    var mid := w.(media := w.media[id := row]);
    RowFacts(w, id);
    RowRewritten(w, mid, id, row);
    RewriteGuarantee(w, mid, rid, id, row);
    CacheRows(w);
    assert w' == mid.(quota := w'.quota);
    MoreQuotaRows(mid, w');
    GuaranteeCompose(w, mid, w', rid);
  }

  // The steps of a delete that touch only caches.
  lemma UncacheStep(w: World, rid: ReqId, id: MediaId, requester: UserId, pc: DeletePc, ch: Choice)
    requires pc.DroppingMeta? || pc.Uncaching? || pc.DeleteDone?
    requires StoreInv(w) && DeleteLocal(w, rid, id, requester, pc)
    ensures var (w', pc') := DeleteStep(w, rid, id, requester, pc, ch);
      StepFine(w, w', rid, Delete(id, requester, pc'))
  {
    hide StoreInv, Guarantee, ObjectIdOf, BlobPath, ThumbPath, IsUuid, Admissible, Dated;
    var (w', pc') := DeleteStep(w, rid, id, requester, pc, ch);
    CacheRows(w);
    SameStoresKeep(w, w');
    SameStoresGuarantee(w, w', rid);
  }

  lemma DeleteFine(w: World, rid: ReqId, id: MediaId, requester: UserId, pc: DeletePc, ch: Choice)
    requires StoreInv(w) && DeleteLocal(w, rid, id, requester, pc)
    ensures var (w', pc') := DeleteStep(w, rid, id, requester, pc, ch);
      StepFine(w, w', rid, Delete(id, requester, pc'))
  {
    hide DeleteStep, StepFine, StoreInv, DeleteLocal;
    match pc
    case Finding => FindingStep(w, rid, id, requester, ch);
    case RemovingBlob(_) => RemovalStep(w, rid, id, requester, pc, ch);
    case RemovingThumb(_) => RemovalStep(w, rid, id, requester, pc, ch);
    case Refunding(_) => RefundStep(w, rid, id, requester, pc, ch);
    case _ => UncacheStep(w, rid, id, requester, pc, ch);
  }

  lemma ShareFine(w: World, rid: ReqId, id: MediaId, requester: UserId, users: seq<UserId>, pc: SharePc)
    requires StoreInv(w)
    ensures var (w', pc') := ShareStep(w, id, requester, users, pc);
      StepFine(w, w', rid, Share(id, requester, users, pc'))
  {
    hide StoreInv, Guarantee, ObjectIdOf, BlobPath, ThumbPath, IsUuid, Admissible, Dated, RowShape, Backed,
      WellFormed, ExpiryBounded, Union, Distinct;
    var (w', pc') := ShareStep(w, id, requester, users, pc);
    CacheRows(w);
    var found := ActiveRow(w, id);
    if !pc.Sharing? || found.None? || found.value.ownerId != requester
       || |Union(Listed(found.value.sharedWith), users, requester)| == |Distinct(Listed(found.value.sharedWith))| {
      SameStoresKeep(w, w');
      SameStoresGuarantee(w, w', rid);
    } else {
      var before := w.media[id];
      var next := Union(Listed(before.sharedWith), users, before.ownerId);
      var row := before.(sharedWith := if next == [] then None else Some(next));
      RowFacts(w, id);
      UnionWellFormed(Listed(before.sharedWith), users, before.ownerId);
      RowRewritten(w, w', id, row);
      RewriteGuarantee(w, w', rid, id, row);
    }
  }

  lemma BlobFine(w: World, rid: ReqId, id: MediaId, requester: UserId, pc: BlobPc)
    requires StoreInv(w)
    ensures var (w', pc') := BlobStep(w, id, requester, pc);
      StepFine(w, w', rid, GetBlob(id, requester, pc'))
  {
    hide StoreInv, Guarantee, ObjectIdOf, BlobPath, ThumbPath, IsUuid, Admissible, Dated, RowShape, Backed,
      WellFormed, ExpiryBounded, Grant, RowReadable, StillValid;
    var (w', pc') := BlobStep(w, id, requester, pc);
    var found := ActiveRow(w, id);
    if pc.BlobDone? || found.None? || !RowReadable(found.value, requester)
       || StillValid(found.value.signedUrlExpiresAt, w.now) {
      SameStoresGuarantee(w, w', rid);
    } else {
      var before := w.media[id];
      var grant := Grant(before.storagePath, before.signedUrlExpiresAt, w.now, w.config.signedUrlExpirySeconds);
      var row := before.(signedUrlExpiresAt := Some(grant.expiresAt));
      RowFacts(w, id);
      NewExpiryBounded(w, before);
      RowRewritten(w, w', id, row);
      RewriteGuarantee(w, w', rid, id, row);
    }
  }

  lemma NewExpiryBounded(w: World, row: Media)
    requires StoreInv(w)
    requires ExpiryBounded(row.signedUrlExpiresAt, w.now, w.config.signedUrlExpirySeconds)
    ensures ExpiryBounded(
      Some(Grant(row.storagePath, row.signedUrlExpiresAt, w.now, w.config.signedUrlExpirySeconds).expiresAt),
      w.now, w.config.signedUrlExpirySeconds)
  {
    assert ValidConfig(w.config);
    hide StoreInv;
    GrantLifetime(row.storagePath, row.signedUrlExpiresAt, w.now, w.config.signedUrlExpirySeconds);
  }

  lemma MetaFine(w: World, rid: ReqId, id: MediaId, requester: UserId, pc: MetaPc)
    requires StoreInv(w)
    ensures var (w', pc') := MetaStep(w, id, requester, pc);
      StepFine(w, w', rid, GetMeta(id, requester, pc'))
  {
    hide StoreInv, Guarantee;
    var (w', pc') := MetaStep(w, id, requester, pc);
    CacheRows(w);
    SameStoresKeep(w, w');
    SameStoresGuarantee(w, w', rid);
  }

  lemma AlertFine(w: World, rid: ReqId, u: UserId, pc: AlertPc, ch: Choice)
    requires StoreInv(w) && Local(w, rid, Alert(u, pc))
    ensures var (w', pc') := AlertStep(w, u, pc, ch); StepFine(w, w', rid, Alert(u, pc'))
  {
    hide StoreInv, Guarantee, AlertStep, CacheHasRows;
    var (w', pc') := AlertStep(w, u, pc, ch);
    CacheRows(w);
    AlertFrame(w, u, pc, ch);
    AlertKeepsRows(w, u, pc, ch);
    MoreQuotaRows(w, w');
    QuotaGuarantee(w, w', rid);
  }

  lemma AlertKeepsRows(w: World, u: UserId, pc: AlertPc, ch: Choice)
    requires CacheHasRows(w) && (pc.AlertRead? ==> u in w.quota)
    ensures var (w', pc') := AlertStep(w, u, pc, ch);
      w.quota.Keys <= w'.quota.Keys && CacheHasRows(w') && (pc'.AlertRead? ==> u in w'.quota)
  {
    hide FreshRow, Rehydrate, Dehydrate, Alerts.Round;
  }

  lemma ResetFine(w: World, rid: ReqId, pc: ResetPc, ch: Choice)
    requires StoreInv(w)
    ensures var (w', pc') := ResetStep(w, pc, ch); StepFine(w, w', rid, Reset(pc'))
  {
    hide StoreInv, Guarantee;
    var (w', pc') := ResetStep(w, pc, ch);
    CacheRows(w);
    MoreQuotaRows(w, w');
    QuotaGuarantee(w, w', rid);
  }

  lemma ActFine(w: World, rid: ReqId, r: Req, ch: Choice)
    requires StoreInv(w) && Local(w, rid, r) && ChoiceOk(w, r, ch)
    ensures var (w', r') := Act(w, rid, r, ch); StepFine(w, w', rid, r')
  {
    hide StoreInv, StepFine, UploadLocal, DeleteLocal, UploadStep, DeleteStep, ShareStep, MetaStep, BlobStep,
      AlertStep, ResetStep;
    match r
    case Upload(a, pc) => UploadFine(w, rid, a, pc, ch);
    case Delete(id, requester, pc) => DeleteFine(w, rid, id, requester, pc, ch);
    case Share(id, requester, users, pc) => ShareFine(w, rid, id, requester, users, pc);
    case GetMeta(id, requester, pc) => MetaFine(w, rid, id, requester, pc);
    case GetBlob(id, requester, pc) => BlobFine(w, rid, id, requester, pc);
    case Alert(u, pc) => AlertFine(w, rid, u, pc, ch);
    case Reset(pc) => ResetFine(w, rid, pc, ch);
  }
}

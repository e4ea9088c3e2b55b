/**
 * The invariant of the media table, the object store and the dedup index, and the rely/guarantee that carries it:
 * a step keeps the store invariant, establishes what its own request relies on next, and changes the stores only
 * in ways that leave every other request's assumptions true.
 */
module Invariant {
  import opened Base
  import opened Paths
  import opened Quota
  import opened Acl
  import opened Admission
  import opened SignedUrls
  import opened Protocol

  // ----- the store invariant -----

  /** A message expires one lifetime after some moment between these two, the public images never. */
  predicate ExpiryBetween(context: Context, expiresAt: Option<int>, from: int, to: int, ttlDays: nat) {
    if context == Message then
      expiresAt.Some? && from + ttlDays * DAY_MS <= expiresAt.value <= to + ttlDays * DAY_MS
    else
      expiresAt.None?
  }

  /** Created in the past, the expiry fixed between the moment the id was generated and the creation. */
  predicate Dated(context: Context, issuedAt: int, createdAt: int, expiresAt: Option<int>, now: int, ttlDays: nat) {
    createdAt <= now && ExpiryBetween(context, expiresAt, issuedAt, createdAt, ttlDays)
  }

  /** The columns fixed when the row is saved fit the id, the owner and the admitted blob. */
  ghost predicate RowShape(w: World, id: MediaId, row: Media) {
    && id in w.issued && IsUuid(id) && IsUuid(row.ownerId) && row.ownerId in w.quota
    && row.storagePath == BlobPath(row.context, row.ownerId, id)
    && row.thumbnailPath == (if w.issued[id].thumb.Some? then Some(ThumbPath(row.ownerId, id)) else None)
    && ValidBlobSize(row.blobSize)
    && Dated(row.context, w.issued[id].at, row.createdAt, row.expiresAt, w.now, w.config.messageTtlDays)
    && Admissible(File(w.issued[id].content, row.blobSize, row.contentType), row.context)
  }

  /** The thumbnail of a row is in the object store with the bytes uploaded. */
  ghost predicate ThumbStored(w: World, id: MediaId, path: Path)
    requires id in w.issued
  {
    path in w.objects && Some(w.objects[path]) == w.issued[id].thumb
  }

  /** An active row's blob and thumbnail are in the object store with the bytes uploaded, and its quota has not
      been released. */
  ghost predicate Backed(w: World, id: MediaId, row: Media) {
    row.isActive ==>
      && !row.history.released
      && id in w.issued
      && row.storagePath in w.objects && w.objects[row.storagePath] == w.issued[id].content
      && (row.thumbnailPath.Some? ==> ThumbStored(w, id, row.thumbnailPath.value))
  }

  ghost predicate RowsOk(w: World) {
    forall id :: id in w.media ==> RowShape(w, id, w.media[id]) && Backed(w, id, w.media[id])
  }

  /** A media row has the owner, the context and the bytes of a dedup key. */
  ghost predicate Matches(w: World, id: MediaId, key: DedupKey) {
    && id in w.media && id in w.issued
    && w.media[id].ownerId == key.owner && w.media[id].context == key.context
    && w.issued[id].content == key.content
  }

  ghost predicate DedupOk(w: World) {
    forall key :: key in w.dedup ==> Matches(w, w.dedup[key], key)
  }

  /** Every stored object belongs to an id that some upload generated. */
  ghost predicate ObjectsOwned(w: World) {
    forall p :: p in w.objects ==> ObjectIdOf(p) in w.issued
  }

  /** Every stored list names nobody twice and never the owner. */
  ghost predicate AclsOk(w: World) {
    forall id :: id in w.media ==> WellFormed(Listed(w.media[id].sharedWith), w.media[id].ownerId)
  }

  /** No stored URL expiry is further away than the configured lifetime. */
  ghost predicate ExpiriesOk(w: World) {
    forall id :: id in w.media ==>
      ExpiryBounded(w.media[id].signedUrlExpiresAt, w.now, w.config.signedUrlExpirySeconds)
  }

  /** A cached quota belongs to a user who has a row. */
  ghost predicate CacheHasRows(w: World) {
    forall u :: u in w.quotaCache ==> u in w.quota
  }

  ghost predicate StoreInv(w: World) {
    && RowsOk(w) && DedupOk(w) && ObjectsOwned(w) && AclsOk(w) && ExpiriesOk(w) && CacheHasRows(w)
    && ValidConfig(w.config)
  }

  // ----- what each request relies on -----

  predicate PassedChecks(a: UploadArgs) {
    ValidBlobSize(a.file.size) && Admissible(a.file, a.context)
  }

  ghost predicate Unsaved(w: World, rid: ReqId, a: UploadArgs, id: MediaId) {
    && UuidsOk(a, id) && id !in w.media
    && id in w.issued && w.issued[id].rid == rid && w.issued[id].at <= w.now
    && w.issued[id].content == a.file.content && w.issued[id].thumb == ThumbBytes(a)
  }

  ghost predicate BlobThere(w: World, a: UploadArgs, id: MediaId)
    requires UuidsOk(a, id)
  {
    var p := BlobPath(a.context, a.owner, id);
    p in w.objects && w.objects[p] == a.file.content
  }

  ghost predicate ThumbThere(w: World, a: UploadArgs, id: MediaId)
    requires UuidsOk(a, id)
  {
    a.thumb.Some? ==>
      var p := ThumbPath(a.owner, id);
      p in w.objects && w.objects[p] == a.thumb.value.content
  }

  ghost predicate OwnRow(w: World, rid: ReqId, a: UploadArgs, id: MediaId) {
    && Matches(w, id, KeyOf(a)) && w.issued[id].rid == rid
    && w.media[id].blobSize == a.file.size && !w.media[id].history.recorded
  }

  ghost predicate ResultOk(w: World, rid: ReqId, a: UploadArgs, result: UploadResult) {
    match result
    case Uploaded(id) => Matches(w, id, KeyOf(a))
    case UploadFailed(SaveFailed(id, cleaned)) =>
      && Unsaved(w, rid, a, id)
      && (cleaned ==> BlobPath(a.context, a.owner, id) !in w.objects
                      && (a.thumb.Some? ==> ThumbPath(a.owner, id) !in w.objects))
    case UploadFailed(_) => true
  }

  ghost predicate UploadLocal(w: World, rid: ReqId, a: UploadArgs, pc: UploadPc) {
    match pc
    case Arriving => true
    case Rejecting => true
    case Admitted => true
    case QuotaMiss => ValidBlobSize(a.file.size)
    case QuotaRead(_) => ValidBlobSize(a.file.size) && a.owner in w.quota
    case Checked => PassedChecks(a) && a.owner in w.quota
    case DedupHit(id) => PassedChecks(a) && a.owner in w.quota && Matches(w, id, KeyOf(a))
    case MergeWrite(id, next) =>
      PassedChecks(a) && a.owner in w.quota && Matches(w, id, KeyOf(a)) && WellFormed(next, a.owner)
    case MergeUncache(id) => PassedChecks(a) && a.owner in w.quota && Matches(w, id, KeyOf(a))
    case Fresh => PassedChecks(a) && a.owner in w.quota
    case BlobPut(id) => PassedChecks(a) && a.owner in w.quota && Unsaved(w, rid, a, id) && BlobThere(w, a, id)
    case ReadyToSave(id, expiresAt) =>
      && PassedChecks(a) && a.owner in w.quota && Unsaved(w, rid, a, id) && BlobThere(w, a, id) && ThumbThere(w, a, id)
      && ExpiryBetween(a.context, expiresAt, w.issued[id].at, w.now, w.config.messageTtlDays)
    case CleanBlob(id) => Unsaved(w, rid, a, id)
    case CleanThumb(id, cleaned) =>
      && a.thumb.Some? && Unsaved(w, rid, a, id)
      && (cleaned ==> BlobPath(a.context, a.owner, id) !in w.objects)
    case Saved(id) => PassedChecks(a) && a.owner in w.quota && OwnRow(w, rid, a, id)
    case Indexed(id) => PassedChecks(a) && a.owner in w.quota && OwnRow(w, rid, a, id)
    case Recorded(id) => PassedChecks(a) && a.owner in w.quota && Matches(w, id, KeyOf(a))
    case Releasing(result) => ResultOk(w, rid, a, result)
    case DroppingKey(result) => ResultOk(w, rid, a, result)
    case UploadDone(result) => ResultOk(w, rid, a, result)
  }

  /** The row a delete request works on: soft-deleted by it, not yet released. */
  ghost predicate Deleting(w: World, rid: ReqId, id: MediaId, requester: UserId, row: Media) {
    && id in w.media && !w.media[id].isActive
    && w.media[id].history.deletedBy == Some(rid) && !w.media[id].history.released
    && SameColumns(row, w.media[id]) && row.ownerId == requester
    && requester in w.quota && ValidBlobSize(row.blobSize)
  }

  ghost predicate DeleteLocal(w: World, rid: ReqId, id: MediaId, requester: UserId, pc: DeletePc) {
    match pc
    case Finding => true
    case RemovingBlob(row) => Deleting(w, rid, id, requester, row)
    case RemovingThumb(row) => Deleting(w, rid, id, requester, row)
    case DroppingMeta(row) => Deleting(w, rid, id, requester, row)
    case Refunding(row) => Deleting(w, rid, id, requester, row)
    case Uncaching(row) => true
    case DeleteDone(result) => result != DeleteThrew
  }

  ghost predicate Local(w: World, rid: ReqId, r: Req) {
    match r
    case Upload(a, pc) => UploadLocal(w, rid, a, pc)
    case Delete(id, requester, pc) => DeleteLocal(w, rid, id, requester, pc)
    case Alert(u, pc) => pc.AlertRead? ==> u in w.quota
    case _ => true
  }

  ghost predicate Inv(s: State) {
    StoreInv(s.w) && forall rid :: rid in s.reqs ==> Local(s.w, rid, s.reqs[rid])
  }

  // ----- what a step may do to the others -----

  predicate SameColumns(a: Media, b: Media) {
    && a.ownerId == b.ownerId && a.context == b.context && a.storagePath == b.storagePath
    && a.thumbnailPath == b.thumbnailPath && a.contentType == b.contentType && a.blobSize == b.blobSize
    && a.expiresAt == b.expiresAt && a.createdAt == b.createdAt
  }

  ghost predicate IssuedGrows(w: World, w': World) {
    forall id :: id in w.issued ==> id in w'.issued && w'.issued[id] == w.issued[id]
  }

  /** Rows persist with their columns, are never reactivated, and keep the bookkeeping of other requests. */
  ghost predicate RowKept(w: World, w': World, rid: ReqId, id: MediaId)
    requires id in w.media
  {
    && id in w'.media && SameColumns(w.media[id], w'.media[id])
    && (w'.media[id].isActive ==> w.media[id].isActive)
    && (id in w.issued && w.issued[id].rid != rid ==> w'.media[id].history.recorded == w.media[id].history.recorded)
    && (!w.media[id].isActive && w.media[id].history.deletedBy != Some(rid) ==>
          && w'.media[id].history.deletedBy == w.media[id].history.deletedBy
          && w'.media[id].history.released == w.media[id].history.released)
  }

  ghost predicate MediaGrows(w: World, w': World, rid: ReqId) {
    && (forall id :: id in w.media ==> RowKept(w, w', rid, id))
    && (forall id :: id in w'.media && id !in w.media ==> id in w.issued && w.issued[id].rid == rid)
  }

  /** An object of an upload that has not saved its row is touched by that upload alone. */
  ghost predicate ObjectsKept(w: World, w': World, rid: ReqId) {
    forall p :: ObjectIdOf(p) in w.issued && ObjectIdOf(p) !in w.media && w.issued[ObjectIdOf(p)].rid != rid ==>
      (p in w.objects <==> p in w'.objects) && (p in w.objects ==> w'.objects[p] == w.objects[p])
  }

  ghost predicate Guarantee(w: World, w': World, rid: ReqId) {
    && IssuedGrows(w, w') && MediaGrows(w, w', rid) && ObjectsKept(w, w', rid)
    && w.quota.Keys <= w'.quota.Keys && w'.now == w.now && w'.config == w.config
  }

  lemma PathIds(context: Context, owner: UserId, id: MediaId)
    requires IsUuid(owner) && IsUuid(id)
    ensures ObjectIdOf(BlobPath(context, owner, id)) == id
    ensures ObjectIdOf(ThumbPath(owner, id)) == id
    ensures BlobPath(context, owner, id) != ThumbPath(owner, id)
  {
    PathNamesObject(BlobContext(context), owner, id);
    PathNamesObject(Thumbnails, owner, id);
    BuildPathInjective(BlobContext(context), owner, id, Thumbnails, owner, id);
  }

  // What another request relies on survives the step.
  lemma StableMatches(w: World, w': World, rid: ReqId, id: MediaId, key: DedupKey)
    requires Guarantee(w, w', rid) && Matches(w, id, key)
    ensures Matches(w', id, key)
  {
    assert RowKept(w, w', rid, id);
  }

  lemma StableUnsaved(w: World, w': World, rid: ReqId, other: ReqId, a: UploadArgs, id: MediaId)
    requires Guarantee(w, w', rid) && other != rid && Unsaved(w, other, a, id)
    ensures Unsaved(w', other, a, id)
    ensures BlobPath(a.context, a.owner, id) in w.objects <==> BlobPath(a.context, a.owner, id) in w'.objects
    ensures ThumbPath(a.owner, id) in w.objects <==> ThumbPath(a.owner, id) in w'.objects
    ensures BlobThere(w, a, id) ==> BlobThere(w', a, id)
    ensures ThumbThere(w, a, id) ==> ThumbThere(w', a, id)
    ensures w'.issued[id].at == w.issued[id].at
  {
    PathIds(a.context, a.owner, id);
  }

  lemma StableResult(w: World, w': World, rid: ReqId, other: ReqId, a: UploadArgs, result: UploadResult)
    requires Guarantee(w, w', rid) && other != rid && ResultOk(w, other, a, result)
    ensures ResultOk(w', other, a, result)
  {
    match result
    case Uploaded(id) => StableMatches(w, w', rid, id, KeyOf(a));
    case UploadFailed(SaveFailed(id, _)) => StableUnsaved(w, w', rid, other, a, id);
    case UploadFailed(_) =>
  }

  predicate WorksOnRow(pc: UploadPc) {
    pc.DedupHit? || pc.MergeWrite? || pc.MergeUncache? || pc.Saved? || pc.Indexed? || pc.Recorded?
  }

  predicate WorksOnObjects(pc: UploadPc) {
    pc.BlobPut? || pc.ReadyToSave? || pc.CleanBlob? || pc.CleanThumb?
  }

  predicate HasResult(pc: UploadPc) {
    pc.Releasing? || pc.DroppingKey? || pc.UploadDone?
  }

  lemma StableWithRow(w: World, w': World, rid: ReqId, other: ReqId, a: UploadArgs, pc: UploadPc)
    requires WorksOnRow(pc)
    requires Guarantee(w, w', rid) && other != rid && UploadLocal(w, other, a, pc)
    ensures UploadLocal(w', other, a, pc)
  {
    StableMatches(w, w', rid, pc.id, KeyOf(a));
    assert RowKept(w, w', rid, pc.id);
  }

  lemma StableWithObjects(w: World, w': World, rid: ReqId, other: ReqId, a: UploadArgs, pc: UploadPc)
    requires WorksOnObjects(pc)
    requires Guarantee(w, w', rid) && other != rid && UploadLocal(w, other, a, pc)
    ensures UploadLocal(w', other, a, pc)
  {
    StableUnsaved(w, w', rid, other, a, pc.id);
    hide ExpiryBetween;
    assert !pc.CleanBlob? && !pc.CleanThumb? ==> a.owner in w'.quota;
  }

  lemma StableUpload(w: World, w': World, rid: ReqId, other: ReqId, a: UploadArgs, pc: UploadPc)
    requires Guarantee(w, w', rid) && other != rid && UploadLocal(w, other, a, pc)
    ensures UploadLocal(w', other, a, pc)
  {
    if WorksOnRow(pc) {
      StableWithRow(w, w', rid, other, a, pc);
    } else if WorksOnObjects(pc) {
      StableWithObjects(w, w', rid, other, a, pc);
    } else if HasResult(pc) {
      StableResult(w, w', rid, other, a, pc.result);
    } else {
      assert a.owner in w.quota ==> a.owner in w'.quota;
    }
  }

  lemma Stable(w: World, w': World, rid: ReqId, other: ReqId, r: Req)
    requires Guarantee(w, w', rid) && other != rid && Local(w, other, r)
    ensures Local(w', other, r)
  {
    match r
    case Upload(a, pc) => StableUpload(w, w', rid, other, a, pc);
    case Delete(id, requester, pc) =>
      if id in w.media {
        assert RowKept(w, w', rid, id);
      }
    case _ =>
  }

  /** What one step must establish. */
  ghost predicate StepFine(w: World, w': World, rid: ReqId, r': Req) {
    StoreInv(w') && Local(w', rid, r') && Guarantee(w, w', rid)
  }

  lemma CacheRows(w: World)
    requires StoreInv(w)
    ensures CacheHasRows(w)
  {}

  // What the invariant says of one row.
  lemma RowFacts(w: World, id: MediaId)
    requires StoreInv(w) && id in w.media
    ensures var row := w.media[id];
      && RowShape(w, id, row) && Backed(w, id, row)
      && WellFormed(Listed(row.sharedWith), row.ownerId)
      && ExpiryBounded(row.signedUrlExpiresAt, w.now, w.config.signedUrlExpirySeconds)
  {}

  // A step that first rewrites one row and then touches only the quota table.
  lemma GuaranteeCompose(w: World, mid: World, w': World, rid: ReqId)
    requires Guarantee(w, mid, rid)
    requires w' == mid.(quota := w'.quota, log := w'.log, quotaCache := w'.quotaCache, board := w'.board)
    requires mid.quota.Keys <= w'.quota.Keys
    ensures Guarantee(w, w', rid)
  {
    hide ObjectIdOf;
    forall id | id in w.media ensures RowKept(w, w', rid, id) {
      assert RowKept(w, mid, rid, id);
    }
  }
}

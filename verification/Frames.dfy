/** Which stores a step of each kind of request leaves alone. */
module Frames {
  import opened Base
  import opened Quota
  import opened Acl
  import opened SignedUrls
  import opened Protocol

  lemma DeleteFrame(w: World, rid: ReqId, id: MediaId, requester: UserId, pc: DeletePc, ch: Choice)
    ensures var w' := DeleteStep(w, rid, id, requester, pc, ch).0;
      w' == w.(media := w'.media, objects := w'.objects, meta := w'.meta,
               quota := w'.quota, quotaCache := w'.quotaCache)
  {}

  lemma ShareFrame(w: World, id: MediaId, requester: UserId, users: seq<UserId>, pc: SharePc)
    ensures var w' := ShareStep(w, id, requester, users, pc).0;
      w' == w.(media := w'.media, meta := w'.meta)
  {
    hide Union, Distinct, Listed;
  }

  lemma MetaFrame(w: World, id: MediaId, requester: UserId, pc: MetaPc)
    ensures var w' := MetaStep(w, id, requester, pc).0; w' == w.(meta := w'.meta)
  {}

  lemma BlobFrame(w: World, id: MediaId, requester: UserId, pc: BlobPc)
    ensures var w' := BlobStep(w, id, requester, pc).0; w' == w.(media := w'.media)
  {}

  lemma AlertFrame(w: World, u: UserId, pc: AlertPc, ch: Choice)
    ensures var w' := AlertStep(w, u, pc, ch).0;
      w' == w.(quota := w'.quota, quotaCache := w'.quotaCache, board := w'.board)
  {
    hide Alerts.Round;
  }

  lemma ResetFrame(w: World, pc: ResetPc, ch: Choice)
    ensures var w' := ResetStep(w, pc, ch).0;
      w' == w.(quota := w'.quota, quotaCache := w'.quotaCache, log := w'.log)
  {}

  /** What an upload does to the media table: save a row, mark it recorded, or write a merged list. */
  lemma UploadTable(w: World, rid: ReqId, a: UploadArgs, pc: UploadPc, ch: Choice)
    ensures var (w', pc') := UploadStep(w, rid, a, pc, ch);
      if pc.ReadyToSave? && pc'.Saved? then
        UuidsOk(a, pc.id) && w'.media == w.media[pc.id := NewRow(w, a, pc.id, pc.expiresAt)]
      else if pc.Indexed? && pc'.Recorded? then
        && pc.id in w.media
        && w'.media == w.media[pc.id := w.media[pc.id].(history := w.media[pc.id].history.(recorded := true))]
      else if pc.MergeWrite? && pc'.MergeUncache? && pc.id in w.media then
        w'.media == w.media[pc.id := w.media[pc.id].(sharedWith := Some(pc.next))]
      else w'.media == w.media
  {
    hide NewRow, BlobPath, ThumbPath, UuidsOk, ThumbnailError, AdmissionError;
  }

  /** Sharing writes one list, granting a URL writes one expiry. */
  lemma ShareTable(w: World, id: MediaId, requester: UserId, users: seq<UserId>, pc: SharePc)
    ensures var w' := ShareStep(w, id, requester, users, pc).0;
      w'.media == w.media
      || (id in w.media && id in w'.media
          && w'.media == w.media[id := w.media[id].(sharedWith := w'.media[id].sharedWith)])
  {
    hide Union, Distinct, Listed;
    var (w', pc') := ShareStep(w, id, requester, users, pc);
    if !(pc.Sharing? && pc'.ShareUncache?) {
      assert w'.media == w.media;
    }
  }

  lemma BlobTable(w: World, id: MediaId, requester: UserId, pc: BlobPc)
    ensures var w' := BlobStep(w, id, requester, pc).0;
      w'.media == w.media
      || (id in w.media && id in w'.media
          && w'.media == w.media[id := w.media[id].(signedUrlExpiresAt := w'.media[id].signedUrlExpiresAt)])
  {
    hide RowReadable, Grant, StillValid;
    var found := ActiveRow(w, id);
    if pc.BlobDone? || found.None? || !RowReadable(found.value, requester)
       || StillValid(found.value.signedUrlExpiresAt, w.now) {
      assert BlobStep(w, id, requester, pc).0 == w;
    }
  }

  /** What a delete does to the media table: soft-delete the row it found, later mark it released. */
  lemma DeleteTable(w: World, rid: ReqId, id: MediaId, requester: UserId, pc: DeletePc, ch: Choice)
    ensures var (w', pc') := DeleteStep(w, rid, id, requester, pc, ch);
      if pc.Finding? && pc'.RemovingBlob? then
        && id in w.media && w.media[id].isActive && pc'.row == w.media[id] && requester == w.media[id].ownerId
        && w'.quota == w.quota
        && w'.media == w.media[id := w.media[id].(isActive := false,
                                                  history := w.media[id].history.(deletedBy := Some(rid)))]
      else if pc.Refunding? && pc'.Uncaching? then
        && id in w.media && requester in w.quota && pc.row.blobSize >= 0
        && w'.media == w.media[id := w.media[id].(history := w.media[id].history.(released := true))]
        && w'.quota == w.quota[requester := Refund(w.quota[requester], pc.row.blobSize)]
      else w'.media == w.media && w'.quota == w.quota
  {}

  // A step keeps the kind of its request; everything but an upload leaves these stores alone.
  lemma OtherFrame(w: World, rid: ReqId, r: Req, ch: Choice)
    requires !r.Upload?
    ensures var (w', r') := Act(w, rid, r, ch);
      && !r'.Upload?
      && w'.now == w.now && w'.config == w.config && w'.sem == w.sem && w'.dedup == w.dedup && w'.issued == w.issued
  {
    match r
    case Delete(id, requester, pc) => DeleteFrame(w, rid, id, requester, pc, ch);
    case Share(id, requester, users, pc) => ShareFrame(w, id, requester, users, pc);
    case GetMeta(id, requester, pc) => MetaFrame(w, id, requester, pc);
    case GetBlob(id, requester, pc) => BlobFrame(w, id, requester, pc);
    case Alert(u, pc) => AlertFrame(w, u, pc, ch);
    case Reset(pc) => ResetFrame(w, pc, ch);
  }
}

/**
 * The metadata cache against the media table: whenever no invalidation for a media is outstanding, a request for
 * its metadata has the same outcome with the cache as without it, for every requester.
 */
module MetaCache {
  import opened Base
  import opened Acl
  import opened Quota
  import opened Protocol
  import opened Frames
  import opened Invariant
  import opened Integrity

  /** The request has changed the row of `id` and has not yet dropped the cached entry. */
  predicate OwesMeta(r: Req, id: MediaId) {
    || (r.Upload? && r.upc.MergeUncache? && r.upc.id == id)
    || (r.Share? && r.spc.ShareUncache? && r.id == id)
    || (r.Delete? && (r.dpc.RemovingBlob? || r.dpc.RemovingThumb? || r.dpc.DroppingMeta?) && r.id == id)
  }

  ghost predicate OutstandingMeta(s: State, id: MediaId) {
    exists rid :: rid in s.reqs && OwesMeta(s.reqs[rid], id)
  }

  /** What the table would put into the cache for `id`. */
  function View(w: World, id: MediaId): Option<CachedMeta> {
    var found := ActiveRow(w, id);
    if found.Some? then Some(EntryOf(id, found.value)) else None
  }

  predicate MetaCurrent(w: World, id: MediaId) {
    id in w.meta ==> View(w, id) == Some(w.meta[id])
  }

  ghost predicate MetaInv(s: State, id: MediaId) {
    && (id in s.w.meta ==> id in s.w.media)
    && (MetaCurrent(s.w, id) || OutstandingMeta(s, id))
  }

  /** No cache SET is late, that is, the row still reads as it did, and no invalidation fails. */
  predicate MetaClean(s: State, e: Event) {
    e.Go? && e.rid in s.reqs ==>
      match s.reqs[e.rid]
      case Upload(_, MergeUncache(_)) => e.ch.ok
      case GetMeta(id, _, MetaLoaded(entry)) => View(s.w, id) == Some(entry)
      case _ => true
  }

  // ----- what a step of each request does to one media -----

  predicate SameMeta(w: World, w': World, id: MediaId) {
    (id in w'.meta <==> id in w.meta) && (id in w.meta ==> w'.meta[id] == w.meta[id])
  }

  predicate MetaAccounts(w: World, w': World, r: Req, r': Req, id: MediaId) {
    && (View(w', id) == View(w, id) || OwesMeta(r', id) || id !in w.media)
    && (id !in w'.meta || SameMeta(w, w', id) || View(w', id) == Some(w'.meta[id]))
    && (OwesMeta(r, id) && !OwesMeta(r', id) ==> id !in w'.meta)
    && (id in w.media ==> id in w'.media)
  }

  lemma UploadEntry(w: World, rid: ReqId, a: UploadArgs, pc: UploadPc, ch: Choice)
    requires pc.MergeUncache? ==> ch.ok
    ensures var (w', pc') := UploadStep(w, rid, a, pc, ch);
      && w'.meta == (if pc.MergeUncache? then w.meta - {pc.id} else w.meta)
      && (pc'.MergeUncache? ==> pc.MergeWrite? && pc'.id == pc.id)
      && (pc.ReadyToSave? && pc'.Saved? ==> pc'.id == pc.id)
  {
    hide Union, AdmissionError, ThumbnailError, NewRow, BlobPath, ThumbPath, UuidsOk, KeyOf, RowOrFresh, Charge;
  }

  lemma UploadMeta(w: World, rid: ReqId, a: UploadArgs, pc: UploadPc, ch: Choice, id: MediaId)
    requires UploadLocal(w, rid, a, pc) && (pc.MergeUncache? ==> ch.ok)
    ensures var (w', pc') := UploadStep(w, rid, a, pc, ch);
      MetaAccounts(w, w', Upload(a, pc), Upload(a, pc'), id)
  {
    UploadTable(w, rid, a, pc, ch);
    UploadEntry(w, rid, a, pc, ch);
    hide UploadStep, NewRow, PassedChecks, WellFormed, UuidsOk, KeyOf;
  }

  /** Between the soft delete and the drop of the cached entry. */
  predicate BeforeDrop(pc: DeletePc) {
    pc.RemovingBlob? || pc.RemovingThumb? || pc.DroppingMeta?
  }

  lemma DeleteEntry(w: World, rid: ReqId, mid: MediaId, requester: UserId, pc: DeletePc, ch: Choice)
    ensures var (w', pc') := DeleteStep(w, rid, mid, requester, pc, ch);
      && w'.meta == (if pc.DroppingMeta? then w.meta - {mid} else w.meta)
      && (BeforeDrop(pc') <==> (pc.Finding? && pc'.RemovingBlob?) || (BeforeDrop(pc) && !pc.DroppingMeta?))
  {
    hide Refund, ValidBlobSize, ActiveRow;
  }

  lemma DeleteMeta(w: World, rid: ReqId, mid: MediaId, requester: UserId, pc: DeletePc, ch: Choice, id: MediaId)
    ensures var (w', pc') := DeleteStep(w, rid, mid, requester, pc, ch);
      MetaAccounts(w, w', Delete(mid, requester, pc), Delete(mid, requester, pc'), id)
  {
    DeleteTable(w, rid, mid, requester, pc, ch);
    DeleteEntry(w, rid, mid, requester, pc, ch);
    hide DeleteStep, Refund;
  }

  lemma ShareEntry(w: World, mid: MediaId, requester: UserId, users: seq<UserId>, pc: SharePc)
    ensures var (w', pc') := ShareStep(w, mid, requester, users, pc);
      && w'.meta == (if pc.ShareUncache? then w.meta - {mid} else w.meta)
      && (pc'.ShareUncache? ==> pc.Sharing?)
      && (w'.media == w.media || pc'.ShareUncache?)
  {
    hide Union, Distinct, Listed;
  }

  lemma ShareMeta(w: World, mid: MediaId, requester: UserId, users: seq<UserId>, pc: SharePc, id: MediaId)
    ensures var (w', pc') := ShareStep(w, mid, requester, users, pc);
      MetaAccounts(w, w', Share(mid, requester, users, pc), Share(mid, requester, users, pc'), id)
  {
    ShareTable(w, mid, requester, users, pc);
    ShareEntry(w, mid, requester, users, pc);
    hide ShareStep, EntryOf;
  }

  lemma GetMetaMeta(w: World, mid: MediaId, requester: UserId, pc: MetaPc, id: MediaId)
    requires pc.MetaLoaded? ==> View(w, mid) == Some(pc.entry)
    ensures var (w', pc') := MetaStep(w, mid, requester, pc);
      MetaAccounts(w, w', GetMeta(mid, requester, pc), GetMeta(mid, requester, pc'), id)
  {}

  // Storing a new URL expiry changes nothing that the cache holds, so it needs no invalidation.
  lemma GetBlobMeta(w: World, mid: MediaId, requester: UserId, pc: BlobPc, id: MediaId)
    ensures var (w', pc') := BlobStep(w, mid, requester, pc);
      && MetaAccounts(w, w', GetBlob(mid, requester, pc), GetBlob(mid, requester, pc'), id)
      && View(w', id) == View(w, id) && w'.meta == w.meta
  {
    BlobFrame(w, mid, requester, pc);
    BlobTable(w, mid, requester, pc);
    hide BlobStep;
  }

  lemma ActMeta(s: State, rid: ReqId, ch: Choice, id: MediaId)
    requires Inv(s) && rid in s.reqs && MetaClean(s, Go(rid, ch))
    ensures var (w', r') := Act(s.w, rid, s.reqs[rid], ch); MetaAccounts(s.w, w', s.reqs[rid], r', id)
  {
    hide StoreInv, UploadLocal, UploadStep, DeleteStep, ShareStep, MetaStep, BlobStep, AlertStep, ResetStep, View;
    var w := s.w;
    assert Local(w, rid, s.reqs[rid]);
    match s.reqs[rid]
    case Upload(a, pc) => UploadMeta(w, rid, a, pc, ch, id);
    case Delete(mid, requester, pc) => DeleteMeta(w, rid, mid, requester, pc, ch, id);
    case Share(mid, requester, users, pc) => ShareMeta(w, mid, requester, users, pc, id);
    case GetMeta(mid, requester, pc) => GetMetaMeta(w, mid, requester, pc, id);
    case GetBlob(mid, requester, pc) => GetBlobMeta(w, mid, requester, pc, id);
    case Alert(u, pc) =>
      AlertFrame(w, u, pc, ch);
      SameMedia(w, AlertStep(w, u, pc, ch).0, id);
    case Reset(pc) =>
      ResetFrame(w, pc, ch);
      SameMedia(w, ResetStep(w, pc, ch).0, id);
  }

  lemma SameMedia(w: World, w': World, id: MediaId)
    requires w'.media == w.media && w'.meta == w.meta
    ensures View(w', id) == View(w, id) && SameMeta(w, w', id)
  {}

  // ----- one step -----

  lemma MetaGo(s: State, rid: ReqId, ch: Choice, id: MediaId)
    requires Inv(s) && Enabled(s, Go(rid, ch)) && MetaInv(s, id) && MetaClean(s, Go(rid, ch))
    ensures MetaInv(Next(s, Go(rid, ch)), id)
  {
    ActMeta(s, rid, ch, id);
    ViewNeedsRow(s.w, id);
    ViewNeedsRow(Next(s, Go(rid, ch)).w, id);
    hide Inv, Act, View;
    var s' := Next(s, Go(rid, ch));
    if OutstandingMeta(s, id) {
      var other :| other in s.reqs && OwesMeta(s.reqs[other], id);
      if other != rid {
        assert s'.reqs[other] == s.reqs[other];
      }
    }
    assert rid in s'.reqs;
  }

  lemma ViewNeedsRow(w: World, id: MediaId)
    ensures View(w, id).Some? ==> id in w.media
  {}

  lemma MetaStepKeeps(s: State, e: Event, id: MediaId)
    requires Inv(s) && Enabled(s, e) && MetaInv(s, id) && MetaClean(s, e)
    ensures MetaInv(Next(s, e), id)
  {
    if e.Go? {
      MetaGo(s, e.rid, e.ch, id);
    } else {
      var s' := Next(s, e);
      assert View(s'.w, id) == View(s.w, id);
      hide Inv, View;
      if OutstandingMeta(s, id) {
        var other :| other in s.reqs && OwesMeta(s.reqs[other], id);
        assert other in s'.reqs && s'.reqs[other] == s.reqs[other];
      }
    }
  }

  lemma {:induction false} MetaRun(s: State, events: seq<Event>, id: MediaId)
    requires Inv(s) && MetaInv(s, id) && Run(s, events) && Along(s, events, MetaClean)
    ensures MetaInv(After(s, events), id)
    decreases |events|
  {
    hide Inv, MetaInv, Next, Enabled;
    if events != [] {
      InvStep(s, events[0]);
      MetaStepKeeps(s, events[0], id);
      MetaRun(Next(s, events[0]), events[1..], id);
    }
  }

  /** What a metadata request that is not interrupted returns. */
  function MetaOutcome(w: World, id: MediaId, requester: UserId): MetaResult {
    if id in w.meta then MetaFromCache(w.meta[id], requester) else MetaFromTable(w, id, requester)
  }

  // With no invalidation outstanding, data, absence and denial are the same with the cache as without it.
  lemma CacheAnswersLikeTable(s: State, events: seq<Event>, id: MediaId, requester: UserId)
    requires Init(s) && Run(s, events) && Along(s, events, MetaClean)
    requires !OutstandingMeta(After(s, events), id)
    ensures MetaOutcome(After(s, events).w, id, requester) == MetaFromTable(After(s, events).w, id, requester)
  {
    InitInv(s);
    assert MetaInv(s, id);
    hide Init, Inv, Run, After;
    MetaRun(s, events, id);
  }

  // The request that runs to its end without interruption returns that outcome.
  lemma UninterruptedMeta(w: World, id: MediaId, requester: UserId)
    ensures var (w1, pc1) := MetaStep(w, id, requester, MetaStart);
            var (w2, pc2) := MetaStep(w1, id, requester, pc1);
            var (w3, pc3) := MetaStep(w2, id, requester, pc2);
            pc3 == MetaDone(MetaOutcome(w, id, requester))
  {}

  // Exactly which SETs are harmless: with no invalidation outstanding, a SET keeps the cache right if and only
  // if the media still exists and still reads as it did when it was loaded.
  lemma MetaSetExact(s: State, rid: ReqId, ch: Choice, id: MediaId, requester: UserId, entry: CachedMeta)
    requires rid in s.reqs && s.reqs[rid] == GetMeta(id, requester, MetaLoaded(entry))
    requires !OutstandingMeta(s, id)
    ensures MetaInv(Next(s, Go(rid, ch)), id) <==> View(s.w, id) == Some(entry)
  {
    var s' := Next(s, Go(rid, ch));
    assert View(s'.w, id) == View(s.w, id);
    ViewNeedsRow(s.w, id);
    assert !OutstandingMeta(s', id) by {
      forall other | other in s'.reqs ensures !OwesMeta(s'.reqs[other], id) {
        assert other != rid ==> !OwesMeta(s.reqs[other], id);
      }
    }
  }
}

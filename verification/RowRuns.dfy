/** How the mutable columns of a media row move over a run: the shared-with list and the stored URL expiry. */
module RowRuns {
  import opened Base
  import opened Acl
  import opened Admission
  import opened SignedUrls
  import opened Protocol
  import opened Frames
  import opened Invariant
  import opened Integrity

  function AclOf(w: World, id: MediaId): seq<UserId>
    requires id in w.media
  {
    Listed(w.media[id].sharedWith)
  }

  /** Rows persist and every list keeps its old entries in front. */
  ghost predicate AclsGrow(w: World, w': World) {
    forall id :: id in w.media ==> id in w'.media && AclOf(w, id) <= AclOf(w', id)
  }

  /** A merge that writes what it computed earlier writes over nothing it has not seen. */
  predicate AclClean(s: State, e: Event) {
    e.Go? && e.rid in s.reqs && s.reqs[e.rid].Upload? && s.reqs[e.rid].upc.MergeWrite? && e.ch.ok ==>
      var pc := s.reqs[e.rid].upc;
      pc.id in s.w.media ==> AclOf(s.w, pc.id) <= pc.next
  }

  /** A stored expiry is only ever replaced by a later one. */
  predicate Later(before: Option<int>, after: Option<int>) {
    before.Some? ==> after.Some? && before.value <= after.value
  }

  ghost predicate ExpiriesAdvance(w: World, w': World) {
    forall id :: id in w.media ==>
      id in w'.media && Later(w.media[id].signedUrlExpiresAt, w'.media[id].signedUrlExpiresAt)
  }

  /** One row persists, its list grows at the end, its expiry advances. */
  predicate Advances(w: World, w': World, id: MediaId) {
    id in w.media ==>
      && id in w'.media
      && (w'.media[id].sharedWith == w.media[id].sharedWith || AclOf(w, id) <= AclOf(w', id))
      && Later(w.media[id].signedUrlExpiresAt, w'.media[id].signedUrlExpiresAt)
  }

  // ----- one step -----

  lemma UploadAdvances(w: World, rid: ReqId, a: UploadArgs, pc: UploadPc, ch: Choice, id: MediaId)
    requires UploadLocal(w, rid, a, pc) && !(pc.MergeWrite? && ch.ok)
    ensures Advances(w, UploadStep(w, rid, a, pc, ch).0, id)
  {
    UploadTable(w, rid, a, pc, ch);
    assert pc.MergeWrite? ==> !UploadStep(w, rid, a, pc, ch).1.MergeUncache?;
    hide UploadStep, NewRow, PassedChecks, WellFormed, UuidsOk, AclOf;
  }

  lemma MergeAdvances(w: World, rid: ReqId, a: UploadArgs, pc: UploadPc, ch: Choice)
    requires UploadLocal(w, rid, a, pc) && pc.MergeWrite? && ch.ok
    ensures var w' := UploadStep(w, rid, a, pc, ch).0;
      && pc.id in w.media && pc.id in w'.media && AclOf(w', pc.id) == pc.next
      && (forall id :: id in w.media ==>
            id in w'.media && w'.media[id].signedUrlExpiresAt == w.media[id].signedUrlExpiresAt
            && (id != pc.id ==> w'.media[id] == w.media[id]))
  {
    hide Union, NewRow, BlobPath, ThumbPath, PassedChecks, WellFormed, UuidsOk;
  }

  lemma ShareAdvances(w: World, mid: MediaId, requester: UserId, users: seq<UserId>, pc: SharePc, id: MediaId)
    requires AclsOk(w)
    ensures Advances(w, ShareStep(w, mid, requester, users, pc).0, id)
  {
    if mid in w.media {
      UnionWellFormed(AclOf(w, mid), users, w.media[mid].ownerId);
      assert AclOf(w, mid) <= Union(AclOf(w, mid), users, w.media[mid].ownerId);
    }
    hide Union, Distinct, WellFormed, AclsOk, NoDuplicates;
    var (w', pc') := ShareStep(w, mid, requester, users, pc);
    if !(pc.Sharing? && pc'.ShareUncache?) {
      assert w'.media == w.media;
      SameTable(w, w', id);
    }
  }

  lemma BlobAdvances(w: World, mid: MediaId, requester: UserId, pc: BlobPc, id: MediaId)
    requires ValidConfig(w.config) && ExpiriesOk(w)
    ensures Advances(w, BlobStep(w, mid, requester, pc).0, id)
  {
    var w' := BlobStep(w, mid, requester, pc).0;
    if mid in w.media && w' != w {
      var row := w.media[mid];
      var grant := Grant(row.storagePath, row.signedUrlExpiresAt, w.now, w.config.signedUrlExpirySeconds);
      GrantLifetime(row.storagePath, row.signedUrlExpiresAt, w.now, w.config.signedUrlExpirySeconds);
      hide Grant, RowReadable, ExpiryBounded, ExpiriesOk, StillValid, AclOf;
      assert w'.media == w.media[mid := row.(signedUrlExpiresAt := Some(grant.expiresAt))];
    }
  }

  lemma DeleteAdvances(w: World, rid: ReqId, mid: MediaId, requester: UserId, pc: DeletePc, ch: Choice, id: MediaId)
    ensures Advances(w, DeleteStep(w, rid, mid, requester, pc, ch).0, id)
  {
    DeleteTable(w, rid, mid, requester, pc, ch);
    hide AclOf, DeleteStep;
  }

  lemma SameTable(w: World, w': World, id: MediaId)
    requires w'.media == w.media
    ensures Advances(w, w', id)
  {}

  predicate MergesNow(s: State, e: Event) {
    e.Go? && e.rid in s.reqs && s.reqs[e.rid].Upload? && s.reqs[e.rid].upc.MergeWrite? && e.ch.ok
  }

  lemma ActAdvances(s: State, rid: ReqId, ch: Choice, id: MediaId)
    requires Inv(s) && rid in s.reqs && !MergesNow(s, Go(rid, ch))
    ensures Advances(s.w, Act(s.w, rid, s.reqs[rid], ch).0, id)
  {
    hide Advances, UploadStep, DeleteStep, ShareStep, MetaStep, BlobStep, AlertStep, ResetStep,
      UploadLocal, RowsOk, DedupOk, WellFormed, ExpiryBounded;
    var w := s.w;
    assert Local(w, rid, s.reqs[rid]);
    match s.reqs[rid]
    case Upload(a, pc) => UploadAdvances(w, rid, a, pc, ch, id);
    case Delete(mid, requester, pc) => DeleteAdvances(w, rid, mid, requester, pc, ch, id);
    case Share(mid, requester, users, pc) => ShareAdvances(w, mid, requester, users, pc, id);
    case GetMeta(mid, requester, pc) =>
      MetaFrame(w, mid, requester, pc);
      SameTable(w, MetaStep(w, mid, requester, pc).0, id);
    case GetBlob(mid, requester, pc) => BlobAdvances(w, mid, requester, pc, id);
    case Alert(u, pc) =>
      AlertFrame(w, u, pc, ch);
      SameTable(w, AlertStep(w, u, pc, ch).0, id);
    case Reset(pc) =>
      ResetFrame(w, pc, ch);
      SameTable(w, ResetStep(w, pc, ch).0, id);
  }

  // From any reachable state, an event lets every expiry advance, and it lets every list grow if and only if it
  // is not a merge that writes over a newer list.
  lemma StepColumns(s: State, e: Event)
    requires Inv(s) && Enabled(s, e)
    ensures ExpiriesAdvance(s.w, Next(s, e).w)
    ensures AclsGrow(s.w, Next(s, e).w) <==> AclClean(s, e)
  {
    var w, w' := s.w, Next(s, e).w;
    if MergesNow(s, e) {
      var r := s.reqs[e.rid];
      assert Local(w, e.rid, r);
      hide StoreInv, UploadLocal;
      MergeAdvances(w, e.rid, r.args, r.upc, e.ch);
      MergeStepExact(w, w', r.upc.id, r.upc.next);
      hide Act, UploadStep, Inv, AclsGrow, ExpiriesAdvance;
    } else {
      forall id ensures Advances(w, w', id) {
        if e.Go? {
          ActAdvances(s, e.rid, e.ch, id);
        } else {
          SameTable(w, w', id);
        }
      }
      hide Act, Inv;
      AllAdvance(w, w');
      hide Advances, AclsGrow, ExpiriesAdvance;
    }
  }

  lemma AllAdvance(w: World, w': World)
    requires forall id :: Advances(w, w', id)
    ensures AclsGrow(w, w') && ExpiriesAdvance(w, w')
  {
    forall id | id in w.media ensures id in w'.media && AclOf(w, id) <= AclOf(w', id) {
      assert Advances(w, w', id);
    }
    forall id | id in w.media
      ensures id in w'.media && Later(w.media[id].signedUrlExpiresAt, w'.media[id].signedUrlExpiresAt)
    {
      assert Advances(w, w', id);
    }
  }

  lemma MergeStepExact(w: World, w': World, mid: MediaId, next: seq<UserId>)
    requires mid in w.media && mid in w'.media && AclOf(w', mid) == next
    requires forall id :: id in w.media ==>
            id in w'.media && w'.media[id].signedUrlExpiresAt == w.media[id].signedUrlExpiresAt
            && (id != mid ==> w'.media[id] == w.media[id])
    ensures ExpiriesAdvance(w, w')
    ensures AclsGrow(w, w') <==> AclOf(w, mid) <= next
  {}

  // ----- whole runs -----

  // Over any run, every stored list is free of duplicates, of the owner and of empty names.
  lemma ListsWellFormed(s: State, events: seq<Event>, id: MediaId)
    requires Init(s) && Run(s, events) && id in After(s, events).w.media
    ensures WellFormed(AclOf(After(s, events).w, id), After(s, events).w.media[id].ownerId)
  {
    hide Run, Init, WellFormed;
    Reachable(s, events);
    RowFacts(After(s, events).w, id);
  }

  lemma {:induction false} AclsGrowRun(s: State, events: seq<Event>)
    requires Inv(s) && Run(s, events) && Along(s, events, AclClean)
    ensures AclsGrow(s.w, After(s, events).w)
    decreases |events|
  {
    hide Inv, Next, Enabled;
    if events != [] {
      var s1 := Next(s, events[0]);
      InvStep(s, events[0]);
      StepColumns(s, events[0]);
      AclsGrowRun(s1, events[1..]);
      var w, w1, w2 := s.w, s1.w, After(s1, events[1..]).w;
      assert AclsGrow(w, w1) && AclsGrow(w1, w2);
      forall id | id in w.media ensures id in w2.media && AclOf(w, id) <= AclOf(w2, id) {
        assert id in w1.media;
      }
    }
  }

  // Over any run in which no merge writes a stale list, each stored list only grows, old entries in front.
  lemma ListsOnlyGrow(s: State, before: seq<Event>, more: seq<Event>)
    requires Init(s) && Run(s, before) && Run(After(s, before), more) && Along(After(s, before), more, AclClean)
    ensures AclsGrow(After(s, before).w, After(After(s, before), more).w)
  {
    hide Init, AclsGrow;
    Reachable(s, before);
    AclsGrowRun(After(s, before), more);
  }

  // A merge whose row still carries the list it read is never stale.
  lemma UnchangedListIsClean(w: World, rid: ReqId, a: UploadArgs, id: MediaId, ch: Choice, later: World)
    requires UploadStep(w, rid, a, DedupHit(id), ch).1.MergeWrite?
    requires id in later.media && id in w.media && AclsOk(w) && AclOf(later, id) == AclOf(w, id)
    ensures AclOf(later, id) <= UploadStep(w, rid, a, DedupHit(id), ch).1.next
  {
    UnionWellFormed(AclOf(w, id), a.sharedWith, w.media[id].ownerId);
    hide Union, WellFormed;
  }

  lemma {:induction false} ExpiriesAdvanceRun(s: State, events: seq<Event>)
    requires Inv(s) && Run(s, events)
    ensures ExpiriesAdvance(s.w, After(s, events).w)
    decreases |events|
  {
    hide Inv, Next, Enabled, AclsGrow, AclClean;
    if events != [] {
      var s1 := Next(s, events[0]);
      InvStep(s, events[0]);
      StepColumns(s, events[0]);
      ExpiriesAdvanceRun(s1, events[1..]);
      var w, w1, w2 := s.w, s1.w, After(s1, events[1..]).w;
      assert ExpiriesAdvance(w, w1) && ExpiriesAdvance(w1, w2);
      forall id | id in w.media
        ensures id in w2.media && Later(w.media[id].signedUrlExpiresAt, w2.media[id].signedUrlExpiresAt)
      {
        assert id in w1.media;
      }
    }
  }

  // Over any run, a stored URL expiry never goes back.
  lemma ExpiriesNeverGoBack(s: State, before: seq<Event>, more: seq<Event>)
    requires Init(s) && Run(s, before) && Run(After(s, before), more)
    ensures ExpiriesAdvance(After(s, before).w, After(After(s, before), more).w)
  {
    hide Init, ExpiriesAdvance;
    Reachable(s, before);
    ExpiriesAdvanceRun(After(s, before), more);
  }

  // Every URL granted in a run goes to someone who may read an active media whose blob is stored. It announces an
  // expiry after now and within the configured lifetime, and itself ends strictly within one second of that
  // moment, which is what the row then stores.
  lemma GrantsInRun(s: State, events: seq<Event>, rid: ReqId, ch: Choice, grant: UrlGrant)
    requires Init(s) && Run(s, events) && Enabled(After(s, events), Go(rid, ch))
    requires After(s, events).reqs[rid].GetBlob? && After(s, events).reqs[rid].bpc == BlobStart
    requires Next(After(s, events), Go(rid, ch)).reqs[rid].bpc == BlobDone(Granted(grant))
    ensures var t := After(s, events);
      var id, w' := t.reqs[rid].id, Next(t, Go(rid, ch)).w;
      && t.w.now < grant.expiresAt <= t.w.now + t.w.config.signedUrlExpirySeconds * 1000
      && -1000 < UrlEnd(grant.url) - grant.expiresAt < 1000
      && id in t.w.media && t.w.media[id].isActive
      && (t.w.media[id].context in {Avatar, GroupIcon} || t.reqs[rid].requester == t.w.media[id].ownerId
          || t.reqs[rid].requester in AclOf(t.w, id))
      && grant.url.path in t.w.objects
      && id in w'.media && w'.media[id].signedUrlExpiresAt == Some(grant.expiresAt)
      && grant.url.path == w'.media[id].storagePath
  {
    Reachable(s, events);
    var t := After(s, events);
    var id := t.reqs[rid].id;
    hide Init, Run, After;
    RowFacts(t.w, id);
    assert ValidConfig(t.w.config);
    hide Inv;
    var row := t.w.media[id];
    GrantLifetime(row.storagePath, row.signedUrlExpiresAt, t.w.now, t.w.config.signedUrlExpirySeconds);
    hide RowShape, Backed, WellFormed, ExpiryBounded;
  }

  // Who is granted a URL: nobody without an active media, everybody for the image of a profile or a group, otherwise
  // its owner and the users on its list; all others are denied. A stored expiry still to come is handed out again.
  lemma GrantedExactly(w: World, id: MediaId, requester: UserId)
    ensures var (w', pc') := BlobStep(w, id, requester, BlobStart);
      && pc'.BlobDone?
      && (pc'.result == BlobNotFound <==> !(id in w.media && w.media[id].isActive))
      && (id in w.media && w.media[id].isActive ==>
            && (pc'.result.Granted? <==> w.media[id].context in {Avatar, GroupIcon}
                                         || requester == w.media[id].ownerId || requester in AclOf(w, id))
            && (!pc'.result.Granted? <==> pc'.result == BlobDenied))
      && (pc'.result.Granted? ==>
            var stored := w.media[id].signedUrlExpiresAt;
            pc'.result.grant.expiresAt == if stored.Some? && w.now < stored.value then stored.value
                                          else w.now + w.config.signedUrlExpirySeconds * 1000)
      && (!pc'.result.Granted? ==> w' == w)
  {}

  // ----- who may change a row -----

  /** Only a delete by the owner ends a media; only a share or an upload by the owner changes its list. */
  predicate OwnerChange(before: Media, after: Media, r: Req, id: MediaId) {
    && (after.isActive != before.isActive ==>
          before.isActive && r.Delete? && r.id == id && r.requester == before.ownerId)
    && (after.sharedWith != before.sharedWith ==>
          || (r.Share? && r.id == id && r.requester == before.ownerId && before.isActive)
          || (r.Upload? && r.args.owner == before.ownerId && r.upc.MergeWrite? && r.upc.id == id))
  }

  lemma ShareChange(w: World, mid: MediaId, requester: UserId, users: seq<UserId>, pc: SharePc, id: MediaId)
    requires id in w.media
    ensures var w' := ShareStep(w, mid, requester, users, pc).0;
      id in w'.media && OwnerChange(w.media[id], w'.media[id], Share(mid, requester, users, pc), id)
  {
    hide Union, Distinct, Listed;
    var (w', pc') := ShareStep(w, mid, requester, users, pc);
    if !(pc.Sharing? && pc'.ShareUncache?) {
      assert w'.media == w.media;
    }
  }

  lemma UploadChange(w: World, rid: ReqId, a: UploadArgs, pc: UploadPc, ch: Choice, id: MediaId)
    requires UploadLocal(w, rid, a, pc) && id in w.media
    ensures var w' := UploadStep(w, rid, a, pc, ch).0;
      id in w'.media && OwnerChange(w.media[id], w'.media[id], Upload(a, pc), id)
  {
    UploadTable(w, rid, a, pc, ch);
    hide UploadStep, NewRow, PassedChecks, WellFormed, UuidsOk;
  }

  lemma ActChange(s: State, rid: ReqId, ch: Choice, id: MediaId)
    requires Inv(s) && rid in s.reqs && id in s.w.media
    ensures var w' := Act(s.w, rid, s.reqs[rid], ch).0;
      id in w'.media && OwnerChange(s.w.media[id], w'.media[id], s.reqs[rid], id)
  {
    hide UploadStep, DeleteStep, ShareStep, MetaStep, BlobStep, AlertStep, ResetStep, UploadLocal, StoreInv;
    var w := s.w;
    assert Local(w, rid, s.reqs[rid]);
    match s.reqs[rid]
    case Upload(a, pc) => UploadChange(w, rid, a, pc, ch, id);
    case Delete(mid, requester, pc) => DeleteTable(w, rid, mid, requester, pc, ch);
    case Share(mid, requester, users, pc) => ShareChange(w, mid, requester, users, pc, id);
    case GetMeta(mid, requester, pc) => MetaFrame(w, mid, requester, pc);
    case GetBlob(mid, requester, pc) => BlobTable(w, mid, requester, pc);
    case Alert(u, pc) => AlertFrame(w, u, pc, ch);
    case Reset(pc) => ResetFrame(w, pc, ch);
  }

  // At every moment of every run: a media ceases to be active only by its owner's delete, is never made active
  // again, and its list changes only by its owner's share or by its owner uploading the same bytes again.
  lemma OnlyTheOwnerChanges(s: State, events: seq<Event>, e: Event, id: MediaId)
    requires Init(s) && Run(s, events) && Enabled(After(s, events), e) && id in After(s, events).w.media
    ensures var t := After(s, events);
      var before, after := t.w.media[id], Next(t, e).w.media;
      && id in after
      && (if e.Go? then OwnerChange(before, after[id], t.reqs[e.rid], id) else after[id] == before)
  {
    hide Init, Run, Inv, Act, OwnerChange;
    Reachable(s, events);
    if e.Go? {
      ActChange(After(s, events), e.rid, e.ch, id);
    }
  }
}

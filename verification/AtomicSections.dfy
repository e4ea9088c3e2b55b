/**
 * Undisturbed runs: the conditions of the other modules, one by one, from what a scheduler can look at.
 *
 * SemClean, SetClean, MetaClean and AclClean speak of the state in which a command lands. Each follows from one
 * section not being disturbed by the commands that write what it read: DECR and DEL by an INCR of the user; a quota
 * read and its cache SET by a charge, a refund or a reset; a metadata read and its cache SET by a merge's write, a
 * share's or a delete's transaction; a merge's read and write by another write of the list. All other steps of those
 * requests may fall in between.
 */
module AtomicSections {
  import opened Base
  import opened Sums
  import opened Acl
  import opened Quota
  import opened Admission
  import opened Protocol
  import opened Frames
  import opened Semaphore
  import opened Invariant
  import opened Integrity
  import opened Overshoot
  import opened QuotaCache
  import opened MetaCache
  import opened RowRuns

  /** Request `rid` takes this step. */
  predicate Moves(e: Event, rid: ReqId) {
    e.Go? && e.rid == rid
  }

  // ----- release -----

  /** No INCR of the user falls between DECR and DEL, and a counter only expires at zero. */
  predicate ReleaseUndisturbed(s: State, e: Event) {
    && (e.ExpireCounter? ==> Counter(s.w, e.user) == 0)
    && (e.Go? && e.rid in s.reqs && s.reqs[e.rid].Upload? && s.reqs[e.rid].upc.Arriving? ==>
          forall rid :: rid in s.reqs ==> !Dropping(s.reqs[rid], s.reqs[e.rid].args.owner))
  }

  predicate Dropping(r: Req, u: UserId) {
    r.Upload? && r.upc.DroppingKey? && r.args.owner == u
  }

  ghost predicate ReleaseInv(s: State) {
    && (forall u :: CounterAgrees(s, u))
    && forall rid, u :: rid in s.reqs && Dropping(s.reqs[rid], u) ==> Counter(s.w, u) == 0
  }

  lemma ReleaseIsClean(s: State, e: Event)
    requires ReleaseInv(s) && Enabled(s, e) && ReleaseUndisturbed(s, e)
    ensures SemClean(s, e)
  {
    hide CounterAgrees;
    if e.Go? && s.reqs[e.rid].Upload? && s.reqs[e.rid].upc.DroppingKey? {
      assert Dropping(s.reqs[e.rid], s.reqs[e.rid].args.owner);
    }
  }

  // Who comes to the DEL has just taken the counter to zero; who waits there sees it stay.
  lemma DroppingAfter(s: State, e: Event, rid: ReqId, u: UserId)
    requires ReleaseInv(s) && Enabled(s, e) && ReleaseUndisturbed(s, e)
    requires CounterAgrees(Next(s, e), u) && rid in Next(s, e).reqs && Dropping(Next(s, e).reqs[rid], u)
    ensures Counter(Next(s, e).w, u) == 0
  {
    var s' := Next(s, e);
    SumNonNegative(s'.reqs, HoldsF(u));
    if e.Go? {
      var r := s.reqs[e.rid];
      if r.Upload? {
        UploadCounter(s.w, e.rid, r.args, r.upc, e.ch, u);
        ComesToDel(s.w, e.rid, r.args, r.upc, e.ch);
        assert s'.w == UploadStep(s.w, e.rid, r.args, r.upc, e.ch).0;
      } else {
        OthersLeaveCounter(s.w, e.rid, r, e.ch);
        assert s'.w.sem == s.w.sem;
      }
      if rid != e.rid {
        assert Dropping(s.reqs[rid], u) && Counter(s.w, u) == 0;
        NobodyHolds(s, e.rid, u);
      }
      hide Act, CounterAgrees, UploadStep;
    } else {
      assert Dropping(s.reqs[rid], u) && Counter(s.w, u) == 0;
    }
  }

  // With the counter at zero and in agreement nobody holds a slot.
  lemma NobodyHolds(s: State, rid: ReqId, u: UserId)
    requires CounterAgrees(s, u) && Counter(s.w, u) == 0 && rid in s.reqs
    ensures !Holds(s.reqs[rid], u)
  {
    hide Counter;
    SumAtLeast(s.reqs, rid, HoldsF(u));
  }

  lemma ComesToDel(w: World, rid: ReqId, a: UploadArgs, pc: UploadPc, ch: Choice)
    ensures var (w', pc') := UploadStep(w, rid, a, pc, ch); pc'.DroppingKey? ==> Counter(w', a.owner) <= 0
  {
    hide AdmissionError, ThumbnailError, UuidsOk, NewRow, BlobPath, ThumbPath, RowOrFresh;
  }

  lemma ReleaseStep(s: State, e: Event)
    requires ReleaseInv(s) && Enabled(s, e) && ReleaseUndisturbed(s, e)
    ensures ReleaseInv(Next(s, e))
  {
    ReleaseIsClean(s, e);
    AgreementStepExact(s, e);
    var s' := Next(s, e);
    forall rid, u | rid in s'.reqs && Dropping(s'.reqs[rid], u) ensures Counter(s'.w, u) == 0 {
      DroppingAfter(s, e, rid, u);
    }
  }

  lemma {:induction false} ReleaseRun(s: State, events: seq<Event>)
    requires ReleaseInv(s) && Run(s, events) && Along(s, events, ReleaseUndisturbed)
    ensures Along(s, events, SemClean)
    decreases |events|
  {
    hide ReleaseInv, Next, Enabled, ReleaseUndisturbed, SemClean;
    if events != [] {
      ReleaseIsClean(s, events[0]);
      ReleaseStep(s, events[0]);
      ReleaseRun(Next(s, events[0]), events[1..]);
    }
  }

  // With release as good as one step the counters are clean, hence at most three uploads are inside, whatever
  // becomes of the caches and of failing invalidations.
  lemma ReleaseMeansClean(s: State, events: seq<Event>)
    requires Init(s) && Run(s, events) && Along(s, events, ReleaseUndisturbed)
    ensures Along(s, events, SemClean)
  {
    forall u ensures CounterAgrees(s, u) {
      InitSem(s, u);
    }
    hide CounterAgrees;
    ReleaseRun(s, events);
  }

  // ----- quota read-through -----

  /** A row of this user has been read and is to be cached. */
  predicate Caching(r: Req, u: UserId, row: QuotaRow) {
    AboutToSet(r, u, row)
  }

  /** The next step of this request is a charge, a refund or the reset. */
  predicate WritesQuota(r: Req, u: UserId) {
    || (r.Upload? && r.args.owner == u && r.upc.Indexed?)
    || (r.Delete? && r.requester == u && r.dpc.Refunding?)
    || (r.Reset? && r.rpc.ResetStart?)
  }

  /** No write of the row falls between its read and the cache SET. */
  ghost predicate ReadUndisturbed(s: State, e: Event) {
    e.Go? && e.rid in s.reqs ==>
      forall rid, u, row :: rid in s.reqs && Caching(s.reqs[rid], u, row) ==> !WritesQuota(s.reqs[e.rid], u)
  }

  ghost predicate RowCurrent(w: World, u: UserId, row: QuotaRow) {
    u in w.quota && w.quota[u] == row
  }

  ghost predicate ReadInv(s: State) {
    forall rid, u, row :: rid in s.reqs && Caching(s.reqs[rid], u, row) ==> RowCurrent(s.w, u, row)
  }

  lemma ReadIsClean(s: State, e: Event)
    requires ReadInv(s) && Enabled(s, e)
    ensures SetClean(s, e)
  {
    if e.Go? {
      var r := s.reqs[e.rid];
      if r.Upload? && r.upc.QuotaRead? {
        assert Caching(s.reqs[e.rid], r.args.owner, r.upc.row);
        assert RowCurrent(s.w, r.args.owner, r.upc.row);
      } else if r.Alert? && r.apc.AlertRead? {
        assert Caching(s.reqs[e.rid], r.user, r.apc.row);
        assert RowCurrent(s.w, r.user, r.apc.row);
      }
    }
  }

  // A step leaves a row alone unless it is one of those, and what it has just read is what is there.
  lemma ReadAfter(w: World, rid: ReqId, r: Req, ch: Choice, u: UserId, row: QuotaRow)
    ensures var (w', r') := Act(w, rid, r, ch);
      && (Caching(r', u, row) ==> RowCurrent(w', u, row))
      && (!WritesQuota(r, u) && RowCurrent(w, u, row) ==> RowCurrent(w', u, row))
  {
    hide UploadStep, DeleteStep, ShareStep, MetaStep, BlobStep, AlertStep, ResetStep;
    match r
    case Upload(a, pc) => UploadReads(w, rid, a, pc, ch, u, row);
    case Delete(id, requester, pc) =>
      DeleteTable(w, rid, id, requester, pc, ch);
    case Share(id, requester, users, pc) => ShareFrame(w, id, requester, users, pc);
    case GetMeta(id, requester, pc) => MetaFrame(w, id, requester, pc);
    case GetBlob(id, requester, pc) => BlobFrame(w, id, requester, pc);
    case Alert(v, pc) => AlertReads(w, v, pc, ch, u, row);
    case Reset(pc) => ResetReads(w, pc, ch);
  }

  lemma ResetReads(w: World, pc: ResetPc, ch: Choice)
    ensures !pc.ResetStart? ==> ResetStep(w, pc, ch).0.quota == w.quota
  {}

  lemma UploadReads(w: World, rid: ReqId, a: UploadArgs, pc: UploadPc, ch: Choice, u: UserId, row: QuotaRow)
    ensures var (w', pc') := UploadStep(w, rid, a, pc, ch);
      && (Caching(Upload(a, pc'), u, row) ==> RowCurrent(w', u, row))
      && (!WritesQuota(Upload(a, pc), u) && RowCurrent(w, u, row) ==> RowCurrent(w', u, row))
  {
    UploadRow(w, rid, a, pc, ch, u);
    OnlyMissReads(w, rid, a, pc, ch);
    hide UploadStep, FreshRow, Charge;
  }

  lemma OnlyMissReads(w: World, rid: ReqId, a: UploadArgs, pc: UploadPc, ch: Choice)
    ensures UploadStep(w, rid, a, pc, ch).1.QuotaRead? ==> pc.QuotaMiss?
  {
    hide AdmissionError, ThumbnailError, UuidsOk, NewRow, BlobPath, ThumbPath, RowOrFresh;
  }

  lemma AlertReads(w: World, v: UserId, pc: AlertPc, ch: Choice, u: UserId, row: QuotaRow)
    ensures var (w', pc') := AlertStep(w, v, pc, ch);
      && (Caching(Alert(v, pc'), u, row) ==> RowCurrent(w', u, row))
      && (RowCurrent(w, u, row) ==> RowCurrent(w', u, row))
  {
    hide FreshRow, Rehydrate, Dehydrate, Alerts.Round;
  }

  lemma ReadStep(s: State, e: Event)
    requires ReadInv(s) && Enabled(s, e) && ReadUndisturbed(s, e)
    ensures ReadInv(Next(s, e))
  {
    hide Act, RowCurrent;
    var s' := Next(s, e);
    forall rid, u, row | rid in s'.reqs && Caching(s'.reqs[rid], u, row) ensures RowCurrent(s'.w, u, row) {
      if e.Go? {
        ReadAfter(s.w, e.rid, s.reqs[e.rid], e.ch, u, row);
        assert rid != e.rid ==> Caching(s.reqs[rid], u, row);
      } else {
        assert Caching(s.reqs[rid], u, row);
        SameRows(s.w, s'.w, u, row);
      }
    }
  }

  lemma SameRows(w: World, w': World, u: UserId, row: QuotaRow)
    requires w'.quota == w.quota
    ensures RowCurrent(w', u, row) <==> RowCurrent(w, u, row)
  {}

  lemma {:induction false} ReadRun(s: State, events: seq<Event>)
    requires ReadInv(s) && Run(s, events) && Along(s, events, ReadUndisturbed)
    ensures Along(s, events, SetClean)
    decreases |events|
  {
    hide ReadInv, Next, Enabled, ReadUndisturbed, SetClean;
    if events != [] {
      ReadIsClean(s, events[0]);
      ReadStep(s, events[0]);
      ReadRun(Next(s, events[0]), events[1..]);
    }
  }

  // With quota read-through as good as one step no cache SET is late.
  lemma ReadMeansClean(s: State, events: seq<Event>)
    requires Init(s) && Run(s, events) && Along(s, events, ReadUndisturbed)
    ensures Along(s, events, SetClean)
  {
    assert ReadInv(s);
    hide Init;
    ReadRun(s, events);
  }

  // ----- metadata read-through -----

  predicate Loaded(r: Req, id: MediaId, entry: CachedMeta) {
    r.GetMeta? && r.id == id && r.mpc == MetaLoaded(entry)
  }

  /** The next step of this request is a merge's write, or the transaction of a share or of a delete. */
  predicate WritesMeta(r: Req, id: MediaId) {
    || (r.Upload? && r.upc.MergeWrite? && r.upc.id == id)
    || (r.Share? && r.spc.Sharing? && r.id == id)
    || (r.Delete? && r.dpc.Finding? && r.id == id)
  }

  /** No write of the media falls between its read and the cache SET, and a merge's invalidation does not fail. */
  ghost predicate LoadUndisturbed(s: State, e: Event) {
    e.Go? && e.rid in s.reqs ==>
      && (s.reqs[e.rid].Upload? && s.reqs[e.rid].upc.MergeUncache? ==> e.ch.ok)
      && forall rid, id, entry :: rid in s.reqs && Loaded(s.reqs[rid], id, entry) ==> !WritesMeta(s.reqs[e.rid], id)
  }

  ghost predicate LoadInv(s: State) {
    Inv(s) && forall rid, id, entry :: rid in s.reqs && Loaded(s.reqs[rid], id, entry) ==>
      MetaCache.View(s.w, id) == Some(entry)
  }

  lemma LoadIsClean(s: State, e: Event)
    requires LoadInv(s) && Enabled(s, e) && LoadUndisturbed(s, e)
    ensures MetaClean(s, e)
  {
    hide Inv, MetaCache.View;
    if e.Go? {
      var r := s.reqs[e.rid];
      if r.GetMeta? && r.mpc.MetaLoaded? {
        assert Loaded(r, r.id, r.mpc.entry);
      }
    }
  }

  lemma LoadAfter(s: State, rid: ReqId, ch: Choice, id: MediaId, entry: CachedMeta)
    requires Inv(s) && rid in s.reqs && MetaClean(s, Go(rid, ch))
    ensures var (w', r') := Act(s.w, rid, s.reqs[rid], ch);
      && (Loaded(r', id, entry) ==> MetaCache.View(w', id) == Some(entry))
      && (!WritesMeta(s.reqs[rid], id) && MetaCache.View(s.w, id) == Some(entry) ==>
          MetaCache.View(w', id) == Some(entry))
  {
    ActMeta(s, rid, ch, id);
    ViewNeedsRow(s.w, id);
    OnlyWritersOwe(s.w, rid, s.reqs[rid], ch, id);
    var w' := Act(s.w, rid, s.reqs[rid], ch).0;
    if w'.media == s.w.media {
      SameView(s.w, w', id);
    }
    if s.reqs[rid].GetMeta? {
      MetaLoads(s.w, s.reqs[rid].id, s.reqs[rid].requester, s.reqs[rid].mpc);
    }
    NoOtherLoads(s.w, rid, s.reqs[rid], ch);
    hide Inv, Act, MetaCache.View;
  }

  lemma MetaLoads(w: World, id: MediaId, requester: UserId, pc: MetaPc)
    ensures var (w', pc') := MetaStep(w, id, requester, pc);
      w'.media == w.media && (pc'.MetaLoaded? ==> MetaCache.View(w', id) == Some(pc'.entry))
  {
    hide RowReadable, EntryReadable;
  }

  lemma NoOtherLoads(w: World, rid: ReqId, r: Req, ch: Choice)
    ensures Act(w, rid, r, ch).1.GetMeta? <==> r.GetMeta?
    ensures r.GetMeta? ==> Act(w, rid, r, ch).1.id == r.id
  {
    hide UploadStep, DeleteStep, ShareStep, MetaStep, BlobStep, AlertStep, ResetStep;
  }

  // A request owes an invalidation after a step only if that step may write the media, or writes nothing to the table.
  lemma OnlyWritersOwe(w: World, rid: ReqId, r: Req, ch: Choice, id: MediaId)
    ensures var (w', r') := Act(w, rid, r, ch); OwesMeta(r', id) ==> WritesMeta(r, id) || w'.media == w.media
  {
    hide UploadStep, DeleteStep, ShareStep, MetaStep, BlobStep, AlertStep, ResetStep;
    match r
    case Upload(a, pc) => OnlyWriteOwes(w, rid, a, pc, ch);
    case Delete(mid, requester, pc) =>
      DeleteTable(w, rid, mid, requester, pc, ch);
      DeleteEntry(w, rid, mid, requester, pc, ch);
    case Share(mid, requester, users, pc) => ShareEntry(w, mid, requester, users, pc);
    case _ =>
  }

  lemma OnlyWriteOwes(w: World, rid: ReqId, a: UploadArgs, pc: UploadPc, ch: Choice)
    ensures var pc' := UploadStep(w, rid, a, pc, ch).1; pc'.MergeUncache? ==> pc.MergeWrite? && pc'.id == pc.id
  {
    hide AdmissionError, ThumbnailError, UuidsOk, NewRow, BlobPath, ThumbPath, RowOrFresh;
  }

  lemma LoadStep(s: State, e: Event)
    requires LoadInv(s) && Enabled(s, e) && LoadUndisturbed(s, e)
    ensures LoadInv(Next(s, e))
  {
    InvStep(s, e);
    LoadIsClean(s, e);
    hide Inv, Act, MetaClean, MetaCache.View;
    var s' := Next(s, e);
    forall rid, id, entry | rid in s'.reqs && Loaded(s'.reqs[rid], id, entry)
      ensures MetaCache.View(s'.w, id) == Some(entry)
    {
      if e.Go? {
        LoadAfter(s, e.rid, e.ch, id, entry);
        assert rid != e.rid ==> Loaded(s.reqs[rid], id, entry);
      } else {
        assert Loaded(s.reqs[rid], id, entry);
        SameView(s.w, s'.w, id);
      }
    }
  }

  lemma SameView(w: World, w': World, id: MediaId)
    requires w'.media == w.media
    ensures MetaCache.View(w', id) == MetaCache.View(w, id)
  {}

  lemma {:induction false} LoadRun(s: State, events: seq<Event>)
    requires LoadInv(s) && Run(s, events) && Along(s, events, LoadUndisturbed)
    ensures Along(s, events, MetaClean)
    decreases |events|
  {
    hide LoadInv, Next, Enabled, LoadUndisturbed, MetaClean;
    if events != [] {
      LoadIsClean(s, events[0]);
      LoadStep(s, events[0]);
      LoadRun(Next(s, events[0]), events[1..]);
    }
  }

  // With metadata read-through as good as one step the metadata cache is clean.
  lemma LoadMeansClean(s: State, events: seq<Event>)
    requires Init(s) && Run(s, events) && Along(s, events, LoadUndisturbed)
    ensures Along(s, events, MetaClean)
  {
    InitInv(s);
    assert LoadInv(s);
    hide Init, Inv;
    LoadRun(s, events);
  }

  // ----- merge -----

  predicate Merging(r: Req, id: MediaId, next: seq<UserId>) {
    r.Upload? && r.upc == MergeWrite(id, next)
  }

  /** The next step of this request is a merge's write or the transaction of a share. */
  predicate WritesList(r: Req, id: MediaId) {
    (r.Upload? && r.upc.MergeWrite? && r.upc.id == id) || (r.Share? && r.spc.Sharing? && r.id == id)
  }

  /** No other write of the list falls between a merge's read and its write. */
  ghost predicate MergeUndisturbed(s: State, e: Event) {
    e.Go? && e.rid in s.reqs ==>
      forall rid, id, next :: rid in s.reqs && Merging(s.reqs[rid], id, next) && WritesList(s.reqs[e.rid], id) ==>
        Moves(e, rid)
  }

  ghost predicate ListIsPrefix(w: World, id: MediaId, next: seq<UserId>) {
    id in w.media && AclOf(w, id) <= next
  }

  ghost predicate MergeInv(s: State) {
    Inv(s) && forall rid, id, next :: rid in s.reqs && Merging(s.reqs[rid], id, next) ==> ListIsPrefix(s.w, id, next)
  }

  lemma MergeIsClean(s: State, e: Event)
    requires MergeInv(s) && Enabled(s, e)
    ensures AclClean(s, e)
  {
    hide Inv;
    if e.Go? {
      var r := s.reqs[e.rid];
      if r.Upload? && r.upc.MergeWrite? {
        assert Merging(s.reqs[e.rid], r.upc.id, r.upc.next);
        assert ListIsPrefix(s.w, r.upc.id, r.upc.next);
      }
    }
  }

  lemma UploadMerges(w: World, rid: ReqId, a: UploadArgs, pc: UploadPc, ch: Choice, id: MediaId, next: seq<UserId>)
    requires AclsOk(w)
    ensures var (w', pc') := UploadStep(w, rid, a, pc, ch);
      pc' == MergeWrite(id, next) ==> pc == DedupHit(id) && ListIsPrefix(w', id, next)
  {
    hide AdmissionError, ThumbnailError, UuidsOk, NewRow, WellFormed, Union;
    if pc.DedupHit? && pc.id in w.media {
      UnionWellFormed(AclOf(w, pc.id), a.sharedWith, w.media[pc.id].ownerId);
    }
  }

  lemma MergeAfter(s: State, rid: ReqId, ch: Choice, id: MediaId, next: seq<UserId>)
    requires Inv(s) && rid in s.reqs
    ensures var (w', r') := Act(s.w, rid, s.reqs[rid], ch);
      && (Merging(r', id, next) ==> ListIsPrefix(w', id, next))
      && (!WritesList(s.reqs[rid], id) && ListIsPrefix(s.w, id, next) ==> ListIsPrefix(w', id, next))
  {
    if id in s.w.media {
      ActChange(s, rid, ch, id);
    }
    if s.reqs[rid].Upload? {
      assert AclsOk(s.w);
      UploadMerges(s.w, rid, s.reqs[rid].args, s.reqs[rid].upc, ch, id, next);
    } else if s.reqs[rid].Share? {
      ShareEntry(s.w, s.reqs[rid].id, s.reqs[rid].requester, s.reqs[rid].users, s.reqs[rid].spc);
    }
    hide Inv, UploadStep, DeleteStep, ShareStep, MetaStep, BlobStep, AlertStep, ResetStep;
  }

  lemma MergeStep(s: State, e: Event)
    requires MergeInv(s) && Enabled(s, e) && MergeUndisturbed(s, e)
    ensures MergeInv(Next(s, e))
  {
    InvStep(s, e);
    hide Inv, Enabled, MergeUndisturbed, Next, Merging;
    var s' := Next(s, e);
    forall rid, id, next | rid in s'.reqs && Merging(s'.reqs[rid], id, next) ensures ListIsPrefix(s'.w, id, next) {
      StillPrefix(s, e, rid, id, next);
    }
  }

  lemma StillPrefix(s: State, e: Event, rid: ReqId, id: MediaId, next: seq<UserId>)
    requires MergeInv(s) && Enabled(s, e) && MergeUndisturbed(s, e)
    requires rid in Next(s, e).reqs && Merging(Next(s, e).reqs[rid], id, next)
    ensures ListIsPrefix(Next(s, e).w, id, next)
  {
    hide Inv, Act, ListIsPrefix;
    if e.Go? {
      MergeAfter(s, e.rid, e.ch, id, next);
      assert rid != e.rid ==> Merging(s.reqs[rid], id, next);
    } else {
      assert Merging(s.reqs[rid], id, next);
      SameLists(s.w, Next(s, e).w, id, next);
    }
  }

  lemma SameLists(w: World, w': World, id: MediaId, next: seq<UserId>)
    requires w'.media == w.media
    ensures ListIsPrefix(w', id, next) <==> ListIsPrefix(w, id, next)
  {}

  lemma {:induction false} MergeRun(s: State, events: seq<Event>)
    requires MergeInv(s) && Run(s, events) && Along(s, events, MergeUndisturbed)
    ensures Along(s, events, AclClean)
    decreases |events|
  {
    hide MergeInv, Next, Enabled, MergeUndisturbed, AclClean;
    if events != [] {
      MergeIsClean(s, events[0]);
      MergeStep(s, events[0]);
      MergeRun(Next(s, events[0]), events[1..]);
    }
  }

  // With a dedup merge as good as one step no merge is stale.
  lemma MergeMeansClean(s: State, events: seq<Event>)
    requires Init(s) && Run(s, events) && Along(s, events, MergeUndisturbed)
    ensures Along(s, events, AclClean)
  {
    InitInv(s);
    assert MergeInv(s);
    hide Init, Inv;
    MergeRun(s, events);
  }

  // ----- all of them -----

  /** No section is disturbed and no invalidation fails. */
  ghost predicate Orderly(s: State, e: Event) {
    && ReleaseUndisturbed(s, e) && ReadUndisturbed(s, e) && LoadUndisturbed(s, e) && MergeUndisturbed(s, e)
    && ChargeFlushed(s, e) && RefundFlushed(s, e)
  }

  lemma {:induction false} AlongParts(s: State, events: seq<Event>)
    requires Run(s, events) && Along(s, events, Orderly)
    ensures Along(s, events, ReleaseUndisturbed) && Along(s, events, ReadUndisturbed)
    ensures Along(s, events, LoadUndisturbed) && Along(s, events, MergeUndisturbed)
    ensures Along(s, events, ChargeFlushed) && Along(s, events, RefundFlushed)
    decreases |events|
  {
    hide Next, Enabled, ReleaseUndisturbed, ReadUndisturbed, LoadUndisturbed, MergeUndisturbed,
      ChargeFlushed, RefundFlushed;
    if events != [] {
      AlongParts(Next(s, events[0]), events[1..]);
    }
  }

  lemma {:induction false} AlongQuota(s: State, events: seq<Event>)
    requires Run(s, events) && Along(s, events, SemClean) && Along(s, events, SetClean)
    requires Along(s, events, ChargeFlushed) && Along(s, events, RefundFlushed)
    ensures Along(s, events, BothClean) && Along(s, events, AgreeClean)
    decreases |events|
  {
    hide Next, Enabled, SemClean, SetClean, ChargeFlushed, RefundFlushed;
    if events != [] {
      AlongQuota(Next(s, events[0]), events[1..]);
    }
  }

  // An orderly run is clean in every sense the other modules ask for; each part comes from its own section alone.
  lemma OrderlyMeansClean(s: State, events: seq<Event>)
    requires Init(s) && Run(s, events) && Along(s, events, Orderly)
    ensures Along(s, events, SemClean) && Along(s, events, BothClean) && Along(s, events, AgreeClean)
    ensures Along(s, events, MetaClean) && Along(s, events, AclClean)
  {
    hide Init, Orderly;
    AlongParts(s, events);
    ReleaseMeansClean(s, events);
    ReadMeansClean(s, events);
    LoadMeansClean(s, events);
    MergeMeansClean(s, events);
    AlongQuota(s, events);
  }

  lemma {:induction false} RunsJoin(s: State, before: seq<Event>, more: seq<Event>, p: (State, Event) -> bool)
    requires Run(s, before) && Run(After(s, before), more) && Along(s, before, p) && Along(After(s, before), more, p)
    ensures Run(s, before + more) && After(s, before + more) == After(After(s, before), more)
    ensures Along(s, before + more, p)
    decreases |before|
  {
    hide Next, Enabled;
    if before == [] {
      assert before + more == more;
    } else {
      RunsJoin(Next(s, before[0]), before[1..], more, p);
      assert (before + more)[0] == before[0] && (before + more)[1..] == before[1..] + more;
    }
  }

  // So in an orderly run no user is more than two uploads above a limit or has more than three uploads inside, with
  // no invalidation outstanding both caches answer as the tables would, and from any moment on lists only grow.
  lemma OrderlyGuarantees(s: State, before: seq<Event>, more: seq<Event>, u: UserId,
                          size: int, id: MediaId, requester: UserId)
    requires Init(s) && Run(s, before) && Along(s, before, Orderly)
    requires Run(After(s, before), more) && Along(After(s, before), more, Orderly)
    ensures AclsGrow(After(s, before).w, After(After(s, before), more).w)
    ensures var t := After(After(s, before), more);
      && (u in t.w.quota ==>
            && t.w.quota[u].storageUsed <= t.w.quota[u].storageLimit + 209_715_200
            && t.w.quota[u].filesCount <= t.w.quota[u].filesLimit + 2
            && t.w.quota[u].dailyUploads <= t.w.quota[u].dailyUploadLimit + 2)
      && |Insiders(t, u)| <= 3
      && (u in t.w.quotaCache && !Outstanding(t, u) ==>
            u in t.w.quota && Verdict(Rehydrate(t.w.quotaCache[u]), size) == Verdict(t.w.quota[u], size))
      && (!OutstandingMeta(t, id) ==> MetaOutcome(t.w, id, requester) == MetaFromTable(t.w, id, requester))
  {
    hide Init, Run, After, Along, Insiders, AclsGrow, Outstanding, OutstandingMeta, MetaOutcome, MetaFromTable, Verdict,
      Orderly;
    var events := before + more;
    RunsJoin(s, before, more, Orderly);
    OrderlyMeansClean(s, events);
    OvershootBound(s, events, u);
    AtMostThreeInside(s, events, u);
    OrderlyListsGrow(s, before, more);
    if u in After(s, events).w.quotaCache && !Outstanding(After(s, events), u) {
      CacheDecidesLikeTable(s, events, u, size);
    }
    if !OutstandingMeta(After(s, events), id) {
      CacheAnswersLikeTable(s, events, id, requester);
    }
  }

  lemma {:induction false} AlongSuffix(s: State, before: seq<Event>, more: seq<Event>, p: (State, Event) -> bool)
    requires Run(s, before) && Run(After(s, before), more) && Run(s, before + more) && Along(s, before + more, p)
    ensures Along(After(s, before), more, p)
    decreases |before|
  {
    hide Next, Enabled;
    if before == [] {
      assert before + more == more;
    } else {
      assert (before + more)[0] == before[0] && (before + more)[1..] == before[1..] + more;
      AlongSuffix(Next(s, before[0]), before[1..], more, p);
    }
  }

  lemma OrderlyListsGrow(s: State, before: seq<Event>, more: seq<Event>)
    requires Init(s) && Run(s, before) && Along(s, before, Orderly)
    requires Run(After(s, before), more) && Along(After(s, before), more, Orderly)
    ensures AclsGrow(After(s, before).w, After(After(s, before), more).w)
  {
    hide Init, Orderly, AclsGrow, AclClean;
    RunsJoin(s, before, more, Orderly);
    OrderlyMeansClean(s, before + more);
    AlongSuffix(s, before, more, AclClean);
    ListsOnlyGrow(s, before, more);
  }
}

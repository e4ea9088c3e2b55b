/**
 * How far a user can exceed a quota.
 *
 * The check reads a cache that may lag behind the table, and the table is charged only after the upload. What
 * bounds the overshoot is that an upload stays inside until its own cache invalidation is done. With never more
 * than n uploads of the user inside at once,
 * used + admitted-but-unrecorded <= limit + (n - 1) * max, at every step of every interleaving;
 * as long as the counters are clean n is three.
 */
module Overshoot {
  import opened Base
  import opened Sums
  import opened Quota
  import opened Admission
  import opened Protocol
  import opened Frames
  import opened Semaphore
  import opened Invariant
  import opened Integrity

  /** The three things a quota limits. */
  datatype Dim = Storage | Files | Daily

  function Used(row: QuotaRow, d: Dim): int {
    match d case Storage => row.storageUsed case Files => row.filesCount case Daily => row.dailyUploads
  }

  function Limit(row: QuotaRow, d: Dim): int {
    match d case Storage => row.storageLimit case Files => row.filesLimit case Daily => row.dailyUploadLimit
  }

  function Weight(a: UploadArgs, d: Dim): int {
    if d == Storage then a.file.size else 1
  }

  /** The most one upload can add: 100 MB, one file, one upload. */
  function MaxWeight(d: Dim): int {
    if d == Storage then UPLOAD_MAX_BYTES else 1
  }

  /** Admitted by the quota check, which was decided when the row was read, and still able to record. */
  predicate PendingPc(a: UploadArgs, pc: UploadPc) {
    || (pc.QuotaRead? && Verdict(pc.row, a.file.size) == Allowed)
    || pc.Checked? || pc.DedupHit? || pc.Fresh? || pc.BlobPut? || pc.ReadyToSave? || pc.Saved? || pc.Indexed?
  }

  function PendingWeight(r: Req, u: UserId, d: Dim): int {
    if r.Upload? && r.args.owner == u && PassedChecks(r.args) && PendingPc(r.args, r.upc) then Weight(r.args, d) else 0
  }

  /** Recorded, its quota-cache invalidation still to come. */
  function UnflushedWeight(r: Req, u: UserId, d: Dim): int {
    if r.Upload? && r.args.owner == u && PassedChecks(r.args) && r.upc.Recorded? then Weight(r.args, d) else 0
  }

  ghost function PendingF(u: UserId, d: Dim): Req -> int {
    (r: Req) => PendingWeight(r, u, d)
  }

  ghost function UnflushedF(u: UserId, d: Dim): Req -> int {
    (r: Req) => UnflushedWeight(r, u, d)
  }

  ghost function BothF(u: UserId, d: Dim): Req -> int {
    (r: Req) => PendingWeight(r, u, d) + UnflushedWeight(r, u, d)
  }

  /** What all but one of `n` maximal uploads weigh. */
  function Excess(n: int, d: Dim): int {
    (n - 1) * MaxWeight(d)
  }

  ghost predicate BoundInv(s: State, u: UserId, d: Dim, n: int) {
    u in s.w.quota ==>
      Used(s.w.quota[u], d) + Sum(s.reqs, PendingF(u, d)) <= Limit(s.w.quota[u], d) + Excess(n, d)
  }

  /** The cache may lag behind the table by no more than the uploads whose invalidation is still to come. */
  ghost predicate LagInv(s: State, u: UserId, d: Dim) {
    u in s.w.quotaCache ==>
      && u in s.w.quota
      && Limit(Rehydrate(s.w.quotaCache[u]), d) == Limit(s.w.quota[u], d)
      && Used(Rehydrate(s.w.quotaCache[u]), d) + Sum(s.reqs, UnflushedF(u, d)) >= Used(s.w.quota[u], d)
  }

  ghost predicate QuotaInv(s: State, u: UserId, d: Dim, n: int) {
    BoundInv(s, u, d, n) && LagInv(s, u, d)
  }

  /** At most `n` uploads of the user are inside. */
  ghost predicate Crowd(s: State, u: UserId, n: int) {
    Sum(s.reqs, InsideF(u)) <= n
  }

  /** No cache SET is late: the row is still the one that was read. */
  predicate SetClean(s: State, e: Event) {
    e.Go? && e.rid in s.reqs && e.ch.ok ==>
      match s.reqs[e.rid]
      case Upload(a, QuotaRead(row)) => a.owner in s.w.quota && s.w.quota[a.owner] == row
      case Alert(u, AlertRead(row)) => u in s.w.quota && s.w.quota[u] == row
      case _ => true
  }

  /** The invalidation after a recorded upload does not fail. */
  predicate ChargeFlushed(s: State, e: Event) {
    e.Go? && e.rid in s.reqs && s.reqs[e.rid].Upload? && s.reqs[e.rid].upc.Recorded? ==> e.ch.ok
  }

  predicate QuotaClean(s: State, e: Event) {
    SetClean(s, e) && ChargeFlushed(s, e)
  }

  // ----- weights -----

  lemma WeightBounds(r: Req, u: UserId, d: Dim)
    ensures 0 <= PendingWeight(r, u, d) + UnflushedWeight(r, u, d) <= (if Inside(r, u) then MaxWeight(d) else 0)
    ensures PendingWeight(r, u, d) >= 0 && UnflushedWeight(r, u, d) >= 0
  {
    hide MagicOk, Allowlist;
  }

  // While one upload is inside without weighing anything yet, the others weigh at most one upload each.
  lemma RoomForOthers(s: State, rid: ReqId, u: UserId, d: Dim, n: int)
    requires Crowd(s, u, n) && rid in s.reqs && Inside(s.reqs[rid], u)
    requires PendingWeight(s.reqs[rid], u, d) == 0 && UnflushedWeight(s.reqs[rid], u, d) == 0
    ensures Sum(s.reqs, PendingF(u, d)) + Sum(s.reqs, UnflushedF(u, d)) <= Excess(n, d)
  {
    hide PendingWeight, UnflushedWeight, Inside;
    var rest := s.reqs - {rid};
    SumRemove(s.reqs, rid, InsideF(u));
    SumRemove(s.reqs, rid, PendingF(u, d));
    SumRemove(s.reqs, rid, UnflushedF(u, d));
    SumAdds(rest, PendingF(u, d), UnflushedF(u, d), BothF(u, d));
    forall k | k in rest ensures BothF(u, d)(rest[k]) <= MaxWeight(d) * InsideF(u)(rest[k]) {
      WeightBounds(rest[k], u, d);
    }
    SumScaled(rest, BothF(u, d), InsideF(u), MaxWeight(d));
    assert Sum(rest, InsideF(u)) <= n - 1;
    Scale(MaxWeight(d), Sum(rest, InsideF(u)), n - 1);
  }

  lemma Scale(c: int, k: int, n: int)
    requires c >= 0 && k <= n
    ensures c * k <= n * c
  {}

  // Somebody without a quota row has nothing pending.
  lemma NoRowNothingPending(s: State, u: UserId, d: Dim)
    requires Inv(s) && u !in s.w.quota
    ensures Sum(s.reqs, PendingF(u, d)) == 0
  {
    forall k | k in s.reqs ensures PendingF(u, d)(s.reqs[k]) == 0 {
      assert Local(s.w, k, s.reqs[k]);
      hide StoreInv, PassedChecks;
    }
    SumZero(s.reqs, PendingF(u, d));
  }

  // ----- what a step does to one user's row and cache entry -----

  predicate SameRow(w: World, w': World, u: UserId) {
    (u in w'.quota <==> u in w.quota) && (u in w.quota ==> w'.quota[u] == w.quota[u])
  }

  predicate SameEntry(w: World, w': World, u: UserId) {
    (u in w'.quotaCache <==> u in w.quotaCache) && (u in w.quotaCache ==> w'.quotaCache[u] == w.quotaCache[u])
  }

  lemma UploadRow(w: World, rid: ReqId, a: UploadArgs, pc: UploadPc, ch: Choice, u: UserId)
    ensures var (w', pc') := UploadStep(w, rid, a, pc, ch);
      if u == a.owner && pc.QuotaMiss? && pc'.QuotaRead?
      then u in w'.quota && w'.quota[u] == RowOrFresh(w, u) == pc'.row
      else if u == a.owner && pc.Indexed? && pc'.Recorded?
      then u in w.quota && a.file.size >= 0 && u in w'.quota && w'.quota[u] == Charge(w.quota[u], a.file.size)
      else SameRow(w, w', u)
  {
    hide Rehydrate, Dehydrate, FreshRow, Charge, AdmissionError, ThumbnailError, NewRow, BlobPath, ThumbPath, UuidsOk;
  }

  lemma UploadEntry(w: World, rid: ReqId, a: UploadArgs, pc: UploadPc, ch: Choice, u: UserId)
    ensures var (w', pc') := UploadStep(w, rid, a, pc, ch);
      if u == a.owner && pc.QuotaRead? && ch.ok
      then u in w'.quotaCache && w'.quotaCache[u] == Dehydrate(pc.row)
      else if u == a.owner && pc.Recorded? && ch.ok then u !in w'.quotaCache
      else SameEntry(w, w', u)
  {
    hide Rehydrate, Dehydrate, FreshRow, Charge, AdmissionError, ThumbnailError, NewRow, BlobPath, ThumbPath, UuidsOk;
  }

  /** The row of a user appears fresh, or does not grow in any dimension and keeps its limits. */
  predicate RowShrinks(w: World, w': World, u: UserId, d: Dim) {
    if u in w.quota then
      u in w'.quota && Used(w'.quota[u], d) <= Used(w.quota[u], d) && Limit(w'.quota[u], d) == Limit(w.quota[u], d)
    else
      u in w'.quota ==> Used(w'.quota[u], d) == 0
  }

  /** The cache entry of a user stays, disappears, or becomes the current row. */
  predicate EntryFollows(w: World, w': World, u: UserId) {
    || u !in w'.quotaCache
    || SameEntry(w, w', u)
    || (u in w'.quota && w'.quotaCache[u] == Dehydrate(w'.quota[u]))
  }

  lemma OthersRow(s: State, rid: ReqId, ch: Choice, u: UserId, d: Dim)
    requires rid in s.reqs && !s.reqs[rid].Upload? && SetClean(s, Go(rid, ch))
    ensures var w' := Act(s.w, rid, s.reqs[rid], ch).0;
      RowShrinks(s.w, w', u, d) && EntryFollows(s.w, w', u)
  {
    var w, r := s.w, s.reqs[rid];
    match r
    case Delete(id, requester, pc) => DeleteRow(w, rid, id, requester, pc, ch, u, d);
    case Share(id, requester, users, pc) => ShareFrame(w, id, requester, users, pc);
    case GetMeta(id, requester, pc) => MetaFrame(w, id, requester, pc);
    case GetBlob(id, requester, pc) => BlobFrame(w, id, requester, pc);
    case Alert(v, pc) => AlertRow(w, v, pc, ch, u, d);
    case Reset(pc) => ResetRowOf(w, pc, ch, u, d);
  }

  lemma DeleteRow(w: World, rid: ReqId, id: MediaId, requester: UserId, pc: DeletePc, ch: Choice, u: UserId, d: Dim)
    ensures var w' := DeleteStep(w, rid, id, requester, pc, ch).0;
      RowShrinks(w, w', u, d) && EntryFollows(w, w', u)
  {
    hide Dehydrate;
  }

  lemma AlertRow(w: World, v: UserId, pc: AlertPc, ch: Choice, u: UserId, d: Dim)
    requires pc.AlertRead? && ch.ok ==> v in w.quota && w.quota[v] == pc.row
    ensures var w' := AlertStep(w, v, pc, ch).0;
      RowShrinks(w, w', u, d) && EntryFollows(w, w', u)
  {
    hide Dehydrate, Rehydrate;
  }

  lemma ResetRowOf(w: World, pc: ResetPc, ch: Choice, u: UserId, d: Dim)
    ensures var w' := ResetStep(w, pc, ch).0;
      RowShrinks(w, w', u, d) && EntryFollows(w, w', u)
  {
    hide Dehydrate;
  }

  // ----- one step -----

  // Requests other than the upload that moves weigh the same; how the two sums change.
  lemma SumsAfter(s: State, rid: ReqId, r': Req, u: UserId, d: Dim)
    requires rid in s.reqs
    ensures Sum(s.reqs[rid := r'], PendingF(u, d))
         == Sum(s.reqs, PendingF(u, d)) - PendingWeight(s.reqs[rid], u, d) + PendingWeight(r', u, d)
    ensures Sum(s.reqs[rid := r'], UnflushedF(u, d))
         == Sum(s.reqs, UnflushedF(u, d)) - UnflushedWeight(s.reqs[rid], u, d) + UnflushedWeight(r', u, d)
  {
    hide PendingWeight, UnflushedWeight;
    SumUpdate(s.reqs, rid, r', PendingF(u, d));
    SumUpdate(s.reqs, rid, r', UnflushedF(u, d));
  }

  lemma SumsNonNegative(s: State, u: UserId, d: Dim)
    ensures Sum(s.reqs, PendingF(u, d)) >= 0 && Sum(s.reqs, UnflushedF(u, d)) >= 0
  {
    forall k | k in s.reqs ensures PendingF(u, d)(s.reqs[k]) >= 0 && UnflushedF(u, d)(s.reqs[k]) >= 0 {
      WeightBounds(s.reqs[k], u, d);
    }
    hide PendingWeight, UnflushedWeight;
    SumNonNegative(s.reqs, PendingF(u, d));
    SumNonNegative(s.reqs, UnflushedF(u, d));
  }

  // A step after which nobody weighs more and the row has not grown.
  lemma ShrinkingKeepsBound(s: State, s': State, u: UserId, d: Dim, n: int)
    requires Inv(s) && BoundInv(s, u, d, n) && RowShrinks(s.w, s'.w, u, d) && Excess(n, d) >= 0
    requires Sum(s'.reqs, PendingF(u, d)) <= Sum(s.reqs, PendingF(u, d))
    ensures BoundInv(s', u, d, n)
  {
    if u !in s.w.quota {
      NoRowNothingPending(s, u, d);
    }
    hide Inv, PendingF, Excess;
  }

  lemma ShrinkingKeepsLag(s: State, s': State, u: UserId, d: Dim)
    requires LagInv(s, u, d)
    requires RowShrinks(s.w, s'.w, u, d) && EntryFollows(s.w, s'.w, u)
    requires Sum(s'.reqs, UnflushedF(u, d)) == Sum(s.reqs, UnflushedF(u, d)) >= 0
    ensures LagInv(s', u, d)
  {
    if u in s'.w.quota {
      RehydrateDehydrate(s'.w.quota[u]);
    }
    hide Dehydrate, Rehydrate, UnflushedF;
  }

  // How an upload's own weights move.
  lemma UploadWeights(w: World, rid: ReqId, a: UploadArgs, pc: UploadPc, ch: Choice, u: UserId, d: Dim)
    ensures var pc' := UploadStep(w, rid, a, pc, ch).1;
      var r, r' := Upload(a, pc), Upload(a, pc');
      && (PendingWeight(r', u, d) > PendingWeight(r, u, d) ==>
            && u == a.owner && PassedChecks(a) && PendingWeight(r', u, d) == Weight(a, d)
            && ((pc.Admitted? && u in w.quotaCache && Verdict(Rehydrate(w.quotaCache[u]), a.file.size) == Allowed)
                || (pc.QuotaMiss? && pc'.QuotaRead? && Verdict(pc'.row, a.file.size) == Allowed)))
      && (pc.Indexed? && pc'.Recorded? && u == a.owner && PassedChecks(a) ==>
            PendingWeight(r, u, d) == Weight(a, d) && PendingWeight(r', u, d) == 0
            && UnflushedWeight(r, u, d) == 0 && UnflushedWeight(r', u, d) == Weight(a, d))
      && (!(pc.Indexed? && pc'.Recorded?) && !pc.Recorded? ==>
            UnflushedWeight(r', u, d) == UnflushedWeight(r, u, d) == 0)
      && (pc.Recorded? ==> UnflushedWeight(r', u, d) == 0 && PendingWeight(r', u, d) == PendingWeight(r, u, d) == 0)
  {
    hide Rehydrate, Dehydrate, FreshRow, Charge, ThumbnailError, NewRow, BlobPath, ThumbPath, UuidsOk, Verdict,
      Admissible, MagicOk, Allowlist;
  }

  // Before an upload is let in it weighs nothing.
  lemma BeforeAdmission(s: State, rid: ReqId, d: Dim, n: int)
    requires rid in s.reqs && s.reqs[rid].Upload? && Crowd(s, s.reqs[rid].args.owner, n)
    requires s.reqs[rid].upc.Admitted? || s.reqs[rid].upc.QuotaMiss?
    ensures var u := s.reqs[rid].args.owner;
      Sum(s.reqs, PendingF(u, d)) + Sum(s.reqs, UnflushedF(u, d)) <= Excess(n, d)
  {
    hide PassedChecks, Crowd, Excess;
    RoomForOthers(s, rid, s.reqs[rid].args.owner, d, n);
  }

  // Letting an upload in: whatever was checked, the row leaves room for it and for the others inside.
  lemma AdmitStep(s: State, rid: ReqId, ch: Choice, d: Dim, n: int)
    requires Inv(s) && rid in s.reqs && s.reqs[rid].Upload? && QuotaInv(s, s.reqs[rid].args.owner, d, n)
    requires Crowd(s, s.reqs[rid].args.owner, n)
    requires s.reqs[rid].upc.Admitted? || s.reqs[rid].upc.QuotaMiss?
    ensures var u := s.reqs[rid].args.owner;
      var (w', r') := Act(s.w, rid, s.reqs[rid], ch);
      BoundInv(State(w', s.reqs[rid := r']), u, d, n)
  {
    var r, w := s.reqs[rid], s.w;
    var a, pc, u := r.args, r.upc, r.args.owner;
    var (w', pc') := UploadStep(w, rid, a, pc, ch);
    var r' := Upload(a, pc');
    UploadRow(w, rid, a, pc, ch, u);
    UploadWeights(w, rid, a, pc, ch, u, d);
    SumsAfter(s, rid, r', u, d);
    BeforeAdmission(s, rid, d, n);
    SumsNonNegative(s, u, d);
    AdmitArithmetic(w, a, d);
    CacheRows(w);
    hide Inv, Crowd, Excess, UploadStep, PendingWeight, UnflushedWeight, PendingF, UnflushedF, Verdict, PassedChecks,
      StoreInv, Rehydrate, FreshRow, Inside;
    assert r' == Act(s.w, rid, r, ch).1;
  }

  // An allowed verdict leaves room for the upload in every dimension.
  lemma AdmitArithmetic(w: World, a: UploadArgs, d: Dim)
    ensures forall q: QuotaRow :: Verdict(q, a.file.size) == Allowed ==> Used(q, d) + Weight(a, d) <= Limit(q, d)
    ensures forall u: UserId :: u !in w.quota ==> Used(RowOrFresh(w, u), d) == 0 <= Limit(RowOrFresh(w, u), d)
  {}

  // Every other step of an upload: what it adds to the row it gives up as pending.
  lemma LaterStep(s: State, rid: ReqId, ch: Choice, d: Dim, n: int)
    requires Inv(s) && rid in s.reqs && s.reqs[rid].Upload? && BoundInv(s, s.reqs[rid].args.owner, d, n)
    requires !s.reqs[rid].upc.Admitted? && !s.reqs[rid].upc.QuotaMiss?
    ensures var u := s.reqs[rid].args.owner;
      var (w', r') := Act(s.w, rid, s.reqs[rid], ch);
      BoundInv(State(w', s.reqs[rid := r']), u, d, n)
  {
    var r, w := s.reqs[rid], s.w;
    var a, pc, u := r.args, r.upc, r.args.owner;
    var (w', pc') := UploadStep(w, rid, a, pc, ch);
    var r' := Upload(a, pc');
    assert r' == Act(s.w, rid, r, ch).1 && w' == Act(s.w, rid, r, ch).0;
    UploadRow(w, rid, a, pc, ch, u);
    UploadWeights(w, rid, a, pc, ch, u, d);
    SumsAfter(s, rid, r', u, d);
    if pc.Indexed? {
      assert UploadLocal(w, rid, a, pc);
      assert PassedChecks(a);
    }
    hide Inv, UploadStep, Act, PendingWeight, UnflushedWeight, PendingF, UnflushedF, Verdict, PassedChecks, StoreInv,
      Excess;
  }

  // Any step of an upload: a charge is owed to the cache until it is flushed, and a SET that is not late is exact.
  lemma UploadKeepsLag(s: State, rid: ReqId, ch: Choice, d: Dim)
    requires Inv(s) && rid in s.reqs && s.reqs[rid].Upload? && LagInv(s, s.reqs[rid].args.owner, d)
    requires QuotaClean(s, Go(rid, ch))
    ensures var u := s.reqs[rid].args.owner;
      var (w', r') := Act(s.w, rid, s.reqs[rid], ch);
      LagInv(State(w', s.reqs[rid := r']), u, d)
  {
    var r, w := s.reqs[rid], s.w;
    var a, pc, u := r.args, r.upc, r.args.owner;
    var (w', pc') := UploadStep(w, rid, a, pc, ch);
    var r' := Upload(a, pc');
    assert r' == Act(s.w, rid, r, ch).1 && w' == Act(s.w, rid, r, ch).0;
    UploadRow(w, rid, a, pc, ch, u);
    UploadEntry(w, rid, a, pc, ch, u);
    UploadWeights(w, rid, a, pc, ch, u, d);
    SumsAfter(s, rid, r', u, d);
    SumsNonNegative(s, u, d);
    CacheRows(w);
    if pc.QuotaRead? {
      RehydrateDehydrate(pc.row);
    }
    if pc.Indexed? {
      assert UploadLocal(w, rid, a, pc);
      assert PassedChecks(a);
    }
    hide Inv, UploadStep, Act, PendingWeight, UnflushedWeight, PendingF, UnflushedF, Verdict, PassedChecks,
      StoreInv, Rehydrate, Dehydrate, FreshRow;
  }

  // Requests of other users, and other kinds of requests, weigh nothing for this user.
  lemma OtherWeights(r: Req, u: UserId, d: Dim)
    requires !r.Upload? || r.args.owner != u
    ensures PendingWeight(r, u, d) == 0 && UnflushedWeight(r, u, d) == 0
  {}

  // A step of somebody else: the row does not grow, the entry follows it, nobody weighs differently.
  lemma OthersStep(s: State, rid: ReqId, ch: Choice, u: UserId, d: Dim)
    requires rid in s.reqs && !(s.reqs[rid].Upload? && s.reqs[rid].args.owner == u) && SetClean(s, Go(rid, ch))
    ensures var (w', r') := Act(s.w, rid, s.reqs[rid], ch);
      && RowShrinks(s.w, w', u, d) && EntryFollows(s.w, w', u)
      && Sum(s.reqs[rid := r'], PendingF(u, d)) == Sum(s.reqs, PendingF(u, d))
      && Sum(s.reqs[rid := r'], UnflushedF(u, d)) == Sum(s.reqs, UnflushedF(u, d))
  {
    var r := s.reqs[rid];
    var (w', r') := Act(s.w, rid, r, ch);
    if r.Upload? {
      UploadRow(s.w, rid, r.args, r.upc, ch, u);
      UploadEntry(s.w, rid, r.args, r.upc, ch, u);
    } else {
      OtherFrame(s.w, rid, r, ch);
      OthersRow(s, rid, ch, u, d);
    }
    OtherWeights(r, u, d);
    OtherWeights(r', u, d);
    SumsAfter(s, rid, r', u, d);
    hide Act, UploadStep, PendingWeight, UnflushedWeight, PendingF, UnflushedF;
  }

  // What is not a step of a request leaves the row and the weights alone, and at most drops the entry.
  lemma OtherEvents(s: State, e: Event, u: UserId, d: Dim)
    requires Enabled(s, e) && !e.Go?
    ensures var s' := Next(s, e);
      && RowShrinks(s.w, s'.w, u, d) && EntryFollows(s.w, s'.w, u)
      && Sum(s'.reqs, PendingF(u, d)) == Sum(s.reqs, PendingF(u, d))
      && Sum(s'.reqs, UnflushedF(u, d)) == Sum(s.reqs, UnflushedF(u, d))
  {
    if e.Spawn? {
      SumUpdate(s.reqs, e.rid, e.req, PendingF(u, d));
      SumUpdate(s.reqs, e.rid, e.req, UnflushedF(u, d));
      assert PendingWeight(e.req, u, d) == 0 && UnflushedWeight(e.req, u, d) == 0;
    }
    hide PendingWeight, UnflushedWeight;
  }

  lemma BoundStep(s: State, e: Event, u: UserId, d: Dim, n: int)
    requires Inv(s) && Enabled(s, e) && QuotaInv(s, u, d, n) && Crowd(s, u, n) && n >= 1 && QuotaClean(s, e)
    ensures BoundInv(Next(s, e), u, d, n)
  {
    hide Inv, BoundInv, LagInv, Crowd, Act, RowShrinks, EntryFollows, PendingF, UnflushedF, Sum;
    Scale(MaxWeight(d), 0, n - 1);
    hide Excess;
    if !e.Go? {
      OtherEvents(s, e, u, d);
      ShrinkingKeepsBound(s, Next(s, e), u, d, n);
    } else if s.reqs[e.rid].Upload? && s.reqs[e.rid].args.owner == u {
      if s.reqs[e.rid].upc.Admitted? || s.reqs[e.rid].upc.QuotaMiss? {
        AdmitStep(s, e.rid, e.ch, d, n);
      } else {
        LaterStep(s, e.rid, e.ch, d, n);
      }
    } else {
      OthersStep(s, e.rid, e.ch, u, d);
      ShrinkingKeepsBound(s, Next(s, e), u, d, n);
    }
  }

  lemma LagStep(s: State, e: Event, u: UserId, d: Dim)
    requires Inv(s) && Enabled(s, e) && LagInv(s, u, d) && QuotaClean(s, e)
    ensures LagInv(Next(s, e), u, d)
  {
    hide Inv, LagInv, Act, RowShrinks, EntryFollows, PendingF, UnflushedF, Sum;
    SumsNonNegative(s, u, d);
    if !e.Go? {
      OtherEvents(s, e, u, d);
      ShrinkingKeepsLag(s, Next(s, e), u, d);
    } else if s.reqs[e.rid].Upload? && s.reqs[e.rid].args.owner == u {
      UploadKeepsLag(s, e.rid, e.ch, d);
    } else {
      OthersStep(s, e.rid, e.ch, u, d);
      ShrinkingKeepsLag(s, Next(s, e), u, d);
    }
  }

  lemma QuotaStep(s: State, e: Event, u: UserId, d: Dim, n: int)
    requires Inv(s) && Enabled(s, e) && QuotaInv(s, u, d, n) && Crowd(s, u, n) && n >= 1 && QuotaClean(s, e)
    ensures QuotaInv(Next(s, e), u, d, n)
  {
    hide Inv, BoundInv, LagInv, Crowd, Next, QuotaClean;
    BoundStep(s, e, u, d, n);
    LagStep(s, e, u, d);
  }

  // ----- whole runs -----

  /** At every moment of the run at most `n` uploads of the user are inside. */
  ghost predicate NeverMoreThan(s: State, events: seq<Event>, u: UserId, n: int)
    requires Run(s, events)
    decreases |events|
  {
    |Insiders(s, u)| <= n && (events == [] || NeverMoreThan(Next(s, events[0]), events[1..], u, n))
  }

  lemma {:induction false} QuotaRun(s: State, events: seq<Event>, u: UserId, d: Dim, n: int)
    requires Inv(s) && QuotaInv(s, u, d, n) && n >= 1
    requires Run(s, events) && NeverMoreThan(s, events, u, n) && Along(s, events, QuotaClean)
    ensures QuotaInv(After(s, events), u, d, n)
    decreases |events|
  {
    SumsAreCounts(s, u);
    assert Crowd(s, u, n);
    hide Inv, QuotaInv, Next, Enabled, Crowd, Insiders, InsideF, HoldsF;
    if events != [] {
      InvStep(s, events[0]);
      QuotaStep(s, events[0], u, d, n);
      QuotaRun(Next(s, events[0]), events[1..], u, d, n);
    }
  }

  lemma InitQuota(s: State, u: UserId, d: Dim, n: int)
    requires Init(s) && n >= 1
    ensures QuotaInv(s, u, d, n)
  {
    Scale(MaxWeight(d), 0, n - 1);
  }

  // Whatever is counted and whatever is admitted but not recorded yet, together.
  lemma CommittedWithin(s: State, events: seq<Event>, u: UserId, d: Dim, n: int)
    requires Init(s) && n >= 1
    requires Run(s, events) && NeverMoreThan(s, events, u, n) && Along(s, events, QuotaClean)
    ensures BoundInv(After(s, events), u, d, n)
  {
    InitInv(s);
    InitQuota(s, u, d, n);
    hide Init, Inv, LagInv, BoundInv, NeverMoreThan;
    QuotaRun(s, events, u, d, n);
  }

  // However many uploads of a user get inside at once, each but one can take the user one upload above a limit.
  lemma OvershootByCrowd(s: State, events: seq<Event>, u: UserId, d: Dim, n: int)
    requires Init(s) && n >= 1
    requires Run(s, events) && NeverMoreThan(s, events, u, n) && Along(s, events, QuotaClean)
    ensures var w := After(s, events).w;
      u in w.quota ==> Used(w.quota[u], d) <= Limit(w.quota[u], d) + (n - 1) * MaxWeight(d)
  {
    hide Init, NeverMoreThan;
    CommittedWithin(s, events, u, d, n);
    SumsNonNegative(After(s, events), u, d);
  }

  predicate BothClean(s: State, e: Event) {
    SemClean(s, e) && QuotaClean(s, e)
  }

  lemma {:induction false} BothParts(s: State, events: seq<Event>)
    requires Run(s, events) && Along(s, events, BothClean)
    ensures Along(s, events, SemClean) && Along(s, events, QuotaClean)
    decreases |events|
  {
    hide Next, Enabled, SemClean, QuotaClean;
    if events != [] {
      BothParts(Next(s, events[0]), events[1..]);
    }
  }

  lemma {:induction false} CleanCrowd(s: State, events: seq<Event>, u: UserId)
    requires Run(s, events) && SemInv(s, u) && Along(s, events, SemClean)
    ensures NeverMoreThan(s, events, u, MAX_CONCURRENT_UPLOADS)
    decreases |events|
  {
    SumsAreCounts(s, u);
    hide Next, Enabled, Insiders, CounterAgrees, InsideF, HoldsF, SemClean;
    if events != [] {
      SemStep(s, events[0], u);
      CleanCrowd(Next(s, events[0]), events[1..], u);
    }
  }

  // No interleaving of uploads, deletes, alerts and resets takes a user more than two uploads above a limit:
  // storage stays within the limit plus 200 MB, files and daily uploads within the limit plus two.
  lemma OvershootBound(s: State, events: seq<Event>, u: UserId)
    requires Init(s) && Run(s, events) && Along(s, events, BothClean)
    ensures var w := After(s, events).w;
      u in w.quota ==>
        && w.quota[u].storageUsed <= w.quota[u].storageLimit + 209_715_200
        && w.quota[u].filesCount <= w.quota[u].filesLimit + 2
        && w.quota[u].dailyUploads <= w.quota[u].dailyUploadLimit + 2
  {
    BothParts(s, events);
    InitSem(s, u);
    CleanCrowd(s, events, u);
    hide Init, NeverMoreThan, Along;
    OvershootByCrowd(s, events, u, Storage, MAX_CONCURRENT_UPLOADS);
    OvershootByCrowd(s, events, u, Files, MAX_CONCURRENT_UPLOADS);
    OvershootByCrowd(s, events, u, Daily, MAX_CONCURRENT_UPLOADS);
  }

  lemma {:induction false} LagRun(s: State, events: seq<Event>, u: UserId, d: Dim)
    requires Inv(s) && LagInv(s, u, d) && Run(s, events) && Along(s, events, QuotaClean)
    ensures LagInv(After(s, events), u, d)
    decreases |events|
  {
    hide Inv, LagInv, Next, Enabled, QuotaClean;
    if events != [] {
      InvStep(s, events[0]);
      LagStep(s, events[0], u, d);
      LagRun(Next(s, events[0]), events[1..], u, d);
    }
  }

  // A cached entry lags behind its row by no more than the recorded uploads whose invalidation is outstanding,
  // whatever becomes of the slot counters.
  lemma CacheLag(s: State, events: seq<Event>, u: UserId, d: Dim)
    requires Init(s) && Run(s, events) && Along(s, events, QuotaClean)
    ensures LagInv(After(s, events), u, d)
  {
    InitInv(s);
    InitQuota(s, u, d, 1);
    hide Init, Inv, LagInv, BoundInv, Run, After;
    LagRun(s, events, u, d);
  }
}

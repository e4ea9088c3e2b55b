/**
 * What a user can really keep in the store.
 *
 * The quota bounds what is counted. An active media counts once its upload has recorded it, so the bytes of the
 * active media stay within the same bound as the counted usage, plus the rows abandoned by uploads that ended between
 * their save and their record. A deleted one still matters: its refund takes back a charge of another media.
 */
module StoredBytes {
  import opened Base
  import opened Sums
  import opened Quota
  import opened Admission
  import opened Protocol
  import opened Frames
  import opened Semaphore
  import opened Invariant
  import opened OtherSteps
  import opened Integrity
  import opened Overshoot
  import opened Conservation

  /** The upload has saved this media and is still to record it. */
  predicate Recording(r: Req, id: MediaId) {
    r.Upload? && (r.upc.Saved? || r.upc.Indexed?) && r.upc.id == id
  }

  /** The upload that saved the media is still to record it. */
  ghost predicate WillRecord(s: State, id: MediaId) {
    id in s.w.issued && s.w.issued[id].rid in s.reqs && Recording(s.reqs[s.w.issued[id].rid], id)
  }

  ghost predicate Unpaid(s: State, id: MediaId) {
    id in s.w.media && !s.w.media[id].history.recorded && !WillRecord(s, id)
  }

  /** Rows, active or deleted, that no upload has recorded or will record. */
  ghost function Abandoned(s: State): map<MediaId, Media> {
    map id | id in s.w.media && Unpaid(s, id) :: s.w.media[id]
  }

  /** Unrecorded rows whose uploads go on, each with its upload. */
  ghost function Uploaders(s: State): map<MediaId, ReqId> {
    map id | id in s.w.media && WillRecord(s, id) :: s.w.issued[id].rid
  }

  // ----- unrecorded rows and pending uploads -----

  // Every weighty entry is excused or has its own payer of at least its weight.
  lemma {:induction false} PaidOrExcused<K, V, L, W>(
    m: map<K, V>, f: V -> int, payer: map<K, L>, r: map<L, W>, g: W -> int, excused: map<K, V>)
    requires forall k :: k in m && f(m[k]) != 0 && k !in excused ==>
               k in payer && payer[k] in r && f(m[k]) <= g(r[payer[k]])
    requires forall k :: k in m && k in excused ==> excused[k] == m[k]
    requires forall a, b :: a in payer && b in payer && a != b ==> payer[a] != payer[b]
    requires (forall l :: l in r ==> g(r[l]) >= 0) && forall k :: k in excused ==> f(excused[k]) >= 0
    ensures Sum(m, f) <= Sum(r, g) + Sum(excused, f)
    decreases |m|
  {
    if m == map[] {
      SumNonNegative(r, g);
      SumNonNegative(excused, f);
    } else {
      var k :| k in m;
      SumRemove(m, k, f);
      if k in excused {
        SumRemove(excused, k, f);
        PaidOrExcused(m - {k}, f, payer, r, g, excused - {k});
      } else if f(m[k]) == 0 {
        PaidOrExcused(m - {k}, f, payer, r, g, excused);
      } else {
        SumRemove(r, payer[k], g);
        PaidOrExcused(m - {k}, f, payer, r - {payer[k]}, g, excused);
      }
    }
  }

  lemma SavedFacts(s: State, rid: ReqId)
    requires Inv(s) && rid in s.reqs && s.reqs[rid].Upload? && (s.reqs[rid].upc.Saved? || s.reqs[rid].upc.Indexed?)
    ensures PassedChecks(s.reqs[rid].args) && OwnRow(s.w, rid, s.reqs[rid].args, s.reqs[rid].upc.id)
  {
    hide StoreInv, PassedChecks, OwnRow;
    assert Local(s.w, rid, s.reqs[rid]);
  }

  // An upload between its save and its record weighs, as pending, what its row weighs.
  lemma RecordingWeighs(s: State, id: MediaId, u: UserId, d: Dim)
    requires Inv(s) && id in s.w.media && WillRecord(s, id) && d != Daily
    ensures UnrecordedF(u, d)(s.w.media[id]) <= PendingWeight(s.reqs[s.w.issued[id].rid], u, d)
  {
    hide Inv, Admissible, Verdict;
    SavedFacts(s, s.w.issued[id].rid);
  }

  lemma OneRowPerUpload(s: State)
    ensures var up := Uploaders(s); forall a, b :: a in up && b in up && a != b ==> up[a] != up[b]
  {}

  lemma UnrecordedWithin(s: State, u: UserId, d: Dim)
    requires Inv(s) && d != Daily
    ensures Sum(s.w.media, UnrecordedF(u, d)) <= Sum(s.reqs, PendingF(u, d)) + Sum(Abandoned(s), UnrecordedF(u, d))
  {
    var m, f, g, up := s.w.media, UnrecordedF(u, d), PendingF(u, d), Uploaders(s);
    OneRowPerUpload(s);
    forall id | id in m ensures f(m[id]) >= 0 {
      RowFacts(s.w, id);
    }
    forall rid | rid in s.reqs ensures g(s.reqs[rid]) >= 0 {
      WeightBounds(s.reqs[rid], u, d);
    }
    forall id | id in m && f(m[id]) != 0 && id !in Abandoned(s)
      ensures id in up && up[id] in s.reqs && f(m[id]) <= g(s.reqs[up[id]])
    {
      RecordingWeighs(s, id, u, d);
    }
    hide Inv, WillRecord, PendingWeight;
    PaidOrExcused(m, f, up, s.reqs, g, Abandoned(s));
  }

  // ----- the bound -----

  // However the steps interleave, and with any number of uploads inside at once: the active media of a user exceed
  // the limit by at most one upload less than were inside, and by what was abandoned.
  lemma StoredWithin(s: State, events: seq<Event>, u: UserId, d: Dim, n: int)
    requires Init(s) && n >= 1 && d != Daily
    requires Run(s, events) && NeverMoreThan(s, events, u, n) && Along(s, events, QuotaClean)
    ensures var t := After(s, events);
      u in t.w.quota ==>
        Sum(t.w.media, ActiveF(u, d))
        <= Limit(t.w.quota[u], d) + (n - 1) * MaxWeight(d) + Sum(Abandoned(t), UnrecordedF(u, d))
  {
    var t := After(s, events);
    CommittedWithin(s, events, u, d, n);
    UsageCoversTable(s, events, u, d);
    Reachable(s, events);
    hide Init, Run, After, Along, NeverMoreThan;
    UnrecordedWithin(t, u, d);
    UnreleasedNonNegative(t, u, d);
    hide Inv, Abandoned, ActiveF, UnrecordedF, UnreleasedF, PendingF;
  }

  lemma UnreleasedNonNegative(s: State, u: UserId, d: Dim)
    requires Inv(s)
    ensures Sum(s.w.media, UnreleasedF(u, d)) >= 0
  {
    forall id | id in s.w.media ensures UnreleasedF(u, d)(s.w.media[id]) >= 0 {
      RowFacts(s.w, id);
    }
    SumNonNegative(s.w.media, UnreleasedF(u, d));
  }

  // ----- uploads that do record -----

  /** The dedup SET and the `recordUpload` transaction after a save do not fail. */
  predicate RecordsGoThrough(s: State, e: Event) {
    e.Go? && e.rid in s.reqs && s.reqs[e.rid].Upload? && (s.reqs[e.rid].upc.Saved? || s.reqs[e.rid].upc.Indexed?) ==>
      e.ch.ok
  }

  ghost predicate NoneAbandoned(s: State) {
    forall id :: !Unpaid(s, id)
  }

  // A row that is unrecorded after a step of an upload is that upload's own, or was unrecorded before.
  lemma OwnUnrecorded(w: World, rid: ReqId, a: UploadArgs, pc: UploadPc, ch: Choice, id: MediaId)
    requires UploadLocal(w, rid, a, pc) && (pc.Saved? || pc.Indexed? ==> ch.ok)
    ensures var (w', pc') := UploadStep(w, rid, a, pc, ch);
      id in w'.media && !w'.media[id].history.recorded ==>
        || (id in w'.issued && w'.issued[id].rid == rid && Recording(Upload(a, pc'), id))
        || (id in w.media && !w.media[id].history.recorded && !Recording(Upload(a, pc), id))
  {
    var (w', pc') := UploadStep(w, rid, a, pc, ch);
    UploadTable(w, rid, a, pc, ch);
    SavedGoesOn(w, rid, a, pc, ch);
    hide UploadStep, NewRow, PassedChecks, BlobThere, ThumbThere, UuidsOk;
  }

  lemma SavedGoesOn(w: World, rid: ReqId, a: UploadArgs, pc: UploadPc, ch: Choice)
    requires UploadLocal(w, rid, a, pc) && (pc.Saved? || pc.Indexed? ==> ch.ok)
    ensures var (w', pc') := UploadStep(w, rid, a, pc, ch);
      && (pc.Saved? ==> pc' == Indexed(pc.id) && w'.issued == w.issued)
      && (pc.Indexed? ==> pc' == Recorded(pc.id))
      && (pc.ReadyToSave? && pc'.Saved? ==> pc'.id == pc.id && w'.issued == w.issued)
  {
    hide NewRow, BlobThere, ThumbThere, UuidsOk, KeyOf;
  }

  lemma OthersUnrecorded(w: World, rid: ReqId, r: Req, ch: Choice, id: MediaId)
    requires !r.Upload?
    ensures var w' := Act(w, rid, r, ch).0;
      id in w'.media && !w'.media[id].history.recorded ==> id in w.media && !w.media[id].history.recorded
  {
    hide DeleteStep, ShareStep, MetaStep, BlobStep, AlertStep, ResetStep;
    match r
    case Delete(mid, requester, pc) => DeleteTable(w, rid, mid, requester, pc, ch);
    case Share(mid, requester, users, pc) => ShareTable(w, mid, requester, users, pc);
    case GetMeta(mid, requester, pc) => MetaFrame(w, mid, requester, pc);
    case GetBlob(mid, requester, pc) => BlobTable(w, mid, requester, pc);
    case Alert(v, pc) => AlertFrame(w, v, pc, ch);
    case Reset(pc) => ResetFrame(w, pc, ch);
  }

  lemma StillPaid(s: State, rid: ReqId, ch: Choice, id: MediaId)
    requires Inv(s) && Enabled(s, Go(rid, ch)) && NoneAbandoned(s) && RecordsGoThrough(s, Go(rid, ch))
    ensures !Unpaid(Next(s, Go(rid, ch)), id)
  {
    var r, s' := s.reqs[rid], Next(s, Go(rid, ch));
    assert Local(s.w, rid, r);
    ActFine(s.w, rid, r, ch);
    assert IssuedGrows(s.w, s'.w);
    assert !Unpaid(s, id);
    if r.Upload? {
      OwnUnrecorded(s.w, rid, r.args, r.upc, ch, id);
    } else {
      OthersUnrecorded(s.w, rid, r, ch, id);
    }
    hide Inv, StoreInv, Local, StepFine, MediaGrows, UploadStep, DeleteStep, ShareStep, MetaStep, BlobStep, AlertStep,
      ResetStep;
  }

  lemma PaidStep(s: State, e: Event)
    requires Inv(s) && Enabled(s, e) && NoneAbandoned(s) && RecordsGoThrough(s, e)
    ensures NoneAbandoned(Next(s, e))
  {
    var s' := Next(s, e);
    forall id ensures !Unpaid(s', id) {
      assert !Unpaid(s, id);
      if e.Go? {
        StillPaid(s, e.rid, e.ch, id);
      }
    }
  }

  lemma {:induction false} PaidRun(s: State, events: seq<Event>)
    requires Inv(s) && NoneAbandoned(s) && Run(s, events) && Along(s, events, RecordsGoThrough)
    ensures NoneAbandoned(After(s, events))
    decreases |events|
  {
    hide Inv, NoneAbandoned, Next, Enabled, RecordsGoThrough;
    if events != [] {
      InvStep(s, events[0]);
      PaidStep(s, events[0]);
      PaidRun(Next(s, events[0]), events[1..]);
    }
  }

  // In clean runs in which no upload ends between its save and its record, what a user really keeps stored is
  // bounded as well: 200 MB above the storage limit, two media above the limit on files.
  lemma StoredBound(s: State, events: seq<Event>, u: UserId)
    requires Init(s) && Run(s, events) && Along(s, events, BothClean) && Along(s, events, RecordsGoThrough)
    ensures var w := After(s, events).w;
      u in w.quota ==>
        && Sum(w.media, ActiveF(u, Storage)) <= w.quota[u].storageLimit + 209_715_200
        && Sum(w.media, ActiveF(u, Files)) <= w.quota[u].filesLimit + 2
  {
    var t := After(s, events);
    BothParts(s, events);
    InitSem(s, u);
    CleanCrowd(s, events, u);
    StoredWithin(s, events, u, Storage, MAX_CONCURRENT_UPLOADS);
    StoredWithin(s, events, u, Files, MAX_CONCURRENT_UPLOADS);
    InitInv(s);
    assert NoneAbandoned(s);
    hide Init, Inv, Run, After, Along, NeverMoreThan, ActiveF;
    PaidRun(s, events);
    assert Abandoned(t) == map[] by {
      assert forall id :: !Unpaid(t, id);
    }
  }
}

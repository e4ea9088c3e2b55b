/**
 * Quota accounting across separate transactions.
 *
 * A user's counted usage is at least what the media table says: active media, minus those saved but not yet
 * recorded, plus those deleted but not yet released. The difference never shrinks, and it grows exactly when a
 * release finds less usage than it gives back and the GREATEST(0, ...) clamp bites.
 */
module Conservation {
  import opened Base
  import opened Sums
  import opened Quota
  import opened Protocol
  import opened Frames
  import opened Invariant
  import opened Integrity
  import opened Overshoot

  function RowWeight(row: Media, d: Dim): int {
    if d == Storage then row.blobSize else 1
  }

  function When(b: bool, n: int): int {
    if b then n else 0
  }

  ghost function ActiveF(u: UserId, d: Dim): Media -> int {
    (row: Media) => When(row.ownerId == u && row.isActive, RowWeight(row, d))
  }

  ghost function UnrecordedF(u: UserId, d: Dim): Media -> int {
    (row: Media) => When(row.ownerId == u && !row.history.recorded, RowWeight(row, d))
  }

  ghost function UnreleasedF(u: UserId, d: Dim): Media -> int {
    (row: Media) => When(row.ownerId == u && !row.isActive && !row.history.released, RowWeight(row, d))
  }

  /** What one row should contribute to its owner's usage. */
  function Contribution(row: Media, u: UserId, d: Dim): int {
    When(row.ownerId == u && row.isActive, RowWeight(row, d))
    - When(row.ownerId == u && !row.history.recorded, RowWeight(row, d))
    + When(row.ownerId == u && !row.isActive && !row.history.released, RowWeight(row, d))
  }

  ghost function ContributionF(u: UserId, d: Dim): Media -> int {
    (row: Media) => Contribution(row, u, d)
  }

  function Counted(w: World, u: UserId, d: Dim): int {
    if u in w.quota then Used(w.quota[u], d) else 0
  }

  /** How far the counted usage is above what the media table accounts for. */
  ghost function Slack(w: World, u: UserId, d: Dim): int {
    Counted(w, u, d) - Sum(w.media, ContributionF(u, d))
  }

  /** The clamp bites: a release gives back more than is counted. */
  predicate ClampBites(s: State, e: Event, u: UserId, d: Dim) {
    && e.Go? && e.rid in s.reqs && s.reqs[e.rid].Delete? && s.reqs[e.rid].dpc.Refunding?
    && s.reqs[e.rid].requester == u
    && Counted(s.w, u, d) < RowWeight(s.reqs[e.rid].dpc.row, d)
  }

  // The three parts, summed one by one.
  lemma ContributionParts(media: map<MediaId, Media>, u: UserId, d: Dim)
    ensures Sum(media, ContributionF(u, d))
         == Sum(media, ActiveF(u, d)) - Sum(media, UnrecordedF(u, d)) + Sum(media, UnreleasedF(u, d))
  {
    var plus := (row: Media) =>
      Contribution(row, u, d) + When(row.ownerId == u && !row.history.recorded, RowWeight(row, d));
    SumAdds(media, ContributionF(u, d), UnrecordedF(u, d), plus);
    SumAdds(media, ActiveF(u, d), UnreleasedF(u, d), plus);
  }

  // ----- one step -----

  /** One row is replaced, everything else of the table stays. */
  lemma RowReplaced(w: World, w': World, id: MediaId, row: Media, u: UserId, d: Dim)
    requires w'.media == w.media[id := row]
    ensures Sum(w'.media, ContributionF(u, d)) - Sum(w.media, ContributionF(u, d))
         == Contribution(row, u, d) - (if id in w.media then Contribution(w.media[id], u, d) else 0)
  {
    hide Contribution;
    SumUpdate(w.media, id, row, ContributionF(u, d));
  }

  lemma RecordBalance(w: World, w': World, id: MediaId, size: nat, u: UserId, d: Dim)
    requires id in w.media && !w.media[id].history.recorded && w.media[id].blobSize == size && d != Daily
    requires w.media[id].ownerId in w.quota && w.media[id].ownerId in w'.quota
    requires w'.quota[w.media[id].ownerId] == Charge(w.quota[w.media[id].ownerId], size)
    requires u != w.media[id].ownerId ==> SameRow(w, w', u)
    requires w'.media == w.media[id := w.media[id].(history := w.media[id].history.(recorded := true))]
    ensures Slack(w', u, d) == Slack(w, u, d)
  {
    hide ContributionF;
    RowReplaced(w, w', id, w'.media[id], u, d);
  }

  lemma UploadBalance(w: World, rid: ReqId, a: UploadArgs, pc: UploadPc, ch: Choice, u: UserId, d: Dim)
    requires UploadLocal(w, rid, a, pc) && d != Daily
    ensures Slack(UploadStep(w, rid, a, pc, ch).0, u, d) == Slack(w, u, d)
  {
    var (w', pc') := UploadStep(w, rid, a, pc, ch);
    UploadTable(w, rid, a, pc, ch);
    UploadRow(w, rid, a, pc, ch, u);
    UploadRow(w, rid, a, pc, ch, a.owner);
    if pc.Indexed? && pc'.Recorded? {
      assert OwnRow(w, rid, a, pc.id);
      hide UploadStep, PassedChecks, UploadLocal, ContributionF, BlobPath, ThumbPath, UuidsOk, Slack, Charge;
      RecordBalance(w, w', pc.id, a.file.size, u, d);
    } else if pc.ReadyToSave? && pc'.Saved? {
      assert pc.id !in w.media;
      hide UploadStep, UploadLocal, ContributionF, BlobPath, ThumbPath, UuidsOk;
      RowReplaced(w, w', pc.id, NewRow(w, a, pc.id, pc.expiresAt), u, d);
      NewRowContributesNothing(w, a, pc.id, pc.expiresAt, u, d);
      hide NewRow, Contribution;
    } else {
      hide UploadStep, UploadLocal, ContributionF;
      if pc.MergeWrite? && pc'.MergeUncache? && pc.id in w.media {
        RowReplaced(w, w', pc.id, w.media[pc.id].(sharedWith := Some(pc.next)), u, d);
      }
    }
  }

  lemma NewRowContributesNothing(w: World, a: UploadArgs, id: MediaId, expiresAt: Option<int>, u: UserId, d: Dim)
    requires UuidsOk(a, id)
    ensures Contribution(NewRow(w, a, id, expiresAt), u, d) == 0
  {
    hide BlobPath, ThumbPath, UuidsOk, InitialAcl;
  }

  lemma FindingBalance(w: World, w': World, id: MediaId, rid: ReqId, u: UserId, d: Dim)
    requires id in w.media && w.media[id].isActive && !w.media[id].history.released && w'.quota == w.quota
    requires w'.media == w.media[id := w.media[id].(isActive := false,
                                                    history := w.media[id].history.(deletedBy := Some(rid)))]
    ensures Slack(w', u, d) == Slack(w, u, d)
  {
    hide ContributionF;
    RowReplaced(w, w', id, w'.media[id], u, d);
  }

  lemma RefundBalance(w: World, w': World, id: MediaId, owner: UserId, size: nat, u: UserId, d: Dim)
    requires id in w.media && !w.media[id].isActive && !w.media[id].history.released && d != Daily
    requires w.media[id].ownerId == owner && w.media[id].blobSize == size
    requires owner in w.quota && w'.quota == w.quota[owner := Refund(w.quota[owner], size)]
    requires w'.media == w.media[id := w.media[id].(history := w.media[id].history.(released := true))]
    ensures Slack(w', u, d) >= Slack(w, u, d)
    ensures Slack(w', u, d) == Slack(w, u, d) <==>
            !(owner == u && Counted(w, u, d) < (if d == Storage then size else 1))
  {
    hide ContributionF;
    RowReplaced(w, w', id, w'.media[id], u, d);
  }

  lemma DeleteBalance(w: World, rid: ReqId, id: MediaId, requester: UserId, pc: DeletePc, ch: Choice, u: UserId, d: Dim)
    requires StoreInv(w) && DeleteLocal(w, rid, id, requester, pc) && d != Daily
    ensures var w' := DeleteStep(w, rid, id, requester, pc, ch).0;
      && Slack(w', u, d) >= Slack(w, u, d)
      && (Slack(w', u, d) == Slack(w, u, d) <==>
            !(pc.Refunding? && requester == u && Counted(w, u, d) < RowWeight(pc.row, d)))
  {
    var (w', pc') := DeleteStep(w, rid, id, requester, pc, ch);
    DeleteTable(w, rid, id, requester, pc, ch);
    if pc.Finding? && pc'.RemovingBlob? {
      RowFacts(w, id);
      hide StoreInv, RowShape, DeleteStep, Slack;
      FindingBalance(w, w', id, rid, u, d);
    } else if pc.Refunding? {
      RefundGoesThrough(w, rid, id, requester, pc, ch);
      hide StoreInv, DeleteStep, Slack, Refund;
      RefundBalance(w, w', id, requester, pc.row.blobSize, u, d);
    } else {
      hide StoreInv, DeleteStep, Slack;
      QuotaOnlyBalance(w, w', u, d);
    }
  }

  lemma RefundGoesThrough(w: World, rid: ReqId, id: MediaId, requester: UserId, pc: DeletePc, ch: Choice)
    requires pc.Refunding? && DeleteLocal(w, rid, id, requester, pc)
    ensures DeleteStep(w, rid, id, requester, pc, ch).1 == Uncaching(pc.row)
  {}

  lemma QuotaOnlyBalance(w: World, w': World, u: UserId, d: Dim)
    requires w'.media == w.media && Counted(w', u, d) == Counted(w, u, d)
    ensures Slack(w', u, d) == Slack(w, u, d)
  {}

  lemma AlertCounted(w: World, v: UserId, pc: AlertPc, ch: Choice, u: UserId, d: Dim)
    ensures Counted(AlertStep(w, v, pc, ch).0, u, d) == Counted(w, u, d)
  {
    hide Dehydrate, Rehydrate;
  }

  lemma ResetCounted(w: World, pc: ResetPc, ch: Choice, u: UserId, d: Dim)
    requires d != Daily
    ensures Counted(ResetStep(w, pc, ch).0, u, d) == Counted(w, u, d)
  {}

  lemma ShareBalance(w: World, id: MediaId, requester: UserId, users: seq<UserId>, pc: SharePc, u: UserId, d: Dim)
    ensures Slack(ShareStep(w, id, requester, users, pc).0, u, d) == Slack(w, u, d)
  {
    var w' := ShareStep(w, id, requester, users, pc).0;
    ShareFrame(w, id, requester, users, pc);
    ShareTable(w, id, requester, users, pc);
    hide ShareStep, ContributionF;
    if w'.media != w.media {
      RowReplaced(w, w', id, w.media[id].(sharedWith := w'.media[id].sharedWith), u, d);
    }
  }

  lemma BlobBalance(w: World, id: MediaId, requester: UserId, pc: BlobPc, u: UserId, d: Dim)
    ensures Slack(BlobStep(w, id, requester, pc).0, u, d) == Slack(w, u, d)
  {
    var w' := BlobStep(w, id, requester, pc).0;
    BlobFrame(w, id, requester, pc);
    BlobTable(w, id, requester, pc);
    hide BlobStep, ContributionF;
    if w'.media != w.media {
      RowReplaced(w, w', id, w.media[id].(signedUrlExpiresAt := w'.media[id].signedUrlExpiresAt), u, d);
    }
  }

  // The slack of a user never shrinks, and it grows exactly when the clamp bites.
  lemma BalanceStep(s: State, e: Event, u: UserId, d: Dim)
    requires Inv(s) && Enabled(s, e) && d != Daily
    ensures Slack(Next(s, e).w, u, d) >= Slack(s.w, u, d)
    ensures Slack(Next(s, e).w, u, d) == Slack(s.w, u, d) <==> !ClampBites(s, e, u, d)
  {
    hide StoreInv, UploadLocal, DeleteLocal, UploadStep, DeleteStep, ShareStep, MetaStep, BlobStep, AlertStep,
      ResetStep, Slack;
    match e
    case Go(rid, ch) =>
      var w := s.w;
      assert Local(w, rid, s.reqs[rid]);
      match s.reqs[rid] {
        case Upload(a, pc) => UploadBalance(w, rid, a, pc, ch, u, d);
        case Delete(id, requester, pc) => DeleteBalance(w, rid, id, requester, pc, ch, u, d);
        case Share(id, requester, users, pc) => ShareBalance(w, id, requester, users, pc, u, d);
        case GetMeta(id, requester, pc) =>
          MetaFrame(w, id, requester, pc);
          QuotaOnlyBalance(w, MetaStep(w, id, requester, pc).0, u, d);
        case GetBlob(id, requester, pc) => BlobBalance(w, id, requester, pc, u, d);
        case Alert(v, pc) =>
          AlertFrame(w, v, pc, ch);
          AlertCounted(w, v, pc, ch, u, d);
          QuotaOnlyBalance(w, AlertStep(w, v, pc, ch).0, u, d);
        case Reset(pc) =>
          ResetFrame(w, pc, ch);
          ResetCounted(w, pc, ch, u, d);
          QuotaOnlyBalance(w, ResetStep(w, pc, ch).0, u, d);
      }
    case _ => QuotaOnlyBalance(s.w, Next(s, e).w, u, d);
  }

  // ----- whole runs -----

  lemma InitSlack(s: State, u: UserId, d: Dim)
    requires Init(s) && d != Daily
    ensures Slack(s.w, u, d) == 0
  {}

  lemma {:induction false} SlackRun(s: State, events: seq<Event>, u: UserId, d: Dim)
    requires Inv(s) && Run(s, events) && d != Daily
    ensures Slack(After(s, events).w, u, d) >= Slack(s.w, u, d)
    decreases |events|
  {
    hide Inv, Next, Enabled, Slack, ClampBites;
    if events != [] {
      InvStep(s, events[0]);
      BalanceStep(s, events[0], u, d);
      SlackRun(Next(s, events[0]), events[1..], u, d);
    }
  }

  // In every reachable state the counted usage covers the media table: bytes for storage, rows for files.
  lemma UsageCoversTable(s: State, events: seq<Event>, u: UserId, d: Dim)
    requires Init(s) && Run(s, events) && d != Daily
    ensures var w := After(s, events).w;
      Counted(w, u, d) >= Sum(w.media, ActiveF(u, d))
        - Sum(w.media, UnrecordedF(u, d)) + Sum(w.media, UnreleasedF(u, d))
  {
    hide Init, Inv, Run, After;
    InitInv(s);
    InitSlack(s, u, d);
    SlackRun(s, events, u, d);
    ContributionParts(After(s, events).w.media, u, d);
  }

  /** The accounts of a user balance at every moment of the run. */
  ghost predicate AlwaysBalanced(s: State, events: seq<Event>, u: UserId, d: Dim)
    requires Run(s, events)
    decreases |events|
  {
    Slack(s.w, u, d) == 0 && (events == [] || AlwaysBalanced(Next(s, events[0]), events[1..], u, d))
  }

  /** The clamp never bites for this user in the run. */
  ghost predicate NeverClamped(s: State, events: seq<Event>, u: UserId, d: Dim)
    requires Run(s, events)
    decreases |events|
  {
    events == [] || (!ClampBites(s, events[0], u, d) && NeverClamped(Next(s, events[0]), events[1..], u, d))
  }

  lemma {:induction false} BalancedExactFrom(s: State, events: seq<Event>, u: UserId, d: Dim)
    requires Inv(s) && Run(s, events) && d != Daily && Slack(s.w, u, d) == 0
    ensures AlwaysBalanced(s, events, u, d) <==> NeverClamped(s, events, u, d)
    decreases |events|
  {
    hide Inv, Next, Enabled, Slack, ClampBites;
    if events != [] {
      InvStep(s, events[0]);
      BalanceStep(s, events[0], u, d);
      if !ClampBites(s, events[0], u, d) {
        BalancedExactFrom(Next(s, events[0]), events[1..], u, d);
      }
    }
  }

  // The exact condition: usage equals the table's account throughout a run if and only if no release ever found
  // less usage than it gave back.
  lemma BalancedExact(s: State, events: seq<Event>, u: UserId, d: Dim)
    requires Init(s) && Run(s, events) && d != Daily
    ensures AlwaysBalanced(s, events, u, d) <==> NeverClamped(s, events, u, d)
  {
    hide Init, Inv, Run;
    InitInv(s);
    InitSlack(s, u, d);
    BalancedExactFrom(s, events, u, d);
  }

  // ----- no media deleted before its own recordUpload -----

  /** A media is soft-deleted although its upload has not been recorded yet. */
  predicate EarlyDelete(s: State, e: Event) {
    && e.Go? && e.rid in s.reqs && s.reqs[e.rid].Delete? && s.reqs[e.rid].dpc.Finding?
    && Act(s.w, e.rid, s.reqs[e.rid], e.ch).1.dpc.RemovingBlob?
    && s.reqs[e.rid].id in s.w.media && !s.w.media[s.reqs[e.rid].id].history.recorded
  }

  predicate NotEarly(s: State, e: Event) {
    !EarlyDelete(s, e)
  }

  ghost predicate DeletedWereRecorded(w: World) {
    forall id :: id in w.media ==> w.media[id].isActive || w.media[id].history.recorded
  }

  // With every deleted media recorded, a release never gives back more than is counted.
  lemma NoClampWhenRecorded(s: State, e: Event, u: UserId, d: Dim)
    requires Inv(s) && Enabled(s, e) && DeletedWereRecorded(s.w) && Slack(s.w, u, d) >= 0 && d != Daily
    ensures !ClampBites(s, e, u, d)
  {
    if e.Go? && s.reqs[e.rid].Delete? && s.reqs[e.rid].dpc.Refunding? && s.reqs[e.rid].requester == u {
      var r := s.reqs[e.rid];
      assert Local(s.w, e.rid, r);
      assert Deleting(s.w, e.rid, r.id, u, r.dpc.row);
      forall id | id in s.w.media ensures ContributionF(u, d)(s.w.media[id]) >= 0 {
        RowFacts(s.w, id);
        hide Inv, StoreInv, Backed, BlobPath, ThumbPath, DeleteLocal, Local;
      }
      hide Inv, StoreInv, Local, DeleteLocal;
      SumAtLeast(s.w.media, r.id, ContributionF(u, d));
    }
  }

  lemma RecordedStep(s: State, e: Event)
    requires Inv(s) && Enabled(s, e) && DeletedWereRecorded(s.w) && NotEarly(s, e)
    ensures DeletedWereRecorded(Next(s, e).w)
  {
    hide StoreInv, UploadLocal, DeleteLocal, UploadStep, DeleteStep, ShareStep, MetaStep, BlobStep, AlertStep,
      ResetStep;
    match e
    case Go(rid, ch) =>
      var w := s.w;
      match s.reqs[rid] {
        case Upload(a, pc) =>
          UploadTable(w, rid, a, pc, ch);
          hide BlobPath, ThumbPath;
        case Delete(id, requester, pc) => DeleteTable(w, rid, id, requester, pc, ch);
        case Share(id, requester, users, pc) => ShareTable(w, id, requester, users, pc);
        case GetMeta(id, requester, pc) => MetaFrame(w, id, requester, pc);
        case GetBlob(id, requester, pc) => BlobTable(w, id, requester, pc);
        case Alert(v, pc) => AlertFrame(w, v, pc, ch);
        case Reset(pc) => ResetFrame(w, pc, ch);
      }
    case _ =>
  }

  lemma {:induction false} BalancedRun(s: State, events: seq<Event>, u: UserId, d: Dim)
    requires Inv(s) && Run(s, events) && Along(s, events, NotEarly) && d != Daily
    requires DeletedWereRecorded(s.w) && Slack(s.w, u, d) == 0
    ensures Slack(After(s, events).w, u, d) == 0 && NeverClamped(s, events, u, d)
    decreases |events|
  {
    hide Inv, Next, Enabled, Slack, ClampBites, DeletedWereRecorded, EarlyDelete;
    if events != [] {
      InvStep(s, events[0]);
      NoClampWhenRecorded(s, events[0], u, d);
      BalanceStep(s, events[0], u, d);
      RecordedStep(s, events[0]);
      BalancedRun(Next(s, events[0]), events[1..], u, d);
    }
  }

  // When no media is deleted before its own recordUpload, the accounts balance and the clamp never bites.
  lemma UsageEqualsTable(s: State, events: seq<Event>, u: UserId, d: Dim)
    requires Init(s) && Run(s, events) && Along(s, events, NotEarly) && d != Daily
    ensures var w := After(s, events).w;
      Counted(w, u, d) == Sum(w.media, ActiveF(u, d))
        - Sum(w.media, UnrecordedF(u, d)) + Sum(w.media, UnreleasedF(u, d))
    ensures NeverClamped(s, events, u, d)
  {
    InitInv(s);
    InitSlack(s, u, d);
    hide Init, Inv, Run, After;
    BalancedRun(s, events, u, d);
    ContributionParts(After(s, events).w.media, u, d);
  }
}

/** The daily counter against the history of commits on the quota table. */
module DailyUploads {
  import opened Base
  import opened Quota
  import opened Protocol
  import opened Frames
  import opened Overshoot

  /** The recorded uploads of a user since the last reset that touched the user's row, or since the start. */
  function CommitsSinceReset(log: seq<Commit>, u: UserId): nat {
    if log == [] then 0
    else
      var earlier, last := CommitsSinceReset(log[..|log| - 1], u), log[|log| - 1];
      if last == UploadCommit(u) then earlier + 1
      else if last.ResetCommit? && u in last.users then 0
      else earlier
  }

  ghost predicate DailyInv(w: World, u: UserId) {
    (if u in w.quota then w.quota[u].dailyUploads else 0) == CommitsSinceReset(w.log, u)
  }

  lemma Append(log: seq<Commit>, c: Commit, u: UserId)
    ensures CommitsSinceReset(log + [c], u) ==
      if c == UploadCommit(u) then CommitsSinceReset(log, u) + 1
      else if c.ResetCommit? && u in c.users then 0
      else CommitsSinceReset(log, u)
  {
    assert (log + [c])[..|log + [c]| - 1] == log;
  }

  lemma UploadLog(w: World, rid: ReqId, a: UploadArgs, pc: UploadPc, ch: Choice)
    ensures var (w', pc') := UploadStep(w, rid, a, pc, ch);
      w'.log == if pc.Indexed? && pc'.Recorded? then w.log + [UploadCommit(a.owner)] else w.log
  {
    hide NewRow, BlobPath, ThumbPath, UuidsOk, ThumbnailError, AdmissionError, Charge, RowOrFresh;
  }

  lemma UploadDaily(w: World, rid: ReqId, a: UploadArgs, pc: UploadPc, ch: Choice, u: UserId)
    requires DailyInv(w, u)
    ensures DailyInv(UploadStep(w, rid, a, pc, ch).0, u)
  {
    UploadRow(w, rid, a, pc, ch, u);
    UploadLog(w, rid, a, pc, ch);
    Append(w.log, UploadCommit(a.owner), u);
    OnlyOwnRecord(w, rid, a, pc, ch);
    hide UploadStep, CommitsSinceReset, FreshRow;
    assert u !in w.quota ==> RowOrFresh(w, u).dailyUploads == 0 by { FreshIsUnused(w, u); }
  }

  lemma FreshIsUnused(w: World, u: UserId)
    ensures u !in w.quota ==> RowOrFresh(w, u).dailyUploads == 0
  {}

  lemma OnlyOwnRecord(w: World, rid: ReqId, a: UploadArgs, pc: UploadPc, ch: Choice)
    ensures pc.Indexed? && UploadStep(w, rid, a, pc, ch).1.Recorded? ==> a.owner in w.quota
  {}

  lemma ResetDaily(w: World, pc: ResetPc, ch: Choice, u: UserId)
    requires DailyInv(w, u)
    ensures DailyInv(ResetStep(w, pc, ch).0, u)
  {
    Append(w.log, ResetCommit(ResetUsers(w.quota, Today(w))), u);
    ResetCases(w.quota, Today(w), u);
    hide CommitsSinceReset, ResetRows, ResetUsers;
  }

  // What the reset does to one user: no row, a row of an earlier date, or a row of today.
  lemma ResetCases(rows: map<UserId, QuotaRow>, today: int, u: UserId)
    ensures u in ResetRows(rows, today) <==> u in rows
    ensures u in ResetUsers(rows, today) <==> u in rows && Stale(rows[u], today)
    ensures u in rows ==>
      ResetRows(rows, today)[u].dailyUploads == if Stale(rows[u], today) then 0 else rows[u].dailyUploads
  {}

  // The reset on the machine: rows of an earlier date start the day afresh, and exactly their users are to lose their
  // cached copy.
  lemma ResetStepExact(w: World, ch: Choice)
    ensures var (w', pc') := ResetStep(w, ResetStart, ch);
      var today := w.now / 86_400_000;
      && w'.quota.Keys == w.quota.Keys
      && (forall u :: u in w.quota ==>
            w'.quota[u] == if w.quota[u].quotaDate < today then w.quota[u].(dailyUploads := 0, quotaDate := today)
                           else w.quota[u])
      && pc'.ResetUncache?
      && forall u :: u in pc'.users <==> u in w.quota && w.quota[u].quotaDate < today
  {
    ResetExact(w.quota, w.now / 86_400_000);
    hide ResetRows, ResetUsers;
  }

  lemma DailyStep(s: State, e: Event, u: UserId)
    requires Enabled(s, e) && DailyInv(s.w, u)
    ensures DailyInv(Next(s, e).w, u)
  {
    hide UploadStep, DeleteStep, ShareStep, MetaStep, BlobStep, AlertStep, ResetStep, CommitsSinceReset;
    match e
    case Go(rid, ch) =>
      var w := s.w;
      match s.reqs[rid] {
        case Upload(a, pc) => UploadDaily(w, rid, a, pc, ch, u);
        case Delete(id, requester, pc) =>
          DeleteFrame(w, rid, id, requester, pc, ch);
          DeleteKeepsDaily(w, rid, id, requester, pc, ch, u);
        case Share(id, requester, users, pc) => ShareFrame(w, id, requester, users, pc);
        case GetMeta(id, requester, pc) => MetaFrame(w, id, requester, pc);
        case GetBlob(id, requester, pc) => BlobFrame(w, id, requester, pc);
        case Alert(v, pc) =>
          AlertFrame(w, v, pc, ch);
          AlertKeepsDaily(w, v, pc, ch, u);
        case Reset(pc) => ResetDaily(w, pc, ch, u);
      }
    case _ =>
  }

  lemma DeleteKeepsDaily(w: World, rid: ReqId, id: MediaId, requester: UserId, pc: DeletePc, ch: Choice, u: UserId)
    ensures var w' := DeleteStep(w, rid, id, requester, pc, ch).0;
      (u in w'.quota <==> u in w.quota) && (u in w.quota ==> w'.quota[u].dailyUploads == w.quota[u].dailyUploads)
  {
    DeleteTable(w, rid, id, requester, pc, ch);
    hide DeleteStep;
  }

  lemma AlertKeepsDaily(w: World, v: UserId, pc: AlertPc, ch: Choice, u: UserId)
    ensures var w' := AlertStep(w, v, pc, ch).0;
      && (u in w.quota ==> u in w'.quota && w'.quota[u] == w.quota[u])
      && (u !in w.quota && u in w'.quota ==> w'.quota[u].dailyUploads == 0)
  {
    hide Dehydrate, Rehydrate;
  }

  lemma {:induction false} DailyRun(s: State, events: seq<Event>, u: UserId)
    requires Run(s, events) && DailyInv(s.w, u)
    ensures DailyInv(After(s, events).w, u)
    decreases |events|
  {
    hide Next, Enabled, DailyInv;
    if events != [] {
      DailyStep(s, events[0], u);
      DailyRun(Next(s, events[0]), events[1..], u);
    }
  }

  // In every run the daily counter is the number of recorded uploads since the row was created or last reset.
  lemma DailyCountsCommits(s: State, events: seq<Event>, u: UserId)
    requires Init(s) && Run(s, events) && u in After(s, events).w.quota
    ensures After(s, events).w.quota[u].dailyUploads == CommitsSinceReset(After(s, events).w.log, u)
  {
    assert DailyInv(s.w, u);
    hide Init, Run;
    DailyRun(s, events, u);
  }
}

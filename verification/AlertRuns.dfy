/**
 * The alert cooldown over whole runs: checks of one user may be under way at once, each SET NX EX is a command of its
 * own, and any steps of any requests come in between.
 */
module AlertRuns {
  import opened Base
  import opened Quota
  import opened Alerts
  import opened Protocol
  import opened Frames

  /** Every threshold the check has passed and found reached was announced, seen from when it had its row. */
  ghost predicate PassedAnnounced(w: World, u: UserId, row: QuotaRow, since: int, n: nat) {
    && since <= w.now
    && forall k :: 0 <= k < n && k < |THRESHOLDS| && Due(row, THRESHOLDS[k]) ==>
         Announced(w.board, Key(u, THRESHOLDS[k]), since, w.now)
  }

  ghost predicate AlertOk(w: World, r: Req) {
    match r
    case Alert(u, Alerting(row, since, next)) => PassedAnnounced(w, u, row, since, next)
    case Alert(u, AlertDone(row, since)) => PassedAnnounced(w, u, row, since, |THRESHOLDS|)
    case _ => true
  }

  ghost predicate AlertInv(s: State) {
    BoardInv(s.w.board, s.w.now) && forall rid :: rid in s.reqs ==> AlertOk(s.w, s.reqs[rid])
  }

  // ----- one step -----

  lemma UploadLeavesBoard(w: World, rid: ReqId, a: UploadArgs, pc: UploadPc, ch: Choice)
    ensures UploadStep(w, rid, a, pc, ch).0.board == w.board && UploadStep(w, rid, a, pc, ch).0.now == w.now
  {
    hide AdmissionError, ThumbnailError, UuidsOk, NewRow, BlobPath, ThumbPath, KeyOf, RowOrFresh, Charge;
  }

  // Only an alert moves the board.
  lemma OthersLeaveBoard(w: World, rid: ReqId, r: Req, ch: Choice)
    requires !r.Alert?
    ensures var (w', r') := Act(w, rid, r, ch); w'.board == w.board && w'.now == w.now && !r'.Alert?
  {
    hide UploadStep, DeleteStep, ShareStep, MetaStep, BlobStep, ResetStep;
    match r
    case Upload(a, pc) => UploadLeavesBoard(w, rid, a, pc, ch);
    case Delete(id, requester, pc) => DeleteFrame(w, rid, id, requester, pc, ch);
    case Share(id, requester, users, pc) => ShareFrame(w, id, requester, users, pc);
    case GetMeta(id, requester, pc) => MetaFrame(w, id, requester, pc);
    case GetBlob(id, requester, pc) => BlobFrame(w, id, requester, pc);
    case Reset(pc) => ResetFrame(w, pc, ch);
  }

  lemma RoundKeeps(w: World, u: UserId, row: QuotaRow, since: int, next: nat)
    requires BoardInv(w.board, w.now) && PassedAnnounced(w, u, row, since, next) && next < |THRESHOLDS|
    ensures var w' := w.(board := Round(w.board, u, row, w.now, next));
      && BoardInv(w'.board, w'.now) && w.board.acquired <= w'.board.acquired
      && PassedAnnounced(w', u, row, since, next + 1)
  {
    hide BoardInv, Due, Announced, Attempt;
    var w' := w.(board := Round(w.board, u, row, w.now, next));
    if Due(row, THRESHOLDS[next]) {
      AttemptKeeps(w.board, u, row, THRESHOLDS[next], w.now);
      AnnouncedEarlier(w'.board, Key(u, THRESHOLDS[next]), since, w.now);
    }
    forall k | 0 <= k < next && Due(row, THRESHOLDS[k])
      ensures Announced(w'.board, Key(u, THRESHOLDS[k]), since, w.now) {
      AnnouncedStays(w.board, w'.board, Key(u, THRESHOLDS[k]), since, w.now, w.now);
    }
  }

  lemma AnnouncedEarlier(b: Board, key: Key, since: int, now: int)
    requires Announced(b, key, now, now) && since <= now
    ensures Announced(b, key, since, now)
  {}

  lemma AlertStepKeeps(w: World, rid: ReqId, u: UserId, pc: AlertPc, ch: Choice)
    requires BoardInv(w.board, w.now) && AlertOk(w, Alert(u, pc))
    ensures var (w', pc') := AlertStep(w, u, pc, ch);
      && BoardInv(w'.board, w'.now) && w.board.acquired <= w'.board.acquired && w'.now == w.now
      && AlertOk(w', Alert(u, pc'))
  {
    if pc.Alerting? && pc.next < |THRESHOLDS| {
      RoundKeeps(w, u, pc.row, pc.since, pc.next);
    }
    hide BoardInv, Due, Announced, Round, FreshRow, Rehydrate, Dehydrate;
  }

  // What a check relies on survives other requests and the clock.
  lemma AlertOkStays(w: World, w': World, r: Req)
    requires AlertOk(w, r) && w.board.acquired <= w'.board.acquired && w.now <= w'.now
    ensures AlertOk(w', r)
  {
    hide Announced, Due;
    if r.Alert? && (r.apc.Alerting? || r.apc.AlertDone?) {
      forall k | 0 <= k < |THRESHOLDS| && Announced(w.board, Key(r.user, THRESHOLDS[k]), r.apc.since, w.now)
        ensures Announced(w'.board, Key(r.user, THRESHOLDS[k]), r.apc.since, w'.now)
      {
        AnnouncedStays(w.board, w'.board, Key(r.user, THRESHOLDS[k]), r.apc.since, w.now, w'.now);
      }
    }
  }

  lemma GoKeepsAlerts(s: State, rid: ReqId, ch: Choice)
    requires Enabled(s, Go(rid, ch)) && AlertInv(s)
    ensures AlertInv(Next(s, Go(rid, ch)))
  {
    hide BoardInv, AlertOk, UploadStep, DeleteStep, ShareStep, MetaStep, BlobStep, AlertStep, ResetStep;
    var r, s' := s.reqs[rid], Next(s, Go(rid, ch));
    if r.Alert? {
      AlertStepKeeps(s.w, rid, r.user, r.apc, ch);
    } else {
      OthersLeaveBoard(s.w, rid, r, ch);
      NoAlertOk(s'.w, s'.reqs[rid]);
    }
    hide Act;
    forall other | other in s'.reqs ensures AlertOk(s'.w, s'.reqs[other]) {
      if other != rid {
        AlertOkStays(s.w, s'.w, s.reqs[other]);
      }
    }
  }

  lemma NoAlertOk(w: World, r: Req)
    requires !r.Alert? || AtStart(r)
    ensures AlertOk(w, r)
  {}

  lemma AlertInvStep(s: State, e: Event)
    requires Enabled(s, e) && AlertInv(s)
    ensures AlertInv(Next(s, e))
  {
    if e.Go? {
      GoKeepsAlerts(s, e.rid, e.ch);
    } else {
      var s' := Next(s, e);
      BoardInvLater(s.w.board, s.w.now, s'.w.now);
      hide BoardInv, AlertOk;
      forall rid | rid in s'.reqs ensures AlertOk(s'.w, s'.reqs[rid]) {
        if rid in s.reqs {
          AlertOkStays(s.w, s'.w, s.reqs[rid]);
        } else {
          NoAlertOk(s'.w, s'.reqs[rid]);
        }
      }
    }
  }

  // ----- whole runs -----

  lemma {:induction false} AlertInvRun(s: State, events: seq<Event>)
    requires Run(s, events) && AlertInv(s)
    ensures AlertInv(After(s, events))
    decreases |events|
  {
    hide AlertInv, Next, Enabled;
    if events != [] {
      AlertInvStep(s, events[0]);
      AlertInvRun(Next(s, events[0]), events[1..]);
    }
  }

  // In every run, however the commands of concurrent checks interleave, two cooldown acquisitions for one user and
  // threshold are at least an hour apart, and each tells of a usage that really is at its threshold.
  lemma AcquisitionsAreSpaced(s: State, events: seq<Event>)
    requires Init(s) && Run(s, events)
    ensures var acquired := After(s, events).w.board.acquired;
      && (forall i, j :: 0 <= i < j < |acquired| && acquired[i].key == acquired[j].key ==>
            acquired[i].at + 3_600_000 <= acquired[j].at)
      && forall i :: 0 <= i < |acquired| ==>
           && (acquired[i].key.percent == 80 || acquired[i].key.percent == 95)
           && 0 < acquired[i].limit && 100 * acquired[i].used >= acquired[i].key.percent * acquired[i].limit
  {
    AlertInvRun(s, events);
  }

  // The cooldown never hides a crossing for longer than that: whenever a check is done, each threshold its row
  // reaches has been acquired less than an hour before the check had that row, or since; one at 95 brings one at 80.
  lemma CrossingIsAnnounced(s: State, events: seq<Event>, rid: ReqId, percent: nat)
    requires Init(s) && Run(s, events) && rid in After(s, events).reqs && (percent == 80 || percent == 95)
    requires After(s, events).reqs[rid].Alert? && After(s, events).reqs[rid].apc.AlertDone?
    requires var row := After(s, events).reqs[rid].apc.row;
      row.storageLimit > 0 && 100 * row.storageUsed >= percent * row.storageLimit
    ensures var t := After(s, events);
      var u, since := t.reqs[rid].user, t.reqs[rid].apc.since;
      && since <= t.w.now && Announced(t.w.board, Key(u, percent), since, t.w.now)
      && (exists i :: 0 <= i < |t.w.board.acquired| && t.w.board.acquired[i].key == Key(u, percent)
            && since - 3_600_000 < t.w.board.acquired[i].at <= t.w.now)
      && Announced(t.w.board, Key(u, 80), since, t.w.now)
  {
    AlertInvRun(s, events);
    var t := After(s, events);
    hide Init, Run, After, BoardInv, Announced;
    var row := t.reqs[rid].apc.row;
    assert AlertOk(t.w, t.reqs[rid]);
    PercentExact(row.storageUsed, row.storageLimit, percent);
    assert THRESHOLDS[0] == 80 && THRESHOLDS[1] == 95;
    assert Due(row, THRESHOLDS[0]) && Due(row, percent);
  }

  // ----- a check alone -----

  function AlertRank(pc: AlertPc): nat {
    match pc
    case AlertStart => |THRESHOLDS| + 4
    case AlertMiss => |THRESHOLDS| + 3
    case AlertRead(_) => |THRESHOLDS| + 2
    case Alerting(_, _, next) => if next <= |THRESHOLDS| then |THRESHOLDS| + 1 - next else 1
    case AlertDone(_, _) => 0
  }

  /** A check running alone, from `pc` to its end. */
  function AlertAlone(w: World, u: UserId, pc: AlertPc, hit: bool, setOk: bool): World
    decreases AlertRank(pc)
  {
    if pc.AlertDone? then w
    else
      var (w', pc') := AlertStep(w, u, pc, Choice(setOk, hit, "", ""));
      AlertAlone(w', u, pc', hit, setOk)
  }

  lemma UnfoldAlert(w: World, u: UserId, pc: AlertPc, hit: bool, setOk: bool, w': World, pc': AlertPc)
    requires !pc.AlertDone? && AlertStep(w, u, pc, Choice(setOk, hit, "", "")) == (w', pc')
    ensures AlertAlone(w, u, pc, hit, setOk) == AlertAlone(w', u, pc', hit, setOk)
    ensures pc'.AlertDone? ==> AlertAlone(w, u, pc, hit, setOk) == w'
  {}

  // With nothing in between, the rounds come to the loop over the thresholds.
  lemma {:induction false} RoundsAlone(w: World, u: UserId, row: QuotaRow, n: nat, hit: bool, setOk: bool)
    requires n <= |THRESHOLDS|
    ensures AlertAlone(w.(board := CheckFirst(w.board, u, row, w.now, n)), u, Alerting(row, w.now, n), hit, setOk)
         == w.(board := Check(w.board, u, row, w.now))
    decreases |THRESHOLDS| - n
  {
    hide AlertAlone, Round;
    var before := w.(board := CheckFirst(w.board, u, row, w.now, n));
    if n == |THRESHOLDS| {
      UnfoldAlert(before, u, Alerting(row, w.now, n), hit, setOk, before, AlertDone(row, w.now));
    } else {
      var after := w.(board := CheckFirst(w.board, u, row, w.now, n + 1));
      UnfoldAlert(before, u, Alerting(row, w.now, n), hit, setOk, after, Alerting(row, w.now, n + 1));
      RoundsAlone(w, u, row, n + 1, hit, setOk);
    }
  }

  // A check alone is a read-through followed by that loop: what the method of the quota service is proved to do.
  lemma CheckAlone(w: World, w': World, u: UserId, hit: bool, setOk: bool, row: QuotaRow)
    requires Quota.ReadThrough(w.quota, w.quotaCache, w'.quota, w'.quotaCache, u, Today(w), hit, true, setOk, Some(row))
    requires w' == w.(quota := w'.quota, quotaCache := w'.quotaCache)
    ensures AlertAlone(w, u, AlertStart, hit, setOk) == w'.(board := Check(w.board, u, row, w.now))
  {
    hide AlertAlone, Check, FreshRow, Rehydrate, Dehydrate;
    if u in w.quotaCache && hit {
      UnfoldAlert(w, u, AlertStart, hit, setOk, w', Alerting(row, w.now, 0));
    } else {
      var read := w.(quota := w'.quota);
      UnfoldAlert(w, u, AlertStart, hit, setOk, w, AlertMiss);
      UnfoldAlert(w, u, AlertMiss, hit, setOk, read, AlertRead(row));
      UnfoldAlert(read, u, AlertRead(row), hit, setOk, w', Alerting(row, w.now, 0));
    }
    assert w'.(board := CheckFirst(w'.board, u, row, w'.now, 0)) == w';
    RoundsAlone(w', u, row, 0, hit, setOk);
  }
}

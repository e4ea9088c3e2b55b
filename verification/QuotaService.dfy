/** The quota service: the quota table, its cache, the daily reset and the alerts. */
module QuotaServices {
  import opened Base
  import opened Acl
  import opened Decimal
  import opened Quota
  import opened Alerts
  import opened Protocol

  const CHUNK_SIZE: nat := 100

  datatype CheckResult = CheckResult(
    allowed: bool, reason: QuotaVerdict,
    storageUsed: nat, storageLimit: nat, filesCount: nat, filesLimit: nat, dailyUploads: nat, dailyUploadLimit: nat)

  datatype CheckOutcome = Answered(result: CheckResult) | InvalidBlobSize | ReadFailed

  /** The users among the first `n` ids whose cache entry could be dropped. */
  function Dropped(ids: seq<UserId>, n: nat, failing: set<UserId>): set<UserId>
    requires n <= |ids|
  {
    if n == 0 then {} else Dropped(ids, n - 1, failing) + (if ids[n - 1] in failing then {} else {ids[n - 1]})
  }

  // Every id the loop has passed has been dropped, failures excepted, and no other.
  lemma {:induction false} DroppedExact(ids: seq<UserId>, n: nat, failing: set<UserId>, u: UserId)
    requires n <= |ids|
    ensures u in Dropped(ids, n, failing) <==> u in ids[..n] && u !in failing
  {
    if n > 0 {
      DroppedExact(ids, n - 1, failing, u);
      assert ids[..n] == ids[..n - 1] + [ids[n - 1]];
    }
  }

  /** The alert a check of this row sends for one threshold: none while the last one is less than an hour old. */
  function Warnings(b: Board, user: UserId, row: QuotaRow, percent: nat, now: int): seq<Notice> {
    var key := Key(user, percent);
    if row.storageLimit > 0 && 100 * row.storageUsed >= percent * row.storageLimit
       && (key in b.cooldown ==> b.cooldown[key] <= now)
    then [Notice(key, row.storageUsed, row.storageLimit, now)] else []
  }

  // The loop over the thresholds sends exactly those at 80 and 95 percent of the exact ratio.
  lemma CheckWarns(b: Board, user: UserId, row: QuotaRow, now: int)
    ensures Check(b, user, row, now).acquired
         == b.acquired + Warnings(b, user, row, 80, now) + Warnings(b, user, row, 95, now)
  {
    if row.storageLimit > 0 {
      PercentExact(row.storageUsed, row.storageLimit, 80);
      PercentExact(row.storageUsed, row.storageLimit, 95);
    }
    hide PercentUsed;
    assert THRESHOLDS[0] == 80 && THRESHOLDS[1] == 95;
    var first := CheckFirst(b, user, row, now, 1);
    assert first == Round(CheckFirst(b, user, row, now, 0), user, row, now, 0);
    assert first.acquired == b.acquired + Warnings(b, user, row, 80, now);
    assert Warnings(first, user, row, 95, now) == Warnings(b, user, row, 95, now);
    assert Check(b, user, row, now) == Round(first, user, row, now, 1);
  }

  class QuotaService {
    var quota: map<UserId, QuotaRow>
    var quotaCache: map<UserId, QuotaEntry>
    var board: Board
    /** Commits so far (bookkeeping). */
    ghost var log: seq<Commit>

    constructor ()
      ensures quota == map[] && quotaCache == map[] && board == EMPTY && log == []
    {
      quota, quotaCache, board, log := map[], map[], EMPTY, [];
    }

    /** `ok`: the DEL did not throw; a failure is swallowed. */
    method InvalidateCache(user: UserId, ok: bool)
      modifies this`quotaCache
      ensures quotaCache == if ok then old(quotaCache) - {user} else old(quotaCache)
    {
      if ok {
        quotaCache := quotaCache - {user};
      }
    }

    /** The row to decide on; None when the transaction throws. */
    method GetOrCreateQuota(user: UserId, now: int, hit: bool, tableOk: bool, setOk: bool)
      returns (row: Option<QuotaRow>)
      modifies this`quota, this`quotaCache
      ensures ReadThrough(old(quota), old(quotaCache), quota, quotaCache, user, now / DAY_MS, hit, tableOk, setOk, row)
      ensures user in old(quotaCache) && hit ==>
        var c := old(quotaCache)[user];
        && row == Some(QuotaRow(Parse(c.storageUsed), Parse(c.storageLimit), c.filesCount, c.filesLimit,
                                c.dailyUploads, c.dailyUploadLimit, c.quotaDate))
        && quota == old(quota) && quotaCache == old(quotaCache)
      ensures !(user in old(quotaCache) && hit) && !tableOk ==>
        row == None && quota == old(quota) && quotaCache == old(quotaCache)
      ensures !(user in old(quotaCache) && hit) && tableOk && user in old(quota) ==>
        row == Some(old(quota)[user]) && quota == old(quota)
      ensures !(user in old(quotaCache) && hit) && tableOk && user !in old(quota) ==>
        && row == Some(QuotaRow(0, 1_073_741_824, 0, 1_000, 0, 100, now / 86_400_000))
        && quota == old(quota)[user := row.value]
      ensures !(user in old(quotaCache) && hit) && tableOk ==>
        quotaCache == if setOk then old(quotaCache)[user := Dehydrate(row.value)] else old(quotaCache)
    {
      if user in quotaCache && hit {
        var cached := quotaCache[user];
        return Some(QuotaRow(Parse(cached.storageUsed), Parse(cached.storageLimit), cached.filesCount,
                             cached.filesLimit, cached.dailyUploads, cached.dailyUploadLimit, cached.quotaDate));
      }
      if !tableOk {
        return None;
      }
      if user !in quota {
        quota := quota[user := FreshRow(now / DAY_MS)];
      }
      row := Some(quota[user]);
      if setOk {
        quotaCache := quotaCache[user := Dehydrate(quota[user])];
      }
    }

    /** Whether an upload of this size fits, and the first limit it breaks. */
    method CheckQuota(user: UserId, blobSize: int, now: int, hit: bool, tableOk: bool, setOk: bool)
      returns (outcome: CheckOutcome, ghost row: Option<QuotaRow>)
      modifies this`quota, this`quotaCache
      ensures outcome.InvalidBlobSize? <==> !(0 <= blobSize <= 9_007_199_254_740_991)
      ensures outcome.InvalidBlobSize? ==> row == None && quota == old(quota) && quotaCache == old(quotaCache)
      ensures ValidBlobSize(blobSize) ==>
        && (outcome.ReadFailed? <==> row == None)
        && ReadThrough(old(quota), old(quotaCache), quota, quotaCache, user, now / DAY_MS, hit, tableOk, setOk, row)
      ensures outcome.Answered? ==>
        && row.Some?
        && (outcome.result.allowed <==>
             && row.value.storageUsed + blobSize <= row.value.storageLimit
             && row.value.filesCount < row.value.filesLimit
             && row.value.dailyUploads < row.value.dailyUploadLimit)
        && outcome.result.reason == Verdict(row.value, blobSize)
        && (outcome.result.allowed <==> outcome.result.reason == Allowed)
        && (outcome.result.reason == StorageExceeded <==> row.value.storageUsed + blobSize > row.value.storageLimit)
        && (outcome.result.reason == FilesExceeded <==>
             && row.value.storageUsed + blobSize <= row.value.storageLimit
             && row.value.filesCount >= row.value.filesLimit)
        && outcome.result.storageUsed == row.value.storageUsed && outcome.result.storageLimit == row.value.storageLimit
        && outcome.result.filesCount == row.value.filesCount && outcome.result.filesLimit == row.value.filesLimit
        && outcome.result.dailyUploads == row.value.dailyUploads
        && outcome.result.dailyUploadLimit == row.value.dailyUploadLimit
    {
      row := None;
      if !ValidBlobSize(blobSize) {
        return InvalidBlobSize, None;
      }
      var q := GetOrCreateQuota(user, now, hit, tableOk, setOk);
      row := q;
      if q.None? {
        return ReadFailed, row;
      }
      var allowed, reason := true, Allowed;
      if q.value.storageUsed + blobSize > q.value.storageLimit {
        allowed, reason := false, StorageExceeded;
      } else if q.value.filesCount >= q.value.filesLimit {
        allowed, reason := false, FilesExceeded;
      } else if q.value.dailyUploads >= q.value.dailyUploadLimit {
        allowed, reason := false, DailyExceeded;
      }
      outcome := Answered(CheckResult(allowed, reason, q.value.storageUsed, q.value.storageLimit, q.value.filesCount,
                                      q.value.filesLimit, q.value.dailyUploads, q.value.dailyUploadLimit));
    }

    /** False when there is no row to charge or the size is not a safe integer. */
    method RecordUpload(user: UserId, blobSize: int, flushOk: bool) returns (ok: bool)
      modifies this`quota, this`quotaCache, this`log
      ensures ok <==> 0 <= blobSize <= 9_007_199_254_740_991 && user in old(quota)
      ensures ok ==> quota == old(quota)[user := Charge(old(quota)[user], blobSize)]
      ensures ok ==>
        var row := old(quota)[user];
        quota == old(quota)[user := row.(storageUsed := row.storageUsed + blobSize, filesCount := row.filesCount + 1,
                                         dailyUploads := row.dailyUploads + 1)]
      ensures ok ==> log == old(log) + [UploadCommit(user)]
      ensures ok ==> quotaCache == if flushOk then old(quotaCache) - {user} else old(quotaCache)
      ensures !ok ==> quota == old(quota) && quotaCache == old(quotaCache) && log == old(log)
    {
      if !ValidBlobSize(blobSize) || user !in quota {
        return false;
      }
      var row := quota[user];
      quota := quota[user := row.(storageUsed := row.storageUsed + blobSize,
                                  filesCount := row.filesCount + 1,
                                  dailyUploads := row.dailyUploads + 1)];
      log := log + [UploadCommit(user)];
      InvalidateCache(user, flushOk);
      ok := true;
    }

    method RecordDelete(user: UserId, blobSize: int, flushOk: bool) returns (ok: bool)
      modifies this`quota, this`quotaCache
      ensures ok <==> 0 <= blobSize <= 9_007_199_254_740_991 && user in old(quota)
      ensures ok ==> quota == old(quota)[user := Refund(old(quota)[user], blobSize)]
      ensures ok ==>
        var row := old(quota)[user];
        quota == old(quota)[user := row.(
          storageUsed := if blobSize <= row.storageUsed then row.storageUsed - blobSize else 0,
          filesCount := if 1 <= row.filesCount then row.filesCount - 1 else 0)]
      ensures ok ==> quotaCache == if flushOk then old(quotaCache) - {user} else old(quotaCache)
      ensures !ok ==> quota == old(quota) && quotaCache == old(quotaCache)
    {
      if !ValidBlobSize(blobSize) || user !in quota {
        return false;
      }
      var row := quota[user];
      quota := quota[user := row.(storageUsed := if row.storageUsed >= blobSize then row.storageUsed - blobSize else 0,
                                  filesCount := if row.filesCount >= 1 then row.filesCount - 1 else 0)];
      InvalidateCache(user, flushOk);
      ok := true;
    }

    /** The database function: rows of an earlier date start the day afresh; the users it touched, in some order. */
    method ResetFunction(now: int) returns (ids: seq<UserId>)
      modifies this`quota, this`log
      ensures quota == ResetRows(old(quota), now / DAY_MS)
      ensures log == old(log) + [ResetCommit(ResetUsers(old(quota), now / DAY_MS))]
      ensures NoDuplicates(ids) && forall u :: u in ids <==> u in ResetUsers(old(quota), now / DAY_MS)
      ensures forall u :: u in ids <==> u in old(quota) && old(quota)[u].quotaDate < now / 86_400_000
      ensures quota.Keys == old(quota).Keys
      ensures forall u :: u in old(quota) ==>
        quota[u] == if old(quota)[u].quotaDate < now / 86_400_000
                    then old(quota)[u].(dailyUploads := 0, quotaDate := now / 86_400_000) else old(quota)[u]
    {
      var today := now / DAY_MS;
      var pending := ResetUsers(quota, today);
      ids := [];
      while pending != {}
        invariant NoDuplicates(ids)
        invariant forall u :: u in ids ==> u !in pending
        invariant forall u :: u in ids || u in pending <==> u in ResetUsers(quota, today)
        invariant quota == old(quota) && log == old(log)
        decreases |pending|
      {
        var u :| u in pending;
        ids, pending := ids + [u], pending - {u};
      }
      log := log + [ResetCommit(ResetUsers(quota, today))];
      quota := map u | u in quota ::
        if quota[u].quotaDate < today then quota[u].(dailyUploads := 0, quotaDate := today) else quota[u];
      ResetExact(old(quota), today);
    }

    /** The midnight job. `failing` holds the users whose DEL throws. */
    method ResetDailyUploads(now: int, failing: set<UserId>)
      modifies this`quota, this`quotaCache, this`log
      ensures quota == ResetRows(old(quota), now / DAY_MS)
      ensures log == old(log) + [ResetCommit(ResetUsers(old(quota), now / DAY_MS))]
      ensures quotaCache == old(quotaCache) - (ResetUsers(old(quota), now / DAY_MS) - failing)
      ensures quota.Keys == old(quota).Keys
      ensures forall u :: u in old(quota) ==>
        quota[u] == if old(quota)[u].quotaDate < now / 86_400_000
                    then old(quota)[u].(dailyUploads := 0, quotaDate := now / 86_400_000) else old(quota)[u]
      ensures forall u :: u in old(quotaCache) ==>
        if u in old(quota) && old(quota)[u].quotaDate < now / 86_400_000 && u !in failing then u !in quotaCache
        else u in quotaCache && quotaCache[u] == old(quotaCache)[u]
    {
      var ids := ResetFunction(now);
      var i := 0;
      while i < |ids|
        invariant i >= 0
        invariant quotaCache == old(quotaCache) - Dropped(ids, Min(i, |ids|), failing)
        modifies this`quotaCache
      {
        var end, j := Min(i + CHUNK_SIZE, |ids|), i;
        while j < end
          invariant i <= j <= end
          invariant quotaCache == old(quotaCache) - Dropped(ids, j, failing)
          modifies this`quotaCache
        {
          InvalidateCache(ids[j], ids[j] !in failing);
          j := j + 1;
        }
        i := i + CHUNK_SIZE;
      }
      forall u ensures u in Dropped(ids, |ids|, failing) <==> u in ResetUsers(old(quota), now / DAY_MS) - failing {
        DroppedExact(ids, |ids|, failing, u);
        assert ids[..|ids|] == ids;
      }
    }

    /** SET NX EX on the cooldown key; whoever acquires it publishes. */
    method PublishQuotaAlert(user: UserId, row: QuotaRow, percent: nat, now: int)
      modifies this`board
      ensures board == Attempt(old(board), user, row, percent, now)
      ensures var key := Key(user, percent);
        if key in old(board).cooldown && now < old(board).cooldown[key] then board == old(board)
        else board == Board(old(board).cooldown[key := now + 3_600_000],
                            old(board).acquired + [Notice(key, row.storageUsed, row.storageLimit, now)])
    {
      var key := Key(user, percent);
      if key in board.cooldown && now < board.cooldown[key] {
        return;
      }
      board := Board(board.cooldown[key := now + COOLDOWN_MS],
                     board.acquired + [Notice(key, row.storageUsed, row.storageLimit, now)]);
    }

    method CheckAndPublishQuotaAlert(user: UserId, now: int, hit: bool, tableOk: bool, setOk: bool)
      returns (ghost row: Option<QuotaRow>)
      modifies this`quota, this`quotaCache, this`board
      ensures ReadThrough(old(quota), old(quotaCache), quota, quotaCache, user, now / DAY_MS, hit, tableOk, setOk, row)
      ensures board == if row.None? then old(board) else Check(old(board), user, row.value, now)
      ensures row.Some? ==>
        board.acquired == old(board).acquired + Warnings(old(board), user, row.value, 80, now)
                                              + Warnings(old(board), user, row.value, 95, now)
    {
      var q := GetOrCreateQuota(user, now, hit, tableOk, setOk);
      row := q;
      if q.None? {
        return;
      }
      if q.value.storageLimit == 0 {
        NothingDue(board, user, q.value, now, |THRESHOLDS|);
        CheckWarns(board, user, q.value, now);
        return;
      }
      var percentUsed := q.value.storageUsed * 100 / q.value.storageLimit;
      for n := 0 to |THRESHOLDS|
        invariant board == CheckFirst(old(board), user, q.value, now, n)
        modifies this`board
      {
        if percentUsed >= THRESHOLDS[n] {
          PublishQuotaAlert(user, q.value, THRESHOLDS[n], now);
        }
      }
      CheckWarns(old(board), user, q.value, now);
    }
  }

  lemma {:induction false} NothingDue(b: Board, user: UserId, row: QuotaRow, now: int, n: nat)
    requires n <= |THRESHOLDS| && row.storageLimit == 0
    ensures CheckFirst(b, user, row, now, n) == b
  {
    if n > 0 {
      NothingDue(b, user, row, now, n - 1);
    }
  }
}

/** Quota rows, their cached form, the pre-upload check and the arithmetic of the alerts. */
module Quota {
  import opened Base
  import opened Decimal

  const DEFAULT_STORAGE_LIMIT_BYTES: nat := 1_073_741_824
  const DEFAULT_FILES_LIMIT: nat := 1_000
  const DEFAULT_DAILY_UPLOAD_LIMIT: nat := 100
  const MAX_SAFE_INTEGER: nat := 9_007_199_254_740_991

  datatype QuotaRow = QuotaRow(
    storageUsed: nat, storageLimit: nat,
    filesCount: nat, filesLimit: nat,
    dailyUploads: nat, dailyUploadLimit: nat,
    quotaDate: int)

  /** What Redis holds: the two big integers travel as decimal text. */
  datatype CachedQuota = CachedQuota(
    storageUsed: string, storageLimit: string,
    filesCount: nat, filesLimit: nat,
    dailyUploads: nat, dailyUploadLimit: nat,
    quotaDate: int)

  type QuotaEntry = c: CachedQuota | AllDigits(c.storageUsed) && AllDigits(c.storageLimit)
    witness CachedQuota("0", "0", 0, 0, 0, 0, 0)

  function Dehydrate(row: QuotaRow): QuotaEntry {
    CachedQuota(Print(row.storageUsed), Print(row.storageLimit), row.filesCount, row.filesLimit,
                row.dailyUploads, row.dailyUploadLimit, row.quotaDate)
  }

  function Rehydrate(c: QuotaEntry): QuotaRow {
    QuotaRow(Parse(c.storageUsed), Parse(c.storageLimit), c.filesCount, c.filesLimit,
             c.dailyUploads, c.dailyUploadLimit, c.quotaDate)
  }

  // A row read back from the cache is the row that was written.
  lemma RehydrateDehydrate(row: QuotaRow)
    ensures Rehydrate(Dehydrate(row)) == row
  {
    ParsePrint(row.storageUsed);
    ParsePrint(row.storageLimit);
  }

  // Different rows never share a cached form.
  lemma DehydrateInjective(a: QuotaRow, b: QuotaRow)
    ensures Dehydrate(a) == Dehydrate(b) <==> a == b
  {
    RehydrateDehydrate(a);
    RehydrateDehydrate(b);
  }

  function FreshRow(today: int): QuotaRow {
    QuotaRow(0, DEFAULT_STORAGE_LIMIT_BYTES, 0, DEFAULT_FILES_LIMIT, 0, DEFAULT_DAILY_UPLOAD_LIMIT, today)
  }

  /** Reading a user's row through the cache, from stores (`rows`, `cache`) to stores (`rows'`, `cache'`). */
  ghost predicate ReadThrough(
    rows: map<UserId, QuotaRow>, cache: map<UserId, QuotaEntry>,
    rows': map<UserId, QuotaRow>, cache': map<UserId, QuotaEntry>,
    user: UserId, today: int, hit: bool, tableOk: bool, setOk: bool, row: Option<QuotaRow>)
  {
    if user in cache && hit then
      row == Some(Rehydrate(cache[user])) && rows' == rows && cache' == cache
    else if !tableOk then
      row == None && rows' == rows && cache' == cache
    else
      && row == Some(if user in rows then rows[user] else FreshRow(today))
      && rows' == rows[user := row.value]
      && cache' == if setOk then cache[user := Dehydrate(row.value)] else cache
  }

  datatype QuotaVerdict = Allowed | StorageExceeded | FilesExceeded | DailyExceeded

  function Verdict(q: QuotaRow, size: int): QuotaVerdict {
    if q.storageUsed + size > q.storageLimit then StorageExceeded
    else if q.filesCount >= q.filesLimit then FilesExceeded
    else if q.dailyUploads >= q.dailyUploadLimit then DailyExceeded
    else Allowed
  }

  predicate ValidBlobSize(size: int) {
    0 <= size <= MAX_SAFE_INTEGER
  }

  /** The row after `recordUpload`. */
  function Charge(row: QuotaRow, size: nat): QuotaRow {
    row.(storageUsed := row.storageUsed + size,
         filesCount := row.filesCount + 1,
         dailyUploads := row.dailyUploads + 1)
  }

  /** The row after `recordDelete`, with its GREATEST(0, ...) clamps. */
  function Refund(row: QuotaRow, size: nat): QuotaRow {
    row.(storageUsed := Max(0, row.storageUsed - size),
         filesCount := Max(0, row.filesCount - 1))
  }

  predicate Stale(row: QuotaRow, today: int) {
    row.quotaDate < today
  }

  function ResetRow(row: QuotaRow, today: int): QuotaRow {
    if Stale(row, today) then row.(dailyUploads := 0, quotaDate := today) else row
  }

  /** The UPDATE of `reset_daily_uploads`. */
  function ResetRows(rows: map<UserId, QuotaRow>, today: int): map<UserId, QuotaRow> {
    map u | u in rows :: ResetRow(rows[u], today)
  }

  /** Its RETURNING clause. */
  function ResetUsers(rows: map<UserId, QuotaRow>, today: int): set<UserId> {
    set u | u in rows && Stale(rows[u], today)
  }

  // What the reset does, column by column: a row of an earlier date starts today with no uploads, every other row and
  // every other column stays, and the users returned are those of an earlier date.
  lemma ResetExact(rows: map<UserId, QuotaRow>, today: int)
    ensures var after := ResetRows(rows, today);
      && after.Keys == rows.Keys
      && forall u :: u in rows ==>
        && after[u].quotaDate >= today
        && (rows[u].quotaDate < today ==> after[u] == rows[u].(dailyUploads := 0, quotaDate := today))
        && (rows[u].quotaDate >= today ==> after[u] == rows[u])
    ensures forall u :: u in ResetUsers(rows, today) <==> u in rows && rows[u].quotaDate < today
  {
    assert forall u :: u in rows ==> ResetRows(rows, today)[u] == ResetRow(rows[u], today);
  }

  // A second reset on the same date changes nothing and returns nobody.
  lemma ResetTwice(rows: map<UserId, QuotaRow>, today: int)
    ensures ResetRows(ResetRows(rows, today), today) == ResetRows(rows, today)
    ensures ResetUsers(ResetRows(rows, today), today) == {}
  {
    assert forall u :: u in rows ==> ResetRow(ResetRow(rows[u], today), today) == ResetRow(rows[u], today);
  }

  // The users returned are exactly those whose row changed, dates not going backwards.
  lemma ResetUsersExact(rows: map<UserId, QuotaRow>, today: int, u: UserId)
    requires u in rows
    ensures u in ResetUsers(rows, today) <==> ResetRows(rows, today)[u] != rows[u]
    ensures u in ResetUsers(rows, today) ==> ResetRows(rows, today)[u].dailyUploads == 0
  {
    assert ResetRows(rows, today)[u] == ResetRow(rows[u], today);
  }

  // Charging and refunding the same size is the identity on storage and files; the day's uploads stay counted.
  lemma RefundCharge(row: QuotaRow, size: nat)
    ensures Refund(Charge(row, size), size) == row.(dailyUploads := row.dailyUploads + 1)
    ensures Charge(Refund(row, size), size) == row.(dailyUploads := row.dailyUploads + 1)
       <==> size <= row.storageUsed && 1 <= row.filesCount
  {}

  // ----- quota alerts -----

  function PercentUsed(used: nat, limit: nat): nat
    requires limit > 0
  {
    used * 100 / limit
  }

  // The truncating division decides the threshold exactly as the exact ratio would.
  lemma PercentExact(used: nat, limit: nat, threshold: nat)
    requires limit > 0
    ensures PercentUsed(used, limit) >= threshold <==> 100 * used >= threshold * limit
  {
    var q, r := used * 100 / limit, used * 100 % limit;
    assert used * 100 == q * limit + r;
    if q >= threshold {
      MulMonotone(threshold, q, limit);
    } else {
      MulMonotone(q + 1, threshold, limit);
      assert (q + 1) * limit == q * limit + limit;
    }
  }

  lemma MulMonotone(a: nat, b: nat, c: nat)
    requires a <= b
    ensures a * c <= b * c
  {}

  // An alert at 95 % implies that the test at 80 % held too.
  lemma AlertsNested(used: nat, limit: nat)
    requires limit > 0 && PercentUsed(used, limit) >= 95
    ensures PercentUsed(used, limit) >= 80 && 100 * used >= 80 * limit
  {
    PercentExact(used, limit, 80);
  }
}

/**
 * Quota alerts: when one is due, and the cooldown that one SET NX EX command takes or finds taken.
 *
 * The commands of concurrent checks interleave; what holds of the board then is proved in AlertRuns.
 */
module Alerts {
  import opened Base
  import opened Quota

  const COOLDOWN_MS: int := 60 * 60 * 1000
  const THRESHOLDS: seq<nat> := [80, 95]

  datatype Key = Key(user: UserId, percent: nat)

  /** A cooldown acquired, and with it the `quota.alert` that is published at once. */
  datatype Notice = Notice(key: Key, used: nat, limit: nat, at: int)

  /** Cooldown keys with the moment they expire, and every acquisition so far. */
  datatype Board = Board(cooldown: map<Key, int>, acquired: seq<Notice>)

  const EMPTY: Board := Board(map[], [])

  predicate CoolingDown(b: Board, key: Key, now: int) {
    key in b.cooldown && now < b.cooldown[key]
  }

  /** SET NX EX: takes the key unless it is held. */
  function Attempt(b: Board, user: UserId, row: QuotaRow, percent: nat, now: int): Board {
    var key := Key(user, percent);
    if CoolingDown(b, key, now) then b
    else Board(b.cooldown[key := now + COOLDOWN_MS],
               b.acquired + [Notice(key, row.storageUsed, row.storageLimit, now)])
  }

  /** An alert at `percent` is due: the test the code makes. */
  predicate Due(row: QuotaRow, percent: nat) {
    row.storageLimit > 0 && PercentUsed(row.storageUsed, row.storageLimit) >= percent
  }

  /** The attempt of one round of the loop over the thresholds. */
  function Round(b: Board, user: UserId, row: QuotaRow, now: int, n: nat): Board
    requires n < |THRESHOLDS|
  {
    if Due(row, THRESHOLDS[n]) then Attempt(b, user, row, THRESHOLDS[n], now) else b
  }

  /** The first `n` rounds, when nothing comes in between. */
  function CheckFirst(b: Board, user: UserId, row: QuotaRow, now: int, n: nat): Board
    requires n <= |THRESHOLDS|
  {
    if n == 0 then b else Round(CheckFirst(b, user, row, now, n - 1), user, row, now, n - 1)
  }

  function Check(b: Board, user: UserId, row: QuotaRow, now: int): Board {
    CheckFirst(b, user, row, now, |THRESHOLDS|)
  }

  // ----- what every attempt keeps -----

  ghost predicate Spaced(acquired: seq<Notice>) {
    forall i, j :: 0 <= i < j < |acquired| && acquired[i].key == acquired[j].key ==>
      acquired[i].at + COOLDOWN_MS <= acquired[j].at
  }

  /** The percentage is one of the thresholds, and the usage really is that high. */
  predicate Justified(n: Notice) {
    n.key.percent in THRESHOLDS && 0 < n.limit && 100 * n.used >= n.key.percent * n.limit
  }

  /** Some acquisition of the key was made by `now` and less than an hour before `since`. */
  ghost predicate Announced(b: Board, key: Key, since: int, now: int) {
    exists i ::
      0 <= i < |b.acquired| && b.acquired[i].key == key && b.acquired[i].at <= now
      && since < b.acquired[i].at + COOLDOWN_MS
  }

  /** Every acquisition is justified, and its key is held for an hour after it at least. */
  ghost predicate Held(b: Board, now: int) {
    forall i :: 0 <= i < |b.acquired| ==>
      var n := b.acquired[i];
      Justified(n) && n.at <= now && n.key in b.cooldown && n.at + COOLDOWN_MS <= b.cooldown[n.key]
  }

  /** A key is held because of some acquisition. */
  ghost predicate Backs(b: Board, key: Key, i: nat) {
    && i < |b.acquired| && b.acquired[i].key == key
    && key in b.cooldown && b.acquired[i].at + COOLDOWN_MS == b.cooldown[key]
  }

  ghost predicate Backed(b: Board) {
    forall key :: key in b.cooldown ==> exists i :: Backs(b, key, i)
  }

  ghost predicate BoardInv(b: Board, now: int) {
    Spaced(b.acquired) && Held(b, now) && Backed(b)
  }

  lemma DueIsJustified(row: QuotaRow, percent: nat, key: Key, now: int)
    requires percent in THRESHOLDS && Due(row, percent) && key.percent == percent
    ensures Justified(Notice(key, row.storageUsed, row.storageLimit, now))
  {
    PercentExact(row.storageUsed, row.storageLimit, percent);
  }

  lemma NewNoticeIsBacked(b: Board, user: UserId, row: QuotaRow, percent: nat, now: int)
    requires Backed(b) && !CoolingDown(b, Key(user, percent), now)
    ensures Backed(Attempt(b, user, row, percent, now))
  {
    var key, b' := Key(user, percent), Attempt(b, user, row, percent, now);
    assert Backs(b', key, |b.acquired|);
    forall other | other in b'.cooldown ensures exists i :: Backs(b', other, i) {
      if other != key {
        var i :| Backs(b, other, i);
        assert Backs(b', other, i);
      }
    }
  }

  // A key that is still held was acquired less than an hour ago.
  lemma HeldIsAnnounced(b: Board, key: Key, now: int)
    requires Backed(b) && Held(b, now) && CoolingDown(b, key, now)
    ensures Announced(b, key, now, now)
  {
    var i :| Backs(b, key, i);
  }

  // One command of any check, whatever came before it: acquisitions stay an hour apart, and afterwards the key has
  // been acquired within the last hour.
  lemma AttemptKeeps(b: Board, user: UserId, row: QuotaRow, percent: nat, now: int)
    requires BoardInv(b, now) && percent in THRESHOLDS && Due(row, percent)
    ensures var b' := Attempt(b, user, row, percent, now);
      BoardInv(b', now) && b.acquired <= b'.acquired && Announced(b', Key(user, percent), now, now)
  {
    hide Justified, Due, PercentUsed, Backed;
    var key, b' := Key(user, percent), Attempt(b, user, row, percent, now);
    if CoolingDown(b, key, now) {
      HeldIsAnnounced(b, key, now);
    } else {
      DueIsJustified(row, percent, key, now);
      NewNoticeIsBacked(b, user, row, percent, now);
      assert b'.acquired[|b.acquired|].key == key;
    }
  }

  lemma BoardInvLater(b: Board, now: int, later: int)
    requires BoardInv(b, now) && now <= later
    ensures BoardInv(b, later)
  {}

  lemma AnnouncedStays(b: Board, b': Board, key: Key, since: int, now: int, later: int)
    requires Announced(b, key, since, now) && b.acquired <= b'.acquired && now <= later
    ensures Announced(b', key, since, later)
  {
    var i :|
      0 <= i < |b.acquired| && b.acquired[i].key == key && b.acquired[i].at <= now
      && since < b.acquired[i].at + COOLDOWN_MS;
    assert b'.acquired[i] == b.acquired[i];
  }
}

/** The user's own media, page by page. */
module Paging {
  import opened Base
  import opened Acl

  const MAX_LIMIT: int := 100
  const DEFAULT_LIMIT: int := 20

  /** `Number.parseInt(raw) || fallback`: None stands for a text without a leading number. */
  function OrDefault(parsed: Option<int>, fallback: int): int {
    if parsed.None? || parsed.value == 0 then fallback else parsed.value
  }

  function ClampPage(parsed: Option<int>): (page: int)
    ensures page == if parsed.Some? && parsed.value >= 1 then parsed.value else 1
  {
    Max(1, OrDefault(parsed, 1))
  }

  function ClampLimit(parsed: Option<int>): (limit: int)
    ensures 1 <= limit <= 100
    ensures parsed.None? || parsed.value == 0 ==> limit == 20
    ensures parsed.Some? && parsed.value < 0 ==> limit == 1
    ensures parsed.Some? && 1 <= parsed.value <= 100 ==> limit == parsed.value
    ensures parsed.Some? && parsed.value > 100 ==> limit == 100
  {
    Min(MAX_LIMIT, Max(1, OrDefault(parsed, DEFAULT_LIMIT)))
  }

  /** `skip` */
  function Skip(page: int, limit: int): int {
    (page - 1) * limit
  }

  /** `skip` then `take` on the ordered rows. */
  function Page<T>(rows: seq<T>, page: int, limit: int): seq<T>
    requires page >= 1 && limit >= 1
  {
    SkipStep(page, limit);
    rows[Min(Skip(page, limit), |rows|)..Min(Skip(page, limit) + limit, |rows|)]
  }

  /** `Math.ceil(total / limit)` */
  function TotalPages(total: nat, limit: int): (pages: nat)
    requires limit >= 1
    ensures Skip(pages, limit) < total <= Skip(pages + 1, limit)
         || (total == 0 && pages == 0)
  {
    if total % limit == 0 then total / limit else total / limit + 1
  }

  lemma SkipStep(page: int, limit: int)
    requires limit >= 1
    ensures Skip(page + 1, limit) == Skip(page, limit) + limit
    ensures page >= 1 ==> Skip(page, limit) >= 0
  {}

  lemma SkipMonotone(a: int, b: int, limit: int)
    requires a <= b && limit >= 1
    ensures Skip(a, limit) <= Skip(b, limit)
  {}

  /** Pages `from` to the last one, one after the other. */
  function PagesFrom<T>(rows: seq<T>, from: int, limit: int): seq<T>
    requires from >= 1 && limit >= 1
    decreases TotalPages(|rows|, limit) + 1 - from
  {
    if from > TotalPages(|rows|, limit) then [] else Page(rows, from, limit) + PagesFrom(rows, from + 1, limit)
  }

  // Every page but the last is full, the last is not empty, and later pages are.
  lemma PageSizes<T>(rows: seq<T>, page: int, limit: int)
    requires page >= 1 && limit >= 1
    ensures page < TotalPages(|rows|, limit) ==> |Page(rows, page, limit)| == limit
    ensures page == TotalPages(|rows|, limit) ==> 1 <= |Page(rows, page, limit)| <= limit
    ensures page > TotalPages(|rows|, limit) ==> Page(rows, page, limit) == []
  {
    hide Skip, TotalPages;
    var total := TotalPages(|rows|, limit);
    SkipStep(page, limit);
    if page < total {
      SkipMonotone(page + 1, total, limit);
    } else if page > total {
      SkipMonotone(total + 1, page, limit);
    }
  }

  lemma {:induction false} PagesFromIsSuffix<T>(rows: seq<T>, from: int, limit: int)
    requires from >= 1 && limit >= 1 && Skip(from, limit) >= 0
    ensures PagesFrom(rows, from, limit) == rows[Min(Skip(from, limit), |rows|)..]
    decreases TotalPages(|rows|, limit) + 1 - from
  {
    hide Skip, TotalPages;
    SkipStep(from, limit);
    if from > TotalPages(|rows|, limit) {
      SkipMonotone(TotalPages(|rows|, limit) + 1, from, limit);
    } else {
      PagesFromIsSuffix(rows, from + 1, limit);
    }
  }

  // Pages 1 to `totalPages` put together are the whole list, every row once and in order.
  lemma PagesCoverList<T>(rows: seq<T>, limit: int)
    requires limit >= 1
    ensures PagesFrom(rows, 1, limit) == rows
  {
    PagesFromIsSuffix(rows, 1, limit);
  }

  // Row `k` is on exactly one page, at one place.
  lemma RowIsOn<T>(rows: seq<T>, k: nat, page: int, limit: int)
    requires k < |rows| && page >= 1 && limit >= 1
    ensures var i := k - Skip(page, limit);
      (0 <= i < limit <==> page == k / limit + 1)
      && (0 <= i < limit ==> i < |Page(rows, page, limit)| && Page(rows, page, limit)[i] == rows[k])
  {
    var home := k / limit + 1;
    assert k == Skip(home, limit) + k % limit;
    hide Skip;
    SkipStep(page, limit);
    if page < home {
      SkipMonotone(page + 1, home, limit);
    } else if page > home {
      SkipStep(home, limit);
      SkipMonotone(home + 1, page, limit);
    }
  }

  // ----- the order -----

  /** A result of `ORDER BY created_at DESC` over rows with these creation times. */
  ghost predicate Listing<K(!new)>(created: map<K, int>, rows: seq<K>) {
    && NoDuplicates(rows)
    && (forall k :: k in rows <==> k in created)
    && forall i, j :: 0 <= i < j < |rows| ==> created[rows[i]] >= created[rows[j]]
  }

  ghost predicate NoTies<K(!new)>(created: map<K, int>) {
    forall a, b :: a in created && b in created && a != b ==> created[a] != created[b]
  }

  lemma Rest<K(!new)>(created: map<K, int>, rows: seq<K>)
    requires Listing(created, rows) && rows != []
    ensures Listing(created - {rows[0]}, rows[1..])
  {
    var rest := rows[1..];
    forall k | k in rest ensures k in created - {rows[0]} {
      var i :| 0 <= i < |rest| && rest[i] == k;
      assert rows[i + 1] == k;
    }
  }

  lemma {:induction false} NoTiesOneListing<K(!new)>(created: map<K, int>, rows: seq<K>, other: seq<K>)
    requires Listing(created, rows) && Listing(created, other) && NoTies(created)
    ensures rows == other
  {
    assert other != [] ==> other[0] in rows;
    if rows != [] {
      assert rows[0] in other;
      var i :| 0 <= i < |other| && other[i] == rows[0];
      var j :| 0 <= j < |rows| && rows[j] == other[0];
      assert rows[0] == other[0];
      Rest(created, rows);
      Rest(created, other);
      NoTiesOneListing(created - {rows[0]}, rows[1..], other[1..]);
    }
  }

  // Two neighbours created at the same time may come back in either order.
  lemma SwapTied<K(!new)>(created: map<K, int>, rows: seq<K>, i: nat)
    requires Listing(created, rows) && i + 1 < |rows| && created[rows[i]] == created[rows[i + 1]]
    ensures var other := rows[i := rows[i + 1]][i + 1 := rows[i]]; Listing(created, other) && other != rows
  {
    var other := rows[i := rows[i + 1]][i + 1 := rows[i]];
    forall k ensures k in other <==> k in created {
      if k in rows {
        var j :| 0 <= j < |rows| && rows[j] == k;
        assert other[if j == i then i + 1 else if j == i + 1 then i else j] == k;
      }
      if k in other {
        var j :| 0 <= j < |other| && other[j] == k;
        assert k == rows[if j == i then i + 1 else if j == i + 1 then i else j];
      }
    }
  }

  // The order, and with it what a page holds, is settled exactly when no two rows were created at the same time.
  lemma OrderSettled<K(!new)>(created: map<K, int>, rows: seq<K>)
    requires Listing(created, rows)
    ensures (forall other :: Listing(created, other) ==> other == rows) <==> NoTies(created)
  {
    if NoTies(created) {
      forall other | Listing(created, other) ensures other == rows {
        NoTiesOneListing(created, rows, other);
      }
    } else {
      var a, b :| a in created && b in created && a != b && created[a] == created[b];
      var i :| 0 <= i < |rows| && rows[i] == a;
      var j :| 0 <= j < |rows| && rows[j] == b;
      TiedNeighbours(created, rows, Min(i, j), Max(i, j));
    }
  }

  lemma TiedNeighbours<K(!new)>(created: map<K, int>, rows: seq<K>, i: nat, j: nat)
    requires Listing(created, rows) && i < j < |rows| && created[rows[i]] == created[rows[j]]
    ensures exists other :: Listing(created, other) && other != rows
  {
    assert created[rows[i]] >= created[rows[i + 1]];
    assert i + 1 < j ==> created[rows[i + 1]] >= created[rows[j]];
    SwapTied(created, rows, i);
  }

  // ----- turning a page -----

  /** A client reads pages up to `page` from one listing and the later ones from another: every row once. */
  ghost predicate Seamless<K(!new)>(rows: seq<K>, other: seq<K>, page: int, limit: int)
    requires page >= 1 && limit >= 1
  {
    forall k :: k in rows ==>
      (k in rows[..Min(Skip(page + 1, limit), |rows|)] <==> k !in PagesFrom(other, page + 1, limit))
  }

  ghost function Keys<K>(rows: seq<K>): set<K> {
    set k | k in rows
  }

  lemma {:induction false} KeysOfDistinct<K>(rows: seq<K>)
    requires NoDuplicates(rows)
    ensures |Keys(rows)| == |rows|
  {
    if rows == [] {
      assert Keys(rows) == {};
    } else {
      var n := |rows| - 1;
      KeysOfDistinct(rows[..n]);
      assert Keys(rows) == Keys(rows[..n]) + {rows[n]};
    }
  }

  lemma SmallerSubset<K>(a: set<K>, b: set<K>)
    requires a <= b
    ensures |a| <= |b| && (|a| == |b| ==> a == b)
  {
    assert b == a + (b - a);
  }

  // With a drop in creation time after the first `n` rows, no listing puts a later row before one of them.
  lemma Earlier<K(!new)>(created: map<K, int>, rows: seq<K>, other: seq<K>, n: nat, i: nat, p: K)
    requires Listing(created, rows) && Listing(created, other)
    requires 0 < n < |rows| && created[rows[n - 1]] > created[rows[n]]
    requires p in rows[..n] && i < |other| && other[i] !in rows[..n]
    ensures p in other[..i]
  {
    var k := other[i];
    assert k in created && k in rows && p in created && p in other;
    var a :| 0 <= a < n && rows[a] == p;
    var b :| 0 <= b < |rows| && rows[b] == k;
    var c :| 0 <= c < |other| && other[c] == p;
    assert k !in rows[..n] && b >= n;
    assert created[p] >= created[rows[n - 1]] && created[k] <= created[rows[n]];
    assert c < i;
    assert other[..i][c] == p;
  }

  // So every listing has the same first `n` rows, in some order.
  lemma SameFirst<K(!new)>(created: map<K, int>, rows: seq<K>, other: seq<K>, n: nat)
    requires Listing(created, rows) && Listing(created, other)
    requires 0 < n < |rows| && created[rows[n - 1]] > created[rows[n]]
    ensures n < |other| && Keys(other[..n]) == Keys(rows[..n])
  {
    KeysOfDistinct(rows);
    KeysOfDistinct(other);
    assert Keys(rows) == Keys(other);
    var first := Keys(rows[..n]);
    KeysOfDistinct(rows[..n]);
    KeysOfDistinct(other[..n]);
    forall i | 0 <= i < n ensures other[i] in first {
      if other[i] !in first {
        forall p | p in first ensures p in Keys(other[..i]) {
          Earlier(created, rows, other, n, i, p);
        }
        KeysOfDistinct(other[..i]);
        SmallerSubset(first, Keys(other[..i]));
      }
    }
    SmallerSubset(Keys(other[..n]), first);
  }

  lemma SplitAt<K(!new)>(rows: seq<K>, other: seq<K>, n: nat)
    requires NoDuplicates(other) && (forall k :: k in rows <==> k in other) && n <= |rows| && n <= |other|
    requires Keys(other[..n]) == Keys(rows[..n])
    ensures forall k :: k in rows ==> (k in rows[..n] <==> k !in other[n..])
  {
    forall k | k in rows ensures k in rows[..n] <==> k !in other[n..] {
      assert k in rows[..n] <==> k in Keys(rows[..n]);
      assert k in other[..n] <==> k in Keys(other[..n]);
      assert other == other[..n] + other[n..];
    }
  }

  // Neighbours of the same time on either side of the page turn: the later page may repeat the one, and then no page
  // shows the other.
  lemma TiedTurn<K(!new)>(created: map<K, int>, rows: seq<K>, page: int, limit: int) returns (other: seq<K>)
    requires Listing(created, rows) && page >= 1 && limit >= 1 && 0 < Skip(page + 1, limit) < |rows|
    requires var n := Skip(page + 1, limit); created[rows[n - 1]] == created[rows[n]]
    ensures var n := Skip(page + 1, limit);
      && Listing(created, other)
      && rows[n - 1] in Page(rows, page, limit) && rows[n - 1] in Page(other, page + 1, limit)
      && rows[n] !in rows[..n] && rows[n] !in PagesFrom(other, page + 1, limit)
      && rows[n - 1] in rows[..n] && rows[n - 1] in PagesFrom(other, page + 1, limit)
  {
    var n := Skip(page + 1, limit);
    SwapTied(created, rows, n - 1);
    other := rows[n - 1 := rows[n]][n := rows[n - 1]];
    SkipStep(page, limit);
    SkipStep(page + 1, limit);
    PagesFromIsSuffix(other, page + 1, limit);
    assert rows[..n][n - 1] == rows[n - 1] && other[n..][0] == rows[n - 1];
    assert Page(rows, page, limit)[limit - 1] == rows[n - 1];
    assert Page(other, page + 1, limit)[0] == rows[n - 1];
    hide Skip, PagesFrom, Page;
  }

  lemma UntiedTurn<K(!new)>(created: map<K, int>, rows: seq<K>, page: int, limit: int, other: seq<K>)
    requires Listing(created, rows) && page >= 1 && limit >= 1 && 0 < Skip(page + 1, limit) < |rows|
    requires var n := Skip(page + 1, limit); created[rows[n - 1]] != created[rows[n]]
    requires Listing(created, other)
    ensures Seamless(rows, other, page, limit)
  {
    var n := Skip(page + 1, limit);
    PagesFromIsSuffix(other, page + 1, limit);
    hide Skip, PagesFrom;
    SameFirst(created, rows, other, n);
    assert forall k :: k in rows <==> k in other;
    SplitAt(rows, other, n);
  }

  // Turning a page is safe, whatever order the database picks for equal times, exactly when the last row of the page
  // and the first of the next were created at different times.
  lemma PageTurnExact<K(!new)>(created: map<K, int>, rows: seq<K>, page: int, limit: int)
    requires Listing(created, rows) && page >= 1 && limit >= 1 && 0 < Skip(page + 1, limit) < |rows|
    ensures var n := Skip(page + 1, limit);
      (forall other :: Listing(created, other) ==> Seamless(rows, other, page, limit))
      <==> created[rows[n - 1]] != created[rows[n]]
  {
    var n := Skip(page + 1, limit);
    if created[rows[n - 1]] == created[rows[n]] {
      var other := TiedTurn(created, rows, page, limit);
      assert Listing(created, other) && !Seamless(rows, other, page, limit);
    } else {
      forall other | Listing(created, other) ensures Seamless(rows, other, page, limit) {
        UntiedTurn(created, rows, page, limit, other);
      }
    }
  }

  // ----- the query -----

  /** Puts one more row in its place, before the older ones. */
  function Insert<K>(created: map<K, int>, rows: seq<K>, k: K): (r: seq<K>)
    requires k in created && forall i :: 0 <= i < |rows| ==> rows[i] in created
    ensures |r| == |rows| + 1
    ensures multiset(r) == multiset(rows) + multiset{k}
    ensures forall i :: 0 <= i < |r| ==> r[i] in created
    ensures |r| > 0 && (r[0] == k || (rows != [] && r[0] == rows[0]))
  {
    if rows == [] || created[rows[0]] < created[k] then
      assert [k] + rows == [k] + rows;
      [k] + rows
    else
      assert rows == [rows[0]] + rows[1..];
      [rows[0]] + Insert(created, rows[1..], k)
  }

  predicate Descending<K(!new)>(created: map<K, int>, rows: seq<K>) {
    && (forall i :: 0 <= i < |rows| ==> rows[i] in created)
    && forall i, j :: 0 <= i < j < |rows| ==> created[rows[i]] >= created[rows[j]]
  }

  lemma {:induction false} InsertDescending<K(!new)>(created: map<K, int>, rows: seq<K>, k: K)
    requires k in created && Descending(created, rows)
    ensures Descending(created, Insert(created, rows, k))
  {
    if rows != [] && created[rows[0]] >= created[k] {
      var rest := Insert(created, rows[1..], k);
      InsertDescending(created, rows[1..], k);
      forall j | 0 <= j < |rest| ensures created[rows[0]] >= created[rest[j]] {
        assert created[rest[0]] >= created[rest[j]];
      }
    }
  }

  lemma CountedOnce<K>(rows: seq<K>, keys: set<K>)
    requires multiset(rows) == multiset(keys)
    ensures NoDuplicates(rows) && forall k :: k in rows <==> k in keys
  {
    forall k ensures k in rows <==> k in keys {
      assert k in rows <==> k in multiset(rows);
    }
    forall i, j | 0 <= i < j < |rows| ensures rows[i] != rows[j] {
      assert rows == rows[..j] + rows[j..];
      assert rows[i] in rows[..j] && rows[j] in rows[j..];
      assert multiset(rows)[rows[i]] <= 1;
    }
  }

  // All the rows, each once, none before a later one: a result of the query.
  lemma DescendingIsListing<K(!new)>(created: map<K, int>, rows: seq<K>)
    requires Descending(created, rows) && multiset(rows) == multiset(created.Keys)
    ensures Listing(created, rows)
  {
    CountedOnce(rows, created.Keys);
  }
}

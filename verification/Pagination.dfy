/** Loading every wallet observation page by page behind a keyset cursor, against the plain
    definition: filter, sort by time and id, take. */
module Pagination {
  import opened Common
  import opened Sorting

  datatype Row = Row(id: int, observedAt: int, wallet: string, kind: string)

  datatype Query = Query(wallet: Option<string>, kind: Option<string>)

  type Cursor = Option<(int, int)>

  function LowerChar(c: char): char {
    if 'A' <= c <= 'Z' then ((c as int) + 32) as char else c
  }

  /** `str.lower` on ASCII text. */
  function Lower(s: string): string {
    seq(|s|, i requires 0 <= i < |s| => LowerChar(s[i]))
  }

  predicate Matches(r: Row, q: Query) {
    && (q.wallet.Some? ==> r.wallet == Lower(q.wallet.value))
    && (q.kind.Some? ==> r.kind == q.kind.value)
  }

  predicate Beyond(r: Row, c: Cursor) {
    c.Some? ==> r.observedAt > c.value.0 || (r.observedAt == c.value.0 && r.id > c.value.1)
  }

  predicate Earlier(a: Row, b: Row) {
    a.observedAt < b.observedAt || (a.observedAt == b.observedAt && a.id <= b.id)
  }

  /** The primary key: no two rows share an id. */
  ghost predicate UniqueIds(table: seq<Row>) {
    forall i, j :: 0 <= i < j < |table| ==> table[i].id != table[j].id
  }

  /** One statement: the rows a query matches beyond a cursor, in order, cut at a limit. */
  function Select(table: seq<Row>, q: Query, c: Cursor, limit: nat): seq<Row> {
    var rows := Sort(Filter(table, (r: Row) => Matches(r, q) && Beyond(r, c)), Earlier);
    if limit < |rows| then rows[..limit] else rows
  }

  /** Every matching row in (observed_at, id) order. */
  function Available(table: seq<Row>, q: Query): seq<Row> {
    Sort(Filter(table, (r: Row) => Matches(r, q)), Earlier)
  }

  function CursorAfter(rows: seq<Row>): Cursor {
    if rows == [] then None else Some((rows[|rows| - 1].observedAt, rows[|rows| - 1].id))
  }

  ghost predicate StrictlySorted(rows: seq<Row>) {
    Sorted(rows, Earlier) && UniqueIds(rows)
  }

  lemma EarlierIsTotal()
    ensures Total(Earlier)
  {
  }

  lemma SortedRows(rows: seq<Row>)
    ensures Sorted(Sort(rows, Earlier), Earlier) && |Sort(rows, Earlier)| == |rows|
    ensures forall r :: r in Sort(rows, Earlier) <==> r in rows
  {
    EarlierIsTotal();
    SortSorts(rows, Earlier);
    SortKeeps(rows, Earlier);
  }

  lemma {:induction false} FilterKeepsUnique(table: seq<Row>, p: Row -> bool)
    requires UniqueIds(table)
    ensures UniqueIds(Filter(table, p))
    ensures forall r :: r in Filter(table, p) <==> r in table && p(r)
  {
    if table != [] {
      FilterKeepsUnique(table[1..], p);
      assert table == [table[0]] + table[1..];
      var rest := Filter(table[1..], p);
      forall j | 0 <= j < |rest|
        ensures rest[j].id != table[0].id
      {
        assert rest[j] in table[1..];
        var k :| 0 <= k < |table| - 1 && table[1..][k] == rest[j];
        assert table[k + 1] == rest[j];
      }
    }
  }

  lemma {:induction false} InsertKeepsUnique(x: Row, rows: seq<Row>)
    requires UniqueIds(rows) && forall i :: 0 <= i < |rows| ==> rows[i].id != x.id
    ensures UniqueIds(Insert(x, rows, Earlier))
    ensures forall r :: r in Insert(x, rows, Earlier) <==> r == x || r in rows
  {
    if rows != [] && !Earlier(x, rows[0]) {
      InsertKeepsUnique(x, rows[1..]);
      assert rows == [rows[0]] + rows[1..];
      var rest := Insert(x, rows[1..], Earlier);
      forall j | 0 <= j < |rest|
        ensures rest[j].id != rows[0].id
      {
        assert rest[j] in rest;
        if rest[j] != x {
          var k :| 0 <= k < |rows| - 1 && rows[1..][k] == rest[j];
          assert rows[k + 1] == rest[j];
        }
      }
    }
  }

  lemma {:induction false} SortKeepsUnique(rows: seq<Row>)
    requires UniqueIds(rows)
    ensures UniqueIds(Sort(rows, Earlier))
    ensures forall r :: r in Sort(rows, Earlier) <==> r in rows
  {
    if rows != [] {
      SortKeepsUnique(rows[1..]);
      assert rows == [rows[0]] + rows[1..];
      var rest := Sort(rows[1..], Earlier);
      forall j | 0 <= j < |rest|
        ensures rest[j].id != rows[0].id
      {
        assert rest[j] in rest;
        var k :| 0 <= k < |rows| - 1 && rows[1..][k] == rest[j];
        assert rows[k + 1] == rest[j];
      }
      InsertKeepsUnique(rows[0], rest);
    }
  }

  lemma AvailableIsStrict(table: seq<Row>, q: Query)
    requires UniqueIds(table)
    ensures StrictlySorted(Available(table, q))
  {
    var p := (r: Row) => Matches(r, q);
    FilterKeepsUnique(table, p);
    SortKeepsUnique(Filter(table, p));
    SortedRows(Filter(table, p));
  }

  /** The rows beyond the cursor left by a prefix are exactly the rest. */
  lemma {:induction false} BeyondIsTheRest(rows: seq<Row>, k: nat)
    requires StrictlySorted(rows) && k <= |rows|
    ensures Filter(rows, (r: Row) => Beyond(r, CursorAfter(rows[..k]))) == rows[k..]
  {
    var c := CursorAfter(rows[..k]);
    var p := (r: Row) => Beyond(r, c);
    forall i | 0 <= i < |rows|
      ensures p(rows[i]) <==> i >= k
    {
      assert k > 0 && i < k - 1 ==> Earlier(rows[i], rows[k - 1]);
      assert k > 0 && i >= k ==> Earlier(rows[k - 1], rows[i]);
    }
    FilterSuffix(rows, p, k);
  }

  lemma SortedThenFiltered(rows: seq<Row>, p: Row -> bool)
    ensures Sort(Filter(rows, p), Earlier) == Filter(Sort(rows, Earlier), p)
  {
    EarlierIsTotal();
    SortOfFilter(rows, p, Earlier);
  }

  /** The cursor makes the next statement continue where the rows so far end. */
  lemma PageFollows(table: seq<Row>, q: Query, k: nat, limit: nat)
    requires UniqueIds(table) && k <= |Available(table, q)|
    ensures var all := Available(table, q);
            var n := if limit < |all| - k then k + limit else |all|;
            Select(table, q, CursorAfter(all[..k]), limit) == all[k..n]
  {
    var all := Available(table, q);
    var c := CursorAfter(all[..k]);
    var matching, beyond := (r: Row) => Matches(r, q), (r: Row) => Beyond(r, c);
    var both := (r: Row) => Matches(r, q) && Beyond(r, c);
    AvailableIsStrict(table, q);
    FilterTwice(table, matching, beyond, both);
    SortedThenFiltered(Filter(table, matching), beyond);
    BeyondIsTheRest(all, k);
    assert Sort(Filter(table, both), Earlier) == all[k..];
  }

  datatype Loaded = Loaded(
    rows: seq<Row>, complete: bool, availableCount: nat, pages: nat,
    firstAvailableAt: Option<int>, lastAvailableAt: Option<int>,
    firstEvaluatedAt: Option<int>, lastEvaluatedAt: Option<int>)

  datatype LoadError = PageSizeMustBePositive | MaxRowsMustBePositive

  datatype LoadResult = Ok(value: Loaded) | Err(error: LoadError)

  function First(rows: seq<Row>): Option<int> { if rows == [] then None else Some(rows[0].observedAt) }

  function Last(rows: seq<Row>): Option<int> { if rows == [] then None else Some(rows[|rows| - 1].observedAt) }

  /** The smallest number of pages of the given size that hold `count` rows. */
  ghost predicate IsPageCount(pages: nat, count: nat, size: int) {
    count <= Span(pages, size) && (pages > 0 ==> Span(pages - 1, size) < count)
  }

  /** The rows so many full pages hold. */
  function Span(pages: nat, size: int): int { pages * size }

  /** The statistics query: how many rows match, and the earliest and latest time among them. */
  method Stats(table: seq<Row>, q: Query) returns (count: nat, first: Option<int>, last: Option<int>)
    ensures count == |Available(table, q)|
    ensures first == First(Available(table, q)) && last == Last(Available(table, q))
  {
    var matching := Filter(table, (r: Row) => Matches(r, q));
    count, first, last := 0, None, None;
    while count < |matching|
      invariant count <= |matching|
      invariant IsExtreme(matching[..count], first, last)
    {
      var at := matching[count].observedAt;
      assert matching[..count + 1] == matching[..count] + [matching[count]];
      first := if first.None? || at < first.value then Some(at) else first;
      last := if last.None? || at > last.value then Some(at) else last;
      count := count + 1;
    }
    assert matching[..count] == matching;
    ExtremesAreTheEnds(matching, first, last);
  }

  ghost predicate IsExtreme(rows: seq<Row>, first: Option<int>, last: Option<int>) {
    && (rows == [] <==> first.None?) && (rows == [] <==> last.None?)
    && (rows != [] ==>
          && (forall r :: r in rows ==> first.value <= r.observedAt <= last.value)
          && (exists r :: r in rows && r.observedAt == first.value)
          && (exists r :: r in rows && r.observedAt == last.value))
  }

  lemma EndsAreExtremes(sorted: seq<Row>)
    requires Sorted(sorted, Earlier) && sorted != []
    ensures forall r :: r in sorted ==> sorted[0].observedAt <= r.observedAt <= sorted[|sorted| - 1].observedAt
  {
    forall i | 0 <= i < |sorted|
      ensures sorted[0].observedAt <= sorted[i].observedAt <= sorted[|sorted| - 1].observedAt
    {
      assert 0 < i ==> Earlier(sorted[0], sorted[i]);
      assert i < |sorted| - 1 ==> Earlier(sorted[i], sorted[|sorted| - 1]);
    }
  }

  lemma ExtremesAreTheEnds(rows: seq<Row>, first: Option<int>, last: Option<int>)
    requires IsExtreme(rows, first, last)
    ensures |Sort(rows, Earlier)| == |rows|
    ensures first == First(Sort(rows, Earlier)) && last == Last(Sort(rows, Earlier))
  {
    var sorted := Sort(rows, Earlier);
    SortedRows(rows);
    if rows != [] {
      EndsAreExtremes(sorted);
      assert sorted[0] in rows && sorted[|sorted| - 1] in rows;
    }
  }

  /** Another page: full when more rows remain, the last one otherwise. */
  lemma PageAdded(pages: nat, count: nat, size: int, target: nat, added: nat)
    requires size > 0 && count == Span(pages, size) && count < target && IsPageCount(pages, count, size)
    requires added == if size < target - count then size else target - count
    ensures IsPageCount(pages + 1, count + added, size)
    ensures count + added < target ==> count + added == Span(pages + 1, size)
  {
    assert (pages + 1) * size == pages * size + size;
  }

  /** One page, as large as the page size and the rows still wanted allow. */
  method FetchPage(table: seq<Row>, q: Query, cursor: Cursor, pageSize: int, maxRows: int, rows: seq<Row>)
    returns (page: seq<Row>)
    requires UniqueIds(table) && pageSize > 0 && cursor == CursorAfter(rows)
    requires |rows| <= |Available(table, q)| && rows == Available(table, q)[..|rows|] && |rows| < maxRows
    ensures var all := Available(table, q);
            var target := if |all| < maxRows then |all| else maxRows;
            && |page| == (if pageSize < target - |rows| then pageSize else target - |rows|)
            && rows + page == all[..|rows| + |page|]
  {
    var remaining := maxRows - |rows|;
    var limit := if pageSize < remaining then pageSize else remaining;
    page := Select(table, q, cursor, limit);
    PageFollows(table, q, |rows|, limit);
    ghost var all := Available(table, q);
    assert all[..|rows|] + all[|rows|..|rows| + |page|] == all[..|rows| + |page|];
  }

  /** For every page size and whatever ties there are among timestamps, the pages are together the
      first `maxRows` matching rows in order, and `complete` says exactly whether that was all of them. */
  method LoadWalletObservationsComplete(table: seq<Row>, q: Query, pageSize: int, maxRows: int) returns (r: LoadResult)
    requires UniqueIds(table)
    ensures pageSize <= 0 ==> r == Err(PageSizeMustBePositive)
    ensures pageSize > 0 >= maxRows ==> r == Err(MaxRowsMustBePositive)
    ensures pageSize > 0 && maxRows > 0 ==>
              var all := Available(table, q);
              && r.Ok? && r.value.availableCount == |all|
              && r.value.rows == all[..if |all| < maxRows then |all| else maxRows]
              && (r.value.complete <==> |all| <= maxRows)
              && IsPageCount(r.value.pages, |r.value.rows|, pageSize)
              && r.value.firstAvailableAt == First(all) && r.value.lastAvailableAt == Last(all)
              && r.value.firstEvaluatedAt == First(all)
              && r.value.lastEvaluatedAt == Last(r.value.rows)
  {
    if pageSize <= 0 {
      return Err(PageSizeMustBePositive);
    }
    if maxRows <= 0 {
      return Err(MaxRowsMustBePositive);
    }
    ghost var all := Available(table, q);
    var available, first, last := Stats(table, q);
    var rows, pages, cursor := [], 0, None;
    var target := if available < maxRows then available else maxRows;
    while |rows| < target
      invariant |rows| <= target && rows == all[..|rows|]
      invariant cursor == CursorAfter(rows)
      invariant |rows| < target ==> |rows| == Span(pages, pageSize)
      invariant IsPageCount(pages, |rows|, pageSize)
      decreases target - |rows|
    {
      var page := FetchPage(table, q, cursor, pageSize, maxRows, rows);
      if page == [] {
        break;
      }
      PageAdded(pages, |rows|, pageSize, target, |page|);
      pages := pages + 1;
      rows := rows + page;
      cursor := Some((page[|page| - 1].observedAt, page[|page| - 1].id));
    }
    return Ok(Loaded(rows, |rows| == available, available, pages, first, last, First(rows), Last(rows)));
  }
}

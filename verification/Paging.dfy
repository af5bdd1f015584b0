/** Keyset paging over (created_at, id), while the table changes between pages. */
module Paging {
  import opened Prelude

  /** The immutable sort key of a row; everything else about it is irrelevant here. */
  datatype Row = Row(createdAt: Time, id: Id)

  /** The comparison of the two key columns as one tuple. */
  predicate Less(a: Row, b: Row) {
    a.createdAt < b.createdAt || (a.createdAt == b.createdAt && a.id < b.id)
  }

  /** Earlier rows first, and among rows of one instant smaller ids first: the matching rows of a
      table in the order of its index, and what a client must see. */
  ghost predicate Sorted(rows: seq<Row>) {
    forall i, j | 0 <= i < j < |rows| ::
      rows[i].createdAt < rows[j].createdAt || (rows[i].createdAt == rows[j].createdAt && rows[i].id < rows[j].id)
  }

  /** `cursor` is the key of the last row of the previous page; none on the first. */
  predicate Above(cursor: Option<Row>, row: Row) { cursor.None? || Less(cursor.value, row) }

  datatype Page = Page(items: seq<Row>, nextCursor: Option<Row>, hasMore: bool)

  /** The WHERE clause on the key. */
  function Filter(table: seq<Row>, cursor: Option<Row>): seq<Row> {
    if table == [] then []
    else (if Above(cursor, table[0]) then [table[0]] else []) + Filter(table[1..], cursor)
  }

  function Take(rows: seq<Row>, n: nat): seq<Row> { if |rows| <= n then rows else rows[..n] }

  /** One page: ask for one row more than fits to learn whether there is another page. */
  function ListPage(table: seq<Row>, cursor: Option<Row>, limit: nat): Page {
    var rows := Take(Filter(table, cursor), limit + 1);
    var hasMore := |rows| > limit;
    var items := Take(rows, limit);
    Page(items, if hasMore && items != [] then Some(items[|items| - 1]) else None, hasMore)
  }

  /** A client following next_cursor until has_more is false. Page k is served from `tables[k]`,
      the matching rows as they are at that moment. */
  function Follow(tables: seq<seq<Row>>, cursor: Option<Row>, limit: nat): seq<Page> {
    if tables == [] then []
    else
      var page := ListPage(tables[0], cursor, limit);
      [page] + (if page.hasMore then Follow(tables[1..], page.nextCursor, limit) else [])
  }

  function Items(pages: seq<Page>): seq<Row> {
    if pages == [] then [] else pages[0].items + Items(pages[1..])
  }

  predicate Finished(pages: seq<Page>) { pages != [] && !pages[|pages| - 1].hasMore }

  // ---------------------------------------------------------------- one page

  /** On an index-ordered table the filter is a suffix. */
  lemma {:induction false} FilterIsSuffix(table: seq<Row>, cursor: Option<Row>) returns (k: nat)
    requires Sorted(table)
    ensures k <= |table| && Filter(table, cursor) == table[k..]
    ensures forall i | 0 <= i < k :: !Above(cursor, table[i])
    ensures forall i | k <= i < |table| :: Above(cursor, table[i])
  {
    if table == [] {
      k := 0;
    } else {
      var j := FilterIsSuffix(table[1..], cursor);
      assert table == [table[0]] + table[1..];
      if Above(cursor, table[0]) {
        k := 0;
        RestIsAbove(table, cursor);
      } else {
        k := j + 1;
      }
    }
  }

  /** Every row of a sorted table is above what its first row is above. */
  lemma RestIsAbove(table: seq<Row>, cursor: Option<Row>)
    requires Sorted(table) && table != [] && Above(cursor, table[0])
    ensures forall i | 0 <= i < |table| :: Above(cursor, table[i])
  {
    forall i | 1 <= i < |table| ensures Above(cursor, table[i]) {
      assert Less(table[0], table[i]);
    }
  }

  /** The rows of a page are the next matching rows, and there are more exactly when some are
      left over. */
  lemma PageIsNext(table: seq<Row>, cursor: Option<Row>, limit: nat) returns (k: nat)
    requires Sorted(table) && limit >= 1
    ensures k <= |table| && Filter(table, cursor) == table[k..]
    ensures forall i | 0 <= i < k :: !Above(cursor, table[i])
    ensures forall i | k <= i < |table| :: Above(cursor, table[i])
    ensures var p := ListPage(table, cursor, limit);
            && p.items == table[k..k + Min(limit, |table| - k)]
            && (p.hasMore <==> |table| - k > limit)
            && (p.hasMore ==> p.nextCursor == Some(table[k + limit - 1]))
  {
    k := FilterIsSuffix(table, cursor);
    TakeOneMore(table[k..], limit);
    TakeFrom(table, k, limit);
  }

  lemma TakeOneMore(rows: seq<Row>, n: nat)
    ensures Take(Take(rows, n + 1), n) == Take(rows, n)
    ensures |Take(rows, n + 1)| > n <==> |rows| > n
  {
    if |rows| > n + 1 { assert rows[..n + 1][..n] == rows[..n]; }
  }

  lemma TakeFrom(rows: seq<Row>, k: nat, n: nat)
    requires k <= |rows|
    ensures Take(rows[k..], n) == rows[k..k + Min(n, |rows| - k)]
  {
    if |rows| - k > n { assert rows[k..][..n] == rows[k..k + n]; }
  }

  lemma PageIsSorted(table: seq<Row>, cursor: Option<Row>, limit: nat)
    requires Sorted(table) && limit >= 1
    ensures Sorted(ListPage(table, cursor, limit).items)
    ensures forall r | r in ListPage(table, cursor, limit).items :: Above(cursor, r)
  {
    var k := PageIsNext(table, cursor, limit);
    var n := Min(limit, |table| - k);
    var items := table[k..k + n];
    assert forall i | 0 <= i < |items| :: items[i] == table[k + i];
  }

  /** Every matching row above the cursor is on the page or above the cursor handed out. */
  lemma PageSkipsNothing(table: seq<Row>, cursor: Option<Row>, limit: nat, r: Row)
    requires Sorted(table) && limit >= 1 && r in table && Above(cursor, r)
    ensures var p := ListPage(table, cursor, limit); r in p.items || (p.hasMore && Above(p.nextCursor, r))
  {
    var k := PageIsNext(table, cursor, limit);
    var n := Min(limit, |table| - k);
    var i: nat :| i < |table| && table[i] == r;
    if k <= i < k + n {
      assert table[k..k + n][i - k] == r;
    } else {
      LaterIsAbove(table, i, k + n);
    }
  }

  /** A row past the end of a page is above the last row of the page. */
  lemma LaterIsAbove(table: seq<Row>, i: nat, n: nat)
    requires Sorted(table) && i < |table|
    ensures 0 < n <= i ==> Above(Some(table[n - 1]), table[i])
  {
  }

  // ---------------------------------------------------------------- all pages

  ghost predicate AllSorted(tables: seq<seq<Row>>) {
    forall k | 0 <= k < |tables| :: Sorted(tables[k])
  }

  /** A client's pages: the first one, and then the rest if there is more. */
  lemma FollowUnfolds(tables: seq<seq<Row>>, cursor: Option<Row>, limit: nat)
    requires tables != []
    ensures var page, pages := ListPage(tables[0], cursor, limit), Follow(tables, cursor, limit);
            var rest := Follow(tables[1..], page.nextCursor, limit);
            && pages != []
            && if page.hasMore
               then && |pages| == 1 + |rest| && Items(pages) == page.items + Items(rest)
                    && (Finished(pages) <==> Finished(rest))
               else |pages| == 1 && Items(pages) == page.items && Finished(pages)
  {
    var page, pages := ListPage(tables[0], cursor, limit), Follow(tables, cursor, limit);
    var rest := if page.hasMore then Follow(tables[1..], page.nextCursor, limit) else [];
    assert pages[1..] == rest;
    assert pages[|pages| - 1] == if rest == [] then page else rest[|rest| - 1];
  }

  /** Whatever happens to the table between pages, the client sees strictly increasing keys: no
      row twice, none out of order. */
  lemma {:induction false} NoDuplicates(tables: seq<seq<Row>>, cursor: Option<Row>, limit: nat)
    requires AllSorted(tables) && limit >= 1
    ensures Sorted(Items(Follow(tables, cursor, limit)))
    ensures forall r | r in Items(Follow(tables, cursor, limit)) :: Above(cursor, r)
    decreases |tables|
  {
    if tables != [] {
      var page := ListPage(tables[0], cursor, limit);
      PageIsSorted(tables[0], cursor, limit);
      FollowUnfolds(tables, cursor, limit);
      if page.hasMore {
        CursorIsLast(tables[0], cursor, limit);
        NoDuplicates(tables[1..], page.nextCursor, limit);
        SortedJoin(page.items, Items(Follow(tables[1..], page.nextCursor, limit)));
      }
    }
  }

  lemma CursorIsLast(table: seq<Row>, cursor: Option<Row>, limit: nat)
    requires Sorted(table) && limit >= 1 && ListPage(table, cursor, limit).hasMore
    ensures var p := ListPage(table, cursor, limit);
            p.items != [] && p.nextCursor == Some(p.items[|p.items| - 1]) && Above(cursor, p.nextCursor.value)
  {
    var k := PageIsNext(table, cursor, limit);
  }

  lemma SortedJoin(a: seq<Row>, b: seq<Row>)
    requires Sorted(a) && Sorted(b) && a != []
    requires forall r | r in b :: Less(a[|a| - 1], r)
    ensures Sorted(a + b)
  {
    var s := a + b;
    forall i, j | 0 <= i < j < |s| ensures Less(s[i], s[j]) {
      if i < |a| <= j {
        assert s[j] in b;
        assert i < |a| - 1 ==> Less(a[i], a[|a| - 1]);
      }
    }
  }

  /** From any cursor on, nothing above it is skipped. */
  lemma {:induction false} NothingSkippedAbove(tables: seq<seq<Row>>, cursor: Option<Row>, limit: nat, r: Row)
    requires AllSorted(tables) && limit >= 1
    requires Finished(Follow(tables, cursor, limit)) && Above(cursor, r)
    requires forall k | 0 <= k < |Follow(tables, cursor, limit)| && k < |tables| :: r in tables[k]
    ensures r in Items(Follow(tables, cursor, limit))
    decreases |tables|
  {
    var page := ListPage(tables[0], cursor, limit);
    assert r in tables[0];
    PageSkipsNothing(tables[0], cursor, limit, r);
    FollowUnfolds(tables, cursor, limit);
    if page.hasMore && r !in page.items {
      forall k | 0 <= k < |tables[1..]| && k < |Follow(tables[1..], page.nextCursor, limit)| ensures r in tables[1..][k] {
        assert tables[1..][k] == tables[k + 1];
      }
      NothingSkippedAbove(tables[1..], page.nextCursor, limit, r);
    }
  }

  /** A client that reached the end has seen every row that matched each time a page was served,
      however many rows were inserted, deleted or replayed around it, and however many share its
      created_at. */
  lemma NothingSkipped(tables: seq<seq<Row>>, limit: nat, r: Row)
    requires AllSorted(tables) && limit >= 1 && Finished(Follow(tables, None, limit))
    requires forall k | 0 <= k < |Follow(tables, None, limit)| && k < |tables| :: r in tables[k]
    ensures r in Items(Follow(tables, None, limit))
  {
    NothingSkippedAbove(tables, None, limit, r);
  }

  lemma SortedIsDistinct(rows: seq<Row>, i: nat, j: nat)
    requires Sorted(rows) && i < |rows| && j < |rows| && i != j
    ensures rows[i] != rows[j]
  {
    assert Less(rows[i], rows[j]) || Less(rows[j], rows[i]);
  }

  /** Exactly once: the row is there, and at one position only. */
  lemma PagingIsExact(tables: seq<seq<Row>>, limit: nat, r: Row)
    requires AllSorted(tables) && limit >= 1 && Finished(Follow(tables, None, limit))
    requires forall k | 0 <= k < |Follow(tables, None, limit)| && k < |tables| :: r in tables[k]
    ensures var seen := Items(Follow(tables, None, limit));
            exists i | 0 <= i < |seen| :: seen[i] == r && forall j | 0 <= j < |seen| && seen[j] == r :: j == i
  {
    var seen := Items(Follow(tables, None, limit));
    NoDuplicates(tables, None, limit);
    NothingSkipped(tables, limit, r);
    var i :| 0 <= i < |seen| && seen[i] == r;
    forall j | 0 <= j < |seen| && j != i ensures seen[j] != r {
      SortedIsDistinct(seen, i, j);
    }
  }

  // ---------------------------------------------------------------- a table that stands still

  /** A page, and the pages of what it leaves over. */
  function PagesFor(n: nat, limit: nat): (pages: nat)
    requires limit >= 1
    ensures pages >= 1
  {
    if n <= limit then 1 else 1 + PagesFor(n - limit, limit)
  }

  /** The same matching rows for each of `n` pages. */
  function Standing(table: seq<Row>, n: nat): seq<seq<Row>> {
    if n == 0 then [] else [table] + Standing(table, n - 1)
  }

  /** What is above a row of the table is what comes after it. */
  lemma FilterAfterRow(table: seq<Row>, i: nat)
    requires Sorted(table) && i < |table|
    ensures Filter(table, Some(table[i])) == table[i + 1..]
  {
    var k := FilterIsSuffix(table, Some(table[i]));
    assert !Above(Some(table[i]), table[i]);
    if i + 1 < |table| { LaterIsAbove(table, i + 1, i + 1); }
  }

  lemma DivPlus(m: nat, c: nat)
    requires c > 0
    ensures (m + c) / c == m / c + 1
  {
    var k, e := (m + c) / c - m / c, (m + c) % c - m % c;
    assert m == c * (m / c) + m % c;
    assert m + c == c * ((m + c) / c) + (m + c) % c;
    assert c * k + e == c;
    assert k >= 2 ==> c * k >= c * 2;
    assert k <= 0 ==> c * k <= 0;
  }

  /** max(1, ceil(n / limit)). */
  function PageCount(n: nat, limit: nat): nat
    requires limit >= 1
  {
    if n == 0 then 1 else (n + limit - 1) / limit
  }

  lemma {:induction false} PagesForIsCeiling(n: nat, limit: nat)
    requires limit >= 1
    ensures PagesFor(n, limit) == PageCount(n, limit)
  {
    if n > limit {
      PagesForIsCeiling(n - limit, limit);
      DivPlus(n - 1, limit);
    } else if n > 0 {
      DivPlus(n - 1, limit);
      assert (n - 1) / limit == 0;
    }
  }

  lemma StaticRest(table: seq<Row>, cursor: Option<Row>, limit: nat)
    requires Sorted(table) && limit >= 1 && ListPage(table, cursor, limit).hasMore
    ensures LeavesOver(table, cursor, limit)
  {
    var k := PageIsNext(table, cursor, limit);
    FilterAfterRow(table, k + limit - 1);
    LeftOver(table, cursor, limit, k);
  }

  lemma LeftOver(table: seq<Row>, cursor: Option<Row>, limit: nat, k: nat)
    requires k + limit < |table| && limit >= 1 && Filter(table, cursor) == table[k..]
    requires var page := ListPage(table, cursor, limit);
             page.hasMore && page.items == table[k..k + limit] && page.nextCursor == Some(table[k + limit - 1])
    requires Filter(table, Some(table[k + limit - 1])) == table[k + limit..]
    ensures LeavesOver(table, cursor, limit)
  {
    assert table[k..k + limit] + table[k + limit..] == table[k..];
  }

  lemma StaticLast(table: seq<Row>, cursor: Option<Row>, limit: nat)
    requires Sorted(table) && limit >= 1 && !ListPage(table, cursor, limit).hasMore
    ensures |Filter(table, cursor)| <= limit && ListPage(table, cursor, limit).items == Filter(table, cursor)
  {
    var k := PageIsNext(table, cursor, limit);
  }

  lemma StandingUnfolds(table: seq<Row>, n: nat, cursor: Option<Row>, limit: nat)
    requires n > 0
    ensures var page, pages := ListPage(table, cursor, limit), Follow(Standing(table, n), cursor, limit);
            var rest := Follow(Standing(table, n - 1), page.nextCursor, limit);
            && pages != []
            && if page.hasMore
               then && |pages| == 1 + |rest| && Items(pages) == page.items + Items(rest)
                    && (Finished(pages) <==> Finished(rest))
               else |pages| == 1 && Items(pages) == page.items && Finished(pages)
  {
    assert Standing(table, n)[1..] == Standing(table, n - 1);
    FollowUnfolds(Standing(table, n), cursor, limit);
  }

  /** The pages are those of `all` rows, and the client got to the end of them. */
  ghost predicate Exhausts(pages: seq<Page>, all: seq<Row>, limit: nat)
    requires limit >= 1
  {
    Finished(pages) && |pages| == PagesFor(|all|, limit) && Items(pages) == all
  }

  /** What the rest of the pages show is what this one left over. */
  ghost predicate LeavesOver(table: seq<Row>, cursor: Option<Row>, limit: nat) {
    var page, all := ListPage(table, cursor, limit), Filter(table, cursor);
    page.hasMore && |page.items| == limit && Filter(table, page.nextCursor) != [] && page.items + Filter(table, page.nextCursor) == all
  }

  lemma StandingMoreCount(table: seq<Row>, n: nat, cursor: Option<Row>, limit: nat)
    requires n > 0 && limit >= 1 && ListPage(table, cursor, limit).hasMore
    requires var next := ListPage(table, cursor, limit).nextCursor;
             && |Filter(table, cursor)| == limit + |Filter(table, next)| > limit
             && |Follow(Standing(table, n - 1), next, limit)| == PagesFor(|Filter(table, next)|, limit)
    ensures |Follow(Standing(table, n), cursor, limit)| == PagesFor(|Filter(table, cursor)|, limit)
  {
    StandingLength(table, n, cursor, limit);
  }

  lemma StandingLength(table: seq<Row>, n: nat, cursor: Option<Row>, limit: nat)
    requires n > 0 && ListPage(table, cursor, limit).hasMore
    ensures |Follow(Standing(table, n), cursor, limit)|
         == 1 + |Follow(Standing(table, n - 1), ListPage(table, cursor, limit).nextCursor, limit)|
  {
    StandingUnfolds(table, n, cursor, limit);
  }

  lemma StandingMore(table: seq<Row>, n: nat, cursor: Option<Row>, next: Option<Row>, limit: nat)
    requires Sorted(table) && n > 0 && limit >= 1 && HasMore(table, cursor, limit) && IsNext(table, cursor, next, limit)
    requires Exhausted(table, n - 1, next, limit)
    ensures Exhausted(table, n, cursor, limit)
  {
    StaticRest(table, cursor, limit);
    StandingMoreCount(table, n, cursor, limit);
    StandingUnfolds(table, n, cursor, limit);
  }

  /** The table stands still for at least as many pages as the client needs. */
  predicate Enough(table: seq<Row>, n: nat, cursor: Option<Row>, limit: nat)
    requires limit >= 1
  {
    n >= PagesFor(|Filter(table, cursor)|, limit)
  }

  ghost predicate Exhausted(table: seq<Row>, n: nat, cursor: Option<Row>, limit: nat)
    requires limit >= 1
  {
    Exhausts(Follow(Standing(table, n), cursor, limit), Filter(table, cursor), limit)
  }

  predicate HasMore(table: seq<Row>, cursor: Option<Row>, limit: nat) { ListPage(table, cursor, limit).hasMore }

  predicate IsNext(table: seq<Row>, cursor: Option<Row>, next: Option<Row>, limit: nat) {
    ListPage(table, cursor, limit).nextCursor == next
  }

  lemma RestIsShorter(table: seq<Row>, n: nat, cursor: Option<Row>, limit: nat) returns (next: Option<Row>)
    requires Sorted(table) && limit >= 1 && HasMore(table, cursor, limit) && Enough(table, n, cursor, limit)
    ensures IsNext(table, cursor, next, limit)
    ensures n > 0 && Enough(table, n - 1, next, limit)
  {
    StaticRest(table, cursor, limit);
    next := ListPage(table, cursor, limit).nextCursor;
    assert |Filter(table, cursor)| == limit + |Filter(table, next)|;
  }

  lemma StandingEnd(table: seq<Row>, n: nat, cursor: Option<Row>, limit: nat)
    requires Sorted(table) && limit >= 1 && Enough(table, n, cursor, limit) && !HasMore(table, cursor, limit)
    ensures Exhausted(table, n, cursor, limit)
  {
    StandingUnfolds(table, n, cursor, limit);
    StaticLast(table, cursor, limit);
  }

  /** On a table that does not change, following the cursor ends, after a number of pages that
      depends on the number of rows alone, with exactly its rows. */
  lemma {:induction false} StandingPages(table: seq<Row>, n: nat, cursor: Option<Row>, limit: nat)
    requires Sorted(table) && limit >= 1 && Enough(table, n, cursor, limit)
    ensures Exhausted(table, n, cursor, limit)
    decreases n
  {
    if HasMore(table, cursor, limit) {
      var next := RestIsShorter(table, n, cursor, limit);
      StandingPages(table, n - 1, next, limit);
      StandingMore(table, n, cursor, next, limit);
    } else {
      StandingEnd(table, n, cursor, limit);
    }
  }

  lemma {:induction false} FirstPageFilter(table: seq<Row>)
    ensures Filter(table, None) == table
  {
    if table != [] { FirstPageFilter(table[1..]); }
  }

  /** From the first page to the end, with the count written out: every row of the table, in
      order, in max(1, ceil(n / limit)) pages. */
  lemma StaticPaging(table: seq<Row>, n: nat, limit: nat)
    requires Sorted(table) && limit >= 1 && n >= PageCount(|table|, limit)
    ensures var pages := Follow(Standing(table, n), None, limit);
            Finished(pages) && Items(pages) == table && |pages| == PageCount(|table|, limit)
  {
    PagesForIsCeiling(|table|, limit);
    FirstPageFilter(table);
    StandingPages(table, n, None, limit);
  }
}

/** Cursor pagination of the accounts (users.repository.ts), which fetches one row more than a page. */
module Paging {
  import opened Common

  datatype Account = Account(id: Id, createdAt: int, username: string)

  datatype Page = Page(data: seq<Account>, nextCursor: Option<Id>, hasNextPage: bool)

  /** The table in the order of the query; creation times and ids are distinct. */
  ghost predicate TableOk(table: seq<Account>) {
    && (forall i, j | 0 <= i < j < |table| :: table[i].createdAt < table[j].createdAt)
    && (forall i, j | 0 <= i < j < |table| :: table[i].id != table[j].id)
  }

  function Filter(table: seq<Account>, keeps: Account -> bool): seq<Account> {
    if table == [] then []
    else (if keeps(table[0]) then [table[0]] else []) + Filter(table[1..], keeps)
  }

  /** The rows from the cursor on; none if there is no such row. */
  function From(table: seq<Account>, cursor: Id): seq<Account> {
    if table == [] || table[0].id == cursor then table else From(table[1..], cursor)
  }

  function Take(rows: seq<Account>, n: nat): seq<Account> {
    rows[..Min(n, |rows|)]
  }

  /** The query: `cursor`, `skip`, `take`. */
  function FindMany(table: seq<Account>, cursor: Option<Id>, keeps: Account -> bool, take: nat): seq<Account> {
    Take(Remaining(table, cursor, keeps), take)
  }

  /** The matching rows that follow the cursor. */
  function Remaining(table: seq<Account>, cursor: Option<Id>, keeps: Account -> bool): seq<Account> {
    match cursor
    case None => Filter(table, keeps)
    case Some(c) =>
      var rows := Filter(From(table, c), keeps);
      if rows == [] then [] else rows[1..]
  }

  class UsersRepository {
    var table: seq<Account>

    constructor (table: seq<Account>)
      ensures this.table == table
    {
      this.table := table;
    }

    method FindAll(cursor: Option<Id>, limit: nat, keeps: Account -> bool) returns (page: Page)
      requires limit >= 1
      ensures page == PageAt(table, cursor, limit, keeps)
    {
      var accounts := FindMany(table, cursor, keeps, limit + 1);
      var hasNextPage := |accounts| > limit;
      if hasNextPage {
        accounts := accounts[..|accounts| - 1];
      }
      page := Page(accounts, if hasNextPage then Some(accounts[|accounts| - 1].id) else None, hasNextPage);
    }
  }

  /** The next rows, up to the limit; a cursor just when there are more. */
  function PageOf(rest: seq<Account>, limit: nat): Page
    requires limit >= 1
  {
    if |rest| > limit then Page(rest[..limit], Some(rest[limit - 1].id), true) else Page(rest, None, false)
  }

  function PageAt(table: seq<Account>, cursor: Option<Id>, limit: nat, keeps: Account -> bool): Page
    requires limit >= 1
  {
    PageOf(Remaining(table, cursor, keeps), limit)
  }

  // ---- The filtered list ----

  /** The list has exactly the rows of the table that are kept. */
  lemma {:induction false} Filtered(table: seq<Account>, keeps: Account -> bool, row: Account)
    ensures row in Filter(table, keeps) <==> row in table && keeps(row)
  {
    if table != [] {
      Filtered(table[1..], keeps, row);
      assert row in table <==> row == table[0] || row in table[1..];
    }
  }

  /** And it has them in the order of the table, each once. */
  lemma {:induction false} FilteredInOrder(table: seq<Account>, keeps: Account -> bool)
    requires TableOk(table)
    ensures forall i, j | 0 <= i < j < |Filter(table, keeps)| ::
              Filter(table, keeps)[i].createdAt < Filter(table, keeps)[j].createdAt
  {
    if table != [] {
      FilteredInOrder(table[1..], keeps);
      forall row | row in Filter(table[1..], keeps) ensures table[0].createdAt < row.createdAt {
        Filtered(table[1..], keeps, row);
        var k :| 0 <= k < |table[1..]| && table[1..][k] == row;
        assert table[k + 1] == row;
      }
    }
  }

  // ---- Following the cursor ----

  lemma {:induction false} FilterIds(table: seq<Account>, keeps: Account -> bool, k: nat)
    requires k < |Filter(table, keeps)|
    ensures exists i :: 0 <= i < |table| && table[i] == Filter(table, keeps)[k] && keeps(table[i])
  {
    if keeps(table[0]) {
      if k > 0 {
        FilterIds(table[1..], keeps, k - 1);
        var i :| 0 <= i < |table[1..]| && table[1..][i] == Filter(table[1..], keeps)[k - 1] && keeps(table[1..][i]);
        assert table[i + 1] == Filter(table, keeps)[k];
      }
    } else {
      FilterIds(table[1..], keeps, k);
      var i :| 0 <= i < |table[1..]| && table[1..][i] == Filter(table[1..], keeps)[k] && keeps(table[1..][i]);
      assert table[i + 1] == Filter(table, keeps)[k];
    }
  }

  /** The rows from a matching row on, filtered, are the filtered rows from it on. */
  lemma {:induction false} FilterFrom(table: seq<Account>, keeps: Account -> bool, k: nat)
    requires TableOk(table) && k < |Filter(table, keeps)|
    ensures Filter(From(table, Filter(table, keeps)[k].id), keeps) == Filter(table, keeps)[k..]
  {
    var rows := Filter(table, keeps);
    var c := rows[k].id;
    if keeps(table[0]) && k == 0 {
      assert From(table, c) == table;
    } else {
      var j := if keeps(table[0]) then k - 1 else k;
      assert rows[k] == Filter(table[1..], keeps)[j];
      FilterIds(table[1..], keeps, j);
      var i :| 0 <= i < |table[1..]| && table[1..][i] == rows[k];
      assert table[i + 1].id == c && table[0].id != c;
      FilterFrom(table[1..], keeps, j);
      assert From(table, c) == From(table[1..], c);
    }
  }

  lemma CursorContinues(table: seq<Account>, keeps: Account -> bool, k: nat)
    requires TableOk(table) && k < |Filter(table, keeps)|
    ensures Remaining(table, Some(Filter(table, keeps)[k].id), keeps) == Filter(table, keeps)[k + 1..]
  {
    FilterFrom(table, keeps, k);
  }

  /** Calls `FindAll` with the cursor each page returns, at most `calls` times. */
  function Follow(table: seq<Account>, cursor: Option<Id>, limit: nat, keeps: Account -> bool, calls: nat): seq<Page>
    requires limit >= 1
    decreases calls
  {
    if calls == 0 then []
    else
      var page := PageAt(table, cursor, limit, keeps);
      [page] + if page.nextCursor.Some? then Follow(table, page.nextCursor, limit, keeps, calls - 1) else []
  }

  function Concat(pages: seq<Page>): seq<Account> {
    if pages == [] then [] else pages[0].data + Concat(pages[1..])
  }

  /** Pages that end, all but the last of them full, and together make up `rows`. */
  ghost predicate Covers(pages: seq<Page>, rows: seq<Account>, limit: nat) {
    && pages != [] && pages[|pages| - 1].nextCursor == None && !pages[|pages| - 1].hasNextPage
    && Concat(pages) == rows
    && (forall i | 0 <= i < |pages| - 1 :: |pages[i].data| == limit && pages[i].hasNextPage)
  }

  /** The rows cut into pages. */
  function PagesOf(rows: seq<Account>, limit: nat): seq<Page>
    requires limit >= 1
    decreases |rows|
  {
    [PageOf(rows, limit)] + if |rows| > limit then PagesOf(rows[limit..], limit) else []
  }

  lemma {:induction false} PagesOfCover(rows: seq<Account>, limit: nat)
    requires limit >= 1
    ensures Covers(PagesOf(rows, limit), rows, limit)
    decreases |rows|
  {
    if |rows| > limit {
      PagesOfCover(rows[limit..], limit);
      CoversMore(rows, PagesOf(rows[limit..], limit), limit);
    } else {
      LastCovers(rows, limit);
    }
  }

  lemma LastCovers(rows: seq<Account>, limit: nat)
    requires limit >= 1 && |rows| <= limit
    ensures Covers([PageOf(rows, limit)], rows, limit)
  {
    var page := PageOf(rows, limit);
    assert Concat([page]) == page.data + Concat([]);
  }

  lemma CoversMore(rows: seq<Account>, pages: seq<Page>, limit: nat)
    requires limit >= 1 && |rows| > limit && Covers(pages, rows[limit..], limit)
    ensures Covers([PageOf(rows, limit)] + pages, rows, limit)
  {
    var all := [PageOf(rows, limit)] + pages;
    assert all[1..] == pages;
    assert rows[..limit] + rows[limit..] == rows;
    assert all[|all| - 1] == pages[|pages| - 1];
    forall i | 0 <= i < |all| - 1 ensures |all[i].data| == limit && all[i].hasNextPage {
      assert i > 0 ==> all[i] == pages[i - 1];
    }
  }

  /** Every row of the list, taken as the cursor, leads to the rows after it. */
  ghost predicate Linked(table: seq<Account>, keeps: Account -> bool, rows: seq<Account>) {
    forall k | 0 <= k < |rows| :: Remaining(table, Some(rows[k].id), keeps) == rows[k + 1..]
  }

  /** The cursor of a page leads to the row after it. */
  lemma NextRemaining(table: seq<Account>, limit: nat, keeps: Account -> bool, rows: seq<Account>, k: nat)
    requires limit >= 1 && k <= |rows| && Linked(table, keeps, rows) && PageOf(rows[k..], limit).nextCursor.Some?
    ensures k + limit < |rows| && rows[k..][limit..] == rows[k + limit..]
    ensures Remaining(table, PageOf(rows[k..], limit).nextCursor, keeps) == rows[k + limit..]
  {
    assert rows[k..][limit - 1] == rows[k + limit - 1];
  }

  lemma {:induction false} FollowFrom(table: seq<Account>, limit: nat, keeps: Account -> bool, rows: seq<Account>,
                                      k: nat,
                                      cursor: Option<Id>, calls: nat)
    requires limit >= 1 && k <= |rows| < k + calls
    requires Linked(table, keeps, rows) && Remaining(table, cursor, keeps) == rows[k..]
    ensures Follow(table, cursor, limit, keeps, calls) == PagesOf(rows[k..], limit)
    decreases calls
  {
    var next := PageOf(rows[k..], limit).nextCursor;
    if next.Some? {
      NextRemaining(table, limit, keeps, rows, k);
      FollowFrom(table, limit, keeps, rows, k + limit, next, calls - 1);
    }
  }

  /**
   Following `nextCursor` from the start ends, and the pages, all but the last of them full, put together
   are the whole filtered list: nothing is skipped and nothing repeated.
   */
  lemma PagesCoverTheList(table: seq<Account>, limit: nat, keeps: Account -> bool)
    requires TableOk(table) && limit >= 1
    ensures Covers(Follow(table, None, limit, keeps, |table| + 1), Filter(table, keeps), limit)
  {
    var rows := Filter(table, keeps);
    FilterShorter(table, keeps);
    forall k | 0 <= k < |rows| ensures Remaining(table, Some(rows[k].id), keeps) == rows[k + 1..] {
      CursorContinues(table, keeps, k);
    }
    assert rows[0..] == rows;
    FollowFrom(table, limit, keeps, rows, 0, None, |table| + 1);
    PagesOfCover(rows, limit);
  }

  lemma {:induction false} FilterShorter(table: seq<Account>, keeps: Account -> bool)
    ensures |Filter(table, keeps)| <= |table|
  {
    if table != [] {
      FilterShorter(table[1..], keeps);
    }
  }
}

/** A client that follows `nextCursor` from page to page. */
module WatchlistPaging {
  import opened Options
  import opened Watchlist
  import opened WatchlistRuns

  predicate StrictlyDescending(rows: seq<Row>) {
    forall i, j :: 0 <= i < j < |rows| ==> rows[i].order > rows[j].order
  }

  predicate NonNegative(rows: seq<Row>) {
    forall i :: 0 <= i < |rows| ==> rows[i].order >= 0
  }

  /** The rows on up to `n` pages from a cursor on, and whether the last of them had no cursor. */
  function FollowPages(rows: seq<Row>, cursor: Option<int>, limit: nat, n: nat): (seq<Row>, bool)
    requires limit >= 1
    decreases n
  {
    if n == 0 then ([], false)
    else
      var page := PageOf(rows, cursor, limit);
      if page.nextCursor.None? then (page.items, true)
      else
        var rest := FollowPages(rows, page.nextCursor, limit, n - 1);
        (page.items + rest.0, rest.1)
  }

  /** After finitely many pages the client has seen every row once, in order, and knows that it is done. */
  ghost predicate PagesExactly(rows: seq<Row>, limit: nat)
    requires limit >= 1
  {
    exists n: nat :: FollowPages(rows, None, limit, n) == (rows, true)
  }

  /** `hasNextPage` of the response: whether the cursor is truthy. */
  predicate SaysMore(cursor: Option<int>) {
    cursor.Some? && cursor.value != 0
  }

  lemma {:induction false} BelowIsSuffix(rows: seq<Row>, j: nat)
    requires StrictlyDescending(rows) && 0 < j <= |rows|
    ensures Below(rows, rows[j - 1].order) == rows[j..]
    decreases |rows|
  {
    var n, c := |rows| - 1, rows[j - 1].order;
    var init := rows[..n];
    if j == |rows| {
      BelowNothing(init, c);
    } else {
      BelowIsSuffix(init, j);
      assert rows[j..] == init[j..] + [rows[n]];
    }
  }

  lemma {:induction false} BelowNothing(rows: seq<Row>, c: int)
    requires forall i :: 0 <= i < |rows| ==> rows[i].order >= c
    ensures Below(rows, c) == []
    decreases |rows|
  {
    if rows != [] {
      BelowNothing(rows[..|rows| - 1], c);
    }
  }

  /** The cursor of a page that ends with row `j - 1`. */
  function CursorAt(rows: seq<Row>, j: nat): Option<int>
    requires j <= |rows|
  {
    if j == 0 then None else Some(rows[j - 1].order)
  }

  lemma VisibleAt(rows: seq<Row>, j: nat)
    requires StrictlyDescending(rows) && NonNegative(rows) && j <= |rows| && (0 < j ==> j < |rows|)
    ensures Visible(rows, CursorAt(rows, j)) == rows[j..]
  {
    if j > 0 {
      assert rows[j - 1].order > rows[j].order >= 0;
      BelowIsSuffix(rows, j);
    }
  }

  /** The page after row `j - 1`. Its cursor is truthy and less than the one before, so `hasNextPage` is right. */
  lemma PageAt(rows: seq<Row>, j: nat, limit: nat)
    requires StrictlyDescending(rows) && NonNegative(rows) && limit >= 1 && j <= |rows| && (0 < j ==> j < |rows|)
    ensures var page := PageOf(rows, CursorAt(rows, j), limit);
      && page == (if |rows| - j > limit then Page(rows[j..j + limit], CursorAt(rows, j + limit))
                  else Page(rows[j..], None))
      && (SaysMore(page.nextCursor) <==> |rows| - j > limit)
      && (page.nextCursor.Some? ==> page.nextCursor.value >= 1 && (j > 0 ==> page.nextCursor.value < rows[j - 1].order))
  {
    VisibleAt(rows, j);
    if |rows| - j > limit {
      var m := j + limit;
      assert rows[j..][limit - 1] == rows[m - 1] && rows[m - 1].order > rows[m].order;
      assert rows[j..][..limit] == rows[j..m];
    }
  }

  lemma FollowToEnd(rows: seq<Row>, j: nat, limit: nat, n: nat)
    requires StrictlyDescending(rows) && NonNegative(rows) && limit >= 1
    requires j <= |rows| && n > 0 && (0 < j ==> j < |rows|) && |rows| - j <= limit
    ensures FollowPages(rows, CursorAt(rows, j), limit, n) == (rows[j..], true)
  {
    PageAt(rows, j, limit);

  }

  lemma FollowOn(rows: seq<Row>, j: nat, m: nat, limit: nat, n: nat, rest: seq<Row>)
    requires StrictlyDescending(rows) && NonNegative(rows) && limit >= 1 && n > 0
    requires m == j + limit < |rows| && FollowPages(rows, CursorAt(rows, m), limit, n - 1) == (rest, true)
    ensures FollowPages(rows, CursorAt(rows, j), limit, n) == (rows[j..m] + rest, true)
  {
    PageAt(rows, j, limit);
  }

  lemma Rejoin(rows: seq<Row>, j: nat, m: nat)
    requires j <= m <= |rows|
    ensures rows[j..m] + rows[m..] == rows[j..]
  {
  }

  /** From there on the pages are the rest of the listing. */
  lemma {:induction false} FollowFrom(rows: seq<Row>, j: nat, limit: nat, n: nat)
    requires StrictlyDescending(rows) && NonNegative(rows) && limit >= 1
    requires j <= |rows| && n > |rows| - j && (0 < j ==> j < |rows|)
    ensures FollowPages(rows, CursorAt(rows, j), limit, n) == (rows[j..], true)
    decreases |rows| - j
  {
    if |rows| - j > limit {
      var m := j + limit;
      FollowFrom(rows, m, limit, n - 1);
      FollowOn(rows, j, m, limit, n, rows[m..]);
      Rejoin(rows, j, m);
    } else {
      FollowToEnd(rows, j, limit, n);
    }
  }

  lemma {:induction false} StuckAtZero(rows: seq<Row>, cursor: Option<int>, limit: nat, n: nat)
    requires limit >= 1 && !SaysMore(cursor) && PageOf(rows, None, limit).nextCursor == Some(0)
    ensures !FollowPages(rows, cursor, limit, n).1
    decreases n
  {
    if n > 0 {
      assert PageOf(rows, cursor, limit) == PageOf(rows, None, limit);
      StuckAtZero(rows, Some(0), limit, n - 1);
    }
  }

  lemma {:induction false} BelowIsBelow(rows: seq<Row>, c: int, i: nat)
    requires i < |Below(rows, c)|
    ensures Below(rows, c)[i].order < c
    decreases |rows|
  {
    if i < |Below(rows[..|rows| - 1], c)| {
      BelowIsBelow(rows[..|rows| - 1], c, i);
    }
  }

  /** Whatever follows a truthy cursor starts below it. */
  lemma FollowStartsBelow(rows: seq<Row>, o: int, limit: nat, n: nat)
    requires limit >= 1 && o != 0
    ensures var rest := FollowPages(rows, Some(o), limit, n).0; rest == [] || rest[0].order < o
  {
    if Below(rows, o) != [] {
      BelowIsBelow(rows, o, 0);
    }
  }

  /** Two rows of one order across a page break: the second is skipped, or the first page comes back forever. */
  lemma TiesBreakPaging(rows: seq<Row>, i: nat)
    requires Descending(rows) && i + 1 < |rows| && rows[i].order == rows[i + 1].order
    ensures !PagesExactly(rows, i + 1)
  {
    var limit, o := i + 1, rows[i].order;
    assert PageOf(rows, None, limit) == Page(rows[..limit], Some(o));
    forall n: nat ensures FollowPages(rows, None, limit, n) != (rows, true) {
      if o == 0 {
        StuckAtZero(rows, None, limit, n);
      } else if n > 0 {
        FollowStartsBelow(rows, o, limit, n - 1);
        var rest := FollowPages(rows, Some(o), limit, n - 1).0;
        var all := rows[..limit] + rest;
        assert rest != [] ==> all[limit] == rest[0] && all[limit] != rows[limit];
        assert rest == [] ==> |all| != |rows|;
      }
    }
  }

  /**
   Paging is exact at every page size if and only if no two rows have the same order. Orders are
   non-negative.
  */
  lemma PagingExactlyWhenDistinct(rows: seq<Row>)
    requires Descending(rows) && NonNegative(rows)
    ensures (forall limit: nat :: limit >= 1 ==> PagesExactly(rows, limit)) <==> StrictlyDescending(rows)
  {
    if StrictlyDescending(rows) {
      forall limit: nat | limit >= 1 ensures PagesExactly(rows, limit) {
        FollowFrom(rows, 0, limit, |rows| + 1);
        assert rows[0..] == rows;
      }
    } else {
      var i, j :| 0 <= i < j < |rows| && rows[i].order <= rows[j].order;
      assert rows[i].order >= rows[i + 1].order >= rows[j].order;
      TiesBreakPaging(rows, i);
    }
  }

  lemma ListingOfOkList(t: Table, user: int, rows: seq<Row>)
    requires TableOk(t) && ListOk(t, user) && IsListing(t, user, rows)
    ensures StrictlyDescending(rows) && NonNegative(rows)
  {
    forall i, j | 0 <= i < j < |rows| ensures rows[i].order > rows[j].order {
      assert rows[i].idx != rows[j].idx;
    }
  }

  /** A user's listing is unique, so it does not matter how the database breaks ties. */
  lemma {:induction false} ListingUnique(a: seq<Row>, b: seq<Row>)
    requires StrictlyDescending(a) && StrictlyDescending(b) && forall r :: r in a <==> r in b
    ensures a == b
    decreases |a|
  {
    if a == [] {
      assert forall i :: 0 <= i < |b| ==> b[i] in b;
    } else {
      assert a[0] in b && b != [] && b[0] in a;
      assert a[0] == b[0];
      forall r ensures r in a[1..] <==> r in b[1..] {
        assert r in a <==> r == a[0] || r in a[1..];
        assert r in b <==> r == b[0] || r in b[1..];
        if r in a[1..] { assert r != a[0]; }
        if r in b[1..] { assert r != b[0]; }
      }
      ListingUnique(a[1..], b[1..]);
    }
  }

  /** After every run of creations, deletions and considerate reorders, every user can page through the list. */
  lemma EveryListCanBePaged(rs: seq<Request>, user: int, rows: seq<Row>, limit: nat)
    requires PossibleRun(EMPTY_TABLE, rs) && Considerate(EMPTY_TABLE, rs) && limit >= 1
    requires IsListing(ServeAll(EMPTY_TABLE, rs), user, rows)
    ensures PagesExactly(rows, limit)
    ensures forall other :: IsListing(ServeAll(EMPTY_TABLE, rs), user, other) ==> other == rows
  {
    ListsStayOk(rs, user);
    var t := ServeAll(EMPTY_TABLE, rs);
    ListingOfOkList(t, user, rows);
    PagingExactlyWhenDistinct(rows);
    forall other | IsListing(t, user, other) ensures other == rows {
      ListingOfOkList(t, user, other);
      forall r ensures r in rows <==> r in other {
      }
      ListingUnique(other, rows);
    }
  }
}

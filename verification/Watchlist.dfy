/**
 The watchlist table with the queries of `WatchListRepository` and the operations of
 `WatchlistService`. A query that takes the first match without an order may take any match.
*/
module Watchlist {
  import opened Options

  const MAX_PAIR_COUNT := 10

  datatype Row = Row(idx: nat, userIdx: int, base: string, code: string, order: int)

  datatype Table = Table(rows: map<nat, Row>, nextIdx: nat)

  datatype Failure = AlreadyRegistered | TooManyPairs | PairNotFound | RolledBack

  predicate TableOk(t: Table) {
    forall i :: i in t.rows ==> t.rows[i].idx == i && i < t.nextIdx
  }

  function RowsOf(t: Table, user: int): set<nat> {
    set i | i in t.rows && t.rows[i].userIdx == user
  }

  predicate HasPair(t: Table, user: int, base: string, code: string) {
    exists i :: i in t.rows && t.rows[i].userIdx == user && t.rows[i].base == base && t.rows[i].code == code
  }

  /** The greatest display order among some rows. */
  ghost function LastOrder(t: Table, ids: set<nat>): (o: int)
    requires ids != {} && forall i :: i in ids ==> i in t.rows
    ensures exists i :: i in ids && t.rows[i].order == o
    ensures forall i :: i in ids ==> t.rows[i].order <= o
  {
    var i :| i in ids;
    if ids == {i} then t.rows[i].order
    else
      var rest := LastOrder(t, ids - {i});
      assert forall j :: j in ids ==> j == i || j in ids - {i};
      Max(t.rows[i].order, rest)
  }

  ghost function NextOrder(t: Table, user: int): int {
    if RowsOf(t, user) == {} then 0 else LastOrder(t, RowsOf(t, user)) + 1
  }

  ghost function Create(t: Table, user: int, base: string, code: string): Result<Table, Failure> {
    if HasPair(t, user, base, code) then Err(AlreadyRegistered)
    else if |RowsOf(t, user)| >= MAX_PAIR_COUNT then Err(TooManyPairs)
    else Ok(Table(t.rows[t.nextIdx := Row(t.nextIdx, user, base, code, NextOrder(t, user))], t.nextIdx + 1))
  }

  function Delete(t: Table, pair: nat, user: int): Result<Table, Failure> {
    if pair in RowsOf(t, user) then Ok(t.(rows := t.rows - {pair})) else Err(PairNotFound)
  }

  function SetOrder(t: Table, pair: nat, order: int): Table
    requires pair in t.rows
  {
    t.(rows := t.rows[pair := t.rows[pair].(order := order)])
  }

  /** Some row with this user and this order, if there is one. */
  predicate FirstWith(t: Table, user: int, order: int, found: Option<nat>) {
    match found
    case None => forall i :: i in RowsOf(t, user) ==> t.rows[i].order != order
    case Some(i) => i in RowsOf(t, user) && t.rows[i].order == order
  }

  lemma FirstExists(t: Table, user: int, order: int) returns (found: Option<nat>)
    ensures FirstWith(t, user, order, found)
  {
    if i :| i in RowsOf(t, user) && t.rows[i].order == order {
      found := Some(i);
    } else {
      found := None;
    }
  }

  /**
   The reorder transaction as written: `target` is what the lookup returns for the user
   `newOrder` and the order `user`, because its two arguments are passed in exchanged places.
   An update that matches no row of `user` fails, and the transaction with it.
  */
  function Reorder(t: Table, pair: nat, newOrder: int, user: int, target: Option<nat>): Result<Table, Failure>
    requires FirstWith(t, newOrder, user, target)
  {
    if pair !in RowsOf(t, user) then Err(PairNotFound)
    else if target.None? then Ok(SetOrder(t, pair, newOrder))
    else if target.value !in RowsOf(t, user) then Err(RolledBack)
    else Ok(SetOrder(SetOrder(t, target.value, t.rows[pair].order), pair, newOrder))
  }

  predicate Descending(rows: seq<Row>) {
    forall i, j :: 0 <= i < j < |rows| ==> rows[i].order >= rows[j].order
  }

  /** The rows of a user by descending order. Rows of the same order may come in any order. */
  ghost predicate IsListing(t: Table, user: int, rows: seq<Row>) {
    && Descending(rows)
    && (forall i, j :: 0 <= i < j < |rows| ==> rows[i] != rows[j])
    && (forall i :: 0 <= i < |rows| ==> rows[i].idx in RowsOf(t, user) && rows[i] == t.rows[rows[i].idx])
    && (forall i :: i in RowsOf(t, user) ==> t.rows[i] in rows)
  }

  function Below(rows: seq<Row>, cursor: int): seq<Row>
    decreases |rows|
  {
    if rows == [] then []
    else Below(rows[..|rows| - 1], cursor) + (if rows[|rows| - 1].order < cursor then [rows[|rows| - 1]] else [])
  }

  /** The cursor filters only where it is truthy: a cursor of 0 is no cursor. */
  function Visible(rows: seq<Row>, cursor: Option<int>): seq<Row> {
    if cursor.Some? && cursor.value != 0 then Below(rows, cursor.value) else rows
  }

  datatype Page = Page(items: seq<Row>, nextCursor: Option<int>)

  /** One page of a listing: up to `limit` rows, and a cursor exactly when there are more. */
  function PageOf(rows: seq<Row>, cursor: Option<int>, limit: nat): Page
    requires limit >= 1
  {
    var found := Visible(rows, cursor);
    if |found| > limit then Page(found[..limit], Some(found[limit - 1].order)) else Page(found, None)
  }

  /** What the caller sees of `r`: the new table, or the failure and the table from before. */
  predicate Answers(r: Result<Table, Failure>, before: Table, after: Table, failure: Option<Failure>) {
    match r
    case Ok(t) => failure == None && after == t
    case Err(e) => failure == Some(e) && after == before
  }

  class WatchListRepository {
    var rows: map<nat, Row>
    var nextIdx: nat

    constructor ()
      ensures View() == Table(map[], 0)
    {
      rows, nextIdx := map[], 0;
    }

    function View(): Table
      reads this
    {
      Table(rows, nextIdx)
    }

    method CreateInterestPair(user: int, base: string, code: string, order: int) returns (row: Row)
      modifies this
      ensures row == Row(old(nextIdx), user, base, code, order)
      ensures View() == Table(old(rows)[old(nextIdx) := row], old(nextIdx) + 1)
    {
      row := Row(nextIdx, user, base, code, order);
      rows := rows[nextIdx := row];
      nextIdx := nextIdx + 1;
    }

    method FindLastOrder(user: int) returns (last: Option<int>)
      ensures last == if RowsOf(View(), user) == {} then None else Some(LastOrder(View(), RowsOf(View(), user)))
    {
      last := None;
      var left := RowsOf(View(), user);
      while left != {}
        invariant left <= RowsOf(View(), user)
        invariant last.None? ==> left == RowsOf(View(), user)
        invariant last.Some? ==> exists i :: i in RowsOf(View(), user) && rows[i].order == last.value
        invariant last.Some? ==> forall i :: i in RowsOf(View(), user) - left ==> rows[i].order <= last.value
        decreases left
      {
        var i :| i in left;
        if last.None? || last.value < rows[i].order {
          last := Some(rows[i].order);
        }
        left := left - {i};
      }
    }

    method FindInterestPairByUser(user: int, base: string, code: string) returns (found: bool)
      ensures found <==> HasPair(View(), user, base, code)
    {
      found := exists i :: i in rows && rows[i].userIdx == user && rows[i].base == base && rows[i].code == code;
    }

    method FindInterestPairByIdx(pair: nat, user: int) returns (found: Option<Row>)
      ensures found == if pair in RowsOf(View(), user) then Some(rows[pair]) else None
    {
      if pair in rows && rows[pair].userIdx == user {
        found := Some(rows[pair]);
      } else {
        found := None;
      }
    }

    method FindInterestPairWithOrderAndUser(user: int, order: int) returns (found: Option<nat>)
      ensures FirstWith(View(), user, order, found)
    {
      var matches := set i | i in rows && rows[i].userIdx == user && rows[i].order == order;
      if matches == {} {
        assert forall i :: i in RowsOf(View(), user) && rows[i].order == order ==> i in matches;
        found := None;
      } else {
        var i :| i in matches;
        found := Some(i);
      }
    }

    method FindManyDescending(user: int) returns (listing: seq<Row>)
      requires TableOk(View())
      ensures IsListing(View(), user, listing)
    {
      listing := [];
      var left := RowsOf(View(), user);
      while left != {}
        invariant left <= RowsOf(View(), user)
        invariant Descending(listing)
        invariant forall i, j :: 0 <= i < j < |listing| ==> listing[i] != listing[j]
        invariant forall i :: 0 <= i < |listing| ==>
            && listing[i].idx in RowsOf(View(), user) - left
            && listing[i] == rows[listing[i].idx]
        invariant forall i :: i in RowsOf(View(), user) - left ==> rows[i] in listing
        invariant forall i, k :: i in left && 0 <= k < |listing| ==> rows[i].order <= listing[k].order
        decreases left
      {
        var top :| top in left;
        var rest := left - {top};
        while rest != {}
          invariant rest <= left && top in left
          invariant forall i :: i in left - rest ==> rows[i].order <= rows[top].order
          decreases rest
        {
          var i :| i in rest;
          if rows[top].order < rows[i].order {
            top := i;
          }
          rest := rest - {i};
        }
        listing := listing + [rows[top]];
        left := left - {top};
      }
    }

    /** One row more than the limit is fetched and popped again. The request makes the limit positive. */
    method FindInterestPairsWithCursor(user: int, limit: nat, cursor: Option<int>)
      returns (items: seq<Row>, nextCursor: Option<int>)
      requires limit >= 1 && TableOk(View())
      ensures exists listing ::
        && IsListing(View(), user, listing)
        && Page(items, nextCursor) == PageOf(listing, cursor, limit)
    {
      var listing := FindManyDescending(user);
      var found := Visible(listing, cursor);
      items := if |found| > limit + 1 then found[..limit + 1] else found;
      var hasNextPage := |items| > limit;
      if hasNextPage {
        items := items[..|items| - 1];
      }
      nextCursor := if hasNextPage then Some(items[|items| - 1].order) else None;
    }

    method FindInterestPairCountByUser(user: int) returns (count: nat)
      ensures count == |RowsOf(View(), user)|
    {
      count := |RowsOf(View(), user)|;
    }

    method DeleteInterestPair(pair: nat, user: int) returns (ok: bool)
      modifies this
      ensures ok <==> pair in RowsOf(old(View()), user)
      ensures View() == if ok then old(View()).(rows := old(rows) - {pair}) else old(View())
    {
      ok := pair in rows && rows[pair].userIdx == user;
      if ok {
        rows := rows - {pair};
      }
    }

    method UpdateInterestPair(pair: nat, newOrder: int, user: int) returns (ok: bool)
      modifies this
      ensures ok <==> pair in RowsOf(old(View()), user)
      ensures View() == if ok then SetOrder(old(View()), pair, newOrder) else old(View())
    {
      ok := pair in rows && rows[pair].userIdx == user;
      if ok {
        rows := rows[pair := rows[pair].(order := newOrder)];
      }
    }
  }

  class WatchlistService {
    const repository: WatchListRepository

    constructor (repository: WatchListRepository)
      ensures this.repository == repository
    {
      this.repository := repository;
    }

    method CreateInterestCurrency(user: int, base: string, code: string) returns (failure: Option<Failure>)
      modifies repository
      ensures Answers(Create(old(repository.View()), user, base, code), old(repository.View()), repository.View(),
          failure)
      // refused exactly for a pair that is there, and for an eleventh row
      ensures failure == Some(AlreadyRegistered) <==>
        exists i :: i in old(repository.rows) && old(repository.rows)[i].userIdx == user
                    && old(repository.rows)[i].base == base && old(repository.rows)[i].code == code
      ensures failure == Some(TooManyPairs) ==>
        |set i | i in old(repository.rows) && old(repository.rows)[i].userIdx == user| >= 10
      ensures failure == None ==>
        |set i | i in old(repository.rows) && old(repository.rows)[i].userIdx == user| < 10
      ensures failure == None || failure == Some(AlreadyRegistered) || failure == Some(TooManyPairs)
    {
      var registered := repository.FindInterestPairByUser(user, base, code);
      if registered {
        return Some(AlreadyRegistered);
      }
      var pairCount := repository.FindInterestPairCountByUser(user);
      assert RowsOf(repository.View(), user)
          == set i | i in old(repository.rows) && old(repository.rows)[i].userIdx == user;
      if pairCount >= MAX_PAIR_COUNT {
        return Some(TooManyPairs);
      }
      var lastOrder := repository.FindLastOrder(user);
      var displayOrder := if lastOrder.None? then 0 else lastOrder.value + 1;
      var _ := repository.CreateInterestPair(user, base, code, displayOrder);
      return None;
    }

    method DeleteInterestCurrency(pair: nat, user: int) returns (failure: Option<Failure>)
      modifies repository
      ensures Answers(Delete(old(repository.View()), pair, user), old(repository.View()), repository.View(), failure)
      // the row is gone and no other, exactly when it was there and of the user
      ensures failure == None <==> pair in old(repository.rows) && old(repository.rows)[pair].userIdx == user
      ensures failure == None ==> repository.rows.Keys == old(repository.rows).Keys - {pair}
      ensures forall i :: i in repository.rows ==>
        i in old(repository.rows) && repository.rows[i] == old(repository.rows)[i]
      ensures failure != None ==> repository.rows == old(repository.rows)
      ensures repository.nextIdx == old(repository.nextIdx)
    {
      var found := repository.FindInterestPairByIdx(pair, user);
      if found.None? {
        return Some(PairNotFound);
      }
      var _ := repository.DeleteInterestPair(pair, user);
      return None;
    }

    /** A transaction: when an update fails, the rows are those from before. */
    method UpdateInterestPairOrder(pair: nat, newOrder: int, user: int) returns (failure: Option<Failure>)
      modifies repository
      ensures exists target ::
        && FirstWith(old(repository.View()), newOrder, user, target)
        && Answers(Reorder(old(repository.View()), pair, newOrder, user, target), old(repository.View()),
            repository.View(), failure)
    {
      var found := repository.FindInterestPairByIdx(pair, user);
      if found.None? {
        ghost var any := FirstExists(repository.View(), newOrder, user);
        return Some(PairNotFound);
      }
      var target := repository.FindInterestPairWithOrderAndUser(newOrder, user);
      var saved := repository.rows;
      if target.Some? {
        var ok := repository.UpdateInterestPair(target.value, found.value.order, user);
        if !ok {
          repository.rows := saved;
          return Some(RolledBack);
        }
      }
      var _ := repository.UpdateInterestPair(pair, newOrder, user);
      return None;
    }
  }
}

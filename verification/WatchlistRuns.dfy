/** Display orders over runs of the watchlist, and what the reorder transaction does to them. */
module WatchlistRuns {
  import opened Options
  import opened Watchlist

  predicate Distinct(t: Table, user: int) {
    forall i, j :: i in RowsOf(t, user) && j in RowsOf(t, user) && t.rows[i].order == t.rows[j].order ==> i == j
  }

  predicate SamePair(a: Row, b: Row) {
    a.base == b.base && a.code == b.code
  }

  predicate PairsUnique(t: Table, user: int) {
    forall i, j ::
      i in RowsOf(t, user) && j in RowsOf(t, user) && SamePair(t.rows[i], t.rows[j]) ==> i == j
  }

  /** What every user's list keeps, whatever is asked for: unique pairs, orders from 0 up, ten rows at most. */
  predicate Bounded(t: Table, user: int) {
    && PairsUnique(t, user)
    && (forall i :: i in RowsOf(t, user) ==> t.rows[i].order >= 0)
    && |RowsOf(t, user)| <= MAX_PAIR_COUNT
  }

  predicate ListOk(t: Table, user: int) {
    Distinct(t, user) && Bounded(t, user)
  }

  /** No other row of the user holds the new order. */
  predicate Unclaimed(t: Table, pair: nat, newOrder: int, user: int) {
    forall i :: i in RowsOf(t, user) && i != pair ==> t.rows[i].order != newOrder
  }

  /** A row above all others of its user appears, and nothing else changes. */
  lemma CreateAppends(t: Table, user: int, base: string, code: string)
    requires TableOk(t) && Create(t, user, base, code).Ok?
    ensures var t' := Create(t, user, base, code).value;
      && TableOk(t') && t'.rows.Keys == t.rows.Keys + {t.nextIdx} && t.nextIdx !in t.rows
      && (forall i :: i in t.rows ==> t'.rows[i] == t.rows[i])
      && var row := t'.rows[t.nextIdx];
         && row.userIdx == user && row.base == base && row.code == code
         && (forall i :: i in RowsOf(t, user) ==> t.rows[i].order < row.order)
         && (RowsOf(t, user) == {} ==> row.order == 0)
         && (RowsOf(t, user) != {} ==> exists i :: i in RowsOf(t, user) && t.rows[i].order == row.order - 1)
  {
  }

  /** A deletion takes the row, if it is of the user, and nothing else; the list is one shorter. */
  lemma DeleteRemoves(t: Table, pair: nat, user: int)
    ensures Delete(t, pair, user).Ok? <==> pair in t.rows && t.rows[pair].userIdx == user
    ensures Delete(t, pair, user).Ok? ==>
      var t' := Delete(t, pair, user).value;
      && t'.rows.Keys == t.rows.Keys - {pair} && t'.nextIdx == t.nextIdx
      && (forall i :: i in t'.rows ==> t'.rows[i] == t.rows[i])
      && RowsOf(t', user) == RowsOf(t, user) - {pair} && |RowsOf(t', user)| == |RowsOf(t, user)| - 1
  {
    if pair in RowsOf(t, user) {
      assert RowsOf(Delete(t, pair, user).value, user) == RowsOf(t, user) - {pair};
    }
  }

  /** A pair that was deleted can be created again, and stands at the end then. */
  lemma DeletedPairReturns(t: Table, pair: nat, user: int)
    requires TableOk(t) && Bounded(t, user) && pair in RowsOf(t, user)
    ensures Delete(t, pair, user).Ok?
    ensures var t', row := Delete(t, pair, user).value, t.rows[pair]; Create(t', user, row.base, row.code).Ok?
  {
    DeleteRemoves(t, pair, user);
    var t', row := Delete(t, pair, user).value, t.rows[pair];
    forall i | i in t'.rows && t'.rows[i].userIdx == user ensures !SamePair(t'.rows[i], row) {
      assert i in RowsOf(t, user) && i != pair;
    }
  }

  lemma CreateKeepsOthers(t: Table, user: int, base: string, code: string, other: int)
    requires TableOk(t) && Bounded(t, other) && other != user && Create(t, user, base, code).Ok?
    ensures Bounded(Create(t, user, base, code).value, other)
    ensures Distinct(t, other) ==> Distinct(Create(t, user, base, code).value, other)
  {
    CreateAppends(t, user, base, code);
    assert RowsOf(Create(t, user, base, code).value, other) == RowsOf(t, other);
  }

  lemma CreatedRow(t: Table, user: int, base: string, code: string, i: nat)
    requires TableOk(t) && Bounded(t, user) && Create(t, user, base, code).Ok?
    requires i in RowsOf(Create(t, user, base, code).value, user) && i != t.nextIdx
    ensures var t' := Create(t, user, base, code).value;
      && i in RowsOf(t, user) && t'.rows[i] == t.rows[i]
      && 0 <= t'.rows[i].order < t'.rows[t.nextIdx].order && !SamePair(t'.rows[i], t'.rows[t.nextIdx])
  {
    CreateAppends(t, user, base, code);
    assert !HasPair(t, user, base, code);
  }

  lemma CreatedPairsUnique(t: Table, user: int, base: string, code: string)
    requires TableOk(t) && Bounded(t, user) && Create(t, user, base, code).Ok?
    ensures PairsUnique(Create(t, user, base, code).value, user)
  {
    var t' := Create(t, user, base, code).value;
    forall i, j | i in RowsOf(t', user) && j in RowsOf(t', user) && SamePair(t'.rows[i], t'.rows[j]) ensures i == j {
      if i != t.nextIdx { CreatedRow(t, user, base, code, i); }
      if j != t.nextIdx { CreatedRow(t, user, base, code, j); }
    }
  }

  lemma CreatedDistinct(t: Table, user: int, base: string, code: string)
    requires TableOk(t) && Bounded(t, user) && Distinct(t, user) && Create(t, user, base, code).Ok?
    ensures Distinct(Create(t, user, base, code).value, user)
  {
    var t' := Create(t, user, base, code).value;
    forall i, j | i in RowsOf(t', user) && j in RowsOf(t', user) && t'.rows[i].order == t'.rows[j].order
      ensures i == j
    {
      if i != t.nextIdx { CreatedRow(t, user, base, code, i); }
      if j != t.nextIdx { CreatedRow(t, user, base, code, j); }
    }
  }

  lemma CreatedCount(t: Table, user: int, base: string, code: string)
    requires TableOk(t) && Create(t, user, base, code).Ok?
    ensures |RowsOf(Create(t, user, base, code).value, user)| <= MAX_PAIR_COUNT
  {
    var t' := Create(t, user, base, code).value;
    CreateAppends(t, user, base, code);
    assert RowsOf(t', user) == RowsOf(t, user) + {t.nextIdx};
  }

  lemma CreateKeepsOwn(t: Table, user: int, base: string, code: string)
    requires TableOk(t) && Bounded(t, user) && Create(t, user, base, code).Ok?
    ensures Bounded(Create(t, user, base, code).value, user)
    ensures Distinct(t, user) ==> Distinct(Create(t, user, base, code).value, user)
  {
    var t' := Create(t, user, base, code).value;
    CreatedPairsUnique(t, user, base, code);
    if Distinct(t, user) { CreatedDistinct(t, user, base, code); }
    forall i | i in RowsOf(t', user) ensures t'.rows[i].order >= 0 {
      if i == t.nextIdx { CreatedOrder(t, user, base, code); } else { CreatedRow(t, user, base, code, i); }
    }
    CreatedCount(t, user, base, code);
  }

  lemma CreatedOrder(t: Table, user: int, base: string, code: string)
    requires TableOk(t) && Bounded(t, user) && Create(t, user, base, code).Ok?
    ensures Create(t, user, base, code).value.rows[t.nextIdx].order >= 0
  {
    CreateAppends(t, user, base, code);
    if j :| j in RowsOf(t, user) {
      assert t.rows[j].order >= 0;
    }
  }

  lemma DeleteKeeps(t: Table, pair: nat, user: int, other: int)
    requires TableOk(t) && Bounded(t, other) && Delete(t, pair, user).Ok?
    ensures TableOk(Delete(t, pair, user).value) && Bounded(Delete(t, pair, user).value, other)
    ensures Distinct(t, other) ==> Distinct(Delete(t, pair, user).value, other)
  {
    var t' := Delete(t, pair, user).value;
    assert RowsOf(t', other) == RowsOf(t, other) - {pair};
    SubsetSize(RowsOf(t', other), RowsOf(t, other));
  }

  /** Exactly when the transaction commits. Otherwise another user's row is in its way, or there is no pair. */
  lemma ReorderCommitsExactlyWhen(t: Table, pair: nat, newOrder: int, user: int, target: Option<nat>)
    requires FirstWith(t, newOrder, user, target)
    ensures Reorder(t, pair, newOrder, user, target).Ok? <==>
      && pair in RowsOf(t, user)
      && (newOrder == user || forall i :: i in RowsOf(t, newOrder) ==> t.rows[i].order != user)
    ensures Reorder(t, pair, newOrder, user, target) == Err(RolledBack) ==>
      target.Some? && target.value in t.rows && t.rows[target.value].userIdx != user
  {
  }

  /** The orders of a committed reorder: set and, only where `newOrder == user`, swapped. Nothing else moves. */
  lemma ReorderMoves(t: Table, pair: nat, newOrder: int, user: int, target: Option<nat>)
    requires TableOk(t) && FirstWith(t, newOrder, user, target) && Reorder(t, pair, newOrder, user, target).Ok?
    ensures var t' := Reorder(t, pair, newOrder, user, target).value;
      && TableOk(t') && t'.rows.Keys == t.rows.Keys && t'.nextIdx == t.nextIdx
      && (forall i :: i in t.rows ==>
            t'.rows[i] == t.rows[i].(order :=
              if i == pair then newOrder
              else if newOrder == user && target == Some(i) then t.rows[pair].order
              else t.rows[i].order))
      && (forall other :: RowsOf(t', other) == RowsOf(t, other))
  {
    var t' := Reorder(t, pair, newOrder, user, target).value;
    forall other ensures RowsOf(t', other) == RowsOf(t, other) {
    }
  }

  /**
   A committed reorder keeps the user's orders distinct exactly when no other row of the user
   holds the new order, or the new order happens to be the number of the user.
  */
  lemma ReorderKeepsDistinctExactlyWhen(t: Table, pair: nat, newOrder: int, user: int, target: Option<nat>)
    requires TableOk(t) && Distinct(t, user)
    requires FirstWith(t, newOrder, user, target) && Reorder(t, pair, newOrder, user, target).Ok?
    ensures Distinct(Reorder(t, pair, newOrder, user, target).value, user)
            <==> newOrder == user || Unclaimed(t, pair, newOrder, user)
  {
    ReorderMoves(t, pair, newOrder, user, target);
    var t' := Reorder(t, pair, newOrder, user, target).value;
    if newOrder != user && !Unclaimed(t, pair, newOrder, user) {
      var i :| i in RowsOf(t, user) && i != pair && t.rows[i].order == newOrder;
      assert i in RowsOf(t', user) && pair in RowsOf(t', user) && t'.rows[i].order == t'.rows[pair].order;
    } else {
      forall i, j | i in RowsOf(t', user) && j in RowsOf(t', user) && t'.rows[i].order == t'.rows[j].order
        ensures i == j
      {
        assert i in RowsOf(t, user) && j in RowsOf(t, user) && pair in RowsOf(t, user);
      }
    }
  }

  /** In that case the two rows exchange their orders. */
  lemma ReorderTransposes(t: Table, pair: nat, user: int, target: nat)
    requires TableOk(t) && FirstWith(t, user, user, Some(target)) && pair in RowsOf(t, user)
    ensures var r := Reorder(t, pair, user, user, Some(target));
      && r.Ok?
      && r.value.rows[pair].order == t.rows[target].order && (target != pair ==>
          r.value.rows[target].order == t.rows[pair].order)
  {
  }

  /** Any committed reorder keeps every list within its bounds, and the orders of the other users. */
  lemma ReorderKeeps(t: Table, pair: nat, newOrder: int, user: int, target: Option<nat>, other: int)
    requires TableOk(t) && Bounded(t, other) && newOrder >= 0
    requires FirstWith(t, newOrder, user, target) && Reorder(t, pair, newOrder, user, target).Ok?
    ensures Bounded(Reorder(t, pair, newOrder, user, target).value, other)
    ensures other != user && Distinct(t, other) ==> Distinct(Reorder(t, pair, newOrder, user, target).value, other)
  {
    ReorderMoves(t, pair, newOrder, user, target);
    var t' := Reorder(t, pair, newOrder, user, target).value;
    assert RowsOf(t', other) == RowsOf(t, other);
    assert pair in RowsOf(t, user);
    if other != user {
      assert forall i :: i in RowsOf(t, other) ==> t'.rows[i] == t.rows[i];
    }
  }

  datatype Request =
    | Add(user: int, base: string, code: string)
    | Remove(pair: nat, user: int)
    | Move(pair: nat, newOrder: nat, user: int, target: Option<nat>)

  ghost predicate Possible(t: Table, r: Request) {
    r.Move? ==> FirstWith(t, r.newOrder, r.user, r.target)
  }

  ghost function Serve(t: Table, r: Request): Table
    requires Possible(t, r)
  {
    var result := match r
      case Add(user, base, code) => Create(t, user, base, code)
      case Remove(pair, user) => Delete(t, pair, user)
      case Move(pair, newOrder, user, target) => Reorder(t, pair, newOrder, user, target);
    if result.Ok? then result.value else t
  }

  /** The lookups of a run find what is in the table. */
  ghost predicate PossibleRun(t: Table, rs: seq<Request>)
    decreases |rs|
  {
    rs == [] || (Possible(t, rs[0]) && PossibleRun(Serve(t, rs[0]), rs[1..]))
  }

  ghost function ServeAll(t: Table, rs: seq<Request>): Table
    requires PossibleRun(t, rs)
    decreases |rs|
  {
    if rs == [] then t else ServeAll(Serve(t, rs[0]), rs[1..])
  }

  /** A reorder that commits asks for an order that no other row of the user holds, or for the user's own number. */
  ghost predicate ConsiderateRequest(t: Table, r: Request)
    requires Possible(t, r)
  {
    r.Move? && Reorder(t, r.pair, r.newOrder, r.user, r.target).Ok? ==>
      r.newOrder == r.user || Unclaimed(t, r.pair, r.newOrder, r.user)
  }

  ghost predicate Considerate(t: Table, rs: seq<Request>)
    requires PossibleRun(t, rs)
    decreases |rs|
  {
    rs == [] || (ConsiderateRequest(t, rs[0]) && Considerate(Serve(t, rs[0]), rs[1..]))
  }

  ghost predicate AllBounded(t: Table) {
    TableOk(t) && forall user {:trigger Bounded(t, user)} :: Bounded(t, user)
  }

  ghost predicate AllDistinct(t: Table) {
    forall user {:trigger Distinct(t, user)} :: Distinct(t, user)
  }

  /** All orders of each user are distinct at every point of the run. */
  ghost predicate AlwaysDistinct(t: Table, rs: seq<Request>)
    requires PossibleRun(t, rs)
    decreases |rs|
  {
    AllDistinct(t) && (rs != [] ==> AlwaysDistinct(Serve(t, rs[0]), rs[1..]))
  }

  lemma ServeKeepsList(t: Table, r: Request, user: int)
    requires AllBounded(t) && Possible(t, r)
    ensures Bounded(Serve(t, r), user)
    ensures Distinct(t, user) && ConsiderateRequest(t, r) ==> Distinct(Serve(t, r), user)
  {
    assert Bounded(t, user);
    match r
    case Add(owner, base, code) =>
      if Create(t, owner, base, code).Ok? {
        if owner == user { CreateKeepsOwn(t, user, base, code); } else { CreateKeepsOthers(t, owner, base, code,
            user); }
      }
    case Remove(pair, owner) =>
      if Delete(t, pair, owner).Ok? { DeleteKeeps(t, pair, owner, user); }
    case Move(pair, newOrder, owner, target) =>
      if Reorder(t, pair, newOrder, owner, target).Ok? {
        ReorderKeeps(t, pair, newOrder, owner, target, user);
        if owner == user && Distinct(t, user) { ReorderKeepsDistinctExactlyWhen(t, pair, newOrder, user, target); }
      }
  }

  lemma ServeKeeps(t: Table, r: Request)
    requires AllBounded(t) && Possible(t, r)
    ensures AllBounded(Serve(t, r))
  {
    forall user ensures Bounded(Serve(t, r), user) { ServeKeepsList(t, r, user); }
  }

  lemma ServeKeepsDistinctExactlyWhen(t: Table, r: Request)
    requires AllBounded(t) && AllDistinct(t) && Possible(t, r)
    ensures AllDistinct(Serve(t, r)) <==> ConsiderateRequest(t, r)
  {
    if ConsiderateRequest(t, r) {
      forall user ensures Distinct(Serve(t, r), user) {
        assert Distinct(t, user);
        ServeKeepsList(t, r, user);
      }
    } else {
      assert Distinct(t, r.user);
      ReorderKeepsDistinctExactlyWhen(t, r.pair, r.newOrder, r.user, r.target);
      assert !Distinct(Serve(t, r), r.user);
    }
  }

  lemma {:induction false} BoundedRun(t: Table, rs: seq<Request>)
    requires AllBounded(t) && PossibleRun(t, rs)
    ensures AllBounded(ServeAll(t, rs))
    decreases |rs|
  {
    if rs != [] {
      ServeKeeps(t, rs[0]);
      BoundedRun(Serve(t, rs[0]), rs[1..]);
    }
  }

  lemma {:induction false} DistinctRun(t: Table, rs: seq<Request>)
    requires AllBounded(t) && AllDistinct(t) && PossibleRun(t, rs)
    ensures AlwaysDistinct(t, rs) <==> Considerate(t, rs)
    ensures Considerate(t, rs) ==> AllDistinct(ServeAll(t, rs))
    decreases |rs|
  {
    if rs != [] {
      ServeKeeps(t, rs[0]);
      ServeKeepsDistinctExactlyWhen(t, rs[0]);
      if ConsiderateRequest(t, rs[0]) { DistinctRun(Serve(t, rs[0]), rs[1..]); }
    }
  }

  const EMPTY_TABLE := Table(map[], 0)

  lemma EmptyIsOk()
    ensures AllBounded(EMPTY_TABLE) && AllDistinct(EMPTY_TABLE)
  {
    forall user ensures Bounded(EMPTY_TABLE, user) && Distinct(EMPTY_TABLE, user) {
      assert RowsOf(EMPTY_TABLE, user) == {};
    }
  }

  /**
   Every run from the empty table, with any reorders at all, keeps pairs unique, orders from 0 up
   and lists within ten rows.
  */
  lemma ListsStayBounded(rs: seq<Request>, user: int)
    requires PossibleRun(EMPTY_TABLE, rs)
    ensures TableOk(ServeAll(EMPTY_TABLE, rs)) && Bounded(ServeAll(EMPTY_TABLE, rs), user)
  {
    EmptyIsOk();
    BoundedRun(EMPTY_TABLE, rs);
  }

  /**
   The orders of every user are distinct at every point of a run if and only if every reorder that
   commits is considerate.
  */
  lemma OrdersStayDistinctExactlyWhen(rs: seq<Request>)
    requires PossibleRun(EMPTY_TABLE, rs)
    ensures AlwaysDistinct(EMPTY_TABLE, rs) <==> Considerate(EMPTY_TABLE, rs)
  {
    EmptyIsOk();
    DistinctRun(EMPTY_TABLE, rs);
  }

  /** So after such a run every list is in order. */
  lemma ListsStayOk(rs: seq<Request>, user: int)
    requires PossibleRun(EMPTY_TABLE, rs) && Considerate(EMPTY_TABLE, rs)
    ensures TableOk(ServeAll(EMPTY_TABLE, rs)) && ListOk(ServeAll(EMPTY_TABLE, rs), user)
  {
    ListsStayBounded(rs, user);
    EmptyIsOk();
    DistinctRun(EMPTY_TABLE, rs);
    assert Distinct(ServeAll(EMPTY_TABLE, rs), user);
  }
}

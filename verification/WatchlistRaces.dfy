/**
 Creations that overlap. `createInterestCurrency` is four queries, each an await of its own and no
 transaction around them: the pair, the count, the last order, the insert. The table itself only
 keeps pairs unique. So two creations of one user can read the same last order.
*/
module WatchlistRaces {
  import opened Options
  import opened Watchlist
  import opened WatchlistRuns

  datatype Phase =
    | Begun
    | PairChecked
    | Counted
    | Ordered(order: int)
    | Created(idx: nat)
    | Refused(failure: Failure)
    | Duplicate                   // the insert met the unique constraint

  datatype Creation = Creation(user: int, base: string, code: string, phase: Phase)

  datatype State = State(table: Table, creations: seq<Creation>)

  function Insert(t: Table, c: Creation, order: int): Table {
    Table(t.rows[t.nextIdx := Row(t.nextIdx, c.user, c.base, c.code, order)], t.nextIdx + 1)
  }

  /** The next query of creation `i`. */
  ghost function Step(s: State, i: nat): (r: State)
    requires i < |s.creations|
    ensures |r.creations| == |s.creations|
  {
    var c, t := s.creations[i], s.table;
    match c.phase
    case Begun => Advance(s, i, if HasPair(t, c.user, c.base, c.code) then Refused(AlreadyRegistered) else PairChecked)
    case PairChecked => Advance(s, i, if |RowsOf(t, c.user)| >= MAX_PAIR_COUNT then Refused(TooManyPairs) else Counted)
    case Counted => Advance(s, i, Ordered(NextOrder(t, c.user)))
    case Ordered(order) =>
      if HasPair(t, c.user, c.base, c.code) then Advance(s, i, Duplicate)
      else Advance(s, i, Created(t.nextIdx)).(table := Insert(t, c, order))
    case _ => s
  }

  function Advance(s: State, i: nat, phase: Phase): State
    requires i < |s.creations|
  {
    s.(creations := s.creations[i := s.creations[i].(phase := phase)])
  }

  /** A schedule names, query by query, the creation that goes on. */
  predicate Schedule(s: State, order: seq<nat>) {
    forall j :: 0 <= j < |order| ==> order[j] < |s.creations|
  }

  ghost function Run(s: State, order: seq<nat>): State
    requires Schedule(s, order)
    decreases |order|
  {
    if order == [] then s
    else
      assert forall j :: 0 <= j < |order| - 1 ==> order[1..][j] == order[j + 1];
      Run(Step(s, order[0]), order[1..])
  }

  predicate AllBegin(s: State) {
    forall i :: 0 <= i < |s.creations| ==> s.creations[i].phase.Begun?
  }

  lemma RunStep(s: State, i: nat, rest: seq<nat>)
    requires i < |s.creations| && Schedule(s, rest)
    ensures Schedule(s, [i] + rest) && Run(s, [i] + rest) == Run(Step(s, i), rest)
  {
    assert ([i] + rest)[1..] == rest;
  }

  /** Without another query in between, the four queries are the creation of the sequential model. */
  lemma FourQueries(s: State, i: nat)
    requires TableOk(s.table) && i < |s.creations| && s.creations[i].phase.Begun?
    ensures var c, e := s.creations[i], Step(Step(Step(Step(s, i), i), i), i);
      match Create(s.table, c.user, c.base, c.code)
      case Ok(t) => e.table == t && e.creations[i].phase == Created(s.table.nextIdx)
      case Err(failure) => e.table == s.table && e.creations[i].phase == Refused(failure)
  {
  }

  // ---------------------------------------------------------------- what no schedule breaks

  ghost predicate PairsKept(s: State, user: int) {
    && TableOk(s.table) && PairsUnique(s.table, user)
    && (forall i :: i in RowsOf(s.table, user) ==> s.table.rows[i].order >= 0)
    && (forall i :: 0 <= i < |s.creations| && s.creations[i].phase.Ordered? ==> s.creations[i].phase.order >= 0)
  }

  /** What an insert does to the rows of a user. */
  lemma Inserted(t: Table, c: Creation, order: int, user: int)
    requires TableOk(t)
    ensures var t' := Insert(t, c, order);
      && TableOk(t') && t.nextIdx !in t.rows && t'.rows[t.nextIdx].order == order
      && RowsOf(t', user) == RowsOf(t, user) + (if c.user == user then {t.nextIdx} else {})
      && (forall i :: i in t.rows ==> i in t'.rows && t'.rows[i] == t.rows[i])
  {
    var t' := Insert(t, c, order);
    forall i ensures i in RowsOf(t', user) <==> i in RowsOf(t, user) || (c.user == user && i == t.nextIdx) {
    }
  }

  lemma StepKeepsPairs(s: State, i: nat)
    requires i < |s.creations| && forall user :: PairsKept(s, user)
    ensures forall user :: PairsKept(Step(s, i), user)
  {
    var c, s' := s.creations[i], Step(s, i);
    assert PairsKept(s, c.user);
    forall user ensures PairsKept(s', user) {
      assert PairsKept(s, user);
      if c.phase.Ordered? && !HasPair(s.table, c.user, c.base, c.code) {
        Inserted(s.table, c, c.phase.order, user);
      }
    }
  }

  /** Pairs stay unique and orders stay from 0 up, however the queries of any number of creations overlap. */
  lemma {:induction false} PairsStayUnique(s: State, order: seq<nat>)
    requires Schedule(s, order) && forall user :: PairsKept(s, user)
    ensures forall user :: PairsKept(Run(s, order), user)
    decreases |order|
  {
    if order != [] {
      StepKeepsPairs(s, order[0]);
      assert forall j :: 0 <= j < |order| - 1 ==> order[1..][j] == order[j + 1];
      PairsStayUnique(Step(s, order[0]), order[1..]);
    }
  }

  // ---------------------------------------------------------------- when the orders stay distinct

  /** The next query inserts a row of `user`. */
  predicate Inserts(s: State, i: nat, user: int) {
    i < |s.creations| &&
    var c := s.creations[i];
    c.user == user && c.phase.Ordered? && !HasPair(s.table, user, c.base, c.code)
  }

  /** The next query inserts a row of `user`, and the last order is no longer the one that was read. */
  ghost predicate Stale(s: State, i: nat, user: int) {
    Inserts(s, i, user) && s.creations[i].phase.order != NextOrder(s.table, user)
  }

  ghost predicate NeverStale(s: State, order: seq<nat>, user: int)
    requires Schedule(s, order)
    decreases |order|
  {
    order == [] ||
    (&& !Stale(s, order[0], user)
     && (assert forall j :: 0 <= j < |order| - 1 ==> order[1..][j] == order[j + 1];
         NeverStale(Step(s, order[0]), order[1..], user)))
  }

  predicate Taken(t: Table, user: int, order: int) {
    exists i :: i in RowsOf(t, user) && t.rows[i].order == order
  }

  /** An order that was read is still the next one, or a row has it by now. */
  ghost predicate ReadOk(s: State, user: int, i: nat) {
    i < |s.creations| ==>
    var c := s.creations[i];
    c.user == user && c.phase.Ordered? ==>
      c.phase.order == NextOrder(s.table, user) || Taken(s.table, user, c.phase.order)
  }

  ghost predicate Fresh(s: State, user: int) {
    && TableOk(s.table) && Distinct(s.table, user)
    && (forall i {:trigger ReadOk(s, user, i)} :: 0 <= i < |s.creations| ==> ReadOk(s, user, i))
  }

  lemma SameNextOrder(t: Table, t': Table, user: int)
    requires RowsOf(t', user) == RowsOf(t, user) && forall i :: i in RowsOf(t, user) ==> t'.rows[i] == t.rows[i]
    ensures NextOrder(t', user) == NextOrder(t, user)
  {
    if RowsOf(t, user) != {} {
      var ids := RowsOf(t, user);
      var a, b := LastOrder(t, ids), LastOrder(t', ids);
      var i :| i in ids && t.rows[i].order == a;
      var j :| j in ids && t'.rows[j].order == b;
      assert t'.rows[i].order <= b && t.rows[j].order <= a;
    }
  }

  /** An insert with the next order keeps orders distinct, and takes the order that others may have read. */
  lemma FreshInsert(s: State, i: nat, user: int)
    requires Fresh(s, user) && i < |s.creations| && Inserts(s, i, user) && !Stale(s, i, user)
    ensures Fresh(Step(s, i), user)
  {
    var c, t, s' := s.creations[i], s.table, Step(s, i);
    Inserted(t, c, c.phase.order, user);
    assert Taken(s'.table, user, c.phase.order) by { assert t.nextIdx in RowsOf(s'.table, user); }
    forall j | 0 <= j < |s'.creations| ensures ReadOk(s', user, j) {
      assert ReadOk(s, user, j);
      var d := s.creations[j];
      if d.user == user && d.phase.Ordered? && Taken(t, user, d.phase.order) {
      }
    }
  }

  /** Every other query leaves the user's rows alone. */
  lemma OtherQuery(s: State, i: nat, user: int)
    requires Fresh(s, user) && i < |s.creations| && !Inserts(s, i, user)
    ensures Fresh(Step(s, i), user)
  {
    var c, t, s' := s.creations[i], s.table, Step(s, i);
    if c.phase.Ordered? { Inserted(t, c, c.phase.order, user); }
    assert RowsOf(s'.table, user) == RowsOf(t, user);
    SameNextOrder(t, s'.table, user);
    forall j | 0 <= j < |s'.creations| ensures ReadOk(s', user, j) {
      assert ReadOk(s, user, j);
      var d := s'.creations[j];
      if d.user == user && d.phase.Ordered? && Taken(t, user, d.phase.order) {
      }
    }
  }

  /** A stale insert takes an order that is taken. */
  lemma StaleInsert(s: State, i: nat, user: int)
    requires Fresh(s, user) && i < |s.creations| && Stale(s, i, user)
    ensures TableOk(Step(s, i).table) && !Distinct(Step(s, i).table, user)
  {
    var c, t, s' := s.creations[i], s.table, Step(s, i);
    assert ReadOk(s, user, i);
    var k :| k in RowsOf(t, user) && t.rows[k].order == c.phase.order;
    Inserted(t, c, c.phase.order, user);
    assert k in RowsOf(s'.table, user) && t.nextIdx in RowsOf(s'.table, user) && k != t.nextIdx;
  }

  lemma TieStays(s: State, i: nat, user: int)
    requires TableOk(s.table) && !Distinct(s.table, user) && i < |s.creations|
    ensures TableOk(Step(s, i).table) && !Distinct(Step(s, i).table, user)
  {
    var c := s.creations[i];
    if c.phase.Ordered? { Inserted(s.table, c, c.phase.order, user); }
    var a, b :| a in RowsOf(s.table, user) && b in RowsOf(s.table, user)
        && s.table.rows[a].order == s.table.rows[b].order && a != b;
    assert a in RowsOf(Step(s, i).table, user) && b in RowsOf(Step(s, i).table, user);
  }

  lemma {:induction false} TieStaysInRun(s: State, order: seq<nat>, user: int)
    requires TableOk(s.table) && !Distinct(s.table, user) && Schedule(s, order)
    ensures !Distinct(Run(s, order).table, user)
    decreases |order|
  {
    if order != [] {
      TieStays(s, order[0], user);
      assert forall j :: 0 <= j < |order| - 1 ==> order[1..][j] == order[j + 1];
      TieStaysInRun(Step(s, order[0]), order[1..], user);
    }
  }

  lemma {:induction false} DistinctInRun(s: State, order: seq<nat>, user: int)
    requires Fresh(s, user) && Schedule(s, order)
    ensures Distinct(Run(s, order).table, user) <==> NeverStale(s, order, user)
    decreases |order|
  {
    if order != [] {
      var i := order[0];
      assert forall j :: 0 <= j < |order| - 1 ==> order[1..][j] == order[j + 1];
      if Stale(s, i, user) {
        StaleInsert(s, i, user);
        TieStaysInRun(Step(s, i), order[1..], user);
      } else {
        if Inserts(s, i, user) {
          FreshInsert(s, i, user);
        } else {
          OtherQuery(s, i, user);
        }
        DistinctInRun(Step(s, i), order[1..], user);
      }
    }
  }

  /**
   However the queries of any number of creations overlap, the orders of a user are distinct in the
   end if and only if no row of the user is inserted after the last order changed since the
   creation read it.
  */
  lemma OverlapKeepsDistinctExactlyWhen(s: State, order: seq<nat>, user: int)
    requires TableOk(s.table) && Distinct(s.table, user) && AllBegin(s) && Schedule(s, order)
    ensures Distinct(Run(s, order).table, user) <==> NeverStale(s, order, user)
  {
    forall i | 0 <= i < |s.creations| ensures ReadOk(s, user, i) {
    }
    DistinctInRun(s, order, user);
  }

  // ---------------------------------------------------------------- how many rows

  /** Creation `i` of the user has seen a list that is not full, and its insert is still to come. */
  predicate IsCleared(s: State, user: int, i: nat) {
    && i < |s.creations| && s.creations[i].user == user
    && (s.creations[i].phase.Counted? || s.creations[i].phase.Ordered?)
  }

  function Cleared(s: State, user: int): set<nat> {
    set i | 0 <= i < |s.creations| && IsCleared(s, user, i)
  }

  /** At no point of the run more than `most` creations of the user are between count and insert. */
  ghost predicate AtMostCleared(s: State, order: seq<nat>, user: int, most: nat)
    requires Schedule(s, order)
    decreases |order|
  {
    && |Cleared(s, user)| <= most
    && (order != [] ==>
          assert forall j :: 0 <= j < |order| - 1 ==> order[1..][j] == order[j + 1];
          AtMostCleared(Step(s, order[0]), order[1..], user, most))
  }

  /** What a query does to those who are cleared. */
  lemma ClearedMoves(s: State, i: nat, user: int)
    requires i < |s.creations|
    ensures Cleared(Step(s, i), user) - {i} == Cleared(s, user) - {i}
  {
    var s' := Step(s, i);
    forall j | 0 <= j < |s.creations| && j != i ensures s'.creations[j] == s.creations[j] {
    }
  }

  lemma OneLess(a: set<nat>, b: set<nat>, i: nat)
    requires a - {i} == b - {i}
    ensures |a| + (if i in b then 1 else 0) == |b| + (if i in a then 1 else 0)
  {
    if i in a { assert a == (a - {i}) + {i}; } else { assert a == a - {i}; }
    if i in b { assert b == (b - {i}) + {i}; } else { assert b == b - {i}; }
  }

  lemma RowsMove(s: State, i: nat, user: int)
    requires TableOk(s.table) && i < |s.creations|
    ensures TableOk(Step(s, i).table)
    ensures |RowsOf(Step(s, i).table, user)| == |RowsOf(s.table, user)| + (if Inserts(s, i, user) then 1 else 0)
  {
    var c := s.creations[i];
    if c.phase.Ordered? && !HasPair(s.table, c.user, c.base, c.code) {
      Inserted(s.table, c, c.phase.order, user);
      assert s.table.nextIdx !in RowsOf(s.table, user);
    } else {
      assert Step(s, i).table == s.table;
    }
  }

  /** Who passes the count meets nine rows at most, and who inserts is cleared no more. */
  lemma ClearedCount(s: State, i: nat, user: int)
    requires i < |s.creations|
    ensures |Cleared(Step(s, i), user)| <= |Cleared(s, user)| + 1
    ensures |Cleared(Step(s, i), user)| > |Cleared(s, user)| ==>
        |RowsOf(s.table, user)| < MAX_PAIR_COUNT && !Inserts(s, i, user)
    ensures Inserts(s, i, user) ==> |Cleared(Step(s, i), user)| == |Cleared(s, user)| - 1
  {
    ClearedMoves(s, i, user);
    OneLess(Cleared(Step(s, i), user), Cleared(s, user), i);
  }

  lemma CountedStep(s: State, i: nat, user: int, most: nat)
    requires TableOk(s.table) && i < |s.creations| && |Cleared(Step(s, i), user)| <= most
    requires |RowsOf(s.table, user)| + |Cleared(s, user)| <= MAX_PAIR_COUNT - 1 + most
    ensures TableOk(Step(s, i).table)
    ensures |RowsOf(Step(s, i).table, user)| + |Cleared(Step(s, i), user)| <= MAX_PAIR_COUNT - 1 + most
  {
    RowsMove(s, i, user);
    ClearedCount(s, i, user);
  }

  lemma {:induction false} CountedRun(s: State, order: seq<nat>, user: int, most: nat)
    requires TableOk(s.table) && Schedule(s, order) && AtMostCleared(s, order, user, most)
    requires |RowsOf(s.table, user)| + |Cleared(s, user)| <= MAX_PAIR_COUNT - 1 + most
    ensures |RowsOf(Run(s, order).table, user)| <= MAX_PAIR_COUNT - 1 + most
    decreases |order|
  {
    if order != [] {
      assert forall j :: 0 <= j < |order| - 1 ==> order[1..][j] == order[j + 1];
      CountedStep(s, order[0], user, most);
      CountedRun(Step(s, order[0]), order[1..], user, most);
    }
  }

  /**
   With `most` creations at once between count and insert a user gets `9 + most` rows at most: ten
   if there is but one.
  */
  lemma OverlapBoundsRows(s: State, order: seq<nat>, user: int, most: nat)
    requires TableOk(s.table) && |RowsOf(s.table, user)| <= MAX_PAIR_COUNT && AllBegin(s) && Schedule(s, order)
    requires most >= 1 && AtMostCleared(s, order, user, most)
    ensures |RowsOf(Run(s, order).table, user)| <= 9 + most
  {
    assert Cleared(s, user) == {};
    CountedRun(s, order, user, most);
  }

  /** Two creations that overlap tie and can exceed the limit: from nine rows they make eleven. */
  lemma TwoOverlap(t: Table, user: int, base: string, code: string, other: string) returns (s: State, order: seq<nat>)
    requires TableOk(t) && |RowsOf(t, user)| < MAX_PAIR_COUNT && code != other
    requires !HasPair(t, user, base, code) && !HasPair(t, user, base, other)
    ensures s.table == t && AllBegin(s) && |s.creations| == 2 && Schedule(s, order)
    ensures |RowsOf(Run(s, order).table, user)| == |RowsOf(t, user)| + 2 && !Distinct(Run(s, order).table, user)
  {
    s := State(t, [Creation(user, base, code, Begun), Creation(user, base, other, Begun)]);
    order := [0, 0, 0, 1, 1, 1] + [0, 1];
    var read := BothRead(s);
    BothInsert(read, user);
    ReadFirst(s, [0, 1]);
  }

  /** Two inserts with one order. */
  lemma BothInsert(s: State, user: int)
    requires TableOk(s.table) && |s.creations| == 2
    requires s.creations[0].user == s.creations[1].user == user && s.creations[0].code != s.creations[1].code
    requires s.creations[0].phase.Ordered? && s.creations[0].phase == s.creations[1].phase
    requires !HasPair(s.table, user, s.creations[0].base, s.creations[0].code)
    requires !HasPair(s.table, user, s.creations[1].base, s.creations[1].code)
    ensures Schedule(s, [0, 1])
    ensures var t := Run(s, [0, 1]).table; |RowsOf(t, user)| == |RowsOf(s.table, user)| + 2 && !Distinct(t, user)
  {
    var c, d, t := s.creations[0], s.creations[1], s.table;
    var one := Step(s, 0);
    Inserted(t, c, c.phase.order, user);
    assert one.table == Insert(t, c, c.phase.order) && one.creations[1] == d;
    assert !HasPair(one.table, user, d.base, d.code);
    var two := Step(one, 1);
    Inserted(one.table, d, d.phase.order, user);
    assert two.table == Insert(one.table, d, d.phase.order);
    assert t.nextIdx in RowsOf(two.table, user) && t.nextIdx + 1 in RowsOf(two.table, user);
    RunStep(one, 1, []);
    RunStep(s, 0, [1]);
    assert [0] + [1] == [0, 1] && [1] + [] == [1];
  }

  /** Both creations before their inserts. */
  lemma BothRead(s: State) returns (read: State)
    requires |s.creations| == 2 && AllBegin(s)
    requires forall i :: 0 <= i < 2 ==> var c := s.creations[i];
      !HasPair(s.table, c.user, c.base, c.code) && |RowsOf(s.table, c.user)| < MAX_PAIR_COUNT
    ensures read == Step(Step(Step(Step(Step(Step(s, 0), 0), 0), 1), 1), 1)
    ensures read.table == s.table && |read.creations| == 2
    ensures forall i :: 0 <= i < 2 ==>
      read.creations[i] == s.creations[i].(phase := Ordered(NextOrder(s.table, s.creations[i].user)))
  {
    var a := Step(Step(Step(s, 0), 0), 0);
    assert a.table == s.table && a.creations[0].phase == Ordered(NextOrder(s.table, s.creations[0].user));
    assert a.creations[1] == s.creations[1];
    read := Step(Step(Step(a, 1), 1), 1);
  }

  lemma ReadFirst(s: State, rest: seq<nat>)
    requires |s.creations| == 2 && Schedule(s, rest)
    ensures Schedule(s, [0, 0, 0, 1, 1, 1] + rest)
    ensures Run(s, [0, 0, 0, 1, 1, 1] + rest) == Run(Step(Step(Step(Step(Step(Step(s, 0), 0), 0), 1), 1), 1), rest)
  {
    var a := Step(Step(Step(s, 0), 0), 0);
    ThreeSteps(a, 1, rest);
    ThreeSteps(s, 0, [1, 1, 1] + rest);
    assert [0, 0, 0] + ([1, 1, 1] + rest) == [0, 0, 0, 1, 1, 1] + rest;
  }

  lemma ThreeSteps(s: State, i: nat, rest: seq<nat>)
    requires i < |s.creations| && Schedule(s, rest)
    ensures Schedule(s, [i, i, i] + rest)
    ensures Run(s, [i, i, i] + rest) == Run(Step(Step(Step(s, i), i), i), rest)
  {
    RunStep(Step(Step(s, i), i), i, rest);
    RunStep(Step(s, i), i, [i] + rest);
    RunStep(s, i, [i] + ([i] + rest));
    assert [i] + ([i] + ([i] + rest)) == [i, i, i] + rest;
  }
}

/**
 The table of daily rates, unique by currency pair and date, and the services that fill it.
 A date is the number of days since 1970-01-01, a timestamp is in milliseconds, and local time
 is UTC. The rates of an API reply are positive.
*/
module DailyRates {
  import opened Options

  type Rate = r: real | r > 0.0 witness 1.0

  datatype Key = Key(base: string, code: string, date: int)

  datatype Entry = Entry(key: Key, rate: real)

  type Table = map<Key, real>

  // ---------------------------------------------------------------- dates

  /** `getDatesBetween`: the midnights of consecutive days, one for each whole day that fits. */
  method GetDatesBetween(startedAt: int, endedAt: int) returns (dates: seq<int>)
    ensures |dates| == if startedAt <= endedAt then (endedAt - startedAt) / DAY + 1 else 0
    ensures forall i :: 0 <= i < |dates| ==> dates[i] == (startedAt / DAY + i) * DAY
  {
    dates := [];
    var currentDate := startedAt;
    while currentDate <= endedAt
      invariant currentDate == startedAt + |dates| * DAY
      invariant |dates| > 0 ==> currentDate - DAY <= endedAt
      invariant forall i :: 0 <= i < |dates| ==> dates[i] == (startedAt / DAY + i) * DAY
      decreases endedAt - currentDate
    {
      assert currentDate / DAY == startedAt / DAY + |dates|;
      dates := dates + [currentDate / DAY * DAY];
      currentDate := currentDate + DAY;
    }
  }

  /** 0 is Sunday; 1970-01-01 was a Thursday. */
  function Weekday(date: int): nat {
    (date + 4) % 7
  }

  predicate MarketOpenOn(date: int) {
    1 <= Weekday(date) <= 5
  }

  /**
   The calendar: 1970-01-01, date 0, was a Thursday, so the Saturdays and Sundays are the dates that
   are 2 and 3 modulo 7, before 1970 as well.
  */
  lemma MarketIsClosedAtWeekends(date: int)
    ensures Weekday(0) == 4 && Weekday(date + 1) == (Weekday(date) + 1) % 7
    ensures MarketOpenOn(date) <==> date % 7 != 2 && date % 7 != 3
  {
  }

  /** `getLastMarketDay`: the latest day before today on which the market was open. */
  method GetLastMarketDay(now: int) returns (date: int)
    ensures date < now / DAY && MarketOpenOn(date)
    ensures forall d :: date < d < now / DAY ==> !MarketOpenOn(d)
    // three days back on a Monday, two on a Sunday, else one
    ensures var today := now / 86400000;
      date == today - (if today % 7 == 4 then 3 else if today % 7 == 3 then 2 else 1)
  {
    var today := now / DAY;
    var day := Weekday(today);
    var offset := 1;
    if day == 0 {
      offset := 2;
    } else if day == 1 {
      offset := 3;
    }
    return today - offset;
  }

  // ---------------------------------------------------------------- the repository

  /** INSERT ... ON CONFLICT DO NOTHING, row by row. */
  function SaveAll(t: Table, rows: seq<Entry>): Table
    decreases |rows|
  {
    if rows == [] then t
    else
      var rest, row := SaveAll(t, rows[..|rows| - 1]), rows[|rows| - 1];
      if row.key in rest then rest else rest[row.key := row.rate]
  }

  /** The rows of one pair between two dates, ascending. */
  function FindAll(t: Table, base: string, code: string, first: int, last: int): seq<Entry>
    decreases last - first + 1
  {
    if first > last then []
    else
      var key := Key(base, code, first);
      (if key in t then [Entry(key, t[key])] else []) + FindAll(t, base, code, first + 1, last)
  }

  lemma {:induction false} SavedExactly(t: Table, rows: seq<Entry>)
    ensures forall key :: key in t ==> key in SaveAll(t, rows) && SaveAll(t, rows)[key] == t[key]
    ensures forall key :: key in SaveAll(t, rows) <==> key in t || exists i :: 0 <= i < |rows| && rows[i].key == key
    ensures forall key :: key in SaveAll(t, rows) && key !in t ==>
      exists i :: 0 <= i < |rows| && rows[i] == Entry(key, SaveAll(t, rows)[key])
    decreases |rows|
  {
    if rows != [] {
      var init, row := rows[..|rows| - 1], rows[|rows| - 1];
      SavedExactly(t, init);
      forall key ensures key in SaveAll(t, rows) <==> key in t || exists i :: 0 <= i < |rows| && rows[i].key == key {
        if i :| 0 <= i < |init| && init[i].key == key { assert rows[i].key == key; }
        if i :| 0 <= i < |rows| && rows[i].key == key { assert i == |rows| - 1 || init[i].key == key; }
      }
      forall key | key in SaveAll(t, rows) && key !in t
        ensures exists i :: 0 <= i < |rows| && rows[i] == Entry(key, SaveAll(t, rows)[key])
      {
        if key in SaveAll(t, init) {
          var i :| 0 <= i < |init| && init[i] == Entry(key, SaveAll(t, init)[key]);
          assert rows[i] == init[i];
        } else {
          assert rows[|rows| - 1] == Entry(key, SaveAll(t, rows)[key]);
        }
      }
    }
  }

  /** Saving rows whose keys are all taken changes nothing. */
  lemma {:induction false} NothingToSave(t: Table, rows: seq<Entry>)
    requires forall i :: 0 <= i < |rows| ==> rows[i].key in t
    ensures SaveAll(t, rows) == t
    decreases |rows|
  {
    if rows != [] {
      NothingToSave(t, rows[..|rows| - 1]);
    }
  }

  /** Repeating a save is no save: the daily aggregation may run twice. */
  lemma AggregationIsIdempotent(t: Table, rows: seq<Entry>)
    ensures SaveAll(SaveAll(t, rows), rows) == SaveAll(t, rows)
  {
    SavedExactly(t, rows);
    NothingToSave(SaveAll(t, rows), rows);
  }

  predicate Missing(t: Table, base: string, code: string, date: int) {
    Key(base, code, date) !in t
  }

  predicate Complete(t: Table, base: string, code: string, first: int, last: int) {
    forall d :: first <= d <= last ==> !Missing(t, base, code, d)
  }

  /** A dense range gives one row per date, in order. */
  lemma {:induction false} DenseRange(t: Table, base: string, code: string, first: int, last: int)
    requires Complete(t, base, code, first, last)
    ensures var found := FindAll(t, base, code, first, last);
      && |found| == (if first <= last then last - first + 1 else 0)
      && forall i :: 0 <= i < |found| ==>
           found[i].key == Key(base, code, first + i) && found[i].key in t && found[i].rate == t[found[i].key]
    decreases last - first + 1
  {
    if first <= last {
      assert !Missing(t, base, code, first);
      DenseRange(t, base, code, first + 1, last);
      var found, rest := FindAll(t, base, code, first, last), FindAll(t, base, code, first + 1, last);
      assert forall i :: 1 <= i < |found| ==> found[i] == rest[i - 1];
    }
  }

  predicate Lists(found: seq<Entry>, date: int) {
    exists i :: 0 <= i < |found| && found[i].key.date == date
  }

  /** Whatever is found is a row of the pair within the range, with its rate, in strictly ascending order. */
  lemma {:induction false} FoundInOrder(t: Table, base: string, code: string, first: int, last: int)
    ensures forall i :: 0 <= i < |FindAll(t, base, code, first, last)| ==>
      var e := FindAll(t, base, code, first, last)[i];
      e.key == Key(base, code, e.key.date) && first <= e.key.date <= last && e.key in t && e.rate == t[e.key]
    ensures forall i, j :: 0 <= i < j < |FindAll(t, base, code, first, last)| ==>
      FindAll(t, base, code, first, last)[i].key.date < FindAll(t, base, code, first, last)[j].key.date
    decreases last - first + 1
  {
    if first <= last {
      FoundInOrder(t, base, code, first + 1, last);
      var found, rest := FindAll(t, base, code, first, last), FindAll(t, base, code, first + 1, last);
      var skip := |found| - |rest|;
      assert forall i :: skip <= i < |found| ==> found[i] == rest[i - skip];
    }
  }

  lemma ListsFirst(e: Entry, rest: seq<Entry>, date: int)
    ensures Lists([e] + rest, date) <==> e.key.date == date || Lists(rest, date)
  {
    var found := [e] + rest;
    assert found[0] == e;
    if i :| 0 <= i < |rest| && rest[i].key.date == date { assert found[i + 1].key.date == date; }
    if i :| 1 <= i < |found| && found[i].key.date == date { assert rest[i - 1].key.date == date; }
  }

  /** The rows found are those of the dates in range that the table has. */
  lemma {:induction false} FoundExactly(t: Table, base: string, code: string, first: int, last: int, date: int)
    ensures Lists(FindAll(t, base, code, first, last), date) <==> first <= date <= last && Key(base, code, date) in t
    decreases last - first + 1
  {
    if first <= last {
      FoundExactly(t, base, code, first + 1, last, date);
      var key := Key(base, code, first);
      if key in t {
        ListsFirst(Entry(key, t[key]), FindAll(t, base, code, first + 1, last), date);
      } else {
        assert FindAll(t, base, code, first, last) == FindAll(t, base, code, first + 1, last);
      }
    }
  }

  class ExchangeRateDailyRepository {
    var rows: Table

    constructor ()
      ensures rows == map[]
    {
      rows := map[];
    }

    method SaveDailyRates(input: seq<Entry>)
      modifies this
      ensures rows == SaveAll(old(rows), input)
    {
      for i := 0 to |input|
        invariant rows == SaveAll(old(rows), input[..i])
      {
        assert input[..i + 1][..i] == input[..i];
        if input[i].key !in rows {
          rows := rows[input[i].key := input[i].rate];
        }
      }
      assert input[..|input|] == input;
    }

    method FindDailyRates(base: string, code: string, startedAt: int, endedAt: int) returns (found: seq<Entry>)
      ensures found == FindAll(rows, base, code, startedAt, endedAt)
    {
      found := [];
      var date := endedAt;
      while date >= startedAt
        invariant startedAt - 1 <= date <= endedAt || endedAt < startedAt
        invariant date < startedAt ==> found == FindAll(rows, base, code, startedAt, endedAt)
        invariant startedAt <= date ==> found == FindAll(rows, base, code, date + 1, endedAt)
        decreases date - startedAt
      {
        var key := Key(base, code, date);
        if key in rows {
          found := [Entry(key, rows[key])] + found;
        }
        date := date - 1;
      }
    }
  }

  // ---------------------------------------------------------------- history

  datatype History = History(rows: seq<Entry>, ok: bool, apiCalled: bool)

  function Prepare(base: string, code: string, dates: seq<int>, reply: map<int, Rate>): seq<Entry>
    requires forall j :: 0 <= j < |dates| ==> dates[j] in reply
  {
    seq(|dates|, j requires 0 <= j < |dates| => Entry(Key(base, code, dates[j]), 1.0 / reply[dates[j]]))
  }

  /** What a save of prepared rows adds, and what it leaves. */
  lemma PreparedFill(t: Table, base: string, code: string, dates: seq<int>, reply: map<int, Rate>)
    requires forall j :: 0 <= j < |dates| ==> dates[j] in reply
    ensures var filled := SaveAll(t, Prepare(base, code, dates, reply));
      && (forall key :: key in t ==> key in filled && filled[key] == t[key])
      && (forall d :: d in dates ==> Key(base, code, d) in filled)
      && (forall key :: key in filled && key !in t ==>
            key == Key(base, code, key.date) && key.date in dates && key.date in reply
                && filled[key] == 1.0 / reply[key.date])
  {
    var input := Prepare(base, code, dates, reply);
    var filled := SaveAll(t, input);
    SavedExactly(t, input);
    forall d | d in dates ensures Key(base, code, d) in filled {
      var j :| 0 <= j < |dates| && dates[j] == d;
      assert input[j].key == Key(base, code, d);
    }
    forall key | key in filled && key !in t
      ensures key == Key(base, code, key.date) && key.date in dates && key.date in reply
      ensures filled[key] == 1.0 / reply[key.date]
    {
      var i :| 0 <= i < |input| && input[i] == Entry(key, filled[key]);
      assert dates[i] in dates;
    }
  }

  /**
   How the database compares a lower bound that has a time of day with the dates of the table: by
   the date of the bound, or by its instant. For an upper bound it makes no difference.
  */
  datatype Reading = ByDate | ByInstant

  function FirstDate(reading: Reading, startedAt: int): int {
    if reading.ByDate? then startedAt / DAY else (startedAt + DAY - 1) / DAY
  }

  /** The last date that `getDatesBetween` gives: it steps by whole days from the start. */
  function LastAsked(startedAt: int, endedAt: int): int {
    if startedAt <= endedAt then startedAt / DAY + (endedAt - startedAt) / DAY else startedAt / DAY - 1
  }

  /** A date that the service takes for missing: it is not in the table, or the query did not look for it. */
  predicate Unseen(t: Table, base: string, code: string, reading: Reading, startedAt: int, date: int) {
    date < FirstDate(reading, startedAt) || Missing(t, base, code, date)
  }

  predicate AllSeen(t: Table, base: string, code: string, reading: Reading, startedAt: int, endedAt: int) {
    forall d :: startedAt / DAY <= d <= LastAsked(startedAt, endedAt) ==> !Unseen(t, base, code, reading, startedAt, d)
  }

  /** The reply gives a rate for every date that is taken for missing. */
  predicate Covers(t: Table, base: string, code: string, reading: Reading, startedAt: int, endedAt: int,
      reply: map<int, Rate>) {
    forall d ::
      (&& startedAt / DAY <= d <= LastAsked(startedAt, endedAt)
       && Unseen(t, base, code, reading, startedAt, d)) ==>
      d in reply
  }

  /** `rows` has one row for each date of a range, ascending. */
  predicate OneRowPerDate(rows: seq<Entry>, base: string, code: string, first: int, last: int) {
    && |rows| == (if first <= last then last - first + 1 else 0)
    && forall i :: 0 <= i < |rows| ==> rows[i].key == Key(base, code, first + i)
  }

  lemma OneRowExactlyWhenComplete(t: Table, base: string, code: string, first: int, last: int)
    ensures OneRowPerDate(FindAll(t, base, code, first, last), base, code, first, last)
        <==> Complete(t, base, code, first, last)
  {
    var found := FindAll(t, base, code, first, last);
    if Complete(t, base, code, first, last) {
      DenseRange(t, base, code, first, last);
    } else if OneRowPerDate(found, base, code, first, last) {
      forall d | first <= d <= last ensures !Missing(t, base, code, d) {
        assert found[d - first].key.date == d;
        FoundExactly(t, base, code, first, last, d);
      }
    }
  }

  /**
   The dates asked for fill the range read, but for the last one where the end is earlier in its day
   than the start.
  */
  lemma AskedCoversRead(t: Table, t': Table, base: string, code: string, reading: Reading, startedAt: int, endedAt: int)
    requires Complete(t', base, code, startedAt / DAY, LastAsked(startedAt, endedAt))
    requires forall key :: key in t ==> key in t'
    requires forall key :: key in t' && key !in t ==> startedAt / DAY <= key.date <= LastAsked(startedAt, endedAt)
    ensures var first, last := FirstDate(reading, startedAt), endedAt / DAY;
      Complete(t', base, code, first, last)
      <==> last < first || startedAt % DAY <= endedAt % DAY || !Missing(t, base, code, last)
  {
    var first, last := FirstDate(reading, startedAt), endedAt / DAY;
    assert startedAt / DAY <= first <= startedAt / DAY + 1;
    if startedAt % DAY <= endedAt % DAY {
      assert startedAt <= endedAt ==> LastAsked(startedAt, endedAt) == last;
      assert startedAt > endedAt ==> last < first;
    } else if startedAt <= endedAt {
      assert LastAsked(startedAt, endedAt) == last - 1;
      assert Missing(t, base, code, last) <==> Missing(t', base, code, last);
    } else {
      assert Missing(t, base, code, last) <==> Missing(t', base, code, last);
    }
  }

  class HistoryService {
    const repository: ExchangeRateDailyRepository

    constructor (repository: ExchangeRateDailyRepository)
      ensures this.repository == repository
    {
      this.repository := repository;
    }

    /**
     `getHistoricalRates`. The reply is what the API would answer; it fails, or lacks a date, and
     then the call fails before anything is saved.
    */
    method GetHistoricalRates(base: string, code: string, startedAt: int, endedAt: int, reading: Reading,
        reply: Option<map<int, Rate>>)
      returns (history: History)
      modifies repository
      ensures history.apiCalled <==> !AllSeen(old(repository.rows), base, code, reading, startedAt, endedAt)
      ensures history.ok <==>
        !history.apiCalled || (reply.Some? && Covers(old(repository.rows), base, code, reading, startedAt, endedAt,
            reply.value))
      ensures !history.ok || !history.apiCalled ==> repository.rows == old(repository.rows)
      ensures history.ok ==> history.rows == FindAll(repository.rows, base, code, FirstDate(reading, startedAt),
          endedAt / DAY)
      ensures history.ok ==> Complete(repository.rows, base, code, startedAt / DAY, LastAsked(startedAt, endedAt))
      // one row per date, ascending, but for a last date that was not asked for
      ensures history.ok ==>
        (OneRowPerDate(history.rows, base, code, FirstDate(reading, startedAt), endedAt / DAY)
         <==> endedAt / DAY < FirstDate(reading, startedAt) || startedAt % DAY <= endedAt % DAY
              || !Missing(old(repository.rows), base, code, endedAt / DAY))
      // the old rows as they were, the missing ones from the reply, and no others
      ensures forall key :: key in old(repository.rows) ==>
          && key in repository.rows
          && repository.rows[key] == old(repository.rows)[key]
      ensures forall key :: key in repository.rows && key !in old(repository.rows) ==>
        && key == Key(base, code, key.date) && startedAt / DAY <= key.date <= LastAsked(startedAt, endedAt)
        && reply.Some? && key.date in reply.value && repository.rows[key] == 1.0 / reply.value[key.date]
    {
      var t := repository.rows;
      var first, last := FirstDate(reading, startedAt), endedAt / DAY;
      var historicalData := repository.FindDailyRates(base, code, first, last);
      var missingDates := FindMissingDates(base, code, startedAt, endedAt, reading, historicalData);
      if |missingDates| == 0 {
        forall d | startedAt / DAY <= d <= LastAsked(startedAt, endedAt) ensures !Missing(t, base, code, d) {
          assert !Unseen(t, base, code, reading, startedAt, d);
        }
        AskedCoversRead(t, t, base, code, reading, startedAt, endedAt);
        OneRowExactlyWhenComplete(t, base, code, first, last);
        return History(historicalData, true, false);
      }
      assert missingDates[0] in missingDates && Unseen(t, base, code, reading, startedAt, missingDates[0]);
      if reply.None? || exists j :: 0 <= j < |missingDates| && missingDates[j] !in reply.value {
        if reply.Some? {
          var j :| 0 <= j < |missingDates| && missingDates[j] !in reply.value;
          assert missingDates[j] in missingDates && Unseen(t, base, code, reading, startedAt, missingDates[j]);
        }
        return History([], false, true);
      }
      repository.SaveDailyRates(Prepare(base, code, missingDates, reply.value));
      PreparedFill(t, base, code, missingDates, reply.value);
      AskedCoversRead(t, repository.rows, base, code, reading, startedAt, endedAt);
      OneRowExactlyWhenComplete(repository.rows, base, code, first, last);
      var filled := repository.FindDailyRates(base, code, first, last);
      return History(filled, true, true);
    }

    /** The dates between the bounds that the rows found do not list. */
    method FindMissingDates(base: string, code: string, startedAt: int, endedAt: int, reading: Reading,
        historicalData: seq<Entry>)
      returns (missingDates: seq<int>)
      requires historicalData == FindAll(repository.rows, base, code, FirstDate(reading, startedAt), endedAt / DAY)
      ensures forall d :: d in missingDates <==>
        startedAt / DAY <= d <= LastAsked(startedAt, endedAt)
            && Unseen(repository.rows, base, code, reading, startedAt, d)
    {
      var dates := GetDatesBetween(startedAt, endedAt);
      var first := startedAt / DAY;
      assert |dates| == LastAsked(startedAt, endedAt) - first + 1;
      missingDates := [];
      for i := 0 to |dates|
        invariant forall d :: d in missingDates <==>
          first <= d < first + i && Unseen(repository.rows, base, code, reading, startedAt, d)
      {
        var date := dates[i] / DAY;
        FoundExactly(repository.rows, base, code, FirstDate(reading, startedAt), endedAt / DAY, date);
        if !Lists(historicalData, date) {
          missingDates := missingDates + [date];
        }
      }
    }

    /**
     After a call that succeeded, the same call asks the API again if and only if the bounds are in
     order and the database reads a start within a day by its instant: the first day is never
     found then, although it is there. The rows are the same in any case.
    */
    method AskTwice(base: string, code: string, startedAt: int, endedAt: int, reading: Reading,
        reply: Option<map<int, Rate>>, later: Option<map<int, Rate>>)
      returns (once: History, twice: History)
      modifies repository
      ensures once.ok ==>
        (twice.apiCalled <==> startedAt <= endedAt && reading.ByInstant? && startedAt % DAY != 0)
      ensures once.ok && twice.ok ==> twice.rows == once.rows
      ensures once.ok && !twice.apiCalled ==> twice.ok
    {
      once := GetHistoricalRates(base, code, startedAt, endedAt, reading, reply);
      ghost var t := repository.rows;
      assert startedAt / DAY <= FirstDate(reading, startedAt) <= startedAt / DAY + 1;
      assert startedAt <= endedAt ==> startedAt / DAY <= LastAsked(startedAt, endedAt);
      assert once.ok && AllSeen(t, base, code, reading, startedAt, endedAt) ==>
        startedAt > endedAt || !Unseen(t, base, code, reading, startedAt, startedAt / DAY);
      twice := GetHistoricalRates(base, code, startedAt, endedAt, reading, later);
      if once.ok && twice.ok {
        forall key | key in repository.rows ensures key in t {
          assert key !in t ==> !Missing(t, base, code, key.date);
        }
        assert repository.rows == t;
      }
    }

    /**
     `calculateDailyRates`: every currency of the reply gets its closing rate under the start date
     unless it has one, in whatever order the reply lists them.
    */
    method CalculateDailyRates(startDate: int, closing: map<string, real>)
      modifies repository
      ensures Aggregated(old(repository.rows), startDate, closing, repository.rows)
    {
      var dailyRecords: seq<Entry> := [];
      var codes := closing.Keys;
      while codes != {}
        invariant codes <= closing.Keys && repository.rows == old(repository.rows)
        invariant forall i :: 0 <= i < |dailyRecords| ==> Closes(dailyRecords[i], startDate, closing)
        invariant forall code :: code in closing && code !in codes ==>
            Entry(Key("KRW", code, startDate), closing[code]) in dailyRecords
        decreases codes
      {
        var code :| code in codes;
        dailyRecords := dailyRecords + [Entry(Key("KRW", code, startDate), closing[code])];
        codes := codes - {code};
      }
      SavedExactly(repository.rows, dailyRecords);
      repository.SaveDailyRates(dailyRecords);
      forall code | code in closing ensures Key("KRW", code, startDate) in repository.rows {
        var i :| 0 <= i < |dailyRecords| && dailyRecords[i] == Entry(Key("KRW", code, startDate), closing[code]);
      }
    }
  }

  predicate Closes(e: Entry, startDate: int, closing: map<string, real>) {
    e.key == Key("KRW", e.key.code, startDate) && e.key.code in closing && e.rate == closing[e.key.code]
  }

  /** The old rows as they were, and exactly the currencies of the reply under the start date. */
  ghost predicate Aggregated(t: Table, startDate: int, closing: map<string, real>, t': Table) {
    && (forall key :: key in t' <==> key in t || (key == Key("KRW", key.code, startDate) && key.code in closing))
    && (forall key :: key in t' ==> t'[key] == if key in t then t[key] else closing[key.code])
  }

  /** A second aggregation of the same day changes nothing, whatever rates its reply has for the same currencies. */
  lemma SecondAggregationIsIdle(t: Table, startDate: int, closing: map<string, real>, t1: Table, later: map<string,
      real>, t2: Table)
    requires Aggregated(t, startDate, closing, t1) && Aggregated(t1, startDate, later, t2)
    ensures t2 == t1 <==> forall code :: code in later ==> code in closing || Key("KRW", code, startDate) in t
  {
    if code :| code in later && code !in closing && Key("KRW", code, startDate) !in t {
      var key := Key("KRW", code, startDate);
      assert key in t2 && key !in t1;
    }
  }
}

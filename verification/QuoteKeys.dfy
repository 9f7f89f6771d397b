/**
 The quote keys of CurrencyLayer: source and target currency in one string, and the parsers that
 take the source out again with `pair.replace(source, '')`.
*/
module QuoteKeys {
  import opened Options

  predicate StartsAt(text: string, part: string, i: nat) {
    i + |part| <= |text| && text[i..i + |part|] == part
  }

  /** The first place at which `part` occurs. */
  function IndexOf(text: string, part: string, from: nat): (i: Option<nat>)
    requires from <= |text|
    ensures i.Some? ==> from <= i.value && StartsAt(text, part, i.value)
    ensures forall j :: from <= j <= |text| && (i.Some? ==> j < i.value) ==> !StartsAt(text, part, j)
    decreases |text| - from
  {
    if StartsAt(text, part, from) then Some(from)
    else if from == |text| then None
    else IndexOf(text, part, from + 1)
  }

  /** `text.replace(part, '')`: only the first occurrence goes. */
  function RemoveFirst(text: string, part: string): string {
    var i := IndexOf(text, part, 0);
    if i.None? then text else text[..i.value] + text[i.value + |part|..]
  }

  /** What stands around the first occurrence stays, and a text without one stays as it is. */
  lemma RemovesFirstOnly(before: string, part: string, after: string)
    ensures var text := before + part + after;
      (forall i :: 0 <= i < |before| ==> !StartsAt(text, part, i)) ==> RemoveFirst(text, part) == before + after
    ensures var text := before + after;
      (forall i :: 0 <= i <= |text| ==> !StartsAt(text, part, i)) ==> RemoveFirst(text, part) == text
  {
    var text := before + part + after;
    if forall i :: 0 <= i < |before| ==> !StartsAt(text, part, i) {
      assert StartsAt(text, part, |before|);
      assert IndexOf(text, part, 0) == Some(|before|);
      assert text[..|before|] == before && text[|before| + |part|..] == after;
    }
  }

  /** The source stands at the front of a key, and that is its first occurrence, whatever the target contains. */
  lemma KeyParses(source: string, target: string)
    ensures RemoveFirst(source + target, source) == target
    ensures (source + target)[|source|..] == target
  {
    assert StartsAt(source + target, source, 0);
  }

  /** `Object.fromEntries`: the last entry of a key wins. */
  function FromEntries<V>(entries: seq<(string, V)>): map<string, V>
    decreases |entries|
  {
    if entries == [] then map[]
    else FromEntries(entries[..|entries| - 1])[entries[|entries| - 1].0 := entries[|entries| - 1].1]
  }

  /** The entries of an object, each key once, in whatever order the object has them. */
  ghost predicate Enumerates<V>(entries: seq<(string, V)>, object_: map<string, V>) {
    && (forall i, j :: 0 <= i < j < |entries| ==> entries[i].0 != entries[j].0)
    && (forall i :: 0 <= i < |entries| ==> entries[i].0 in object_ && object_[entries[i].0] == entries[i].1)
    && (forall key :: key in object_ ==> (key, object_[key]) in entries)
  }

  /** The entries with the source taken out of every key: the parser before `fromEntries`. */
  function Strip<V>(source: string, entries: seq<(string, V)>): seq<(string, V)> {
    seq(|entries|, i requires 0 <= i < |entries| => (RemoveFirst(entries[i].0, source), entries[i].1))
  }

  function Parse<V>(source: string, entries: seq<(string, V)>): map<string, V> {
    FromEntries(Strip(source, entries))
  }

  /** The quotes that stand for some rates. */
  ghost predicate Quotes<V>(source: string, rates: map<string, V>, quotes: map<string, V>) {
    && (forall target :: target in rates ==> source + target in quotes && quotes[source + target] == rates[target])
    && (forall key :: key in quotes ==> StartsAt(key, source, 0) && key[|source|..] in rates)
  }

  /** The mock API: one quote for each target, the last value where a target comes twice. */
  method BuildQuotes<V>(source: string, targets: seq<string>, values: seq<V>) returns (quotes: map<string, V>)
    requires |values| == |targets|
    ensures Quotes(source, FromEntries(Entries(targets, values)), quotes)
  {
    quotes := map[];
    ghost var rates: map<string, V> := map[];
    ghost var entries := Entries(targets, values);
    for i := 0 to |targets|
      invariant rates == FromEntries(entries[..i])
      invariant Quotes(source, rates, quotes)
    {
      assert entries[..i + 1][..i] == entries[..i];
      forall target | source + target == source + targets[i] ensures target == targets[i] {
        assert target == (source + target)[|source|..];
      }
      rates := rates[targets[i] := values[i]];
      quotes := quotes[source + targets[i] := values[i]];
    }
    assert entries[..|targets|] == entries;
  }

  /** The entries of a target list and its values, in the order of the loop. */
  function Entries<V>(targets: seq<string>, values: seq<V>): seq<(string, V)>
    requires |values| == |targets|
  {
    seq(|targets|, i requires 0 <= i < |targets| => (targets[i], values[i]))
  }

  /** The mock time series: the same for every day. */
  method BuildSeries<V>(source: string, targets: seq<string>, dates: seq<string>, values: seq<seq<V>>)
    returns (quotes: map<string, map<string, V>>)
    requires |values| == |dates| && forall i :: 0 <= i < |dates| ==> |values[i]| == |targets|
    requires forall i, j :: 0 <= i < j < |dates| ==> dates[i] != dates[j]
    ensures quotes.Keys == set date | date in dates
    ensures forall i :: 0 <= i < |dates| ==> Quotes(source, FromEntries(Entries(targets, values[i])), quotes[dates[i]])
  {
    quotes := map[];
    for i := 0 to |dates|
      invariant quotes.Keys == set date | date in dates[..i]
      invariant forall k :: 0 <= k < i ==>
          && dates[k] in quotes
          && Quotes(source, FromEntries(Entries(targets, values[k])), quotes[dates[k]])
    {
      var dayQuotes := BuildQuotes(source, targets, values[i]);
      quotes := quotes[dates[i] := dayQuotes];
      assert dates[..i + 1] == dates[..i] + [dates[i]];
    }
    assert dates[..|dates|] == dates;
  }

  lemma {:induction false} FromEntriesExactly<V>(entries: seq<(string, V)>)
    requires forall i, j :: 0 <= i < j < |entries| ==> entries[i].0 != entries[j].0
    ensures forall i :: 0 <= i < |entries| ==>
        && entries[i].0 in FromEntries(entries)
        && FromEntries(entries)[entries[i].0] == entries[i].1
    ensures forall key :: key in FromEntries(entries) ==> exists i :: 0 <= i < |entries| && entries[i].0 == key
    decreases |entries|
  {
    if entries != [] {
      var init, last := entries[..|entries| - 1], entries[|entries| - 1];
      FromEntriesExactly(init);
      forall i | 0 <= i < |entries|
        ensures entries[i].0 in FromEntries(entries) && FromEntries(entries)[entries[i].0] == entries[i].1
      {
        if i < |init| { assert entries[i] == init[i]; }
      }
      forall key | key in FromEntries(entries) ensures exists i :: 0 <= i < |entries| && entries[i].0 == key {
        if key != last.0 {
          assert key in FromEntries(init);
          var i :| 0 <= i < |init| && init[i].0 == key;
          assert entries[i].0 == key;
        } else {
          assert entries[|entries| - 1].0 == key;
        }
      }
    }
  }

  lemma EntryParses<V>(source: string, rates: map<string, V>, quotes: map<string, V>, key: string)
    requires Quotes(source, rates, quotes) && key in quotes
    ensures var target := RemoveFirst(key, source);
      key == source + target && target in rates && quotes[key] == rates[target]
  {
    assert key == source + key[|source|..];
    KeyParses(source, key[|source|..]);
  }

  /** Parsing the quotes of some rates, in any order of the keys, gives the rates back. */
  lemma QuotesRoundTrip<V>(source: string, rates: map<string, V>, quotes: map<string, V>, entries: seq<(string, V)>)
    requires Quotes(source, rates, quotes) && Enumerates(entries, quotes)
    ensures Parse(source, entries) == rates
  {
    var stripped := Strip(source, entries);
    forall i | 0 <= i < |entries|
      ensures stripped[i].0 in rates && stripped[i].1 == rates[stripped[i].0] && entries[i].0 == source + stripped[i].0
    {
      EntryParses(source, rates, quotes, entries[i].0);
    }
    FromEntriesExactly(stripped);
    forall target | target in rates ensures exists i :: 0 <= i < |stripped| && stripped[i].0 == target {
      var i :| 0 <= i < |entries| && entries[i] == (source + target, quotes[source + target]);
      KeyParses(source, target);
      assert stripped[i].0 == target;
    }
    assert Parse(source, entries).Keys == rates.Keys;
  }

  /** The time series: parsed date by date. */
  function ParseSeries<V>(source: string, series: map<string, seq<(string, V)>>): map<string, map<string, V>> {
    map date | date in series :: Parse(source, series[date])
  }

  lemma SeriesRoundTrips<V>(source: string, rates: map<string, map<string, V>>, quotes: map<string, map<string, V>>,
      series: map<string, seq<(string, V)>>)
    requires rates.Keys == quotes.Keys == series.Keys
    requires forall date :: date in rates ==>
        && Quotes(source, rates[date], quotes[date])
        && Enumerates(series[date], quotes[date])
    ensures ParseSeries(source, series) == rates
  {
    forall date | date in rates ensures ParseSeries(source, series)[date] == rates[date] {
      QuotesRoundTrip(source, rates[date], quotes[date], series[date]);
    }
  }

  datatype ChangeQuote = ChangeQuote(startRate: real, endRate: real, change: real, changePct: real)

  /** A change of zero or none at all is replaced by the difference of the rates. */
  function Normalize(q: ChangeQuote): ChangeQuote {
    q.(change := if q.change != 0.0 then q.change else q.endRate - q.startRate)
  }

  function ParseFluctuation(source: string, entries: seq<(string, ChangeQuote)>): map<string, ChangeQuote> {
    FromEntries(seq(|entries|, i requires 0 <= i < |entries| =>
      (RemoveFirst(entries[i].0, source), Normalize(entries[i].1))))
  }

  function NormalizeAll(quotes: map<string, ChangeQuote>): map<string, ChangeQuote> {
    map key | key in quotes :: Normalize(quotes[key])
  }

  function NormalizeEntries(entries: seq<(string, ChangeQuote)>): seq<(string, ChangeQuote)> {
    seq(|entries|, i requires 0 <= i < |entries| => (entries[i].0, Normalize(entries[i].1)))
  }

  lemma EnumeratesNormalized(entries: seq<(string, ChangeQuote)>, quotes: map<string, ChangeQuote>)
    requires Enumerates(entries, quotes)
    ensures Enumerates(NormalizeEntries(entries), NormalizeAll(quotes))
  {
    forall key | key in quotes ensures (key, Normalize(quotes[key])) in NormalizeEntries(entries) {
      var i :| 0 <= i < |entries| && entries[i] == (key, quotes[key]);
      assert NormalizeEntries(entries)[i] == (key, Normalize(quotes[key]));
    }
  }

  lemma StripNormalized(source: string, entries: seq<(string, ChangeQuote)>)
    ensures ParseFluctuation(source, entries) == Parse(source, NormalizeEntries(entries))
  {
    assert Strip(source, NormalizeEntries(entries))
        == seq(|entries|, i requires 0 <= i < |entries| =>
             (RemoveFirst(entries[i].0, source), Normalize(entries[i].1)));
  }

  lemma QuotesNormalized(source: string, rates: map<string, ChangeQuote>, quotes: map<string, ChangeQuote>)
    requires Quotes(source, rates, quotes)
    ensures Quotes(source, NormalizeAll(rates), NormalizeAll(quotes))
  {
  }

  /** The same round trip, with every quote normalised. */
  lemma FluctuationRoundTrip(source: string, rates: map<string, ChangeQuote>, quotes: map<string, ChangeQuote>,
      entries: seq<(string, ChangeQuote)>)
    requires Quotes(source, rates, quotes) && Enumerates(entries, quotes)
    ensures ParseFluctuation(source, entries) == NormalizeAll(rates)
  {
    EnumeratesNormalized(entries, quotes);
    QuotesNormalized(source, rates, quotes);
    QuotesRoundTrip(source, NormalizeAll(rates), NormalizeAll(quotes), NormalizeEntries(entries));
    StripNormalized(source, entries);
  }

  /**
   Field by field: a change that the API rounded to zero is the difference of the rates, and the
   rest is as quoted.
  */
  lemma FluctuationFields(source: string, rates: map<string, ChangeQuote>, quotes: map<string, ChangeQuote>,
      entries: seq<(string, ChangeQuote)>)
    requires Quotes(source, rates, quotes) && Enumerates(entries, quotes)
    ensures var parsed := ParseFluctuation(source, entries);
      && parsed.Keys == rates.Keys
      && forall target :: target in rates ==>
           var given, got := rates[target], parsed[target];
           && got.startRate == given.startRate && got.endRate == given.endRate && got.changePct == given.changePct
           && (given.change != 0.0 ==> got.change == given.change)
           && (given.change == 0.0 ==> got.change == given.endRate - given.startRate)
  {
    FluctuationRoundTrip(source, rates, quotes, entries);
  }

  /** Two keys that begin with the source are parsed to one target if and only if they are one key. */
  lemma KeysCollideExactlyWhenEqual(source: string, a: string, b: string)
    requires StartsAt(a, source, 0) && StartsAt(b, source, 0)
    ensures RemoveFirst(a, source) == RemoveFirst(b, source) <==> a == b
  {
    assert a == source + a[|source|..] && b == source + b[|source|..];
    KeyParses(source, a[|source|..]);
    KeyParses(source, b[|source|..]);
  }
}

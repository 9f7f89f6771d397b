/** The cache-hit branch of `getCurrencyExchangeRates`: a stored rate 1 KRW = r is shown as 1/r KRW. */
module RateReader {
  import opened Options
  import opened RateCache
  import RateRuns
  import RateBounds

  /** A field of the response; None is a number that is not finite. */
  datatype Detail = Detail(rate: Option<real>, dayChange: Option<real>, dayChangePercent: Percent, timestamp: int)

  function Inverse(x: real): Option<real> {
    if x == 0.0 then None else Some(1.0 / x)
  }

  /** `Math.round(x * 10000) / 10000`: the nearest multiple, and of two the greater one. */
  function Round4(x: real): (r: real)
    ensures Abs(r - x) <= 0.00005 && r - x != -0.00005
    ensures exists n: int {:trigger n as real} :: r == n as real / 10000.0
  {
    (x * 10000.0 + 0.5).Floor as real / 10000.0
  }

  /** `Number` of a hash field: a field that is not there counts as zero. */
  function Number(x: Option<real>): real {
    if x.Some? then x.value else 0.0
  }

  function Show(h: Hash, marketOpen: bool): Detail {
    var now, dawn := Inverse(Number(h.rate)), Inverse(Number(h.openRate));
    Detail(
      if now.None? then None else Some(Round4(now.value)),
      if !marketOpen then Some(0.0)
      else if now.None? || dawn.None? then None
      else Some(now.value - dawn.value),
      if marketOpen && h.changePct.Some? then h.changePct.value else Given(0.0),
      if h.timestamp.Some? then h.timestamp.value else 0)
  }

  /** One entry for each code asked for, whatever order the reads are answered in. */
  method ReadCached(cache: map<string, Hash>, codes: seq<string>, marketOpen: bool)
    returns (response: map<string, Detail>)
    ensures forall code :: code in response <==> code in codes
    ensures forall code :: code in codes ==> response[code] == Show(Get(cache, code), marketOpen)
  {
    response := map[];
    for i := 0 to |codes|
      invariant forall code :: code in response <==> code in codes[..i]
      invariant forall code :: code in response ==> response[code] == Show(Get(cache, code), marketOpen)
    {
      response := response[codes[i] := Show(Get(cache, codes[i]), marketOpen)];
    }
  }

  /** The other fields: the percentage as stored where the market is open, and the time of the last event. */
  lemma ShownFields(h: Hash, marketOpen: bool)
    ensures var d := Show(h, marketOpen);
      && (!marketOpen ==> d.dayChange == Some(0.0) && d.dayChangePercent == Given(0.0))
      && (marketOpen && h.changePct.Some? ==> d.dayChangePercent == h.changePct.value)
      && (h.timestamp.Some? ==> d.timestamp == h.timestamp.value)
      && (h.rate.Some? && h.rate.value != 0.0 ==> d.rate == Some(Round4(1.0 / h.rate.value)))
      && (h.rate.None? || h.rate.value == 0.0 ==> d.rate.None? && (marketOpen ==> d.dayChange.None?))
  {
  }

  lemma InverseGap(a: real, b: real)
    requires a > 0.0 && b > 0.0
    ensures 1.0 / a - 1.0 / b == (b - a) / (a * b)
  {
    var c := a * b;
    assert 1.0 / a == b / c by { assert (b / c) * a == b * a / c; }
    assert 1.0 / b == a / c by { assert (a / c) * b == a * b / c; }
  }

  lemma Shrink(d: real, bound: real, c: real)
    requires c > 0.0 && Abs(d) <= bound
    ensures Abs(d / c) <= bound / c
  {
    assert -bound <= d <= bound;
    assert (bound - d) / c >= 0.0 && (bound + d) / c >= 0.0;
  }

  /** The rate shown is within the rounding to 4 places and `bound / (rate * x)` of the inverse of `x`. */
  predicate ShownWithin(h: Hash, marketOpen: bool, x: real, bound: real)
    requires x > 0.0 && h.rate.Some? && h.rate.value > 0.0
  {
    var shown := Show(h, marketOpen).rate;
    shown.Some? && Abs(shown.value - 1.0 / x) <= bound / (h.rate.value * x) + 0.00005
  }

  lemma GapWithin(r: real, x: real, bound: real)
    requires r > 0.0 && x > 0.0 && Abs(x - r) <= bound
    ensures Abs(1.0 / r - 1.0 / x) <= bound / (r * x)
  {
    InverseGap(r, x);
    Shrink(x - r, bound, r * x);
  }

  lemma ShownRateNear(h: Hash, x: real, bound: real, marketOpen: bool)
    requires x > 0.0 && h.rate.Some? && h.rate.value > 0.0 && Abs(x - h.rate.value) <= bound
    ensures ShownWithin(h, marketOpen, x, bound)
  {
    GapWithin(h.rate.value, x, bound);
    ShownRounded(h, marketOpen, x, bound, 1.0 / h.rate.value, 1.0 / x, bound / (h.rate.value * x));
  }

  lemma ShownRounded(h: Hash, marketOpen: bool, x: real, bound: real, inverse: real, goal: real, gap: real)
    requires x > 0.0 && h.rate.Some? && h.rate.value > 0.0
    requires inverse == 1.0 / h.rate.value && goal == 1.0 / x && gap == bound / (h.rate.value * x)
    requires Abs(inverse - goal) <= gap
    ensures ShownWithin(h, marketOpen, x, bound)
  {
    assert Show(h, marketOpen).rate == Some(Round4(inverse));
    Triangle(Round4(inverse), inverse, goal, gap);
  }

  lemma Triangle(a: real, b: real, c: real, d: real)
    requires Abs(a - b) <= 0.00005 && Abs(b - c) <= d
    ensures Abs(a - c) <= d + 0.00005
  {
  }

  /** What rounding the feed to 6 places and the inverse to 4 places can cost together. */
  lemma ShownRateIsClose(feed: real, h: Hash, marketOpen: bool)
    requires feed > 0.0 && h.rate == Some(ToFixed6(feed)) && h.rate.value > 0.0
    ensures ShownWithin(h, marketOpen, feed, 0.0000005)
  {
    ShownRateNear(h, feed, 0.0000005, marketOpen);
  }

  lemma QuotientSign(a: real, c: real)
    requires c > 0.0
    ensures (a / c > 0.0 <==> a > 0.0) && (a / c < 0.0 <==> a < 0.0)
  {
    var q := a / c;
    assert q * c == a;
  }

  /**
   The shown change is that of the inverse rates, against the cached rates. So it has the sign
   opposite to the stored change if and only if the stored change has that of `rate - open`.
  */
  lemma ShownChangeIsInverted(h: Hash)
    requires Warm(h) && h.rate.value > 0.0 && h.openRate.value > 0.0
    ensures var shown, r, open := Show(h, true).dayChange, h.rate.value, h.openRate.value;
      && shown.Some? && shown.value == (open - r) / (r * open)
      && (shown.value < 0.0 <==> r > open) && (shown.value > 0.0 <==> r < open)
      && (h.change.Some? ==> (Opposite(shown.value, h.change.value) <==> Opposite(open - r, h.change.value)))
  {
    var r, open := h.rate.value, h.openRate.value;
    assert Show(h, true).dayChange == Some(1.0 / r - 1.0 / open);
    InverseGap(r, open);
    QuotientSign(open - r, r * open);
  }

  predicate Opposite(a: real, b: real) {
    (a > 0.0 <==> b < 0.0) && (a < 0.0 <==> b > 0.0)
  }

  /**
   After any event of a warm currency the shown rate answers for the price that the feed gave
   within the distance to the opening, the band and the rounding to 6 places.
  */
  lemma ReaderFollowsFeed(code: string, t: RateRuns.WarmTrack, qs: seq<RateRuns.Quote>, feed: real, ts: int,
      marketOpen: bool)
    returns (h: Hash, bound: real)
    requires feed > 0.0
    ensures h == RateRuns.Follow(code, GateOf(code), t, qs + [RateRuns.Quote(ToFixed6(feed), ts)]).hash && Warm(h)
    ensures bound == Abs(h.rate.value - h.openRate.value) + Band(code, h.openRate.value) + 0.0000005
    ensures h.rate.value > 0.0 ==> ShownWithin(h, marketOpen, feed, bound)
  {
    h, bound := CacheNearFeed(code, t, qs, feed, ts);
    if h.rate.value > 0.0 {
      ShownRateNear(h, feed, bound, marketOpen);
    }
  }

  lemma CacheNearFeed(code: string, t: RateRuns.WarmTrack, qs: seq<RateRuns.Quote>, feed: real, ts: int)
    returns (h: Hash, bound: real)
    ensures h == RateRuns.Follow(code, GateOf(code), t, qs + [RateRuns.Quote(ToFixed6(feed), ts)]).hash && Warm(h)
    ensures bound == Abs(h.rate.value - h.openRate.value) + Band(code, h.openRate.value) + 0.0000005
    ensures Abs(feed - h.rate.value) <= bound
  {
    var q := RateRuns.Quote(ToFixed6(feed), ts);
    RateBounds.CacheFollowsFeed(code, t, qs, q);
    h := RateRuns.Follow(code, GateOf(code), t, qs + [q]).hash;
    bound := Abs(h.rate.value - h.openRate.value) + Band(code, h.openRate.value) + 0.0000005;
  }
}

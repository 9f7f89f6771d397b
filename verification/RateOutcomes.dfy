/**
 What an event of the feed, a refill and the roundings do, field by field: the outcomes that the
 specification of the handler promises, with none of its own functions in their statement.
*/
module RateOutcomes {
  import opened Options
  import opened RateCache

  // ---------------------------------------------------------------- the threshold

  /** The price is off the opening rate by more than either threshold of its currency. */
  predicate BeyondBoth(code: string, open: real, price: real) {
    var t := if code in CURRENCY_THRESHOLDS then CURRENCY_THRESHOLDS[code] else Threshold(0.2, 0.0001);
    Abs(price - open) > t.minAbs && Abs(price - open) > Abs(open) * t.pct / 100.0
  }

  lemma PartOfRate(open: real, pct: real)
    requires pct >= 0.0
    ensures Abs(open * (pct / 100.0)) == Abs(open) * pct / 100.0
  {
    var part := pct / 100.0;
    assert open * part == open * pct / 100.0;
    if open >= 0.0 { assert open * part >= 0.0; } else { assert open * part <= 0.0; }
  }

  lemma PercentagesArePositive(code: string)
    ensures code in CURRENCY_THRESHOLDS ==>
      CURRENCY_THRESHOLDS[code].pct > 0.0 && CURRENCY_THRESHOLDS[code].minAbs > 0.0
  {
  }

  /** The gate of the handler is the greater of the two thresholds, so both have to be passed. */
  lemma OutsideExactlyWhenBeyondBoth(code: string, open: real, price: real)
    ensures Outside(code, open, price) <==> BeyondBoth(code, open, price)
  {
    var t := if code in CURRENCY_THRESHOLDS then CURRENCY_THRESHOLDS[code] else Threshold(0.2, 0.0001);
    PercentagesArePositive(code);
    PartOfRate(open, t.pct);
  }

  // ---------------------------------------------------------------- one event

  /** Everything but the hash of one currency is as before. */
  ghost predicate OnlyTouches(code: string, w: World, w': World) {
    forall other :: other != code ==> Get(w'.cache, other) == Get(w.cache, other)
  }

  predicate OnStoredDay(h: Hash, e: Event) {
    h.timestamp.Some? && e.timestamp / 86400000 == h.timestamp.value / 86400000
  }

  /** All three fields that the handler asks for are there. */
  predicate Complete(h: Hash) {
    h.rate.Some? && h.timestamp.Some? && h.openRate.Some?
  }

  /**
   On the stored day: a raw row in any case, and beyond both thresholds a message and a full update,
   else only the timestamp.
  */
  lemma SameDayOutcome(w: World, e: Event, reply: Option<map<string, Fluctuation>>, now: int)
    requires Complete(Get(w.cache, e.code)) && OnStoredDay(Get(w.cache, e.code), e)
    ensures var w', h, price := Handle(w, e, reply, now), Get(w.cache, e.code), ToFixed6(e.rate);
      var h', open := Get(w'.cache, e.code), h.openRate.value;
      && OnlyTouches(e.code, w, w')
      && w'.raw == w.raw + [RawRow(e.code, price)]
      && if BeyondBoth(e.code, open, price)
         then
           && h' == Hash(Some(price), Some(price - open), Some(Ratio(price - open, open)), Some(e.timestamp),
                      Some(open))
           && w'.published == w.published
                + [Message(e.code, price, price - open, Ratio(price - open, open), e.timestamp, open)]
         else h' == h.(timestamp := Some(e.timestamp)) && w'.published == w.published
  {
    OutsideExactlyWhenBeyondBoth(e.code, Get(w.cache, e.code).openRate.value, ToFixed6(e.rate));
  }

  /**
   On another day: the last rate becomes the opening one, the change is the step between the days,
   and there is neither message nor row.
  */
  lemma RolloverOutcome(w: World, e: Event, reply: Option<map<string, Fluctuation>>, now: int)
    requires Complete(Get(w.cache, e.code)) && !OnStoredDay(Get(w.cache, e.code), e)
    ensures var w', last, price := Handle(w, e, reply, now), Get(w.cache, e.code).rate.value, ToFixed6(e.rate);
      && OnlyTouches(e.code, w, w') && w'.raw == w.raw && w'.published == w.published
      && Get(w'.cache, e.code) == Hash(Some(price), Some(price - last), Some(Given(0.0)), Some(e.timestamp), Some(last))
  {
  }

  lemma PercentOfChange(change: real, open: real)
    requires open != 0.0
    ensures Ratio(change, open).Value() == change / open * 100.0
  {
  }

  // ---------------------------------------------------------------- refill and warm-up

  /** The hash holds what the API said of the currency, as of `now`. */
  predicate RefilledAt(h: Hash, f: Fluctuation, now: int) {
    && h.rate == Some(f.endRate) && h.openRate == Some(f.startRate)
    && h.change == Some(f.change) && h.changePct == Some(Given(f.changePct)) && h.timestamp == Some(now)
  }

  /** A refill writes exactly the listed currencies of the reply. */
  lemma RefillOutcome(cache: map<string, Hash>, codes: seq<string>, reply: map<string, Fluctuation>, now: int,
      code: string)
    ensures var h := Get(FillAll(cache, codes, reply, now), code);
      if code in codes && code in reply then RefilledAt(h, reply[code], now) else h == Get(cache, code)
  {
    FilledExactly(cache, codes, reply, now, code);
  }

  /**
   A miss with a reply refills the supported currencies; without one it does nothing. Either way it
   publishes and stores nothing.
  */
  lemma MissOutcome(w: World, e: Event, reply: Option<map<string, Fluctuation>>, now: int, code: string)
    requires !Complete(Get(w.cache, e.code))
    ensures var w' := Handle(w, e, reply, now);
      && w'.published == w.published && w'.raw == w.raw
      && if reply.Some? && code in SUPPORTED && code in reply.value
         then RefilledAt(Get(w'.cache, code), reply.value[code], now)
         else Get(w'.cache, code) == Get(w.cache, code)
  {
    if reply.Some? { RefillOutcome(w.cache, SUPPORTED, reply.value, now, code); }
  }

  /** After a refill the next event of that day is no rollover, and it is measured against the start rate of the API. */
  lemma NextAfterRefill(w: World, f: Fluctuation, filledAt: int, e: Event, reply: Option<map<string, Fluctuation>>,
      now: int)
    requires RefilledAt(Get(w.cache, e.code), f, filledAt) && e.timestamp / 86400000 == filledAt / 86400000
    ensures var w', price := Handle(w, e, reply, now), ToFixed6(e.rate);
      && w'.raw == w.raw + [RawRow(e.code, price)]
      && Get(w'.cache, e.code).openRate == Some(f.startRate)
      && if BeyondBoth(e.code, f.startRate, price)
         then w'.published == w.published + [Message(e.code, price, price - f.startRate,
                Ratio(price - f.startRate, f.startRate), e.timestamp, f.startRate)]
         else w'.published == w.published
  {
    SameDayOutcome(w, e, reply, now);
  }

  // ---------------------------------------------------------------- toFixed(6)

  /** The nearest multiple of a millionth, and of two the one farther from zero. */
  lemma ToFixed6IsNearest(x: real) returns (n: int)
    ensures ToFixed6(x) == n as real / 1000000.0
    ensures Abs(x * 1000000.0 - n as real) <= 0.5
    ensures Abs(x * 1000000.0 - n as real) == 0.5 ==> Abs(n as real) > Abs(x * 1000000.0)
  {
    n := Nearest(x * 1000000.0);
  }
}

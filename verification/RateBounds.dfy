/**
 How far the cache may be from the feed, told by the change that the cache itself stores. The
 handler stores the distance to the opening, but a warm-up and a refill store the change that the
 API gives, which may be rounded. So the stored change is no bound in every run; here is when it is.
*/
module RateBounds {
  import opened Options
  import opened RateCache
  import opened RateRuns

  /** Any update but a mere touch makes the change fit, whatever an API stored before. */
  lemma WritesAreConsistent(code: string, gate: Gate, t: WarmTrack, q: Quote)
    requires Day(q.timestamp) != Day(t.hash.timestamp.value) || gate(t.hash.openRate.value, q.rate)
    ensures Consistent(Next(code, gate, t, q).hash)
  {
  }

  lemma LastOfFollow(code: string, gate: Gate, t: WarmTrack, qs: seq<Quote>, q: Quote)
    ensures Follow(code, gate, t, qs + [q]) == Next(code, gate, Follow(code, gate, t, qs), q)
  {
    FollowSplit(code, gate, t, qs, [q]);
    assert [q][1..] == [];
  }

  /**
   After any event of any warm currency the cache is off the price received by its distance to the
   opening and the band at most.
  */
  lemma CacheFollowsFeed(code: string, t: WarmTrack, qs: seq<Quote>, q: Quote)
    ensures var h := Follow(code, GateOf(code), t, qs + [q]).hash;
      Abs(h.rate.value - q.rate) <= Abs(h.rate.value - h.openRate.value) + Band(code, h.openRate.value)
  {
    LastOfFollow(code, GateOf(code), t, qs, q);
    NextIsNear(code, Follow(code, GateOf(code), t, qs), q);
    BandIsPositive(code, Follow(code, GateOf(code), t, qs + [q]).hash.openRate.value);
  }

  /** Every threshold of the table is at least 5 millionths. */
  lemma BandIsPositive(code: string, open: real)
    ensures Band(code, open) >= 0.000005
  {
  }

  /** Only a touch leaves a rate other than the price, and it leaves the price inside the band. */
  lemma NextIsNear(code: string, t: WarmTrack, q: Quote)
    ensures var h := Next(code, GateOf(code), t, q).hash;
      h.rate.value == q.rate || (h == t.hash.(timestamp := h.timestamp)
          && Abs(q.rate - h.openRate.value) <= Band(code, h.openRate.value))
  {
  }

  /** The cached rate is off the price by the stored change and the band at most. */
  predicate WithinChange(code: string, h: Hash, price: real) {
    && Warm(h) && h.change.Some?
    && Abs(h.rate.value - price) <= Abs(h.change.value) + Band(code, h.openRate.value)
  }

  /** The stored change is not less than the distance to the opening. */
  predicate ChangeCovers(h: Hash) {
    Warm(h) && h.change.Some? && Abs(h.rate.value - h.openRate.value) <= Abs(h.change.value)
  }

  // ---------------------------------------------------------------- any prices

  ghost predicate BoundsEveryPrice(code: string, t: WarmTrack)
  {
    forall qs, q :: WithinChange(code, Follow(code, GateOf(code), t, qs + [q]).hash, q.rate)
  }

  lemma {:induction false} StaysCovered(code: string, t: WarmTrack, qs: seq<Quote>)
    requires ChangeCovers(t.hash)
    ensures ChangeCovers(Follow(code, GateOf(code), t, qs).hash)
    decreases |qs|
  {
    if qs != [] {
      StaysCovered(code, Next(code, GateOf(code), t, qs[0]), qs[1..]);
    }
  }

  /**
   For prices of any precision the stored change and the band bound the error in every run if and
   only if the stored change is not less than the distance to the opening to begin with.
  */
  lemma ChangeBoundsExactlyWhen(code: string, t: WarmTrack)
    requires t.hash.change.Some?
    ensures BoundsEveryPrice(code, t) <==> Abs(t.hash.rate.value - t.hash.openRate.value) <= Abs(t.hash.change.value)
  {
    if ChangeCovers(t.hash) {
      forall qs, q ensures WithinChange(code, Follow(code, GateOf(code), t, qs + [q]).hash, q.rate) {
        LastOfFollow(code, GateOf(code), t, qs, q);
        StaysCovered(code, t, qs);
      }
    } else {
      var rate, open, band := t.hash.rate.value, t.hash.openRate.value, Band(code, t.hash.openRate.value);
      var q := Quote(if rate < open then open + band else open - band, t.hash.timestamp.value);
      assert [] + [q] == [q];
      assert !WithinChange(code, Follow(code, GateOf(code), t, [] + [q]).hash, q.rate);
    }
  }

  // ---------------------------------------------------------------- prices as the handler rounds them

  /**
   The greatest price of some grid up to a number. The grid is symmetric, so `-edge(-x)` is the least
   one from `x` on.
  */
  type Edge = real -> real

  ghost predicate IsEdge(edge: Edge) {
    forall x :: edge(x) <= x
  }

  ghost predicate OnGrid(edge: Edge, price: real) {
    && (forall x :: price <= x ==> price <= edge(x))
    && (forall x :: -price <= x ==> -price <= edge(x))
  }

  /** The stored change and the band reach from the cached rate to the outermost prices of the grid inside the band. */
  predicate Reaches(edge: Edge, code: string, h: Hash) {
    && Warm(h) && h.change.Some?
    && var rate, open, band := h.rate.value, h.openRate.value, Band(code, h.openRate.value);
       && edge(open + band) - rate <= Abs(h.change.value) + band
       && rate + edge(band - open) <= Abs(h.change.value) + band
  }

  /** Where the price was written, the change is the distance of the rates and reaches far enough. */
  lemma ReachesConsistent(edge: Edge, code: string, h: Hash)
    requires IsEdge(edge) && Consistent(h) && Band(code, h.openRate.value) >= 0.0
    ensures Reaches(edge, code, h) && WithinChange(code, h, h.rate.value)
  {
    var open, band := h.openRate.value, Band(code, h.openRate.value);
    assert edge(open + band) <= open + band && edge(band - open) <= band - open;
  }

  /** Where it was not, it is inside the band, so no further off than the outermost prices there. */
  lemma ReachesTouch(edge: Edge, code: string, h: Hash, price: real)
    requires Reaches(edge, code, h) && OnGrid(edge, price)
    requires Abs(price - h.openRate.value) <= Band(code, h.openRate.value)
    ensures WithinChange(code, h, price)
  {
    var open, band := h.openRate.value, Band(code, h.openRate.value);
    assert price <= edge(open + band) && -price <= edge(band - open);
  }

  lemma ReachesNext(edge: Edge, code: string, t: WarmTrack, q: Quote)
    requires IsEdge(edge) && Reaches(edge, code, t.hash) && OnGrid(edge, q.rate)
    ensures var h := Next(code, GateOf(code), t, q).hash; Reaches(edge, code, h) && WithinChange(code, h, q.rate)
  {
    var h := Next(code, GateOf(code), t, q).hash;
    if Day(q.timestamp) == Day(t.hash.timestamp.value) && !Outside(code, t.hash.openRate.value, q.rate) {
      assert h == t.hash.(timestamp := Some(q.timestamp));
      ReachesTouch(edge, code, h, q.rate);
    } else {
      assert h.rate == Some(q.rate);
      WritesAreConsistent(code, GateOf(code), t, q);
      BandIsPositive(code, h.openRate.value);
      ReachesConsistent(edge, code, h);
    }
  }

  lemma {:induction false} StaysReached(edge: Edge, code: string, t: WarmTrack, qs: seq<Quote>)
    requires IsEdge(edge) && Reaches(edge, code, t.hash) && forall i :: 0 <= i < |qs| ==> OnGrid(edge, qs[i].rate)
    ensures Reaches(edge, code, Follow(code, GateOf(code), t, qs).hash)
    decreases |qs|
  {
    if qs != [] {
      ReachesNext(edge, code, t, qs[0]);
      StaysReached(edge, code, Next(code, GateOf(code), t, qs[0]), qs[1..]);
    }
  }

  function Down6(x: real): real {
    (x * 1000000.0).Floor as real / 1000000.0
  }

  lemma FixedIsFixed(n: int)
    ensures ToFixed6(n as real / 1000000.0) == n as real / 1000000.0
  {
    assert Nearest(n as real / 1000000.0 * 1000000.0) == n;
  }

  /** What `toFixed(6)` gives is on the grid of 6 places, of which `Down6` is the edge. */
  lemma FixedIsOnGrid(y: real)
    ensures IsEdge(Down6) && OnGrid(Down6, ToFixed6(y))
  {
    var n := Nearest(y * 1000000.0);
    forall x | ToFixed6(y) <= x ensures ToFixed6(y) <= Down6(x) {
      assert n <= (x * 1000000.0).Floor;
    }
    forall x | -ToFixed6(y) <= x ensures -ToFixed6(y) <= Down6(x) {
      assert -n <= (x * 1000000.0).Floor;
    }
  }

  lemma DownIsClose(x: real)
    ensures x - 0.000001 < Down6(x) <= x && ToFixed6(Down6(x)) == Down6(x) && ToFixed6(-Down6(x)) == -Down6(x)
  {
    FixedIsFixed((x * 1000000.0).Floor);
    FixedIsFixed(-((x * 1000000.0).Floor));
  }

  function Rounded(feed: seq<Quote>): seq<Quote> {
    seq(|feed|, i requires 0 <= i < |feed| => Quote(ToFixed6(feed[i].rate), feed[i].timestamp))
  }

  ghost predicate BoundsTheFeed(code: string, t: WarmTrack) {
    forall feed, q: Quote ::
      WithinChange(code, Follow(code, GateOf(code), t, Rounded(feed + [q])).hash, ToFixed6(q.rate))
  }

  lemma LastOfFeed(code: string, t: WarmTrack, feed: seq<Quote>, q: Quote)
    ensures var before := Follow(code, GateOf(code), t, Rounded(feed));
      Follow(code, GateOf(code), t, Rounded(feed + [q]))
      == Next(code, GateOf(code), before, Quote(ToFixed6(q.rate), q.timestamp))
  {
    assert Rounded(feed + [q]) == Rounded(feed) + [Quote(ToFixed6(q.rate), q.timestamp)];
    LastOfFollow(code, GateOf(code), t, Rounded(feed), Quote(ToFixed6(q.rate), q.timestamp));
  }

  lemma ReachedIsBounded(code: string, t: WarmTrack, feed: seq<Quote>, q: Quote)
    requires Reaches(Down6, code, t.hash)
    ensures WithinChange(code, Follow(code, GateOf(code), t, Rounded(feed + [q])).hash, ToFixed6(q.rate))
  {
    FixedIsOnGrid(q.rate);
    forall i | 0 <= i < |feed| ensures OnGrid(Down6, Rounded(feed)[i].rate) { FixedIsOnGrid(feed[i].rate); }
    StaysReached(Down6, code, t, Rounded(feed));
    LastOfFeed(code, t, feed, q);
    ReachesNext(Down6, code, Follow(code, GateOf(code), t, Rounded(feed)), Quote(ToFixed6(q.rate), q.timestamp));
  }

  /** A price inside the band that the stored change does not reach is not written, and stays out of reach. */
  lemma OutOfReach(code: string, t: WarmTrack, price: real)
    requires t.hash.change.Some? && Abs(price - t.hash.openRate.value) <= Band(code, t.hash.openRate.value)
    requires Abs(t.hash.rate.value - price) > Abs(t.hash.change.value) + Band(code, t.hash.openRate.value)
    ensures ToFixed6(price) == price ==> !BoundsTheFeed(code, t)
  {
    var q := Quote(price, t.hash.timestamp.value);
    if ToFixed6(price) == price {
      assert Rounded([] + [q]) == [q];
      assert !WithinChange(code, Follow(code, GateOf(code), t, Rounded([] + [q])).hash, ToFixed6(q.rate));
    }
  }

  /**
   For the prices of the feed, which the handler rounds to 6 places, the exact condition is that the
   change reaches both ends of the band, as far as prices of 6 places go.
  */
  lemma ChangeBoundsFeedExactlyWhen(code: string, t: WarmTrack)
    requires t.hash.change.Some?
    ensures BoundsTheFeed(code, t) <==> Reaches(Down6, code, t.hash)
  {
    var rate, open, band := t.hash.rate.value, t.hash.openRate.value, Band(code, t.hash.openRate.value);
    if Reaches(Down6, code, t.hash) {
      forall feed, q: Quote
        ensures WithinChange(code, Follow(code, GateOf(code), t, Rounded(feed + [q])).hash, ToFixed6(q.rate))
      {
        ReachedIsBounded(code, t, feed, q);
      }
    } else {
      DownIsClose(open + band);
      DownIsClose(band - open);
      BandIsPositive(code, open);
      var high, low := Down6(open + band), -Down6(band - open);
      OutOfReach(code, t, if high - rate > Abs(t.hash.change.value) + band then high else low);
    }
  }

  // ---------------------------------------------------------------- after a refill

  /**
   After a warm-up or a refill the condition is one on the reply of the API: for prices of any
   precision, that its change is not less than the distance of its rates.
  */
  lemma RefillBoundsExactlyWhen(cache: map<string, Hash>, codes: seq<string>, reply: map<string, Fluctuation>,
      now: int, code: string, t: WarmTrack)
    requires code in codes && code in reply && t.hash == Get(FillAll(cache, codes, reply, now), code)
    ensures t.hash == Fill(reply[code], now)
    ensures BoundsEveryPrice(code, t) <==> Abs(reply[code].endRate - reply[code].startRate) <= Abs(reply[code].change)
    ensures BoundsTheFeed(code, t) <==> Reaches(Down6, code, Fill(reply[code], now))
  {
    FilledExactly(cache, codes, reply, now, code);
    ChangeBoundsExactlyWhen(code, t);
    ChangeBoundsFeedExactlyWhen(code, t);
  }

  /** The quote that the parser documents: its change is rounded to 4 places. */
  const DOCUMENTED := Fluctuation(1.281236, 1.108609, -0.1726, -13.4735)

  /** From an empty cache, a miss that refills AUD with that quote, and a price at the edge of the band. */
  lemma RoundedChangeIsNoBound()
    ensures var w := Handle(World(map[], [], []), Event("AUD", 1.0, 0), Some(map["AUD" := DOCUMENTED]), 0);
      var h := Get(Handle(w, Event("AUD", 1.282517, 0), None, 0).cache, "AUD");
      Warm(h) && h.change.Some? && !WithinChange("AUD", h, 1.282517)
  {
    FilledExactly(map[], SUPPORTED, map["AUD" := DOCUMENTED], 0, "AUD");
    assert SUPPORTED[0] == "AUD";
    FixedIsFixed(1282517);
  }
}

/**
 The live-rate cache: one Redis hash per currency against KRW, the messages published and the
 raw rows stored while `ExchangeRateService` handles the events of the feed. Numbers are exact
 reals; `toFixed(6)` is rounding to the nearest multiple of one millionth, halves away from zero.
*/
module RateCache {
  import opened Options

  /** Two timestamps fall on the same UTC date exactly when this agrees. */
  function Day(ts: int): int {
    ts / DAY
  }

  function Abs(x: real): real {
    if x < 0.0 then -x else x
  }

  function Nearest(x: real): int {
    if x >= 0.0 then (x + 0.5).Floor else -((0.5 - x).Floor)
  }

  function ToFixed6(x: real): (r: real)
    ensures Abs(r - x) <= 0.0000005
  {
    Nearest(x * 1000000.0) as real / 1000000.0
  }

  /** A percentage: the one an API gave, or `change / open * 100`, which no error stops for an opening of zero. */
  datatype Percent = Given(value: real) | Ratio(change: real, open: real) {
    function Value(): real
      requires Ratio? ==> open != 0.0
    {
      if Given? then value else change / open * 100.0
    }
  }

  /** The fields of a rate hash; as an argument of HSET, the fields that are written. */
  datatype Hash = Hash(
    rate: Option<real>,
    change: Option<real>,
    changePct: Option<Percent>,
    timestamp: Option<int>,
    openRate: Option<real>)

  const EMPTY := Hash(None, None, None, None, None)

  function Override<T>(old_: Option<T>, new_: Option<T>): Option<T> {
    if new_.Some? then new_ else old_
  }

  function HSet(h: Hash, f: Hash): Hash {
    Hash(Override(h.rate, f.rate), Override(h.change, f.change), Override(h.changePct, f.changePct),
         Override(h.timestamp, f.timestamp), Override(h.openRate, f.openRate))
  }

  /** The three fields that the handler needs are there. */
  predicate Warm(h: Hash) {
    h.rate.Some? && h.timestamp.Some? && h.openRate.Some?
  }

  datatype Threshold = Threshold(pct: real, minAbs: real)

  const DEFAULT_THRESHOLD := Threshold(0.2, 0.0001)

  const CURRENCY_THRESHOLDS: map<string, Threshold> := map[
    "USD" := Threshold(0.1, 0.000007), "EUR" := Threshold(0.1, 0.000006), "GBP" := Threshold(0.1, 0.000005),
    "CAD" := Threshold(0.1, 0.000009), "AUD" := Threshold(0.1, 0.00001), "CHF" := Threshold(0.1, 0.000006),
    "NZD" := Threshold(0.1, 0.000012), "SGD" := Threshold(0.1, 0.000009), "HKD" := Threshold(0.1, 0.00005),
    "JPY" := Threshold(0.15, 0.001), "HUF" := Threshold(0.15, 0.002), "ISK" := Threshold(0.15, 0.001),
    "IDR" := Threshold(0.2, 0.1), "INR" := Threshold(0.2, 0.005), "PHP" := Threshold(0.2, 0.04),
    "THB" := Threshold(0.2, 0.02), "BRL" := Threshold(0.5, 0.0001), "TRY" := Threshold(0.8, 0.0002),
    "ZAR" := Threshold(0.5, 0.0001), "MXN" := Threshold(0.4, 0.0001)]

  const SUPPORTED: seq<string> := [
    "AUD", "BGN", "BRL", "CAD", "CHF", "CNY", "CZK", "DKK", "GBP", "HKD", "HUF", "IDR", "ILS", "INR", "ISK", "JPY",
    "KRW", "MXN", "MYR", "NOK", "NZD", "PHP", "PLN", "RON", "SEK", "SGD", "THB", "TRY", "USD", "ZAR", "EUR"]

  /** The width of the band around the opening rate inside which a price is not worth a message. */
  function Band(code: string, open: real): real {
    var t := if code in CURRENCY_THRESHOLDS then CURRENCY_THRESHOLDS[code] else DEFAULT_THRESHOLD;
    var pctBased := Abs(open * (t.pct / 100.0));
    if t.minAbs < pctBased then pctBased else t.minAbs
  }

  predicate Outside(code: string, open: real, rate: real) {
    Abs(rate - open) > Band(code, open)
  }

  /** Decides whether a price is far enough from the opening one to be cached and published. */
  type Gate = (real, real) -> bool

  function GateOf(code: string): Gate {
    (open: real, rate: real) => Outside(code, open, rate)
  }

  datatype Event = Event(code: string, rate: real, timestamp: int)

  datatype Message = Message(code: string, rate: real, change: real, changePct: Percent, timestamp: int, openRate: real)

  datatype RawRow = RawRow(code: string, rate: real)

  datatype Fluctuation = Fluctuation(startRate: real, endRate: real, change: real, changePct: real)

  datatype World = World(cache: map<string, Hash>, published: seq<Message>, raw: seq<RawRow>)

  function Get(cache: map<string, Hash>, code: string): Hash {
    if code in cache then cache[code] else EMPTY
  }

  function Fill(f: Fluctuation, now: int): Hash {
    Hash(Some(f.endRate), Some(f.change), Some(Given(f.changePct)), Some(now), Some(f.startRate))
  }

  /** Every listed currency that the reply knows is rewritten, in order. */
  function FillAll(cache: map<string, Hash>, codes: seq<string>, reply: map<string, Fluctuation>,
      now: int): map<string, Hash>
    decreases |codes|
  {
    if codes == [] then cache
    else
      var rest := FillAll(cache, codes[..|codes| - 1], reply, now);
      var code := codes[|codes| - 1];
      if code in reply then rest[code := Fill(reply[code], now)] else rest
  }

  lemma {:induction false} FilledExactly(cache: map<string, Hash>, codes: seq<string>, reply: map<string,
      Fluctuation>, now: int, code: string)
    ensures Get(FillAll(cache, codes, reply, now), code)
            == if code in codes && code in reply then Fill(reply[code], now) else Get(cache, code)
    decreases |codes|
  {
    if codes != [] {
      var init := codes[..|codes| - 1];
      assert codes == init + [codes[|codes| - 1]];
      FilledExactly(cache, init, reply, now, code);
    }
  }

  function MissingOf(cache: map<string, Hash>, codes: seq<string>): seq<string>
    decreases |codes|
  {
    if codes == [] then []
    else
      var rest := MissingOf(cache, codes[..|codes| - 1]);
      var code := codes[|codes| - 1];
      if Warm(Get(cache, code)) then rest else rest + [code]
  }

  lemma {:induction false} MissingExactly(cache: map<string, Hash>, codes: seq<string>, code: string)
    ensures code in MissingOf(cache, codes) <==> code in codes && !Warm(Get(cache, code))
    decreases |codes|
  {
    if codes != [] {
      var init := codes[..|codes| - 1];
      assert codes == init + [codes[|codes| - 1]];
      MissingExactly(cache, init, code);
    }
  }

  /** A warm hash after one event: a new day opens at the last rate of the day before. */
  function Absorb(gate: Gate, h: Hash, rate: real, ts: int): (h': Hash)
    requires Warm(h)
    ensures Warm(h')
  {
    if Day(ts) != Day(h.timestamp.value) then
      HSet(h, Hash(Some(rate), Some(rate - h.rate.value), Some(Given(0.0)), Some(ts), h.rate))
    else if gate(h.openRate.value, rate) then
      var change := rate - h.openRate.value;
      HSet(h, Hash(Some(rate), Some(change), Some(Ratio(change, h.openRate.value)), Some(ts), None))
    else
      HSet(h, EMPTY.(timestamp := Some(ts)))
  }

  datatype Kind = Miss | Rollover | Full | Touch

  function Classify(h: Hash, e: Event): Kind {
    if !Warm(h) then Miss
    else if Day(e.timestamp) != Day(h.timestamp.value) then Rollover
    else if Outside(e.code, h.openRate.value, ToFixed6(e.rate)) then Full
    else Touch
  }

  /** The handler as a whole. `reply` is what the fluctuation API answers on a miss, if it does not fail. */
  function Handle(w: World, e: Event, reply: Option<map<string, Fluctuation>>, now: int): World {
    var h, rate := Get(w.cache, e.code), ToFixed6(e.rate);
    match Classify(h, e)
    case Miss => if reply.None? then w else w.(cache := FillAll(w.cache, SUPPORTED, reply.value, now))
    case Rollover => w.(cache := w.cache[e.code := Absorb(GateOf(e.code), h, rate, e.timestamp)])
    case Full =>
      var open := h.openRate.value;
      World(w.cache[e.code := Absorb(GateOf(e.code), h, rate, e.timestamp)],
            w.published + [Message(e.code, rate, rate - open, Ratio(rate - open, open), e.timestamp, open)],
            w.raw + [RawRow(e.code, rate)])
    case Touch =>
      World(w.cache[e.code := Absorb(GateOf(e.code), h, rate, e.timestamp)], w.published,
          w.raw + [RawRow(e.code, rate)])
  }

  class ExchangeRateService {
    var cache: map<string, Hash>
    var published: seq<Message>
    var raw: seq<RawRow>

    constructor ()
      ensures View() == World(map[], [], [])
    {
      cache, published, raw := map[], [], [];
    }

    function View(): World
      reads this
    {
      World(cache, published, raw)
    }

    /** HSET on the hash of one currency. */
    method WriteHash(code: string, fields: Hash)
      modifies this`cache
      ensures cache == old(cache)[code := HSet(Get(old(cache), code), fields)]
    {
      cache := cache[code := HSet(Get(cache, code), fields)];
    }

    method CheckMissingCurrencies(targets: seq<string>) returns (missing: seq<string>)
      ensures missing == MissingOf(cache, targets)
    {
      missing := [];
      for i := 0 to |targets|
        invariant missing == MissingOf(cache, targets[..i])
      {
        assert targets[..i + 1][..i] == targets[..i];
        if !Warm(Get(cache, targets[i])) {
          missing := missing + [targets[i]];
        }
      }
      assert targets[..|targets|] == targets;
    }

    method FetchAllMissingCurrencies(codes: seq<string>, reply: Option<map<string, Fluctuation>>, now: int)
      returns (ok: bool)
      modifies this`cache
      ensures ok == reply.Some?
      ensures cache == if ok then FillAll(old(cache), codes, reply.value, now) else old(cache)
      // the fields that are written, and nothing else
      ensures ok ==> forall code :: code in codes && code in reply.value ==>
        Get(cache, code) == Hash(Some(reply.value[code].endRate), Some(reply.value[code].change),
          Some(Given(reply.value[code].changePct)), Some(now), Some(reply.value[code].startRate))
      ensures ok ==> forall code :: code !in codes || code !in reply.value ==> Get(cache, code) == Get(old(cache), code)
    {
      if reply.None? {
        return false;
      }
      for i := 0 to |codes|
        invariant cache == FillAll(old(cache), codes[..i], reply.value, now)
      {
        assert codes[..i + 1][..i] == codes[..i];
        if codes[i] in reply.value {
          WriteHash(codes[i], Fill(reply.value[codes[i]], now));
        }
      }
      assert codes[..|codes|] == codes;
      forall code
        ensures Get(cache, code) ==
          if code in codes && code in reply.value then Fill(reply.value[code], now) else Get(old(cache), code)
      {
        FilledExactly(old(cache), codes, reply.value, now, code);
      }
      return true;
    }

    /** The warm-up. It leaves no supported currency cold if the reply covers those that were. */
    method InitializeAllCurrencyData(targets: seq<string>, reply: Option<map<string, Fluctuation>>, now: int)
      returns (ok: bool)
      modifies this`cache
      ensures ok <==> MissingOf(old(cache), targets) == [] || reply.Some?
      ensures forall code :: Warm(Get(old(cache), code)) ==> Get(cache, code) == Get(old(cache), code)
      ensures ok ==> forall code :: code in targets && (reply.Some? ==> code in reply.value) ==> Warm(Get(cache, code))
      // a cold currency that the reply knows holds what the API said, as of now
      ensures ok && reply.Some? ==> forall code ::
        code in targets && !Warm(Get(old(cache), code)) && code in reply.value ==>
          Get(cache, code) == Hash(Some(reply.value[code].endRate), Some(reply.value[code].change),
            Some(Given(reply.value[code].changePct)), Some(now), Some(reply.value[code].startRate))
    {
      var missing := CheckMissingCurrencies(targets);
      forall code ensures code in missing <==> code in targets && !Warm(Get(cache, code)) {
        MissingExactly(cache, targets, code);
      }
      ok := true;
      if |missing| > 0 {
        ok := FetchAllMissingCurrencies(missing, reply, now);
      }
    }

    method HandleLatestRateUpdate(e: Event, reply: Option<map<string, Fluctuation>>, now: int) returns (ok: bool)
      modifies this
      ensures View() == Handle(old(View()), e, reply, now)
      ensures ok <==> Warm(Get(old(cache), e.code)) || reply.Some?
    {
      var latestRateRounded := ToFixed6(e.rate);
      var stored := Get(cache, e.code);
      if stored.rate.None? || stored.timestamp.None? || stored.openRate.None? {
        ok := FetchAllMissingCurrencies(SUPPORTED, reply, now);
        return;
      }
      ok := true;
      if Day(e.timestamp) != Day(stored.timestamp.value) {
        var startRate := stored.rate.value;
        WriteHash(e.code, Hash(Some(latestRateRounded), Some(latestRateRounded - startRate), Some(Given(0.0)),
                               Some(e.timestamp), Some(startRate)));
        return;
      }
      var openRate := stored.openRate.value;
      var change := latestRateRounded - openRate;
      var changePct := Ratio(change, openRate);
      if Abs(change) > Band(e.code, openRate) {
        WriteHash(e.code, Hash(Some(latestRateRounded), Some(change), Some(changePct), Some(e.timestamp), None));
        published := published + [Message(e.code, latestRateRounded, change, changePct, e.timestamp, openRate)];
      } else {
        WriteHash(e.code, EMPTY.(timestamp := Some(e.timestamp)));
      }
      raw := raw + [RawRow(e.code, latestRateRounded)];
    }
  }
}

/**
 What a whole run of the handler does. For one warm currency it equals a description by days:
 each day opens at the last rate cached the day before, its rate is the last one outside the
 band around that opening (else the first of the day), and its messages are exactly the events
 outside the band, in order.
*/
module RateRuns {
  import opened Options
  import opened RateCache

  /** An event of one currency, its rate already rounded. */
  datatype Quote = Quote(rate: real, timestamp: int)

  datatype Track = Track(hash: Hash, log: seq<Message>, rows: seq<real>)

  /** The track of a currency that the cache knows. */
  type WarmTrack = t: Track | Warm(t.hash)
    witness Track(Hash(Some(1.0), None, None, Some(0), Some(1.0)), [], [])

  function MessageOf(code: string, open: real, q: Quote): Message {
    Message(code, q.rate, q.rate - open, Ratio(q.rate - open, open), q.timestamp, open)
  }

  /** The handler on a warm currency: one event. */
  function Next(code: string, gate: Gate, t: WarmTrack, q: Quote): (r: WarmTrack)
  {
    var h := Absorb(gate, t.hash, q.rate, q.timestamp);
    var open := t.hash.openRate.value;
    if Day(q.timestamp) != Day(t.hash.timestamp.value) then Track(h, t.log, t.rows)
    else if gate(open, q.rate) then Track(h, t.log + [MessageOf(code, open, q)], t.rows + [q.rate])
    else Track(h, t.log, t.rows + [q.rate])
  }

  function Follow(code: string, gate: Gate, t: WarmTrack, qs: seq<Quote>): (r: WarmTrack)
    decreases |qs|
  {
    if qs == [] then t else Follow(code, gate, Next(code, gate, t, qs[0]), qs[1..])
  }

  /** The last quote outside the band around `open`. */
  function LastBeyond(gate: Gate, open: real, qs: seq<Quote>): (r: Option<nat>)
    ensures r.Some? ==> r.value < |qs| && gate(open, qs[r.value].rate)
    ensures r.Some? ==> forall j :: r.value < j < |qs| ==> !gate(open, qs[j].rate)
    ensures r.None? ==> forall j :: 0 <= j < |qs| ==> !gate(open, qs[j].rate)
    decreases |qs|
  {
    if qs == [] then None
    else if gate(open, qs[|qs| - 1].rate) then Some(|qs| - 1)
    else LastBeyond(gate, open, qs[..|qs| - 1])
  }

  function MessagesBeyond(code: string, gate: Gate, open: real, qs: seq<Quote>): seq<Message>
    decreases |qs|
  {
    if qs == [] then []
    else
      var q := qs[|qs| - 1];
      MessagesBeyond(code, gate, open, qs[..|qs| - 1]) + (if gate(open, q.rate) then [MessageOf(code, open, q)] else [])
  }

  function RatesOf(qs: seq<Quote>): seq<real> {
    seq(|qs|, i requires 0 <= i < |qs| => qs[i].rate)
  }

  predicate AllOn(day: int, qs: seq<Quote>) {
    forall j :: 0 <= j < |qs| ==> Day(qs[j].timestamp) == day
  }

  /** The rest of the stored day, described without going through it event by event. */
  function RestOfDay(code: string, gate: Gate, t: WarmTrack, qs: seq<Quote>): (r: WarmTrack)
    ensures r.hash.openRate == t.hash.openRate
  {
    if qs == [] then t
    else
      var open := t.hash.openRate.value;
      var last := LastBeyond(gate, open, qs);
      var rate := if last.Some? then Some(qs[last.value].rate) else t.hash.rate;
      var change := if last.Some? then Some(qs[last.value].rate - open) else t.hash.change;
      var pct := if last.Some? then Some(Ratio(qs[last.value].rate - open, open)) else t.hash.changePct;
      Track(Hash(rate, change, pct, Some(qs[|qs| - 1].timestamp), t.hash.openRate),
            t.log + MessagesBeyond(code, gate, open, qs), t.rows + RatesOf(qs))
  }

  /** A whole new day: it opens at the rate cached so far, and its first quote counts unconditionally. */
  function NewDay(code: string, gate: Gate, t: WarmTrack, qs: seq<Quote>): (r: WarmTrack)
    requires qs != []
    ensures r.hash.openRate == t.hash.rate
  {
    var dawn := Hash(Some(qs[0].rate), Some(qs[0].rate - t.hash.rate.value), Some(Given(0.0)), Some(qs[0].timestamp),
        t.hash.rate);
    RestOfDay(code, gate, t.(hash := dawn), qs[1..])
  }

  /** How many quotes from the start are on `day`: the maximal block. */
  function BlockLength(day: int, qs: seq<Quote>): (n: nat)
    ensures n <= |qs| && AllOn(day, qs[..n])
    ensures n < |qs| ==> Day(qs[n].timestamp) != day
    decreases |qs|
  {
    if qs == [] || Day(qs[0].timestamp) != day then 0
    else
      var n := 1 + BlockLength(day, qs[1..]);
      assert qs[..n] == [qs[0]] + qs[1..][..n - 1];
      n
  }

  /** Day by day over maximal blocks, each by its description. */
  function ByDays(code: string, gate: Gate, t: WarmTrack, qs: seq<Quote>): WarmTrack
    decreases |qs|
  {
    if qs == [] then t
    else
      var day := Day(qs[0].timestamp);
      var n := 1 + BlockLength(day, qs[1..]);
      var block := qs[..n];
      var after :=
        if day == Day(t.hash.timestamp.value) then RestOfDay(code, gate, t, block) else NewDay(code, gate, t, block);
      ByDays(code, gate, after, qs[n..])
  }

  lemma {:induction false} FollowSplit(code: string, gate: Gate, t: WarmTrack, a: seq<Quote>, b: seq<Quote>)
    ensures Follow(code, gate, t, a + b) == Follow(code, gate, Follow(code, gate, t, a), b)
    decreases |a|
  {
    if a == [] {
      assert a + b == b;
    } else {
      assert (a + b)[1..] == a[1..] + b;
      FollowSplit(code, gate, Next(code, gate, t, a[0]), a[1..], b);
    }
  }

  lemma OneMoreOnDay(code: string, gate: Gate, t: WarmTrack, qs: seq<Quote>, q: Quote)
    requires AllOn(Day(t.hash.timestamp.value), qs + [q])
    ensures RestOfDay(code, gate, t, qs + [q]) == Next(code, gate, RestOfDay(code, gate, t, qs), q)
  {
    var all := qs + [q];
    assert all[..|all| - 1] == qs && all[|all| - 1] == q;
    assert RatesOf(all) == RatesOf(qs) + [q.rate];
    assert Day(q.timestamp) == Day(t.hash.timestamp.value);
    var open := t.hash.openRate.value;
    var before, msgs := RestOfDay(code, gate, t, qs), MessagesBeyond(code, gate, open, qs);
    assert before.log == t.log + msgs && before.rows == t.rows + RatesOf(qs);
    assert t.rows + RatesOf(all) == before.rows + [q.rate];
    if gate(open, q.rate) {
      assert LastBeyond(gate, open, all) == Some(|qs|);
      assert t.log + MessagesBeyond(code, gate, open, all) == before.log + [MessageOf(code, open, q)];
    } else {
      assert LastBeyond(gate, open, all) == LastBeyond(gate, open, qs);
      assert t.log + MessagesBeyond(code, gate, open, all) == before.log;
    }
  }

  /** On the stored day, going event by event is the description of the rest of the day. */
  lemma {:induction false} SameDayRefines(code: string, gate: Gate, t: WarmTrack, qs: seq<Quote>)
    requires AllOn(Day(t.hash.timestamp.value), qs)
    ensures Follow(code, gate, t, qs) == RestOfDay(code, gate, t, qs)
    decreases |qs|
  {
    if qs != [] {
      var n := |qs| - 1;
      assert qs == qs[..n] + [qs[n]];
      SameDayRefines(code, gate, t, qs[..n]);
      FollowSplit(code, gate, t, qs[..n], [qs[n]]);
      OneMoreOnDay(code, gate, t, qs[..n], qs[n]);
      assert [qs[n]][1..] == [];
    }
  }

  lemma NewDayRefines(code: string, gate: Gate, t: WarmTrack, qs: seq<Quote>)
    requires qs != [] && AllOn(Day(qs[0].timestamp), qs)
    requires Day(qs[0].timestamp) != Day(t.hash.timestamp.value)
    ensures Follow(code, gate, t, qs) == NewDay(code, gate, t, qs)
  {
    var dawn := Absorb(gate, t.hash, qs[0].rate, qs[0].timestamp);
    SameDayRefines(code, gate, t.(hash := dawn), qs[1..]);
  }

  /** Folding the handler over any list of events is the description by maximal days. */
  lemma {:induction false} RunRefinesDays(code: string, gate: Gate, t: WarmTrack, qs: seq<Quote>)
    ensures Follow(code, gate, t, qs) == ByDays(code, gate, t, qs)
    decreases |qs|
  {
    if qs != [] {
      var day := Day(qs[0].timestamp);
      var n := 1 + BlockLength(day, qs[1..]);
      var block := qs[..n];
      assert block == [qs[0]] + qs[1..][..n - 1];
      assert qs == block + qs[n..];
      FollowSplit(code, gate, t, block, qs[n..]);
      if day == Day(t.hash.timestamp.value) {
        SameDayRefines(code, gate, t, block);
      } else {
        NewDayRefines(code, gate, t, block);
      }
      RunRefinesDays(code, gate, Follow(code, gate, t, block), qs[n..]);
    }
  }

  /** Quote `m` gives the rate of a day: the last one outside the band, or the first of all. */
  predicate RateOfDay(gate: Gate, open: real, day: seq<Quote>, m: nat) {
    && m < |day|
    && (m > 0 ==> gate(open, day[m].rate))
    && (forall j :: m < j < |day| ==> !gate(open, day[j].rate))
  }

  lemma NewDayShape(code: string, gate: Gate, t: WarmTrack, day: seq<Quote>)
    requires day != []
    ensures var today := NewDay(code, gate, t, day).hash;
      && today.timestamp == Some(day[|day| - 1].timestamp)
      && exists m :: 0 <= m < |day| && RateOfDay(gate, t.hash.rate.value, day, m) && today.rate == Some(day[m].rate)
  {
    var open := t.hash.rate.value;
    var rest := day[1..];
    var last := LastBeyond(gate, open, rest);
    var m := if last.Some? then last.value + 1 else 0;
    forall j | m < j < |day| ensures !gate(open, day[j].rate) {
      assert day[j] == rest[j - 1];
    }
    assert RateOfDay(gate, open, day, m);
  }

  /** The last day of a run, without going through the days before it. */
  lemma LastDayOfRun(code: string, gate: Gate, t: WarmTrack, before: seq<Quote>, day: seq<Quote>)
    requires day != [] && AllOn(Day(day[0].timestamp), day)
    requires Day(day[0].timestamp) != Day(Follow(code, gate, t, before).hash.timestamp.value)
    ensures var yesterday, today := Follow(code, gate, t, before).hash, Follow(code, gate, t, before + day).hash;
      && today.openRate == yesterday.rate
      && today.timestamp == Some(day[|day| - 1].timestamp)
      && exists m :: 0 <= m < |day| && RateOfDay(gate, yesterday.rate.value, day, m) && today.rate == Some(day[m].rate)
  {
    FollowSplit(code, gate, t, before, day);
    NewDayRefines(code, gate, Follow(code, gate, t, before), day);
    NewDayShape(code, gate, Follow(code, gate, t, before), day);
  }

  /** The cached change is the cached rate over the cached opening. */
  predicate Consistent(h: Hash) {
    Warm(h) && h.change == Some(h.rate.value - h.openRate.value)
  }

  lemma {:induction false} StaysConsistent(code: string, gate: Gate, t: WarmTrack, qs: seq<Quote>)
    requires Consistent(t.hash)
    ensures Consistent(Follow(code, gate, t, qs).hash)
    decreases |qs|
  {
    if qs != [] {
      StaysConsistent(code, gate, Next(code, gate, t, qs[0]), qs[1..]);
    }
  }

  // ---------------------------------------------------------------- all currencies together

  /** An event with the clock and the API reply that the handler meets if it misses. */
  datatype Arrival = Arrival(event: Event, reply: Option<map<string, Fluctuation>>, now: int)

  function HandleAll(w: World, es: seq<Arrival>): World
    decreases |es|
  {
    if es == [] then w else HandleAll(Handle(w, es[0].event, es[0].reply, es[0].now), es[1..])
  }

  function Count(w: World, es: seq<Arrival>, kind: Kind): nat
    decreases |es|
  {
    if es == [] then 0
    else
      (if Classify(Get(w.cache, es[0].event.code), es[0].event) == kind then 1 else 0)
      + Count(Handle(w, es[0].event, es[0].reply, es[0].now), es[1..], kind)
  }

  /** Every event is a raw row, a rollover or a miss, and the messages are the full updates. */
  lemma {:induction false} EventsAreConserved(w: World, es: seq<Arrival>)
    ensures |HandleAll(w, es).raw| + Count(w, es, Rollover) + Count(w, es, Miss) == |w.raw| + |es|
    ensures |HandleAll(w, es).published| == |w.published| + Count(w, es, Full)
    decreases |es|
  {
    if es != [] {
      EventsAreConserved(Handle(w, es[0].event, es[0].reply, es[0].now), es[1..]);
    }
  }

  /** A message carries what the cache holds right after the write. */
  lemma PublishedIsCached(w: World, a: Arrival)
    requires Classify(Get(w.cache, a.event.code), a.event) == Full
    ensures var w' := Handle(w, a.event, a.reply, a.now);
      && w'.published[..|w.published|] == w.published && |w'.published| == |w.published| + 1
      && var m := w'.published[|w.published|];
         Get(w'.cache, m.code) == Hash(Some(m.rate), Some(m.change), Some(m.changePct), Some(m.timestamp),
             Some(m.openRate))
  {
    assert Get(w.cache, a.event.code).openRate.Some?;
  }

  /**
   A miss costs the event: nothing is published or stored, and its price is not kept. Every
   supported currency that the reply knows is rewritten, cold or not, and no other.
  */
  lemma MissRewritesAll(w: World, a: Arrival, code: string)
    requires Classify(Get(w.cache, a.event.code), a.event) == Miss
    ensures var w' := Handle(w, a.event, a.reply, a.now);
      && w'.published == w.published && w'.raw == w.raw
      && Get(w'.cache, code) ==
           if code in SUPPORTED && a.reply.Some? && code in a.reply.value
           then Fill(a.reply.value[code], a.now) else Get(w.cache, code)
  {
    if a.reply.Some? { FilledExactly(w.cache, SUPPORTED, a.reply.value, a.now, code); }
  }

  predicate AllWarm(w: World, codes: set<string>) {
    forall code :: code in codes ==> Warm(Get(w.cache, code))
  }

  lemma WarmStays(w: World, a: Arrival, codes: set<string>)
    requires AllWarm(w, codes)
    ensures AllWarm(Handle(w, a.event, a.reply, a.now), codes)
  {
    if Classify(Get(w.cache, a.event.code), a.event) == Miss && a.reply.Some? {
      forall code | code in codes ensures Warm(Get(FillAll(w.cache, SUPPORTED, a.reply.value, a.now), code)) {
        FilledExactly(w.cache, SUPPORTED, a.reply.value, a.now, code);
      }
    }
  }

  /** Once the currencies of the feed are warm, no event misses. */
  lemma {:induction false} NoMissAfterWarmUp(w: World, es: seq<Arrival>, codes: set<string>)
    requires AllWarm(w, codes) && forall j :: 0 <= j < |es| ==> es[j].event.code in codes
    ensures Count(w, es, Miss) == 0 && AllWarm(HandleAll(w, es), codes)
    decreases |es|
  {
    if es != [] {
      assert es[0].event.code in codes;
      WarmStays(w, es[0], codes);
      NoMissAfterWarmUp(Handle(w, es[0].event, es[0].reply, es[0].now), es[1..], codes);
    }
  }

  function QuotesOf(es: seq<Arrival>, code: string): seq<Quote>
    decreases |es|
  {
    if es == [] then []
    else
      (if es[0].event.code == code then [Quote(ToFixed6(es[0].event.rate), es[0].event.timestamp)] else [])
      + QuotesOf(es[1..], code)
  }

  function MessagesFor(log: seq<Message>, code: string): seq<Message>
    decreases |log|
  {
    if log == [] then []
    else MessagesFor(log[..|log| - 1], code) + (if log[|log| - 1].code == code then [log[|log| - 1]] else [])
  }

  function RowsFor(raw: seq<RawRow>, code: string): seq<real>
    decreases |raw|
  {
    if raw == [] then []
    else RowsFor(raw[..|raw| - 1], code) + (if raw[|raw| - 1].code == code then [raw[|raw| - 1].rate] else [])
  }

  function TrackOf(w: World, code: string): Track {
    Track(Get(w.cache, code), MessagesFor(w.published, code), RowsFor(w.raw, code))
  }

  /** One event moves its own currency by one quote, and no other currency at all. */
  lemma OneEvent(w: World, a: Arrival, code: string)
    requires Warm(Get(w.cache, a.event.code)) && Warm(Get(w.cache, code))
    ensures var w', t := Handle(w, a.event, a.reply, a.now), TrackOf(w, code);
      TrackOf(w', code) ==
        if a.event.code == code
        then Next(code, GateOf(code), t, Quote(ToFixed6(a.event.rate), a.event.timestamp))
        else t
  {
    var w' := Handle(w, a.event, a.reply, a.now);
    if w'.published != w.published {
      assert w'.published[..|w'.published| - 1] == w.published;
    }
    if w'.raw != w.raw {
      assert w'.raw[..|w'.raw| - 1] == w.raw;
    }
  }

  lemma {:induction false} CurrenciesAreIndependent(w: World, es: seq<Arrival>, codes: set<string>, code: string)
    requires AllWarm(w, codes) && code in codes && forall j :: 0 <= j < |es| ==> es[j].event.code in codes
    ensures TrackOf(HandleAll(w, es), code) == Follow(code, GateOf(code), TrackOf(w, code), QuotesOf(es, code))
    decreases |es|
  {
    if es != [] {
      assert es[0].event.code in codes;
      WarmStays(w, es[0], codes);
      OneEvent(w, es[0], code);
      if es[0].event.code == code {
        assert QuotesOf(es, code)[1..] == QuotesOf(es[1..], code);
      } else {
        assert QuotesOf(es, code) == QuotesOf(es[1..], code);
      }
      CurrenciesAreIndependent(Handle(w, es[0].event, es[0].reply, es[0].now), es[1..], codes, code);
    }
  }

  /** The run of the whole service, seen from one warm currency, is its description by days. */
  lemma ServiceRefinesDays(w: World, es: seq<Arrival>, codes: set<string>, code: string)
    requires AllWarm(w, codes) && code in codes && forall j :: 0 <= j < |es| ==> es[j].event.code in codes
    ensures TrackOf(HandleAll(w, es), code) == ByDays(code, GateOf(code), TrackOf(w, code), QuotesOf(es, code))
  {
    CurrenciesAreIndependent(w, es, codes, code);
    RunRefinesDays(code, GateOf(code), TrackOf(w, code), QuotesOf(es, code));
  }
}

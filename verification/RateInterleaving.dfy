/**
 Handlers of one currency that overlap. Each is cut at its awaits: it reads the hash, writes it,
 publishes if the write was a full one, and stores its raw row; other handlers run in between.
*/
module RateInterleaving {
  import opened Options
  import opened RateCache
  import opened RateRuns

  datatype Pc = Start | HasRead(snapshot: Hash) | HasWritten(full: bool, open: real) | HasPublished | Done

  datatype Proc = Proc(quote: Quote, pc: Pc)

  datatype State = State(hash: Hash, log: seq<Message>, rows: seq<real>, procs: seq<Proc>)

  /** The next step of handler `i`. */
  function Step(code: string, gate: Gate, s: State, i: nat): State
    requires i < |s.procs|
  {
    var q := s.procs[i].quote;
    match s.procs[i].pc
    case Start =>
      s.(procs := s.procs[i := Proc(q, if Warm(s.hash) then HasRead(s.hash) else Done)])
    case HasRead(h) =>
      if !Warm(h) then s
      else if Day(q.timestamp) != Day(h.timestamp.value) then
        State(HSet(s.hash, Hash(Some(q.rate), Some(q.rate - h.rate.value), Some(Given(0.0)), Some(q.timestamp),
            h.rate)),
              s.log, s.rows, s.procs[i := Proc(q, Done)])
      else
        var open := h.openRate.value;
        if gate(open, q.rate) then
          State(HSet(s.hash, Hash(Some(q.rate), Some(q.rate - open), Some(Ratio(q.rate - open, open)),
              Some(q.timestamp), None)),
                s.log, s.rows, s.procs[i := Proc(q, HasWritten(true, open))])
        else
          State(HSet(s.hash, EMPTY.(timestamp := Some(q.timestamp))),
                s.log, s.rows, s.procs[i := Proc(q, HasWritten(false, open))])
    case HasWritten(full, open) =>
      if full then s.(log := s.log + [MessageOf(code, open, q)], procs := s.procs[i := Proc(q, HasPublished)])
      else s.(rows := s.rows + [q.rate], procs := s.procs[i := Proc(q, Done)])
    case HasPublished => s.(rows := s.rows + [q.rate], procs := s.procs[i := Proc(q, Done)])
    case Done => s
  }

  /** A schedule names, step by step, the handler that moves. */
  predicate Schedule(s: State, order: seq<nat>) {
    forall j :: 0 <= j < |order| ==> order[j] < |s.procs|
  }

  function Run(code: string, gate: Gate, s: State, order: seq<nat>): State
    requires Schedule(s, order)
    decreases |order|
  {
    if order == [] then s
    else
      var s1 := Step(code, gate, s, order[0]);
      assert forall j :: 0 <= j < |order| - 1 ==> order[1..][j] == order[j + 1];
      Run(code, gate, s1, order[1..])
  }

  /** A handler that nobody overlaps is the handler of the sequential model. */
  lemma AloneIsNext(code: string, gate: Gate, t: WarmTrack, q: Quote)
    ensures var s := Begin(t, [q]);
      var e := Step(code, gate, Step(code, gate, Step(code, gate, Step(code, gate, s, 0), 0), 0), 0);
      e.procs[0].pc.Done? && Track(e.hash, e.log, e.rows) == Next(code, gate, t, q)
  {
  }

  predicate Finished(s: State) {
    forall i :: 0 <= i < |s.procs| ==> s.procs[i].pc.Done?
  }

  function Begin(t: WarmTrack, qs: seq<Quote>): State {
    State(t.hash, t.log, t.rows, seq(|qs|, i requires 0 <= i < |qs| => Proc(qs[i], Start)))
  }

  /** The message that a handler still owes, and the row. */
  function OwedMessage(code: string, gate: Gate, open: real, x: Proc): multiset<Message> {
    if (x.pc.HasPublished? || x.pc.Done?) || !gate(open, x.quote.rate) then multiset{}
    else multiset{MessageOf(code, open, x.quote)}
  }

  function OwedRow(x: Proc): multiset<real> {
    if x.pc.Done? then multiset{} else multiset{x.quote.rate}
  }

  function Total<T>(bags: seq<multiset<T>>): multiset<T>
    decreases |bags|
  {
    if bags == [] then multiset{} else Total(bags[..|bags| - 1]) + bags[|bags| - 1]
  }

  function OwedMessages(code: string, gate: Gate, open: real, procs: seq<Proc>): multiset<Message> {
    Total(seq(|procs|, i requires 0 <= i < |procs| => OwedMessage(code, gate, open, procs[i])))
  }

  function OwedRows(procs: seq<Proc>): multiset<real> {
    Total(seq(|procs|, i requires 0 <= i < |procs| => OwedRow(procs[i])))
  }

  lemma {:induction false} TotalMoves<T>(bags: seq<multiset<T>>, i: nat, x: multiset<T>)
    requires i < |bags|
    ensures Total(bags[i := x]) + bags[i] == Total(bags) + x
    decreases |bags|
  {
    var n := |bags| - 1;
    if i == n {
      assert bags[i := x][..n] == bags[..n];
    } else {
      assert bags[i := x][..n] == bags[..n][i := x];
      TotalMoves(bags[..n], i, x);
      assert Total(bags[i := x]) + bags[i] == (Total(bags[..n][i := x]) + bags[i]) + bags[n];
    }
  }

  lemma {:induction false} TotalEmpty<T>(bags: seq<multiset<T>>)
    requires forall i :: 0 <= i < |bags| ==> bags[i] == multiset{}
    ensures Total(bags) == multiset{}
    decreases |bags|
  {
    if bags != [] {
      TotalEmpty(bags[..|bags| - 1]);
    }
  }

  lemma Settle<T>(l: multiset<T>, l': multiset<T>, b: multiset<T>, b': multiset<T>, x: multiset<T>, x': multiset<T>)
    requires l' + x' == l + x && b' + x == b + x'
    ensures l' + b' == l + b
  {
    forall v ensures (l' + b')[v] == (l + b)[v] {
      assert (l' + x')[v] == (l + x)[v] && (b' + x)[v] == (b + x')[v];
    }
  }

  lemma MessageMoves(code: string, gate: Gate, open: real, procs: seq<Proc>, i: nat, x: Proc)
    requires i < |procs|
    ensures OwedMessages(code, gate, open, procs[i := x]) + OwedMessage(code, gate, open, procs[i])
            == OwedMessages(code, gate, open, procs) + OwedMessage(code, gate, open, x)
  {
    var bags := seq(|procs|, j requires 0 <= j < |procs| => OwedMessage(code, gate, open, procs[j]));
    var procs' := procs[i := x];
    assert seq(|procs'|, j requires 0 <= j < |procs'| => OwedMessage(code, gate, open, procs'[j]))
        == bags[i := OwedMessage(code, gate, open, x)];
    TotalMoves(bags, i, OwedMessage(code, gate, open, x));
  }

  lemma RowMoves(procs: seq<Proc>, i: nat, x: Proc)
    requires i < |procs|
    ensures OwedRows(procs[i := x]) + OwedRow(procs[i]) == OwedRows(procs) + OwedRow(x)
  {
    var bags := seq(|procs|, j requires 0 <= j < |procs| => OwedRow(procs[j]));
    var procs' := procs[i := x];
    assert seq(|procs'|, j requires 0 <= j < |procs'| => OwedRow(procs'[j])) == bags[i := OwedRow(x)];
    TotalMoves(bags, i, OwedRow(x));
  }

  lemma NothingOwed(code: string, gate: Gate, open: real, procs: seq<Proc>)
    requires forall i :: 0 <= i < |procs| ==> procs[i].pc.Done?
    ensures OwedMessages(code, gate, open, procs) == multiset{} && OwedRows(procs) == multiset{}
  {
    TotalEmpty(seq(|procs|, i requires 0 <= i < |procs| => OwedMessage(code, gate, open, procs[i])));
    TotalEmpty(seq(|procs|, i requires 0 <= i < |procs| => OwedRow(procs[i])));
  }

  predicate ProcOk(code: string, gate: Gate, open: real, day: int, x: Proc) {
    && Day(x.quote.timestamp) == day
    && (x.pc.HasRead? ==>
        && Warm(x.pc.snapshot) && x.pc.snapshot.openRate == Some(open)
        && Day(x.pc.snapshot.timestamp.value) == day)
    && (x.pc.HasWritten? ==> x.pc.open == open && (x.pc.full <==> gate(open, x.quote.rate)))
    && (x.pc.HasPublished? ==> gate(open, x.quote.rate))
  }

  /** On one day: the opening stays, and the handlers agree on it. */
  predicate OneDay(code: string, gate: Gate, open: real, day: int, s: State) {
    && Warm(s.hash) && s.hash.openRate == Some(open) && Day(s.hash.timestamp.value) == day
    && (forall i :: 0 <= i < |s.procs| ==> ProcOk(code, gate, open, day, s.procs[i]))
  }

  /** Done and owed together are the same in both states. */
  predicate Balanced(code: string, gate: Gate, open: real, s: State, s': State) {
    && multiset(s'.log) + OwedMessages(code, gate, open, s'.procs)
        == multiset(s.log) + OwedMessages(code, gate, open, s.procs)
    && multiset(s'.rows) + OwedRows(s'.procs) == multiset(s.rows) + OwedRows(s.procs)
  }

  lemma StepStaysOnDay(code: string, gate: Gate, open: real, day: int, s: State, i: nat)
    requires OneDay(code, gate, open, day, s) && i < |s.procs|
    ensures OneDay(code, gate, open, day, Step(code, gate, s, i)) && |Step(code, gate, s, i).procs| == |s.procs|
    ensures Consistent(s.hash) ==> Consistent(Step(code, gate, s, i).hash)
  {
    assert ProcOk(code, gate, open, day, s.procs[i]);
  }

  /** One step pays exactly what its handler owes less afterwards. */
  lemma StepPays(code: string, gate: Gate, open: real, day: int, s: State, i: nat)
    requires i < |s.procs| && ProcOk(code, gate, open, day, s.procs[i]) && Warm(s.hash)
    ensures var s' := Step(code, gate, s, i);
      && |s'.procs| == |s.procs| && s'.procs == s.procs[i := s'.procs[i]]
      && multiset(s'.log) + OwedMessage(code, gate, open, s'.procs[i])
          == multiset(s.log) + OwedMessage(code, gate, open, s.procs[i])
      && multiset(s'.rows) + OwedRow(s'.procs[i]) == multiset(s.rows) + OwedRow(s.procs[i])
  {
    var s', x := Step(code, gate, s, i), s.procs[i];
    if x.pc.HasPublished? || (x.pc.HasWritten? && !x.pc.full) {
      assert s'.rows == s.rows + [x.quote.rate] && s'.log == s.log && s'.procs[i] == Proc(x.quote, Done);
    } else if x.pc.HasWritten? {
      assert s'.log == s.log + [MessageOf(code, open, x.quote)] && s'.rows == s.rows
          && s'.procs[i] == Proc(x.quote, HasPublished);
    } else {
      assert s'.log == s.log && s'.rows == s.rows;
      assert x.pc.Done? <==> s'.procs[i].pc.Done?;
      assert !s'.procs[i].pc.HasPublished? && s'.procs[i].quote == x.quote;
    }
  }

  lemma StepKeeps(code: string, gate: Gate, open: real, day: int, s: State, i: nat)
    requires OneDay(code, gate, open, day, s) && i < |s.procs|
    ensures OneDay(code, gate, open, day, Step(code, gate, s, i)) && |Step(code, gate, s, i).procs| == |s.procs|
    ensures Balanced(code, gate, open, s, Step(code, gate, s, i))
    ensures Consistent(s.hash) ==> Consistent(Step(code, gate, s, i).hash)
  {
    StepStaysOnDay(code, gate, open, day, s, i);
    StepPays(code, gate, open, day, s, i);
    var s', x, x' := Step(code, gate, s, i), s.procs[i], Step(code, gate, s, i).procs[i];
    MessageMoves(code, gate, open, s.procs, i, x');
    Settle(multiset(s.log), multiset(s'.log), OwedMessages(code, gate, open, s.procs),
        OwedMessages(code, gate, open, s'.procs),
           OwedMessage(code, gate, open, x), OwedMessage(code, gate, open, x'));
    RowMoves(s.procs, i, x');
    Settle(multiset(s.rows), multiset(s'.rows), OwedRows(s.procs), OwedRows(s'.procs), OwedRow(x), OwedRow(x'));
  }

  lemma {:induction false} RunKeeps(code: string, gate: Gate, open: real, day: int, s: State, order: seq<nat>)
    requires OneDay(code, gate, open, day, s) && Schedule(s, order)
    ensures OneDay(code, gate, open, day, Run(code, gate, s, order)) && |Run(code, gate, s, order).procs| == |s.procs|
    ensures Balanced(code, gate, open, s, Run(code, gate, s, order))
    ensures Consistent(s.hash) ==> Consistent(Run(code, gate, s, order).hash)
    decreases |order|
  {
    if order != [] {
      StepKeeps(code, gate, open, day, s, order[0]);
      assert forall j :: 0 <= j < |order| - 1 ==> order[1..][j] == order[j + 1];
      RunKeeps(code, gate, open, day, Step(code, gate, s, order[0]), order[1..]);
    }
  }

  lemma {:induction false} OwedAtStart(code: string, gate: Gate, open: real, qs: seq<Quote>)
    ensures Total(seq(|qs|, i requires 0 <= i < |qs| => OwedMessage(code, gate, open, Proc(qs[i], Start))))
            == multiset(MessagesBeyond(code, gate, open, qs))
    ensures Total(seq(|qs|, i requires 0 <= i < |qs| => OwedRow(Proc(qs[i], Start)))) == multiset(RatesOf(qs))
    decreases |qs|
  {
    if qs != [] {
      var n := |qs| - 1;
      var init := qs[..n];
      assert qs == init + [qs[n]];
      assert seq(|qs|, i requires 0 <= i < |qs| => OwedMessage(code, gate, open, Proc(qs[i], Start)))[..n]
          == seq(n, i requires 0 <= i < n => OwedMessage(code, gate, open, Proc(init[i], Start)));
      assert seq(|qs|, i requires 0 <= i < |qs| => OwedRow(Proc(qs[i], Start)))[..n]
          == seq(n, i requires 0 <= i < n => OwedRow(Proc(init[i], Start)));
      assert RatesOf(qs) == RatesOf(init) + [qs[n].rate];
      OwedAtStart(code, gate, open, init);
    }
  }

  lemma OwedByBegin(code: string, gate: Gate, open: real, t: WarmTrack, qs: seq<Quote>)
    ensures OwedMessages(code, gate, open, Begin(t, qs).procs) == multiset(MessagesBeyond(code, gate, open, qs))
    ensures OwedRows(Begin(t, qs).procs) == multiset(RatesOf(qs))
  {
    var procs := Begin(t, qs).procs;
    assert seq(|procs|, i requires 0 <= i < |procs| => OwedMessage(code, gate, open, procs[i]))
        == seq(|qs|, i requires 0 <= i < |qs| => OwedMessage(code, gate, open, Proc(qs[i], Start)));
    assert seq(|procs|, i requires 0 <= i < |procs| => OwedRow(procs[i]))
        == seq(|qs|, i requires 0 <= i < |qs| => OwedRow(Proc(qs[i], Start)));
    OwedAtStart(code, gate, open, qs);
  }

  /**
   At every point of every interleaving of one day the opening stands, and the change fits the rate
   if it did before.
  */
  lemma OpeningNeverMoves(code: string, gate: Gate, t: WarmTrack, qs: seq<Quote>, order: seq<nat>)
    requires AllOn(Day(t.hash.timestamp.value), qs) && Schedule(Begin(t, qs), order)
    ensures Warm(Run(code, gate, Begin(t, qs), order).hash)
    ensures Run(code, gate, Begin(t, qs), order).hash.openRate == t.hash.openRate
    ensures Consistent(t.hash) ==> Consistent(Run(code, gate, Begin(t, qs), order).hash)
  {
    RunKeeps(code, gate, t.hash.openRate.value, Day(t.hash.timestamp.value), Begin(t, qs), order);
  }

  /** Every finished interleaving publishes and stores what the handlers do one after the other. */
  lemma InterleavingsConfluent(code: string, gate: Gate, t: WarmTrack, qs: seq<Quote>, order: seq<nat>)
    requires AllOn(Day(t.hash.timestamp.value), qs) && Schedule(Begin(t, qs), order)
    requires Finished(Run(code, gate, Begin(t, qs), order))
    ensures var s, sequential := Run(code, gate, Begin(t, qs), order), Follow(code, gate, t, qs);
      && multiset(s.log) == multiset(sequential.log)
      && multiset(s.rows) == multiset(sequential.rows)
      && s.hash.openRate == sequential.hash.openRate
  {
    var open := t.hash.openRate.value;
    var s := Run(code, gate, Begin(t, qs), order);
    RunKeeps(code, gate, open, Day(t.hash.timestamp.value), Begin(t, qs), order);
    NothingOwed(code, gate, open, s.procs);
    OwedByBegin(code, gate, open, t, qs);
    SameDayRefines(code, gate, t, qs);
  }
}

/**
 When overlapping handlers of one currency publish and store what they do one after the other:
 exactly when all events are of the stored day, or no two days meet at all.
*/
module RateConfluence {
  import opened Options
  import opened RateCache
  import opened RateRuns
  import opened RateInterleaving

  /** Every finished interleaving has the messages and the rows of the sequential run, in some order. */
  ghost predicate Confluent(code: string, gate: Gate, t: WarmTrack, qs: seq<Quote>)
  {
    forall order :: Schedule(Begin(t, qs), order) && Finished(Run(code, gate, Begin(t, qs), order)) ==>
      && multiset(Run(code, gate, Begin(t, qs), order).log) == multiset(Follow(code, gate, t, qs).log)
      && multiset(Run(code, gate, Begin(t, qs), order).rows) == multiset(Follow(code, gate, t, qs).rows)
  }

  /** No event is of the stored day, and no two events are of the same day. */
  predicate AllApart(day: int, qs: seq<Quote>) {
    && (forall i :: 0 <= i < |qs| ==> Day(qs[i].timestamp) != day)
    && (forall i, j :: 0 <= i < j < |qs| ==> Day(qs[i].timestamp) != Day(qs[j].timestamp))
  }

  // ---------------------------------------------------------------- days that never meet

  predicate ProcApart(h: Hash, x: Proc) {
    && (x.pc.Start? || x.pc.HasRead? || x.pc.Done?)
    && (!x.pc.Done? ==> Warm(h) && Day(x.quote.timestamp) != Day(h.timestamp.value))
    && (x.pc.HasRead? ==> Warm(x.pc.snapshot) && Day(x.quote.timestamp) != Day(x.pc.snapshot.timestamp.value))
  }

  predicate Apart(s: State) {
    && Warm(s.hash)
    && (forall i :: 0 <= i < |s.procs| ==> ProcApart(s.hash, s.procs[i]))
    && (forall i, j :: 0 <= i < j < |s.procs| ==> Day(s.procs[i].quote.timestamp) != Day(s.procs[j].quote.timestamp))
  }

  lemma StepStaysApart(code: string, gate: Gate, s: State, i: nat)
    requires Apart(s) && i < |s.procs|
    ensures var s' := Step(code, gate, s, i);
      Apart(s') && s'.log == s.log && s'.rows == s.rows && |s'.procs| == |s.procs|
  {
    assert ProcApart(s.hash, s.procs[i]);
    var s' := Step(code, gate, s, i);
    forall j | 0 <= j < |s'.procs| ensures ProcApart(s'.hash, s'.procs[j]) {
      assert ProcApart(s.hash, s.procs[j]);
    }
  }

  lemma {:induction false} RunStaysApart(code: string, gate: Gate, s: State, order: seq<nat>)
    requires Apart(s) && Schedule(s, order)
    ensures Run(code, gate, s, order).log == s.log && Run(code, gate, s, order).rows == s.rows
    decreases |order|
  {
    if order != [] {
      StepStaysApart(code, gate, s, order[0]);
      assert forall j :: 0 <= j < |order| - 1 ==> order[1..][j] == order[j + 1];
      RunStaysApart(code, gate, Step(code, gate, s, order[0]), order[1..]);
    }
  }

  lemma {:induction false} FollowApart(code: string, gate: Gate, t: WarmTrack, qs: seq<Quote>)
    requires AllApart(Day(t.hash.timestamp.value), qs)
    ensures Follow(code, gate, t, qs).log == t.log && Follow(code, gate, t, qs).rows == t.rows
    decreases |qs|
  {
    if qs != [] {
      FollowApart(code, gate, Next(code, gate, t, qs[0]), qs[1..]);
    }
  }

  lemma ApartIsConfluent(code: string, gate: Gate, t: WarmTrack, qs: seq<Quote>)
    requires AllApart(Day(t.hash.timestamp.value), qs)
    ensures Confluent(code, gate, t, qs)
  {
    FollowApart(code, gate, t, qs);
    forall order | Schedule(Begin(t, qs), order)
      ensures Run(code, gate, Begin(t, qs), order).log == t.log && Run(code, gate, Begin(t, qs), order).rows == t.rows
    {
      RunStaysApart(code, gate, Begin(t, qs), order);
    }
  }

  // ---------------------------------------------------------------- schedules and their rows

  predicate Ready(s: State) {
    && Warm(s.hash)
    && (forall i :: 0 <= i < |s.procs| && s.procs[i].pc.HasRead? ==> Warm(s.procs[i].pc.snapshot))
  }

  /** The rows that a handler stores if those that have not started read a hash of `day`. */
  function Owes(day: int, x: Proc): nat {
    match x.pc
    case Start => if Day(x.quote.timestamp) == day then 1 else 0
    case HasRead(h) => if Warm(h) && Day(x.quote.timestamp) == Day(h.timestamp.value) then 1 else 0
    case Done => 0
    case _ => 1
  }

  function StepsLeft(x: Proc): nat {
    match x.pc
    case Start => 4
    case HasRead(_) => 3
    case HasWritten(_, _) => 2
    case HasPublished => 1
    case Done => 0
  }

  function AllOwe(day: int, procs: seq<Proc>): nat {
    if procs == [] then 0 else AllOwe(day, procs[..|procs| - 1]) + Owes(day, procs[|procs| - 1])
  }

  function AllLeft(procs: seq<Proc>): nat {
    if procs == [] then 0 else AllLeft(procs[..|procs| - 1]) + StepsLeft(procs[|procs| - 1])
  }

  lemma {:induction false} OneMoves(day: int, procs: seq<Proc>, i: nat, x: Proc)
    requires i < |procs|
    ensures AllOwe(day, procs[i := x]) + Owes(day, procs[i]) == AllOwe(day, procs) + Owes(day, x)
    ensures AllLeft(procs[i := x]) + StepsLeft(procs[i]) == AllLeft(procs) + StepsLeft(x)
    decreases |procs|
  {
    var n := |procs| - 1;
    if i == n {
      assert procs[i := x][..n] == procs[..n];
    } else {
      assert procs[i := x][..n] == procs[..n][i := x];
      OneMoves(day, procs[..n], i, x);
    }
  }

  lemma {:induction false} OneOwes(day: int, procs: seq<Proc>, i: nat)
    requires i < |procs|
    ensures Owes(day, procs[i]) <= AllOwe(day, procs)
    decreases |procs|
  {
    if i < |procs| - 1 {
      OneOwes(day, procs[..|procs| - 1], i);
    }
  }

  lemma {:induction false} NoneOwes(day: int, procs: seq<Proc>)
    requires forall i :: 0 <= i < |procs| ==> Owes(day, procs[i]) == 0
    ensures AllOwe(day, procs) == 0
    decreases |procs|
  {
    if procs != [] {
      NoneOwes(day, procs[..|procs| - 1]);
    }
  }

  /** A step stores what its handler owes less afterwards. */
  lemma StepCounts(code: string, gate: Gate, s: State, i: nat, day: int)
    requires Ready(s) && i < |s.procs| && !s.procs[i].pc.Done?
    requires s.procs[i].pc.Start? ==> day == Day(s.hash.timestamp.value)
    ensures var s' := Step(code, gate, s, i);
      && Ready(s') && |s'.procs| == |s.procs|
      && |s'.rows| + AllOwe(day, s'.procs) == |s.rows| + AllOwe(day, s.procs)
      && AllLeft(s'.procs) < AllLeft(s.procs)
      && (s.procs[i].pc.Start? ==> s'.hash == s.hash)
      && (forall j :: 0 <= j < |s'.procs| && s'.procs[j].pc.Start? ==> s.procs[j].pc.Start?)
  {
    var s' := Step(code, gate, s, i);
    assert s'.procs == s.procs[i := s'.procs[i]];
    OneMoves(day, s.procs, i, s'.procs[i]);
  }

  /** First everybody reads, then all go on to the end: exactly what was owed is stored. */
  lemma {:induction false} ReadThenFinish(code: string, gate: Gate, s: State, day: int) returns (order: seq<nat>)
    requires Ready(s)
    requires day == Day(s.hash.timestamp.value) || forall i :: 0 <= i < |s.procs| ==> !s.procs[i].pc.Start?
    ensures Schedule(s, order) && Finished(Run(code, gate, s, order))
    ensures |Run(code, gate, s, order).rows| == |s.rows| + AllOwe(day, s.procs)
    decreases AllLeft(s.procs)
  {
    if Finished(s) {
      NoneOwes(day, s.procs);
      return [];
    }
    var i: nat;
    if j :| 0 <= j < |s.procs| && s.procs[j].pc.Start? {
      i := j;
    } else {
      i :| 0 <= i < |s.procs| && !s.procs[i].pc.Done?;
    }
    StepCounts(code, gate, s, i, day);
    var rest := ReadThenFinish(code, gate, Step(code, gate, s, i), day);
    order := [i] + rest;
  }

  /** A handler that meets another day reads, rolls over and is done. */
  lemma Rollover(code: string, gate: Gate, s: State, i: nat) returns (s': State)
    requires Ready(s) && i < |s.procs| && s.procs[i].pc.Start?
    requires Day(s.procs[i].quote.timestamp) != Day(s.hash.timestamp.value)
    ensures s' == Step(code, gate, Step(code, gate, s, i), i)
    ensures Ready(s') && s'.procs == s.procs[i := Proc(s.procs[i].quote, Done)]
    ensures s'.rows == s.rows && s'.hash.timestamp == Some(s.procs[i].quote.timestamp)
  {
    var s1 := Step(code, gate, s, i);
    s' := Step(code, gate, s1, i);
    assert s'.procs == s.procs[i := Proc(s.procs[i].quote, Done)];
  }

  lemma PrependTwice(code: string, gate: Gate, s: State, i: nat, rest: seq<nat>)
    requires i < |s.procs| == |Step(code, gate, s, i).procs| == |Step(code, gate, Step(code, gate, s, i), i).procs|
    requires Schedule(Step(code, gate, Step(code, gate, s, i), i), rest)
    ensures Schedule(s, [i, i] + rest)
    ensures Run(code, gate, s, [i, i] + rest) == Run(code, gate, Step(code, gate, Step(code, gate, s, i), i), rest)
  {
    assert [i] + ([i] + rest) == [i, i] + rest;
  }

  ghost predicate Stores(code: string, gate: Gate, s: State, n: int) {
    exists order :: Schedule(s, order) && Finished(Run(code, gate, s, order)) && |Run(code, gate, s, order).rows| == n
  }

  lemma AllReadFirst(code: string, gate: Gate, t: WarmTrack, qs: seq<Quote>)
    ensures Stores(code, gate, Begin(t, qs), |t.rows| + AllOwe(Day(t.hash.timestamp.value), Begin(t, qs).procs))
  {
    var order := ReadThenFinish(code, gate, Begin(t, qs), Day(t.hash.timestamp.value));
  }

  /** An event of another day goes first, then one of the stored day: both roll over, and one row is lost. */
  lemma ThereAndBack(code: string, gate: Gate, t: WarmTrack, qs: seq<Quote>, a: nat, b: nat)
    requires a < |qs| && b < |qs|
    requires Day(qs[a].timestamp) == Day(t.hash.timestamp.value) != Day(qs[b].timestamp)
    ensures Stores(code, gate, Begin(t, qs), |t.rows| + AllOwe(Day(t.hash.timestamp.value), Begin(t, qs).procs) - 1)
  {
    var s0, day := Begin(t, qs), Day(t.hash.timestamp.value);
    var s1 := Rollover(code, gate, s0, b);
    var s2 := Rollover(code, gate, s1, a);
    OneMoves(day, s0.procs, b, Proc(qs[b], Done));
    OneMoves(day, s1.procs, a, Proc(qs[a], Done));
    var rest := ReadThenFinish(code, gate, s2, day);
    PrependTwice(code, gate, s1, a, rest);
    PrependTwice(code, gate, s0, b, [a, a] + rest);
  }

  /** Two events of one other day: the second stores its row if it reads after the first has written. */
  lemma SecondOfDay(code: string, gate: Gate, t: WarmTrack, qs: seq<Quote>, a: nat, b: nat) returns (n: int)
    requires a < |qs| && b < |qs| && a != b
    requires Day(qs[a].timestamp) == Day(qs[b].timestamp) != Day(t.hash.timestamp.value)
    ensures Stores(code, gate, Begin(t, qs), n) && n > |t.rows|
  {
    var s0, day := Begin(t, qs), Day(qs[a].timestamp);
    var s1 := Rollover(code, gate, s0, a);
    OneOwes(day, s1.procs, b);
    var rest := ReadThenFinish(code, gate, s1, day);
    PrependTwice(code, gate, s0, a, rest);
    n := |t.rows| + AllOwe(day, s1.procs);
  }

  lemma NotBoth(code: string, gate: Gate, t: WarmTrack, qs: seq<Quote>, m: int, n: int)
    requires m != n && Stores(code, gate, Begin(t, qs), m) && Stores(code, gate, Begin(t, qs), n)
    ensures !Confluent(code, gate, t, qs)
  {
    var a :| Schedule(Begin(t, qs), a) && Finished(Run(code, gate, Begin(t, qs), a))
        && |Run(code, gate, Begin(t, qs), a).rows| == m;
    var b :| Schedule(Begin(t, qs), b) && Finished(Run(code, gate, Begin(t, qs), b))
        && |Run(code, gate, Begin(t, qs), b).rows| == n;
    var x, y, z := Run(code, gate, Begin(t, qs), a).rows, Run(code, gate, Begin(t, qs), b).rows,
        Follow(code, gate, t, qs).rows;
    assert multiset(x) == multiset(z) ==> |x| == |z| by { assert |multiset(x)| == |x| && |multiset(z)| == |z|; }
    assert multiset(y) == multiset(z) ==> |y| == |z| by { assert |multiset(y)| == |y| && |multiset(z)| == |z|; }
  }

  lemma MixedIsNotConfluent(code: string, gate: Gate, t: WarmTrack, qs: seq<Quote>)
    requires !AllOn(Day(t.hash.timestamp.value), qs) && !AllApart(Day(t.hash.timestamp.value), qs)
    ensures !Confluent(code, gate, t, qs)
  {
    var day, procs := Day(t.hash.timestamp.value), Begin(t, qs).procs;
    AllReadFirst(code, gate, t, qs);
    if a :| 0 <= a < |qs| && Day(qs[a].timestamp) == day {
      var b :| 0 <= b < |qs| && Day(qs[b].timestamp) != day;
      ThereAndBack(code, gate, t, qs, a, b);
      NotBoth(code, gate, t, qs, |t.rows| + AllOwe(day, procs), |t.rows| + AllOwe(day, procs) - 1);
    } else {
      NoneOwes(day, procs);
      var a, b :| 0 <= a < b < |qs| && Day(qs[a].timestamp) == Day(qs[b].timestamp);
      var n := SecondOfDay(code, gate, t, qs, a, b);
      NotBoth(code, gate, t, qs, |t.rows| + AllOwe(day, procs), n);
    }
  }

  /**
   The messages and rows of overlapping handlers are those of the sequential run, for every
   interleaving, if and only if all events are of the stored day, or none is and no two are of
   the same day, so that every one of them rolls over whatever happens.
  */
  lemma ConfluentExactlyWhen(code: string, gate: Gate, t: WarmTrack, qs: seq<Quote>)
    ensures Confluent(code, gate, t, qs)
            <==> AllOn(Day(t.hash.timestamp.value), qs) || AllApart(Day(t.hash.timestamp.value), qs)
  {
    var day := Day(t.hash.timestamp.value);
    if AllOn(day, qs) {
      forall order | Schedule(Begin(t, qs), order) && Finished(Run(code, gate, Begin(t, qs), order))
        ensures multiset(Run(code, gate, Begin(t, qs), order).log) == multiset(Follow(code, gate, t, qs).log)
        ensures multiset(Run(code, gate, Begin(t, qs), order).rows) == multiset(Follow(code, gate, t, qs).rows)
      {
        InterleavingsConfluent(code, gate, t, qs, order);
      }
    } else if AllApart(day, qs) {
      ApartIsConfluent(code, gate, t, qs);
    } else {
      MixedIsNotConfluent(code, gate, t, qs);
    }
  }

  /** In particular, several events of one day are confluent if and only if it is not a new trading day. */
  lemma NewDayRaces(code: string, gate: Gate, t: WarmTrack, qs: seq<Quote>)
    requires |qs| >= 2 && AllOn(Day(qs[0].timestamp), qs)
    ensures Confluent(code, gate, t, qs) <==> Day(qs[0].timestamp) == Day(t.hash.timestamp.value)
  {
    ConfluentExactlyWhen(code, gate, t, qs);
    assert Day(qs[1].timestamp) == Day(qs[0].timestamp);
  }
}

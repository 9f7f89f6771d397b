/**
 The timing condition is exact: when it fails, some run has two leaders. Either a slow reply
 and a late heartbeat let the lock expire under its leader, or a late DEL removes the lock of
 the next one.
*/
module ElectionExact {
  import opened Options
  import opened RedisLock
  import opened LeaderElection
  import opened ElectionCluster
  import opened ElectionSafety

  const START := State(0, Free, map[], {}, map[], 0, true, 0, 0, 0, 0, 0, 0, map[])

  ghost predicate Reaches(p: Params, s: State, t: State) {
    exists steps :: ValidRun(p, s, steps) && Run(p, s, steps) == t
  }

  lemma {:induction false} Append(p: Params, s: State, steps: seq<Step>, step: Step)
    requires ValidRun(p, s, steps) && Enabled(p, Run(p, s, steps), step)
    ensures ValidRun(p, s, steps + [step])
    ensures Run(p, s, steps + [step]) == Apply(p, Run(p, s, steps), step)
    decreases |steps|
  {
    var all := steps + [step];
    if steps == [] {
      assert all == [step] && all[1..] == [];
      assert ValidRun(p, Apply(p, s, step), []) && Run(p, Apply(p, s, step), []) == Apply(p, s, step);
    } else {
      assert all[0] == steps[0] && all[1..] == steps[1..] + [step];
      Append(p, Apply(p, s, steps[0]), steps[1..], step);
    }
  }

  lemma Then(p: Params, s: State, t: State, step: Step)
    requires Reaches(p, s, t) && Enabled(p, t, step)
    ensures Reaches(p, s, Apply(p, t, step))
  {
    var steps :| ValidRun(p, s, steps) && Run(p, s, steps) == t;
    Append(p, s, steps, step);
  }

  lemma Stay(p: Params, s: State)
    ensures Reaches(p, s, s)
  {
    assert ValidRun(p, s, []) && Run(p, s, []) == s;
  }

  lemma QuickGrant(p: Params, s0: State, s: State, i: nat) returns (t: State)
    requires Reaches(p, s0, s) && s.marketOpen && s.lock.Free? && i !in s.used && FreshOps(s)
    ensures Reaches(p, s0, t) && t.now == s.now && t.lock == Held(i, s.now + LOCK_TTL) && t.marketOpen
    ensures t.nodes == s.nodes[i := FRESH_NODE] && t.used == s.used + {i}
    ensures t.ops == s.ops[s.nextOp := SetDone(i, s.now + p.reply, true)] && t.nextOp == s.nextOp + 1
    ensures t.ledFor == s.ledFor
  {
    var k := s.nextOp;
    var s1 := Apply(p, s, Boot(i));
    Then(p, s0, s, Boot(i));
    assert s1.ops == s.ops[k := SetSent(i, s.now + p.send)];
    t := Apply(p, s1, Exec(k));
    Then(p, s0, s1, Exec(k));
    assert t.ops == s.ops[k := SetDone(i, s.now + p.reply, true)];
  }

  /** An instance that boots on a free lock leads at once if its replies take no time. */
  lemma QuickLeader(p: Params, s0: State, s: State, i: nat) returns (t: State)
    requires Reaches(p, s0, s) && s.marketOpen && s.lock.Free? && i !in s.used && FreshOps(s)
    ensures Reaches(p, s0, t) && t.now == s.now && t.lock == Held(i, s.now + LOCK_TTL) && t.marketOpen
    ensures t.nodes == s.nodes[i := Won(FRESH_NODE, s.now)] && t.used == s.used + {i}
    ensures t.ops == s.ops && FreshOps(t) && t.ledFor == s.ledFor
  {
    var k := s.nextOp;
    var s2 := QuickGrant(p, s0, s, i);
    t := Apply(p, s2, Answer(k));
    Then(p, s0, s2, Answer(k));
    assert t.ops == s.ops;
  }

  /** The first instance is granted the lock at time 0 and does not know yet. */
  lemma FirstGrant(p: Params) returns (t: State)
    ensures Reaches(p, START, t) && t.now == 0 && t.lock == Held(1, LOCK_TTL) && t.marketOpen
    ensures t.nodes == map[1 := FRESH_NODE] && t.used == {1} && t.ops == map[0 := SetDone(1, p.reply, true)]
    ensures t.nextOp == 1
    ensures t.ledFor == 0
  {
    Stay(p, START);
    var s1 := Apply(p, START, Boot(1));
    Then(p, START, START, Boot(1));
    assert s1.ops == map[0 := SetSent(1, p.send)] && s1.nodes == map[1 := FRESH_NODE];
    t := Apply(p, s1, Exec(0));
    Then(p, START, s1, Exec(0));
  }

  /** It leads `late` milliseconds after the grant. */
  lemma SlowLeader(p: Params, late: nat) returns (t: State)
    requires late <= p.reply && late < LOCK_TTL
    ensures Reaches(p, START, t) && t.now == late && t.lock == Held(1, LOCK_TTL) && t.marketOpen
    ensures t.nodes == map[1 := Won(FRESH_NODE, late)] && t.used == {1} && t.ops == map[] && t.nextOp == 1
    ensures t.ledFor == 0
  {
    var s2 := FirstGrant(p);
    var s3 := Apply(p, s2, Tick(late));
    Then(p, START, s2, Tick(late));
    assert s3.ops == s2.ops && s3.nodes == s2.nodes && s3.lock == Held(1, LOCK_TTL);
    t := Apply(p, s3, Answer(0));
    Then(p, START, s3, Answer(0));
    assert t.ops == map[];
  }

  /** Time passes on a lone leader without commands in flight. */
  lemma Wait(p: Params, s: State, late: nat, until: int) returns (t: State)
    requires Reaches(p, START, s) && s.nodes == map[1 := Won(FRESH_NODE, late)] && s.ops == map[]
    requires s.now <= until <= late + RENEWAL_INTERVAL + p.renewal
    ensures Reaches(p, START, t) && t.now == until && t.lock == At(s.lock, until)
    ensures t.nodes == s.nodes && t.ops == map[] && t.used == s.used && t.nextOp == s.nextOp
    ensures t.marketOpen == s.marketOpen
  {
    assert s.nodes[1].timers == map[0 := Timer(Heartbeat, late + RENEWAL_INTERVAL)];
    t := Apply(p, s, Tick(until - s.now));
    Then(p, START, s, Tick(until - s.now));
  }

  /** Two leaders because the renewal comes after the expiry. */
  lemma ExpiredUnderLeader(p: Params) returns (t: State)
    requires p.reply + p.renewal >= LOCK_TTL - RENEWAL_INTERVAL
    ensures Reaches(p, START, t) && !AtMostOneLeader(t)
  {
    var late := Min(p.reply, LOCK_TTL - RENEWAL_INTERVAL);
    var s := SlowLeader(p, late);
    s := Wait(p, s, late, LOCK_TTL);
    t := QuickLeader(p, START, s, 2);
    assert t.nodes[1].isLeader && t.nodes[2].isLeader;
  }

  /** Two leaders because the DEL of a leader that shut down comes after the expiry. */
  lemma ReleasedUnderLeader(p: Params) returns (t: State)
    requires p.reply + p.renewal < LOCK_TTL - RENEWAL_INTERVAL
    requires p.reply + p.renewal + p.release >= LOCK_TTL - RENEWAL_INTERVAL
    ensures Reaches(p, START, t) && !AtMostOneLeader(t)
  {
    var s := SlowLeader(p, p.reply);
    var stop := p.reply + RENEWAL_INTERVAL + p.renewal;
    s := Wait(p, s, p.reply, stop);
    var s1 := Apply(p, s, Shutdown(1));
    Then(p, START, s, Shutdown(1));
    assert s1.ops == map[1 := DelSent(1, stop + p.release)] && s1.nodes == map[];
    var s2 := Apply(p, s1, Tick(LOCK_TTL - stop));
    Then(p, START, s1, Tick(LOCK_TTL - stop));
    assert s2.lock == Free;
    var s3 := QuickLeader(p, START, s2, 2);
    var s4 := Apply(p, s3, Exec(1));
    Then(p, START, s3, Exec(1));
    assert s4.lock == Free && s4.nodes == s3.nodes;
    t := QuickLeader(p, START, s4, 3);
    assert t.nodes[2].isLeader && t.nodes[3].isLeader;
  }

  ghost predicate AlwaysExclusive(p: Params) {
    forall s, steps :: Init(s) && ValidRun(p, s, steps) ==> AtMostOneLeader(Run(p, s, steps))
  }

  /** Mutual exclusion over every run holds if and only if the three delays stay under 15 seconds. */
  lemma ExclusiveExactlyWhenTimely(p: Params)
    ensures AlwaysExclusive(p) <==> p.reply + p.renewal + p.release < 15000
  {
    if Timely(p) {
      forall s, steps | Init(s) && ValidRun(p, s, steps) ensures AtMostOneLeader(Run(p, s, steps)) {
        MutualExclusion(p, s, steps);
      }
    } else {
      var t: State;
      if p.reply + p.renewal >= LOCK_TTL - RENEWAL_INTERVAL {
        t := ExpiredUnderLeader(p);
      } else {
        t := ReleasedUnderLeader(p);
      }
      var steps :| ValidRun(p, START, steps) && Run(p, START, steps) == t;
      assert Init(START);
    }
  }
}

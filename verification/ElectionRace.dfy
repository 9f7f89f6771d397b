/**
 The race of two watchers, in a run that meets every timing bound: an instance that lost two
 elections sends two SETs at once, leads by the first, and is deposed by the second, which its
 own lock rejects. It owns the lock for another minute and renews nothing, and then it happens again.
*/
module ElectionRace {
  import opened Options
  import opened RedisLock
  import opened LeaderElection
  import opened ElectionCluster
  import opened ElectionSafety
  import opened ElectionRecovery
  import opened ElectionExact

  /** An instance that boots while the lock is taken becomes a worker at once. */
  lemma QuickWorker(p: Params, s: State, i: nat) returns (t: State)
    requires Reaches(p, START, s) && s.marketOpen && At(s.lock, s.now).Held? && s.ops == map[] && i !in s.used
    ensures Reaches(p, START, t) && t.now == s.now && t.lock == s.lock && t.marketOpen
    ensures t.nodes == s.nodes[i := Lost(FRESH_NODE, s.now)] && t.used == s.used + {i} && t.ops == map[]
    ensures t.ledFor == s.ledFor
  {
    var k := s.nextOp;
    var s1 := Apply(p, s, Boot(i));
    Then(p, START, s, Boot(i));
    assert s1.ops == map[k := SetSent(i, s.now + p.send)];
    t := Rejected(p, s1, k);
  }

  /** A SET on a taken lock, answered at once. */
  lemma Rejected(p: Params, s: State, k: nat) returns (t: State)
    requires Reaches(p, START, s) && k in s.ops && s.ops[k].SetSent? && s.ops[k].who in s.nodes
    requires At(s.lock, s.now).Held?
    ensures Reaches(p, START, t) && t.now == s.now && t.lock == s.lock && t.marketOpen == s.marketOpen
    ensures t.nodes == s.nodes[s.ops[k].who := Lost(s.nodes[s.ops[k].who], s.now)] && t.used == s.used
    ensures t.ops == s.ops - {k}
    ensures t.ledFor == s.ledFor
  {
    var s1 := Apply(p, s, Exec(k));
    Then(p, START, s, Exec(k));
    t := Apply(p, s1, Answer(k));
    Then(p, START, s1, Answer(k));
    assert t.ops == s.ops - {k};
  }

  /** A SET on a free lock, answered at once. */
  lemma Accepted(p: Params, s: State, k: nat) returns (t: State)
    requires Reaches(p, START, s) && k in s.ops && s.ops[k].SetSent? && s.ops[k].who in s.nodes && s.lock.Free?
    ensures Reaches(p, START, t) && t.now == s.now && t.lock == Held(s.ops[k].who, s.now + LOCK_TTL)
    ensures t.marketOpen == s.marketOpen
    ensures t.nodes == s.nodes[s.ops[k].who := Won(s.nodes[s.ops[k].who], s.now)] && t.used == s.used
    ensures t.ops == s.ops - {k}
    ensures t.ledFor == s.ledFor
  {
    var s1 := Apply(p, s, Exec(k));
    Then(p, START, s, Exec(k));
    t := Apply(p, s1, Answer(k));
    Then(p, START, s1, Answer(k));
    assert t.ops == s.ops - {k} && t.nodes[s.ops[k].who].isLeader;
  }

  /** A leader shuts down and its DEL runs at once. */
  lemma QuickStop(p: Params, s: State, i: nat) returns (t: State)
    requires Reaches(p, START, s) && i in s.nodes && s.nodes[i].isLeader && s.ops == map[]
    ensures Reaches(p, START, t) && t.now == s.now && t.lock == Free && t.marketOpen == s.marketOpen
    ensures t.nodes == s.nodes - {i} && t.used == s.used && t.ops == map[] && t.ledFor == s.ledFor
  {
    var k := s.nextOp;
    var s1 := Apply(p, s, Shutdown(i));
    Then(p, START, s, Shutdown(i));
    assert s1.ops == map[k := DelSent(i, s.now + p.release)];
    t := Apply(p, s1, Exec(k));
    Then(p, START, s1, Exec(k));
    assert t.ops == map[];
  }

  /** A due watcher sends its GET. */
  lemma Watch(p: Params, s: State, i: nat, h: nat) returns (t: State, k: nat)
    requires Reaches(p, START, s) && Enabled(p, s, Fire(i, h)) && s.nodes[i].timers[h].kind == Watcher && FreshOps(s)
    ensures Reaches(p, START, t) && t.now == s.now && t.lock == s.lock && t.marketOpen == s.marketOpen && FreshOps(t)
    ensures t.nodes == s.nodes[i := Fired(s.nodes[i], h, s.now)] && t.used == s.used
    ensures t.ledFor == s.ledFor
    ensures k !in s.ops && t.ops == s.ops[k := GetSent(i, s.now + p.send)]
  {
    k := s.nextOp;
    t := Apply(p, s, Fire(i, h));
    Then(p, START, s, Fire(i, h));
  }

  /** A GET that finds no lock leads to a SET. */
  lemma Missed(p: Params, s: State, k: nat) returns (t: State, m: nat)
    requires Reaches(p, START, s) && k in s.ops && s.ops[k].GetSent? && s.ops[k].who in s.nodes
    requires s.lock.Free? && s.marketOpen && FreshOps(s)
    ensures Reaches(p, START, t) && t.now == s.now && t.lock == s.lock && t.marketOpen && FreshOps(t)
    ensures t.nodes == s.nodes && t.used == s.used && t.ledFor == s.ledFor
    ensures m !in s.ops && t.ops == (s.ops - {k})[m := SetSent(s.ops[k].who, s.now + p.send)]
  {
    m := s.nextOp;
    var s1 := Apply(p, s, Exec(k));
    Then(p, START, s, Exec(k));
    t := Apply(p, s1, Answer(k));
    Then(p, START, s1, Answer(k));
    assert t.ops == (s.ops - {k})[m := SetSent(s.ops[k].who, s.now + p.send)];
  }

  /** Time passes with no command under way. */
  lemma Pass(p: Params, s: State, dt: nat) returns (t: State)
    requires Reaches(p, START, s) && s.ops == map[]
    requires forall i, h :: i in s.nodes && h in s.nodes[i].timers ==> s.now + dt <= s.nodes[i].timers[h].due
    ensures Reaches(p, START, t) && t.now == s.now + dt && t.lock == At(s.lock, t.now) && t.marketOpen == s.marketOpen
    ensures t.nodes == s.nodes && t.used == s.used && t.ops == map[]
    ensures t.ledFor == if Led(s) then s.ledFor + dt else s.ledFor
  {
    t := Apply(p, s, Tick(dt));
    Then(p, START, s, Tick(dt));
  }

  function Waiting(due: int): Node {
    Node(false, None, Some(0), map[0 := Timer(Watcher, due)], 1)
  }

  /** The first leader has stopped after 15 seconds; the second instance has one watcher, due now. */
  lemma FirstVacancy(p: Params) returns (t: State)
    ensures Reaches(p, START, t) && t.now == t.ledFor == 15000 && t.lock == Free && t.marketOpen
    ensures t.nodes == map[2 := Waiting(15000)] && t.used == {1, 2} && t.ops == map[]
  {
    var s := SlowLeader(p, 0);
    s := QuickWorker(p, s, 2);
    assert s.nodes[2] == Waiting(15000) && s.nodes[1].isLeader;
    assert s.nodes == map[1 := Won(FRESH_NODE, 0), 2 := Waiting(15000)];
    s := Pass(p, s, 15000);
    t := QuickStop(p, s, 1);
  }

  /** A worker with two watchers in step. */
  function Pair(heartbeat: Option<nat>, w: nat, due: int): Node {
    Node(false, heartbeat, Some(w), map[0 := Timer(Watcher, due), w := Timer(Watcher, due)], w + 1)
  }

  /** Its GET misses, and before its SET arrives a third instance leads. */
  lemma Overtaken(p: Params) returns (t: State, m: nat)
    ensures Reaches(p, START, t) && t.now == t.ledFor == 15000 && t.lock == Held(3, 75000) && t.marketOpen
    ensures t.nodes == map[2 := Waiting(30000), 3 := Won(FRESH_NODE, 15000)] && t.used == {1, 2, 3}
    ensures t.ops == map[m := SetSent(2, 15000 + p.send)]
  {
    var s := FirstVacancy(p);
    var k: nat;
    s, k := Watch(p, s, 2, 0);
    assert s.nodes[2] == Waiting(30000);
    s, m := Missed(p, s, k);
    assert s.ops == map[m := SetSent(2, 15000 + p.send)];
    t := QuickLeader(p, START, s, 3);
  }

  /** The rejected SET leaves the second instance with two watchers. */
  lemma SecondVacancy(p: Params) returns (t: State)
    ensures Reaches(p, START, t) && t.now == t.ledFor == 30000 && t.lock == Free && t.marketOpen
    ensures t.nodes == map[2 := Pair(None, 1, 30000)] && t.ops == map[]
  {
    var s, m := Overtaken(p);
    s := Rejected(p, s, m);
    assert s.nodes[2] == Pair(None, 1, 30000) && s.nodes[3].isLeader;
    s := Pass(p, s, 15000);
    t := QuickStop(p, s, 3);
  }

  /** Both watchers look for the lock at once. */
  lemma BothLook(p: Params, s: State, heartbeat: Option<nat>, w: nat) returns (t: State, k: nat, l: nat)
    requires Reaches(p, START, s) && s.nodes == map[2 := Pair(heartbeat, w, s.now)] && s.ops == map[] && w > 0
    ensures Reaches(p, START, t) && t.now == s.now && t.lock == s.lock && t.marketOpen == s.marketOpen && FreshOps(t)
    ensures t.nodes == map[2 := Pair(heartbeat, w, s.now + 15000)] && t.ledFor == s.ledFor
    ensures k != l && t.ops == map[k := GetSent(2, s.now + p.send), l := GetSent(2, s.now + p.send)]
  {
    var s1: State;
    s1, k := Watch(p, s, 2, 0);
    assert s1.nodes[2].timers == map[0 := Timer(Watcher, s.now + 15000), w := Timer(Watcher, s.now)];
    t, l := Watch(p, s1, 2, w);
    assert t.nodes[2] == Pair(heartbeat, w, s.now + 15000);
  }

  lemma OneMisses(p: Params, s: State, heartbeat: Option<nat>, w: nat) returns (t: State, l: nat, m: nat)
    requires Reaches(p, START, s) && s.nodes == map[2 := Pair(heartbeat, w, s.now)] && s.ops == map[] && w > 0
    requires s.lock == Free && s.marketOpen
    ensures Reaches(p, START, t) && t.now == s.now && t.lock == Free && t.marketOpen && FreshOps(t)
    ensures t.nodes == map[2 := Pair(heartbeat, w, s.now + 15000)] && t.ledFor == s.ledFor
    ensures l != m && t.ops == map[l := GetSent(2, s.now + p.send), m := SetSent(2, s.now + p.send)]
  {
    var s1, k: nat;
    s1, k, l := BothLook(p, s, heartbeat, w);
    t, m := Missed(p, s1, k);
    assert t.ops == map[l := GetSent(2, s.now + p.send), m := SetSent(2, s.now + p.send)];
  }

  lemma BothMiss(p: Params, s: State, heartbeat: Option<nat>, w: nat) returns (t: State, m: nat, n: nat)
    requires Reaches(p, START, s) && s.nodes == map[2 := Pair(heartbeat, w, s.now)] && s.ops == map[] && w > 0
    requires s.lock == Free && s.marketOpen
    ensures Reaches(p, START, t) && t.now == s.now && t.lock == Free && t.marketOpen
    ensures t.nodes == map[2 := Pair(heartbeat, w, s.now + 15000)] && t.ledFor == s.ledFor
    ensures m != n && t.ops == map[m := SetSent(2, s.now + p.send), n := SetSent(2, s.now + p.send)]
  {
    var s1, l: nat;
    s1, l, m := OneMisses(p, s, heartbeat, w);
    var set_ := SetSent(2, s.now + p.send);
    assert s1.ops - {l} == map[m := set_];
    t, n := Missed(p, s1, l);
    assert t.ops == map[m := set_, n := set_];
  }

  lemma WinnerLoses(heartbeat: Option<nat>, w: nat, now: int)
    requires w > 0
    ensures Lost(Won(Pair(heartbeat, w, now + 15000), now), now) == Pair(Some(w + 1), w + 2, now + 15000)
  {
    var n := Won(Pair(heartbeat, w, now + 15000), now);
    assert n.timers == map[0 := Timer(Watcher, now + 15000), w + 1 := Timer(Heartbeat, now + RENEWAL_INTERVAL)];
    assert Lost(n, now).timers == map[0 := Timer(Watcher, now + 15000), w + 2 := Timer(Watcher, now + 15000)];
  }

  lemma OneWins(p: Params, s: State, heartbeat: Option<nat>, w: nat) returns (t: State, n: nat)
    requires Reaches(p, START, s) && s.nodes == map[2 := Pair(heartbeat, w, s.now)] && s.ops == map[] && w > 0
    requires s.lock == Free && s.marketOpen
    ensures Reaches(p, START, t) && t.now == s.now && t.lock == Held(2, s.now + LOCK_TTL) && t.marketOpen
    ensures t.nodes == map[2 := Won(Pair(heartbeat, w, s.now + 15000), s.now)] && t.ledFor == s.ledFor
    ensures t.ops == map[n := SetSent(2, s.now + p.send)]
  {
    var s1, m: nat;
    s1, m, n := BothMiss(p, s, heartbeat, w);
    t := Accepted(p, s1, m);
    assert t.ops == map[n := SetSent(2, s.now + p.send)];
  }

  /** Both watchers miss the lock. The first SET wins it, the second deposes the winner. */
  lemma Clash(p: Params, s: State, heartbeat: Option<nat>, w: nat) returns (t: State)
    requires Reaches(p, START, s) && s.nodes == map[2 := Pair(heartbeat, w, s.now)] && s.ops == map[] && w > 0
    requires s.lock == Free && s.marketOpen
    ensures Reaches(p, START, t) && t.now == s.now && t.lock == Held(2, s.now + LOCK_TTL) && t.marketOpen
    ensures t.nodes == map[2 := Pair(Some(w + 1), w + 2, s.now + 15000)] && t.ops == map[] && t.ledFor == s.ledFor
  {
    var s2, n := OneWins(p, s, heartbeat, w);
    WinnerLoses(heartbeat, w, s.now);
    t := Rejected(p, s2, n);
    assert t.ops == map[];
  }

  /** The only live instance owns the lock for a minute and does not lead. */
  lemma OwnerDeposed(p: Params) returns (t: State)
    ensures Reaches(p, START, t) && t.now == 30000 && t.marketOpen && t.ops == map[] && t.ledFor == 30000
    ensures t.nodes == map[2 := Pair(Some(2), 3, 45000)] && t.lock == Held(2, 90000)
  {
    var s := SecondVacancy(p);
    t := Clash(p, s, None, 1);
  }

  /** A GET that finds the lock does nothing. */
  lemma Found(p: Params, s: State, k: nat) returns (t: State)
    requires Reaches(p, START, s) && k in s.ops && s.ops[k].GetSent? && s.ops[k].who in s.nodes
    requires At(s.lock, s.now).Held? && FreshOps(s)
    ensures Reaches(p, START, t) && t == s.(ops := s.ops - {k}, lastHeld := t.lastHeld, lastLed := t.lastLed)
  {
    var s1 := Apply(p, s, Exec(k));
    Then(p, START, s, Exec(k));
    t := Apply(p, s1, Answer(k));
    Then(p, START, s1, Answer(k));
    assert t.ops == s.ops - {k};
  }

  /** Every 15 seconds both watchers of the deposed owner find its own lock. */
  lemma Round(p: Params, s: State, heartbeat: Option<nat>, w: nat) returns (t: State)
    requires Reaches(p, START, s) && s.nodes == map[2 := Pair(heartbeat, w, s.now)] && s.ops == map[] && w > 0
    requires At(s.lock, s.now).Held?
    ensures Reaches(p, START, t) && t.now == s.now + 15000 && t.lock == At(s.lock, t.now)
    ensures t.marketOpen == s.marketOpen
    ensures t.nodes == map[2 := Pair(heartbeat, w, t.now)] && t.ops == map[] && t.ledFor == s.ledFor
  {
    var s2, k, l := BothLook(p, s, heartbeat, w);
    var s3 := Found(p, s2, k);
    var s4 := Found(p, s3, l);
    assert s4.ops == map[] && !Led(s4);
    t := Pass(p, s4, 15000);
  }

  /** A minute without a leader, from one clash to the next. */
  lemma Minute(p: Params, s: State, heartbeat: Option<nat>, w: nat) returns (t: State)
    requires Reaches(p, START, s) && s.nodes == map[2 := Pair(heartbeat, w, s.now + 15000)] && s.ops == map[] && w > 0
    requires s.lock == Held(2, s.now + LOCK_TTL) && s.marketOpen
    ensures Reaches(p, START, t) && t.now == s.now + LOCK_TTL && t.lock == Held(2, t.now + LOCK_TTL) && t.marketOpen
    ensures t.nodes == map[2 := Pair(Some(w + 1), w + 2, t.now + 15000)] && t.ops == map[] && t.ledFor == s.ledFor
  {
    assert !Led(s);
    var s1 := Pass(p, s, 15000);
    s1 := Round(p, s1, heartbeat, w);
    s1 := Round(p, s1, heartbeat, w);
    s1 := Round(p, s1, heartbeat, w);
    t := Clash(p, s1, heartbeat, w);
  }

  /**
   Whatever the delays, the race can recur for any number of minutes: the market is open all the
   time and an instance alive, and but for the first 30 seconds nobody leads for any time at all.
  */
  lemma {:induction false} RaceRecurs(p: Params, minutes: nat) returns (t: State)
    ensures Reaches(p, START, t) && t.now == 30000 + 60000 * minutes && t.ledFor == 30000 && t.marketOpen
    ensures t.ops == map[]
    ensures t.nodes == map[2 := Pair(Some(2 + 2 * minutes), 3 + 2 * minutes, t.now + 15000)]
    ensures t.lock == Held(2, t.now + LOCK_TTL)
  {
    if minutes == 0 {
      t := OwnerDeposed(p);
    } else {
      var s := RaceRecurs(p, minutes - 1);
      t := Minute(p, s, Some(2 * minutes), 1 + 2 * minutes);
    }
  }
}

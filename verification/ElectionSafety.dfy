/**
 Mutual exclusion. No command compares the value of the lock, so safety comes from the clock
 alone: `reply + renewal + release` must stay under the 15 seconds between renewal and expiry.
*/
module ElectionSafety {
  import opened Options
  import opened RedisLock
  import opened LeaderElection
  import opened ElectionCluster

  /** The three delays fit between a renewal interval and the time to live. */
  predicate Timely(p: Params) {
    p.reply + p.renewal + p.release < LOCK_TTL - RENEWAL_INTERVAL
  }

  predicate Holds(s: State, i: nat) {
    s.lock.Held? && s.lock.owner == i
  }

  predicate HasHeartbeat(n: Node) {
    n.heartbeat.Some? && n.heartbeat.value in n.timers
  }

  function NextHeartbeat(n: Node): int
    requires HasHeartbeat(n)
  {
    n.timers[n.heartbeat.value].due
  }

  /** A heartbeat runs exactly while the instance leads, and only under the current handle. */
  ghost predicate TimersOk(n: Node, now: int) {
    && (n.heartbeat.Some? ==> n.heartbeat.value < n.nextTimer)
    && (n.watcher.Some? ==> n.watcher.value < n.nextTimer)
    && (n.watcher.Some? && n.watcher.value in n.timers ==> n.timers[n.watcher.value].kind == Watcher)
    && (HasHeartbeat(n) ==> n.timers[n.heartbeat.value].kind == Heartbeat)
    && (n.isLeader ==> HasHeartbeat(n))
    && (forall t :: t in n.timers ==>
          && t < n.nextTimer && n.timers[t].due <= now + Period(n.timers[t].kind)
          && (n.timers[t].kind == Heartbeat ==> n.isLeader && n.heartbeat == Some(t)))
  }

  ghost predicate OnTime(p: Params, n: Node, t: int) {
    forall h :: h in n.timers ==> t <= n.timers[h].due + Lateness(p, n.timers[h].kind)
  }

  ghost predicate Renewing(s: State, i: nat) {
    exists k :: k in s.ops && s.ops[k].ExpireSent? && s.ops[k].who == i
  }

  /** A leader holds the lock, and its next renewal is scheduled or in flight in time. */
  ghost predicate NodeSafe(p: Params, s: State, i: nat) {
    i in s.nodes ==>
    var n := s.nodes[i];
    && i in s.used && TimersOk(n, s.now) && OnTime(p, n, s.now)
    && (n.isLeader ==>
          && Holds(s, i)
          && (NextHeartbeat(n) + p.renewal + p.release < s.lock.expires || Renewing(s, i)))
  }

  predicate Grant(s: State, op: Op) {
    op.SetDone? && op.ok && op.who in s.nodes
  }

  /**
   A renewal in flight reaches Redis before the lock expires and before the next heartbeat.
   The receiver of a grant holds the lock and does not lead yet. The sender of a DEL is gone,
   still owns the lock, and will own it when the DEL arrives.
  */
  ghost predicate OpSafe(p: Params, s: State, k: nat) {
    k in s.ops ==>
    var op := s.ops[k];
    && op.who in s.used
    && (!op.ExpireDone? && (IsSent(op) || op.who in s.nodes) ==> s.now <= op.limit)
    && (op.ExpireSent? && op.who in s.nodes ==>
          && Holds(s, op.who) && op.limit + p.release < s.lock.expires
          && (HasHeartbeat(s.nodes[op.who]) ==> op.limit < NextHeartbeat(s.nodes[op.who])))
    && (Grant(s, op) ==>
          && Holds(s, op.who) && op.limit - p.reply + LOCK_TTL <= s.lock.expires
          && !s.nodes[op.who].isLeader)
    && (op.DelSent? ==>
          op.who !in s.nodes && Holds(s, op.who) && op.limit < s.lock.expires)
  }

  /** One grant and one DEL at most are under way, and a grant never meets its own renewal. */
  predicate PairSafe(s: State, k: nat, m: nat) {
    k in s.ops && m in s.ops ==>
    var a, b := s.ops[k], s.ops[m];
    && (Grant(s, a) && Grant(s, b) ==> k == m)
    && (a.DelSent? && b.DelSent? ==> k == m)
    && (Grant(s, a) && b.ExpireSent? ==> a.who != b.who)
  }

  ghost predicate LockOk(s: State) {
    s.lock.Held? ==> s.now < s.lock.expires <= s.now + LOCK_TTL && s.lock.owner in s.used
  }

  ghost predicate FreshOps(s: State) {
    forall k :: k in s.ops ==> k < s.nextOp
  }

  ghost predicate Safe(p: Params, s: State) {
    && LockOk(s) && FreshOps(s)
    && (forall i {:trigger NodeSafe(p, s, i)} :: i in s.nodes ==> NodeSafe(p, s, i))
    && (forall k {:trigger OpSafe(p, s, k)} :: k in s.ops ==> OpSafe(p, s, k))
    && (forall k, m {:trigger PairSafe(s, k, m)} :: k in s.ops && m in s.ops ==> PairSafe(s, k, m))
  }

  /** The steps that leave clock, lock, instances and old commands alone, and may send one more. */
  lemma ElectKeeps(p: Params, s: State, i: nat)
    requires Safe(p, s) && i in s.used
    ensures Safe(p, Elect(p, s, i))
  {
    var s' := Elect(p, s, i);
    forall j | j in s'.nodes ensures NodeSafe(p, s', j) {
      assert NodeSafe(p, s, j);
      SameRenewing(s, s', j);
    }
    forall k | k in s'.ops ensures OpSafe(p, s', k) {
      if k in s.ops { assert OpSafe(p, s, k); }
    }
    forall k, m | k in s'.ops && m in s'.ops ensures PairSafe(s', k, m) {
      if k in s.ops && m in s.ops { assert PairSafe(s, k, m); }
    }
  }

  lemma SameRenewing(s: State, s': State, i: nat)
    requires forall k :: k in s.ops && s.ops[k].ExpireSent? && s.ops[k].who == i ==>
        k in s'.ops && s'.ops[k] == s.ops[k]
    ensures Renewing(s, i) ==> Renewing(s', i)
  {
    if Renewing(s, i) {
      var k :| k in s.ops && s.ops[k].ExpireSent? && s.ops[k].who == i;
      assert s'.ops[k].ExpireSent?;
    }
  }

  lemma BootKeeps(p: Params, s: State, i: nat)
    requires Safe(p, s) && i !in s.used
    ensures Safe(p, BootNode(p, s, i))
  {
    var s1 := s.(nodes := s.nodes[i := FRESH_NODE], used := s.used + {i},
                 electedAt := if s.marketOpen then s.electedAt[i := s.now] else s.electedAt);
    forall j | j in s1.nodes ensures NodeSafe(p, s1, j) {
      if j != i {
        assert NodeSafe(p, s, j);
        SameRenewing(s, s1, j);
      }
    }
    forall k | k in s1.ops ensures OpSafe(p, s1, k) {
      assert OpSafe(p, s, k);
    }
    forall k, m | k in s1.ops && m in s1.ops ensures PairSafe(s1, k, m) {
      assert PairSafe(s, k, m) && OpSafe(p, s, k) && OpSafe(p, s, m);
    }
    ElectKeeps(p, s1, i);
  }

  lemma FireNode(p: Params, s: State, i: nat, t: nat, j: nat)
    requires Timely(p) && Safe(p, s) && Enabled(p, s, Fire(i, t)) && j in s.nodes
    ensures NodeSafe(p, FireTimer(p, s, i, t), j)
  {
    var s' := FireTimer(p, s, i, t);
    assert NodeSafe(p, s, j);
    SameRenewing(s, s', j);
    if j == i && s.nodes[i].timers[t].kind == Heartbeat {
      assert s'.ops[s.nextOp].ExpireSent?;
    }
  }

  lemma FireOp(p: Params, s: State, i: nat, t: nat, k: nat)
    requires Timely(p) && Safe(p, s) && Enabled(p, s, Fire(i, t)) && k in FireTimer(p, s, i, t).ops
    ensures OpSafe(p, FireTimer(p, s, i, t), k)
  {
    assert NodeSafe(p, s, i);
    if k in s.ops {
      assert OpSafe(p, s, k);
    } else if Renewing(s, i) {
      var m :| m in s.ops && s.ops[m].ExpireSent? && s.ops[m].who == i;
      assert OpSafe(p, s, m);
    }
  }

  lemma FireKeeps(p: Params, s: State, i: nat, t: nat)
    requires Timely(p) && Safe(p, s) && Enabled(p, s, Fire(i, t))
    ensures Safe(p, FireTimer(p, s, i, t))
  {
    var s' := FireTimer(p, s, i, t);
    assert NodeSafe(p, s, i);
    forall j | j in s'.nodes ensures NodeSafe(p, s', j) { FireNode(p, s, i, t, j); }
    forall k | k in s'.ops ensures OpSafe(p, s', k) { FireOp(p, s, i, t, k); }
    forall k, m | k in s'.ops && m in s'.ops ensures PairSafe(s', k, m) {
      if k in s.ops { assert OpSafe(p, s, k); }
      if k in s.ops && m in s.ops { assert PairSafe(s, k, m); }
    }
  }

  lemma SetKeeps(p: Params, s: State, k: nat)
    requires Timely(p) && Safe(p, s) && k in s.ops && s.ops[k].SetSent?
    ensures Safe(p, Execute(p, s, k))
  {
    var s' := Execute(p, s, k);
    assert OpSafe(p, s, k);
    forall j | j in s'.nodes ensures NodeSafe(p, s', j) {
      assert NodeSafe(p, s, j);
      SameRenewing(s, s', j);
    }
    forall m | m in s'.ops ensures OpSafe(p, s', m) {
      assert OpSafe(p, s, m) && PairSafe(s, k, m);
      if s.ops[m].who in s.nodes { assert NodeSafe(p, s, s.ops[m].who); }
    }
    forall m, n | m in s'.ops && n in s'.ops ensures PairSafe(s', m, n) {
      assert PairSafe(s, m, n) && OpSafe(p, s, m) && OpSafe(p, s, n);
    }
  }

  lemma ExpireKeeps(p: Params, s: State, k: nat)
    requires Timely(p) && Safe(p, s) && k in s.ops && s.ops[k].ExpireSent?
    ensures Safe(p, Execute(p, s, k))
  {
    var s' := Execute(p, s, k);
    assert OpSafe(p, s, k);
    forall j | j in s'.nodes ensures NodeSafe(p, s', j) {
      assert NodeSafe(p, s, j);
    }
    forall m | m in s'.ops ensures OpSafe(p, s', m) {
      assert OpSafe(p, s, m);
    }
    forall m, n | m in s'.ops && n in s'.ops ensures PairSafe(s', m, n) {
      assert PairSafe(s, m, n);
    }
  }

  lemma GetKeeps(p: Params, s: State, k: nat)
    requires Safe(p, s) && k in s.ops && s.ops[k].GetSent?
    ensures Safe(p, Execute(p, s, k))
  {
    var s' := Execute(p, s, k);
    forall j | j in s'.nodes ensures NodeSafe(p, s', j) {
      assert NodeSafe(p, s, j);
      SameRenewing(s, s', j);
    }
    forall m | m in s'.ops ensures OpSafe(p, s', m) {
      assert OpSafe(p, s, m);
    }
    forall m, n | m in s'.ops && n in s'.ops ensures PairSafe(s', m, n) {
      assert PairSafe(s, m, n);
    }
  }

  lemma DropKeeps(p: Params, s: State, k: nat)
    requires Safe(p, s) && k in s.ops && !(s.ops[k].ExpireSent? && s.ops[k].who in s.nodes)
    ensures Safe(p, Drop(s, k))
  {
    var s' := Drop(s, k);
    forall j | j in s'.nodes ensures NodeSafe(p, s', j) {
      assert NodeSafe(p, s, j);
      SameRenewing(s, s', j);
    }
    forall m | m in s'.ops ensures OpSafe(p, s', m) {
      assert OpSafe(p, s, m);
    }
    forall m, n | m in s'.ops && n in s'.ops ensures PairSafe(s', m, n) {
      assert PairSafe(s, m, n);
    }
  }

  lemma DelKeeps(p: Params, s: State, k: nat)
    requires Safe(p, s) && k in s.ops && s.ops[k].DelSent?
    ensures Safe(p, Execute(p, s, k))
  {
    var s' := Execute(p, s, k);
    assert OpSafe(p, s, k);
    forall j | j in s'.nodes ensures NodeSafe(p, s', j) {
      assert NodeSafe(p, s, j);
      SameRenewing(s, s', j);
    }
    forall m | m in s'.ops ensures OpSafe(p, s', m) {
      assert OpSafe(p, s, m) && PairSafe(s, k, m);
    }
    forall m, n | m in s'.ops && n in s'.ops ensures PairSafe(s', m, n) {
      assert PairSafe(s, m, n);
    }
  }

  lemma SetReplyNode(p: Params, s: State, k: nat, j: nat)
    requires Timely(p) && Safe(p, s) && k in s.ops && s.ops[k].SetDone? && s.ops[k].who in s.nodes && j in s.nodes
    ensures NodeSafe(p, HandleReply(p, s, k), j)
  {
    assert NodeSafe(p, s, j) && OpSafe(p, s, k);
    SameRenewing(s, HandleReply(p, s, k), j);
  }

  lemma SetReplyOp(p: Params, s: State, k: nat, m: nat)
    requires Timely(p) && Safe(p, s) && k in s.ops && s.ops[k].SetDone? && s.ops[k].who in s.nodes && m in s.ops
    requires m != k
    ensures OpSafe(p, HandleReply(p, s, k), m)
  {
    assert NodeSafe(p, s, s.ops[k].who) && OpSafe(p, s, k) && OpSafe(p, s, m) && PairSafe(s, k, m);
  }

  /** The reply to a SET: whichever way it goes, the new role is safe. */
  lemma SetReplyKeeps(p: Params, s: State, k: nat)
    requires Timely(p) && Safe(p, s) && k in s.ops && s.ops[k].SetDone? && s.ops[k].who in s.nodes
    ensures Safe(p, HandleReply(p, s, k))
  {
    var s' := HandleReply(p, s, k);
    forall j | j in s'.nodes ensures NodeSafe(p, s', j) { SetReplyNode(p, s, k, j); }
    forall m | m in s'.ops ensures OpSafe(p, s', m) { SetReplyOp(p, s, k, m); }
    forall m, n | m in s'.ops && n in s'.ops ensures PairSafe(s', m, n) {
      assert PairSafe(s, m, n);
    }
  }

  lemma AnswerKeeps(p: Params, s: State, k: nat)
    requires Timely(p) && Safe(p, s) && Enabled(p, s, Answer(k))
    ensures Safe(p, HandleReply(p, s, k))
  {
    if s.ops[k].SetDone? {
      SetReplyKeeps(p, s, k);
    } else {
      assert OpSafe(p, s, k);
      DropKeeps(p, s, k);
      ElectKeeps(p, Drop(s, k), s.ops[k].who);
    }
  }

  lemma CrashKeeps(p: Params, s: State, i: nat, lapse: int)
    requires Safe(p, s) && i in s.nodes
    ensures Safe(p, s.(nodes := s.nodes - {i}, lapseBy := lapse))
  {
    var s' := s.(nodes := s.nodes - {i}, lapseBy := lapse);
    forall j | j in s'.nodes ensures NodeSafe(p, s', j) {
      assert NodeSafe(p, s, j);
      SameRenewing(s, s', j);
    }
    forall m | m in s'.ops ensures OpSafe(p, s', m) {
      assert OpSafe(p, s, m);
    }
    forall m, n | m in s'.ops && n in s'.ops ensures PairSafe(s', m, n) {
      assert PairSafe(s, m, n);
    }
  }

  lemma LeaderMargin(p: Params, s: State, i: nat)
    requires Safe(p, s) && i in s.nodes && s.nodes[i].isLeader
    ensures Holds(s, i) && s.now + p.release < s.lock.expires
  {
    assert NodeSafe(p, s, i);
    if Renewing(s, i) {
      var k :| k in s.ops && s.ops[k].ExpireSent? && s.ops[k].who == i;
      assert OpSafe(p, s, k);
    }
  }

  lemma StopKeeps(p: Params, s: State, i: nat)
    requires Safe(p, s) && i in s.nodes
    ensures Safe(p, StopNode(p, s, i))
  {
    assert NodeSafe(p, s, i);
    var s1 := s.(nodes := s.nodes - {i}, lapseBy := LapseAfterShutdown(p, s, i));
    CrashKeeps(p, s, i, LapseAfterShutdown(p, s, i));
    if s.nodes[i].isLeader {
      LeaderMargin(p, s, i);
      var s' := Send(s1, DelSent(i, s.now + p.release));
      forall j | j in s'.nodes ensures NodeSafe(p, s', j) {
        assert NodeSafe(p, s1, j);
        SameRenewing(s1, s', j);
      }
      forall m | m in s'.ops ensures OpSafe(p, s', m) {
        if m in s.ops { assert OpSafe(p, s1, m); }
      }
      forall m, n | m in s'.ops && n in s'.ops ensures PairSafe(s', m, n) {
        if m in s.ops { assert OpSafe(p, s1, m) && OpSafe(p, s, m); }
        if n in s.ops { assert OpSafe(p, s1, n) && OpSafe(p, s, n); }
        if m in s.ops && n in s.ops { assert PairSafe(s1, m, n); }
      }
    }
  }

  /** A leader's lock outlives every instant that time may reach without a missed bound. */
  lemma LeaderOutlives(p: Params, s: State, i: nat, t: int)
    requires Safe(p, s) && MayReach(p, s, t) && i in s.nodes && s.nodes[i].isLeader
    ensures Holds(s, i) && t < s.lock.expires
  {
    assert NodeSafe(p, s, i);
    if Renewing(s, i) {
      var k :| k in s.ops && s.ops[k].ExpireSent? && s.ops[k].who == i;
      assert OpSafe(p, s, k);
    }
  }

  lemma TickNode(p: Params, s: State, t: int, j: nat)
    requires Safe(p, s) && MayReach(p, s, t) && s.now <= t && j in s.nodes
    ensures NodeSafe(p, Advance(s, t), j)
  {
    assert NodeSafe(p, s, j);
    SameRenewing(s, Advance(s, t), j);
    if s.nodes[j].isLeader { LeaderOutlives(p, s, j, t); }
  }

  lemma TickOp(p: Params, s: State, t: int, k: nat)
    requires Safe(p, s) && MayReach(p, s, t) && s.now <= t && k in s.ops
    requires Timely(p)
    ensures OpSafe(p, Advance(s, t), k)
  {
    assert OpSafe(p, s, k);
  }

  lemma TickKeeps(p: Params, s: State, dt: nat)
    requires Timely(p) && Safe(p, s) && MayReach(p, s, s.now + dt)
    ensures Safe(p, Advance(s, s.now + dt))
  {
    var s' := Advance(s, s.now + dt);
    forall j | j in s'.nodes ensures NodeSafe(p, s', j) { TickNode(p, s, s.now + dt, j); }
    forall k | k in s'.ops ensures OpSafe(p, s', k) { TickOp(p, s, s.now + dt, k); }
    forall k, m | k in s'.ops && m in s'.ops ensures PairSafe(s', k, m) {
      assert PairSafe(s, k, m);
    }
  }

  /** Safety does not depend on the market or on what the run has been observed to do. */
  lemma UnobservedKeeps(p: Params, s: State, s': State)
    requires Safe(p, s)
    requires s'.now == s.now && s'.lock == s.lock && s'.nodes == s.nodes && s'.used == s.used
    requires s'.ops == s.ops && s'.nextOp == s.nextOp
    ensures Safe(p, s')
  {
    forall j | j in s'.nodes ensures NodeSafe(p, s', j) {
      assert NodeSafe(p, s, j);
      SameRenewing(s, s', j);
    }
    forall m | m in s'.ops ensures OpSafe(p, s', m) {
      assert OpSafe(p, s, m);
    }
    forall m, n | m in s'.ops && n in s'.ops ensures PairSafe(s', m, n) {
      assert PairSafe(s, m, n);
    }
  }

  lemma ActKeeps(p: Params, s: State, step: Step)
    requires Timely(p) && Safe(p, s) && Enabled(p, s, step)
    ensures Safe(p, Act(p, s, step))
  {
    match step
    case Boot(i) => BootKeeps(p, s, i);
    case Fire(i, t) => FireKeeps(p, s, i, t);
    case Exec(k) =>
      match s.ops[k] {
        case SetSent(_, _) => SetKeeps(p, s, k);
        case ExpireSent(_, _) => ExpireKeeps(p, s, k);
        case GetSent(_, _) => GetKeeps(p, s, k);
        case DelSent(_, _) => DelKeeps(p, s, k);
      }
    case Answer(k) => AnswerKeeps(p, s, k);
    case Shutdown(i) => StopKeeps(p, s, i);
    case Crash(i) => CrashKeeps(p, s, i, LapseAfterCrash(p, s, i));
    case Lose(k) => DropKeeps(p, s, k);
    case Market(_) => UnobservedKeeps(p, s, Act(p, s, step));
    case Tick(dt) => TickKeeps(p, s, dt);
  }

  lemma StepKeeps(p: Params, s: State, step: Step)
    requires Timely(p) && Safe(p, s) && Enabled(p, s, step)
    ensures Safe(p, Apply(p, s, step))
  {
    ActKeeps(p, s, step);
    UnobservedKeeps(p, Act(p, s, step), Observe(Act(p, s, step)));
  }

  lemma {:induction false} RunKeeps(p: Params, s: State, steps: seq<Step>)
    requires Timely(p) && Safe(p, s) && ValidRun(p, s, steps)
    ensures Safe(p, Run(p, s, steps))
    decreases |steps|
  {
    if steps != [] {
      StepKeeps(p, s, steps[0]);
      RunKeeps(p, Apply(p, s, steps[0]), steps[1..]);
    }
  }

  /** In every run of timely instances one instance at most leads, and it holds the lock. */
  lemma MutualExclusion(p: Params, s: State, steps: seq<Step>)
    requires Timely(p) && Init(s) && ValidRun(p, s, steps)
    ensures AtMostOneLeader(Run(p, s, steps)) && LeaderHoldsLock(Run(p, s, steps))
  {
    RunKeeps(p, s, steps);
    var e := Run(p, s, steps);
    forall i | i in e.nodes && e.nodes[i].isLeader ensures Holds(e, i) {
      assert NodeSafe(p, e, i);
    }
  }

  function Intervals(n: Node, kind: Kind): set<nat> {
    set t | t in n.timers && n.timers[t].kind == kind
  }

  /** In every such run a leader has exactly one heartbeat interval, under its handle, and a worker none. */
  lemma HeartbeatsFollowTheRole(p: Params, s: State, steps: seq<Step>, i: nat)
    requires Timely(p) && Init(s) && ValidRun(p, s, steps) && i in Run(p, s, steps).nodes
    ensures var n := Run(p, s, steps).nodes[i];
      Intervals(n, Heartbeat) == if n.isLeader && n.heartbeat.Some? then {n.heartbeat.value} else {}
    ensures var n := Run(p, s, steps).nodes[i]; n.isLeader ==> |Intervals(n, Heartbeat)| == 1
  {
    RunKeeps(p, s, steps);
    var e := Run(p, s, steps);
    assert NodeSafe(p, e, i);
    var n := e.nodes[i];
    if n.isLeader {
      assert Intervals(n, Heartbeat) == {n.heartbeat.value};
    }
  }

  lemma IntervalsReplaced(n: Node, handle: Option<nat>, kind: Kind, timer: Timer, n': Node)
    requires n.nextTimer !in n.timers && n'.timers == ClearHandle(n.timers, handle)[n.nextTimer := timer]
    ensures Intervals(n', kind) ==
      Intervals(n, kind) - (if handle.Some? then {handle.value} else {})
      + (if timer.kind == kind then {n.nextTimer} else {})
  {
    forall t ensures t in Intervals(n', kind) <==>
      (t in Intervals(n, kind) && handle != Some(t)) || (t == n.nextTimer && timer.kind == kind) {
    }
  }

  /** Watchers pile up: each rejection adds one, and a win takes away the last one only. */
  lemma WatchersPileUp(n: Node, t: int, now: int)
    requires TimersOk(n, t)
    ensures Intervals(Lost(n, now), Watcher) == Intervals(n, Watcher) + {n.nextTimer}
    ensures n.nextTimer !in Intervals(n, Watcher)
    ensures Intervals(Won(n, now), Watcher) ==
      Intervals(n, Watcher) - (if n.watcher.Some? then {n.watcher.value} else {})
  {
    assert n.nextTimer !in n.timers;
    assert n.heartbeat.Some? ==> n.heartbeat.value !in Intervals(n, Watcher);
    IntervalsReplaced(n, n.heartbeat, Watcher, Timer(Watcher, now + WATCHER_INTERVAL), Lost(n, now));
    IntervalsReplaced(n, n.watcher, Watcher, Timer(Heartbeat, now + RENEWAL_INTERVAL), Won(n, now));
  }

  // ---------------------------------------------------------------- who asks for the lock, and when

  ghost predicate AsksNow(p: Params, s: State, step: Step)
    requires Enabled(p, s, step)
  {
    exists k :: k in Apply(p, s, step).ops && k !in s.ops && Apply(p, s, step).ops[k].SetSent?
  }

  /** The reply to a renewal or to a watcher that says that there is no lock. */
  predicate FindsNoLock(op: Op) {
    (op.ExpireDone? && !op.ok) || (op.GetDone? && !op.found)
  }

  /** A step sends a SET if and only if the market is open and an instance boots, fails to renew, or finds no lock. */
  lemma SetIsSentExactlyWhen(p: Params, s: State, step: Step)
    requires FreshOps(s) && Enabled(p, s, step)
    ensures AsksNow(p, s, step) <==> s.marketOpen && (step.Boot? || (step.Answer? && FindsNoLock(s.ops[step.k])))
  {
    var s' := Apply(p, s, step);
    assert s.nextOp !in s.ops;
    if step.Boot? && s.marketOpen { assert s'.ops[s.nextOp].SetSent?; }
    if step.Answer? && s.marketOpen && !s.ops[step.k].SetDone? && s.nextOp in s'.ops {
      assert s'.ops[s.nextOp].SetSent?;
    }
  }

  ghost predicate Asking(s: State, i: nat) {
    exists k :: k in s.ops && (s.ops[k].SetSent? || s.ops[k].SetDone?) && s.ops[k].who == i
  }

  lemma ClosedMarketRole(p: Params, s: State, step: Step, i: nat)
    requires !s.marketOpen && Enabled(p, s, step)
    requires i in Apply(p, s, step).nodes && Apply(p, s, step).nodes[i].isLeader
    ensures (i in s.nodes && s.nodes[i].isLeader) || Asking(s, i)
  {
    if step.Answer? && s.ops[step.k].who == i && s.ops[step.k].SetDone? { assert Asking(s, i); }
  }

  lemma ClosedMarketStep(p: Params, s: State, step: Step, i: nat)
    requires FreshOps(s) && !s.marketOpen && Enabled(p, s, step)
    ensures Asking(Apply(p, s, step), i) ==> Asking(s, i)
  {
    var s' := Apply(p, s, step);
    if k :| k in s'.ops && (s'.ops[k].SetSent? || s'.ops[k].SetDone?) && s'.ops[k].who == i {
      assert k in s.ops && (s.ops[k].SetSent? || s.ops[k].SetDone?) && s.ops[k].who == i;
    }
  }

  /** While the market stays closed nobody becomes leader but by a SET that was already on its way. */
  lemma {:induction false} ClosedMarketElectsNobody(p: Params, s: State, steps: seq<Step>, i: nat)
    requires FreshOps(s) && !s.marketOpen && ValidRun(p, s, steps) && Market(true) !in steps
    ensures var e := Run(p, s, steps);
      i in e.nodes && e.nodes[i].isLeader ==> (i in s.nodes && s.nodes[i].isLeader) || Asking(s, i)
    decreases |steps|
  {
    if steps != [] {
      var s1 := Apply(p, s, steps[0]);
      ClosedMarketStep(p, s, steps[0], i);
      if i in s1.nodes && s1.nodes[i].isLeader { ClosedMarketRole(p, s, steps[0], i); }
      ClosedMarketElectsNobody(p, Apply(p, s, steps[0]), steps[1..], i);
    }
  }
}

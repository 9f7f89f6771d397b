/** `LockManagerService.runWithLock`: short jobs, each under a lock that it always releases. */
module JobLock {
  import opened Options
  import opened RedisLock

  datatype Outcome<+T> = Returns(result: T) | Throws

  /**
   One run, with its SET at `started`. The lock is released on both ways out of the task, and
   nothing is touched when the lock was not acquired.
  */
  method RunWithLock<T>(redis: RedisService, lockName: string, lockId: nat, task: Outcome<T>, ttl: int, started: int)
    returns (acquired: bool, result: Option<T>)
    modifies redis
    ensures acquired <==> old(At(redis.Lookup(lockName), started).Free?)
    ensures acquired ==> redis.Lookup(lockName) == Free
    ensures !acquired ==> redis.Lookup(lockName) == old(redis.Lookup(lockName))
    ensures result == if acquired && task.Returns? then Some(task.result) else None
    ensures forall other | other != lockName :: redis.Lookup(other) == old(redis.Lookup(other))
  {
    acquired := redis.SetLock(lockName, lockId, ttl, started);
    if !acquired {
      return acquired, None;
    }
    match task {
      case Returns(r) => result := Some(r);
      case Throws => result := None;
    }
    redis.ReleaseLock(lockName);
  }

  /**
   The runs of one lock name. `running` holds, for each task, when its release is executed at the
   latest. The last three fields only observe: the runs that called SET, those that acquired the
   lock, and the DELs, each with the run that sent it.
  */
  datatype Jobs = Jobs(now: int, lock: Cell, running: map<nat, int>, started: set<nat>, acquired: set<nat>,
      released: multiset<nat>)

  /** A task returns or throws, and the lock is released either way. */
  datatype Step = Start(run: nat, owner: nat) | Finish(run: nat, task: Outcome<int>) | Tick(dt: nat)

  const IDLE := Jobs(0, Free, map[], {}, {}, multiset{})

  ghost predicate Init(s: Jobs) {
    s.lock == Free && s.running == map[] && s.started == s.acquired == {} && s.released == multiset{}
  }

  ghost predicate Enabled(s: Jobs, step: Step) {
    match step
    case Start(run, _) => run !in s.started
    case Finish(run, _) => run in s.running
    case Tick(dt) => forall run :: run in s.running ==> s.now + dt <= s.running[run]
  }

  /** The `finally` block. */
  function Release(s: Jobs, run: nat): Jobs {
    s.(lock := Free, running := s.running - {run}, released := s.released + multiset{run})
  }

  /** `hold` bounds the time from an acquisition to the execution of its release. */
  function Apply(ttl: int, hold: nat, s: Jobs, step: Step): Jobs
    requires step.Finish? ==> step.run in s.running
  {
    match step
    case Start(run, owner) =>
      var (lock, ok) := SetNx(s.lock, owner, ttl, s.now);
      if ok
      then s.(lock := lock, running := s.running[run := s.now + hold], started := s.started + {run},
          acquired := s.acquired + {run})
      else s.(started := s.started + {run})
    case Finish(run, task) =>
      match task {
        case Returns(_) => Release(s, run)
        case Throws => Release(s, run)
      }
    case Tick(dt) => s.(now := s.now + dt, lock := At(s.lock, s.now + dt))
  }

  ghost predicate ValidRun(ttl: int, hold: nat, s: Jobs, steps: seq<Step>)
    decreases |steps|
  {
    steps == [] || (Enabled(s, steps[0]) && ValidRun(ttl, hold, Apply(ttl, hold, s, steps[0]), steps[1..]))
  }

  ghost function Run(ttl: int, hold: nat, s: Jobs, steps: seq<Step>): Jobs
    requires ValidRun(ttl, hold, s, steps)
    decreases |steps|
  {
    if steps == [] then s else Run(ttl, hold, Apply(ttl, hold, s, steps[0]), steps[1..])
  }

  predicate AtMostOneTask(s: Jobs) {
    |s.running| <= 1
  }

  ghost predicate Guarded(ttl: int, hold: nat, s: Jobs) {
    && (s.lock.Held? ==> s.now < s.lock.expires)
    && (forall run :: run in s.running ==>
        && s.lock.Held? && s.now <= s.running[run]
        && s.running[run] + ttl <= s.lock.expires + hold)
    && (forall a, b :: a in s.running && b in s.running ==> a == b)
  }

  lemma {:induction false} GuardedRun(ttl: int, hold: nat, s: Jobs, steps: seq<Step>)
    requires hold < ttl && Guarded(ttl, hold, s) && ValidRun(ttl, hold, s, steps)
    ensures Guarded(ttl, hold, Run(ttl, hold, s, steps))
    decreases |steps|
  {
    if steps != [] {
      GuardedRun(ttl, hold, Apply(ttl, hold, s, steps[0]), steps[1..]);
    }
  }

  lemma SingleKey<T>(m: map<nat, T>)
    requires forall a, b :: a in m && b in m ==> a == b
    ensures |m| <= 1
  {
    if m != map[] {
      var a :| a in m;
      assert m.Keys == {a};
    }
  }

  /** Two tasks run together when the first outlives its lock. */
  lemma Overrun(ttl: nat, hold: nat) returns (s: Jobs, steps: seq<Step>)
    requires ttl <= hold
    ensures Init(s) && ValidRun(ttl, hold, s, steps) && !AtMostOneTask(Run(ttl, hold, s, steps))
  {
    s := IDLE;
    steps := [Start(1, 1), Tick(ttl), Start(2, 2)];
    var s1 := Apply(ttl, hold, s, Start(1, 1));
    var s2 := Apply(ttl, hold, s1, Tick(ttl));
    var s3 := Apply(ttl, hold, s2, Start(2, 2));
    assert s1.running == map[1 := hold as int];
    assert 1 in s3.running && 2 in s3.running;
    assert {1, 2} <= s3.running.Keys && |{1, 2}| == 2;
    SubsetSize({1, 2}, s3.running.Keys);
    assert steps[1..] == [Tick(ttl), Start(2, 2)] && steps[1..][1..] == [Start(2, 2)] && steps[1..][1..][1..] == [];
    assert ValidRun(ttl, hold, s3, []) && ValidRun(ttl, hold, s2, [Start(2, 2)]);
    assert ValidRun(ttl, hold, s1, steps[1..]);
    assert Run(ttl, hold, s2, [Start(2, 2)]) == s3 && Run(ttl, hold, s1, steps[1..]) == s3;
  }

  /** One task at a time in every run, exactly when every run releases before its time to live. */
  lemma ExclusiveExactlyWhenReleasedInTime(ttl: nat, hold: nat)
    ensures (forall s, steps :: Init(s) && ValidRun(ttl, hold, s, steps) ==> AtMostOneTask(Run(ttl, hold, s, steps)))
            <==> hold < ttl
  {
    if hold < ttl {
      forall s, steps | Init(s) && ValidRun(ttl, hold, s, steps) ensures AtMostOneTask(Run(ttl, hold, s, steps)) {
        GuardedRun(ttl, hold, s, steps);
        SingleKey(Run(ttl, hold, s, steps).running);
      }
    } else {
      var s, steps := Overrun(ttl, hold);
    }
  }

  ghost predicate ReleasedOnce(s: Jobs) {
    && s.running.Keys <= s.acquired <= s.started
    && (forall run :: s.released[run] == if run in s.acquired && run !in s.running then 1 else 0)
  }

  /**
   Over every run, in time or not: who acquired the lock releases it exactly once, after the task
   returned or threw and not before; who did not acquire it never does.
  */
  lemma {:induction false} OneReleaseEach(ttl: int, hold: nat, s: Jobs, steps: seq<Step>)
    requires ValidRun(ttl, hold, s, steps) && ReleasedOnce(s)
    ensures ReleasedOnce(Run(ttl, hold, s, steps))
    decreases |steps|
  {
    if steps != [] {
      OneReleaseEach(ttl, hold, Apply(ttl, hold, s, steps[0]), steps[1..]);
    }
  }
}

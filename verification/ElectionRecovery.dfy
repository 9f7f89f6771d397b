/**
 Recovery. With the timing condition met, the time without a live holder of the lock is bounded
 for as long as some instance that took part in an election survives and the market is open.
*/
module ElectionRecovery {
  import opened Options
  import opened RedisLock
  import opened LeaderElection
  import opened ElectionCluster
  import opened ElectionSafety

  /** From the run of a watcher that finds no lock to the SET that follows. */
  function Reaction(p: Params): nat {
    p.watch + 2 * p.send + p.reply
  }

  /** How long a free lock can stay free. */
  function Patience(p: Params): nat {
    WATCHER_INTERVAL + Reaction(p) + p.reply
  }

  predicate Voter(s: State, i: nat) {
    i in s.nodes && i in s.electedAt
  }

  ghost predicate Watching(s: State, i: nat) {
    i in s.nodes && exists t :: t in s.nodes[i].timers && s.nodes[i].timers[t].kind == Watcher
  }

  /** Command `k` of instance `i` leads to a SET executed by `limit` while the lock stays free. */
  ghost predicate OpLeads(p: Params, s: State, i: nat, k: nat, limit: int) {
    k in s.ops && s.ops[k].who == i &&
    match s.ops[k]
    case SetSent(_, l) => l <= limit
    case SetDone(_, l, ok) => !ok && l + WATCHER_INTERVAL + Reaction(p) <= limit
    case GetSent(_, l) => l + p.reply + p.send <= limit
    case GetDone(_, l, found) => !found && l + p.send <= limit
    case _ => false
  }

  ghost predicate TimerLeads(p: Params, s: State, i: nat, t: nat, limit: int) {
    && i in s.nodes && t in s.nodes[i].timers && s.nodes[i].timers[t].kind == Watcher
    && s.nodes[i].timers[t].due + Reaction(p) <= limit
  }

  ghost predicate Prospect(p: Params, s: State, i: nat, limit: int) {
    || (exists k :: OpLeads(p, s, i, k, limit))
    || (exists t :: TimerLeads(p, s, i, t, limit))
  }

  function Since(s: State, i: nat): int
    requires i in s.electedAt
  {
    Max(s.freeSince, Max(s.openSince, s.electedAt[i]))
  }

  ghost predicate VoterOk(p: Params, s: State, i: nat) {
    Voter(s, i) ==>
    && (s.nodes[i].isLeader || Watching(s, i) || Asking(s, i))
    && (s.lock.Free? && s.marketOpen ==> Prospect(p, s, i, Since(s, i) + Patience(p)))
  }

  /** Limits lie within their delays, and what the dead left behind lies within `lapseBy`. */
  ghost predicate OpBounded(p: Params, s: State, k: nat) {
    k in s.ops ==>
    var op := s.ops[k];
    && (op.SetSent? || op.GetSent? ==> op.limit <= s.now + p.send)
    && (op.SetDone? || op.GetDone? ==> op.limit <= s.now + p.reply)
    && (op.ExpireSent? ==> op.limit <= s.now + p.renewal)
    && (op.SetSent? && op.who !in s.nodes ==> op.limit + LOCK_TTL <= s.lapseBy)
    && (op.DelSent? ==> op.limit <= s.lapseBy)
  }

  ghost predicate Releasing(s: State) {
    exists k :: k in s.ops && s.ops[k].DelSent?
  }

  /** No SET of the dead is under way, and their lock, if they hold it, is being released. */
  ghost predicate Undisturbed(s: State) {
    && (forall k :: k in s.ops && s.ops[k].SetSent? ==> s.ops[k].who in s.nodes)
    && (s.lock.Held? && s.lock.owner !in s.nodes ==> Releasing(s))
  }

  /** An EXPIRE of the dead arrives in time, or finds no lock of the dead to prolong. */
  ghost predicate RenewalOk(s: State, k: nat) {
    k in s.ops ==>
    var op := s.ops[k];
    op.ExpireSent? && op.who !in s.nodes ==> op.limit + LOCK_TTL <= s.lapseBy || Undisturbed(s)
  }

  ghost predicate GapOk(s: State) {
    && (s.lock.Free? ==> s.freeSince <= Max(s.lastHeld, s.lapseBy))
    && (s.lock.Held? && s.lock.owner !in s.nodes ==> s.lock.expires <= s.lapseBy || Releasing(s))
    && (HeldByLive(s) ==> s.lastHeld == s.now)
  }

  /** Who was elected or rejected was once booted, and nothing observed lies in the future. */
  ghost predicate PastOk(s: State) {
    && (forall i :: i in s.electedAt ==> i in s.used && s.electedAt[i] <= s.now)
    && s.openSince <= s.now && s.lastHeld <= s.now
  }

  ghost predicate Recovering(p: Params, s: State) {
    && GapOk(s) && PastOk(s)
    && (forall i {:trigger VoterOk(p, s, i)} :: Voter(s, i) ==> VoterOk(p, s, i))
    && (forall k {:trigger OpBounded(p, s, k)} :: k in s.ops ==> OpBounded(p, s, k))
    && (forall k {:trigger RenewalOk(s, k)} :: k in s.ops ==> RenewalOk(s, k))
  }

  /** With the lock free, whatever a voter is doing ends in a SET soon. */
  lemma Establish(p: Params, s: State, i: nat, base: int, limit: int)
    requires Safe(p, s) && Voter(s, i) && s.lock.Free? && base + Patience(p) <= limit
    requires s.nodes[i].isLeader || Watching(s, i) || Asking(s, i)
    requires TimersOk(s.nodes[i], base)
    requires forall k :: k in s.ops ==>
      && (s.ops[k].SetSent? ==> s.ops[k].limit <= base + p.send)
      && (s.ops[k].SetDone? ==> s.ops[k].limit <= base + p.reply)
    ensures Prospect(p, s, i, limit)
  {
    assert NodeSafe(p, s, i);
    if Watching(s, i) {
      var t :| t in s.nodes[i].timers && s.nodes[i].timers[t].kind == Watcher;
      assert TimerLeads(p, s, i, t, limit);
    } else {
      var k :| k in s.ops && (s.ops[k].SetSent? || s.ops[k].SetDone?) && s.ops[k].who == i;
      assert OpSafe(p, s, k);
      assert OpLeads(p, s, i, k, limit);
    }
  }

  lemma OpLeadsOn(p: Params, s: State, step: Step, i: nat, k: nat, limit: int)
    requires Enabled(p, s, step) && s.lock.Free? && s.marketOpen
    requires i in s.nodes && i in Act(p, s, step).nodes && Act(p, s, step).lock.Free?
    requires OpLeads(p, s, i, k, limit) && FreshOps(s) && OpSafe(p, s, k)
    ensures Prospect(p, Act(p, s, step), i, limit)
  {
    var s' := Act(p, s, step);
    if step == Answer(k) && s.ops[k].SetDone? {
      assert TimerLeads(p, s', i, s.nodes[i].nextTimer, limit);
    } else if step == Answer(k) {
      assert OpLeads(p, s', i, s.nextOp, limit);
    } else {
      assert OpLeads(p, s', i, k, limit);
    }
  }

  lemma TimerLeadsOn(p: Params, s: State, step: Step, i: nat, t: nat, limit: int)
    requires Enabled(p, s, step) && s.lock.Free? && s.marketOpen
    requires i in s.nodes && i in Act(p, s, step).nodes
    requires TimerLeads(p, s, i, t, limit) && NodeSafe(p, s, i) && FreshOps(s)
    requires step.Answer? ==> OpSafe(p, s, step.k)
    ensures Prospect(p, Act(p, s, step), i, limit)
  {
    var s' := Act(p, s, step);
    if step == Fire(i, t) {
      assert OpLeads(p, s', i, s.nextOp, limit);
    } else {
      assert TimerLeads(p, s', i, t, limit);
    }
  }

  /** While the lock stays free and the market open, no step of the machine loses a prospect. */
  lemma ProspectKeeps(p: Params, s: State, step: Step, i: nat, limit: int)
    requires Safe(p, s) && Enabled(p, s, step) && s.lock.Free? && s.marketOpen
    requires i in s.nodes && i in Act(p, s, step).nodes && Act(p, s, step).lock.Free?
    requires Prospect(p, s, i, limit)
    ensures Prospect(p, Act(p, s, step), i, limit)
  {
    assert NodeSafe(p, s, i);
    if k :| OpLeads(p, s, i, k, limit) {
      assert OpSafe(p, s, k);
      OpLeadsOn(p, s, step, i, k, limit);
    } else {
      var t :| TimerLeads(p, s, i, t, limit);
      if step.Answer? { assert OpSafe(p, s, step.k); }
      TimerLeadsOn(p, s, step, i, t, limit);
    }
  }

  /** A watcher that is not cleared with the role goes on, and so does a SET until its reply. */
  lemma WatchingOn(p: Params, s: State, step: Step, i: nat)
    requires Safe(p, s) && Enabled(p, s, step) && i in s.nodes && i in Act(p, s, step).nodes
    requires Watching(s, i)
    ensures Act(p, s, step).nodes[i].isLeader || Watching(Act(p, s, step), i)
  {
    var s' := Act(p, s, step);
    assert NodeSafe(p, s, i);
    var t :| t in s.nodes[i].timers && s.nodes[i].timers[t].kind == Watcher;
    if !s'.nodes[i].isLeader {
      assert t in s'.nodes[i].timers && s'.nodes[i].timers[t].kind == Watcher;
    }
  }

  lemma AskingOn(p: Params, s: State, step: Step, i: nat)
    requires FreshOps(s) && Enabled(p, s, step) && i in s.nodes && i in Act(p, s, step).nodes
    requires Asking(s, i)
    ensures var s' := Act(p, s, step); s'.nodes[i].isLeader || Watching(s', i) || Asking(s', i)
  {
    var s' := Act(p, s, step);
    var k :| k in s.ops && (s.ops[k].SetSent? || s.ops[k].SetDone?) && s.ops[k].who == i;
    if step == Answer(k) {
      assert s.ops[k].ok || s'.nodes[i].timers[s.nodes[i].nextTimer].kind == Watcher;
    } else {
      assert k in s'.ops && (s'.ops[k].SetSent? || s'.ops[k].SetDone?) && s'.ops[k].who == i;
    }
  }

  /** An instance that took part in an election leads, watches, or waits for a reply, forever. */
  lemma WatchKeeps(p: Params, s: State, step: Step, i: nat)
    requires Safe(p, s) && Enabled(p, s, step) && Voter(s, i) && i in Act(p, s, step).nodes
    requires s.nodes[i].isLeader || Watching(s, i) || Asking(s, i)
    ensures var s' := Act(p, s, step); s'.nodes[i].isLeader || Watching(s', i) || Asking(s', i)
  {
    var s' := Act(p, s, step);
    assert NodeSafe(p, s, i);
    if s'.nodes[i].isLeader {
    } else if s.nodes[i].isLeader {
      assert s'.nodes[i].timers[s.nodes[i].nextTimer].kind == Watcher;
    } else if Watching(s, i) {
      WatchingOn(p, s, step, i);
    } else {
      AskingOn(p, s, step, i);
    }
  }

  lemma OpsOutlive(p: Params, s: State, step: Step, k: nat)
    requires Enabled(p, s, step) && (step.Crash? || step.Shutdown?) && k in s.ops
    requires FreshOps(s) && OpBounded(p, s, k)
    ensures OpBounded(p, Act(p, s, step), k)
  {
    if s.ops[k].who == step.i { DeadOps(p, s, step.i, k); }
  }

  lemma LapseGrows(p: Params, s: State, step: Step)
    requires Enabled(p, s, step)
    ensures s.lapseBy <= Act(p, s, step).lapseBy
  {
  }

  lemma OpsStay(p: Params, s: State, s': State, k: nat)
    requires k in s.ops && k in s'.ops && s'.ops[k] == s.ops[k] && OpBounded(p, s, k)
    requires s.now <= s'.now && s.lapseBy <= s'.lapseBy && (s.ops[k].who in s.nodes ==> s.ops[k].who in s'.nodes)
    ensures OpBounded(p, s', k)
  {
  }

  lemma OpsMove(p: Params, s: State, k: nat)
    requires Enabled(p, s, Exec(k)) && k in Execute(p, s, k).ops
    ensures OpBounded(p, Execute(p, s, k), k)
  {
  }

  lemma OpsAppear(p: Params, s: State, step: Step, k: nat)
    requires Enabled(p, s, step) && !step.Crash? && FreshOps(s)
    requires k !in s.ops && k in Act(p, s, step).ops
    requires step.Fire? ==> TimersOk(s.nodes[step.i], s.now)
    ensures OpBounded(p, Act(p, s, step), k)
  {
  }

  lemma OpsKeep(p: Params, s: State, step: Step, k: nat)
    requires Enabled(p, s, step) && k in Act(p, s, step).ops
    requires FreshOps(s) && (k in s.ops ==> OpBounded(p, s, k) && OpSafe(p, s, k))
    requires step.Fire? ==> TimersOk(s.nodes[step.i], s.now)
    ensures OpBounded(p, Act(p, s, step), k)
  {
    if k !in s.ops {
      OpsAppear(p, s, step, k);
    } else if step.Crash? || step.Shutdown? {
      OpsOutlive(p, s, step, k);
    } else if step == Exec(k) {
      OpsMove(p, s, k);
    } else {
      LapseGrows(p, s, step);
      OpsStay(p, s, Act(p, s, step), k);
    }
  }

  lemma DeadOps(p: Params, s: State, i: nat, k: nat)
    requires i in s.nodes && k in s.ops && s.ops[k].who == i && OpBounded(p, s, k)
    ensures s.ops[k].SetSent? ==> s.ops[k].limit + LOCK_TTL <= LapseAfterCrash(p, s, i) && SetInFlight(s, i)
    ensures s.ops[k].ExpireSent? ==> s.ops[k].limit + LOCK_TTL <= LapseAfterCrash(p, s, i) && InFlight(s, i)
  {
    if s.ops[k].SetSent? { assert SetInFlight(s, i); }
    if s.ops[k].SetSent? || s.ops[k].ExpireSent? { assert InFlight(s, i); }
  }

  lemma ReleasingOn(p: Params, s: State, step: Step)
    requires Enabled(p, s, step) && FreshOps(s) && Releasing(s) && Act(p, s, step).lock.Held?
    ensures Releasing(Act(p, s, step))
  {
    var k :| k in s.ops && s.ops[k].DelSent?;
    assert k in Act(p, s, step).ops && Act(p, s, step).ops[k].DelSent?;
  }

  // ---------------------------------------------------------------- renewals of the dead

  lemma UndisturbedOn(p: Params, s: State, step: Step)
    requires Safe(p, s) && Enabled(p, s, step) && Undisturbed(s) && !step.Crash? && !step.Shutdown?
    ensures Undisturbed(Act(p, s, step))
  {
    var s' := Act(p, s, step);
    if step.Exec? { assert OpSafe(p, s, step.k); }
    if Releasing(s) && s'.lock.Held? { ReleasingOn(p, s, step); }
  }

  /** Once everything that the dead left behind is gone, nothing of them disturbs. */
  lemma QuietIsUndisturbed(p: Params, s: State)
    requires Safe(p, s) && Recovering(p, s) && s.lapseBy <= s.now
    ensures Undisturbed(s)
  {
    forall k | k in s.ops && s.ops[k].SetSent? ensures s.ops[k].who in s.nodes {
      assert OpSafe(p, s, k) && OpBounded(p, s, k);
    }
  }

  /** A death leaves things undisturbed, or has its effects within the bound of a crash. */
  lemma DeathDisturbs(p: Params, s: State, step: Step)
    requires Safe(p, s) && Enabled(p, s, step) && Undisturbed(s) && (step.Crash? || step.Shutdown?)
    requires Act(p, s, step).lapseBy < s.now + LOCK_TTL + Max(p.send, p.renewal)
    ensures Undisturbed(Act(p, s, step))
  {
    var s' := Act(p, s, step);
    assert NodeSafe(p, s, step.i);
    assert !SetInFlight(s, step.i);
    forall k | k in s'.ops && s'.ops[k].SetSent? ensures s'.ops[k].who in s'.nodes {
      assert s.ops[k].SetSent? && s.ops[k].who in s.nodes && s.ops[k].who != step.i;
    }
    if Releasing(s) && s.lock.Held? { ReleasingOn(p, s, step); }
    if step.Shutdown? && s.nodes[step.i].isLeader { assert s'.ops[s.nextOp].DelSent?; }
  }

  lemma RenewalOutlives(p: Params, s: State, step: Step, k: nat)
    requires Safe(p, s) && Recovering(p, s) && Enabled(p, s, step) && (step.Crash? || step.Shutdown?) && k in s.ops
    ensures RenewalOk(Act(p, s, step), k)
  {
    var op := s.ops[k];
    assert OpBounded(p, s, k) && RenewalOk(s, k);
    LapseGrows(p, s, step);
    if op.ExpireSent? {
      if op.who == step.i { assert InFlight(s, step.i); }
      if s.lapseBy <= s.now { QuietIsUndisturbed(p, s); }
      if Undisturbed(s) && Act(p, s, step).lapseBy < s.now + LOCK_TTL + Max(p.send, p.renewal) {
        DeathDisturbs(p, s, step);
      }
    }
  }

  lemma RenewalsKeep(p: Params, s: State, step: Step, k: nat)
    requires Safe(p, s) && Recovering(p, s) && Enabled(p, s, step) && k in Act(p, s, step).ops
    ensures RenewalOk(Act(p, s, step), k)
  {
    var s' := Act(p, s, step);
    if s'.ops[k].ExpireSent? && s'.ops[k].who !in s'.nodes {
      RenewalIsOlder(p, s, step, k);
      if step.Crash? || step.Shutdown? {
        RenewalOutlives(p, s, step, k);
      } else {
        assert RenewalOk(s, k) && OpSafe(p, s, k);
        LapseGrows(p, s, step);
        if Undisturbed(s) { UndisturbedOn(p, s, step); }
      }
    }
  }

  lemma RenewalIsOlder(p: Params, s: State, step: Step, k: nat)
    requires FreshOps(s) && Enabled(p, s, step)
    requires k in Act(p, s, step).ops && Act(p, s, step).ops[k].ExpireSent?
    requires Act(p, s, step).ops[k].who !in Act(p, s, step).nodes
    ensures k in s.ops && s.ops[k] == Act(p, s, step).ops[k]
  {
  }

  lemma GapAfterExec(p: Params, s: State, k: nat)
    requires Safe(p, s) && Enabled(p, s, Exec(k)) && GapOk(s) && OpBounded(p, s, k) && RenewalOk(s, k)
    ensures GapOk(Apply(p, s, Exec(k)))
  {
    assert OpSafe(p, s, k);
    if s.ops[k].ExpireSent? { GapAfterRenewal(p, s, k); } else { GapAfterOther(p, s, k); }
  }

  lemma GapAfterOther(p: Params, s: State, k: nat)
    requires LockOk(s) && FreshOps(s) && GapOk(s) && Enabled(p, s, Exec(k)) && !s.ops[k].ExpireSent?
    requires OpSafe(p, s, k) && OpBounded(p, s, k)
    ensures GapOk(Apply(p, s, Exec(k)))
  {
    if Releasing(s) && Execute(p, s, k).lock.Held? { ReleasingOn(p, s, Exec(k)); }
  }

  lemma GapAfterRenewal(p: Params, s: State, k: nat)
    requires LockOk(s) && FreshOps(s) && GapOk(s) && Enabled(p, s, Exec(k)) && s.ops[k].ExpireSent? && RenewalOk(s, k)
    requires OpSafe(p, s, k)
    ensures GapOk(Apply(p, s, Exec(k)))
  {
    if Releasing(s) && s.lock.Held? { ReleasingOn(p, s, Exec(k)); }
  }

  lemma GapAfterStop(p: Params, s: State, step: Step)
    requires Safe(p, s) && Enabled(p, s, step) && GapOk(s) && (step.Crash? || step.Shutdown?)
    ensures GapOk(Apply(p, s, step))
  {
    var s' := Act(p, s, step);
    assert NodeSafe(p, s, step.i);
    if Releasing(s) && s.lock.Held? { ReleasingOn(p, s, step); }
    if step.Shutdown? && s.nodes[step.i].isLeader { assert s'.ops[s.nextOp].DelSent?; }
  }

  lemma GapAfterTick(p: Params, s: State, dt: nat)
    requires Safe(p, s) && Enabled(p, s, Tick(dt)) && GapOk(s)
    ensures GapOk(Apply(p, s, Tick(dt)))
  {
    if Releasing(s) {
      var k :| k in s.ops && s.ops[k].DelSent?;
      assert OpSafe(p, s, k);
      assert s.ops[k] == Advance(s, s.now + dt).ops[k];
    }
  }

  lemma GapKeeps(p: Params, s: State, step: Step)
    requires Safe(p, s) && Recovering(p, s) && Enabled(p, s, step)
    ensures GapOk(Apply(p, s, step))
  {
    match step
    case Exec(k) => assert OpBounded(p, s, k) && RenewalOk(s, k); GapAfterExec(p, s, k);
    case Crash(_) => GapAfterStop(p, s, step);
    case Shutdown(_) => GapAfterStop(p, s, step);
    case Tick(dt) => GapAfterTick(p, s, dt);
    case _ =>
      assert Act(p, s, step).lock == s.lock;
      if Releasing(s) && s.lock.Held? { ReleasingOn(p, s, step); }
  }

  lemma VoterBoots(p: Params, s: State, i: nat)
    requires Enabled(p, s, Boot(i)) && Voter(BootNode(p, s, i), i) && s.marketOpen
    ensures VoterOk(p, BootNode(p, s, i), i)
  {
    var s' := BootNode(p, s, i);
    assert s'.ops[s.nextOp] == SetSent(i, s.now + p.send);
    assert OpLeads(p, s', i, s.nextOp, Since(s', i) + Patience(p));
  }

  /** The moments at which a free lock starts to count for `i`: it lapses, or the market opens. */
  lemma VoterStarts(p: Params, s: State, step: Step, i: nat)
    requires Timely(p) && Safe(p, s) && Recovering(p, s) && Enabled(p, s, step)
    requires Voter(s, i) && i in Act(p, s, step).nodes && step != Boot(i)
    requires !(s.lock.Free? && s.marketOpen) && Act(p, s, step).lock.Free? && Act(p, s, step).marketOpen
    ensures Prospect(p, Act(p, s, step), i, Since(Act(p, s, step), i) + Patience(p))
  {
    var s' := Act(p, s, step);
    assert VoterOk(p, s, i) && NodeSafe(p, s, i);
    WatchKeeps(p, s, step, i);
    ActKeeps(p, s, step);
    forall k | k in s'.ops ensures k in s.ops && s'.ops[k] == s.ops[k] && OpBounded(p, s, k) {
    }
    Establish(p, s', i, s.now, Since(s', i) + Patience(p));
  }

  lemma VoterWaits(p: Params, s: State, step: Step, i: nat)
    requires Safe(p, s) && Enabled(p, s, step) && Voter(s, i) && i in Act(p, s, step).nodes && step != Boot(i)
    requires VoterOk(p, s, i) && s.lock.Free? && s.marketOpen
    requires Act(p, s, step).lock.Free? && Act(p, s, step).marketOpen
    ensures Prospect(p, Act(p, s, step), i, Since(Act(p, s, step), i) + Patience(p))
  {
    if step.Exec? { assert OpSafe(p, s, step.k); }
    assert Since(Act(p, s, step), i) == Since(s, i);
    ProspectKeeps(p, s, step, i, Since(s, i) + Patience(p));
  }

  lemma VoterBefore(p: Params, s: State, step: Step, i: nat)
    requires Safe(p, s) && Enabled(p, s, step) && PastOk(s) && Voter(Act(p, s, step), i) && step != Boot(i)
    ensures Voter(s, i)
  {
  }

  lemma VoterKeeps(p: Params, s: State, step: Step, i: nat)
    requires Timely(p) && Safe(p, s) && Recovering(p, s) && Enabled(p, s, step)
    requires Voter(Act(p, s, step), i)
    ensures VoterOk(p, Act(p, s, step), i)
  {
    if step == Boot(i) {
      assert s.marketOpen;
      VoterBoots(p, s, i);
    } else {
      VoterBefore(p, s, step, i);
      assert VoterOk(p, s, i);
      WatchKeeps(p, s, step, i);
      if Act(p, s, step).lock.Free? && Act(p, s, step).marketOpen {
        if s.lock.Free? && s.marketOpen {
          VoterWaits(p, s, step, i);
        } else {
          VoterStarts(p, s, step, i);
        }
      }
    }
  }

  lemma RecoveringUnobserved(p: Params, s: State, s': State)
    requires s' == Observe(s) && GapOk(s') && PastOk(s')
    requires forall i {:trigger VoterOk(p, s, i)} :: Voter(s, i) ==> VoterOk(p, s, i)
    requires forall k {:trigger OpBounded(p, s, k)} :: k in s.ops ==> OpBounded(p, s, k)
    requires forall k {:trigger RenewalOk(s, k)} :: k in s.ops ==> RenewalOk(s, k)
    ensures Recovering(p, s')
  {
    forall i | Voter(s', i) ensures VoterOk(p, s', i) {
      assert VoterOk(p, s, i);
      if Watching(s, i) {
        var t :| t in s.nodes[i].timers && s.nodes[i].timers[t].kind == Watcher;
        assert t in s'.nodes[i].timers;
      }
      if Asking(s, i) {
        var k :| k in s.ops && (s.ops[k].SetSent? || s.ops[k].SetDone?) && s.ops[k].who == i;
        assert k in s'.ops;
      }
      var limit := Since(s, i) + Patience(p);
      if k :| OpLeads(p, s, i, k, limit) { assert OpLeads(p, s', i, k, limit); }
      if t :| TimerLeads(p, s, i, t, limit) { assert TimerLeads(p, s', i, t, limit); }
    }
    forall k | k in s'.ops ensures RenewalOk(s', k) {
      assert RenewalOk(s, k);
      if Releasing(s) { var m :| m in s.ops && s.ops[m].DelSent?; assert m in s'.ops; }
    }
    forall k | k in s'.ops ensures OpBounded(p, s', k) {
      assert OpBounded(p, s, k);
    }
  }

  lemma AllOpsKeep(p: Params, s: State, step: Step)
    requires Safe(p, s) && Recovering(p, s) && Enabled(p, s, step)
    ensures forall k {:trigger OpBounded(p, Act(p, s, step), k)} ::
      k in Act(p, s, step).ops ==> OpBounded(p, Act(p, s, step), k)
  {
    forall k | k in Act(p, s, step).ops ensures OpBounded(p, Act(p, s, step), k) {
      if k in s.ops { assert OpBounded(p, s, k) && OpSafe(p, s, k); }
      if step.Fire? { assert NodeSafe(p, s, step.i); }
      OpsKeep(p, s, step, k);
    }
  }

  lemma PastActs(p: Params, s: State, step: Step)
    requires PastOk(s) && Enabled(p, s, step)
    ensures PastOk(Act(p, s, step))
  {
  }

  lemma PastKeeps(p: Params, s: State, step: Step)
    requires PastOk(s) && Enabled(p, s, step)
    ensures PastOk(Act(p, s, step)) && PastOk(Apply(p, s, step))
  {
    PastActs(p, s, step);
  }

  lemma RecoveryStep(p: Params, s: State, step: Step)
    requires Timely(p) && Safe(p, s) && Recovering(p, s) && Enabled(p, s, step)
    ensures Safe(p, Apply(p, s, step)) && Recovering(p, Apply(p, s, step))
  {
    var s' := Act(p, s, step);
    StepKeeps(p, s, step);
    GapKeeps(p, s, step);
    PastKeeps(p, s, step);
    AllOpsKeep(p, s, step);
    forall k | k in s'.ops ensures RenewalOk(s', k) { RenewalsKeep(p, s, step, k); }
    forall i | Voter(s', i) ensures VoterOk(p, s', i) { VoterKeeps(p, s, step, i); }
    if !step.Tick? {
      RecoveringUnobserved(p, s', Apply(p, s, step));
    }
  }

  lemma {:induction false} RunRecovers(p: Params, s: State, steps: seq<Step>)
    requires Timely(p) && Safe(p, s) && Recovering(p, s) && ValidRun(p, s, steps)
    ensures Safe(p, Run(p, s, steps)) && Recovering(p, Run(p, s, steps))
    decreases |steps|
  {
    if steps != [] {
      RecoveryStep(p, s, steps[0]);
      RunRecovers(p, Apply(p, s, steps[0]), steps[1..]);
    }
  }

  /** A prospect is a bound that time does not pass. */
  lemma ProspectIsNear(p: Params, s: State, i: nat, limit: int)
    requires Safe(p, s) && Voter(s, i) && Prospect(p, s, i, limit)
    ensures s.now <= limit
  {
    assert NodeSafe(p, s, i);
    if k :| OpLeads(p, s, i, k, limit) {
      assert OpSafe(p, s, k);
    }
  }

  /**
   At any point of any run, while the market is open and some instance that was elected or
   rejected before is alive, either a live instance holds the lock, or the last time one did,
   the last trace of the dead, the opening of the market or the instance's boot is at most
   `Patience` ago.
  */
  lemma OwnerlessTimeIsBounded(p: Params, s: State, steps: seq<Step>, i: nat)
    requires Timely(p) && Init(s) && ValidRun(p, s, steps)
    requires Run(p, s, steps).marketOpen && Voter(Run(p, s, steps), i)
    ensures var e := Run(p, s, steps);
      || HeldByLive(e)
      || e.now <= Max(Max(e.lastHeld, e.lapseBy), Max(e.openSince, e.electedAt[i]))
                  + 15000 + p.watch + 2 * p.send + 2 * p.reply
  {
    RunRecovers(p, s, steps);
    SettledGap(p, Run(p, s, steps), i);
  }

  lemma SettledGap(p: Params, e: State, i: nat)
    requires Safe(p, e) && Recovering(p, e) && e.marketOpen && Voter(e, i)
    ensures HeldByLive(e) || e.now <= Max(Max(e.lastHeld, e.lapseBy), Max(e.openSince, e.electedAt[i])) + Patience(p)
  {
    assert VoterOk(p, e, i);
    if e.lock.Free? {
      ProspectIsNear(p, e, i, Since(e, i) + Patience(p));
    } else if Releasing(e) {
      var k :| k in e.ops && e.ops[k].DelSent?;
      assert OpSafe(p, e, k) && OpBounded(p, e, k);
    }
  }

  /** A stretch of a run in which nobody dies and the market does not close. */
  predicate Calm(steps: seq<Step>) {
    forall n :: 0 <= n < |steps| ==> !steps[n].Crash? && !steps[n].Shutdown? && steps[n] != Market(false)
  }

  lemma {:induction false} CalmKeeps(p: Params, s: State, steps: seq<Step>, i: nat)
    requires ValidRun(p, s, steps) && Calm(steps) && s.marketOpen && Voter(s, i) && i in s.used
    ensures var e := Run(p, s, steps);
      e.marketOpen && Voter(e, i) && e.openSince == s.openSince && e.lapseBy == s.lapseBy
      && e.electedAt[i] == s.electedAt[i]
    decreases |steps|
  {
    if steps != [] {
      assert steps[0] in steps;
      CalmKeeps(p, Apply(p, s, steps[0]), steps[1..], i);
    }
  }

  /** At some point of the run, its ends included, a live instance holds the lock. */
  ghost predicate HeldDuring(p: Params, s: State, steps: seq<Step>)
    requires ValidRun(p, s, steps)
    decreases |steps|
  {
    HeldByLive(s) || (steps != [] && HeldDuring(p, Apply(p, s, steps[0]), steps[1..]))
  }

  lemma {:induction false} HeldWitness(p: Params, s: State, steps: seq<Step>)
    requires ValidRun(p, s, steps) && Run(p, s, steps).lastHeld != s.lastHeld
    ensures HeldDuring(p, s, steps)
    decreases |steps|
  {
    var s1 := Apply(p, s, steps[0]);
    if !HeldByLive(s) && s1.lastHeld == s.lastHeld {
      HeldWitness(p, s1, steps[1..]);
    }
  }

  /** The death of `death.i`, with nothing of the dead left behind and no SET of its own under way. */
  ghost predicate Orderly(p: Params, s: State, death: Step, i: nat) {
    && Enabled(p, s, death)
    && (death.Crash? || (death.Shutdown? && s.nodes[death.i].isLeader && !SetInFlight(s, death.i)))
    && s.lapseBy <= s.now && s.marketOpen && Voter(s, i) && i != death.i
  }

  /** How long what the death leaves behind can hold the lock. */
  function Aftermath(p: Params, death: Step): nat {
    if death.Crash? then LOCK_TTL + Max(p.send, p.renewal) else p.release
  }

  lemma AfterDeath(p: Params, s: State, death: Step, i: nat)
    requires Safe(p, s) && Recovering(p, s) && Orderly(p, s, death, i)
    ensures var s1 := Apply(p, s, death);
      && s1.marketOpen && Voter(s1, i) && i in s1.used && s1.now == s.now
      && Max(Max(s1.lastHeld, s1.lapseBy), Max(s1.openSince, s1.electedAt[i])) <= s.now + Aftermath(p, death)
  {
    assert NodeSafe(p, s, i);
  }

  /**
   An instance dies. Unless another one follows it, a surviving voter sees to it that a live
   instance has held the lock since: within 60 + 15 seconds and the delays after a crash, within
   15 seconds and the delays after the clean shutdown of a leader.
  */
  lemma Succession(p: Params, s0: State, before: seq<Step>, death: Step, after: seq<Step>, i: nat)
    requires Timely(p) && Init(s0) && ValidRun(p, s0, before)
    requires var s := Run(p, s0, before);
      Orderly(p, s, death, i) && ValidRun(p, Apply(p, s, death), after) && Calm(after)
    requires var s := Run(p, s0, before);
      Run(p, Apply(p, s, death), after).now > s.now + 15000 + p.watch + 2 * p.send + 2 * p.reply
        + (if death.Crash? then 60000 + Max(p.send, p.renewal) else p.release)
    ensures HeldDuring(p, Apply(p, Run(p, s0, before), death), after)
  {
    RunRecovers(p, s0, before);
    var s := Run(p, s0, before);
    var s1 := Apply(p, s, death);
    AfterDeath(p, s, death, i);
    RecoveryStep(p, s, death);
    RunRecovers(p, s1, after);
    CalmKeeps(p, s1, after, i);
    SettledGap(p, Run(p, s1, after), i);
    if Run(p, s1, after).lastHeld != s1.lastHeld { HeldWitness(p, s1, after); }
  }
}

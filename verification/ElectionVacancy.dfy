/**
 The time without a leader. Where no owner is rejected by itself it is bounded like the time
 without an owner; in any run it is, with one time to live and one renewal delay more: so long a
 deposed owner can keep the lock that it does not use.
*/
module ElectionVacancy {
  import opened Options
  import opened RedisLock
  import opened LeaderElection
  import opened ElectionCluster
  import opened ElectionSafety
  import opened ElectionRecovery
  import opened ElectionLeadership

  /** How long after it led an owner can hold the lock without leading. */
  function Hangover(p: Params): nat {
    LOCK_TTL + p.renewal
  }

  /** `slack` is none where no owner is rejected by itself. */
  predicate Slack(p: Params, slack: nat) {
    slack == 0 || slack == Hangover(p)
  }

  /** A live owner leads, awaits its grant, or was deposed and loses the lock soon. */
  ghost predicate NodeKept(s: State, i: nat, slack: nat) {
    i in s.nodes ==>
    Holds(s, i) ==> s.nodes[i].isLeader || Granted(s, i) || s.lock.expires <= s.lastLed + slack
  }

  /** Only leaders send an EXPIRE. */
  predicate RenewalRecent(p: Params, s: State, k: nat) {
    k in s.ops ==>
    s.ops[k].ExpireSent? ==> s.ops[k].limit <= s.lastLed + p.renewal
  }

  /** The last leader, what the dead left behind, the opening of the market, the boot of the survivor. */
  function Base(s: State, i: nat, slack: nat): int
    requires i in s.electedAt
  {
    Max(Max(s.lastLed + slack, s.lapseBy), Max(s.openSince, s.electedAt[i]))
  }

  ghost predicate GrantTimely(p: Params, s: State, k: nat, i: nat, slack: nat) {
    k in s.ops && Voter(s, i) ==>
    Grant(s, s.ops[k]) && s.marketOpen ==> s.ops[k].limit <= Base(s, i, slack) + Patience(p) + p.reply
  }

  ghost predicate Recent(s: State) {
    (Led(s) ==> s.lastLed == s.now) && s.lastLed <= s.now
  }

  ghost predicate LedOk(p: Params, s: State, slack: nat) {
    && Recent(s)
    && (!HeldByLive(s) ==> s.lastHeld <= Max(s.lastLed + slack, s.lapseBy))
    && (forall i {:trigger NodeKept(s, i, slack)} :: i in s.nodes ==> NodeKept(s, i, slack))
    && (forall k {:trigger RenewalRecent(p, s, k)} :: k in s.ops ==> RenewalRecent(p, s, k))
    && (forall k, i {:trigger GrantTimely(p, s, k, i, slack)} ::
          k in s.ops && Voter(s, i) ==> GrantTimely(p, s, k, i, slack))
  }

  // ---------------------------------------------------------------- what a step leaves of the history

  lemma ActLeavesHistory(p: Params, s: State, step: Step)
    requires Enabled(p, s, step) && !step.Tick?
    ensures Act(p, s, step).lastLed == s.lastLed
    ensures Act(p, s, step).lastHeld == s.lastHeld && Act(p, s, step).now == s.now
  {
  }

  lemma LedGrows(p: Params, s: State, step: Step)
    requires Enabled(p, s, step) && s.lastLed <= s.now
    ensures s.lastLed <= Apply(p, s, step).lastLed <= Apply(p, s, step).now
    ensures s.lapseBy <= Apply(p, s, step).lapseBy
  {
    LapseGrows(p, s, step);
    if !step.Tick? { ActLeavesHistory(p, s, step); }
  }

  lemma StaysRecent(p: Params, s: State, step: Step)
    requires Enabled(p, s, step) && Recent(s)
    ensures Recent(Apply(p, s, step))
  {
    LedGrows(p, s, step);
    if step.Tick? { assert Apply(p, s, step).nodes == s.nodes; }
  }

  lemma OpeningIsNow(p: Params, s: State, step: Step)
    requires Enabled(p, s, step) && PastOk(s)
    ensures s.openSince <= Apply(p, s, step).openSince
    ensures Apply(p, s, step).marketOpen && !s.marketOpen ==> Apply(p, s, step).openSince == s.now
  {
  }

  lemma BootStands(p: Params, s: State, step: Step, i: nat)
    requires Enabled(p, s, step) && Voter(s, i) && Voter(Apply(p, s, step), i) && step != Boot(i)
    ensures Apply(p, s, step).electedAt[i] == s.electedAt[i]
  {
  }

  lemma BaseGrows(p: Params, s: State, step: Step, i: nat, slack: nat)
    requires Enabled(p, s, step) && Recent(s) && PastOk(s) && Voter(s, i) && Voter(Apply(p, s, step), i)
    requires step != Boot(i)
    ensures Base(s, i, slack) <= Base(Apply(p, s, step), i, slack)
    ensures Apply(p, s, step).marketOpen && !s.marketOpen ==> Base(Apply(p, s, step), i, slack) >= s.now
  {
    LedGrows(p, s, step);
    OpeningIsNow(p, s, step);
    BootStands(p, s, step, i);
  }

  // ---------------------------------------------------------------- owners

  /** What an EXPIRE of a former leader adds to the lock of a deposed owner. */
  lemma RenewalKeeps(p: Params, s: State, k: nat, j: nat, slack: nat)
    requires Safe(p, s) && LedOk(p, s, slack) && Slack(p, slack)
    requires Enabled(p, s, Exec(k)) && s.ops[k].ExpireSent? && j in s.nodes
    ensures NodeKept(Execute(p, s, k), j, slack)
  {
    assert NodeKept(s, j, slack) && RenewalRecent(p, s, k) && OpSafe(p, s, k);
    StillGranted(s, Execute(p, s, k), j);
  }

  /** A leader that its own lock rejects led until now. */
  lemma RejectionKeeps(p: Params, s: State, k: nat, j: nat, slack: nat)
    requires Safe(p, s) && LedOk(p, s, slack) && Slack(p, slack)
    requires Enabled(p, s, Answer(k)) && s.ops[k].SetDone? && !s.ops[k].ok && s.ops[k].who == j
    requires slack == 0 ==> !SelfRejected(p, s, Answer(k))
    ensures NodeKept(HandleReply(p, s, k), j, slack)
  {
    assert NodeKept(s, j, slack);
    StillGranted(s, HandleReply(p, s, k), j);
    if s.nodes[j].isLeader { assert Led(s); }
  }

  lemma ExecKeeps(p: Params, s: State, k: nat, j: nat, slack: nat)
    requires Safe(p, s) && LedOk(p, s, slack) && Slack(p, slack) && Enabled(p, s, Exec(k)) && j in s.nodes
    ensures NodeKept(Execute(p, s, k), j, slack)
  {
    var s' := Execute(p, s, k);
    assert NodeKept(s, j, slack);
    if s.ops[k].ExpireSent? {
      RenewalKeeps(p, s, k, j, slack);
    } else if s.ops[k].SetSent? && s.lock.Free? && s.ops[k].who == j {
      assert Grant(s', s'.ops[k]);
    } else {
      StillGranted(s, s', j);
    }
  }

  lemma AnswerKeeps(p: Params, s: State, k: nat, j: nat, slack: nat)
    requires Safe(p, s) && LedOk(p, s, slack) && Slack(p, slack) && Enabled(p, s, Answer(k)) && j in s.nodes
    requires slack == 0 ==> !SelfRejected(p, s, Answer(k))
    ensures NodeKept(HandleReply(p, s, k), j, slack)
  {
    var s' := HandleReply(p, s, k);
    assert NodeKept(s, j, slack);
    if s.ops[k].SetDone? && s.ops[k].who == j {
      if s.ops[k].ok { assert s'.nodes[j].isLeader; } else { RejectionKeeps(p, s, k, j, slack); }
    } else {
      StillGranted(s, s', j);
    }
  }

  lemma RestKeeps(p: Params, s: State, step: Step, j: nat, slack: nat)
    requires Safe(p, s) && LedOk(p, s, slack) && Enabled(p, s, step) && !step.Exec? && !step.Answer?
    requires j in s.nodes && j in Act(p, s, step).nodes
    ensures NodeKept(Act(p, s, step), j, slack)
  {
    assert NodeKept(s, j, slack) && NodeSafe(p, s, j);
    StillGranted(s, Act(p, s, step), j);
  }

  lemma NodeStaysKept(p: Params, s: State, step: Step, j: nat, slack: nat)
    requires Safe(p, s) && LedOk(p, s, slack) && Slack(p, slack) && Enabled(p, s, step)
    requires slack == 0 ==> !SelfRejected(p, s, step)
    requires j in s.nodes && j in Act(p, s, step).nodes
    ensures NodeKept(Act(p, s, step), j, slack)
  {
    match step
    case Exec(k) => ExecKeeps(p, s, k, j, slack);
    case Answer(k) => AnswerKeeps(p, s, k, j, slack);
    case _ => RestKeeps(p, s, step, j, slack);
  }

  lemma StaysKept(p: Params, s: State, step: Step, slack: nat)
    requires Safe(p, s) && LedOk(p, s, slack) && Slack(p, slack) && Enabled(p, s, step)
    requires slack == 0 ==> !SelfRejected(p, s, step)
    ensures forall j {:trigger NodeKept(Apply(p, s, step), j, slack)} ::
      j in Apply(p, s, step).nodes ==> NodeKept(Apply(p, s, step), j, slack)
  {
    var s' := Apply(p, s, step);
    LedGrows(p, s, step);
    forall j | j in s'.nodes ensures NodeKept(s', j, slack) {
      if j in s.nodes {
        NodeStaysKept(p, s, step, j, slack);
        StillGranted(Act(p, s, step), s', j);
        if !step.Tick? { ActLeavesHistory(p, s, step); }
      }
    }
  }

  /** An EXPIRE under way was sent before, or is sent now by a leader. */
  lemma RenewalIsNew(p: Params, s: State, step: Step, k: nat)
    requires Enabled(p, s, step) && k in Act(p, s, step).ops && Act(p, s, step).ops[k].ExpireSent?
    ensures (k in s.ops && Act(p, s, step).ops[k] == s.ops[k])
      || (step.Fire? && Act(p, s, step).ops[k].limit <= s.now + p.renewal
          && s.nodes[step.i].timers[step.t].kind == Heartbeat)
  {
  }

  lemma RenewalStaysRecent(p: Params, s: State, step: Step, k: nat)
    requires Safe(p, s) && Recent(s) && Enabled(p, s, step) && k in Apply(p, s, step).ops
    requires k in s.ops ==> RenewalRecent(p, s, k)
    ensures RenewalRecent(p, Apply(p, s, step), k)
  {
    LedGrows(p, s, step);
    assert Apply(p, s, step).ops == Act(p, s, step).ops;
    if Act(p, s, step).ops[k].ExpireSent? {
      RenewalIsNew(p, s, step, k);
      if step.Fire? {
        assert NodeSafe(p, s, step.i);
        if s.nodes[step.i].isLeader { assert Led(s); }
      }
    }
  }

  /** A live owner that leads or awaits its grant does not lose the lock to the clock. */
  lemma OwnerOutlives(p: Params, s: State, t: int, slack: nat)
    requires Timely(p) && Safe(p, s) && LedOk(p, s, slack) && MayReach(p, s, t) && HeldByLive(s)
    ensures t < s.lock.expires || s.lock.expires <= s.lastLed + slack
  {
    var i := s.lock.owner;
    assert NodeKept(s, i, slack);
    if s.nodes[i].isLeader {
      LeaderOutlives(p, s, i, t);
    } else if Granted(s, i) {
      var k :| k in s.ops && Grant(s, s.ops[k]) && s.ops[k].who == i;
      assert OpSafe(p, s, k);
    }
  }

  /** Nothing but its death and the clock takes the lock from a live owner. */
  lemma OwnerStays(p: Params, s: State, step: Step)
    requires Safe(p, s) && Enabled(p, s, step) && HeldByLive(s)
    requires !step.Crash? && !step.Shutdown? && !step.Tick?
    ensures HeldByLive(Apply(p, s, step))
  {
    if step.Exec? { assert OpSafe(p, s, step.k); }
  }

  /** Where a live owner dies, it led lately, or what it leaves behind is accounted for. */
  lemma OwnerDies(p: Params, s: State, step: Step, slack: nat)
    requires Recovering(p, s) && LedOk(p, s, slack) && Enabled(p, s, step)
    requires (step.Crash? || step.Shutdown?) && HeldByLive(s) && step.i == s.lock.owner
    ensures s.lastHeld <= Max(s.lastLed + slack, Act(p, s, step).lapseBy)
  {
    if s.nodes[step.i].isLeader { assert Led(s); }
  }

  lemma HeldWasLed(p: Params, s: State, step: Step, slack: nat)
    requires Timely(p) && Safe(p, s) && Recovering(p, s) && LedOk(p, s, slack) && Enabled(p, s, step)
    ensures var s' := Apply(p, s, step); !HeldByLive(s') ==> s'.lastHeld <= Max(s'.lastLed + slack, s'.lapseBy)
  {
    var s' := Apply(p, s, step);
    LedGrows(p, s, step);
    if !HeldByLive(s') {
      if step.Tick? {
        if HeldByLive(s) { OwnerOutlives(p, s, s'.now, slack); }
      } else {
        ActLeavesHistory(p, s, step);
        if HeldByLive(s) {
          if !step.Crash? && !step.Shutdown? { OwnerStays(p, s, step); }
          OwnerDies(p, s, step, slack);
        }
      }
    }
  }

  // ---------------------------------------------------------------- grants

  /** A grant comes from a free lock, and a free lock is free for `Patience` at most. */
  lemma FreshGrant(p: Params, s: State, k: nat, i: nat, slack: nat)
    requires Safe(p, s) && Recovering(p, s) && LedOk(p, s, slack) && Enabled(p, s, Exec(k)) && s.ops[k].SetSent?
    requires s.lock.Free? && s.marketOpen && Voter(s, i)
    ensures s.now <= Base(s, i, slack) + Patience(p)
  {
    SettledGap(p, s, i);
  }

  lemma GrantIsOlder(p: Params, s: State, step: Step, k: nat)
    requires Enabled(p, s, step) && step != Exec(k)
    requires k in Apply(p, s, step).ops && Grant(Apply(p, s, step), Apply(p, s, step).ops[k])
    ensures k in s.ops && Apply(p, s, step).ops[k] == s.ops[k]
  {
  }

  lemma GrantIsNew(p: Params, s: State, k: nat)
    requires Enabled(p, s, Exec(k))
    requires k in Execute(p, s, k).ops && Grant(Execute(p, s, k), Execute(p, s, k).ops[k])
    ensures s.ops[k].SetSent? && At(s.lock, s.now).Free? && Execute(p, s, k).ops[k].limit == s.now + p.reply
  {
  }

  lemma GrantsStayTimely(p: Params, s: State, step: Step, k: nat, i: nat, slack: nat)
    requires Safe(p, s) && Recovering(p, s) && LedOk(p, s, slack) && Enabled(p, s, step)
    requires k in Apply(p, s, step).ops && Voter(Apply(p, s, step), i)
    ensures GrantTimely(p, Apply(p, s, step), k, i, slack)
  {
    var s' := Apply(p, s, step);
    if Grant(s', s'.ops[k]) && s'.marketOpen {
      if step == Exec(k) { GrantIsNew(p, s, k); } else { GrantIsOlder(p, s, step, k); }
      assert OpBounded(p, s, k) && OpSafe(p, s, k);
      if step == Boot(i) {
        assert s'.electedAt[i] == s.now;
      } else {
        VoterBefore(p, s, step, i);
        BaseGrows(p, s, step, i, slack);
        if step == Exec(k) {
          FreshGrant(p, s, k, i, slack);
        } else {
          assert GrantTimely(p, s, k, i, slack);
        }
      }
    }
  }

  // ---------------------------------------------------------------- runs

  lemma LedStep(p: Params, s: State, step: Step, slack: nat)
    requires Timely(p) && Safe(p, s) && Recovering(p, s) && LedOk(p, s, slack) && Slack(p, slack) && Enabled(p, s, step)
    requires slack == 0 ==> !SelfRejected(p, s, step)
    ensures LedOk(p, Apply(p, s, step), slack)
  {
    var s' := Apply(p, s, step);
    StaysRecent(p, s, step);
    StaysKept(p, s, step, slack);
    HeldWasLed(p, s, step, slack);
    forall k | k in s'.ops ensures RenewalRecent(p, s', k) {
      if k in s.ops { assert RenewalRecent(p, s, k); }
      RenewalStaysRecent(p, s, step, k);
    }
    forall k, i | k in s'.ops && Voter(s', i) ensures GrantTimely(p, s', k, i, slack) {
      GrantsStayTimely(p, s, step, k, i, slack);
    }
  }

  ghost predicate Settled(p: Params, s: State, slack: nat) {
    Safe(p, s) && Recovering(p, s) && LedOk(p, s, slack)
  }

  lemma {:induction false} SettledRun(p: Params, s: State, steps: seq<Step>, slack: nat)
    requires Timely(p) && Settled(p, s, slack) && Slack(p, slack) && ValidRun(p, s, steps)
    requires slack == 0 ==> NeverSelfRejected(p, s, steps)
    ensures Settled(p, Run(p, s, steps), slack)
    decreases |steps|
  {
    if steps != [] {
      RecoveryStep(p, s, steps[0]);
      LedStep(p, s, steps[0], slack);
      SettledRun(p, Apply(p, s, steps[0]), steps[1..], slack);
    }
  }

  lemma SettledLead(p: Params, e: State, i: nat, slack: nat)
    requires Settled(p, e, slack) && e.marketOpen && Voter(e, i)
    ensures Led(e) || e.now <= Base(e, i, slack) + Patience(p) + p.reply
  {
    SettledGap(p, e, i);
    if HeldByLive(e) {
      var j := e.lock.owner;
      assert NodeKept(e, j, slack);
      if Granted(e, j) {
        var k :| k in e.ops && Grant(e, e.ops[k]) && e.ops[k].who == j;
        assert OpSafe(p, e, k) && GrantTimely(p, e, k, i, slack);
      }
    }
  }

  /**
   At any point of any run, while the market is open and some instance that was elected or
   rejected before is alive, either some instance leads, or the last leader, the last trace of the
   dead, the opening of the market or the boot of that instance is at most `Patience` and one
   reply ago: the last leader itself where no owner is rejected by itself, and `Hangover` after it
   in any case.
  */
  lemma LeaderlessTimeIsBounded(p: Params, s: State, steps: seq<Step>, i: nat)
    requires Timely(p) && Init(s) && ValidRun(p, s, steps)
    requires Run(p, s, steps).marketOpen && Voter(Run(p, s, steps), i)
    ensures var e := Run(p, s, steps);
      var late := e.now - 15000 - p.watch - 2 * p.send - 3 * p.reply;
      && (Led(e) || late <= Max(Max(e.lastLed + 60000 + p.renewal, e.lapseBy), Max(e.openSince, e.electedAt[i])))
      && (NeverSelfRejected(p, s, steps) ==>
            Led(e) || late <= Max(Max(e.lastLed, e.lapseBy), Max(e.openSince, e.electedAt[i])))
  {
    SettledRun(p, s, steps, Hangover(p));
    SettledLead(p, Run(p, s, steps), i, Hangover(p));
    if NeverSelfRejected(p, s, steps) {
      SettledRun(p, s, steps, 0);
      SettledLead(p, Run(p, s, steps), i, 0);
    }
  }

  /** At some point of the run, its ends included, a live instance leads. */
  ghost predicate LedDuring(p: Params, s: State, steps: seq<Step>)
    requires ValidRun(p, s, steps)
    decreases |steps|
  {
    Led(s) || (steps != [] && LedDuring(p, Apply(p, s, steps[0]), steps[1..]))
  }

  lemma {:induction false} LedWitness(p: Params, s: State, steps: seq<Step>)
    requires ValidRun(p, s, steps) && (Run(p, s, steps).lastLed != s.lastLed || Led(Run(p, s, steps)))
    ensures LedDuring(p, s, steps)
    decreases |steps|
  {
    if steps != [] {
      var s1 := Apply(p, s, steps[0]);
      if !Led(s) && !LedDuring(p, s1, steps[1..]) {
        LedWitness(p, s1, steps[1..]);
      }
    }
  }

  /**
   From a settled state on some instance leads again within the aftermath of a death, `Patience`, a
   reply and the slack.
  */
  lemma SettledSuccession(p: Params, s: State, death: Step, after: seq<Step>, i: nat, slack: nat)
    requires Timely(p) && Settled(p, s, slack) && Slack(p, slack) && Orderly(p, s, death, i)
    requires ValidRun(p, Apply(p, s, death), after) && Calm(after)
    requires slack == 0 ==> NeverSelfRejected(p, Apply(p, s, death), after)
    requires Run(p, Apply(p, s, death), after).now > s.now + Aftermath(p, death) + slack + Patience(p) + p.reply
    ensures LedDuring(p, Apply(p, s, death), after)
  {
    var s1 := Apply(p, s, death);
    AfterDeath(p, s, death, i);
    RecoveryStep(p, s, death);
    LedStep(p, s, death, slack);
    SettledRun(p, s1, after, slack);
    CalmKeeps(p, s1, after, i);
    SettledLead(p, Run(p, s1, after), i, slack);
    if Run(p, s1, after).lastLed != s1.lastLed || Led(Run(p, s1, after)) { LedWitness(p, s1, after); }
  }

  /**
   After a death some instance has led again within the bound of `Succession` and one reply, where
   no owner is rejected by itself, and within `Hangover` more in any case.
  */
  lemma SuccessionOfLeaders(p: Params, s0: State, before: seq<Step>, death: Step, after: seq<Step>, i: nat)
    requires Timely(p) && Init(s0) && ValidRun(p, s0, before)
    requires Orderly(p, Run(p, s0, before), death, i)
    requires ValidRun(p, Apply(p, Run(p, s0, before), death), after) && Calm(after)
    requires
      var s := Run(p, s0, before);
      var late := Run(p, Apply(p, s, death), after).now - s.now - 15000 - p.watch - 2 * p.send - 3 * p.reply
        - (if death.Crash? then 60000 + Max(p.send, p.renewal) else p.release);
      late > 60000 + p.renewal
      || (late > 0 && NeverSelfRejected(p, s0, before) && NeverSelfRejected(p, Apply(p, s, death), after))
    ensures LedDuring(p, Apply(p, Run(p, s0, before), death), after)
  {
    var s := Run(p, s0, before);
    var late := Run(p, Apply(p, s, death), after).now - s.now - Aftermath(p, death) - Patience(p) - p.reply;
    var slack := if late > Hangover(p) then Hangover(p) else 0;
    SettledRun(p, s0, before, slack);
    SettledSuccession(p, s, death, after, i, slack);
  }
}

/**
 Who owns the lock need not lead. `elect` steps down on every rejected SET, also on one that the
 instance's own lock rejects, and piled-up watchers can send two at once. That is the only way to
 own the lock and not lead, and it takes a watcher that runs while its instance still waits for a
 GET or SET.
*/
module ElectionLeadership {
  import opened Options
  import opened RedisLock
  import opened LeaderElection
  import opened ElectionCluster
  import opened ElectionSafety
  import opened ElectionRecovery

  /**
   A live leader becomes a worker if and only if the step answers a rejected SET of its own. It owns
   the lock all the same.
  */
  lemma DeposedExactlyWhen(p: Params, s: State, step: Step, i: nat)
    requires Timely(p) && Safe(p, s) && Enabled(p, s, step)
    requires i in s.nodes && s.nodes[i].isLeader && i in Apply(p, s, step).nodes
    ensures !Apply(p, s, step).nodes[i].isLeader
            <==> step.Answer? && s.ops[step.k].SetDone? && !s.ops[step.k].ok && s.ops[step.k].who == i
    ensures !Apply(p, s, step).nodes[i].isLeader ==> Holds(Apply(p, s, step), i)
  {
    assert NodeSafe(p, s, i);
  }

  // ---------------------------------------------------------------- owners that lead

  ghost predicate Granted(s: State, i: nat) {
    exists k :: k in s.ops && Grant(s, s.ops[k]) && s.ops[k].who == i
  }

  ghost predicate NodeSteady(s: State, i: nat) {
    i in s.nodes ==>
    Holds(s, i) ==> s.nodes[i].isLeader || Granted(s, i)
  }

  /** Every live owner of the lock leads, or its grant is on the way. */
  ghost predicate Steady(s: State) {
    forall i {:trigger NodeSteady(s, i)} :: i in s.nodes ==> NodeSteady(s, i)
  }

  /** An owner without a grant on its way is told that its SET was rejected. */
  ghost predicate SelfRejected(p: Params, s: State, step: Step)
    requires Enabled(p, s, step)
  {
    && step.Answer? && s.ops[step.k].SetDone? && !s.ops[step.k].ok
    && Holds(s, s.ops[step.k].who) && !Granted(s, s.ops[step.k].who)
  }

  ghost predicate NeverSelfRejected(p: Params, s: State, steps: seq<Step>)
    requires ValidRun(p, s, steps)
    decreases |steps|
  {
    steps == [] || (!SelfRejected(p, s, steps[0]) && NeverSelfRejected(p, Apply(p, s, steps[0]), steps[1..]))
  }

  ghost predicate AlwaysSteady(p: Params, s: State, steps: seq<Step>)
    requires ValidRun(p, s, steps)
    decreases |steps|
  {
    Steady(s) && (steps != [] ==> AlwaysSteady(p, Apply(p, s, steps[0]), steps[1..]))
  }

  lemma StillGranted(s: State, s': State, i: nat)
    requires i in s.nodes ==> i in s'.nodes
    requires forall k :: k in s.ops && s.ops[k].SetDone? && s.ops[k].ok && s.ops[k].who == i ==>
        k in s'.ops && s'.ops[k] == s.ops[k]
    ensures Granted(s, i) ==> Granted(s', i)
  {
    if Granted(s, i) {
      var k :| k in s.ops && Grant(s, s.ops[k]) && s.ops[k].who == i;
      assert Grant(s', s'.ops[k]);
    }
  }

  lemma NodeStaysSteady(p: Params, s: State, step: Step, j: nat)
    requires Safe(p, s) && Steady(s) && Enabled(p, s, step) && !SelfRejected(p, s, step)
    requires j in s.nodes && j in Act(p, s, step).nodes
    ensures NodeSteady(Act(p, s, step), j)
  {
    var s' := Act(p, s, step);
    assert NodeSteady(s, j);
    if step.Exec? && s.ops[step.k].SetSent? && s.lock.Free? && s.ops[step.k].who == j {
      assert Grant(s', s'.ops[step.k]);
    } else if step.Answer? && s.ops[step.k].SetDone? && s.ops[step.k].ok && s.ops[step.k].who == j {
      assert s'.nodes[j].isLeader;
    } else {
      StillGranted(s, s', j);
    }
  }

  lemma StaysSteady(p: Params, s: State, step: Step)
    requires Safe(p, s) && Steady(s) && Enabled(p, s, step) && !SelfRejected(p, s, step)
    ensures Steady(Apply(p, s, step))
  {
    var s' := Apply(p, s, step);
    forall j | j in s'.nodes ensures NodeSteady(s', j) {
      if j in s.nodes {
        NodeStaysSteady(p, s, step, j);
        StillGranted(Act(p, s, step), s', j);
      } else {
        assert step == Boot(j);
        NewcomerOwnsNothing(p, s, j);
      }
    }
  }

  lemma NewcomerOwnsNothing(p: Params, s: State, j: nat)
    requires LockOk(s) && j !in s.used
    ensures !Holds(BootNode(p, s, j), j)
  {
  }

  lemma SelfRejectionUnsettles(p: Params, s: State, step: Step)
    requires Enabled(p, s, step) && SelfRejected(p, s, step)
    ensures !Steady(Apply(p, s, step))
  {
    var s', i := Apply(p, s, step), s.ops[step.k].who;
    StillGranted(s', s, i);
    assert !NodeSteady(s', i);
  }

  lemma {:induction false} SteadyExactlyWhen(p: Params, s: State, steps: seq<Step>)
    requires Timely(p) && Safe(p, s) && Steady(s) && ValidRun(p, s, steps)
    ensures AlwaysSteady(p, s, steps) <==> NeverSelfRejected(p, s, steps)
    decreases |steps|
  {
    if steps != [] {
      StepKeeps(p, s, steps[0]);
      if SelfRejected(p, s, steps[0]) {
        SelfRejectionUnsettles(p, s, steps[0]);
      } else {
        StaysSteady(p, s, steps[0]);
        SteadyExactlyWhen(p, Apply(p, s, steps[0]), steps[1..]);
      }
    }
  }

  /**
   In a run of timely instances every live owner leads or awaits its grant, all the time, if and
   only if no owner is rejected by itself.
  */
  lemma OwnersLeadExactlyWhen(p: Params, s: State, steps: seq<Step>)
    requires Timely(p) && Init(s) && ValidRun(p, s, steps)
    ensures AlwaysSteady(p, s, steps) <==> NeverSelfRejected(p, s, steps)
  {
    SteadyExactlyWhen(p, s, steps);
  }

  // ---------------------------------------------------------------- unhurried watchers

  /** A command of an election or of the watch for one. */
  predicate IsElection(op: Op) {
    op.SetSent? || op.SetDone? || op.GetSent? || op.GetDone?
  }

  ghost predicate Busy(s: State, i: nat) {
    exists k :: k in s.ops && IsElection(s.ops[k]) && s.ops[k].who == i
  }

  ghost predicate PatientStep(p: Params, s: State, step: Step)
    requires Enabled(p, s, step)
  {
    step.Fire? && s.nodes[step.i].timers[step.t].kind == Watcher ==> !Busy(s, step.i)
  }

  /** No watcher of an instance runs while a GET or SET of that instance waits for its reply. */
  ghost predicate Unhurried(p: Params, s: State, steps: seq<Step>)
    requires ValidRun(p, s, steps)
    decreases |steps|
  {
    steps == [] || (PatientStep(p, s, steps[0]) && Unhurried(p, Apply(p, s, steps[0]), steps[1..]))
  }

  /** A leader waits for no SET and for no GET that missed, and live instances renew with success. */
  predicate OpQueued(s: State, k: nat) {
    k in s.ops ==>
    var op := s.ops[k];
    op.who in s.nodes ==>
      && (op.ExpireDone? ==> op.ok)
      && (s.nodes[op.who].isLeader ==> !op.SetSent? && !op.SetDone? && (op.GetDone? ==> op.found))
  }

  predicate Alone(s: State, k: nat, m: nat) {
    k in s.ops && m in s.ops ==>
    var a, b := s.ops[k], s.ops[m];
    IsElection(a) && IsElection(b) && a.who == b.who && a.who in s.nodes ==> k == m
  }

  /** One election command at most is under way for each instance. */
  ghost predicate Queued(s: State) {
    && (forall k {:trigger OpQueued(s, k)} :: k in s.ops ==> OpQueued(s, k))
    && (forall k, m {:trigger Alone(s, k, m)} :: k in s.ops && m in s.ops ==> Alone(s, k, m))
  }

  lemma BootStaysQueued(p: Params, s: State, i: nat)
    requires Safe(p, s) && Queued(s) && i !in s.used
    ensures Queued(BootNode(p, s, i))
  {
    var s' := BootNode(p, s, i);
    forall k | k in s'.ops ensures OpQueued(s', k) {
      if k in s.ops { assert OpQueued(s, k) && OpSafe(p, s, k); }
    }
    forall k, m | k in s'.ops && m in s'.ops ensures Alone(s', k, m) {
      if k in s.ops { assert OpSafe(p, s, k); }
      if m in s.ops { assert OpSafe(p, s, m); }
      if k in s.ops && m in s.ops { assert Alone(s, k, m); }
    }
  }

  lemma FireStaysQueued(p: Params, s: State, i: nat, t: nat)
    requires Safe(p, s) && Queued(s) && Enabled(p, s, Fire(i, t)) && PatientStep(p, s, Fire(i, t))
    ensures Queued(FireTimer(p, s, i, t))
  {
    var s' := FireTimer(p, s, i, t);
    forall k | k in s'.ops ensures OpQueued(s', k) {
      if k in s.ops { assert OpQueued(s, k); }
    }
    forall k, m | k in s'.ops && m in s'.ops ensures Alone(s', k, m) {
      if k in s.ops && m in s.ops { assert Alone(s, k, m); }
    }
  }

  lemma ExecOp(p: Params, s: State, k: nat, m: nat)
    requires Safe(p, s) && Queued(s) && Enabled(p, s, Exec(k)) && m in Execute(p, s, k).ops
    ensures OpQueued(Execute(p, s, k), m)
  {
    assert OpQueued(s, k) && OpQueued(s, m) && OpSafe(p, s, k);
    if s.ops[k].who in s.nodes { assert NodeSafe(p, s, s.ops[k].who); }
  }

  lemma ExecStaysQueued(p: Params, s: State, k: nat)
    requires Safe(p, s) && Queued(s) && Enabled(p, s, Exec(k))
    ensures Queued(Execute(p, s, k))
  {
    var s' := Execute(p, s, k);
    forall m | m in s'.ops ensures OpQueued(s', m) { ExecOp(p, s, k, m); }
    forall m, n | m in s'.ops && n in s'.ops ensures Alone(s', m, n) { assert Alone(s, m, n); }
  }

  lemma AnswerStaysQueued(p: Params, s: State, k: nat)
    requires Safe(p, s) && Queued(s) && Enabled(p, s, Answer(k))
    ensures Queued(HandleReply(p, s, k))
  {
    var s' := HandleReply(p, s, k);
    assert OpQueued(s, k);
    forall m | m in s'.ops ensures OpQueued(s', m) {
      if m in s.ops { assert OpQueued(s, m) && Alone(s, k, m); }
    }
    forall m, n | m in s'.ops && n in s'.ops ensures Alone(s', m, n) {
      if m in s.ops && n in s.ops {
        assert Alone(s, m, n);
      } else if m in s.ops {
        assert Alone(s, k, m);
      } else if n in s.ops {
        assert Alone(s, k, n);
      }
    }
  }

  /** The steps that send and answer nothing for a live instance. */
  lemma OthersStayQueued(s: State, s': State)
    requires Queued(s) && (forall i :: i in s'.nodes ==> i in s.nodes && s'.nodes[i] == s.nodes[i])
    requires forall k :: k in s'.ops && s'.ops[k].who in s'.nodes ==> k in s.ops && s'.ops[k] == s.ops[k]
    ensures Queued(s')
  {
    forall k | k in s'.ops ensures OpQueued(s', k) {
      if k in s.ops { assert OpQueued(s, k); }
    }
    forall k, m | k in s'.ops && m in s'.ops ensures Alone(s', k, m) {
      if k in s.ops && m in s.ops { assert Alone(s, k, m); }
    }
  }

  lemma StaysQueued(p: Params, s: State, step: Step)
    requires Safe(p, s) && Queued(s) && Enabled(p, s, step) && PatientStep(p, s, step)
    ensures Queued(Apply(p, s, step))
  {
    match step {
      case Boot(i) => BootStaysQueued(p, s, i);
      case Fire(i, t) => FireStaysQueued(p, s, i, t);
      case Exec(k) => ExecStaysQueued(p, s, k);
      case Answer(k) => AnswerStaysQueued(p, s, k);
      case _ => OthersStayQueued(s, Act(p, s, step));
    }
    if !step.Tick? { OthersStayQueued(Act(p, s, step), Apply(p, s, step)); }
  }

  lemma QueuedIsNotSelfRejected(p: Params, s: State, step: Step)
    requires Steady(s) && Queued(s) && Enabled(p, s, step)
    ensures !SelfRejected(p, s, step)
  {
    if step.Answer? {
      assert NodeSteady(s, s.ops[step.k].who) && OpQueued(s, step.k);
    }
  }

  lemma {:induction false} QueuedRun(p: Params, s: State, steps: seq<Step>)
    requires Timely(p) && Safe(p, s) && Steady(s) && Queued(s) && ValidRun(p, s, steps) && Unhurried(p, s, steps)
    ensures NeverSelfRejected(p, s, steps)
    decreases |steps|
  {
    if steps != [] {
      QueuedIsNotSelfRejected(p, s, steps[0]);
      StepKeeps(p, s, steps[0]);
      StaysSteady(p, s, steps[0]);
      StaysQueued(p, s, steps[0]);
      QueuedRun(p, Apply(p, s, steps[0]), steps[1..]);
    }
  }

  /** It takes a hurried watcher: one that runs while its instance still waits. */
  lemma UnhurriedOwnersLead(p: Params, s: State, steps: seq<Step>)
    requires Timely(p) && Init(s) && ValidRun(p, s, steps) && Unhurried(p, s, steps)
    ensures NeverSelfRejected(p, s, steps)
  {
    QueuedRun(p, s, steps);
  }
}

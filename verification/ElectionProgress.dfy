/**
 The bounds on delays are met by runs of any length: from every safe state timers and commands can
 be dealt with until time may pass, and so any later time is reached without a death.
*/
module ElectionProgress {
  import opened Options
  import opened RedisLock
  import opened LeaderElection
  import opened ElectionCluster
  import opened ElectionSafety
  import opened ElectionRecovery

  /** The due timers, each with its instance. */
  ghost function DueTimers(s: State): set<(nat, nat)> {
    set i, h | i in s.nodes && h in s.nodes[i].timers && s.nodes[i].timers[h].due <= s.now :: (i, h)
  }

  /** How many steps a command can still cause, its own included: a GET that misses leads to a SET. */
  function Weight(op: Op): nat {
    match op
    case GetSent(_, _) => 4
    case GetDone(_, _, _) => 3
    case SetSent(_, _) => 2
    case ExpireDone(_, _) => 0
    case _ => 1
  }

  ghost function Heavy(s: State, w: nat): set<nat> {
    set k | k in s.ops && Weight(s.ops[k]) >= w
  }

  ghost function Backlog(s: State): nat {
    5 * |DueTimers(s)| + |Heavy(s, 1)| + |Heavy(s, 2)| + |Heavy(s, 3)| + |Heavy(s, 4)|
  }

  /** A step that deals with something: a renewal that was answered blocks nobody and can wait. */
  ghost predicate Deals(p: Params, s: State, step: Step) {
    && Enabled(p, s, step)
    && (step.Fire? || step.Exec? || (step.Answer? && !s.ops[step.k].ExpireDone?))
  }

  /** Whatever stops time is a timer or a command that can be dealt with now. */
  lemma TimeIsNeverBlocked(p: Params, s: State) returns (step: Step)
    requires Safe(p, s) && !Enabled(p, s, Tick(1))
    ensures Deals(p, s, step)
  {
    if i, h :| i in s.nodes && h in s.nodes[i].timers
               && s.now + 1 > s.nodes[i].timers[h].due + Lateness(p, s.nodes[i].timers[h].kind) {
      step := Fire(i, h);
    } else {
      var k :| k in s.ops && !s.ops[k].ExpireDone? && (IsSent(s.ops[k]) || s.ops[k].who in s.nodes)
               && s.now + 1 > s.ops[k].limit;
      step := if IsSent(s.ops[k]) then Exec(k) else Answer(k);
    }
  }

  lemma {:induction false} SubsetIsSmaller<T>(a: set<T>, b: set<T>)
    requires a <= b
    ensures |a| <= |b|
    ensures a != b ==> |a| < |b|
  {
    SubsetSize(a, b);
    if a != b {
      assert exists x :: x in b && x !in a;
      var x :| x in b && x !in a;
      SubsetSize(a, b - {x});
    }
  }

  lemma FireDue(p: Params, s: State, i: nat, t: nat)
    requires Enabled(p, s, Fire(i, t))
    ensures |DueTimers(FireTimer(p, s, i, t))| < |DueTimers(s)|
  {
    var due := DueTimers(FireTimer(p, s, i, t));
    forall j, h | (j, h) in due ensures (j, h) in DueTimers(s) - {(i, t)} {
    }
    assert due <= DueTimers(s) - {(i, t)} && (i, t) in DueTimers(s);
    SubsetSize(due, DueTimers(s) - {(i, t)});
  }

  lemma SendHeavy(s: State, s': State, w: nat)
    requires s'.ops.Keys == s.ops.Keys + {s.nextOp} && forall k :: k in s.ops && k != s.nextOp ==> s'.ops[k] == s.ops[k]
    ensures |Heavy(s', w)| <= |Heavy(s, w)| + 1
  {
    assert Heavy(s', w) <= Heavy(s, w) + {s.nextOp};
    SubsetSize(Heavy(s', w), Heavy(s, w) + {s.nextOp});
  }

  lemma FireShrinks(p: Params, s: State, i: nat, t: nat)
    requires Enabled(p, s, Fire(i, t))
    ensures Backlog(FireTimer(p, s, i, t)) < Backlog(s)
  {
    var s' := FireTimer(p, s, i, t);
    FireDue(p, s, i, t);
    SendHeavy(s, s', 1);
    SendHeavy(s, s', 2);
    SendHeavy(s, s', 3);
    SendHeavy(s, s', 4);
  }

  lemma ExecShrinks(p: Params, s: State, k: nat)
    requires Enabled(p, s, Exec(k))
    ensures Backlog(Execute(p, s, k)) < Backlog(s)
  {
    var s' := Execute(p, s, k);
    assert DueTimers(s') == DueTimers(s);
    forall w: nat
      ensures |Heavy(s', w)| <= |Heavy(s, w)| && (w == Weight(s.ops[k]) ==> |Heavy(s', w)| < |Heavy(s, w)|)
    {
      assert Heavy(s', w) <= Heavy(s, w);
      assert w == Weight(s.ops[k]) ==> k in Heavy(s, w) && k !in Heavy(s', w);
      SubsetIsSmaller(Heavy(s', w), Heavy(s, w));
    }
  }

  lemma AnswerDue(p: Params, s: State, k: nat)
    requires Enabled(p, s, Answer(k))
    ensures |DueTimers(HandleReply(p, s, k))| <= |DueTimers(s)|
  {
    var s' := HandleReply(p, s, k);
    assert DueTimers(s') <= DueTimers(s);
    SubsetSize(DueTimers(s'), DueTimers(s));
  }

  /** What an answer takes away, and the SET that it may send. */
  lemma AnswerHeavy(p: Params, s: State, k: nat, w: nat)
    requires FreshOps(s) && Enabled(p, s, Answer(k)) && !s.ops[k].ExpireDone? && w >= 1
    ensures var sends := s.ops[k].GetDone? && !s.ops[k].found && s.marketOpen && w <= 2;
      |Heavy(HandleReply(p, s, k), w)| + (if w <= Weight(s.ops[k]) then 1 else 0)
          == |Heavy(s, w)| + (if sends then 1 else 0)
  {
    var s' := HandleReply(p, s, k);
    if s.ops[k].GetDone? && !s.ops[k].found && s.marketOpen {
      assert s'.ops == (s.ops - {k})[s.nextOp := SetSent(s.ops[k].who, s.now + p.send)];
      ReplacedHeavy(s, s', k, w, s.nextOp);
    } else {
      assert s'.ops == s.ops - {k};
      DroppedHeavy(s, s', k, w);
    }
  }

  lemma DroppedHeavy(s: State, s': State, k: nat, w: nat)
    requires k in s.ops && s'.ops == s.ops - {k}
    ensures |Heavy(s', w)| + (if w <= Weight(s.ops[k]) then 1 else 0) == |Heavy(s, w)|
  {
    assert Heavy(s', w) == Heavy(s, w) - {k};
    assert w <= Weight(s.ops[k]) <==> k in Heavy(s, w);
  }

  lemma ReplacedHeavy(s: State, s': State, k: nat, w: nat, m: nat)
    requires k in s.ops && m !in s.ops && s'.ops.Keys == s.ops.Keys - {k} + {m} && s'.ops[m].SetSent?
    requires forall j :: j in s.ops && j != k ==> s'.ops[j] == s.ops[j]
    ensures |Heavy(s', w)| + (if w <= Weight(s.ops[k]) then 1 else 0) == |Heavy(s, w)| + (if w <= 2 then 1 else 0)
  {
    assert Heavy(s', w) == Heavy(s, w) - {k} + (if w <= 2 then {m} else {});
    assert w <= Weight(s.ops[k]) <==> k in Heavy(s, w);
    assert m !in Heavy(s, w);
  }

  lemma AnswerShrinks(p: Params, s: State, k: nat)
    requires FreshOps(s) && Enabled(p, s, Answer(k)) && !s.ops[k].ExpireDone?
    ensures Backlog(HandleReply(p, s, k)) < Backlog(s)
  {
    AnswerDue(p, s, k);
    AnswerHeavy(p, s, k, 1);
    AnswerHeavy(p, s, k, 2);
    AnswerHeavy(p, s, k, 3);
    AnswerHeavy(p, s, k, 4);
  }

  lemma DealShrinks(p: Params, s: State, step: Step)
    requires Safe(p, s) && Deals(p, s, step)
    ensures Backlog(Apply(p, s, step)) < Backlog(s) && Apply(p, s, step).now == s.now
  {
    var s1, s' := Act(p, s, step), Apply(p, s, step);
    match step {
      case Fire(i, t) => FireShrinks(p, s, i, t);
      case Exec(k) => ExecShrinks(p, s, k);
      case Answer(k) => AnswerShrinks(p, s, k);
    }
    assert DueTimers(s') == DueTimers(s1);
    forall w: nat ensures Heavy(s', w) == Heavy(s1, w) {
    }
  }

  predicate Ordinary(step: Step) {
    step.Fire? || step.Exec? || step.Answer? || step.Tick?
  }

  predicate AllOrdinary(steps: seq<Step>) {
    forall n :: 0 <= n < |steps| ==> Ordinary(steps[n])
  }

  lemma Prepend(p: Params, s: State, step: Step, rest: seq<Step>)
    requires Enabled(p, s, step) && ValidRun(p, Apply(p, s, step), rest) && Ordinary(step) && AllOrdinary(rest)
    ensures ValidRun(p, s, [step] + rest) && AllOrdinary([step] + rest)
    ensures Run(p, s, [step] + rest) == Run(p, Apply(p, s, step), rest)
  {
    assert ([step] + rest)[0] == step && ([step] + rest)[1..] == rest;
  }

  /** From a safe state any later time is reached by timers, commands and the clock alone. */
  lemma {:induction false} AnyTimeIsReached(p: Params, s: State, t: int) returns (steps: seq<Step>)
    requires Timely(p) && Safe(p, s) && s.now <= t
    ensures ValidRun(p, s, steps) && AllOrdinary(steps) && Run(p, s, steps).now == t
    decreases t - s.now, Backlog(s)
  {
    if s.now == t {
      return [];
    }
    var step := Tick(1);
    if !Enabled(p, s, Tick(1)) {
      step := TimeIsNeverBlocked(p, s);
      DealShrinks(p, s, step);
    }
    StepKeeps(p, s, step);
    var rest := AnyTimeIsReached(p, Apply(p, s, step), t);
    Prepend(p, s, step, rest);
    steps := [step] + rest;
  }

  /** So every run of timely instances goes on to any later time, and nobody needs to die for it. */
  lemma RunsGoOn(p: Params, s: State, steps: seq<Step>, t: int) returns (more: seq<Step>)
    requires Timely(p) && Init(s) && ValidRun(p, s, steps) && Run(p, s, steps).now <= t
    ensures var e := Run(p, s, steps);
      ValidRun(p, e, more) && AllOrdinary(more) && Calm(more) && Run(p, e, more).now == t
  {
    RunKeeps(p, s, steps);
    more := AnyTimeIsReached(p, Run(p, s, steps), t);
  }
}

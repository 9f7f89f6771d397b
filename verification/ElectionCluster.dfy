/**
 Any number of instances around one Redis lock, as a machine over its steps. Commands travel:
 each is sent, later executed by Redis, later answered, and a bound on every leg is a parameter.
 The last seven fields of the state only observe the run; no step depends on them.
*/
module ElectionCluster {
  import opened Options
  import opened RedisLock
  import opened LeaderElection

  /**
   Bounds in milliseconds. `reply` is from the execution of a command to the handling of its
   reply; `renewal` is from the time a heartbeat is due to the execution of its EXPIRE;
   `release` is from a shutdown to the execution of its DEL; `send` is from sending any other
   command to its execution; `watch` is how late a watcher may run.
  */
  datatype Params = Params(reply: nat, renewal: nat, release: nat, send: nat, watch: nat)

  datatype Op =
    | SetSent(who: nat, limit: int)
    | SetDone(who: nat, limit: int, ok: bool)
    | ExpireSent(who: nat, limit: int)
    | ExpireDone(who: nat, ok: bool)
    | GetSent(who: nat, limit: int)
    | GetDone(who: nat, limit: int, found: bool)
    | DelSent(who: nat, limit: int)

  datatype State = State(
    now: int,
    lock: Cell,
    nodes: map<nat, Node>,     // the live instances
    used: set<nat>,            // every identifier ever taken; each instance draws a new one
    ops: map<nat, Op>,
    nextOp: nat,
    marketOpen: bool,
    freeSince: int,            // when the lock last became free
    openSince: int,            // when the market last opened
    lastHeld: int,             // when a live instance last held the lock
    lastLed: int,              // when a live instance last led
    ledFor: int,               // how long a live instance has led, all in all
    lapseBy: int,              // when everything that the dead left behind is gone
    electedAt: map<nat, int>)  // when each instance that booted in an open market did so

  ghost predicate Init(s: State) {
    && s.now == s.freeSince == s.openSince == s.lastHeld == s.lastLed == s.ledFor == s.lapseBy == 0
    && s.lock == Free && s.nodes == map[] && s.used == {} && s.ops == map[] && s.electedAt == map[]
  }

  datatype Step =
    | Boot(i: nat)
    | Fire(i: nat, t: nat)
    | Exec(k: nat)
    | Answer(k: nat)
    | Shutdown(i: nat)
    | Crash(i: nat)
    | Lose(k: nat)
    | Market(open: bool)
    | Tick(dt: nat)

  predicate IsSent(op: Op) {
    op.SetSent? || op.ExpireSent? || op.GetSent? || op.DelSent?
  }

  function Lateness(p: Params, kind: Kind): nat {
    if kind.Heartbeat? then p.renewal else p.watch
  }

  /** Time may reach `t` without any bound being missed. A dead instance misses no reply. */
  ghost predicate MayReach(p: Params, s: State, t: int) {
    && (forall i, h :: i in s.nodes && h in s.nodes[i].timers ==>
          t <= s.nodes[i].timers[h].due + Lateness(p, s.nodes[i].timers[h].kind))
    && (forall k :: k in s.ops && !s.ops[k].ExpireDone? && (IsSent(s.ops[k]) || s.ops[k].who in s.nodes) ==>
          t <= s.ops[k].limit)
  }

  ghost predicate Enabled(p: Params, s: State, step: Step) {
    match step
    case Boot(i) => i !in s.used
    case Fire(i, t) => i in s.nodes && t in s.nodes[i].timers && s.nodes[i].timers[t].due <= s.now
    case Exec(k) => k in s.ops && IsSent(s.ops[k])
    case Answer(k) => k in s.ops && !IsSent(s.ops[k]) && s.ops[k].who in s.nodes
    case Shutdown(i) => i in s.nodes
    case Crash(i) => i in s.nodes
    case Lose(k) => k in s.ops && s.ops[k].who !in s.nodes && !s.ops[k].DelSent?
    case Market(_) => true
    case Tick(dt) => MayReach(p, s, s.now + dt)
  }

  predicate HeldByLive(s: State) {
    s.lock.Held? && s.lock.owner in s.nodes
  }

  predicate Led(s: State) {
    exists i :: i in s.nodes && s.nodes[i].isLeader
  }

  function Send(s: State, op: Op): State {
    s.(ops := s.ops[s.nextOp := op], nextOp := s.nextOp + 1)
  }

  function Drop(s: State, k: nat): State {
    s.(ops := s.ops - {k})
  }

  /** `elect` up to its await. */
  function Elect(p: Params, s: State, i: nat): State {
    if s.marketOpen then Send(s, SetSent(i, s.now + p.send)) else s
  }

  function BootNode(p: Params, s: State, i: nat): State {
    var s1 := s.(nodes := s.nodes[i := FRESH_NODE], used := s.used + {i},
                 electedAt := if s.marketOpen then s.electedAt[i := s.now] else s.electedAt);
    Elect(p, s1, i)
  }

  function FireTimer(p: Params, s: State, i: nat, t: nat): State
    requires i in s.nodes && t in s.nodes[i].timers
  {
    var timer := s.nodes[i].timers[t];
    Send(s.(nodes := s.nodes[i := Fired(s.nodes[i], t, s.now)]),
         if timer.kind.Heartbeat? then ExpireSent(i, timer.due + p.renewal) else GetSent(i, s.now + p.send))
  }

  function Execute(p: Params, s: State, k: nat): State
    requires k in s.ops && IsSent(s.ops[k])
  {
    match s.ops[k]
    case SetSent(i, _) =>
      var (lock, ok) := SetNx(s.lock, i, LOCK_TTL, s.now);
      s.(lock := lock, ops := s.ops[k := SetDone(i, s.now + p.reply, ok)])
    case ExpireSent(i, _) =>
      var (lock, ok) := Expire(s.lock, LOCK_TTL, s.now);
      s.(lock := lock, ops := s.ops[k := ExpireDone(i, ok)])
    case GetSent(i, _) =>
      s.(ops := s.ops[k := GetDone(i, s.now + p.reply, At(s.lock, s.now).Held?)])
    case DelSent(i, _) =>
      Drop(s.(lock := Free, freeSince := s.now), k)
  }

  function HandleReply(p: Params, s: State, k: nat): State
    requires k in s.ops && !IsSent(s.ops[k]) && s.ops[k].who in s.nodes
  {
    var s1 := Drop(s, k);
    match s.ops[k]
    case SetDone(i, _, ok) =>
      s1.(nodes := s.nodes[i := if ok then Won(s.nodes[i], s.now) else Lost(s.nodes[i], s.now)])
    case ExpireDone(i, ok) => if ok then s1 else Elect(p, s1, i)
    case GetDone(i, _, found) => if found then s1 else Elect(p, s1, i)
  }

  ghost predicate SetInFlight(s: State, i: nat) {
    exists k :: k in s.ops && s.ops[k].SetSent? && s.ops[k].who == i
  }

  ghost predicate InFlight(s: State, i: nat) {
    exists k :: k in s.ops && (s.ops[k].SetSent? || s.ops[k].ExpireSent?) && s.ops[k].who == i
  }

  /** When the lock stops being hindered by `i`, if it dies now and its own DEL is not coming. */
  ghost function LapseAfterCrash(p: Params, s: State, i: nat): int {
    if InFlight(s, i) || (s.lock.Held? && s.lock.owner == i)
    then Max(s.lapseBy, s.now + LOCK_TTL + Max(p.send, p.renewal))
    else s.lapseBy
  }

  /**
   A clean shutdown of a leader is over with its DEL, unless a SET of its own may still undo it, or
   an EXPIRE of its own may prolong a lock that an earlier death left behind.
  */
  ghost function LapseAfterShutdown(p: Params, s: State, i: nat): int
    requires i in s.nodes
  {
    if !s.nodes[i].isLeader then LapseAfterCrash(p, s, i)
    else if SetInFlight(s, i) || (InFlight(s, i) && s.lapseBy > s.now)
        then Max(LapseAfterCrash(p, s, i), s.now + p.release)
    else Max(s.lapseBy, s.now + p.release)
  }

  ghost function StopNode(p: Params, s: State, i: nat): State
    requires i in s.nodes
  {
    var s1 := s.(nodes := s.nodes - {i}, lapseBy := LapseAfterShutdown(p, s, i));
    if s.nodes[i].isLeader then Send(s1, DelSent(i, s.now + p.release)) else s1
  }

  function Advance(s: State, t: int): State {
    s.(now := t,
       lock := At(s.lock, t),
       freeSince := if s.lock.Held? && At(s.lock, t).Free? then s.lock.expires else s.freeSince,
       lastHeld := if HeldByLive(s) then Min(t, s.lock.expires) else s.lastHeld,
       lastLed := if Led(s) then t else s.lastLed,
       ledFor := if Led(s) then s.ledFor + (t - s.now) else s.ledFor)
  }

  /** Records whether a live instance holds the lock, and whether one leads, now. */
  function Observe(s: State): State {
    s.(lastHeld := if HeldByLive(s) then s.now else s.lastHeld, lastLed := if Led(s) then s.now else s.lastLed)
  }

  ghost function Act(p: Params, s: State, step: Step): State
    requires Enabled(p, s, step)
  {
    match step
    case Boot(i) => BootNode(p, s, i)
    case Fire(i, t) => FireTimer(p, s, i, t)
    case Exec(k) => Execute(p, s, k)
    case Answer(k) => HandleReply(p, s, k)
    case Shutdown(i) => StopNode(p, s, i)
    case Crash(i) => s.(nodes := s.nodes - {i}, lapseBy := LapseAfterCrash(p, s, i))
    case Lose(k) => Drop(s, k)
    case Market(open) =>
      s.(marketOpen := open, openSince := if open && !s.marketOpen then s.now else s.openSince)
    case Tick(dt) => Advance(s, s.now + dt)
  }

  ghost function Apply(p: Params, s: State, step: Step): State
    requires Enabled(p, s, step)
  {
    if step.Tick? then Act(p, s, step) else Observe(Act(p, s, step))
  }

  ghost predicate ValidRun(p: Params, s: State, steps: seq<Step>)
    decreases |steps|
  {
    steps == [] || (Enabled(p, s, steps[0]) && ValidRun(p, Apply(p, s, steps[0]), steps[1..]))
  }

  ghost function Run(p: Params, s: State, steps: seq<Step>): State
    requires ValidRun(p, s, steps)
    decreases |steps|
  {
    if steps == [] then s else Run(p, Apply(p, s, steps[0]), steps[1..])
  }

  ghost predicate AtMostOneLeader(s: State) {
    forall i, j :: i in s.nodes && j in s.nodes && s.nodes[i].isLeader && s.nodes[j].isLeader ==> i == j
  }

  ghost predicate LeaderHoldsLock(s: State) {
    forall i :: i in s.nodes && s.nodes[i].isLeader ==> s.lock.Held? && s.lock.owner == i
  }
}

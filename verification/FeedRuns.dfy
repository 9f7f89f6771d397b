/**
 Every run of the feed: callers connect and disconnect the manager, sockets open, speak, close
 and fail as they like, timers run. `lateness` bounds how late a health interval may run. The
 fields after `feed` only observe the run.
*/
module FeedRuns {
  import opened Options
  import opened FeedServices

  datatype State = State(
    now: int,
    feed: Feed,
    connectedAt: Option<int>,    // the last call of the manager's connect
    latestStamp: Option<int>,    // the greatest heartbeat stamp taken so far
    speaker: Option<nat>,        // the socket of the last heartbeat taken
    heartbeats: nat,
    scheduled: nat,              // reconnects scheduled
    mockConnects: nat)

  datatype Step =
    | Connect
    | Disconnect
    | Health(t: nat)
    | Reconnect(t: nat)
    | Opens(k: nat)
    | Closes(k: nat, code: int)
    | StartsClosing(k: nat)
    | Fails(k: nat)
    | Beats(k: nat, time: int)
    | Tick(dt: nat)

  const START := State(0, NEW_FEED, None, None, None, 0, 0, 0)

  function SocketAt(s: State, k: nat): Socket
    requires k < |s.feed.primary.sockets|
  {
    s.feed.primary.sockets[k]
  }

  ghost predicate Enabled(lateness: nat, s: State, step: Step) {
    && ClientOk(s.feed.primary)
    && match step
       case Health(t) => t in s.feed.health && s.feed.health[t] <= s.now
       case Reconnect(t) => t in s.feed.primary.timeouts && s.feed.primary.timeouts[t] <= s.now
       case Opens(k) => k < |s.feed.primary.sockets| && SocketAt(s, k).ready == Connecting
       case Closes(k, _) => k < |s.feed.primary.sockets| && SocketAt(s, k).ready != Closed
       case StartsClosing(k) => k < |s.feed.primary.sockets| && SocketAt(s, k).ready != Closed
       case Fails(k) => k < |s.feed.primary.sockets| && SocketAt(s, k).ready != Closed
       case Beats(k, _) =>
         k < |s.feed.primary.sockets| && (SocketAt(s, k).ready == Open || SocketAt(s, k).ready == Closing)
       case Tick(dt) => forall t :: t in s.feed.health ==> s.now + dt <= s.feed.health[t] + lateness
       case _ => true
  }

  function SetReady(c: Client, k: nat, ready: Ready): (r: Client)
    requires k < |c.sockets| && ClientOk(c)
    ensures ClientOk(r)
  {
    c.(sockets := c.sockets[k := c.sockets[k].(ready := ready)])
  }

  function WithPrimary(s: State, c: Client): State {
    s.(feed := s.feed.(primary := c))
  }

  function Later(a: Option<int>, b: int): Option<int> {
    if a.Some? && a.value >= b then a else Some(b)
  }

  ghost function Apply(lateness: nat, s: State, step: Step): State
    requires Enabled(lateness, s, step)
  {
    var c := s.feed.primary;
    match step
    case Connect =>
      s.(feed := ManagerConnect(s.feed, s.now), connectedAt := Some(s.now),
         mockConnects := if s.feed.active == Secondary then s.mockConnects + 1 else s.mockConnects)
    case Disconnect => s.(feed := ManagerDisconnect(s.feed))
    case Health(t) =>
      s.(feed := HealthCheck(s.feed, t, s.now),
         mockConnects := if s.feed.active == Primary && !Healthy(c, s.now) then s.mockConnects + 1 else s.mockConnects)
    case Reconnect(t) => WithPrimary(s, FeedServices.Connect(c.(timeouts := c.timeouts - {t})))
    case Opens(k) => WithPrimary(s, SetReady(c, k, Open))
    case StartsClosing(k) => WithPrimary(s, SetReady(c, k, Closing))
    case Closes(k, code) =>
      var c1 := SetReady(c, k, Closed);
      if !c.sockets[k].listening then WithPrimary(s, c1)
      else
        WithPrimary(s, HandleClose(c1, code, s.now))
          .(scheduled := if code != NORMAL_CLOSURE && c.retries < MAX_RETRIES then s.scheduled + 1 else s.scheduled)
    case Fails(k) =>
      var c1 := SetReady(c, k, Closing);
      WithPrimary(s, if c.sockets[k].listening then Cleanup(c1) else c1)
    case Beats(k, time) =>
      if c.sockets[k].listening
      then WithPrimary(s, Heartbeat(c, time, s.now))
             .(latestStamp := Later(s.latestStamp, Stamp(time, s.now)), speaker := Some(k),
                 heartbeats := s.heartbeats + 1)
      else s
    case Tick(dt) => s.(now := s.now + dt)
  }

  ghost predicate ValidRun(lateness: nat, s: State, steps: seq<Step>)
    decreases |steps|
  {
    steps == [] || (Enabled(lateness, s, steps[0]) && ValidRun(lateness, Apply(lateness, s, steps[0]), steps[1..]))
  }

  ghost function Run(lateness: nat, s: State, steps: seq<Step>): State
    requires ValidRun(lateness, s, steps)
    decreases |steps|
  {
    if steps == [] then s else Run(lateness, Apply(lateness, s, steps[0]), steps[1..])
  }

  // ---------------------------------------------------------------- one feed at a time

  /** The primary will emit nothing, now or by itself later. */
  predicate Silent(c: Client) {
    c.timeouts == map[] && forall k :: 0 <= k < |c.sockets| ==> !c.sockets[k].listening
  }

  /** Only the current socket is listened to, and a reconnect is pending only after it closed. */
  ghost predicate ClientInv(c: Client) {
    && ClientOk(c)
    && (forall k :: 0 <= k < |c.sockets| && c.sockets[k].listening ==> c.ws == Some(k))
    && (forall t :: t in c.timeouts ==> c.reconnect == Some(t) && c.ws.Some? && c.sockets[c.ws.value].ready == Closed)
    && (forall t :: t in c.timeouts ==> t < c.nextTimeout)
    && c.retries <= MAX_RETRIES
  }

  ghost predicate MockInv(s: State) {
    var m := s.feed.secondary;
    && (forall x :: x in m.live ==> x < m.nextSubscription)
    && (match s.feed.active
        case Primary => m.live == {} && s.mockConnects == 0
        case Secondary => m.subscription.Some? && m.subscription.value in m.live && |m.live| == s.mockConnects
        case Nobody => |m.live| == if s.mockConnects == 0 then 0 else s.mockConnects - 1)
  }

  ghost predicate FeedInv(s: State) {
    && ClientInv(s.feed.primary) && MockInv(s)
    && (s.feed.active != Primary ==> Silent(s.feed.primary))
    && (forall t :: t in s.feed.health ==> s.feed.healthHandle == Some(t))
    && (s.feed.healthHandle.Some? ==> s.feed.healthHandle.value in s.feed.health)
    && (s.feed.active != Nobody && s.connectedAt.Some? ==> s.feed.healthHandle.Some?)
    && (s.feed.active == Secondary ==> s.connectedAt.Some?)
    && (s.connectedAt.None? ==> s.feed.health == map[])
  }

  lemma CleanupSilences(c: Client)
    requires ClientInv(c)
    ensures Silent(Cleanup(c)) && ClientInv(Cleanup(c))
  {
    var r := Cleanup(c);
    assert r.timeouts == map[];
  }

  lemma ConnectKeeps(c: Client)
    requires ClientInv(c)
    ensures ClientInv(FeedServices.Connect(c)) && FeedServices.Connect(c).timeouts == map[]
  {
    CleanupSilences(c);
  }

  lemma CloseKeeps(c: Client, k: nat, code: int, now: int)
    requires ClientInv(c) && k < |c.sockets| && c.sockets[k].ready != Closed && c.sockets[k].listening
    ensures ClientInv(HandleClose(SetReady(c, k, Closed), code, now))
  {
    var c1 := SetReady(c, k, Closed);
    assert c.ws == Some(k);
    assert c.timeouts == map[] by { if t :| t in c.timeouts {} }
    assert ClientInv(c1);
    CleanupSilences(c1);
  }

  lemma ReadyKeeps(c: Client, k: nat, ready: Ready)
    requires ClientInv(c) && k < |c.sockets| && (c.sockets[k].ready == Closed ==> ready == Closed)
    ensures ClientInv(SetReady(c, k, ready))
    ensures Silent(c) ==> Silent(SetReady(c, k, ready))
  {
  }

  /** An error ends the socket, and the service is silent if it listened to it. */
  lemma FailKeeps(c: Client, k: nat)
    requires ClientInv(c) && k < |c.sockets| && c.sockets[k].ready != Closed
    ensures ClientInv(SetReady(c, k, Closing)) && (Silent(c) ==> Silent(SetReady(c, k, Closing)))
    ensures ClientInv(Cleanup(SetReady(c, k, Closing))) && Silent(Cleanup(SetReady(c, k, Closing)))
  {
    if t :| t in c.timeouts {}
    ReadyKeeps(c, k, Closing);
    CleanupSilences(SetReady(c, k, Closing));
  }

  lemma ClientStep(lateness: nat, s: State, step: Step)
    requires FeedInv(s) && Enabled(lateness, s, step)
    ensures ClientInv(Apply(lateness, s, step).feed.primary)
    ensures Silent(s.feed.primary) && step != Connect ==> Silent(Apply(lateness, s, step).feed.primary)
  {
    var c := s.feed.primary;
    CleanupSilences(c);
    match step
    case Connect => ConnectKeeps(c);
    case Reconnect(t) => ConnectKeeps(c.(timeouts := c.timeouts - {t}));
    case Opens(k) => ReadyKeeps(c, k, Open);
    case StartsClosing(k) =>
      if t :| t in c.timeouts {}
      ReadyKeeps(c, k, Closing);
    case Closes(k, code) =>
      if c.sockets[k].listening { CloseKeeps(c, k, code, s.now); } else { ReadyKeeps(c, k, Closed); }
    case Fails(k) => FailKeeps(c, k);
    case _ =>
  }

  lemma MockHealth(lateness: nat, s: State, t: nat)
    requires FeedInv(s) && Enabled(lateness, s, Health(t))
    ensures MockInv(Apply(lateness, s, Health(t)))
  {
  }

  lemma MockStep(lateness: nat, s: State, step: Step)
    requires FeedInv(s) && Enabled(lateness, s, step)
    ensures MockInv(Apply(lateness, s, step))
  {
    match step
    case Connect =>
    case Disconnect =>
    case Health(t) => MockHealth(lateness, s, t);
    case _ => assert Apply(lateness, s, step).feed.secondary == s.feed.secondary;
  }

  lemma FeedStep(lateness: nat, s: State, step: Step)
    requires FeedInv(s) && Enabled(lateness, s, step)
    ensures FeedInv(Apply(lateness, s, step))
  {
    ClientStep(lateness, s, step);
    MockStep(lateness, s, step);
    CleanupSilences(s.feed.primary);
  }

  lemma {:induction false} FeedRun(lateness: nat, s: State, steps: seq<Step>)
    requires FeedInv(s) && ValidRun(lateness, s, steps)
    ensures FeedInv(Run(lateness, s, steps))
    decreases |steps|
  {
    if steps != [] {
      FeedStep(lateness, s, steps[0]);
      FeedRun(lateness, Apply(lateness, s, steps[0]), steps[1..]);
    }
  }

  predicate PrimaryMayEmit(s: State) {
    exists k :: 0 <= k < |s.feed.primary.sockets| && s.feed.primary.sockets[k].listening
  }

  predicate SecondaryMayEmit(s: State) {
    s.feed.secondary.live != {}
  }

  /**
   Over every run: one listening socket, one pending reconnect (and then the current socket is
   closed), one health interval, and never both feeds.
  */
  lemma SingleLiveFeed(lateness: nat, steps: seq<Step>)
    requires ValidRun(lateness, START, steps)
    ensures var s := Run(lateness, START, steps);
      var c := s.feed.primary;
      && (forall a, b ::
            0 <= a < b < |c.sockets| ==> !c.sockets[a].listening || !c.sockets[b].listening)
      && (forall a, b :: a in c.timeouts && b in c.timeouts ==> a == b)
      && (c.timeouts != map[] ==> c.ws.Some? && c.ws.value < |c.sockets| && c.sockets[c.ws.value].ready == Closed)
      && (forall a, b :: a in s.feed.health && b in s.feed.health ==> a == b)
      && !((PrimaryMayEmit(s) || c.timeouts != map[]) && SecondaryMayEmit(s))
  {
    FeedRun(lateness, START, steps);
    var c := Run(lateness, START, steps).feed.primary;
    if c.timeouts != map[] {
      var t :| t in c.timeouts;
    }
  }

  lemma {:induction false} SilenceLasts(lateness: nat, s: State, steps: seq<Step>)
    requires FeedInv(s) && Silent(s.feed.primary) && ValidRun(lateness, s, steps) && Connect !in steps
    ensures Silent(Run(lateness, s, steps).feed.primary)
    decreases |steps|
  {
    if steps != [] {
      FeedStep(lateness, s, steps[0]);
      ClientStep(lateness, s, steps[0]);
      SilenceLasts(lateness, Apply(lateness, s, steps[0]), steps[1..]);
    }
  }

  /** After a disconnect, or an error of the current socket, the primary is silent until a connect. */
  lemma SilentUntilConnect(lateness: nat, before: seq<Step>, step: Step, after: seq<Step>)
    requires ValidRun(lateness, START, before) && Connect !in after
    requires var s := Run(lateness, START, before);
      && Enabled(lateness, s, step) && ValidRun(lateness, Apply(lateness, s, step), after)
      && (step.Disconnect? || (step.Fails? && SocketAt(s, step.k).listening))
    ensures Silent(Run(lateness, Apply(lateness, Run(lateness, START, before), step), after).feed.primary)
  {
    FeedRun(lateness, START, before);
    var s := Run(lateness, START, before);
    CleanupSilences(s.feed.primary);
    if step.Fails? { FailKeeps(s.feed.primary, step.k); }
    FeedStep(lateness, s, step);
    SilenceLasts(lateness, Apply(lateness, s, step), after);
  }

  /** After a disconnect nobody is active and no health check runs, until a connect. */
  lemma {:induction false} RestLasts(lateness: nat, s: State, steps: seq<Step>)
    requires ValidRun(lateness, s, steps) && Connect !in steps && s.feed.active == Nobody && s.feed.health == map[]
    ensures Run(lateness, s, steps).feed.active == Nobody && Run(lateness, s, steps).feed.health == map[]
    decreases |steps|
  {
    if steps != [] { RestLasts(lateness, Apply(lateness, s, steps[0]), steps[1..]); }
  }

  lemma RestUntilConnect(lateness: nat, before: seq<Step>, after: seq<Step>)
    requires ValidRun(lateness, START, before) && Connect !in after
    requires Enabled(lateness, Run(lateness, START, before), Disconnect)
    requires ValidRun(lateness, Apply(lateness, Run(lateness, START, before), Disconnect), after)
    ensures var e := Run(lateness, Apply(lateness, Run(lateness, START, before), Disconnect), after);
      e.feed.active == Nobody && e.feed.health == map[]
  {
    FeedRun(lateness, START, before);
    var s := Apply(lateness, Run(lateness, START, before), Disconnect);
    assert s.feed.health == map[];
    RestLasts(lateness, s, after);
  }

  /**
   After the manager has disconnected, the mock is silent too exactly when it was connected once
   at most. Each further connect of the manager while the mock is active leaves one subscription
   behind that nothing ends.
  */
  lemma MockSilentExactlyWhenConnectedOnce(lateness: nat, steps: seq<Step>)
    requires ValidRun(lateness, START, steps) && Run(lateness, START, steps).feed.active == Nobody
    ensures var s := Run(lateness, START, steps);
      && (!SecondaryMayEmit(s) <==> s.mockConnects <= 1)
      && (s.mockConnects > 0 ==> |s.feed.secondary.live| == s.mockConnects - 1)
  {
    FeedRun(lateness, START, steps);
  }

  lemma Prepend(s: State, step: Step, rest: seq<Step>)
    requires Enabled(0, s, step) && ValidRun(0, Apply(0, s, step), rest)
    ensures ValidRun(0, s, [step] + rest) && Run(0, s, [step] + rest) == Run(0, Apply(0, s, step), rest)
  {
    assert ([step] + rest)[1..] == rest;
  }

  /** The primary says nothing for ten seconds after a connect, and the mock takes over. */
  lemma MockTakesOver() returns (s1: State, s2: State, s3: State)
    ensures Enabled(0, START, Connect) && s1 == Apply(0, START, Connect)
    ensures Enabled(0, s1, Tick(HEALTH_INTERVAL)) && s2 == Apply(0, s1, Tick(HEALTH_INTERVAL))
    ensures Enabled(0, s2, Health(0)) && s3 == Apply(0, s2, Health(0))
    ensures s3.feed.active == Secondary && s3.feed.secondary == Mock(Some(0), {0}, 1) && ClientOk(s3.feed.primary)
  {
    s1 := Apply(0, START, Connect);
    assert s1.feed.health == map[0 := HEALTH_INTERVAL];
    s2 := Apply(0, s1, Tick(HEALTH_INTERVAL));
    s3 := Apply(0, s2, Health(0));
  }

  /** So it happens: a second connect after the failover, then a disconnect, and the mock goes on. */
  lemma LeakedMock() returns (steps: seq<Step>)
    ensures ValidRun(0, START, steps)
    ensures Run(0, START, steps).feed.active == Nobody && SecondaryMayEmit(Run(0, START, steps))
  {
    var s1, s2, s3 := MockTakesOver();
    var s4 := Apply(0, s3, Connect);
    assert s4.feed.secondary == Mock(Some(1), {0, 1}, 2);
    var s5 := Apply(0, s4, Disconnect);
    assert 0 in s5.feed.secondary.live;
    Prepend(s4, Disconnect, []);
    steps := [Disconnect] + [];
    Prepend(s3, Connect, steps);
    steps := [Connect] + steps;
    Prepend(s2, Health(0), steps);
    steps := [Health(0)] + steps;
    Prepend(s1, Tick(HEALTH_INTERVAL), steps);
    steps := [Tick(HEALTH_INTERVAL)] + steps;
    Prepend(START, Connect, steps);
    steps := [Connect] + steps;
  }

  /** A heartbeat that is remembered came from the current socket, which is listened to. */
  ghost predicate Heard(s: State) {
    var c := s.feed.primary;
    c.lastHeartBeat.Some? ==>
        && s.speaker == c.ws && c.ws.Some? && c.ws.value < |c.sockets|
        && c.sockets[c.ws.value].listening
  }

  lemma HeardStep(lateness: nat, s: State, step: Step)
    requires ClientInv(s.feed.primary) && Heard(s) && Enabled(lateness, s, step)
    ensures Heard(Apply(lateness, s, step))
  {
  }

  lemma {:induction false} HeardRun(lateness: nat, s: State, steps: seq<Step>)
    requires FeedInv(s) && Heard(s) && ValidRun(lateness, s, steps)
    ensures Heard(Run(lateness, s, steps))
    decreases |steps|
  {
    if steps != [] {
      FeedStep(lateness, s, steps[0]);
      HeardStep(lateness, s, steps[0]);
      HeardRun(lateness, Apply(lateness, s, steps[0]), steps[1..]);
    }
  }

  /**
   A primary that passes its health check has an open socket that it listens to, and the
   heartbeat came over that socket. So neither a socket that opens after it was given up nor the
   heartbeat of an earlier socket lets the check pass.
  */
  lemma HealthyMeansHeard(lateness: nat, steps: seq<Step>)
    requires ValidRun(lateness, START, steps)
    ensures var s := Run(lateness, START, steps);
      var c := s.feed.primary;
      ClientOk(c) && (Healthy(c, s.now) ==>
        c.ws.Some? && c.sockets[c.ws.value].listening && c.sockets[c.ws.value].ready == Open && s.speaker == c.ws)
  {
    FeedRun(lateness, START, steps);
    HeardRun(lateness, START, steps);
  }

  // ---------------------------------------------------------------- stray sockets

  /** Given up by the service, yet open or about to be. */
  predicate Stray(s: State, k: nat) {
    && k < |s.feed.primary.sockets| && !SocketAt(s, k).listening
    && (SocketAt(s, k).ready == Connecting || SocketAt(s, k).ready == Open)
  }

  /**
   A connect or disconnect of the manager, or a health check, comes while the primary is active
   and its current socket `k` still connecting.
  */
  predicate GivesUp(s: State, step: Step, k: nat) {
    && (step.Connect? || step.Disconnect? || step.Health?)
    && s.feed.active == Primary && s.feed.primary.ws == Some(k)
    && k < |s.feed.primary.sockets| && SocketAt(s, k).ready == Connecting
  }

  /** What happens to socket `k` from outside to end it. */
  predicate Ends(step: Step, k: nat) {
    (step.Closes? || step.StartsClosing? || step.Fails?) && step.k == k
  }

  predicate Spared(steps: seq<Step>, k: nat) {
    forall n :: 0 <= n < |steps| ==> !Ends(steps[n], k)
  }

  /** While the primary is active its current socket is listened to, or over. */
  ghost predicate CurrentSeen(s: State) {
    var c := s.feed.primary;
    s.feed.active == Primary && c.ws.Some? && c.ws.value < |c.sockets| ==>
      c.sockets[c.ws.value].listening || c.sockets[c.ws.value].ready == Closing || c.sockets[c.ws.value].ready == Closed
  }

  lemma CurrentStaysSeen(lateness: nat, s: State, step: Step)
    requires FeedInv(s) && CurrentSeen(s) && Enabled(lateness, s, step)
    ensures CurrentSeen(Apply(lateness, s, step))
  {
  }

  /** The steps of the manager detach the current socket of an active primary. */
  lemma ManagerStrays(lateness: nat, s: State, step: Step, k: nat)
    requires FeedInv(s) && CurrentSeen(s) && Enabled(lateness, s, step) && !Stray(s, k)
    requires step.Connect? || step.Disconnect? || step.Health?
    ensures Stray(Apply(lateness, s, step), k) <==> GivesUp(s, step, k)
  {
  }

  /** A reconnect comes when the current socket is closed, so it gives nothing up. */
  lemma ReconnectStrays(lateness: nat, s: State, step: Step, k: nat)
    requires FeedInv(s) && Enabled(lateness, s, step) && step.Reconnect?
    ensures Stray(Apply(lateness, s, step), k) <==> Stray(s, k)
  {
  }

  lemma SocketStrays(lateness: nat, s: State, step: Step, k: nat)
    requires FeedInv(s) && Enabled(lateness, s, step) && !Stray(s, k)
    requires !step.Connect? && !step.Disconnect? && !step.Health? && !step.Reconnect?
    ensures !Stray(Apply(lateness, s, step), k)
  {
  }

  lemma StraysFromNow(lateness: nat, s: State, step: Step, k: nat)
    requires FeedInv(s) && CurrentSeen(s) && Enabled(lateness, s, step) && !Stray(s, k)
    ensures Stray(Apply(lateness, s, step), k) <==> GivesUp(s, step, k)
  {
    match step
    case Connect => ManagerStrays(lateness, s, step, k);
    case Disconnect => ManagerStrays(lateness, s, step, k);
    case Health(_) => ManagerStrays(lateness, s, step, k);
    case Reconnect(_) => ReconnectStrays(lateness, s, step, k);
    case _ => SocketStrays(lateness, s, step, k);
  }

  /** What a step may do to the current socket of the primary: an active one is listened to, or over. */
  lemma ManagerSpares(lateness: nat, s: State, step: Step, k: nat)
    requires FeedInv(s) && CurrentSeen(s) && Enabled(lateness, s, step) && Stray(s, k)
    requires step.Connect? || step.Disconnect? || step.Health? || step.Reconnect?
    ensures Stray(Apply(lateness, s, step), k) && SocketAt(Apply(lateness, s, step), k) == SocketAt(s, k)
  {
  }

  lemma SocketSpares(lateness: nat, s: State, step: Step, k: nat)
    requires FeedInv(s) && Enabled(lateness, s, step) && Stray(s, k) && !Ends(step, k)
    requires !step.Connect? && !step.Disconnect? && !step.Health? && !step.Reconnect?
    ensures var s' := Apply(lateness, s, step);
      && k < |s'.feed.primary.sockets|
      && SocketAt(s', k) == (if step == Opens(k) then Socket(Open, false) else SocketAt(s, k))
  {
  }

  /** No step of the service ends a stray socket, or gives it up again. */
  lemma StrayStep(lateness: nat, s: State, step: Step, k: nat)
    requires FeedInv(s) && CurrentSeen(s) && Enabled(lateness, s, step) && Stray(s, k)
    ensures !GivesUp(s, step, k)
    ensures Stray(Apply(lateness, s, step), k) <==> !Ends(step, k)
    ensures Stray(Apply(lateness, s, step), k) ==>
      (SocketAt(Apply(lateness, s, step), k).ready == Open <==> SocketAt(s, k).ready == Open || step == Opens(k))
  {
    if Ends(step, k) {
      OverStep(lateness, s, step, k);
    } else if step.Connect? || step.Disconnect? || step.Health? || step.Reconnect? {
      ManagerSpares(lateness, s, step, k);
    } else {
      SocketSpares(lateness, s, step, k);
    }
  }

  predicate Over(s: State, k: nat) {
    && k < |s.feed.primary.sockets| && !SocketAt(s, k).listening
    && (SocketAt(s, k).ready == Closing || SocketAt(s, k).ready == Closed)
  }

  lemma ManagerLeavesOver(lateness: nat, s: State, step: Step, k: nat)
    requires FeedInv(s) && Enabled(lateness, s, step) && Over(s, k)
    requires step.Connect? || step.Disconnect? || step.Health? || step.Reconnect?
    ensures Over(Apply(lateness, s, step), k)
  {
  }

  lemma OverStep(lateness: nat, s: State, step: Step, k: nat)
    requires FeedInv(s) && Enabled(lateness, s, step)
    requires Over(s, k) || (Stray(s, k) && Ends(step, k))
    ensures Over(Apply(lateness, s, step), k)
  {
    if step.Connect? || step.Disconnect? || step.Health? || step.Reconnect? { ManagerLeavesOver(lateness, s, step, k); }
  }

  lemma {:induction false} OverRun(lateness: nat, s: State, steps: seq<Step>, k: nat)
    requires FeedInv(s) && ValidRun(lateness, s, steps) && Over(s, k)
    ensures !Stray(Run(lateness, s, steps), k) && !GivenUpForGood(lateness, s, steps, k)
    decreases |steps|
  {
    if steps != [] {
      FeedStep(lateness, s, steps[0]);
      OverStep(lateness, s, steps[0], k);
      OverRun(lateness, Apply(lateness, s, steps[0]), steps[1..], k);
    }
  }

  /** A stray socket stays one until it is ended from outside: the service never closes it. */
  lemma {:induction false} StrayLasts(lateness: nat, s: State, steps: seq<Step>, k: nat)
    requires FeedInv(s) && CurrentSeen(s) && ValidRun(lateness, s, steps) && Stray(s, k)
    ensures Stray(Run(lateness, s, steps), k) <==> Spared(steps, k)
    ensures Spared(steps, k) ==>
      (SocketAt(Run(lateness, s, steps), k).ready == Open <==> SocketAt(s, k).ready == Open || Opens(k) in steps)
    ensures !GivenUpForGood(lateness, s, steps, k)
    decreases |steps|
  {
    if steps != [] {
      var s1 := Apply(lateness, s, steps[0]);
      FeedStep(lateness, s, steps[0]);
      CurrentStaysSeen(lateness, s, steps[0]);
      StrayStep(lateness, s, steps[0], k);
      assert Spared(steps, k) <==> !Ends(steps[0], k) && Spared(steps[1..], k) by { SparedSplit(steps, k); }
      assert Opens(k) in steps <==> Opens(k) == steps[0] || Opens(k) in steps[1..];
      if Ends(steps[0], k) {
        OverStep(lateness, s, steps[0], k);
        OverRun(lateness, s1, steps[1..], k);
      } else {
        StrayLasts(lateness, s1, steps[1..], k);
      }
    }
  }

  lemma SparedSplit(steps: seq<Step>, k: nat)
    requires steps != []
    ensures Spared(steps, k) <==> !Ends(steps[0], k) && Spared(steps[1..], k)
  {
    if !Ends(steps[0], k) && Spared(steps[1..], k) {
      forall n | 0 <= n < |steps| ensures !Ends(steps[n], k) {
        if n > 0 { assert steps[n] == steps[1..][n - 1]; }
      }
    }
  }

  /** Some step gives socket `k` up, and nothing ends the socket after that. */
  ghost predicate GivenUpForGood(lateness: nat, s: State, steps: seq<Step>, k: nat)
    requires ValidRun(lateness, s, steps)
    decreases |steps|
  {
    && steps != []
    && ((GivesUp(s, steps[0], k) && Spared(steps[1..], k))
        || GivenUpForGood(lateness, Apply(lateness, s, steps[0]), steps[1..], k))
  }

  lemma {:induction false} StraysFrom(lateness: nat, s: State, steps: seq<Step>, k: nat)
    requires FeedInv(s) && CurrentSeen(s) && ValidRun(lateness, s, steps) && !Stray(s, k)
    ensures Stray(Run(lateness, s, steps), k) <==> GivenUpForGood(lateness, s, steps, k)
    decreases |steps|
  {
    if steps != [] {
      var s1 := Apply(lateness, s, steps[0]);
      FeedStep(lateness, s, steps[0]);
      CurrentStaysSeen(lateness, s, steps[0]);
      StraysFromNow(lateness, s, steps[0], k);
      if Stray(s1, k) {
        StrayLasts(lateness, s1, steps[1..], k);
      } else {
        StraysFrom(lateness, s1, steps[1..], k);
      }
    }
  }

  /**
   After a run a socket is open or connecting behind the service's back if and only if, at some
   step, the manager was called or checked the health while the primary was active and that
   socket, its current one, still connecting, and nothing outside the service has ended it since:
   `cleanup` closes open sockets only, and forgets the others.
  */
  lemma StraysExactlyWhen(lateness: nat, steps: seq<Step>, k: nat)
    requires ValidRun(lateness, START, steps)
    ensures Stray(Run(lateness, START, steps), k) <==> GivenUpForGood(lateness, START, steps, k)
  {
    StraysFrom(lateness, START, steps, k);
  }

  /** Such a socket is never closed by the service, however the run goes on. It is open as soon as it opens. */
  lemma ServiceNeverClosesStrays(lateness: nat, before: seq<Step>, after: seq<Step>, k: nat)
    requires ValidRun(lateness, START, before) && Stray(Run(lateness, START, before), k)
    requires ValidRun(lateness, Run(lateness, START, before), after)
    ensures var s, e := Run(lateness, START, before), Run(lateness, Run(lateness, START, before), after);
      && (Stray(e, k) <==> Spared(after, k))
      && (Spared(after, k) ==> (SocketAt(e, k).ready == Open <==> SocketAt(s, k).ready == Open || Opens(k) in after))
  {
    FeedRun(lateness, START, before);
    SeenRun(lateness, START, before);
    StrayLasts(lateness, Run(lateness, START, before), after, k);
  }

  lemma {:induction false} SeenRun(lateness: nat, s: State, steps: seq<Step>)
    requires FeedInv(s) && CurrentSeen(s) && ValidRun(lateness, s, steps)
    ensures CurrentSeen(Run(lateness, s, steps))
    decreases |steps|
  {
    if steps != [] {
      FeedStep(lateness, s, steps[0]);
      CurrentStaysSeen(lateness, s, steps[0]);
      SeenRun(lateness, Apply(lateness, s, steps[0]), steps[1..]);
    }
  }

  /** There are such connections: the first of two connects opens after the second. */
  lemma StrayOpens() returns (steps: seq<Step>)
    ensures ValidRun(0, START, steps)
    ensures var s := Run(0, START, steps); Stray(s, 0) && SocketAt(s, 0).ready == Open
  {
    steps := [Connect, Connect, Opens(0)];
    var r1, r2 := steps[1..], steps[2..];
    assert r1[1..] == r2 && r2[1..] == [];
    var s1 := Apply(0, START, Connect);
    assert s1.feed.primary.sockets == [Socket(Connecting, true)];
    var s2 := Apply(0, s1, Connect);
    assert s2.feed.primary.sockets == [Socket(Connecting, false), Socket(Connecting, true)];
    var s3 := Apply(0, s2, Opens(0));
    assert ValidRun(0, s3, []) && Run(0, s3, []) == s3;
    assert ValidRun(0, s2, r2) && Run(0, s2, r2) == s3;
    assert ValidRun(0, s1, r1) && Run(0, s1, r1) == s3;
    assert ValidRun(0, START, steps) && Run(0, START, steps) == s3;
  }

  // ---------------------------------------------------------------- failover

  function Rank(a: Active): nat {
    match a
    case Primary => 2
    case Secondary => 1
    case Nobody => 0
  }

  /** The active service only ever descends, and nobody is active only after a disconnect. */
  lemma {:induction false} FailoverIsOneWay(lateness: nat, s: State, steps: seq<Step>)
    requires FeedInv(s) && ValidRun(lateness, s, steps)
    ensures Rank(Run(lateness, s, steps).feed.active) <= Rank(s.feed.active)
    ensures s.feed.active != Nobody && Disconnect !in steps ==> Run(lateness, s, steps).feed.active != Nobody
    decreases |steps|
  {
    if steps != [] {
      FeedStep(lateness, s, steps[0]);
      FailoverIsOneWay(lateness, Apply(lateness, s, steps[0]), steps[1..]);
    }
  }

  /** When the primary is given up at the latest. */
  function Deadline(s: State): int
    requires s.connectedAt.Some?
  {
    var first := s.connectedAt.value + HEALTH_INTERVAL;
    if s.latestStamp.Some? then Max(first, s.latestStamp.value + HEARTBEAT_LIMIT + HEALTH_INTERVAL) else first
  }

  predicate OneInterval(f: Feed) {
    && ClientOk(f.primary)
    && (forall t :: t in f.health ==> f.healthHandle == Some(t))
  }

  predicate StampsOk(s: State) {
    s.feed.primary.lastHeartBeat.Some? ==>
      s.latestStamp.Some? && s.feed.primary.lastHeartBeat.value <= s.latestStamp.value
  }

  predicate ChecksOk(lateness: nat, s: State) {
    && (s.connectedAt.None? ==> s.feed.health == map[])
    && (forall t :: t in s.feed.health ==>
          && s.now <= s.feed.health[t] + lateness
          && (s.feed.active == Primary && s.connectedAt.Some? ==> s.feed.health[t] <= Deadline(s)))
  }

  ghost predicate Detecting(lateness: nat, s: State) {
    FeedInv(s) && StampsOk(s) && ChecksOk(lateness, s)
  }

  lemma StampsStep(lateness: nat, s: State, step: Step)
    requires StampsOk(s) && Enabled(lateness, s, step)
    ensures StampsOk(Apply(lateness, s, step))
  {
  }

  lemma ChecksStep(lateness: nat, s: State, step: Step)
    requires OneInterval(s.feed) && StampsOk(s) && ChecksOk(lateness, s) && Enabled(lateness, s, step)
    ensures ChecksOk(lateness, Apply(lateness, s, step))
  {
    var s' := Apply(lateness, s, step);
    if step.Health? {
      assert forall u :: u in s'.feed.health ==> u == step.t;
    } else if !step.Connect? && !step.Disconnect? && !step.Tick? {
      assert s'.feed.health == s.feed.health && s'.feed.active == s.feed.active && s'.now == s.now;
    }
  }

  lemma DetectingStep(lateness: nat, s: State, step: Step)
    requires Detecting(lateness, s) && Enabled(lateness, s, step)
    ensures Detecting(lateness, Apply(lateness, s, step))
  {
    FeedStep(lateness, s, step);
    StampsStep(lateness, s, step);
    ChecksStep(lateness, s, step);
  }

  lemma {:induction false} DetectingRun(lateness: nat, s: State, steps: seq<Step>)
    requires Detecting(lateness, s) && ValidRun(lateness, s, steps)
    ensures Detecting(lateness, Run(lateness, s, steps))
    decreases |steps|
  {
    if steps != [] {
      DetectingStep(lateness, s, steps[0]);
      DetectingRun(lateness, Apply(lateness, s, steps[0]), steps[1..]);
    }
  }

  predicate Quiet(step: Step) {
    step.Tick? || step.Health?
  }

  /**
   The other side: while the current socket is open and the last stamp at most 60 seconds old,
   health checks change nothing.
  */
  lemma {:induction false} HeardIsKept(lateness: nat, s: State, steps: seq<Step>, h: int)
    requires ValidRun(lateness, s, steps) && (forall n :: 0 <= n < |steps| ==> Quiet(steps[n]))
    requires s.feed.active == Primary && s.feed.primary.ws.Some? && s.feed.primary.ws.value < |s.feed.primary.sockets|
    requires SocketAt(s, s.feed.primary.ws.value).ready == Open
    requires s.feed.primary.lastHeartBeat == Some(h) && h != 0
    requires Run(lateness, s, steps).now <= h + 60000
    ensures var e := Run(lateness, s, steps);
      e.feed.active == Primary && e.feed.primary == s.feed.primary && e.feed.secondary == s.feed.secondary
    decreases |steps|
  {
    if steps != [] {
      var s1 := Apply(lateness, s, steps[0]);
      TimeGrows(lateness, s1, steps[1..]);
      HeardIsKept(lateness, s1, steps[1..], h);
    }
  }

  lemma {:induction false} TimeGrows(lateness: nat, s: State, steps: seq<Step>)
    requires ValidRun(lateness, s, steps)
    ensures s.now <= Run(lateness, s, steps).now
    decreases |steps|
  {
    if steps != [] { TimeGrows(lateness, Apply(lateness, s, steps[0]), steps[1..]); }
  }

  /** A heartbeat counts from the time it names, or from now where it names none, and restores the retries. */
  lemma HeartbeatIsRemembered(lateness: nat, s: State, k: nat, time: int)
    requires Enabled(lateness, s, Beats(k, time)) && SocketAt(s, k).listening
    ensures var c, c' := s.feed.primary, Apply(lateness, s, Beats(k, time)).feed.primary;
      && c'.lastHeartBeat == Some(if time == 0 then s.now else time) && c'.retries == 0
      && c'.sockets == c.sockets && c'.ws == c.ws && c'.timeouts == c.timeouts
  {
  }

  /**
   Failure detection. The primary is active no longer than 70 seconds after the latest heartbeat
   stamp, nor than 10 seconds after a connect without one, reconnects in between or not. From
   then on the secondary is active, unless somebody disconnected the manager.
  */
  lemma FailoverInTime(lateness: nat, steps: seq<Step>)
    requires ValidRun(lateness, START, steps)
    ensures var s := Run(lateness, START, steps);
      && (s.connectedAt.Some? && s.now > s.connectedAt.value + 10000 + lateness
          && (s.latestStamp.Some? ==> s.now > s.latestStamp.value + 70000 + lateness)
          ==> s.feed.active != Primary && (Disconnect !in steps ==> s.feed.active == Secondary))
  {
    DetectingRun(lateness, START, steps);
    FailoverIsOneWay(lateness, START, steps);
  }

  // ---------------------------------------------------------------- retries

  predicate NoHeartbeat(steps: seq<Step>) {
    forall n :: 0 <= n < |steps| ==> !steps[n].Beats?
  }

  lemma {:induction false} EachRetryCounts(lateness: nat, s: State, steps: seq<Step>)
    requires FeedInv(s) && ValidRun(lateness, s, steps) && NoHeartbeat(steps)
    ensures var e := Run(lateness, s, steps);
      e.scheduled - s.scheduled == e.feed.primary.retries - s.feed.primary.retries
    decreases |steps|
  {
    if steps != [] {
      FeedStep(lateness, s, steps[0]);
      EachRetryCounts(lateness, Apply(lateness, s, steps[0]), steps[1..]);
    }
  }

  /** Three reconnects at most in any stretch without a heartbeat, whoever connects or cleans up in it. */
  lemma RetryBudget(lateness: nat, before: seq<Step>, stretch: seq<Step>)
    requires ValidRun(lateness, START, before)
    requires ValidRun(lateness, Run(lateness, START, before), stretch) && NoHeartbeat(stretch)
    ensures var s := Run(lateness, START, before); Run(lateness, s, stretch).scheduled - s.scheduled <= 3
  {
    FeedRun(lateness, START, before);
    var s := Run(lateness, START, before);
    EachRetryCounts(lateness, s, stretch);
    FeedRun(lateness, s, stretch);
  }

  /**
   A heartbeat restores the budget, and only that: after it, and until the next one, the close of
   the current socket schedules a reconnect if and only if the code is not 1000 and fewer than 3
   were scheduled since. Otherwise the primary falls silent.
  */
  lemma ReconnectsExactlyWithinBudget(lateness: nat, before: seq<Step>, beat: Step, stretch: seq<Step>, k: nat,
      code: int)
    requires ValidRun(lateness, START, before)
    requires var s := Run(lateness, START, before);
      && Enabled(lateness, s, beat) && beat.Beats? && SocketAt(s, beat.k).listening
      && ValidRun(lateness, Apply(lateness, s, beat), stretch) && NoHeartbeat(stretch)
    requires var e := Run(lateness, Apply(lateness, Run(lateness, START, before), beat), stretch);
      Enabled(lateness, e, Closes(k, code)) && SocketAt(e, k).listening
    ensures
      var s := Apply(lateness, Run(lateness, START, before), beat);
      var e := Run(lateness, s, stretch);
      var c := Apply(lateness, e, Closes(k, code)).feed.primary;
      if code != 1000 && e.scheduled - s.scheduled < 3
      then c.reconnect.Some? && c.timeouts == map[c.reconnect.value := e.now + 3]
      else Silent(c)
  {
    FeedRun(lateness, START, before);
    var s0 := Run(lateness, START, before);
    FeedStep(lateness, s0, beat);
    var s := Apply(lateness, s0, beat);
    EachRetryCounts(lateness, s, stretch);
    FeedRun(lateness, s, stretch);
    CloseWithBudget(Run(lateness, s, stretch), k, code);
  }

  lemma CloseWithBudget(s: State, k: nat, code: int)
    requires FeedInv(s) && k < |s.feed.primary.sockets| && SocketAt(s, k).ready != Closed && SocketAt(s, k).listening
    ensures var c := HandleClose(SetReady(s.feed.primary, k, Closed), code, s.now);
      if code != NORMAL_CLOSURE && s.feed.primary.retries < MAX_RETRIES
      then c.reconnect.Some? && c.timeouts == map[c.reconnect.value := s.now + MAX_RETRIES]
      else Silent(c)
  {
    var c0 := s.feed.primary;
    assert c0.timeouts == map[] by { if t :| t in c0.timeouts {} }
    ReadyKeeps(c0, k, Closed);
    CleanupSilences(SetReady(c0, k, Closed));
  }

  lemma {:induction false} BudgetRun(lateness: nat, s: State, steps: seq<Step>)
    requires FeedInv(s) && ValidRun(lateness, s, steps) && s.scheduled <= 3 * s.heartbeats + s.feed.primary.retries
    ensures var e := Run(lateness, s, steps); e.scheduled <= 3 * e.heartbeats + e.feed.primary.retries
    decreases |steps|
  {
    if steps != [] {
      FeedStep(lateness, s, steps[0]);
      BudgetRun(lateness, Apply(lateness, s, steps[0]), steps[1..]);
    }
  }

  /** Over a whole run each heartbeat buys three reconnects, and three are free. */
  lemma ReconnectsAreFinite(lateness: nat, steps: seq<Step>)
    requires ValidRun(lateness, START, steps)
    ensures var e := Run(lateness, START, steps); e.scheduled <= 3 * (e.heartbeats + 1)
  {
    BudgetRun(lateness, START, steps);
    FeedRun(lateness, START, steps);
  }
}

/**
 The three services of the live feed: the CoinAPI socket client, the mock that replaces it, and
 the manager that watches over them. A socket is an entry in the table of all sockets ever
 created; its handlers act on the service, not on the socket, exactly while it is listened to.
*/
module FeedServices {
  import opened Options

  const HEARTBEAT_LIMIT := 60000
  const HEALTH_INTERVAL := 10000
  const MAX_RETRIES := 3
  const NORMAL_CLOSURE := 1000

  datatype Ready = Connecting | Open | Closing | Closed

  datatype Socket = Socket(ready: Ready, listening: bool)

  /** `timeouts` are the pending reconnects of the runtime, each with the time it is due. */
  datatype Client = Client(
    sockets: seq<Socket>,
    ws: Option<nat>,
    lastHeartBeat: Option<int>,
    retries: nat,
    reconnect: Option<nat>,
    timeouts: map<nat, int>,
    nextTimeout: nat)

  const NEW_CLIENT := Client([], None, None, 0, None, map[], 0)

  predicate ClientOk(c: Client) {
    c.ws.Some? ==> c.ws.value < |c.sockets|
  }

  function Detach(s: Socket): Socket {
    Socket(if s.ready == Open then Closing else s.ready, false)
  }

  /** `cleanup`: the pending reconnect, the current socket and the heartbeat are given up. */
  function Cleanup(c: Client): (r: Client)
    requires ClientOk(c)
    ensures ClientOk(r)
  {
    c.(timeouts := if c.reconnect.Some? then c.timeouts - {c.reconnect.value} else c.timeouts,
       reconnect := None,
       sockets := if c.ws.Some? then c.sockets[c.ws.value := Detach(c.sockets[c.ws.value])] else c.sockets,
       lastHeartBeat := None)
  }

  function Connect(c: Client): (r: Client)
    requires ClientOk(c)
    ensures ClientOk(r)
  {
    var c1 := Cleanup(c);
    c1.(sockets := c1.sockets + [Socket(Connecting, true)], ws := Some(|c1.sockets|))
  }

  /** A heartbeat says when it was sent; without a usable time it counts as sent now. */
  function Stamp(time: int, now: int): int {
    if time != 0 then time else now
  }

  function Heartbeat(c: Client, time: int, now: int): Client {
    c.(retries := 0, lastHeartBeat := Some(Stamp(time, now)))
  }

  /** The close handler: done for good, out of retries, or one more reconnect. */
  function HandleClose(c: Client, code: int, now: int): (r: Client)
    requires ClientOk(c)
    ensures ClientOk(r)
  {
    if code == NORMAL_CLOSURE || c.retries >= MAX_RETRIES then Cleanup(c)
    else c.(retries := c.retries + 1, reconnect := Some(c.nextTimeout),
            timeouts := c.timeouts[c.nextTimeout := now + MAX_RETRIES], nextTimeout := c.nextTimeout + 1)
  }

  predicate Healthy(c: Client, now: int)
    requires ClientOk(c)
  {
    && c.ws.Some? && c.sockets[c.ws.value].ready == Open
    && c.lastHeartBeat.Some? && c.lastHeartBeat.value != 0 && now - c.lastHeartBeat.value <= HEARTBEAT_LIMIT
  }

  class CoinApiWebSocketService {
    var sockets: seq<Socket>
    var ws: Option<nat>
    var lastHeartBeat: Option<int>
    var connectionRetriesCount: nat
    var reconnectTimeout: Option<nat>
    var timeouts: map<nat, int>
    var nextTimeout: nat

    constructor ()
      ensures View() == NEW_CLIENT
    {
      sockets, ws, lastHeartBeat := [], None, None;
      connectionRetriesCount, reconnectTimeout, timeouts, nextTimeout := 0, None, map[], 0;
    }

    function View(): Client
      reads this
    {
      Client(sockets, ws, lastHeartBeat, connectionRetriesCount, reconnectTimeout, timeouts, nextTimeout)
    }

    method DoConnect()
      requires ClientOk(View())
      modifies this
      ensures View() == Connect(old(View()))
    {
      DoCleanup();
      sockets := sockets + [Socket(Connecting, true)];
      ws := Some(|sockets| - 1);
    }

    method OnHeartbeat(time: int, now: int)
      modifies this
      ensures View() == Heartbeat(old(View()), time, now)
    {
      connectionRetriesCount := 0;
      lastHeartBeat := Some(now);
      lastHeartBeat := Some(if time != 0 then time else now);
    }

    method OnClose(code: int, now: int)
      requires ClientOk(View())
      modifies this
      ensures View() == HandleClose(old(View()), code, now)
    {
      if code == NORMAL_CLOSURE {
        DoCleanup();
        return;
      }
      if connectionRetriesCount >= MAX_RETRIES {
        DoCleanup();
        return;
      }
      connectionRetriesCount := connectionRetriesCount + 1;
      timeouts := timeouts[nextTimeout := now + MAX_RETRIES];
      reconnectTimeout := Some(nextTimeout);
      nextTimeout := nextTimeout + 1;
    }

    method IsHealthy(now: int) returns (healthy: bool)
      requires ClientOk(View())
      ensures healthy <==> Healthy(View(), now)
    {
      if ws.None? || sockets[ws.value].ready != Open {
        return false;
      }
      if lastHeartBeat.None? || lastHeartBeat.value == 0 || now - lastHeartBeat.value > HEARTBEAT_LIMIT {
        return false;
      }
      return true;
    }

    /** `disconnect` and the error handler do no more than this. */
    method DoCleanup()
      requires ClientOk(View())
      modifies this
      ensures View() == Cleanup(old(View()))
    {
      if reconnectTimeout.Some? {
        timeouts := timeouts - {reconnectTimeout.value};
        reconnectTimeout := None;
      }
      if ws.Some? {
        if sockets[ws.value].ready == Open {
          sockets := sockets[ws.value := sockets[ws.value].(ready := Closing)];
        }
        sockets := sockets[ws.value := sockets[ws.value].(listening := false)];
      }
      lastHeartBeat := None;
    }
  }

  /** The mock: `live` are the interval subscriptions that still emit, under the handle or not. */
  datatype Mock = Mock(subscription: Option<nat>, live: set<nat>, nextSubscription: nat)

  const NEW_MOCK := Mock(None, {}, 0)

  function MockConnect(m: Mock): Mock {
    Mock(Some(m.nextSubscription), m.live + {m.nextSubscription}, m.nextSubscription + 1)
  }

  function MockDisconnect(m: Mock): Mock {
    Mock(None, if m.subscription.Some? then m.live - {m.subscription.value} else m.live, m.nextSubscription)
  }

  class CoinApiSocketMockService {
    var subscription: Option<nat>
    var live: set<nat>
    var nextSubscription: nat

    constructor ()
      ensures View() == NEW_MOCK
    {
      subscription, live, nextSubscription := None, {}, 0;
    }

    function View(): Mock
      reads this
    {
      Mock(subscription, live, nextSubscription)
    }

    method DoConnect()
      modifies this
      ensures View() == MockConnect(old(View()))
    {
      live := live + {nextSubscription};
      subscription := Some(nextSubscription);
      nextSubscription := nextSubscription + 1;
    }

    method DoDisconnect()
      modifies this
      ensures View() == MockDisconnect(old(View()))
    {
      if subscription.Some? {
        live := live - {subscription.value};
      }
      subscription := None;
    }
  }

  datatype Active = Primary | Secondary | Nobody

  /** The manager with its two services. `health` are the running health intervals. */
  datatype Feed = Feed(
    primary: Client,
    secondary: Mock,
    active: Active,
    healthHandle: Option<nat>,
    health: map<nat, int>,
    nextHealth: nat)

  const NEW_FEED := Feed(NEW_CLIENT, NEW_MOCK, Primary, None, map[], 0)

  function ManagerConnect(f: Feed, now: int): Feed
    requires ClientOk(f.primary)
  {
    f.(primary := if f.active == Primary then Connect(f.primary) else f.primary,
       secondary := if f.active == Secondary then MockConnect(f.secondary) else f.secondary,
       health := (if f.healthHandle.Some? then f.health - {f.healthHandle.value} else f.health)
         [f.nextHealth := now + HEALTH_INTERVAL],
       healthHandle := Some(f.nextHealth),
       nextHealth := f.nextHealth + 1)
  }

  function ManagerDisconnect(f: Feed): Feed
    requires ClientOk(f.primary)
  {
    f.(primary := if f.active == Primary then Cleanup(f.primary) else f.primary,
       secondary := if f.active == Secondary then MockDisconnect(f.secondary) else f.secondary,
       active := Nobody,
       health := if f.healthHandle.Some? then f.health - {f.healthHandle.value} else f.health,
       healthHandle := None)
  }

  predicate ManagerHealthy(f: Feed, now: int)
    requires ClientOk(f.primary)
  {
    f.active == Secondary || (f.active == Primary && Healthy(f.primary, now))
  }

  function Failover(f: Feed): Feed
    requires ClientOk(f.primary)
  {
    match f.active
    case Primary => f.(primary := Cleanup(f.primary), active := Secondary, secondary := MockConnect(f.secondary))
    case Secondary => ManagerDisconnect(f)
    case Nobody => f
  }

  /** A run of health interval `t`. */
  function HealthCheck(f: Feed, t: nat, now: int): Feed
    requires ClientOk(f.primary)
  {
    var f1 := f.(health := f.health[t := now + HEALTH_INTERVAL]);
    if ManagerHealthy(f, now) then f1 else Failover(f1)
  }

  class WebSocketManagerService {
    const primaryService: CoinApiWebSocketService
    const secondaryService: CoinApiSocketMockService
    var activeService: Active
    var healthCheckInterval: Option<nat>
    var intervals: map<nat, int>
    var nextInterval: nat

    constructor (primary: CoinApiWebSocketService, secondary: CoinApiSocketMockService)
      ensures primaryService == primary && secondaryService == secondary
      ensures View() == NEW_FEED.(primary := primary.View(), secondary := secondary.View())
    {
      primaryService, secondaryService := primary, secondary;
      activeService, healthCheckInterval, intervals, nextInterval := Primary, None, map[], 0;
    }

    function View(): Feed
      reads this, primaryService, secondaryService
    {
      Feed(primaryService.View(), secondaryService.View(), activeService, healthCheckInterval, intervals, nextInterval)
    }

    method DoConnect(now: int)
      requires ClientOk(primaryService.View())
      modifies this, primaryService, secondaryService
      ensures View() == ManagerConnect(old(View()), now)
    {
      match activeService {
        case Primary => primaryService.DoConnect();
        case Secondary => secondaryService.DoConnect();
        case Nobody =>
      }
      if healthCheckInterval.Some? {
        intervals := intervals - {healthCheckInterval.value};
      }
      intervals := intervals[nextInterval := now + HEALTH_INTERVAL];
      healthCheckInterval := Some(nextInterval);
      nextInterval := nextInterval + 1;
    }

    method DoDisconnect()
      requires ClientOk(primaryService.View())
      modifies this, primaryService, secondaryService
      ensures View() == ManagerDisconnect(old(View()))
      ensures activeService == Nobody && healthCheckInterval == None
      ensures old(healthCheckInterval).Some? ==> old(healthCheckInterval).value !in intervals
    {
      if healthCheckInterval.Some? {
        intervals := intervals - {healthCheckInterval.value};
        healthCheckInterval := None;
      }
      match activeService {
        case Primary => primaryService.DoCleanup();
        case Secondary => secondaryService.DoDisconnect();
        case Nobody =>
      }
      activeService := Nobody;
    }

    method OnHealthInterval(t: nat, now: int)
      requires ClientOk(primaryService.View())
      modifies this, primaryService, secondaryService
      ensures View() == HealthCheck(old(View()), t, now)
    {
      intervals := intervals[t := now + HEALTH_INTERVAL];
      var healthy := activeService == Secondary;
      if activeService == Primary {
        healthy := primaryService.IsHealthy(now);
      }
      if !healthy {
        DoFailover();
      }
    }

    method DoFailover()
      requires ClientOk(primaryService.View())
      modifies this, primaryService, secondaryService
      ensures View() == Failover(old(View()))
      ensures activeService == if old(activeService) == Primary then Secondary else Nobody
      ensures old(activeService) == Secondary ==> healthCheckInterval == None && secondaryService.subscription == None
    {
      if activeService == Primary {
        primaryService.DoCleanup();
        activeService := Secondary;
        secondaryService.DoConnect();
        return;
      }
      if activeService == Secondary {
        DoDisconnect();
        return;
      }
    }
  }
}

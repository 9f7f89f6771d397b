/**
 One instance of `LeaderElectionService` together with its `RoleService` flag and the
 intervals that the runtime keeps for it. Every asynchronous method of the service is cut
 at its `await`: what runs before the command is sent, and what runs when the reply comes.
*/
module LeaderElection {
  import opened Options

  const LOCK_TTL := 60000
  const RENEWAL_INTERVAL := 45000
  const WATCHER_INTERVAL := 15000

  datatype Kind = Heartbeat | Watcher

  /** A running interval and the time at which it is due next. */
  datatype Timer = Timer(kind: Kind, due: int)

  /** Handles are never reset, so they may name an interval that was cleared long ago. */
  datatype Node = Node(
    isLeader: bool,
    heartbeat: Option<nat>,
    watcher: Option<nat>,
    timers: map<nat, Timer>,
    nextTimer: nat)

  const FRESH_NODE := Node(false, None, None, map[], 0)

  function ClearHandle(timers: map<nat, Timer>, handle: Option<nat>): map<nat, Timer> {
    if handle.Some? then timers - {handle.value} else timers
  }

  /** The lock was acquired: leader, the last watcher cleared, a heartbeat started. */
  function Won(n: Node, now: int): Node {
    Node(true, Some(n.nextTimer), n.watcher,
         ClearHandle(n.timers, n.watcher)[n.nextTimer := Timer(Heartbeat, now + RENEWAL_INTERVAL)],
         n.nextTimer + 1)
  }

  /** The lock was taken: worker, the last heartbeat cleared, one more watcher started. */
  function Lost(n: Node, now: int): Node {
    Node(false, n.heartbeat, Some(n.nextTimer),
         ClearHandle(n.timers, n.heartbeat)[n.nextTimer := Timer(Watcher, now + WATCHER_INTERVAL)],
         n.nextTimer + 1)
  }

  function Period(k: Kind): int {
    if k.Heartbeat? then RENEWAL_INTERVAL else WATCHER_INTERVAL
  }

  /** An interval runs its callback at `now` and is scheduled again from there. */
  function Fired(n: Node, t: nat, now: int): Node
    requires t in n.timers
  {
    n.(timers := n.timers[t := Timer(n.timers[t].kind, now + Period(n.timers[t].kind))])
  }

  class LeaderElectionService {
    var isLeader: bool
    var heartbeatInterval: Option<nat>
    var watcherInterval: Option<nat>
    var timers: map<nat, Timer>
    var nextTimer: nat

    constructor ()
      ensures View() == FRESH_NODE
    {
      isLeader := false;
      heartbeatInterval, watcherInterval := None, None;
      timers, nextTimer := map[], 0;
    }

    function View(): Node
      reads this
    {
      Node(isLeader, heartbeatInterval, watcherInterval, timers, nextTimer)
    }

    /** `elect` up to its await: a closed market ends it, otherwise the SET is sent. */
    method Elect(marketOpen: bool) returns (sendSet: bool)
      ensures sendSet == marketOpen
    {
      if !marketOpen {
        return false;
      }
      return true;
    }

    /** `elect` after its await. The flag says whether the feed connection is started. */
    method OnSetReply(acquired: bool, now: int) returns (startConnection: bool)
      modifies this
      ensures View() == if acquired then Won(old(View()), now) else Lost(old(View()), now)
      ensures startConnection == acquired
    {
      if acquired {
        isLeader := true;
        ClearWatcher();
        StartHeartbeat(now);
        startConnection := true;
      } else {
        isLeader := false;
        ClearHeartbeat();
        StartWatching(now);
        startConnection := false;
      }
    }

    /** The heartbeat's reply and the watcher's reply lead to `elect` in the same way. */
    method OnRenewReply(renewed: bool, marketOpen: bool) returns (sendSet: bool)
      ensures sendSet <==> !renewed && marketOpen
    {
      if !renewed {
        sendSet := Elect(marketOpen);
      } else {
        sendSet := false;
      }
    }

    /** Cleared timers, and a DEL exactly when the role is leader. */
    method OnApplicationShutdown() returns (sendDel: bool)
      modifies this`timers
      ensures timers == ClearHandle(ClearHandle(old(timers), heartbeatInterval), watcherInterval)
      ensures sendDel == isLeader
    {
      ClearHeartbeat();
      ClearWatcher();
      sendDel := isLeader;
    }

    method StartHeartbeat(now: int)
      modifies this`timers, this`heartbeatInterval, this`nextTimer
      ensures timers == old(timers)[old(nextTimer) := Timer(Heartbeat, now + RENEWAL_INTERVAL)]
      ensures heartbeatInterval == Some(old(nextTimer)) && nextTimer == old(nextTimer) + 1
    {
      timers := timers[nextTimer := Timer(Heartbeat, now + RENEWAL_INTERVAL)];
      heartbeatInterval := Some(nextTimer);
      nextTimer := nextTimer + 1;
    }

    method StartWatching(now: int)
      modifies this`timers, this`watcherInterval, this`nextTimer
      ensures timers == old(timers)[old(nextTimer) := Timer(Watcher, now + WATCHER_INTERVAL)]
      ensures watcherInterval == Some(old(nextTimer)) && nextTimer == old(nextTimer) + 1
    {
      timers := timers[nextTimer := Timer(Watcher, now + WATCHER_INTERVAL)];
      watcherInterval := Some(nextTimer);
      nextTimer := nextTimer + 1;
    }

    method ClearHeartbeat()
      modifies this`timers
      ensures timers == ClearHandle(old(timers), heartbeatInterval)
    {
      if heartbeatInterval.Some? {
        timers := timers - {heartbeatInterval.value};
      }
    }

    method ClearWatcher()
      modifies this`timers
      ensures timers == ClearHandle(old(timers), watcherInterval)
    {
      if watcherInterval.Some? {
        timers := timers - {watcherInterval.value};
      }
    }
  }
}
